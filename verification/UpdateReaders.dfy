/**
  `UpdatesInner`: one buffer of updates read by several readers, each at its own
  pace. What all readers have read is dropped from the buffer.
 */
module UpdateReaders {
  import opened Sequences

  type Token = nat

  const MAIN_READER_TOKEN: Token := 0

  lemma DropTwice<U>(s: seq<U>, m: nat, n: nat)
    requires m <= n <= |s|
    ensures s[m..][n - m..] == s[n..]
  {}

  datatype Poll<U> = Pending | Ready(taken: seq<U>) | Closed

  class UpdatesInner<U> {
    var updates: seq<U>
    var lastIndexPerReader: map<Token, nat>
    var lastToken: Token
    var wakers: seq<Token>
    /** Whether the `ObservableUpdates` is still there; subscribers only hold it weakly. */
    var alive: bool

    /** What each reader was to get since it registered, and what it got. */
    ghost var due: map<Token, seq<U>>
    ghost var got: map<Token, seq<U>>

    /**
      No reader misses an update or gets one twice: what it got, followed by what the
      buffer still holds for it, is what was due to it.
     */
    ghost predicate Valid()
      reads this
    {
      && MAIN_READER_TOKEN in lastIndexPerReader
      && due.Keys == got.Keys == lastIndexPerReader.Keys
      && (forall t :: t in lastIndexPerReader ==> t <= lastToken && Serves(t))
      && (forall i :: 0 <= i < |wakers| ==> wakers[i] <= lastToken && NothingFor(wakers[i]))
    }

    ghost predicate Serves(t: Token)
      reads this
      requires t in lastIndexPerReader && t in due && t in got
    {
      lastIndexPerReader[t] <= |updates| && due[t] == got[t] + updates[lastIndexPerReader[t]..]
    }

    /** A reader that waits to be woken has nothing to read. */
    ghost predicate NothingFor(t: Token)
      reads this
    {
      t in lastIndexPerReader ==> lastIndexPerReader[t] == |updates|
    }

    constructor ()
      ensures Valid() && alive && due == map[MAIN_READER_TOKEN := []] && got == due && wakers == []
    {
      alive := true;
      updates, lastIndexPerReader, lastToken, wakers := [], map[MAIN_READER_TOKEN := 0], MAIN_READER_TOKEN, [];
      due, got := map[MAIN_READER_TOKEN := []], map[MAIN_READER_TOKEN := []];
    }

    /** A pushed update becomes due to every reader; everyone who waits is woken. */
    method Push(u: U) returns (woken: seq<Token>)
      requires Valid()
      modifies this
      ensures Valid() && alive == old(alive) && got == old(got) && wakers == [] && woken == old(wakers)
      ensures due == map t | t in old(due) :: old(due)[t] + [u]
    {
      updates := updates + [u];
      woken, wakers := wakers, [];
      due := map t | t in due :: due[t] + [u];
    }

    /** Withdraws what was not read yet. */
    method ClearPending()
      requires Valid()
      modifies this
      ensures Valid() && alive == old(alive) && got == old(got) && due == old(got) && wakers == old(wakers)
    {
      updates := [];
      lastIndexPerReader := map t | t in lastIndexPerReader :: 0;
      due := got;
    }

    /** A new reader starts with what happens to be in the buffer. */
    method NewReaderToken() returns (t: Token)
      requires Valid()
      modifies this
      ensures Valid() && alive == old(alive) && t !in old(due) && updates == old(updates)
      ensures due == old(due)[t := updates] && got == old(got)[t := []] && wakers == old(wakers)
    {
      lastToken := lastToken + 1;
      t := lastToken;
      assert updates[0..] == updates && [] + updates == updates;
      lastIndexPerReader := lastIndexPerReader[t := 0];
      due, got := due[t := updates], got[t := []];
      assert Serves(t);
    }

    /** Dropping a subscriber; without the updates there is nothing left to do. */
    method Unsubscribe(t: Token)
      requires Valid() && t != MAIN_READER_TOKEN
      modifies this
      ensures Valid() && alive == old(alive)
      ensures alive ==> due == old(due) - {t} && got == old(got) - {t}
      ensures !alive ==> due == old(due) && got == old(got)
    {
      if alive {
        lastIndexPerReader := lastIndexPerReader - {t};
        due, got := due - {t}, got - {t};
      }
    }

    /** The smallest index any reader is at. */
    method MinIndex() returns (least: nat)
      requires Valid()
      ensures forall t :: t in lastIndexPerReader ==> least <= lastIndexPerReader[t]
      ensures exists t :: t in lastIndexPerReader && lastIndexPerReader[t] == least
    {
      var todo := lastIndexPerReader.Keys - {MAIN_READER_TOKEN};
      least := lastIndexPerReader[MAIN_READER_TOKEN];
      while todo != {}
        invariant todo <= lastIndexPerReader.Keys
        invariant forall t :: t in lastIndexPerReader && t !in todo ==> least <= lastIndexPerReader[t]
        invariant exists t :: t in lastIndexPerReader && lastIndexPerReader[t] == least
        decreases todo
      {
        var t :| t in todo;
        if lastIndexPerReader[t] < least {
          least := lastIndexPerReader[t];
        }
        todo := todo - {t};
      }
    }

    /** Drops exactly what everyone has read: no reader loses anything, and someone needs all that is left. */
    method GarbageCollect()
      requires Valid()
      modifies this
      ensures Valid() && alive == old(alive) && due == old(due) && got == old(got) && wakers == old(wakers)
      ensures lastIndexPerReader.Keys == old(lastIndexPerReader.Keys)
      ensures exists t :: t in lastIndexPerReader && lastIndexPerReader[t] == 0
    {
      var least := MinIndex();
      if least > 0 {
        Drain(least);
      }
    }

    method Drain(n: nat)
      requires Valid()
      requires forall t :: t in lastIndexPerReader ==> n <= lastIndexPerReader[t]
      modifies this
      ensures Valid() && alive == old(alive) && due == old(due) && got == old(got) && wakers == old(wakers)
      ensures lastIndexPerReader.Keys == old(lastIndexPerReader.Keys)
      ensures forall t :: t in lastIndexPerReader ==>
                            lastIndexPerReader[t] == old(lastIndexPerReader[t]) - n
    {
      ghost var all, was := updates, lastIndexPerReader;
      assert forall t :: t in was ==> Serves(t);
      updates := updates[n..];
      lastIndexPerReader := map t | t in lastIndexPerReader :: lastIndexPerReader[t] - n;
      forall t | t in lastIndexPerReader ensures Serves(t) {
        assert due[t] == got[t] + all[was[t]..];
        DropTwice(all, n, was[t]);
      }
    }

    /** A reader gets all that is due to it and that it did not get before, in order. */
    method TakeWithToken(t: Token) returns (taken: seq<U>)
      requires Valid() && t in lastIndexPerReader
      modifies this
      ensures Valid() && alive == old(alive) && due == old(due) && wakers == old(wakers)
      ensures got == old(got)[t := old(got)[t] + taken]
      ensures got[t] == due[t]
    {
      GarbageCollect();
      taken := Read(t);
    }

    /** The second half of `take_with_token`. */
    method Read(t: Token) returns (taken: seq<U>)
      requires Valid() && t in lastIndexPerReader
      modifies this
      ensures Valid() && alive == old(alive) && due == old(due) && wakers == old(wakers)
      ensures got == old(got)[t := old(got)[t] + taken]
      ensures got[t] == due[t]
    {
      taken := updates[lastIndexPerReader[t]..];
      lastIndexPerReader := lastIndexPerReader[t := |updates|];
      got := got[t := got[t] + taken];
      assert updates[|updates|..] == [];
    }

    /**
      `poll_next` of a subscriber: the stream ends exactly when the updates were dropped;
      else it is pending exactly when nothing new is due, and then woken by the next push.
     */
    method PollNext(t: Token) returns (r: Poll<U>)
      requires Valid() && t in lastIndexPerReader
      modifies this
      ensures Valid() && alive == old(alive) && due == old(due)
      ensures r.Closed? <==> !alive
      ensures r.Closed? ==> got == old(got) && wakers == old(wakers)
      ensures alive ==> got[t] == due[t] && (r.Pending? <==> old(got)[t] == old(due)[t])
      ensures r.Pending? ==> got == old(got) && wakers == old(wakers) + [t]
      ensures r.Ready? ==> got == old(got)[t := old(got)[t] + r.taken] && r.taken != [] && wakers == old(wakers)
    {
      if !alive {
        return Closed;
      }
      var taken := TakeWithToken(t);
      if taken == [] {
        assert NothingFor(t);
        wakers := wakers + [t];
        return Pending;
      }
      r := Ready(taken);
    }

    /**
      Dropping the `ObservableUpdates`: what was not read is lost, and nobody is woken,
      so a reader that waits hears of the end only if something else polls it.
     */
    method DropUpdates() returns (woken: seq<Token>)
      requires Valid()
      modifies this
      ensures Valid() && !alive && due == old(due) && got == old(got) && woken == [] && wakers == old(wakers)
    {
      alive := false;
      woken := [];
    }
  }
}
