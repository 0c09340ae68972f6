/**
  A list observed over the FFI: the SDK hands out a snapshot and then a stream
  of batched `VectorDiff`s; each diff is converted (indices narrowed to `u32`)
  and replayed by a foreign listener on its own copy of the list.
 */
module VectorDiffs {
  import opened Sequences

  /** `eyeball_im::VectorDiff`: one change of the observed vector. */
  datatype VectorDiff<T> =
    | Append(values: seq<T>)
    | Clear
    | PushFront(value: T)
    | PushBack(value: T)
    | PopFront
    | PopBack
    | Insert(index: nat, value: T)
    | Set(index: nat, value: T)
    | Remove(index: nat)
    | Truncate(length: nat)
    | Reset(values: seq<T>)

  /** The diffs the observed vector can emit while it holds `s`. */
  predicate Applicable<T>(d: VectorDiff<T>, s: seq<T>) {
    match d
    case Insert(i, _) => i <= |s|
    case Set(i, _) => i < |s|
    case Remove(i) => i < |s|
    case Truncate(n) => n <= |s|
    case _ => true
  }

  function Apply<T>(d: VectorDiff<T>, s: seq<T>): seq<T>
    requires Applicable(d, s)
  {
    match d
    case Append(vs) => s + vs
    case Clear => []
    case PushFront(v) => [v] + s
    case PushBack(v) => s + [v]
    case PopFront => if s == [] then [] else s[1..]
    case PopBack => if s == [] then [] else s[..|s| - 1]
    case Insert(i, v) => s[..i] + [v] + s[i..]
    case Set(i, v) => s[i := v]
    case Remove(i) => s[..i] + s[i + 1..]
    case Truncate(n) => s[..n]
    case Reset(vs) => vs
  }

  predicate ApplicableAll<T>(ds: seq<VectorDiff<T>>, s: seq<T>) {
    ds == [] || (Applicable(ds[0], s) && ApplicableAll(ds[1..], Apply(ds[0], s)))
  }

  function ApplyAll<T>(ds: seq<VectorDiff<T>>, s: seq<T>): seq<T>
    requires ApplicableAll(ds, s)
  {
    if ds == [] then s else ApplyAll(ds[1..], Apply(ds[0], s))
  }

  lemma {:induction false} ApplyAllAppend<T>(a: seq<VectorDiff<T>>, b: seq<VectorDiff<T>>, s: seq<T>)
    ensures ApplicableAll(a + b, s) <==> ApplicableAll(a, s) && ApplicableAll(b, ApplyAll(a, s))
    ensures ApplicableAll(a + b, s) ==> ApplyAll(a + b, s) == ApplyAll(b, ApplyAll(a, s))
  {
    if a == [] {
      assert a + b == b;
    } else {
      assert (a + b)[0] == a[0] && (a + b)[1..] == a[1..] + b;
      if Applicable(a[0], s) {
        ApplyAllAppend(a[1..], b, Apply(a[0], s));
      }
    }
  }
}

module ListReplication {
  import opened Sequences
  import opened VectorDiffs

  const U32_RANGE: nat := 0x1_0000_0000

  type u32 = n: nat | n < U32_RANGE

  /** Rust's `usize as u32`: the low 32 bits. */
  function AsU32(n: nat): u32 { n % U32_RANGE }

  /** `RoomDirectorySearchEntryUpdate` and `LiveLocationShareUpdate`. */
  datatype ListUpdate<U> =
    | UAppend(values: seq<U>)
    | UClear
    | UPushFront(value: U)
    | UPushBack(value: U)
    | UPopFront
    | UPopBack
    | UInsert(index: u32, value: U)
    | USet(index: u32, value: U)
    | URemove(index: u32)
    | UTruncate(length: u32)
    | UReset(values: seq<U>)

  function Convert<T, U>(f: T -> U, d: VectorDiff<T>): ListUpdate<U> {
    match d
    case Append(vs) => UAppend(Map(f, vs))
    case Clear => UClear
    case PushFront(v) => UPushFront(f(v))
    case PushBack(v) => UPushBack(f(v))
    case PopFront => UPopFront
    case PopBack => UPopBack
    case Insert(i, v) => UInsert(AsU32(i), f(v))
    case Set(i, v) => USet(AsU32(i), f(v))
    case Remove(i) => URemove(AsU32(i))
    case Truncate(n) => UTruncate(AsU32(n))
    case Reset(vs) => UReset(Map(f, vs))
  }

  /** What an update asks of the list it is replayed on. */
  function Meaning<U>(u: ListUpdate<U>): VectorDiff<U> {
    match u
    case UAppend(vs) => Append(vs)
    case UClear => Clear
    case UPushFront(v) => PushFront(v)
    case UPushBack(v) => PushBack(v)
    case UPopFront => PopFront
    case UPopBack => PopBack
    case UInsert(i, v) => Insert(i, v)
    case USet(i, v) => Set(i, v)
    case URemove(i) => Remove(i)
    case UTruncate(n) => Truncate(n)
    case UReset(vs) => Reset(vs)
  }

  predicate Replayable<U>(us: seq<ListUpdate<U>>, s: seq<U>) {
    ApplicableAll(Map(Meaning, us), s)
  }

  function Replay<U>(us: seq<ListUpdate<U>>, s: seq<U>): seq<U>
    requires Replayable(us, s)
  {
    ApplyAll(Map(Meaning, us), s)
  }

  function ConvertAll<T, U>(f: T -> U, ds: seq<VectorDiff<T>>): seq<ListUpdate<U>> {
    Map(d => Convert(f, d), ds)
  }

  /** The index or length a diff carries survives the cast to `u32`. */
  predicate Narrow<T>(d: VectorDiff<T>) {
    match d
    case Insert(i, _) => i < U32_RANGE
    case Set(i, _) => i < U32_RANGE
    case Remove(i) => i < U32_RANGE
    case Truncate(n) => n < U32_RANGE
    case _ => true
  }

  predicate AllNarrow<T>(ds: seq<VectorDiff<T>>) {
    forall i :: 0 <= i < |ds| ==> Narrow(ds[i])
  }

  // ---- One diff ----

  /** Replaying the converted diff on the converted list is converting the changed list. */
  ghost predicate Commutes<T, U>(f: T -> U, d: VectorDiff<T>, s: seq<T>)
    requires Applicable(d, s)
  {
    var u := Meaning(Convert(f, d));
    Applicable(u, Map(f, s)) && Apply(u, Map(f, s)) == Map(f, Apply(d, s))
  }

  /** A diff is carried faithfully when it commutes on every list it can be emitted for. */
  ghost predicate Faithful<T(!new), U>(f: T -> U, d: VectorDiff<T>) {
    forall s: seq<T> :: Applicable(d, s) ==> Commutes(f, d, s)
  }

  lemma NarrowCommutes<T, U>(f: T -> U, d: VectorDiff<T>, s: seq<T>)
    requires Applicable(d, s) && Narrow(d)
    ensures Commutes(f, d, s)
  {
    match d
    case Append(vs) => MapAppend(f, s, vs);
    case Insert(i, v) => InsertCommutes(f, i, v, s);
    case Set(i, v) => SetCommutes(f, i, v, s);
    case Remove(i) => RemoveCommutes(f, i, s);
    case Truncate(n) => TruncateCommutes(f, n, s);
    case _ => OtherCommutes(f, d, s);
  }

  lemma InsertCommutes<T, U>(f: T -> U, i: nat, v: T, s: seq<T>)
    requires i <= |s| && i < U32_RANGE
    ensures Commutes(f, Insert(i, v), s)
  {
    assert Meaning(Convert(f, Insert(i, v))) == Insert(i, f(v));
    MapInserted(f, i, v, s);
  }

  lemma MapInserted<T, U>(f: T -> U, i: nat, v: T, s: seq<T>)
    requires i <= |s|
    ensures Map(f, s)[..i] + [f(v)] + Map(f, s)[i..] == Map(f, s[..i] + [v] + s[i..])
  {
    MapAppend(f, s[..i] + [v], s[i..]);
    MapAppend(f, s[..i], [v]);
    assert Map(f, s)[..i] == Map(f, s[..i]) && Map(f, s)[i..] == Map(f, s[i..]) && Map(f, [v]) == [f(v)];
  }

  lemma SetCommutes<T, U>(f: T -> U, i: nat, v: T, s: seq<T>)
    requires i < |s| && i < U32_RANGE
    ensures Commutes(f, Set(i, v), s)
  {
    assert Map(f, s)[i := f(v)] == Map(f, s[i := v]);
  }

  lemma RemoveCommutes<T, U>(f: T -> U, i: nat, s: seq<T>)
    requires i < |s| && i < U32_RANGE
    ensures Commutes(f, Remove(i), s)
  {
    assert Meaning(Convert(f, Remove(i))) == VectorDiff<U>.Remove(i);
    assert Apply(Remove(i), s) == s[..i] + s[i + 1..];
    MapRemoved(f, i, s);
  }

  lemma MapRemoved<T, U>(f: T -> U, i: nat, s: seq<T>)
    requires i < |s|
    ensures Map(f, s)[..i] + Map(f, s)[i + 1..] == Map(f, s[..i] + s[i + 1..])
  {
    MapAppend(f, s[..i], s[i + 1..]);
    assert Map(f, s)[..i] == Map(f, s[..i]) && Map(f, s)[i + 1..] == Map(f, s[i + 1..]);
  }

  lemma TruncateCommutes<T, U>(f: T -> U, n: nat, s: seq<T>)
    requires n <= |s| && n < U32_RANGE
    ensures Commutes(f, Truncate(n), s)
  {
    assert Map(f, s)[..n] == Map(f, s[..n]);
  }

  lemma OtherCommutes<T, U>(f: T -> U, d: VectorDiff<T>, s: seq<T>)
    requires !d.Append? && !d.Insert? && !d.Set? && !d.Remove? && !d.Truncate?
    ensures Commutes(f, d, s)
  {
    var u := Meaning(Convert(f, d));
    assert Apply(u, Map(f, s)) == Map(f, Apply(d, s));
  }

  function Repeat<T>(x: T, n: nat): (s: seq<T>)
    ensures |s| == n && forall i :: 0 <= i < n ==> s[i] == x
  {
    seq(n, _ => x)
  }

  /** A list on which a diff with an index past 2^32 changes the wrong place of the replica. */
  lemma WideDiverges<T, U>(f: T -> U, d: VectorDiff<T>, a: T, b: T) returns (s: seq<T>)
    requires f(a) != f(b) && !Narrow(d)
    ensures Applicable(d, s) && !Commutes(f, d, s)
  {
    match d
    case Insert(i, v) =>
      var w := if f(v) == f(a) then b else a;
      s := Repeat(w, i);
      var k := AsU32(i);
      assert k < i;
      assert Apply(Meaning(Convert(f, d)), Map(f, s))[k] == f(v);
      assert Map(f, Apply(d, s))[k] == f(w);
    case Set(i, v) =>
      var w := if f(v) == f(a) then b else a;
      s := Repeat(w, i + 1);
      var k := AsU32(i);
      assert k < i;
      assert Apply(Meaning(Convert(f, d)), Map(f, s))[k] == f(v);
      assert Map(f, Apply(d, s))[k] == f(w);
    case Remove(i) =>
      s := Repeat(a, i) + [b];
      assert AsU32(i) < i;
      var r := Apply(Meaning(Convert(f, d)), Map(f, s));
      assert r[i - 1] == f(b);
      assert Map(f, Apply(d, s))[i - 1] == f(a);
    case Truncate(n) =>
      s := Repeat(a, n);
      assert AsU32(n) < n;
      assert |Apply(Meaning(Convert(f, d)), Map(f, s))| < n;
  }

  /**
    The cast to `u32` is the only way the protocol can lose information: a diff
    is carried faithfully exactly when its index fits (for any conversion that
    tells at least two elements apart).
   */
  lemma FaithfulIffNarrow<T(!new), U>(f: T -> U, d: VectorDiff<T>, a: T, b: T)
    requires f(a) != f(b)
    ensures Faithful(f, d) <==> Narrow(d)
  {
    if Narrow(d) {
      forall s: seq<T> | Applicable(d, s) ensures Commutes(f, d, s) {
        NarrowCommutes(f, d, s);
      }
    } else {
      var s := WideDiverges(f, d, a, b);
      assert Applicable(d, s) && !Commutes(f, d, s);
    }
  }

  // ---- Whole runs ----

  /** The source list is shorter than 2^32 whenever a diff is emitted. */
  predicate LengthsBelow<T>(ds: seq<VectorDiff<T>>, s: seq<T>)
    requires ApplicableAll(ds, s)
  {
    ds == [] || (|s| < U32_RANGE && LengthsBelow(ds[1..], Apply(ds[0], s)))
  }

  /** A source that stays below 2^32 elements never emits an index the cast would change. */
  lemma {:induction false} LengthBoundGivesNarrow<T>(ds: seq<VectorDiff<T>>, s: seq<T>)
    requires ApplicableAll(ds, s) && LengthsBelow(ds, s)
    ensures AllNarrow(ds)
  {
    if ds != [] {
      LengthBoundGivesNarrow(ds[1..], Apply(ds[0], s));
      assert ds == [ds[0]] + ds[1..];
    }
  }

  /** Simulation of any number of diffs: the replica follows the source. */
  lemma {:induction false} ReplayFollows<T, U>(f: T -> U, ds: seq<VectorDiff<T>>, s: seq<T>)
    requires ApplicableAll(ds, s) && AllNarrow(ds)
    ensures Replayable(ConvertAll(f, ds), Map(f, s))
    ensures Replay(ConvertAll(f, ds), Map(f, s)) == Map(f, ApplyAll(ds, s))
  {
    var us := Map(Meaning, ConvertAll(f, ds));
    if ds != [] {
      NarrowCommutes(f, ds[0], s);
      ReplayFollows(f, ds[1..], Apply(ds[0], s));
      assert us[1..] == Map(Meaning, ConvertAll(f, ds[1..]));
    }
  }

  predicate BatchesApplicable<T>(batches: seq<seq<VectorDiff<T>>>, s: seq<T>) {
    batches == []
    || (ApplicableAll(batches[0], s) && BatchesApplicable(batches[1..], ApplyAll(batches[0], s)))
  }

  /** The source list after each batch. */
  function SourceAfterEach<T>(batches: seq<seq<VectorDiff<T>>>, s: seq<T>): (r: seq<seq<T>>)
    requires BatchesApplicable(batches, s)
    ensures |r| == |batches|
  {
    if batches == [] then []
    else
      var next := ApplyAll(batches[0], s);
      [next] + SourceAfterEach(batches[1..], next)
  }

  function Last<T>(initial: seq<T>, after: seq<seq<T>>): seq<T> {
    if after == [] then initial else after[|after| - 1]
  }

  /** How the stream is cut into batches does not matter for where the source ends up. */
  lemma {:induction false} BatchingIsIrrelevant<T>(batches: seq<seq<VectorDiff<T>>>, s: seq<T>)
    ensures BatchesApplicable(batches, s) <==> ApplicableAll(Flatten(batches), s)
    ensures BatchesApplicable(batches, s) ==>
              Last(s, SourceAfterEach(batches, s)) == ApplyAll(Flatten(batches), s)
  {
    if batches != [] {
      ApplyAllAppend(batches[0], Flatten(batches[1..]), s);
      if ApplicableAll(batches[0], s) {
        BatchingIsIrrelevant(batches[1..], ApplyAll(batches[0], s));
      }
    }
  }

  predicate BatchesNarrow<T>(batches: seq<seq<VectorDiff<T>>>) {
    forall k :: 0 <= k < |batches| ==> AllNarrow(batches[k])
  }

  /** The same bound for a stream in batches. */
  lemma ShortSourceGivesNarrowBatches<T>(batches: seq<seq<VectorDiff<T>>>, s: seq<T>)
    requires ApplicableAll(Flatten(batches), s) && LengthsBelow(Flatten(batches), s)
    ensures BatchesApplicable(batches, s) && BatchesNarrow(batches)
  {
    BatchingIsIrrelevant(batches, s);
    LengthBoundGivesNarrow(Flatten(batches), s);
    NarrowInBatches(batches);
  }

  lemma {:induction false} NarrowInBatches<T>(batches: seq<seq<VectorDiff<T>>>)
    requires AllNarrow(Flatten(batches))
    ensures BatchesNarrow(batches)
  {
    if batches != [] {
      var first, rest := batches[0], Flatten(batches[1..]);
      assert forall i :: 0 <= i < |first| ==> Narrow((first + rest)[i]) && (first + rest)[i] == first[i];
      assert forall i :: 0 <= i < |rest| ==>
          Narrow((first + rest)[|first| + i]) && (first + rest)[|first| + i] == rest[i];
      NarrowInBatches(batches[1..]);
      forall k | 0 <= k < |batches| ensures AllNarrow(batches[k]) {
        if k > 0 {
          assert batches[k] == batches[1..][k - 1];
        }
      }
    }
  }

  // ---- The observers ----

  /** The foreign listener: the calls it gets, oldest first. */
  class Listener<U> {
    var received: seq<seq<ListUpdate<U>>>

    constructor ()
      ensures received == []
    {
      received := [];
    }

    method OnUpdate(updates: seq<ListUpdate<U>>)
      modifies this
      ensures received == old(received) + [updates]
    {
      received := received + [updates];
    }
  }

  function ConvertBatches<T, U>(f: T -> U, batches: seq<seq<VectorDiff<T>>>): seq<seq<ListUpdate<U>>> {
    Map(ds => ConvertAll(f, ds), batches)
  }

  /** The `while let Some(diffs) = stream.next().await` loop of both observers. */
  method Forward<T, U>(f: T -> U, batches: seq<seq<VectorDiff<T>>>, listener: Listener<U>)
    modifies listener
    ensures listener.received == old(listener.received) + ConvertBatches(f, batches)
  {
    var k := 0;
    while k < |batches|
      invariant 0 <= k <= |batches|
      invariant listener.received == old(listener.received) + ConvertBatches(f, batches[..k])
    {
      listener.OnUpdate(ConvertAll(f, batches[k]));
      assert batches[..k + 1] == batches[..k] + [batches[k]];
      k := k + 1;
    }
    assert batches[..k] == batches;
  }

  /** `RoomDirectorySearch::results`: always starts with a `Reset`. */
  method Results<T, U>(f: T -> U, initial: seq<T>, batches: seq<seq<VectorDiff<T>>>, listener: Listener<U>)
    modifies listener
    ensures listener.received
            == old(listener.received) + ([[UReset(Map(f, initial))]] + ConvertBatches(f, batches))
  {
    listener.OnUpdate([UReset(Map(f, initial))]);
    Forward(f, batches, listener);
  }

  /** `LiveLocationsObserver::subscribe`: an empty snapshot is not sent. */
  method Subscribe<T, U>(f: T -> U, initial: seq<T>, batches: seq<seq<VectorDiff<T>>>, listener: Listener<U>)
    modifies listener
    ensures listener.received
            == old(listener.received)
               + (Snapshot(f, initial) + ConvertBatches(f, batches))
  {
    if initial != [] {
      listener.OnUpdate([UReset(Map(f, initial))]);
    }
    Forward(f, batches, listener);
  }

  // ---- What the listener can rebuild from the calls ----

  function Meanings<U>(calls: seq<seq<ListUpdate<U>>>): seq<seq<VectorDiff<U>>> {
    Map(us => Map(Meaning, us), calls)
  }

  /** Every update can be replayed, on a copy that starts as `held`. */
  predicate CallsReplayable<U>(calls: seq<seq<ListUpdate<U>>>, held: seq<U>) {
    BatchesApplicable(Meanings(calls), held)
  }

  /** The copy after each call. */
  function ReplicaAfterEach<U>(calls: seq<seq<ListUpdate<U>>>, held: seq<U>): seq<seq<U>>
    requires CallsReplayable(calls, held)
  {
    SourceAfterEach(Meanings(calls), held)
  }

  function ConvertLists<T, U>(f: T -> U, lists: seq<seq<T>>): seq<seq<U>> {
    Map(s => Map(f, s), lists)
  }

  /** A copy that agrees with the source agrees with it again after every call. */
  lemma {:induction false} ReplicaFollows<T, U>(f: T -> U, batches: seq<seq<VectorDiff<T>>>, s: seq<T>)
    requires BatchesApplicable(batches, s) && BatchesNarrow(batches)
    ensures CallsReplayable(ConvertBatches(f, batches), Map(f, s))
    ensures ReplicaAfterEach(ConvertBatches(f, batches), Map(f, s)) == ConvertLists(f, SourceAfterEach(batches, s))
  {
    var calls := Meanings(ConvertBatches(f, batches));
    if batches != [] {
      ReplayFollows(f, batches[0], s);
      var next := ApplyAll(batches[0], s);
      ReplicaFollows(f, batches[1..], next);
      assert calls[0] == Map(Meaning, ConvertAll(f, batches[0]));
      assert calls[1..] == Meanings(ConvertBatches(f, batches[1..]));
      ConvertListsCons(f, next, SourceAfterEach(batches[1..], next));
    }
  }

  lemma ConvertListsCons<T, U>(f: T -> U, first: seq<T>, rest: seq<seq<T>>)
    ensures ConvertLists(f, [first] + rest) == [Map(f, first)] + ConvertLists(f, rest)
  {}

  /** A call with one `Reset` puts the copy right, whatever it was. */
  lemma {:induction false} ResetFirst<U>(values: seq<U>, calls: seq<seq<ListUpdate<U>>>, held: seq<U>)
    requires CallsReplayable(calls, values)
    ensures CallsReplayable([[UReset(values)]] + calls, held)
    ensures ReplicaAfterEach([[UReset(values)]] + calls, held) == [values] + ReplicaAfterEach(calls, values)
  {
    var all := Meanings([[UReset(values)]] + calls);
    var first := Map(Meaning, [UReset(values)]);
    assert all[0] == first && all[1..] == Meanings(calls);
    assert first == [Reset(values)] && first[1..] == [];
    assert ApplyAll(first, held) == ApplyAll(first[1..], values);
  }

  /** The calls of `Results`: after each of them the copy is the source, however the copy started. */
  lemma ResultsAreReplicated<T, U>(f: T -> U, initial: seq<T>, batches: seq<seq<VectorDiff<T>>>, held: seq<U>)
    requires BatchesApplicable(batches, initial) && BatchesNarrow(batches)
    ensures var calls := [[UReset(Map(f, initial))]] + ConvertBatches(f, batches);
            && CallsReplayable(calls, held)
            && ReplicaAfterEach(calls, held) == ConvertLists(f, [initial] + SourceAfterEach(batches, initial))
  {
    ReplicaFollows(f, batches, initial);
    ResetFirst(Map(f, initial), ConvertBatches(f, batches), held);
    ConvertListsCons(f, initial, SourceAfterEach(batches, initial));
  }

  /** `Results` over a source that stays below 2^32 elements: nothing else is needed. */
  lemma ShortResultsAreReplicated<T, U>(f: T -> U, initial: seq<T>, batches: seq<seq<VectorDiff<T>>>, held: seq<U>)
    requires ApplicableAll(Flatten(batches), initial) && LengthsBelow(Flatten(batches), initial)
    ensures var calls := [[UReset(Map(f, initial))]] + ConvertBatches(f, batches);
            && BatchesApplicable(batches, initial) && CallsReplayable(calls, held)
            && ReplicaAfterEach(calls, held) == ConvertLists(f, [initial] + SourceAfterEach(batches, initial))
  {
    ShortSourceGivesNarrowBatches(batches, initial);
    ResultsAreReplicated(f, initial, batches, held);
  }

  /** The calls of `Subscribe` before the first batch. */
  function Snapshot<T, U>(f: T -> U, initial: seq<T>): seq<seq<ListUpdate<U>>> {
    if initial == [] then [] else [[UReset(Map(f, initial))]]
  }

  /**
    The calls of `Subscribe`, for a copy that starts as any `held`: once the snapshot
    was sent or left out, the copy is the source exactly when there was a snapshot to
    send or nothing to clear, and then it follows the source batch by batch.
   */
  lemma SubscribersAreReplicatedIff<T, U>(f: T -> U, initial: seq<T>, batches: seq<seq<VectorDiff<T>>>, held: seq<U>)
    requires BatchesApplicable(batches, initial) && BatchesNarrow(batches)
    ensures var first, calls := Snapshot(f, initial), Snapshot(f, initial) + ConvertBatches(f, batches);
            && CallsReplayable(first, held)
            && (Last(held, ReplicaAfterEach(first, held)) == Map(f, initial) <==> initial != [] || held == [])
            && (initial != [] || held == [] ==>
                  && CallsReplayable(calls, held)
                  && ReplicaAfterEach(calls, held)
                     == ConvertLists(f, (if initial == [] then [] else [initial]) + SourceAfterEach(batches, initial)))
  {
    var first := Snapshot(f, initial);
    assert Map(f, initial) == [] <==> initial == [];
    if initial == [] {
      assert Meanings<U>([]) == [];
      if held == [] {
        ReplicaFollows(f, batches, initial);
        assert [] + ConvertBatches(f, batches) == ConvertBatches(f, batches);
        assert [] + SourceAfterEach(batches, initial) == SourceAfterEach(batches, initial);
      }
    } else {
      assert Meanings<U>([]) == [];
      ResetFirst(Map(f, initial), [], held);
      assert first + [] == first;
      ResultsAreReplicated(f, initial, batches, held);
    }
  }

  /** `Subscribe` over a source that stays below 2^32 elements: nothing else is needed. */
  lemma ShortSubscribersAreReplicatedIff<T, U>(f: T -> U, initial: seq<T>, batches: seq<seq<VectorDiff<T>>>,
                                               held: seq<U>)
    requires ApplicableAll(Flatten(batches), initial) && LengthsBelow(Flatten(batches), initial)
    ensures var first, calls := Snapshot(f, initial), Snapshot(f, initial) + ConvertBatches(f, batches);
            && BatchesApplicable(batches, initial) && CallsReplayable(first, held)
            && (Last(held, ReplicaAfterEach(first, held)) == Map(f, initial) <==> initial != [] || held == [])
            && (initial != [] || held == [] ==>
                  && CallsReplayable(calls, held)
                  && ReplicaAfterEach(calls, held)
                     == ConvertLists(f, (if initial == [] then [] else [initial]) + SourceAfterEach(batches, initial)))
  {
    ShortSourceGivesNarrowBatches(batches, initial);
    SubscribersAreReplicatedIff(f, initial, batches, held);
  }

  /** A copy that was not empty keeps what it had: it is not cleared, and later diffs come after. */
  lemma StaleCopyStays<T, U>(f: T -> U, stale: U, v: T)
    ensures var batches: seq<seq<VectorDiff<T>>> := [[PushBack(v)]];
            var calls := Snapshot(f, []) + ConvertBatches(f, batches);
            && BatchesApplicable(batches, []) && SourceAfterEach(batches, []) == [[v]]
            && CallsReplayable(calls, [stale]) && ReplicaAfterEach(calls, [stale]) == [[stale, f(v)]]
  {
    var batches: seq<seq<VectorDiff<T>>> := [[PushBack(v)]];
    OneDiff(PushBack(v), []);
    assert [] + [v] == [v];
    var calls := Snapshot(f, []) + ConvertBatches(f, batches);
    var converted := ConvertAll(f, [PushBack(v)]);
    assert converted == [UPushBack(f(v))];
    assert calls == [converted];
    var meaning := Map(Meaning<U>, converted);
    assert meaning == [PushBack(f(v))];
    assert Meanings(calls) == [meaning];
    OneDiff(PushBack(f(v)), [stale]);
    assert [stale] + [f(v)] == [stale, f(v)];
  }

  lemma OneDiff<T>(d: VectorDiff<T>, s: seq<T>)
    requires Applicable(d, s)
    ensures BatchesApplicable([[d]], s) && SourceAfterEach([[d]], s) == [Apply(d, s)]
  {
    assert [d][1..] == [] && [[d]][1..] == [];
    assert ApplyAll([d], s) == ApplyAll([d][1..], Apply(d, s));
  }
}
