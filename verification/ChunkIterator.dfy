/**
  `ChunkIterator`: a vector handed out in chunks. `next` looks at the vector
  under a read lock, releases it, and splits under a write lock, so other calls
  can run in between.
 */
module ChunkIterator {
  import opened Sequences

  const U32_MAX: nat := 0xFFFF_FFFF

  function Min(a: nat, b: nat): nat { if a < b then a else b }

  // ---- The object, one call at a time ----

  /** Result and remaining items of one undisturbed `next(size)`. */
  function SerialNext<T>(items: seq<T>, size: nat): (Option<seq<T>>, seq<T>) {
    if items == [] then (None, items)
    else
      var n := Min(|items|, size);
      (Some(items[..n]), items[n..])
  }

  class ChunkIterator<T> {
    var items: seq<T>

    constructor (items: seq<T>)
      ensures this.items == items
    {
      this.items := items;
    }

    /** `None` stands for the panic of `try_into().unwrap()`. */
    method Len() returns (len: Option<nat>)
      ensures len == (if |items| <= U32_MAX then Some(|items|) else None)
    {
      len := if |items| <= U32_MAX then Some(|items|) else None;
    }

    method Next(chunkSize: nat) returns (chunk: Option<seq<T>>)
      modifies this
      ensures (chunk, items) == SerialNext(old(items), chunkSize)
    {
      if |items| == 0 {
        chunk := None;
      } else if chunkSize == 0 {
        chunk := Some([]);
      } else {
        var n := Min(|items|, chunkSize);
        // `split_off` leaves the head behind and returns the tail; then swap.
        var tail := items[n..];
        items := items[..n];
        tail, items := items, tail;
        chunk := Some(tail);
      }
    }
  }

  // ---- Serial draining ----

  function SerialResults<T>(items: seq<T>, sizes: seq<nat>): (r: seq<Option<seq<T>>>)
    ensures |r| == |sizes|
  {
    if sizes == [] then []
    else
      var (chunk, rest) := SerialNext(items, sizes[0]);
      [chunk] + SerialResults(rest, sizes[1..])
  }

  function SerialItems<T>(items: seq<T>, sizes: seq<nat>): seq<T> {
    if sizes == [] then items else SerialItems(SerialNext(items, sizes[0]).1, sizes[1..])
  }

  /** The chunks of `k` elements that `items` falls into, the last one possibly shorter. */
  function ChunksOf<T>(items: seq<T>, k: nat): seq<seq<T>>
    requires k > 0
    decreases |items|
  {
    if items == [] then []
    else
      var n := Min(|items|, k);
      [items[..n]] + ChunksOf(items[n..], k)
  }

  /** `m` is `n / k` rounded up. */
  predicate IsCeilDiv(m: nat, n: nat, k: nat) {
    n <= m * k && (m > 0 ==> (m - 1) * k < n)
  }

  lemma CeilDivStep(m: nat, n: nat, k: nat)
    requires 0 < k < n && IsCeilDiv(m, n - k, k)
    ensures IsCeilDiv(m + 1, n, k)
  {
    assert (m + 1) * k == m * k + k;
    if m > 0 {
      assert (m - 1) * k + k == m * k;
    }
  }

  /** `ceil(n/k)` chunks; every one but the last has `k` elements, the last has between 1 and `k`. */
  lemma {:induction false} ChunkShape<T>(items: seq<T>, k: nat)
    requires k > 0
    ensures IsCeilDiv(|ChunksOf(items, k)|, |items|, k)
    ensures forall j :: 0 <= j < |ChunksOf(items, k)| ==>
              if j + 1 < |ChunksOf(items, k)| then |ChunksOf(items, k)[j]| == k
              else 1 <= |ChunksOf(items, k)[j]| <= k
    ensures Flatten(ChunksOf(items, k)) == items
    decreases |items|
  {
    var cs := ChunksOf(items, k);
    if items != [] {
      var n := Min(|items|, k);
      var rest := ChunksOf(items[n..], k);
      ChunkShape(items[n..], k);
      assert cs == [items[..n]] + rest && cs[1..] == rest;
      assert items == items[..n] + items[n..];
      if |items| <= k {
        assert items[n..] == [];
      } else {
        CeilDivStep(|rest|, |items|, k);
        assert rest != [];
      }
    }
  }

  function NonEmpty<T>(results: seq<Option<seq<T>>>): seq<seq<T>> {
    if results == [] then []
    else (match results[0]
          case None => []
          case Some(c) => if |c| == 0 then [] else [c]) + NonEmpty(results[1..])
  }

  function Count(k: nat, sizes: seq<nat>): nat {
    if sizes == [] then 0 else (if sizes[0] == k then 1 else 0) + Count(k, sizes[1..])
  }

  /**
    Draining with chunk size `k`, zero-size calls mixed in anywhere: the non-empty
    chunks are the first ones of `ChunksOf`, as many as there were calls of size `k`.
   */
  lemma {:induction false} SerialDrain<T>(items: seq<T>, k: nat, sizes: seq<nat>)
    requires k > 0
    requires forall i :: 0 <= i < |sizes| ==> sizes[i] == 0 || sizes[i] == k
    ensures NonEmpty(SerialResults(items, sizes))
            == ChunksOf(items, k)[..Min(Count(k, sizes), |ChunksOf(items, k)|)]
    decreases |sizes|
  {
    if sizes != [] {
      var (chunk, rest) := SerialNext(items, sizes[0]);
      SerialDrain(rest, k, sizes[1..]);
      assert SerialResults(items, sizes)[1..] == SerialResults(rest, sizes[1..]);
      if items != [] && sizes[0] == k {
        assert ChunksOf(items, k) == [chunk.value] + ChunksOf(rest, k);
      }
    }
  }

  /** A call returns `None` exactly when `ceil(n/k)` calls of size `k` came before it. */
  lemma {:induction false} SerialDrainEnds<T>(items: seq<T>, k: nat, sizes: seq<nat>, i: nat)
    requires k > 0 && i < |sizes|
    requires forall j :: 0 <= j < |sizes| ==> sizes[j] == 0 || sizes[j] == k
    ensures SerialResults(items, sizes)[i] == None <==> Count(k, sizes[..i]) >= |ChunksOf(items, k)|
    decreases |sizes|
  {
    var rest := SerialNext(items, sizes[0]).1;
    if i > 0 {
      SerialDrainEnds(rest, k, sizes[1..], i - 1);
      assert SerialResults(items, sizes)[i] == SerialResults(rest, sizes[1..])[i - 1];
      assert sizes[..i][1..] == sizes[1..][..i - 1];
      assert items != [] && sizes[0] == k ==> |ChunksOf(items, k)| == 1 + |ChunksOf(rest, k)|;
    }
  }

  // ---- Concurrent calls ----

  type Thread = nat

  /** A finished call: who made it, with which size, and what it returned. */
  datatype Outcome<T> = Outcome(thread: Thread, size: nat, chunk: Option<seq<T>>)

  /** `pending` holds the calls between their read lock and their write lock. */
  datatype State<T> = State(items: seq<T>, pending: map<Thread, nat>, finished: seq<Outcome<T>>)

  /** The two lock phases of `next`. */
  datatype Action = Check(thread: Thread, size: nat) | Split(thread: Thread)

  predicate Enabled<T>(s: State<T>, a: Action) {
    match a
    case Check(t, _) => t !in s.pending
    case Split(t) => t in s.pending
  }

  function Step<T>(s: State<T>, a: Action): State<T>
    requires Enabled(s, a)
  {
    match a
    case Check(t, size) =>
      if s.items == [] then s.(finished := s.finished + [Outcome(t, size, None)])
      else if size == 0 then s.(finished := s.finished + [Outcome(t, size, Some([]))])
      else s.(pending := s.pending[t := size])
    case Split(t) =>
      var size := s.pending[t];
      var n := Min(|s.items|, size);
      State(s.items[n..], s.pending - {t}, s.finished + [Outcome(t, size, Some(s.items[..n]))])
  }

  /** `states` are the states an iterator created with `items` goes through in the interleaving `run`. */
  ghost predicate IsRun<T>(items: seq<T>, run: seq<Action>, states: seq<State<T>>) {
    && |states| == |run| + 1
    && states[0] == State(items, map[], [])
    && forall i :: 0 <= i < |run| ==> Enabled(states[i], run[i]) && states[i + 1] == Step(states[i], run[i])
  }

  function Chunk<T>(o: Outcome<T>): seq<T> {
    if o.chunk.Some? then o.chunk.value else []
  }

  function Chunks<T>(finished: seq<Outcome<T>>): seq<seq<T>> {
    Map(Chunk, finished)
  }

  /** Nothing is lost, duplicated or reordered, whatever the interleaving. */
  lemma {:induction false} Conservation<T>(items: seq<T>, run: seq<Action>, states: seq<State<T>>, i: nat)
    requires IsRun(items, run, states) && i < |states|
    ensures Flatten(Chunks(states[i].finished)) + states[i].items == items
  {
    if i == 0 {
      assert Chunks<T>([]) == [];
    } else {
      Conservation(items, run, states, i - 1);
      StepConserves(states[i - 1], run[i - 1]);
    }
  }

  lemma StepConserves<T>(s: State<T>, a: Action)
    requires Enabled(s, a)
    ensures Flatten(Chunks(Step(s, a).finished)) + Step(s, a).items == Flatten(Chunks(s.finished)) + s.items
  {
    var after := Step(s, a);
    if after.finished != s.finished {
      var o := after.finished[|s.finished|];
      assert after.finished == s.finished + [o];
      assert Chunk(o) + after.items == s.items;
      OneMoreChunk(s.finished, o, after.items);
    }
  }

  lemma OneMoreChunk<T>(finished: seq<Outcome<T>>, o: Outcome<T>, rest: seq<T>)
    ensures Flatten(Chunks(finished + [o])) + rest == Flatten(Chunks(finished)) + (Chunk(o) + rest)
  {
    assert Chunks(finished + [o]) == Chunks(finished) + [Chunk(o)];
    FlattenSnoc(Chunks(finished), Chunk(o));
  }

  function Sizes<T>(finished: seq<Outcome<T>>): seq<nat> {
    Map((o: Outcome<T>) => o.size, finished)
  }

  lemma {:induction false} SerialSnoc<T>(items: seq<T>, sizes: seq<nat>, size: nat)
    ensures SerialItems(items, sizes + [size]) == SerialNext(SerialItems(items, sizes), size).1
    ensures SerialResults(items, sizes + [size])
            == SerialResults(items, sizes) + [SerialNext(SerialItems(items, sizes), size).0]
    decreases |sizes|
  {
    if sizes == [] {
      assert sizes + [size] == [size];
      assert [size][1..] == [];
    } else {
      assert (sizes + [size])[1..] == sizes[1..] + [size];
      SerialSnoc(SerialNext(items, sizes[0]).1, sizes[1..], size);
    }
  }

  /** A non-`None` empty chunk although something was asked for. */
  predicate EmptyHanded<T>(o: Outcome<T>) {
    o.size > 0 && o.chunk.Some? && |o.chunk.value| == 0
  }

  /** What the serial object would have returned to this call. */
  function Repaired<T>(o: Outcome<T>): Option<seq<T>> {
    if EmptyHanded(o) then None else o.chunk
  }

  /**
    Every concurrent run is the serial run of its calls in the order in which they
    finished, with one exception: a call that comes away empty-handed would have
    returned `None`.
   */
  lemma {:induction false} LinearizableButForEmptyChunks<T>(
    items: seq<T>, run: seq<Action>, states: seq<State<T>>, i: nat)
    requires IsRun(items, run, states) && i < |states|
    ensures states[i].items == SerialItems(items, Sizes(states[i].finished))
    ensures Map(Repaired, states[i].finished) == SerialResults(items, Sizes(states[i].finished))
    ensures forall t :: t in states[i].pending ==> states[i].pending[t] > 0
  {
    if i == 0 {
      assert Sizes<T>([]) == [];
    } else {
      LinearizableButForEmptyChunks(items, run, states, i - 1);
      var before, after := states[i - 1], states[i];
      if after.finished != before.finished {
        var o := after.finished[|before.finished|];
        assert after.finished == before.finished + [o];
        assert Sizes(after.finished) == Sizes(before.finished) + [o.size];
        SerialSnoc(items, Sizes(before.finished), o.size);
        assert Map(Repaired, after.finished) == Map(Repaired, before.finished) + [Repaired(o)];
        assert Repaired(o) == SerialNext(before.items, o.size).0;
      }
    }
  }

  /** Once empty, always empty, so `None` is final: every later call returns `None` as well. */
  lemma {:induction false} NoneIsFinal<T>(items: seq<T>, run: seq<Action>, states: seq<State<T>>, i: nat, j: nat)
    requires IsRun(items, run, states) && i <= j < |states| && states[i].items == []
    ensures states[j].items == []
    ensures j < |run| && run[j].Check? ==>
              states[j + 1].finished == states[j].finished + [Outcome(run[j].thread, run[j].size, None)]
  {
    if i < j {
      NoneIsFinal(items, run, states, i, j - 1);
    }
  }

  /** The call pending at `n` passed its check at step `i`, on a non-empty vector. */
  ghost predicate CheckedAt<T>(run: seq<Action>, states: seq<State<T>>, t: Thread, i: nat, n: nat) {
    && i < n <= |run| < |states|
    && run[i].Check? && run[i].thread == t && run[i].size > 0 && states[i].items != []
    && forall j :: i < j < n ==> run[j].thread != t
  }

  lemma {:induction false} PendingWasChecked<T>(
    items: seq<T>, run: seq<Action>, states: seq<State<T>>, t: Thread, n: nat) returns (i: nat)
    requires IsRun(items, run, states) && n < |states| && t in states[n].pending
    ensures CheckedAt(run, states, t, i, n)
  {
    if run[n - 1].thread == t {
      i := n - 1;
    } else {
      i := PendingWasChecked(items, run, states, t, n - 1);
    }
  }

  /** Step `m` is a split that took the last items. */
  ghost predicate EmptiedAt<T>(run: seq<Action>, states: seq<State<T>>, m: nat) {
    m < |run| < |states| && run[m].Split? && states[m].items != [] && states[m + 1].items == []
  }

  lemma {:induction false} SomethingEmptied<T>(
    items: seq<T>, run: seq<Action>, states: seq<State<T>>, i: nat, n: nat) returns (m: nat)
    requires IsRun(items, run, states) && i < n < |states|
    requires states[i].items != [] && states[n].items == []
    ensures i <= m < n && EmptiedAt(run, states, m)
  {
    m := n - 1;
    if states[n - 1].items == [] {
      m := SomethingEmptied(items, run, states, i, n - 1);
    }
  }

  /**
    A call that asked for something gets an empty chunk exactly when a split by
    another thread took the last items between its check and its own split.
   */
  lemma EmptyChunkIffOvertaken<T>(items: seq<T>, run: seq<Action>, states: seq<State<T>>, n: nat)
    requires IsRun(items, run, states) && n < |run| && run[n].Split?
    ensures EmptyHanded(states[n + 1].finished[|states[n].finished|])
            <==> exists i: nat, m: nat :: CheckedAt(run, states, run[n].thread, i, n) && i < m < n
                                && EmptiedAt(run, states, m) && run[m].thread != run[n].thread
  {
    var t := run[n].thread;
    LinearizableButForEmptyChunks(items, run, states, n);
    if states[n].items == [] {
      var i := PendingWasChecked(items, run, states, t, n);
      var m := SomethingEmptied(items, run, states, i, n);
      assert CheckedAt(run, states, t, i, n) && i < m < n && EmptiedAt(run, states, m) && run[m].thread != t;
    }
    forall i: nat, m: nat | CheckedAt(run, states, t, i, n) && i < m < n
      && EmptiedAt(run, states, m) && run[m].thread != t
      ensures states[n].items == []
    {
      NoneIsFinal(items, run, states, m + 1, n);
    }
  }

  /** Two calls for the one item there is: the second gets an empty chunk where it should get `None`. */
  lemma OvertakenCall<T>(item: T) returns (run: seq<Action>, states: seq<State<T>>)
    ensures IsRun([item], run, states) && run == [Check(0, 1), Check(1, 1), Split(0), Split(1)]
    ensures states[4].finished == [Outcome(0, 1, Some([item])), Outcome(1, 1, Some([]))]
    ensures SerialResults([item], [1, 1]) == [Some([item]), None]
  {
    run := [Check(0, 1), Check(1, 1), Split(0), Split(1)];
    var s0: State<T> := State([item], map[], []);
    var s1 := Step(s0, run[0]);
    var s2 := Step(s1, run[1]);
    var s3 := Step(s2, run[2]);
    states := [s0, s1, s2, s3, Step(s3, run[3])];
    assert [item][..1] == [item] && [item][1..] == [];
    assert [1, 1][1..] == [1] && [1][1..] == [];
    assert SerialResults<T>([], [1]) == [None];
  }
}
