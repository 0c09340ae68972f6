/** The chunks of a linked chunk, the updates it emits, and the lists it stands for. */
module Chunks {
  import opened Sequences

  type Id = nat

  datatype Content<T, G> = Gap(gap: G) | Items(items: seq<T>)

  datatype Chunk<T, G> = Chunk(id: Id, content: Content<T, G>)

  datatype Position = Position(chunk: Id, index: nat)

  datatype Update<T, G> =
    | NewItemsChunk(previous: Option<Id>, id: Id, next: Option<Id>)
    | NewGapChunk(previous: Option<Id>, id: Id, next: Option<Id>, gap: G)
    | RemoveChunk(id: Id)
    | PushItems(at: Position, items: seq<T>)
    | ReplaceItem(at: Position, item: T)
    | RemoveItem(at: Position)
    | DetachLastItems(at: Position)
    | StartReattachItems
    | EndReattachItems
    | Clear

  predicate DistinctIds<T, G>(cs: seq<Chunk<T, G>>) {
    forall i, j :: 0 <= i < j < |cs| ==> cs[i].id != cs[j].id
  }

  /** Where a chunk is. */
  function Locate<T, G>(cs: seq<Chunk<T, G>>, id: Id): (r: Option<nat>)
    ensures r.Some? ==> r.value < |cs| && cs[r.value].id == id
    ensures r.None? ==> forall i :: 0 <= i < |cs| ==> cs[i].id != id
  {
    if cs == [] then None
    else if cs[|cs| - 1].id == id then Some(|cs| - 1)
    else Locate(cs[..|cs| - 1], id)
  }

  lemma {:induction false} LocateIs<T, G>(cs: seq<Chunk<T, G>>, k: nat)
    requires DistinctIds(cs) && k < |cs|
    ensures Locate(cs, cs[k].id) == Some(k)
  {
    var r := Locate(cs, cs[k].id);
    assert r.Some?;
  }

  // ---- Reading all chunks in order ----

  /** What `f` reads in each chunk, in order. */
  function Gather<C, X>(f: C -> seq<X>, cs: seq<C>): seq<X> {
    if cs == [] then [] else f(cs[0]) + Gather(f, cs[1..])
  }

  lemma {:induction false} GatherAppend<C, X>(f: C -> seq<X>, a: seq<C>, b: seq<C>)
    ensures Gather(f, a + b) == Gather(f, a) + Gather(f, b)
  {
    if a == [] {
      assert a + b == b;
    } else {
      assert (a + b)[1..] == a[1..] + b;
      GatherAppend(f, a[1..], b);
    }
  }

  lemma {:induction false} GatherSnoc<C, X>(f: C -> seq<X>, a: seq<C>, c: C)
    ensures Gather(f, a + [c]) == Gather(f, a) + f(c)
  {
    GatherAppend(f, a, [c]);
    assert [c][1..] == [];
    assert Gather(f, [c]) == f(c) + Gather(f, [c][1..]);
  }

  lemma {:induction false} GatherSplit<C, X>(f: C -> seq<X>, cs: seq<C>, j: nat)
    requires j <= |cs|
    ensures Gather(f, cs) == Gather(f, cs[..j]) + Gather(f, cs[j..])
  {
    assert cs == cs[..j] + cs[j..];
    GatherAppend(f, cs[..j], cs[j..]);
  }

  lemma {:induction false} GatherUpTo<C, X>(f: C -> seq<X>, cs: seq<C>, j: nat)
    requires j < |cs|
    ensures Gather(f, cs[..j + 1]) == Gather(f, cs[..j]) + f(cs[j])
  {
    assert cs[..j + 1] == cs[..j] + [cs[j]];
    GatherSnoc(f, cs[..j], cs[j]);
  }

  /** Splitting off chunk `j`. */
  lemma {:induction false} GatherAt<C, X>(f: C -> seq<X>, cs: seq<C>, j: nat)
    requires j < |cs|
    ensures Gather(f, cs) == Gather(f, cs[..j]) + f(cs[j]) + Gather(f, cs[j + 1..])
  {
    GatherSplit(f, cs, j + 1);
    GatherUpTo(f, cs, j);
  }

  // ---- The two readings ----

  function ItemsOf<T, G>(c: Chunk<T, G>): seq<T> {
    match c.content case Gap(_) => [] case Items(items) => items
  }

  /** The items of all chunks: the list an `AsVector` observer follows. */
  function Flat<T, G>(cs: seq<Chunk<T, G>>): seq<T> { Gather(ItemsOf, cs) }

  datatype Entry<T, G> = Item(item: T) | Hole(gap: G)

  function Entries<T, G>(items: seq<T>): seq<Entry<T, G>> { Map(x => Item(x), items) }

  function EntriesOf<T, G>(c: Chunk<T, G>): seq<Entry<T, G>> {
    match c.content case Gap(g) => [Hole(g)] case Items(items) => Entries(items)
  }

  /** Items and gaps, in order: what the linked chunk holds, however it is cut into chunks. */
  function View<T, G>(cs: seq<Chunk<T, G>>): seq<Entry<T, G>> { Gather(EntriesOf, cs) }
}

/**
  `UpdateToVectorDiff`: turns the updates of a linked chunk into `VectorDiff`s on
  the flattened list, knowing only the identifiers and lengths of the chunks.
 */
module UpdateMapping {
  import opened Sequences
  import opened VectorDiffs
  import opened Chunks

  type Lengths = seq<(Id, nat)>

  /** `detaching` and `reattaching` are local to one call of `map`. */
  datatype Mapper = Mapper(lengths: Lengths, detaching: bool, reattaching: bool)

  /** Where a chunk is, if it is known. */
  function Find(lengths: Lengths, id: Id): (r: Option<nat>)
    ensures r.Some? ==> r.value < |lengths| && lengths[r.value].0 == id
    ensures r.Some? ==> forall i :: 0 <= i < r.value ==> lengths[i].0 != id
    ensures r.None? ==> forall i :: 0 <= i < |lengths| ==> lengths[i].0 != id
  {
    if lengths == [] then None
    else if lengths[0].0 == id then Some(0)
    else
      var r := Find(lengths[1..], id);
      if r.Some? then Some(r.value + 1) else None
  }

  /** The number of items in the first `k` chunks. */
  function Offset(lengths: Lengths, k: nat): nat
    requires k <= |lengths|
  {
    if k == 0 then 0 else Offset(lengths, k - 1) + lengths[k - 1].1
  }

  function Inserts<T>(at: nat, items: seq<T>): seq<VectorDiff<T>> {
    seq(|items|, i requires 0 <= i < |items| => Insert(at + i, items[i]))
  }

  function Removes<T>(at: nat, n: nat): seq<VectorDiff<T>> { seq(n, _ => VectorDiff.Remove(at)) }

  function WithLength(lengths: Lengths, k: nat, n: nat): Lengths
    requires k < |lengths|
  {
    lengths[k := (lengths[k].0, n)]
  }

  /**
    The updates on which the code neither reaches its `unreachable!`, nor fails its
    debug assertion, nor subtracts below zero.
   */
  predicate Expected<T, G>(m: Mapper, u: Update<T, G>) {
    match u
    case NewItemsChunk(previous, _, next) => ExpectedNew(m.lengths, previous, next)
    case NewGapChunk(previous, _, next, _) => ExpectedNew(m.lengths, previous, next)
    case RemoveItem(at) => var k := Find(m.lengths, at.chunk); k.Some? ==> m.lengths[k.value].1 > 0
    case _ => true
  }

  predicate ExpectedNew(lengths: Lengths, previous: Option<Id>, next: Option<Id>) {
    && (previous.None? && next.None? ==> lengths == [])
    && (previous.None? && next.Some? ==> lengths != [] && lengths[0].0 == next.value)
  }

  function InsertChunk(lengths: Lengths, previous: Option<Id>, id: Id, next: Option<Id>): Lengths {
    if next.None? then lengths + [(id, 0)]
    else if previous.None? then [(id, 0)] + lengths
    else
      var k := Find(lengths, next.value);
      if k.None? then lengths else lengths[..k.value] + [(id, 0)] + lengths[k.value..]
  }

  /** One iteration of the loop of `map`. */
  function MapUpdate<T, G>(m: Mapper, u: Update<T, G>): (Mapper, seq<VectorDiff<T>>)
    requires Expected(m, u)
  {
    match u
    case NewItemsChunk(previous, id, next) => (m.(lengths := InsertChunk(m.lengths, previous, id, next)), [])
    case NewGapChunk(previous, id, next, _) => (m.(lengths := InsertChunk(m.lengths, previous, id, next)), [])
    case RemoveChunk(id) =>
      var k := Find(m.lengths, id);
      if k.None? then (m, [])
      else (m.(lengths := m.lengths[..k.value] + m.lengths[k.value + 1..]),
            Removes(Offset(m.lengths, k.value), m.lengths[k.value].1))
    case PushItems(at, items) =>
      var k := Find(m.lengths, at.chunk);
      if k.None? then (m, [])
      else
        var offset, length := at.index + Offset(m.lengths, k.value), m.lengths[k.value].1;
        var pushingBack := k.value + 1 == |m.lengths| && at.index >= length;
        var m' := m.(lengths := WithLength(m.lengths, k.value, length + |items|));
        if m.reattaching then (m', [])
        else if pushingBack && !m.detaching then (m', [Append(items)])
        else (m', Inserts(offset, items))
    case ReplaceItem(at, item) =>
      var k := Find(m.lengths, at.chunk);
      if k.None? then (m, []) else (m, [Set(at.index + Offset(m.lengths, k.value), item)])
    case RemoveItem(at) =>
      var k := Find(m.lengths, at.chunk);
      if k.None? then (m, [])
      else
        var m' := m.(lengths := WithLength(m.lengths, k.value, m.lengths[k.value].1 - 1));
        if m.reattaching then (m', []) else (m', [VectorDiff.Remove(at.index + Offset(m.lengths, k.value))])
    case DetachLastItems(at) =>
      var k := Find(m.lengths, at.chunk);
      if k.None? then (m, [])
      else (m.(lengths := WithLength(m.lengths, k.value, at.index), detaching := true), [])
    case StartReattachItems => (m.(reattaching := true), [])
    case EndReattachItems => (m.(reattaching := false, detaching := false), [])
    case Clear => (m.(lengths := []), [VectorDiff.Clear])
  }

  predicate ExpectedAll<T, G>(m: Mapper, us: seq<Update<T, G>>)
    decreases |us|, 0
  {
    us == []
    || (ExpectedAll(m, us[..|us| - 1]) && Expected(MapAll(m, us[..|us| - 1]).0, us[|us| - 1]))
  }

  /** `map`, started with the given lengths and flags. */
  function MapAll<T, G>(m: Mapper, us: seq<Update<T, G>>): (Mapper, seq<VectorDiff<T>>)
    requires ExpectedAll(m, us)
    decreases |us|, 1
  {
    if us == [] then (m, [])
    else
      var (before, diffs) := MapAll(m, us[..|us| - 1]);
      var (after, more) := MapUpdate(before, us[|us| - 1]);
      (after, diffs + more)
  }

  // ---- The code ----

  class UpdateToVectorDiff<T, G> {
    var chunks: Lengths

    constructor (lengths: Lengths)
      ensures chunks == lengths
    {
      chunks := lengths;
    }

    /** Walks over the chunks, adding up their lengths until the one looked for. */
    method MapToOffset(position: Position) returns (r: Option<(nat, nat)>)
      ensures r == (match Find(chunks, position.chunk)
                    case None => None
                    case Some(k) => Some((position.index + Offset(chunks, k), k)))
    {
      var offset := position.index;
      var i := 0;
      while i < |chunks|
        invariant 0 <= i <= |chunks|
        invariant offset == position.index + Offset(chunks, i)
        invariant forall j :: 0 <= j < i ==> chunks[j].0 != position.chunk
      {
        if chunks[i].0 == position.chunk {
          return Some((offset, i));
        }
        offset := offset + chunks[i].1;
        i := i + 1;
      }
      r := None;
    }

    method MapUpdates(updates: seq<Update<T, G>>) returns (acc: seq<VectorDiff<T>>)
      requires ExpectedAll(Mapper(chunks, false, false), updates)
      modifies this
      ensures var (m, diffs) := MapAll(Mapper(old(chunks), false, false), updates);
              chunks == m.lengths && acc == diffs
    {
      ghost var start := Mapper(chunks, false, false);
      acc := [];
      var reattaching, detaching := false, false;
      var i := 0;
      while i < |updates|
        invariant 0 <= i <= |updates|
        invariant ExpectedAll(start, updates[..i])
        invariant MapAll(start, updates[..i]) == (Mapper(chunks, detaching, reattaching), acc)
      {
        ExpectedPrefix(start, updates, i);
        var more;
        more, detaching, reattaching := MapOne(updates[i], detaching, reattaching);
        acc := acc + more;
        assert updates[..i + 1][..i] == updates[..i];
        i := i + 1;
      }
      assert updates[..i] == updates;
    }

    /** Pushed items: appended, inserted before what is detached, or nothing while they are put back. */
    method MapPush(at: Position, items: seq<T>, detaching: bool, reattaching: bool) returns (acc: seq<VectorDiff<T>>)
      modifies this
      ensures (Mapper(chunks, detaching, reattaching), acc)
              == MapUpdate(Mapper(old(chunks), detaching, reattaching), Update<T, G>.PushItems(at, items))
    {
      acc := [];
      var found := MapToOffset(at);
      if found.Some? {
        var (offset, k) := found.value;
        var isPushingBack := k + 1 == |chunks| && at.index >= chunks[k].1;
        chunks := WithLength(chunks, k, chunks[k].1 + |items|);
        if !reattaching {
          acc := if isPushingBack && !detaching then [Append(items)] else Inserts(offset, items);
        }
      }
    }

    /** The `match` in the loop. */
    method MapOne(update: Update<T, G>, detaching: bool, reattaching: bool)
      returns (acc: seq<VectorDiff<T>>, detaching': bool, reattaching': bool)
      requires Expected(Mapper(chunks, detaching, reattaching), update)
      modifies this
      ensures (Mapper(chunks, detaching', reattaching'), acc)
              == MapUpdate(Mapper(old(chunks), detaching, reattaching), update)
    {
      acc, detaching', reattaching' := [], detaching, reattaching;
      match update
      case NewItemsChunk(previous, id, next) => NewChunk(previous, id, next);
      case NewGapChunk(previous, id, next, _) => NewChunk(previous, id, next);
      case RemoveChunk(id) =>
        var found := MapToOffset(Position(id, 0));
        if found.Some? {
          var (offset, k) := found.value;
          acc := Removes(offset, chunks[k].1);
          chunks := chunks[..k] + chunks[k + 1..];
        }
      case PushItems(at, items) => acc := MapPush(at, items, detaching, reattaching);
      case ReplaceItem(at, item) =>
        var found := MapToOffset(at);
        if found.Some? {
          acc := [Set(found.value.0, item)];
        }
      case RemoveItem(at) =>
        var found := MapToOffset(at);
        if found.Some? {
          var (offset, k) := found.value;
          chunks := WithLength(chunks, k, chunks[k].1 - 1);
          if !reattaching {
            acc := [VectorDiff.Remove(offset)];
          }
        }
      case DetachLastItems(at) =>
        var found := MapToOffset(at);
        if found.Some? {
          chunks := WithLength(chunks, found.value.1, at.index);
          detaching' := true;
        }
      case StartReattachItems => reattaching' := true;
      case EndReattachItems => detaching', reattaching' := false, false;
      case Clear =>
        chunks := [];
        acc := [VectorDiff.Clear];
    }

    method NewChunk(previous: Option<Id>, id: Id, next: Option<Id>)
      requires ExpectedNew(chunks, previous, next)
      modifies this
      ensures chunks == InsertChunk(old(chunks), previous, id, next)
    {
      if next.None? {
        chunks := chunks + [(id, 0)];
      } else if previous.None? {
        chunks := [(id, 0)] + chunks;
      } else {
        var found := MapToOffset(Position(next.value, 0));
        if found.Some? {
          var k := found.value.1;
          chunks := chunks[..k] + [(id, 0)] + chunks[k..];
        }
      }
    }
  }

  lemma {:induction false} ExpectedPrefix<T, G>(m: Mapper, us: seq<Update<T, G>>, i: nat)
    requires ExpectedAll(m, us) && i < |us|
    ensures ExpectedAll(m, us[..i]) && ExpectedAll(m, us[..i + 1])
    ensures Expected(MapAll(m, us[..i]).0, us[i])
    decreases |us|
  {
    if i + 1 == |us| {
      assert us[..i + 1] == us;
    } else {
      ExpectedPrefix(m, us[..|us| - 1], i);
      assert us[..|us| - 1][..i] == us[..i] && us[..|us| - 1][..i + 1] == us[..i + 1];
    }
  }

  lemma {:induction false} MapAllSnoc<T, G>(m: Mapper, us: seq<Update<T, G>>, u: Update<T, G>)
    requires ExpectedAll(m, us) && Expected(MapAll(m, us).0, u)
    ensures ExpectedAll(m, us + [u])
    ensures MapAll(m, us + [u]) == (MapUpdate(MapAll(m, us).0, u).0, MapAll(m, us).1 + MapUpdate(MapAll(m, us).0, u).1)
  {
    assert (us + [u])[..|us|] == us;
  }
}

/**
  What each update of a linked chunk does to an observer's list. While items are
  detached, the observer still has them: at `j`, after the chunk that is being
  pushed to.
 */
module ChunkSync {
  import opened Sequences
  import opened VectorDiffs
  import opened Chunks
  import opened UpdateMapping

  function LengthOf<T, G>(c: Chunk<T, G>): (Id, nat) { (c.id, |ItemsOf(c)|) }

  function LengthsOf<T, G>(cs: seq<Chunk<T, G>>): (r: Lengths)
    ensures |r| == |cs|
    ensures forall i :: 0 <= i < |cs| ==> r[i] == LengthOf(cs[i])
  {
    Map(LengthOf, cs)
  }

  /** The observer's list when `detached` items wait to come back after chunk `j`. */
  function Seen<T, G>(cs: seq<Chunk<T, G>>, j: nat, detached: seq<T>): seq<T>
    requires j < |cs|
  {
    Flat(cs[..j + 1]) + detached + Flat(cs[j + 1..])
  }

  lemma {:induction false} SeenNothingDetached<T, G>(cs: seq<Chunk<T, G>>, j: nat)
    requires j < |cs|
    ensures Seen(cs, j, []) == Flat(cs)
  {
    GatherSplit(ItemsOf, cs, j + 1);
  }

  // ---- An observer that has followed all updates ----

  /**
    A mapper that started on the chunks `base` is in state `m` after `us`, and the
    diffs it produced turn the items of `base` into `v`.
   */
  ghost predicate Tracks<T, G>(base: seq<Chunk<T, G>>, us: seq<Update<T, G>>, m: Mapper, v: seq<T>) {
    var start := Mapper(LengthsOf(base), false, false);
    && ExpectedAll(start, us)
    && MapAll(start, us).0 == m
    && ApplicableAll(MapAll(start, us).1, Flat(base))
    && ApplyAll(MapAll(start, us).1, Flat(base)) == v
  }

  lemma {:induction false} TracksNothing<T, G>(base: seq<Chunk<T, G>>)
    ensures Tracks(base, [], Mapper(LengthsOf(base), false, false), Flat(base))
  {}

  /** `u` takes mapper and list from `m`, `v` to `m'`, `v'`. */
  ghost predicate Moves<T, G>(u: Update<T, G>, m: Mapper, v: seq<T>, m': Mapper, v': seq<T>) {
    && Expected(m, u)
    && MapUpdate(m, u).0 == m'
    && ApplicableAll(MapUpdate(m, u).1, v)
    && ApplyAll(MapUpdate(m, u).1, v) == v'
  }

  lemma {:induction false} TracksOneMore<T, G>(base: seq<Chunk<T, G>>, us: seq<Update<T, G>>, m: Mapper, v: seq<T>,
                                               u: Update<T, G>, m': Mapper, v': seq<T>)
    requires Tracks(base, us, m, v) && Moves(u, m, v, m', v')
    ensures Tracks(base, us + [u], m', v')
  {
    var start := Mapper(LengthsOf(base), false, false);
    MapAllSnoc(start, us, u);
    ApplyAllAppend(MapAll(start, us).1, MapUpdate(m, u).1, Flat(base));
  }

  /** An update that only touches the lengths or the flags. */
  lemma {:induction false} Silent<T, G>(u: Update<T, G>, m: Mapper, v: seq<T>)
    requires Expected(m, u) && MapUpdate(m, u).1 == []
    ensures Moves(u, m, v, MapUpdate(m, u).0, v)
  {}

  // ---- Finding chunks ----

  lemma {:induction false} FindsChunk<T, G>(cs: seq<Chunk<T, G>>, k: nat)
    requires DistinctIds(cs) && k < |cs|
    ensures Find(LengthsOf(cs), cs[k].id) == Some(k)
  {
    var lengths := LengthsOf(cs);
    assert lengths[k] == LengthOf(cs[k]);
    var r := Find(lengths, cs[k].id);
    assert r.Some? && lengths[r.value] == LengthOf(cs[r.value]);
  }

  lemma {:induction false} OffsetIsLength<T, G>(cs: seq<Chunk<T, G>>, k: nat)
    requires k <= |cs|
    ensures Offset(LengthsOf(cs), k) == |Flat(cs[..k])|
  {
    if k > 0 {
      OffsetIsLength(cs, k - 1);
      GatherUpTo(ItemsOf, cs, k - 1);
    }
  }

  // ---- Diffs on a list ----

  lemma {:induction false} ApplyOne<T>(d: VectorDiff<T>, v: seq<T>)
    requires Applicable(d, v)
    ensures ApplicableAll([d], v) && ApplyAll([d], v) == Apply(d, v)
  {
    assert [d][1..] == [];
    assert ApplyAll([d], v) == ApplyAll([d][1..], Apply(d, v));
  }

  lemma {:induction false} ApplyInserts<T>(a: seq<T>, items: seq<T>, b: seq<T>)
    ensures ApplicableAll(Inserts(|a|, items), a + b)
    ensures ApplyAll(Inserts(|a|, items), a + b) == a + items + b
    decreases |items|
  {
    if items == [] {
      assert a + items + b == a + b;
    } else {
      var a', ds := a + [items[0]], Inserts(|a|, items);
      InsertsCons(|a|, items);
      ApplyInsert(a, items[0], b);
      ApplyInserts(a', items[1..], b);
      assert ApplyAll(ds, a + b) == ApplyAll(ds[1..], a' + b);
      FirstMoved(a, items, b);
    }
  }

  lemma {:induction false} FirstMoved<T>(a: seq<T>, items: seq<T>, b: seq<T>)
    requires items != []
    ensures (a + [items[0]]) + items[1..] + b == a + items + b
  {
    assert (a + [items[0]]) + items[1..] == a + items;
  }

  lemma {:induction false} ApplyInsert<T>(a: seq<T>, x: T, b: seq<T>)
    ensures Applicable(Insert(|a|, x), a + b)
    ensures Apply(Insert(|a|, x), a + b) == (a + [x]) + b
  {}

  lemma {:induction false} InsertsCons<T>(at: nat, items: seq<T>)
    requires items != []
    ensures Inserts(at, items) != [] && Inserts(at, items)[0] == Insert(at, items[0])
    ensures Inserts(at, items)[1..] == Inserts(at + 1, items[1..])
  {}

  lemma {:induction false} ApplyRemove<T>(a: seq<T>, x: T, b: seq<T>)
    ensures Applicable(VectorDiff.Remove(|a|), a + [x] + b)
    ensures Apply(VectorDiff.Remove(|a|), a + [x] + b) == a + b
  {}

  lemma {:induction false} ApplySet<T>(a: seq<T>, x: T, y: T, b: seq<T>)
    ensures Applicable(Set(|a|, y), a + [x] + b)
    ensures Apply(Set(|a|, y), a + [x] + b) == a + [y] + b
  {}

  // ---- A chunk with other items ----

  function WithItems<T, G>(cs: seq<Chunk<T, G>>, j: nat, items: seq<T>): (r: seq<Chunk<T, G>>)
    requires j < |cs|
  {
    cs[j := Chunk(cs[j].id, Items(items))]
  }

  lemma {:induction false} WithItemsGather<T, G, X>(f: Chunk<T, G> -> seq<X>, cs: seq<Chunk<T, G>>, j: nat,
                                                    items: seq<T>)
    requires j < |cs|
    ensures var cs' := WithItems(cs, j, items);
            && Gather(f, cs'[..j + 1]) == Gather(f, cs[..j]) + f(Chunk(cs[j].id, Items(items)))
            && cs'[..j] == cs[..j] && cs'[j + 1..] == cs[j + 1..]
  {
    var cs' := WithItems(cs, j, items);
    assert cs'[..j] == cs[..j] && cs'[j + 1..] == cs[j + 1..];
    GatherUpTo(f, cs', j);
  }

  lemma {:induction false} WithItemsLengths<T, G>(cs: seq<Chunk<T, G>>, j: nat, items: seq<T>)
    requires j < |cs|
    ensures LengthsOf(WithItems(cs, j, items)) == WithLength(LengthsOf(cs), j, |items|)
  {
    var cs' := WithItems(cs, j, items);
    var a, b := LengthsOf(cs'), WithLength(LengthsOf(cs), j, |items|);
    forall i | 0 <= i < |cs| ensures a[i] == b[i] {
      assert a[i] == LengthOf(cs'[i]);
    }
  }

  // ---- Pushing items ----

  function Pushed<T, G>(cs: seq<Chunk<T, G>>, j: nat, items: seq<T>): Update<T, G>
    requires j < |cs|
  {
    PushItems(Position(cs[j].id, |ItemsOf(cs[j])|), items)
  }

  function Extended<T, G>(cs: seq<Chunk<T, G>>, j: nat, items: seq<T>): seq<Chunk<T, G>>
    requires j < |cs|
  {
    WithItems(cs, j, ItemsOf(cs[j]) + items)
  }

  /** What is still detached once `items` were pushed: reattached items are not detached any more. */
  function StillDetached<T>(m: Mapper, detached: seq<T>, items: seq<T>): seq<T>
    requires m.reattaching ==> items <= detached
  {
    if m.reattaching then detached[|items|..] else detached
  }

  ghost predicate Pushable<T>(m: Mapper, detached: seq<T>, items: seq<T>) {
    && (m.reattaching ==> items <= detached)
    && (!m.detaching && !m.reattaching ==> detached == [])
  }

  lemma {:induction false} PushMaps<T, G>(cs: seq<Chunk<T, G>>, j: nat, items: seq<T>, m: Mapper)
    requires DistinctIds(cs) && j < |cs| && m.lengths == LengthsOf(cs)
    ensures MapUpdate(m, Pushed(cs, j, items))
            == (m.(lengths := LengthsOf(Extended(cs, j, items))),
                if m.reattaching then []
                else if j + 1 == |cs| && !m.detaching then [Append(items)]
                else Inserts(|Flat(cs[..j + 1])|, items))
  {
    FindsChunk(cs, j);
    OffsetIsLength(cs, j);
    GatherUpTo(ItemsOf, cs, j);
    WithItemsLengths(cs, j, ItemsOf(cs[j]) + items);
    assert LengthsOf(cs)[j] == LengthOf(cs[j]);
  }

  lemma {:induction false} ExtendedFlat<T, G>(cs: seq<Chunk<T, G>>, j: nat, items: seq<T>)
    requires j < |cs|
    ensures Flat(Extended(cs, j, items)[..j + 1]) == Flat(cs[..j + 1]) + items
    ensures Extended(cs, j, items)[j + 1..] == cs[j + 1..]
  {
    WithItemsGather(ItemsOf, cs, j, ItemsOf(cs[j]) + items);
    GatherUpTo(ItemsOf, cs, j);
  }

  /** A push in each of the three modes. */
  lemma {:induction false} PushMoves<T, G>(cs: seq<Chunk<T, G>>, j: nat, items: seq<T>, detached: seq<T>, m: Mapper)
    requires DistinctIds(cs) && j < |cs| && m.lengths == LengthsOf(cs)
    requires Pushable(m, detached, items)
    ensures Moves(Pushed(cs, j, items), m, Seen(cs, j, detached),
                  m.(lengths := LengthsOf(Extended(cs, j, items))),
                  Seen(Extended(cs, j, items), j, StillDetached(m, detached, items)))
  {
    PushMaps(cs, j, items, m);
    ExtendedFlat(cs, j, items);
    var a, b := Flat(cs[..j + 1]), Flat(cs[j + 1..]);
    if m.reattaching {
      Reattached(a, items, detached, b);
    } else if j + 1 == |cs| && !m.detaching {
      assert b == [];
      Appended(a, items);
    } else {
      InsertedBefore(a, items, detached, b);
    }
  }

  lemma {:induction false} Reattached<T>(a: seq<T>, items: seq<T>, detached: seq<T>, b: seq<T>)
    requires items <= detached
    ensures (a + items) + detached[|items|..] + b == a + detached + b
  {
    assert detached == items + detached[|items|..];
  }

  lemma {:induction false} Appended<T>(a: seq<T>, items: seq<T>)
    ensures ApplicableAll([Append(items)], a + [] + [])
    ensures ApplyAll([Append(items)], a + [] + []) == (a + items) + [] + []
  {
    ApplyOne(Append(items), a + [] + []);
  }

  lemma {:induction false} InsertedBefore<T>(a: seq<T>, items: seq<T>, detached: seq<T>, b: seq<T>)
    ensures ApplicableAll(Inserts(|a|, items), a + detached + b)
    ensures ApplyAll(Inserts(|a|, items), a + detached + b) == (a + items) + detached + b
  {
    ApplyInserts(a, items, detached + b);
    assert a + (detached + b) == a + detached + b;
    assert a + items + (detached + b) == (a + items) + detached + b;
  }

  // ---- New chunks ----

  function InsertedAt<T, G>(cs: seq<Chunk<T, G>>, k: nat, c: Chunk<T, G>): seq<Chunk<T, G>>
    requires k <= |cs|
  {
    cs[..k] + [c] + cs[k..]
  }

  function PreviousId<T, G>(cs: seq<Chunk<T, G>>, k: nat): Option<Id>
    requires k <= |cs|
  {
    if k == 0 then None else Some(cs[k - 1].id)
  }

  function NextId<T, G>(cs: seq<Chunk<T, G>>, k: nat): Option<Id>
    requires k <= |cs|
  {
    if k == |cs| then None else Some(cs[k].id)
  }

  /** The update for a new chunk at index `k`. */
  function Inserted<T, G>(cs: seq<Chunk<T, G>>, k: nat, c: Chunk<T, G>): Update<T, G>
    requires k <= |cs|
  {
    match c.content
    case Gap(g) => NewGapChunk(PreviousId(cs, k), c.id, NextId(cs, k), g)
    case Items(_) => NewItemsChunk(PreviousId(cs, k), c.id, NextId(cs, k))
  }

  lemma {:induction false} InsertedLengths<T, G>(cs: seq<Chunk<T, G>>, k: nat, c: Chunk<T, G>)
    requires k <= |cs|
    ensures LengthsOf(InsertedAt(cs, k, c)) == LengthsOf(cs)[..k] + [LengthOf(c)] + LengthsOf(cs)[k..]
  {
    var cs' := InsertedAt(cs, k, c);
    var a, b := LengthsOf(cs'), LengthsOf(cs)[..k] + [LengthOf(c)] + LengthsOf(cs)[k..];
    forall i | 0 <= i < |cs'| ensures a[i] == b[i] {
      assert a[i] == LengthOf(cs'[i]);
    }
  }

  lemma {:induction false} InsertMaps<T, G>(cs: seq<Chunk<T, G>>, k: nat, c: Chunk<T, G>, m: Mapper)
    requires DistinctIds(cs) && k <= |cs| && ItemsOf(c) == []
    requires m.lengths == LengthsOf(cs)
    ensures Expected(m, Inserted(cs, k, c))
    ensures MapUpdate(m, Inserted(cs, k, c)) == (m.(lengths := LengthsOf(InsertedAt(cs, k, c))), [])
  {
    var lengths, added := LengthsOf(cs), (c.id, 0);
    InsertedLengths(cs, k, c);
    if k == |cs| {
      assert lengths[..k] + [added] + lengths[k..] == lengths + [added];
    } else if k == 0 {
      assert lengths[0] == LengthOf(cs[0]);
      assert lengths[..k] + [added] + lengths[k..] == [added] + lengths;
    } else {
      FindsChunk(cs, k);
    }
  }

  /** A new chunk right after the one pushed to: what is detached now waits after the new one. */
  lemma {:induction false} InsertMoves<T, G>(cs: seq<Chunk<T, G>>, j: nat, c: Chunk<T, G>, detached: seq<T>, m: Mapper)
    requires DistinctIds(cs) && j < |cs| && ItemsOf(c) == []
    requires m.lengths == LengthsOf(cs)
    ensures var cs' := InsertedAt(cs, j + 1, c);
            Moves(Inserted(cs, j + 1, c), m, Seen(cs, j, detached),
                  m.(lengths := LengthsOf(cs')), Seen(cs', j + 1, detached))
  {
    InsertMaps(cs, j + 1, c, m);
    InsertedGather(ItemsOf, cs, j + 1, c);
  }

  lemma {:induction false} InsertedGather<T, G, X>(f: Chunk<T, G> -> seq<X>, cs: seq<Chunk<T, G>>, k: nat,
                                                   c: Chunk<T, G>)
    requires k <= |cs|
    ensures var cs' := InsertedAt(cs, k, c);
            && Gather(f, cs'[..k + 1]) == Gather(f, cs[..k]) + f(c)
            && cs'[..k] == cs[..k] && cs'[k + 1..] == cs[k..]
  {
    var cs' := InsertedAt(cs, k, c);
    assert cs'[..k] == cs[..k] && cs'[k + 1..] == cs[k..] && cs'[k] == c;
    GatherUpTo(f, cs', k);
  }

  // ---- Detaching ----

  lemma {:induction false} DetachMoves<T, G>(cs: seq<Chunk<T, G>>, j: nat, n: nat, m: Mapper)
    requires DistinctIds(cs) && j < |cs| && n <= |ItemsOf(cs[j])|
    requires m.lengths == LengthsOf(cs)
    ensures var cs' := WithItems(cs, j, ItemsOf(cs[j])[..n]);
            Moves<T, G>(DetachLastItems(Position(cs[j].id, n)), m, Flat(cs),
                        m.(lengths := LengthsOf(cs'), detaching := true), Seen(cs', j, ItemsOf(cs[j])[n..]))
  {
    var items := ItemsOf(cs[j]);
    FindsChunk(cs, j);
    WithItemsLengths(cs, j, items[..n]);
    WithItemsGather(ItemsOf, cs, j, items[..n]);
    GatherAt(ItemsOf, cs, j);
    Rejoined(Flat(cs[..j]), items, n, Flat(cs[j + 1..]));
  }

  lemma {:induction false} Rejoined<T>(a: seq<T>, items: seq<T>, n: nat, b: seq<T>)
    requires n <= |items|
    ensures (a + items[..n]) + items[n..] + b == a + items + b
  {}

  // ---- Changing single items, removing chunks ----

  lemma {:induction false} ItemSplits<T, G>(cs: seq<Chunk<T, G>>, j: nat, i: nat)
    requires j < |cs| && i < |ItemsOf(cs[j])|
    ensures var items := ItemsOf(cs[j]);
            Flat(cs) == (Flat(cs[..j]) + items[..i]) + [items[i]] + (items[i + 1..] + Flat(cs[j + 1..]))
  {
    var items := ItemsOf(cs[j]);
    GatherAt(ItemsOf, cs, j);
    assert items == items[..i] + [items[i]] + items[i + 1..];
  }

  lemma {:induction false} WithItemsFlat<T, G>(cs: seq<Chunk<T, G>>, j: nat, items: seq<T>)
    requires j < |cs|
    ensures Flat(WithItems(cs, j, items)) == Flat(cs[..j]) + items + Flat(cs[j + 1..])
  {
    WithItemsGather(ItemsOf, cs, j, items);
    GatherAt(ItemsOf, WithItems(cs, j, items), j);
  }

  lemma {:induction false} RemoveItemMaps<T, G>(cs: seq<Chunk<T, G>>, j: nat, i: nat)
    requires DistinctIds(cs) && j < |cs| && i < |ItemsOf(cs[j])|
    ensures var items := ItemsOf(cs[j]);
            var u: Update<T, G> := RemoveItem(Position(cs[j].id, i));
            var m := Mapper(LengthsOf(cs), false, false);
            && Expected(m, u)
            && MapUpdate(m, u) == (Mapper(LengthsOf(WithItems(cs, j, items[..i] + items[i + 1..])), false, false),
                                   [VectorDiff.Remove(|Flat(cs[..j])| + i)])
  {
    var items := ItemsOf(cs[j]);
    FindsChunk(cs, j);
    OffsetIsLength(cs, j);
    assert LengthsOf(cs)[j] == LengthOf(cs[j]);
    WithItemsLengths(cs, j, items[..i] + items[i + 1..]);
  }

  lemma {:induction false} RemoveItemMoves<T, G>(cs: seq<Chunk<T, G>>, j: nat, i: nat)
    requires DistinctIds(cs) && j < |cs| && i < |ItemsOf(cs[j])|
    ensures var items := ItemsOf(cs[j]);
            var cs' := WithItems(cs, j, items[..i] + items[i + 1..]);
            Moves<T, G>(RemoveItem(Position(cs[j].id, i)), Mapper(LengthsOf(cs), false, false), Flat(cs),
                        Mapper(LengthsOf(cs'), false, false), Flat(cs'))
  {
    var items := ItemsOf(cs[j]);
    var a, b := Flat(cs[..j]) + items[..i], items[i + 1..] + Flat(cs[j + 1..]);
    RemoveItemMaps(cs, j, i);
    ItemSplits(cs, j, i);
    ApplyRemove(a, items[i], b);
    ApplyOne(VectorDiff.Remove(|a|), Flat(cs));
    WithItemsFlat(cs, j, items[..i] + items[i + 1..]);
    Regrouped(Flat(cs[..j]), items[..i], items[i + 1..], Flat(cs[j + 1..]));
  }

  lemma {:induction false} Regrouped<T>(a: seq<T>, b: seq<T>, c: seq<T>, d: seq<T>)
    ensures (a + b) + (c + d) == a + (b + c) + d
  {}

  lemma {:induction false} ReplaceItemMoves<T, G>(cs: seq<Chunk<T, G>>, j: nat, i: nat, item: T)
    requires DistinctIds(cs) && j < |cs| && i < |ItemsOf(cs[j])|
    ensures var cs' := WithItems(cs, j, ItemsOf(cs[j])[i := item]);
            Moves<T, G>(ReplaceItem(Position(cs[j].id, i), item), Mapper(LengthsOf(cs), false, false), Flat(cs),
                        Mapper(LengthsOf(cs'), false, false), Flat(cs'))
  {
    var items := ItemsOf(cs[j]);
    var a, b := Flat(cs[..j]) + items[..i], items[i + 1..] + Flat(cs[j + 1..]);
    FindsChunk(cs, j);
    OffsetIsLength(cs, j);
    assert LengthsOf(cs)[j] == LengthOf(cs[j]);
    WithItemsLengths(cs, j, items[i := item]);
    assert LengthsOf(WithItems(cs, j, items[i := item])) == LengthsOf(cs);
    ItemSplits(cs, j, i);
    ApplySet(a, items[i], item, b);
    ApplyOne(Set(|a|, item), Flat(cs));
    WithItemsFlat(cs, j, items[i := item]);
    assert items[i := item] == items[..i] + [item] + items[i + 1..];
    assert a + [item] + b == Flat(cs[..j]) + items[i := item] + Flat(cs[j + 1..]);
  }

  function Without<T, G>(cs: seq<Chunk<T, G>>, j: nat): seq<Chunk<T, G>>
    requires j < |cs|
  {
    cs[..j] + cs[j + 1..]
  }

  lemma {:induction false} WithoutLengths<T, G>(cs: seq<Chunk<T, G>>, j: nat)
    requires j < |cs|
    ensures LengthsOf(Without(cs, j)) == LengthsOf(cs)[..j] + LengthsOf(cs)[j + 1..]
  {
    var cs' := Without(cs, j);
    var a, b := LengthsOf(cs'), LengthsOf(cs)[..j] + LengthsOf(cs)[j + 1..];
    forall i | 0 <= i < |cs'| ensures a[i] == b[i] {
      assert a[i] == LengthOf(cs'[i]);
    }
  }

  lemma {:induction false} RemoveEmptyMoves<T, G>(cs: seq<Chunk<T, G>>, j: nat)
    requires DistinctIds(cs) && j < |cs| && ItemsOf(cs[j]) == []
    ensures Moves<T, G>(RemoveChunk(cs[j].id), Mapper(LengthsOf(cs), false, false), Flat(cs),
                        Mapper(LengthsOf(Without(cs, j)), false, false), Flat(Without(cs, j)))
  {
    FindsChunk(cs, j);
    assert LengthsOf(cs)[j] == LengthOf(cs[j]);
    WithoutLengths(cs, j);
    GatherAt(ItemsOf, cs, j);
    GatherAppend(ItemsOf, cs[..j], cs[j + 1..]);
    assert Removes<T>(Offset(LengthsOf(cs), j), 0) == [];
  }

  // ---- The same, for an observer that has followed all updates so far ----

  lemma {:induction false} InsertTracks<T, G>(base: seq<Chunk<T, G>>, us: seq<Update<T, G>>, cs: seq<Chunk<T, G>>,
                                              j: nat, c: Chunk<T, G>, detached: seq<T>, m: Mapper)
    requires DistinctIds(cs) && j < |cs| && ItemsOf(c) == []
    requires m.lengths == LengthsOf(cs) && Tracks(base, us, m, Seen(cs, j, detached))
    ensures var cs' := InsertedAt(cs, j + 1, c);
            Tracks(base, us + [Inserted(cs, j + 1, c)], m.(lengths := LengthsOf(cs')), Seen(cs', j + 1, detached))
  {
    var cs' := InsertedAt(cs, j + 1, c);
    InsertMoves(cs, j, c, detached, m);
    TracksOneMore(base, us, m, Seen(cs, j, detached), Inserted(cs, j + 1, c),
                  m.(lengths := LengthsOf(cs')), Seen(cs', j + 1, detached));
  }

  lemma {:induction false} PushTracks<T, G>(base: seq<Chunk<T, G>>, us: seq<Update<T, G>>, cs: seq<Chunk<T, G>>,
                                            j: nat, items: seq<T>, detached: seq<T>, m: Mapper)
    requires DistinctIds(cs) && j < |cs| && Pushable(m, detached, items)
    requires m.lengths == LengthsOf(cs) && Tracks(base, us, m, Seen(cs, j, detached))
    ensures var cs' := Extended(cs, j, items);
            Tracks(base, us + [Pushed(cs, j, items)], m.(lengths := LengthsOf(cs')),
                   Seen(cs', j, StillDetached(m, detached, items)))
  {
    var cs' := Extended(cs, j, items);
    PushMoves(cs, j, items, detached, m);
    TracksOneMore(base, us, m, Seen(cs, j, detached), Pushed(cs, j, items),
                  m.(lengths := LengthsOf(cs')), Seen(cs', j, StillDetached(m, detached, items)));
  }

  lemma {:induction false} DetachTracks<T, G>(base: seq<Chunk<T, G>>, us: seq<Update<T, G>>, cs: seq<Chunk<T, G>>,
                                              j: nat, n: nat, m: Mapper)
    requires DistinctIds(cs) && j < |cs| && n <= |ItemsOf(cs[j])|
    requires m.lengths == LengthsOf(cs) && Tracks(base, us, m, Flat(cs))
    ensures var cs' := WithItems(cs, j, ItemsOf(cs[j])[..n]);
            Tracks(base, us + [DetachLastItems(Position(cs[j].id, n))],
                   m.(lengths := LengthsOf(cs'), detaching := true), Seen(cs', j, ItemsOf(cs[j])[n..]))
  {
    var cs' := WithItems(cs, j, ItemsOf(cs[j])[..n]);
    DetachMoves(cs, j, n, m);
    TracksOneMore(base, us, m, Flat(cs), DetachLastItems(Position(cs[j].id, n)),
                  m.(lengths := LengthsOf(cs'), detaching := true), Seen(cs', j, ItemsOf(cs[j])[n..]));
  }

  /** An observer with nothing detached. */
  ghost predicate Follows<T, G>(base: seq<Chunk<T, G>>, us: seq<Update<T, G>>, cs: seq<Chunk<T, G>>) {
    Tracks(base, us, Mapper(LengthsOf(cs), false, false), Flat(cs))
  }

  lemma {:induction false} FollowsOneMore<T, G>(base: seq<Chunk<T, G>>, us: seq<Update<T, G>>, cs: seq<Chunk<T, G>>,
                                                u: Update<T, G>, cs': seq<Chunk<T, G>>)
    requires Follows(base, us, cs)
    requires Moves(u, Mapper(LengthsOf(cs), false, false), Flat(cs), Mapper(LengthsOf(cs'), false, false), Flat(cs'))
    ensures Follows(base, us + [u], cs')
  {
    TracksOneMore(base, us, Mapper(LengthsOf(cs), false, false), Flat(cs), u,
                  Mapper(LengthsOf(cs'), false, false), Flat(cs'));
  }

  /** The last update of a followed sequence, taken apart. */
  lemma {:induction false} TracksOneLess<T, G>(base: seq<Chunk<T, G>>, us: seq<Update<T, G>>, m: Mapper, v: seq<T>)
    returns (m0: Mapper, v0: seq<T>)
    requires us != [] && Tracks(base, us, m, v)
    ensures Tracks(base, us[..|us| - 1], m0, v0) && Moves(us[|us| - 1], m0, v0, m, v)
  {
    var start, n := Mapper(LengthsOf(base), false, false), |us| - 1;
    m0 := MapAll(start, us[..n]).0;
    ApplyAllAppend(MapAll(start, us[..n]).1, MapUpdate(m0, us[n]).1, Flat(base));
    v0 := ApplyAll(MapAll(start, us[..n]).1, Flat(base));
  }

  lemma {:induction false} TracksOn<T, G>(base: seq<Chunk<T, G>>, a: seq<Update<T, G>>, mid: seq<Chunk<T, G>>,
                                          b: seq<Update<T, G>>, m: Mapper, v: seq<T>)
    requires Follows(base, a, mid) && Tracks(mid, b, m, v)
    ensures Tracks(base, a + b, m, v)
    decreases |b|
  {
    if b == [] {
      assert a + b == a;
    } else {
      var n := |b| - 1;
      assert a + b == (a + b[..n]) + [b[n]];
      var m0, v0 := TracksOneLess(mid, b, m, v);
      TracksOn(base, a, mid, b[..n], m0, v0);
      TracksOneMore(base, a + b[..n], m0, v0, b[n], m, v);
    }
  }

  /**
    Reading the updates in two goes, or at once, leads to the same list, wherever the
    cut is made at a moment when nothing is detached.
   */
  lemma {:induction false} FollowsTwice<T, G>(base: seq<Chunk<T, G>>, a: seq<Update<T, G>>, mid: seq<Chunk<T, G>>,
                                              b: seq<Update<T, G>>, cs: seq<Chunk<T, G>>)
    requires Follows(base, a, mid) && Follows(mid, b, cs)
    ensures Follows(base, a + b, cs)
  {
    TracksOn(base, a, mid, b, Mapper(LengthsOf(cs), false, false), Flat(cs));
  }

  /** The updates of inserting `x` between the two items of the only chunk. */
  function InsertBetween<T, G>(b: T, x: T): seq<Update<T, G>> {
    [DetachLastItems(Position(0, 1)), PushItems(Position(0, 1), [x]), StartReattachItems,
     PushItems(Position(0, 2), [b]), EndReattachItems]
  }

  /**
    A cut while items are detached: mapped at once the updates put `x` in the middle,
    mapped in two goes they put it last, because the second go starts without flags.
   */
  lemma {:induction false} CutWhileDetached<T, G>(a: T, b: T, x: T)
    ensures var us: seq<Update<T, G>> := InsertBetween(b, x);
            var whole, again := Mapper([(0, 2)], false, false), Mapper([(0, 1)], false, false);
            && ExpectedAll(whole, us) && ExpectedAll(whole, us[..1]) && ExpectedAll(again, us[1..])
            && MapAll(whole, us).1 == [Insert(1, x)] && Apply(Insert(1, x), [a, b]) == [a, x, b]
            && MapAll(whole, us[..1]) == (again.(detaching := true), [])
            && MapAll(again, us[1..]).1 == [Append([x])] && Apply(Append([x]), [a, b]) == [a, b, x]
  {
    var us: seq<Update<T, G>> := InsertBetween(b, x);
    assert us == [us[0]] + [us[1]] + [us[2]] + [us[3]] + [us[4]];
    MappedAtOnce<T, G>(us[0], us[1], b, x);
    assert us[..1] == [us[0]];
    FirstMapped<T, G>(us[0]);
    assert us[1..] == [] + [us[1]] + [us[2]] + [us[3]] + [us[4]];
    MappedInTwoGoes<T, G>(us[1], b, x);
  }

  lemma {:induction false} MappedAtOnce<T, G>(detach: Update<T, G>, push: Update<T, G>, b: T, x: T)
    requires detach == DetachLastItems(Position(0, 1)) && push == PushItems(Position(0, 1), [x])
    ensures var whole := Mapper([(0, 2)], false, false);
            var all := [detach] + [push] + [StartReattachItems] + [PushItems(Position(0, 2), [b])] + [EndReattachItems];
            ExpectedAll(whole, all) && MapAll(whole, all).1 == [Insert(1, x)]
  {
    var detached := Mapper([(0, 1)], true, false);
    FirstMapped<T, G>(detach);
    OnlyChunkPushed<T, G>(detached, 1, x);
    assert Inserts(1, [x]) == [Insert(1, x)];
    PushThenReattach(Mapper([(0, 2)], false, false), [detach], detached, push,
                     Mapper([(0, 2)], true, false), [Insert(1, x)], b);
  }

  lemma {:induction false} FirstMapped<T, G>(u: Update<T, G>)
    requires u == DetachLastItems(Position(0, 1))
    ensures var whole := Mapper([(0, 2)], false, false);
            ExpectedAll(whole, [u]) && MapAll(whole, [u]) == (Mapper([(0, 1)], true, false), [])
  {
    var whole := Mapper([(0, 2)], false, false);
    OnlyChunkDetached<T, G>();
    OneMoreMapped(whole, [], whole, [], u, Mapper([(0, 1)], true, false), []);
    assert [] + [u] == [u];
  }

  lemma {:induction false} MappedInTwoGoes<T, G>(push: Update<T, G>, b: T, x: T)
    requires push == PushItems(Position(0, 1), [x])
    ensures var again := Mapper([(0, 1)], false, false);
            var all := [] + [push] + [StartReattachItems] + [PushItems(Position(0, 2), [b])] + [EndReattachItems];
            ExpectedAll(again, all) && MapAll(again, all).1 == [Append([x])]
  {
    var again := Mapper([(0, 1)], false, false);
    OnlyChunkPushed<T, G>(again, 1, x);
    PushThenReattach(again, [], again, push, Mapper([(0, 2)], false, false), [Append([x])], b);
  }

  lemma {:induction false} PushThenReattach<T, G>(start: Mapper, us: seq<Update<T, G>>, m: Mapper, push: Update<T, G>,
                                                  m': Mapper, ds: seq<VectorDiff<T>>, b: T)
    requires ExpectedAll(start, us) && MapAll(start, us) == (m, [])
    requires Expected(m, push) && MapUpdate(m, push) == (m', ds) && m'.lengths == [(0, 2)]
    ensures var all := us + [push] + [StartReattachItems] + [PushItems(Position(0, 2), [b])] + [EndReattachItems];
            ExpectedAll(start, all) && MapAll(start, all).1 == ds
  {
    OneMoreMapped(start, us, m, [], push, m', ds);
    assert [] + ds == ds;
    ReattachMapped(start, us + [push], m', ds, b);
  }

  lemma {:induction false} ReattachMapped<T, G>(start: Mapper, us: seq<Update<T, G>>, m: Mapper,
                                                ds: seq<VectorDiff<T>>, b: T)
    requires ExpectedAll(start, us) && MapAll(start, us) == (m, ds) && m.lengths == [(0, 2)]
    ensures var all := us + [StartReattachItems] + [PushItems(Position(0, 2), [b])] + [EndReattachItems];
            ExpectedAll(start, all) && MapAll(start, all).1 == ds
  {
    var m1, us1 := m.(reattaching := true), us + [StartReattachItems];
    OneMoreMapped(start, us, m, ds, StartReattachItems, m1, []);
    ReattachedPush(start, us1, m1, ds, b);
    var m2, us2 := m1.(lengths := [(0, 3)]), us1 + [PushItems(Position(0, 2), [b])];
    OneMoreMapped(start, us2, m2, ds, EndReattachItems, m2.(reattaching := false, detaching := false), []);
  }

  lemma {:induction false} ReattachedPush<T, G>(start: Mapper, us: seq<Update<T, G>>, m: Mapper,
                                                ds: seq<VectorDiff<T>>, b: T)
    requires ExpectedAll(start, us) && MapAll(start, us) == (m, ds) && m.lengths == [(0, 2)] && m.reattaching
    ensures var us': seq<Update<T, G>> := us + [PushItems(Position(0, 2), [b])];
            ExpectedAll(start, us') && MapAll(start, us') == (m.(lengths := [(0, 3)]), ds)
  {
    OnlyChunkPushed<T, G>(m, 2, b);
    OneMoreMapped(start, us, m, ds, PushItems(Position(0, 2), [b]), m.(lengths := [(0, 3)]), []);
    assert ds + [] == ds;
  }

  lemma {:induction false} OneMoreMapped<T, G>(start: Mapper, us: seq<Update<T, G>>, m: Mapper,
                                               ds: seq<VectorDiff<T>>, u: Update<T, G>, m': Mapper,
                                               more: seq<VectorDiff<T>>)
    requires ExpectedAll(start, us) && MapAll(start, us) == (m, ds)
    requires Expected(m, u) && MapUpdate(m, u) == (m', more)
    ensures ExpectedAll(start, us + [u]) && MapAll(start, us + [u]) == (m', ds + more)
    ensures more == [] ==> MapAll(start, us + [u]).1 == ds
  {
    MapAllSnoc(start, us, u);
    assert ds + [] == ds;
  }

  lemma {:induction false} OnlyChunkDetached<T, G>()
    ensures var u: Update<T, G> := DetachLastItems(Position(0, 1));
            MapUpdate(Mapper([(0, 2)], false, false), u) == (Mapper([(0, 1)], true, false), [])
  {
    assert WithLength([(0, 2)], 0, 1) == [(0, 1)];
    assert Find([(0, 2)], 0) == Some(0);
  }

  lemma {:induction false} OnlyChunkPushed<T, G>(m: Mapper, n: nat, x: T)
    requires m.lengths == [(0, n)]
    ensures var u: Update<T, G> := PushItems(Position(0, n), [x]);
            MapUpdate(m, u) == (m.(lengths := [(0, n + 1)]),
                                if m.reattaching then [] else if m.detaching then Inserts(n, [x]) else [Append([x])])
  {
    assert WithLength([(0, n)], 0, n + 1) == [(0, n + 1)];
    assert Find([(0, n)], 0) == Some(0);
    assert Offset([(0, n)], 0) == 0;
  }

  // ---- Which cuts are safe ----

  /** What a mapper is when the next call starts: the flags are gone. */
  function Restarted(m: Mapper): Mapper { m.(detaching := false, reattaching := false) }

  /** An observer at `m` with the list `v` gets to the same list whether or not it reads on in a new call. */
  ghost predicate SameAfter<T, G>(m: Mapper, us: seq<Update<T, G>>, v: seq<T>) {
    ExpectedAll(m, us) && ApplicableAll(MapAll(m, us).1, v) ==>
      && ExpectedAll(Restarted(m), us) && ApplicableAll(MapAll(Restarted(m), us).1, v)
      && ApplyAll(MapAll(Restarted(m), us).1, v) == ApplyAll(MapAll(m, us).1, v)
  }

  ghost predicate CutIsSafe<T(!new), G(!new)>(m: Mapper, v: seq<T>) {
    forall us: seq<Update<T, G>> :: SameAfter(m, us, v)
  }

  function Total(lengths: Lengths): nat { Offset(lengths, |lengths|) }

  lemma {:induction false} OffsetOfPrefix(a: Lengths, b: Lengths, k: nat)
    requires k <= |a|
    ensures Offset(a + b, k) == Offset(a, k)
  {
    if k > 0 {
      OffsetOfPrefix(a, b, k - 1);
    }
  }

  lemma {:induction false} TotalAppend(a: Lengths, b: Lengths)
    ensures Total(a + b) == Total(a) + Total(b)
  {
    if b == [] {
      assert a + b == a;
    } else {
      var n := |b| - 1;
      TotalAppend(a, b[..n]);
      assert a + b == (a + b[..n]) + [b[n]] && b == b[..n] + [b[n]];
      OffsetOfPrefix(a + b[..n], [b[n]], |a| + n);
      OffsetOfPrefix(b[..n], [b[n]], n);
    }
  }

  /** The total around the chunk at `k`. */
  lemma {:induction false} TotalAround(before: Lengths, l: (Id, nat), after: Lengths)
    ensures Total(before + [l] + after) == Total(before) + l.1 + Total(after)
    ensures Total(before + after) == Total(before) + Total(after)
  {
    TotalAppend(before + [l], after);
    TotalAppend(before, [l]);
    TotalAppend(before, after);
    assert Offset([l], 0) == 0 && Offset([l], 1) == l.1;
  }

  lemma {:induction false} TotalChanges(lengths: Lengths, k: nat, n: nat)
    requires k < |lengths|
    ensures Total(WithLength(lengths, k, n)) == Total(lengths) - lengths[k].1 + n
    ensures Total(lengths[..k] + lengths[k + 1..]) == Total(lengths) - lengths[k].1
  {
    var l := (lengths[k].0, n);
    TotalAround(lengths[..k], lengths[k], lengths[k + 1..]);
    TotalAround(lengths[..k], l, lengths[k + 1..]);
    assert lengths == lengths[..k] + [lengths[k]] + lengths[k + 1..];
    assert WithLength(lengths, k, n) == lengths[..k] + [l] + lengths[k + 1..];
  }

  lemma {:induction false} NewChunkKeepsTotal(lengths: Lengths, previous: Option<Id>, id: Id, next: Option<Id>)
    ensures Total(InsertChunk(lengths, previous, id, next)) == Total(lengths)
  {
    if next.None? {
      TotalAround(lengths, (id, 0), []);
      assert lengths + [(id, 0)] + [] == lengths + [(id, 0)] && lengths + [] == lengths;
    } else if previous.None? {
      TotalAround([], (id, 0), lengths);
      assert [] + [(id, 0)] + lengths == [(id, 0)] + lengths && [] + lengths == lengths;
    } else {
      var k := Find(lengths, next.value);
      if k.Some? {
        TotalAround(lengths[..k.value], (id, 0), lengths[k.value..]);
        assert lengths[..k.value] + lengths[k.value..] == lengths;
      }
    }
  }

  lemma {:induction false} RemovesShorten<T>(at: nat, n: nat, v: seq<T>)
    requires ApplicableAll(Removes<T>(at, n), v)
    ensures |ApplyAll(Removes<T>(at, n), v)| == |v| - n
  {
    if n > 0 {
      var ds := Removes<T>(at, n);
      assert ds[1..] == Removes<T>(at, n - 1);
      RemovesShorten(at, n - 1, Apply(ds[0], v));
    }
  }

  lemma {:induction false} InsertsLengthen<T>(at: nat, items: seq<T>, v: seq<T>)
    requires ApplicableAll(Inserts(at, items), v)
    ensures |ApplyAll(Inserts(at, items), v)| == |v| + |items|
    decreases |items|
  {
    if items != [] {
      InsertsCons(at, items);
      InsertsLengthen(at + 1, items[1..], Apply(Insert(at, items[0]), v));
    }
  }

  /** Items inserted at or after the end are appended. */
  lemma {:induction false} InsertsAtEnd<T>(at: nat, items: seq<T>, v: seq<T>)
    requires at >= |v| && ApplicableAll(Inserts(at, items), v)
    ensures ApplyAll(Inserts(at, items), v) == ApplyAll([Append(items)], v)
  {
    ApplyOne(Append(items), v);
    if items == [] {
      assert Inserts(at, items) == [] && v + items == v;
    } else {
      InsertsCons(at, items);
      ApplyInserts(v, items, []);
      assert v + [] == v && v + items + [] == v + items;
    }
  }

  /** As far as the list goes it does not matter that `m` is detaching, because nothing is detached. */
  predicate Harmless<T>(m: Mapper, v: seq<T>) {
    m.detaching && (m.reattaching || |v| == Total(m.lengths))
  }

  /** `m` and `m'` are the same but for a harmless flag. */
  predicate Alike<T>(m: Mapper, m': Mapper, v: seq<T>) {
    m' == m || (m' == m.(detaching := false) && Harmless(m, v))
  }

  /** One update maps `m` and `m'` to the same list and leaves them alike. */
  ghost predicate MovesAlike<T, G>(m: Mapper, m': Mapper, u: Update<T, G>, v: seq<T>) {
    Expected(m, u) && ApplicableAll(MapUpdate(m, u).1, v) ==>
      && Expected(m', u) && ApplicableAll(MapUpdate(m', u).1, v)
      && ApplyAll(MapUpdate(m', u).1, v) == ApplyAll(MapUpdate(m, u).1, v)
      && Alike(MapUpdate(m, u).0, MapUpdate(m', u).0, ApplyAll(MapUpdate(m, u).1, v))
  }

  lemma {:induction false} SameMovesAlike<T, G>(m: Mapper, u: Update<T, G>, v: seq<T>)
    ensures MovesAlike(m, m, u, v)
  {}

  lemma {:induction false} PushMovesAlike<T, G>(m: Mapper, at: Position, items: seq<T>, v: seq<T>)
    requires Harmless(m, v)
    ensures MovesAlike<T, G>(m, m.(detaching := false), PushItems(at, items), v)
  {
    var k := Find(m.lengths, at.chunk);
    if k.None? || m.reattaching {
      SilentPushAlike<T, G>(m, at, items, v);
    } else if k.value + 1 == |m.lengths| && at.index >= m.lengths[k.value].1 {
      BackPushAlike<T, G>(m, k.value, at, items, v);
    } else {
      InnerPushAlike<T, G>(m, k.value, at, items, v);
    }
  }

  lemma {:induction false} SilentPushAlike<T, G>(m: Mapper, at: Position, items: seq<T>, v: seq<T>)
    requires Harmless(m, v) && (Find(m.lengths, at.chunk).None? || m.reattaching)
    ensures MovesAlike<T, G>(m, m.(detaching := false), PushItems(at, items), v)
  {}

  lemma {:induction false} InnerPushAlike<T, G>(m: Mapper, k: nat, at: Position, items: seq<T>, v: seq<T>)
    requires m.detaching && !m.reattaching && |v| == Total(m.lengths)
    requires Find(m.lengths, at.chunk) == Some(k) && !(k + 1 == |m.lengths| && at.index >= m.lengths[k].1)
    ensures MovesAlike<T, G>(m, m.(detaching := false), PushItems(at, items), v)
  {
    var u, offset := Update<T, G>.PushItems(at, items), at.index + Offset(m.lengths, k);
    var after := m.(lengths := WithLength(m.lengths, k, m.lengths[k].1 + |items|));
    HarmlessAfterInserts(m, k, offset, items, v);
    SameDiffsAlike(m, u, v, after, Inserts(offset, items));
  }

  lemma {:induction false} HarmlessAfterInserts<T>(m: Mapper, k: nat, offset: nat, items: seq<T>, v: seq<T>)
    requires m.detaching && |v| == Total(m.lengths) && k < |m.lengths|
    ensures var after := m.(lengths := WithLength(m.lengths, k, m.lengths[k].1 + |items|));
            ApplicableAll(Inserts(offset, items), v) ==> Harmless(after, ApplyAll(Inserts(offset, items), v))
  {
    if ApplicableAll(Inserts(offset, items), v) {
      TotalChanges(m.lengths, k, m.lengths[k].1 + |items|);
      InsertsLengthen(offset, items, v);
    }
  }

  lemma {:induction false} SameDiffsAlike<T, G>(m: Mapper, u: Update<T, G>, v: seq<T>, after: Mapper,
                                                ds: seq<VectorDiff<T>>)
    requires Expected(m, u) && MapUpdate(m, u) == (after, ds)
    requires Expected(m.(detaching := false), u)
    requires MapUpdate(m.(detaching := false), u) == (after.(detaching := false), ds)
    requires ApplicableAll(ds, v) ==> Harmless(after, ApplyAll(ds, v))
    ensures MovesAlike(m, m.(detaching := false), u, v)
  {}

  lemma {:induction false} BackPushAlike<T, G>(m: Mapper, k: nat, at: Position, items: seq<T>, v: seq<T>)
    requires m.detaching && !m.reattaching && |v| == Total(m.lengths)
    requires k + 1 == |m.lengths| && Find(m.lengths, at.chunk) == Some(k) && at.index >= m.lengths[k].1
    ensures MovesAlike<T, G>(m, m.(detaching := false), PushItems(at, items), v)
  {
    var u, offset := Update<T, G>.PushItems(at, items), at.index + Offset(m.lengths, k);
    assert MapUpdate(m, u).1 == Inserts(offset, items);
    assert MapUpdate(m.(detaching := false), u).1 == [Append(items)];
    if ApplicableAll(Inserts(offset, items), v) {
      TotalChanges(m.lengths, k, m.lengths[k].1 + |items|);
      InsertsLengthen(offset, items, v);
      ApplyOne(Append(items), v);
      InsertsAtEnd(offset, items, v);
    }
  }

  lemma {:induction false} RemoveChunkAlike<T, G>(m: Mapper, id: Id, v: seq<T>)
    requires Harmless(m, v)
    ensures MovesAlike<T, G>(m, m.(detaching := false), RemoveChunk(id), v)
  {
    var k := Find(m.lengths, id);
    if k.Some? && ApplicableAll(Removes<T>(Offset(m.lengths, k.value), m.lengths[k.value].1), v) {
      TotalChanges(m.lengths, k.value, 0);
      RemovesShorten(Offset(m.lengths, k.value), m.lengths[k.value].1, v);
    }
  }

  lemma {:induction false} RemoveItemAlike<T, G>(m: Mapper, at: Position, v: seq<T>)
    requires Harmless(m, v)
    ensures MovesAlike<T, G>(m, m.(detaching := false), RemoveItem(at), v)
  {
    var k := Find(m.lengths, at.chunk);
    if k.Some? && m.lengths[k.value].1 > 0 {
      TotalChanges(m.lengths, k.value, m.lengths[k.value].1 - 1);
      var d: VectorDiff<T> := VectorDiff.Remove(at.index + Offset(m.lengths, k.value));
      if Applicable(d, v) {
        ApplyOne(d, v);
      }
    }
  }

  lemma {:induction false} StepMovesAlike<T, G>(m: Mapper, u: Update<T, G>, v: seq<T>)
    requires Harmless(m, v)
    ensures MovesAlike(m, m.(detaching := false), u, v)
  {
    match u
    case NewItemsChunk(previous, id, next) => NewChunkKeepsTotal(m.lengths, previous, id, next);
    case NewGapChunk(previous, id, next, _) => NewChunkKeepsTotal(m.lengths, previous, id, next);
    case RemoveChunk(id) => RemoveChunkAlike<T, G>(m, id, v);
    case PushItems(at, items) => PushMovesAlike<T, G>(m, at, items, v);
    case ReplaceItem(at, item) =>
      var k := Find(m.lengths, at.chunk);
      if k.Some? && ApplicableAll(MapUpdate(m, u).1, v) {
        ApplyOne(Set(at.index + Offset(m.lengths, k.value), item), v);
      }
    case RemoveItem(at) => RemoveItemAlike<T, G>(m, at, v);
    case DetachLastItems(_) =>
    case StartReattachItems =>
    case EndReattachItems =>
    case Clear => ApplyOne(VectorDiff.Clear, v);
  }

  lemma {:induction false} RunMovesAlike<T, G>(m: Mapper, m': Mapper, us: seq<Update<T, G>>, v: seq<T>)
    requires Alike(m, m', v) && ExpectedAll(m, us) && ApplicableAll(MapAll(m, us).1, v)
    ensures ExpectedAll(m', us) && ApplicableAll(MapAll(m', us).1, v)
    ensures ApplyAll(MapAll(m', us).1, v) == ApplyAll(MapAll(m, us).1, v)
    ensures Alike(MapAll(m, us).0, MapAll(m', us).0, ApplyAll(MapAll(m, us).1, v))
    decreases |us|
  {
    if us != [] {
      var n := |us| - 1;
      var m1, ds := MapAll(m, us[..n]).0, MapAll(m, us[..n]).1;
      ApplyAllAppend(ds, MapUpdate(m1, us[n]).1, v);
      RunMovesAlike(m, m', us[..n], v);
      var m1', ds' := MapAll(m', us[..n]).0, MapAll(m', us[..n]).1;
      if m1' == m1 {
        SameMovesAlike(m1, us[n], ApplyAll(ds, v));
      } else {
        StepMovesAlike(m1, us[n], ApplyAll(ds, v));
      }
      ApplyAllAppend(ds', MapUpdate(m1', us[n]).1, v);
    }
  }

  lemma {:induction false} FreshId(lengths: Lengths) returns (id: Id)
    ensures forall i :: 0 <= i < |lengths| ==> lengths[i].0 < id
  {
    if lengths == [] {
      id := 0;
    } else {
      id := FreshId(lengths[1..]);
      if id <= lengths[0].0 {
        id := lengths[0].0 + 1;
      }
    }
  }

  /** A new last chunk and an item in it. */
  function NewLast<T, G>(lengths: Lengths, id: Id, x: T): seq<Update<T, G>> {
    [NewItemsChunk(if lengths == [] then None else Some(lengths[|lengths| - 1].0), id, None),
     PushItems(Position(id, 0), [x])]
  }

  lemma {:induction false} NewLastMapped<T, G>(m: Mapper, id: Id, x: T)
    requires forall i :: 0 <= i < |m.lengths| ==> m.lengths[i].0 < id
    ensures var us := NewLast<T, G>(m.lengths, id, x);
            && ExpectedAll(m, us)
            && MapAll(m, us).1
               == if m.reattaching then [] else if m.detaching then [Insert(Total(m.lengths), x)] else [Append([x])]
  {
    var us, m1 := NewLast<T, G>(m.lengths, id, x), m.(lengths := m.lengths + [(id, 0)]);
    OneMoreMapped(m, [], m, [], us[0], m1, []);
    assert us[..1] == [] + [us[0]] && us == us[..1] + [us[1]];
    assert m1.lengths[|m.lengths|].0 == id;
    assert Find(m1.lengths, id) == Some(|m.lengths|);
    OffsetOfPrefix(m.lengths, [(id, 0)], |m.lengths|);
    assert Inserts(Total(m.lengths), [x]) == [Insert(Total(m.lengths), x)];
    MapAllSnoc(m, us[..1], us[1]);
  }

  /** While something is detached, the next item pushed to the end ends up elsewhere. */
  lemma {:induction false} CutIsNoticed<T(!new), G(!new)>(m: Mapper, v: seq<T>, x: T)
    requires m.reattaching || (m.detaching && |v| > Total(m.lengths) && v[Total(m.lengths)] != x)
    ensures !CutIsSafe<T, G>(m, v)
  {
    var id := FreshId(m.lengths);
    var us, n := NewLast<T, G>(m.lengths, id, x), Total(m.lengths);
    NewLastMapped<T, G>(m, id, x);
    NewLastMapped<T, G>(Restarted(m), id, x);
    ApplyOne(Append([x]), v);
    if !m.reattaching {
      ApplyOne(Insert(n, x), v);
      assert (v[..n] + [x] + v[n..])[n] == x && (v + [x])[n] == v[n];
    }
    assert !SameAfter(m, us, v);
  }

  /**
    A cut is safe for every continuation exactly when nothing is detached at that
    moment: neither flag is set, or it is but the observer's list is no longer than the
    chunks are.
   */
  lemma {:induction false} CutIsSafeIff<T(!new), G(!new)>(m: Mapper, v: seq<T>, x: T, y: T)
    requires x != y && |v| >= Total(m.lengths)
    ensures CutIsSafe<T, G>(m, v) <==> !m.reattaching && (!m.detaching || |v| == Total(m.lengths))
  {
    if !m.reattaching && (!m.detaching || |v| == Total(m.lengths)) {
      forall us: seq<Update<T, G>> ensures SameAfter(m, us, v) {
        if ExpectedAll(m, us) && ApplicableAll(MapAll(m, us).1, v) {
          RunMovesAlike(m, Restarted(m), us, v);
        }
      }
    } else if m.reattaching {
      CutIsNoticed<T, G>(m, v, x);
    } else {
      CutIsNoticed<T, G>(m, v, if v[Total(m.lengths)] == x then y else x);
    }
  }

  lemma {:induction false} RemoveItemFollows<T, G>(base: seq<Chunk<T, G>>, us: seq<Update<T, G>>, cs: seq<Chunk<T, G>>,
                                                   j: nat, i: nat)
    requires DistinctIds(cs) && j < |cs| && i < |ItemsOf(cs[j])| && Follows(base, us, cs)
    ensures Follows(base, us + [RemoveItem(Position(cs[j].id, i))],
                    WithItems(cs, j, ItemsOf(cs[j])[..i] + ItemsOf(cs[j])[i + 1..]))
  {
    RemoveItemMoves(cs, j, i);
    FollowsOneMore(base, us, cs, RemoveItem(Position(cs[j].id, i)),
                   WithItems(cs, j, ItemsOf(cs[j])[..i] + ItemsOf(cs[j])[i + 1..]));
  }

  lemma {:induction false} ReplaceItemFollows<T, G>(base: seq<Chunk<T, G>>, us: seq<Update<T, G>>, cs: seq<Chunk<T, G>>,
                                                    j: nat, i: nat, item: T)
    requires DistinctIds(cs) && j < |cs| && i < |ItemsOf(cs[j])| && Follows(base, us, cs)
    ensures Follows(base, us + [ReplaceItem(Position(cs[j].id, i), item)], WithItems(cs, j, ItemsOf(cs[j])[i := item]))
  {
    ReplaceItemMoves(cs, j, i, item);
    FollowsOneMore(base, us, cs, ReplaceItem(Position(cs[j].id, i), item), WithItems(cs, j, ItemsOf(cs[j])[i := item]));
  }

  lemma {:induction false} InsertFollows<T, G>(base: seq<Chunk<T, G>>, us: seq<Update<T, G>>, cs: seq<Chunk<T, G>>,
                                               k: nat, c: Chunk<T, G>)
    requires DistinctIds(cs) && k <= |cs| && ItemsOf(c) == [] && Follows(base, us, cs)
    ensures Follows(base, us + [Inserted(cs, k, c)], InsertedAt(cs, k, c))
  {
    InsertMaps(cs, k, c, Mapper(LengthsOf(cs), false, false));
    InsertedFlat(cs, k, c);
    FollowsOneMore(base, us, cs, Inserted(cs, k, c), InsertedAt(cs, k, c));
  }

  lemma {:induction false} InsertedFlat<T, G>(cs: seq<Chunk<T, G>>, k: nat, c: Chunk<T, G>)
    requires k <= |cs| && ItemsOf(c) == []
    ensures Flat(InsertedAt(cs, k, c)) == Flat(cs)
  {
    InsertedGather(ItemsOf, cs, k, c);
    GatherSplit(ItemsOf, InsertedAt(cs, k, c), k + 1);
    GatherSplit(ItemsOf, cs, k);
  }

  lemma {:induction false} RemoveEmptyFollows<T, G>(base: seq<Chunk<T, G>>, us: seq<Update<T, G>>,
                                                    cs: seq<Chunk<T, G>>, j: nat)
    requires DistinctIds(cs) && j < |cs| && ItemsOf(cs[j]) == [] && Follows(base, us, cs)
    ensures Follows(base, us + [RemoveChunk(cs[j].id)], Without(cs, j))
  {
    RemoveEmptyMoves(cs, j);
    FollowsOneMore(base, us, cs, RemoveChunk(cs[j].id), Without(cs, j));
  }
}

/**
  What an update says happened to the chunks themselves. The updates of a linked
  chunk are a faithful log: replayed on the chunks before, they give the chunks
  after.
 */
module ChunkLog {
  import opened Sequences
  import opened Chunks
  import opened ChunkSync

  function Effect<T, G>(cs: seq<Chunk<T, G>>, u: Update<T, G>): Option<seq<Chunk<T, G>>> {
    match u
    case NewItemsChunk(previous, id, next) => InsertEffect(cs, previous, Chunk(id, Items([])), next)
    case NewGapChunk(previous, id, next, gap) => InsertEffect(cs, previous, Chunk(id, Gap(gap)), next)
    case RemoveChunk(id) => (match Locate(cs, id) case None => None case Some(k) => Some(Without(cs, k)))
    case PushItems(at, items) =>
      var k := ItemsChunk(cs, at.chunk);
      if k.Some? && at.index == |ItemsOf(cs[k.value])| then Some(Extended(cs, k.value, items)) else None
    case ReplaceItem(at, item) =>
      var k := ItemsChunk(cs, at.chunk);
      if k.Some? && at.index < |ItemsOf(cs[k.value])| then
        Some(WithItems(cs, k.value, ItemsOf(cs[k.value])[at.index := item]))
      else None
    case RemoveItem(at) =>
      var k := ItemsChunk(cs, at.chunk);
      if k.Some? && at.index < |ItemsOf(cs[k.value])| then
        Some(WithItems(cs, k.value, ItemsOf(cs[k.value])[..at.index] + ItemsOf(cs[k.value])[at.index + 1..]))
      else None
    case DetachLastItems(at) =>
      var k := ItemsChunk(cs, at.chunk);
      if k.Some? && at.index <= |ItemsOf(cs[k.value])| then
        Some(WithItems(cs, k.value, ItemsOf(cs[k.value])[..at.index]))
      else None
    case StartReattachItems => Some(cs)
    case EndReattachItems => Some(cs)
    case Clear => Some([])
  }

  function ItemsChunk<T, G>(cs: seq<Chunk<T, G>>, id: Id): (r: Option<nat>)
    ensures r.Some? ==> r.value < |cs| && cs[r.value].id == id && cs[r.value].content.Items?
  {
    var k := Locate(cs, id);
    if k.Some? && cs[k.value].content.Items? then k else None
  }

  /** A chunk with a new identifier, between its two neighbours. */
  function InsertEffect<T, G>(cs: seq<Chunk<T, G>>, previous: Option<Id>, c: Chunk<T, G>, next: Option<Id>)
    : Option<seq<Chunk<T, G>>>
  {
    var k := if next.None? then Some(|cs|) else Locate(cs, next.value);
    if Locate(cs, c.id).None? && k.Some? && PreviousId(cs, k.value) == previous then Some(InsertedAt(cs, k.value, c))
    else None
  }

  function ReplayLog<T, G>(base: seq<Chunk<T, G>>, us: seq<Update<T, G>>): Option<seq<Chunk<T, G>>> {
    if us == [] then Some(base)
    else
      match ReplayLog(base, us[..|us| - 1])
      case None => None
      case Some(mid) => Effect(mid, us[|us| - 1])
  }

  ghost predicate Logs<T, G>(base: seq<Chunk<T, G>>, us: seq<Update<T, G>>, cs: seq<Chunk<T, G>>) {
    ReplayLog(base, us) == Some(cs)
  }

  lemma {:induction false} LogsOneMore<T, G>(base: seq<Chunk<T, G>>, us: seq<Update<T, G>>, cs: seq<Chunk<T, G>>,
                                             u: Update<T, G>, cs': seq<Chunk<T, G>>)
    requires Logs(base, us, cs) && Effect(cs, u) == Some(cs')
    ensures Logs(base, us + [u], cs')
  {
    assert (us + [u])[..|us|] == us;
  }

  lemma {:induction false} InsertLogs<T, G>(base: seq<Chunk<T, G>>, us: seq<Update<T, G>>, cs: seq<Chunk<T, G>>,
                                            k: nat, c: Chunk<T, G>)
    requires Logs(base, us, cs) && DistinctIds(cs) && k <= |cs| && ItemsOf(c) == []
    requires forall i :: 0 <= i < |cs| ==> cs[i].id != c.id
    ensures Logs(base, us + [Inserted(cs, k, c)], InsertedAt(cs, k, c))
  {
    if k < |cs| {
      LocateIs(cs, k);
    }
    LogsOneMore(base, us, cs, Inserted(cs, k, c), InsertedAt(cs, k, c));
  }

  lemma {:induction false} PushLogs<T, G>(base: seq<Chunk<T, G>>, us: seq<Update<T, G>>, cs: seq<Chunk<T, G>>,
                                          j: nat, items: seq<T>)
    requires Logs(base, us, cs) && DistinctIds(cs) && j < |cs| && cs[j].content.Items?
    ensures Logs(base, us + [Pushed(cs, j, items)], Extended(cs, j, items))
  {
    LocateIs(cs, j);
    LogsOneMore(base, us, cs, Pushed(cs, j, items), Extended(cs, j, items));
  }

  lemma {:induction false} DetachLogs<T, G>(base: seq<Chunk<T, G>>, us: seq<Update<T, G>>, cs: seq<Chunk<T, G>>,
                                            j: nat, n: nat)
    requires Logs(base, us, cs) && DistinctIds(cs) && j < |cs| && cs[j].content.Items? && n <= |ItemsOf(cs[j])|
    ensures Logs(base, us + [DetachLastItems(Position(cs[j].id, n))], WithItems(cs, j, ItemsOf(cs[j])[..n]))
  {
    LocateIs(cs, j);
    LogsOneMore(base, us, cs, DetachLastItems(Position(cs[j].id, n)), WithItems(cs, j, ItemsOf(cs[j])[..n]));
  }

  lemma {:induction false} RemoveItemLogs<T, G>(base: seq<Chunk<T, G>>, us: seq<Update<T, G>>, cs: seq<Chunk<T, G>>,
                                                j: nat, i: nat)
    requires Logs(base, us, cs) && DistinctIds(cs) && j < |cs| && cs[j].content.Items? && i < |ItemsOf(cs[j])|
    ensures Logs(base, us + [RemoveItem(Position(cs[j].id, i))],
                 WithItems(cs, j, ItemsOf(cs[j])[..i] + ItemsOf(cs[j])[i + 1..]))
  {
    LocateIs(cs, j);
    LogsOneMore(base, us, cs, RemoveItem(Position(cs[j].id, i)),
                WithItems(cs, j, ItemsOf(cs[j])[..i] + ItemsOf(cs[j])[i + 1..]));
  }

  lemma {:induction false} ReplaceItemLogs<T, G>(base: seq<Chunk<T, G>>, us: seq<Update<T, G>>, cs: seq<Chunk<T, G>>,
                                                 j: nat, i: nat, item: T)
    requires Logs(base, us, cs) && DistinctIds(cs) && j < |cs| && cs[j].content.Items? && i < |ItemsOf(cs[j])|
    ensures Logs(base, us + [ReplaceItem(Position(cs[j].id, i), item)], WithItems(cs, j, ItemsOf(cs[j])[i := item]))
  {
    LocateIs(cs, j);
    LogsOneMore(base, us, cs, ReplaceItem(Position(cs[j].id, i), item), WithItems(cs, j, ItemsOf(cs[j])[i := item]));
  }

  lemma {:induction false} RemoveChunkLogs<T, G>(base: seq<Chunk<T, G>>, us: seq<Update<T, G>>, cs: seq<Chunk<T, G>>,
                                                 j: nat)
    requires Logs(base, us, cs) && DistinctIds(cs) && j < |cs|
    ensures Logs(base, us + [RemoveChunk(cs[j].id)], Without(cs, j))
  {
    LocateIs(cs, j);
    LogsOneMore(base, us, cs, RemoveChunk(cs[j].id), Without(cs, j));
  }
}
