/**
  `LinkedChunk`: items and gaps kept in chunks of bounded size. Every operation
  describes itself as a sequence of `Update`s, and an observer that maps those to
  diffs of one flat list ends up with exactly the items of the chunks.
 */
module LinkedChunks {
  import opened Sequences
  import opened VectorDiffs
  import opened Chunks
  import opened UpdateMapping
  import opened ChunkSync
  import opened ChunkLog

  datatype Error =
    | InvalidChunkIdentifier(id: Id)
    | ChunkIsAGap(id: Id)
    | ChunkIsItems(id: Id)
    | RemovingNonEmptyItemsChunk(id: Id)
    | RemovingLastChunk
    | InvalidItemIndex(index: nat)

  datatype Result<T> = Ok(value: T) | Err(error: Error)

  const FIRST_IDENTIFIER: Id := 0

  /** The chunks once the first one exists; the code creates it at the first access. */
  function WithFirst<T, G>(cs: seq<Chunk<T, G>>): (r: seq<Chunk<T, G>>)
    ensures r != []
  {
    if cs == [] then [Chunk(FIRST_IDENTIFIER, Items([]))] else cs
  }

  /** What a position is for: each use allows other indices. */
  datatype Use = ToInsertItems | ToInsertGap | ToRead

  predicate Allowed(use: Use, index: nat, length: nat) {
    match use
    case ToInsertItems => index <= length
    case ToInsertGap => index == 0 || index < length
    case ToRead => index < length
  }

  /** The chunk of a position, or why the position is refused. */
  function Resolve<T, G>(cs: seq<Chunk<T, G>>, at: Position, use: Use): (r: Result<nat>)
    ensures r.Ok? ==> r.value < |cs| && cs[r.value].id == at.chunk && cs[r.value].content.Items?
    ensures r.Ok? ==> Allowed(use, at.index, |cs[r.value].content.items|)
  {
    match Locate(cs, at.chunk)
    case None => Err(InvalidChunkIdentifier(at.chunk))
    case Some(k) =>
      if cs[k].content.Gap? then Err(ChunkIsAGap(at.chunk))
      else if !Allowed(use, at.index, |cs[k].content.items|) then Err(InvalidItemIndex(at.index))
      else Ok(k)
  }

  /** The place of the `n`-th item of chunk `k` among all items and gaps. */
  function Place<T, G>(cs: seq<Chunk<T, G>>, k: nat, n: nat): nat
    requires k <= |cs|
  {
    |View(cs[..k])| + n
  }

  ghost predicate WellFormed<T, G>(cs: seq<Chunk<T, G>>, lastId: Id, capacity: nat) {
    && DistinctIds(cs)
    && (forall i :: 0 <= i < |cs| ==> cs[i].id <= lastId && |ItemsOf(cs[i])| <= capacity)
  }

  lemma {:induction false} EntriesAppend<T, G>(a: seq<T>, b: seq<T>)
    ensures Entries<T, G>(a + b) == Entries(a) + Entries(b)
  {}

  lemma {:induction false} WithItemsWellFormed<T, G>(cs: seq<Chunk<T, G>>, j: nat, items: seq<T>, lastId: Id,
                                                     capacity: nat)
    requires j < |cs| && WellFormed(cs, lastId, capacity) && |items| <= capacity
    ensures WellFormed(WithItems(cs, j, items), lastId, capacity)
  {}

  lemma {:induction false} InsertedWellFormed<T, G>(cs: seq<Chunk<T, G>>, k: nat, c: Chunk<T, G>, lastId: Id,
                                                    capacity: nat)
    requires k <= |cs| && c.id == lastId && lastId > 0 && ItemsOf(c) == []
    requires WellFormed(cs, lastId - 1, capacity)
    ensures WellFormed(InsertedAt(cs, k, c), lastId, capacity)
  {
    var cs' := InsertedAt(cs, k, c);
    assert forall i :: 0 <= i < |cs'| ==> cs'[i] == if i < k then cs[i] else if i == k then c else cs[i - 1];
  }

  // ---- Growing from a chunk on ----

  /** `cs'` holds `items` after what `cs` had up to chunk `j`, ends there at chunk `last`, and is `cs` elsewhere. */
  ghost predicate Grown<T, G>(cs: seq<Chunk<T, G>>, j: nat, items: seq<T>, cs': seq<Chunk<T, G>>, last: nat) {
    && j < |cs| && j <= last < |cs'|
    && View(cs'[..last + 1]) == View(cs[..j + 1]) + Entries(items)
    && cs'[last + 1..] == cs[j + 1..]
    && cs'[..j] == cs[..j]
    && cs'[j].id == cs[j].id
    && (cs[j].content.Items? ==> cs'[j].content.Items?)
  }

  lemma {:induction false} ExtendGrows<T, G>(cs: seq<Chunk<T, G>>, j: nat, items: seq<T>)
    requires j < |cs| && cs[j].content.Items?
    ensures Grown(cs, j, items, Extended(cs, j, items), j)
  {
    WithItemsGather(EntriesOf, cs, j, ItemsOf(cs[j]) + items);
    GatherUpTo(EntriesOf, cs, j);
    EntriesAppend<T, G>(ItemsOf(cs[j]), items);
  }

  lemma {:induction false} ExtendByNothing<T, G>(cs: seq<Chunk<T, G>>, j: nat)
    requires j < |cs| && cs[j].content.Items?
    ensures Extended(cs, j, []) == cs
  {
    assert ItemsOf(cs[j]) + [] == ItemsOf(cs[j]);
  }

  lemma {:induction false} InsertGrows<T, G>(cs: seq<Chunk<T, G>>, j: nat, id: Id)
    requires j < |cs|
    ensures Grown(cs, j, [], InsertedAt(cs, j + 1, Chunk(id, Items([]))), j + 1)
  {
    var cs' := InsertedAt(cs, j + 1, Chunk(id, Items([])));
    InsertedGather(EntriesOf, cs, j + 1, Chunk(id, Items([])));
    assert cs'[..j] == cs[..j] && cs'[j] == cs[j];
  }

  lemma {:induction false} GrownTwice<T, G>(cs0: seq<Chunk<T, G>>, j0: nat, a: seq<T>, cs1: seq<Chunk<T, G>>, j1: nat,
                                            b: seq<T>, cs2: seq<Chunk<T, G>>, j2: nat)
    requires Grown(cs0, j0, a, cs1, j1) && Grown(cs1, j1, b, cs2, j2)
    ensures Grown(cs0, j0, a + b, cs2, j2)
  {
    EntriesAppend<T, G>(a, b);
    assert cs2[..j0] == cs2[..j1][..j0] == cs1[..j0];
    if j0 < j1 {
      assert cs2[j0] == cs2[..j1][j0] == cs1[j0];
    }
  }

  /** The rest of a push that filled chunk `j` with `first`. */
  lemma {:induction false} GrownByRest<T, G>(cs0: seq<Chunk<T, G>>, j: nat, first: seq<T>, cs1: seq<Chunk<T, G>>,
                                             id: Id, rest: seq<T>, cs2: seq<Chunk<T, G>>, last: nat)
    requires Grown(cs0, j, first, cs1, j)
    requires Grown(InsertedAt(cs1, j + 1, Chunk(id, Items([]))), j + 1, rest, cs2, last)
    ensures Grown(cs0, j, first + rest, cs2, last)
  {
    InsertGrows(cs1, j, id);
    GrownTwice(cs1, j, [], InsertedAt(cs1, j + 1, Chunk(id, Items([]))), j + 1, rest, cs2, last);
    assert [] + rest == rest;
    GrownTwice(cs0, j, first, cs1, j, rest, cs2, last);
  }

  lemma {:induction false} DetachedTwice<T>(m: Mapper, detached: seq<T>, a: seq<T>, b: seq<T>)
    requires Pushable(m, detached, a + b)
    ensures Pushable(m, detached, a) && Pushable(m, StillDetached(m, detached, a), b)
    ensures StillDetached(m, StillDetached(m, detached, a), b) == StillDetached(m, detached, a + b)
  {
    if m.reattaching {
      assert forall i :: 0 <= i < |a| ==> a[i] == (a + b)[i];
      assert forall i :: 0 <= i < |b| ==> b[i] == (a + b)[|a| + i];
    }
  }

  // ---- The effect on items and gaps ----

  lemma {:induction false} GrownView<T, G>(cs: seq<Chunk<T, G>>, j: nat, items: seq<T>, cs': seq<Chunk<T, G>>,
                                           last: nat)
    requires Grown(cs, j, items, cs', last)
    ensures View(cs') == View(cs[..j + 1]) + Entries(items) + View(cs[j + 1..])
  {
    GatherSplit(EntriesOf, cs', last + 1);
  }

  lemma {:induction false} InsertedView<T, G>(cs: seq<Chunk<T, G>>, k: nat, c: Chunk<T, G>)
    requires k <= |cs|
    ensures View(InsertedAt(cs, k, c)) == View(cs[..k]) + EntriesOf(c) + View(cs[k..])
  {
    InsertedGather(EntriesOf, cs, k, c);
    GatherSplit(EntriesOf, InsertedAt(cs, k, c), k + 1);
  }

  lemma {:induction false} InsertedLast<T, G>(cs: seq<Chunk<T, G>>, c: Chunk<T, G>)
    ensures View(InsertedAt(cs, |cs|, c)) == View(cs) + EntriesOf(c)
  {
    assert InsertedAt(cs, |cs|, c) == cs + [c];
    GatherSnoc(EntriesOf, cs, c);
  }

  /** Cutting the view inside chunk `k`. */
  lemma {:induction false} ViewAt<T, G>(cs: seq<Chunk<T, G>>, k: nat, n: nat)
    requires k < |cs| && cs[k].content.Items? && n <= |cs[k].content.items|
    ensures var place := |View(cs[..k])| + n;
            && place <= |View(cs)|
            && View(cs)[..place] == View(cs[..k]) + Entries(cs[k].content.items[..n])
            && View(cs)[place..] == Entries(cs[k].content.items[n..]) + View(cs[k + 1..])
  {
    var items := cs[k].content.items;
    GatherAt(EntriesOf, cs, k);
    EntriesSplit<T, G>(items, n);
    CutAt(View(cs[..k]), Entries<T, G>(items[..n]), Entries<T, G>(items[n..]), View(cs[k + 1..]));
  }

  lemma {:induction false} EntriesSplit<T, G>(items: seq<T>, n: nat)
    requires n <= |items|
    ensures Entries<T, G>(items) == Entries(items[..n]) + Entries(items[n..])
    ensures |Entries<T, G>(items[..n])| == n
  {
    EntriesAppend<T, G>(items[..n], items[n..]);
    assert items[..n] + items[n..] == items;
  }

  lemma {:induction false} CutAt<X>(a: seq<X>, b: seq<X>, c: seq<X>, d: seq<X>)
    ensures var s := a + (b + c) + d; var n := |a| + |b|; s[..n] == a + b && s[n..] == c + d
  {}

  /** `cs'` is `cs` with `entries` put in at item `n` of chunk `k`. */
  ghost predicate HoldsAt<T, G>(cs: seq<Chunk<T, G>>, k: nat, n: nat, entries: seq<Entry<T, G>>, cs': seq<Chunk<T, G>>)
    requires k <= |cs|
  {
    && Place(cs, k, n) <= |View(cs)|
    && View(cs') == View(cs)[..Place(cs, k, n)] + entries + View(cs)[Place(cs, k, n)..]
  }

  /** `cs'` is `cs` without item `n` of chunk `k`, which was `item`. */
  ghost predicate LosesAt<T, G>(cs: seq<Chunk<T, G>>, k: nat, n: nat, item: T, cs': seq<Chunk<T, G>>)
    requires k <= |cs|
  {
    && Place(cs, k, n) < |View(cs)| && View(cs)[Place(cs, k, n)] == Item(item)
    && View(cs') == View(cs)[..Place(cs, k, n)] + View(cs)[Place(cs, k, n) + 1..]
  }

  lemma {:induction false} PushedHoldsAt<T, G>(cs: seq<Chunk<T, G>>, k: nat, items: seq<T>, cs': seq<Chunk<T, G>>,
                                               last: nat)
    requires k < |cs| && cs[k].content.Items? && Grown(cs, k, items, cs', last)
    ensures HoldsAt(cs, k, |cs[k].content.items|, Entries(items), cs')
  {
    ViewAt(cs, k, |cs[k].content.items|);
    GrownView(cs, k, items, cs', last);
    GatherUpTo(EntriesOf, cs, k);
    GatherSplit(EntriesOf, cs, k + 1);
  }

  lemma {:induction false} InsertedHoldsAt<T, G>(cs: seq<Chunk<T, G>>, k: nat, c: Chunk<T, G>)
    requires k < |cs| && cs[k].content.Items?
    ensures HoldsAt(cs, k, 0, EntriesOf(c), InsertedAt(cs, k, c))
  {
    InsertedView(cs, k, c);
    GatherSplit(EntriesOf, cs, k);
  }

  /** Splitting chunk `k` at `n`, and going on with `items` and then with what was split off. */
  lemma {:induction false} SplitView<T, G>(cs: seq<Chunk<T, G>>, k: nat, n: nat, items: seq<T>,
                                           cs1: seq<Chunk<T, G>>, cs': seq<Chunk<T, G>>, last: nat)
    requires k < |cs| && cs[k].content.Items? && n <= |cs[k].content.items|
    requires cs1 == WithItems(cs, k, cs[k].content.items[..n])
    requires Grown(cs1, k, items + cs[k].content.items[n..], cs', last)
    ensures HoldsAt(cs, k, n, Entries(items), cs')
  {
    ViewAt(cs, k, n);
    var detached := cs[k].content.items[n..];
    WithItemsGather(EntriesOf, cs, k, cs[k].content.items[..n]);
    GrownView(cs1, k, items + detached, cs', last);
    EntriesAppend<T, G>(items, detached);
    Regrouped(View(cs1[..k + 1]), Entries<T, G>(items), Entries<T, G>(detached), View(cs[k + 1..]));
  }

  /** The same with a gap chunk in between. */
  lemma {:induction false} SplitByGapView<T, G>(cs: seq<Chunk<T, G>>, k: nat, n: nat, id: Id, gap: G,
                                                cs1: seq<Chunk<T, G>>, cs': seq<Chunk<T, G>>, last: nat)
    requires k < |cs| && cs[k].content.Items? && n <= |cs[k].content.items|
    requires cs1 == WithItems(cs, k, cs[k].content.items[..n])
    requires Grown(InsertedAt(cs1, k + 1, Chunk(id, Gap(gap))), k + 1, cs[k].content.items[n..], cs', last)
    ensures HoldsAt(cs, k, n, [Hole(gap)], cs')
  {
    ViewAt(cs, k, n);
    var c := Chunk(id, Gap(gap));
    WithItemsGather(EntriesOf, cs, k, cs[k].content.items[..n]);
    InsertedGather(EntriesOf, cs1, k + 1, c);
    GrownView(InsertedAt(cs1, k + 1, c), k + 1, cs[k].content.items[n..], cs', last);
    Associate(View(cs1[..k + 1]) + [Hole(gap)], Entries<T, G>(cs[k].content.items[n..]), View(cs[k + 1..]));
  }

  lemma {:induction false} WithItemsView<T, G>(cs: seq<Chunk<T, G>>, k: nat, items: seq<T>)
    requires k < |cs|
    ensures View(WithItems(cs, k, items)) == View(cs[..k]) + Entries(items) + View(cs[k + 1..])
  {
    WithItemsGather(EntriesOf, cs, k, items);
    GatherAt(EntriesOf, WithItems(cs, k, items), k);
  }

  lemma {:induction false} RemovedView<T, G>(cs: seq<Chunk<T, G>>, k: nat, i: nat)
    requires k < |cs| && cs[k].content.Items? && i < |cs[k].content.items|
    ensures var items := cs[k].content.items;
            LosesAt(cs, k, i, items[i], WithItems(cs, k, items[..i] + items[i + 1..]))
  {
    var items := cs[k].content.items;
    ViewAt(cs, k, i);
    ViewAt(cs, k, i + 1);
    WithItemsView(cs, k, items[..i] + items[i + 1..]);
    EntriesAppend<T, G>(items[..i], items[i + 1..]);
    Regrouped(View(cs[..k]), Entries<T, G>(items[..i]), Entries<T, G>(items[i + 1..]), View(cs[k + 1..]));
    var place := Place(cs, k, i);
    assert View(cs)[place] == View(cs)[place..][0] == Entries<T, G>(items[i..])[0];
  }

  lemma {:induction false} ReplacedView<T, G>(cs: seq<Chunk<T, G>>, k: nat, i: nat, item: T)
    requires k < |cs| && cs[k].content.Items? && i < |cs[k].content.items|
    ensures Place(cs, k, i) < |View(cs)|
    ensures View(WithItems(cs, k, cs[k].content.items[i := item])) == View(cs)[Place(cs, k, i) := Item(item)]
  {
    GatherAt(EntriesOf, cs, k);
    WithItemsView(cs, k, cs[k].content.items[i := item]);
  }

  lemma {:induction false} WithoutView<T, G>(cs: seq<Chunk<T, G>>, j: nat)
    requires j < |cs|
    ensures View(Without(cs, j)) == View(cs[..j]) + View(cs[j + 1..])
    ensures EntriesOf(cs[j]) == [] ==> View(Without(cs, j)) == View(cs)
  {
    GatherAt(EntriesOf, cs, j);
    GatherAppend(EntriesOf, cs[..j], cs[j + 1..]);
  }

  lemma {:induction false} WithoutFlat<T, G>(cs: seq<Chunk<T, G>>, j: nat)
    requires j < |cs| && ItemsOf(cs[j]) == []
    ensures Flat(Without(cs, j)) == Flat(cs)
  {
    GatherAt(ItemsOf, cs, j);
    GatherAppend(ItemsOf, cs[..j], cs[j + 1..]);
  }

  lemma {:induction false} WithoutWellFormed<T, G>(cs: seq<Chunk<T, G>>, j: nat, lastId: Id, capacity: nat)
    requires j < |cs| && WellFormed(cs, lastId, capacity)
    ensures WellFormed(Without(cs, j), lastId, capacity)
  {
    var cs' := Without(cs, j);
    assert forall i :: 0 <= i < |cs'| ==> cs'[i] == if i < j then cs[i] else cs[i + 1];
  }

  lemma {:induction false} GapReplaced<T, G>(cs: seq<Chunk<T, G>>, k: nat, id: Id, cs1: seq<Chunk<T, G>>,
                                             items: seq<T>, cs2: seq<Chunk<T, G>>, last: nat)
    requires k < |cs| && cs[k].content.Gap?
    requires cs1 == InsertedAt(cs, k + 1, Chunk(id, Items([])))
    requires Grown(cs1, k + 1, items, cs2, last)
    ensures View(cs) == View(cs[..k]) + [Hole(cs[k].content.gap)] + View(cs[k + 1..])
    ensures k + 1 < |cs2| && cs2[k] == cs[k] && cs2[k + 1].id == id && cs2[k + 1].content.Items?
    ensures View(Without(cs2, k)) == View(cs[..k]) + Entries(items) + View(cs[k + 1..])
  {
    InsertGrows(cs, k, id);
    GrownTwice(cs, k, [], cs1, k + 1, items, cs2, last);
    assert [] + items == items;
    assert cs2[k] == cs2[..k + 1][k] == cs1[..k + 1][k] == cs[k];
    GrownWithoutFirst(cs, k, items, cs2, last);
  }

  /** Taking chunk `k` away from before and after a growth. */
  lemma {:induction false} GrownWithoutFirst<T, G>(cs: seq<Chunk<T, G>>, k: nat, items: seq<T>,
                                                   cs2: seq<Chunk<T, G>>, last: nat)
    requires Grown(cs, k, items, cs2, last) && cs2[k] == cs[k]
    ensures View(cs) == View(cs[..k]) + EntriesOf(cs[k]) + View(cs[k + 1..])
    ensures View(Without(cs2, k)) == View(cs[..k]) + Entries(items) + View(cs[k + 1..])
  {
    GatherAt(EntriesOf, cs, k);
    GrownView(cs, k, items, cs2, last);
    GatherUpTo(EntriesOf, cs, k);
    GatherAt(EntriesOf, cs2, k);
    WithoutView(cs2, k);
    var a, b := View(cs[..k]), EntriesOf(cs[k]);
    Associate(a + b, Entries(items), View(cs[k + 1..]));
    SameTail(a, b, View(cs2[k + 1..]), Entries(items) + View(cs[k + 1..]));
    Associate(a, Entries(items), View(cs[k + 1..]));
  }

  lemma {:induction false} Associate<X>(a: seq<X>, b: seq<X>, c: seq<X>)
    ensures a + b + c == a + (b + c)
  {}

  lemma {:induction false} SameTail<X>(a: seq<X>, b: seq<X>, c: seq<X>, d: seq<X>)
    requires a + b + c == a + b + d
    ensures c == d
  {
    assert c == (a + b + c)[|a + b|..] && d == (a + b + d)[|a + b|..];
  }

  lemma {:induction false} ClearTracks<T, G>(base: seq<Chunk<T, G>>)
    ensures Follows(base, [] + [Update.Clear], []) && Logs(base, [] + [Update.Clear], [])
  {
    var m := Mapper(LengthsOf(base), false, false);
    TracksNothing(base);
    ApplyOne(VectorDiff.Clear, Flat(base));
    TracksOneMore(base, [], m, Flat(base), Update.Clear, Mapper([], false, false), []);
    LogsOneMore(base, [], base, Update.Clear, []);
  }

  /** All that `insert_next` keeps, for a chunk with the next identifier. */
  lemma {:induction false} InsertedNext<T, G>(base: seq<Chunk<T, G>>, us: seq<Update<T, G>>, cs: seq<Chunk<T, G>>,
                                              j: nat, c: Chunk<T, G>, detached: seq<T>, m: Mapper, capacity: nat)
    requires j < |cs| && ItemsOf(c) == [] && c.id > 0 && WellFormed(cs, c.id - 1, capacity)
    requires m.lengths == LengthsOf(cs) && Tracks(base, us, m, Seen(cs, j, detached)) && Logs(base, us, cs)
    ensures var cs', us' := InsertedAt(cs, j + 1, c), us + [Inserted(cs, j + 1, c)];
            && WellFormed(cs', c.id, capacity) && Logs(base, us', cs')
            && Tracks(base, us', m.(lengths := LengthsOf(cs')), Seen(cs', j + 1, detached))
  {
    InsertedWellFormed(cs, j + 1, c, c.id, capacity);
    InsertTracks(base, us, cs, j, c, detached, m);
    InsertLogs(base, us, cs, j + 1, c);
  }

  /** All that `insert_before` keeps. */
  lemma {:induction false} InsertedInFront<T, G>(base: seq<Chunk<T, G>>, us: seq<Update<T, G>>, cs: seq<Chunk<T, G>>,
                                                 k: nat, c: Chunk<T, G>, capacity: nat)
    requires k < |cs| && cs[k].content.Items? && ItemsOf(c) == [] && c.id > 0 && WellFormed(cs, c.id - 1, capacity)
    requires Follows(base, us, cs) && Logs(base, us, cs)
    ensures var cs', us' := InsertedAt(cs, k, c), us + [Inserted(cs, k, c)];
            && WellFormed(cs', c.id, capacity) && Logs(base, us', cs') && Follows(base, us', cs')
            && HoldsAt(cs, k, 0, EntriesOf(c), cs')
  {
    InsertedWellFormed(cs, k, c, c.id, capacity);
    InsertFollows(base, us, cs, k, c);
    InsertLogs(base, us, cs, k, c);
    InsertedHoldsAt(cs, k, c);
  }

  class LinkedChunk<T, G> {
    const capacity: nat
    var chunks: seq<Chunk<T, G>>
    /** The identifier handed out last. */
    var lastId: Id
    /** The updates the observer has not taken yet. */
    var updates: seq<Update<T, G>>
    /** The chunks when the observer took updates last. */
    ghost var base: seq<Chunk<T, G>>

    ghost predicate Valid()
      reads this
    {
      && capacity > 0
      && WellFormed(chunks, lastId, capacity)
      && Follows(base, updates, chunks)
      && Logs(base, updates, chunks)
    }

    /** In the middle of an operation that works on chunk `j`. */
    ghost predicate WorksOn(j: nat, detached: seq<T>, detaching: bool, reattaching: bool)
      reads this
    {
      && capacity > 0 && j < |chunks|
      && WellFormed(chunks, lastId, capacity)
      && Tracks(base, updates, Mapper(LengthsOf(chunks), detaching, reattaching), Seen(chunks, j, detached))
      && Logs(base, updates, chunks)
    }

    constructor (capacity: nat)
      requires capacity > 0
      ensures Valid() && this.capacity == capacity && chunks == [] && updates == [] && base == []
    {
      this.capacity := capacity;
      chunks, lastId, updates, base := [], FIRST_IDENTIFIER, [], [];
      new;
      TracksNothing(base);
    }

    // ---- Steps of the operations ----

    /** `Ends::first_chunk_ptr`. */
    method EnsureFirst()
      requires Valid()
      modifies this
      ensures Valid() && base == old(base)
      ensures chunks == WithFirst(old(chunks)) && View(chunks) == View(old(chunks))
    {
      if chunks == [] {
        var first := Chunk(FIRST_IDENTIFIER, Items([]));
        InsertFollows(base, updates, chunks, 0, first);
        InsertLogs(base, updates, chunks, 0, first);
        assert InsertedAt(chunks, 0, first) == [first];
        InsertedView(chunks, 0, first);
        updates := updates + [Inserted(chunks, 0, first)];
        chunks := [first];
      }
    }

    /** `chunk_mut`: from the last chunk to the first. */
    method FindChunk(id: Id) returns (r: Option<nat>)
      ensures r == Locate(chunks, id)
    {
      var i := |chunks|;
      assert chunks[..i] == chunks;
      while i > 0
        invariant 0 <= i <= |chunks|
        invariant Locate(chunks, id) == Locate(chunks[..i], id)
      {
        assert chunks[..i][..i - 1] == chunks[..i - 1];
        if chunks[i - 1].id == id {
          return Some(i - 1);
        }
        i := i - 1;
      }
      r := None;
    }

    /** `insert_next`, with a new identifier. */
    method InsertNext(j: nat, content: Content<T, G>,
                      ghost detached: seq<T>, ghost detaching: bool, ghost reattaching: bool)
      requires WorksOn(j, detached, detaching, reattaching)
      requires content.Items? ==> content.items == []
      modifies this
      ensures lastId == old(lastId) + 1 && base == old(base)
      ensures chunks == InsertedAt(old(chunks), j + 1, Chunk(lastId, content))
      ensures WorksOn(j + 1, detached, detaching, reattaching)
    {
      lastId := lastId + 1;
      var c := Chunk(lastId, content);
      InsertedNext(base, updates, chunks, j, c, detached, Mapper(LengthsOf(chunks), detaching, reattaching), capacity);
      updates := updates + [Inserted(chunks, j + 1, c)];
      chunks := InsertedAt(chunks, j + 1, c);
    }

    /** Puts `items` into the free space of chunk `j`. */
    method Extend(j: nat, items: seq<T>, ghost detached: seq<T>, ghost detaching: bool, ghost reattaching: bool)
      requires WorksOn(j, detached, detaching, reattaching)
      requires chunks[j].content.Items? && |ItemsOf(chunks[j])| + |items| <= capacity
      requires Pushable(Mapper([], detaching, reattaching), detached, items)
      modifies this
      ensures base == old(base) && chunks == Extended(old(chunks), j, items)
      ensures WorksOn(j, StillDetached(Mapper([], detaching, reattaching), detached, items), detaching, reattaching)
    {
      PushTracks(base, updates, chunks, j, items, detached, Mapper(LengthsOf(chunks), detaching, reattaching));
      PushLogs(base, updates, chunks, j, items);
      updates := updates + [Pushed(chunks, j, items)];
      chunks := Extended(chunks, j, items);
      WithItemsWellFormed(old(chunks), j, ItemsOf(old(chunks)[j]) + items, lastId, capacity);
    }

    /** `push_items`: fills chunk `j`, then new chunks after it. Returns the chunk to go on with. */
    method PushItems(j: nat, items: seq<T>, ghost detached: seq<T>, ghost detaching: bool, ghost reattaching: bool)
      returns (last: nat)
      requires WorksOn(j, detached, detaching, reattaching)
      requires Pushable(Mapper([], detaching, reattaching), detached, items)
      modifies this
      ensures base == old(base)
      ensures Grown(old(chunks), j, items, chunks, last)
      ensures WorksOn(last, StillDetached(Mapper([], detaching, reattaching), detached, items), detaching, reattaching)
      decreases |items|, if chunks[j].content.Items? && |ItemsOf(chunks[j])| < capacity then 0 else 1
    {
      if items == [] {
        return j;
      }
      ghost var start := chunks;
      if chunks[j].content.Gap? {
        InsertNext(j, Items([]), detached, detaching, reattaching);
        InsertGrows(start, j, lastId);
        ghost var grown := chunks;
        last := PushItems(j + 1, items, detached, detaching, reattaching);
        GrownTwice(start, j, [], grown, j + 1, items, chunks, last);
        assert [] + items == items;
      } else {
        var free := capacity - |chunks[j].content.items|;
        if |items| <= free {
          ExtendGrows(chunks, j, items);
          Extend(j, items, detached, detaching, reattaching);
          last := j;
        } else {
          last := FillAndGoOn(j, free, items, detached, detaching, reattaching);
        }
      }
    }

    /** The branch of `push_items` where the items do not all fit. */
    method FillAndGoOn(j: nat, free: nat, items: seq<T>,
                       ghost detached: seq<T>, ghost detaching: bool, ghost reattaching: bool)
      returns (last: nat)
      requires WorksOn(j, detached, detaching, reattaching)
      requires chunks[j].content.Items? && |ItemsOf(chunks[j])| + free == capacity && free < |items|
      requires Pushable(Mapper([], detaching, reattaching), detached, items)
      modifies this
      ensures base == old(base)
      ensures Grown(old(chunks), j, items, chunks, last)
      ensures WorksOn(last, StillDetached(Mapper([], detaching, reattaching), detached, items), detaching, reattaching)
      decreases |items|, if free > 0 then 0 else 1, 0
    {
      ghost var m := Mapper([], detaching, reattaching);
      var first, rest := items[..free], items[free..];
      assert first + rest == items;
      DetachedTwice(m, detached, first, rest);
      ghost var left := StillDetached(m, detached, first);
      ghost var start := chunks;
      ExtendGrows(chunks, j, first);
      if free > 0 {
        Extend(j, first, detached, detaching, reattaching);
      } else {
        ExtendByNothing(chunks, j);
      }
      ghost var filled := chunks;
      InsertNext(j, Items([]), left, detaching, reattaching);
      ghost var id := lastId;
      last := PushItems(j + 1, rest, left, detaching, reattaching);
      GrownByRest(start, j, first, filled, id, rest, chunks, last);
    }

    /** Splits chunk `j` at `n`; the items after it wait to be pushed again. */
    method Detach(j: nat, n: nat)
      requires Valid() && j < |chunks| && chunks[j].content.Items? && n <= |chunks[j].content.items|
      modifies this
      ensures base == old(base) && lastId == old(lastId)
      ensures chunks == WithItems(old(chunks), j, ItemsOf(old(chunks)[j])[..n])
      ensures WorksOn(j, ItemsOf(old(chunks)[j])[n..], true, false)
    {
      var items := ItemsOf(chunks[j]);
      DetachTracks(base, updates, chunks, j, n, Mapper(LengthsOf(chunks), false, false));
      DetachLogs(base, updates, chunks, j, n);
      updates := updates + [DetachLastItems(Position(chunks[j].id, n))];
      chunks := WithItems(chunks, j, items[..n]);
      WithItemsWellFormed(old(chunks), j, items[..n], lastId, capacity);
    }

    method StartReattach(ghost j: nat, ghost detached: seq<T>)
      requires WorksOn(j, detached, true, false)
      modifies this
      ensures base == old(base) && lastId == old(lastId) && chunks == old(chunks)
      ensures WorksOn(j, detached, true, true)
    {
      ghost var m := Mapper(LengthsOf(chunks), true, false);
      Silent<T, G>(StartReattachItems, m, Seen(chunks, j, detached));
      TracksOneMore(base, updates, m, Seen(chunks, j, detached), StartReattachItems,
                    m.(reattaching := true), Seen(chunks, j, detached));
      LogsOneMore(base, updates, chunks, StartReattachItems, chunks);
      updates := updates + [StartReattachItems];
    }

    method EndReattach(ghost j: nat)
      requires WorksOn(j, [], true, true)
      modifies this
      ensures base == old(base) && lastId == old(lastId) && chunks == old(chunks)
      ensures Valid()
    {
      ghost var m := Mapper(LengthsOf(chunks), true, true);
      SeenNothingDetached(chunks, j);
      Silent<T, G>(EndReattachItems, m, Flat(chunks));
      TracksOneMore(base, updates, m, Flat(chunks), EndReattachItems,
                    Mapper(LengthsOf(chunks), false, false), Flat(chunks));
      LogsOneMore(base, updates, chunks, EndReattachItems, chunks);
      updates := updates + [EndReattachItems];
    }

    /** `unlink` of a chunk without items. */
    method Unlink(j: nat)
      requires Valid() && j < |chunks| && ItemsOf(chunks[j]) == []
      modifies this
      ensures Valid() && base == old(base) && chunks == Without(old(chunks), j)
    {
      RemoveEmptyFollows(base, updates, chunks, j);
      RemoveChunkLogs(base, updates, chunks, j);
      updates := updates + [RemoveChunk(chunks[j].id)];
      chunks := Without(chunks, j);
      WithoutWellFormed(old(chunks), j, lastId, capacity);
    }

    // ---- The operations ----

    method PushItemsBack(items: seq<T>)
      requires Valid()
      modifies this
      ensures Valid() && base == old(base)
      ensures View(chunks) == View(old(chunks)) + Entries(items)
    {
      EnsureFirst();
      ghost var start, j := chunks, |chunks| - 1;
      assert start[..j + 1] == start && start[j + 1..] == [];
      SeenNothingDetached(chunks, j);
      var last := PushItems(|chunks| - 1, items, [], false, false);
      SeenNothingDetached(chunks, last);
      GrownView(start, j, items, chunks, last);
    }

    method PushGapBack(gap: G)
      requires Valid()
      modifies this
      ensures Valid() && base == old(base)
      ensures View(chunks) == View(old(chunks)) + [Hole(gap)]
    {
      EnsureFirst();
      ghost var start := chunks;
      SeenNothingDetached(chunks, |chunks| - 1);
      InsertNext(|chunks| - 1, Gap(gap), [], false, false);
      SeenNothingDetached(chunks, |start|);
      InsertedLast(start, Chunk(lastId, Gap(gap)));
    }

    /** The checks in front of the operations at a position. */
    method Check(at: Position, use: Use) returns (r: Result<nat>)
      requires Valid()
      modifies this
      ensures Valid() && base == old(base) && chunks == WithFirst(old(chunks))
      ensures r == Resolve(chunks, at, use)
    {
      EnsureFirst();
      var found := FindChunk(at.chunk);
      if found.None? {
        return Err(InvalidChunkIdentifier(at.chunk));
      }
      var k := found.value;
      if chunks[k].content.Gap? {
        return Err(ChunkIsAGap(at.chunk));
      }
      if !Allowed(use, at.index, |chunks[k].content.items|) {
        return Err(InvalidItemIndex(at.index));
      }
      r := Ok(k);
    }

    method InsertItemsAt(at: Position, items: seq<T>) returns (r: Result<()>)
      requires Valid()
      modifies this
      ensures Valid() && base == old(base)
      ensures var cs := WithFirst(old(chunks));
              match Resolve(cs, at, ToInsertItems)
              case Err(e) => r == Err(e) && chunks == cs
              case Ok(k) => r.Ok? && HoldsAt(cs, k, at.index, Entries(items), chunks)
    {
      var found := Check(at, ToInsertItems);
      if found.Err? {
        return Err(found.error);
      }
      InsertItems(found.value, at.index, items);
      r := Ok(());
    }

    method InsertItems(k: nat, n: nat, items: seq<T>)
      requires Valid() && k < |chunks| && chunks[k].content.Items? && n <= |chunks[k].content.items|
      modifies this
      ensures Valid() && base == old(base)
      ensures HoldsAt(old(chunks), k, n, Entries(items), chunks)
    {
      ghost var cs := chunks;
      if n == |chunks[k].content.items| {
        SeenNothingDetached(chunks, k);
        var last := PushItems(k, items, [], false, false);
        SeenNothingDetached(chunks, last);
        PushedHoldsAt(cs, k, items, chunks, last);
      } else {
        InsertInside(k, n, items);
      }
    }

    /** The detaching branch of `insert_items_at`. */
    method InsertInside(k: nat, n: nat, items: seq<T>)
      requires Valid() && k < |chunks| && chunks[k].content.Items? && n < |chunks[k].content.items|
      modifies this
      ensures Valid() && base == old(base)
      ensures HoldsAt(old(chunks), k, n, Entries(items), chunks)
    {
      ghost var cs := chunks;
      var detached := chunks[k].content.items[n..];
      Detach(k, n);
      ghost var cs1 := chunks;
      var last := PushItems(k, items, detached, true, false);
      ghost var cs2, last1 := chunks, last;
      StartReattach(last, detached);
      last := PushItems(last, detached, detached, true, true);
      EndReattach(last);
      GrownTwice(cs1, k, items, cs2, last1, detached, chunks, last);
      SplitView(cs, k, n, items, cs1, chunks, last);
    }

    method RemoveItemAt(at: Position) returns (r: Result<T>)
      requires Valid()
      modifies this
      ensures Valid() && base == old(base)
      ensures var cs := WithFirst(old(chunks));
              match Resolve(cs, at, ToRead)
              case Err(e) => r == Err(e) && chunks == cs
              case Ok(k) =>
                && r == Ok(cs[k].content.items[at.index])
                && LosesAt(cs, k, at.index, r.value, chunks)
                && |chunks| == if k > 0 && |ItemsOf(cs[k])| == 1 then |cs| - 1 else |cs|
    {
      var found := Check(at, ToRead);
      if found.Err? {
        return Err(found.error);
      }
      var removed := RemoveItem(found.value, at.index);
      r := Ok(removed);
    }

    method RemoveItem(k: nat, i: nat) returns (removed: T)
      requires Valid() && k < |chunks| && chunks[k].content.Items? && i < |chunks[k].content.items|
      modifies this
      ensures Valid() && base == old(base) && removed == old(chunks)[k].content.items[i]
      ensures LosesAt(old(chunks), k, i, removed, chunks)
      ensures |chunks| == old(|chunks| - if k > 0 && |ItemsOf(chunks[k])| == 1 then 1 else 0)
    {
      var items := chunks[k].content.items;
      removed := items[i];
      var at, left := Position(chunks[k].id, i), items[..i] + items[i + 1..];
      RemoveItemFollows(base, updates, chunks, k, i);
      RemoveItemLogs(base, updates, chunks, k, i);
      RemovedView(chunks, k, i);
      updates := updates + [Update.RemoveItem(at)];
      chunks := WithItems(chunks, k, left);
      WithItemsWellFormed(old(chunks), k, left, lastId, capacity);
      if left == [] && k > 0 {
        WithoutView(chunks, k);
        Unlink(k);
      }
    }

    method ReplaceItemAt(at: Position, item: T) returns (r: Result<()>)
      requires Valid()
      modifies this
      ensures Valid() && base == old(base)
      ensures var cs := WithFirst(old(chunks));
              match Resolve(cs, at, ToRead)
              case Err(e) => r == Err(e) && chunks == cs
              case Ok(k) => r.Ok? && Place(cs, k, at.index) < |View(cs)|
                            && View(chunks) == View(cs)[Place(cs, k, at.index) := Item(item)]
    {
      var found := Check(at, ToRead);
      if found.Err? {
        return Err(found.error);
      }
      var k := found.value;
      var changed := chunks[k].content.items[at.index := item];
      ReplaceItemFollows(base, updates, chunks, k, at.index, item);
      ReplaceItemLogs(base, updates, chunks, k, at.index, item);
      ReplacedView(chunks, k, at.index, item);
      updates := updates + [ReplaceItem(at, item)];
      WithItemsWellFormed(chunks, k, changed, lastId, capacity);
      chunks := WithItems(chunks, k, changed);
      r := Ok(());
    }

    method InsertGapAt(gap: G, at: Position) returns (r: Result<()>)
      requires Valid()
      modifies this
      ensures Valid() && base == old(base)
      ensures var cs := WithFirst(old(chunks));
              match Resolve(cs, at, ToInsertGap)
              case Err(e) => r == Err(e) && chunks == cs
              case Ok(k) => r.Ok? && HoldsAt(cs, k, at.index, [Hole(gap)], chunks)
    {
      var found := Check(at, ToInsertGap);
      if found.Err? {
        return Err(found.error);
      }
      if at.index == 0 {
        InsertGapBefore(found.value, gap);
      } else {
        InsertGapInside(found.value, at.index, gap);
      }
      r := Ok(());
    }

    /** `insert_before`, with a new identifier. */
    method InsertGapBefore(k: nat, gap: G)
      requires Valid() && k < |chunks| && chunks[k].content.Items?
      modifies this
      ensures Valid() && base == old(base)
      ensures HoldsAt(old(chunks), k, 0, [Hole(gap)], chunks)
    {
      lastId := lastId + 1;
      var c := Chunk(lastId, Gap(gap));
      InsertedInFront(base, updates, chunks, k, c, capacity);
      updates := updates + [Inserted(chunks, k, c)];
      chunks := InsertedAt(chunks, k, c);
    }

    /** The detaching branch of `insert_gap_at`. */
    method InsertGapInside(k: nat, n: nat, gap: G)
      requires Valid() && k < |chunks| && chunks[k].content.Items? && 0 < n < |chunks[k].content.items|
      modifies this
      ensures Valid() && base == old(base)
      ensures HoldsAt(old(chunks), k, n, [Hole(gap)], chunks)
    {
      ghost var cs := chunks;
      var detached := chunks[k].content.items[n..];
      Detach(k, n);
      ghost var cs1 := chunks;
      InsertNext(k, Gap(gap), detached, true, false);
      ghost var cs2, gapId := chunks, lastId;
      StartReattach(k + 1, detached);
      InsertNext(k + 1, Items([]), detached, true, true);
      InsertGrows(cs2, k + 1, lastId);
      ghost var cs3 := chunks;
      var last := PushItems(k + 2, detached, detached, true, true);
      EndReattach(last);
      GrownTwice(cs2, k + 1, [], cs3, k + 2, detached, chunks, last);
      assert [] + detached == detached;
      SplitByGapView(cs, k, n, gapId, gap, cs1, chunks, last);
    }

    method RemoveEmptyChunkAt(id: Id) returns (r: Result<Option<Position>>)
      requires Valid()
      modifies this
      ensures Valid() && base == old(base)
      ensures var cs := WithFirst(old(chunks));
              if |cs| == 1 then r == Err(RemovingLastChunk) && chunks == cs
              else
                match Locate(cs, id)
                case None => r == Err(InvalidChunkIdentifier(id)) && chunks == cs
                case Some(k) =>
                  if ItemsOf(cs[k]) != [] then r == Err(RemovingNonEmptyItemsChunk(id)) && chunks == cs
                  else
                    && chunks == Without(cs, k) && Flat(chunks) == Flat(cs)
                    && r == Ok(if k + 1 < |cs| then Some(Position(cs[k + 1].id, 0)) else None)
    {
      EnsureFirst();
      if |chunks| == 1 {
        return Err(RemovingLastChunk);
      }
      var found := FindChunk(id);
      if found.None? {
        return Err(InvalidChunkIdentifier(id));
      }
      var k := found.value;
      if |ItemsOf(chunks[k])| > 0 {
        return Err(RemovingNonEmptyItemsChunk(id));
      }
      r := Ok(if k + 1 < |chunks| then Some(Position(chunks[k + 1].id, 0)) else None);
      WithoutFlat(chunks, k);
      Unlink(k);
    }

    /** Returns the identifier of the first new chunk. */
    method ReplaceGapAt(items: seq<T>, id: Id) returns (r: Result<Id>)
      requires Valid()
      modifies this
      ensures Valid() && base == old(base)
      ensures var cs := WithFirst(old(chunks));
              match Locate(cs, id)
              case None => r == Err(InvalidChunkIdentifier(id)) && chunks == cs
              case Some(k) =>
                if cs[k].content.Items? then r == Err(ChunkIsItems(id)) && chunks == cs
                else
                  && View(cs) == View(cs[..k]) + [Hole(cs[k].content.gap)] + View(cs[k + 1..])
                  && View(chunks) == View(cs[..k]) + Entries(items) + View(cs[k + 1..])
                  && r.Ok? && k < |chunks| && chunks[k].id == r.value && chunks[k].content.Items?
    {
      EnsureFirst();
      var found := FindChunk(id);
      if found.None? {
        return Err(InvalidChunkIdentifier(id));
      }
      var k := found.value;
      if chunks[k].content.Items? {
        return Err(ChunkIsItems(id));
      }
      ghost var cs := chunks;
      SeenNothingDetached(chunks, k);
      InsertNext(k, Items([]), [], false, false);
      ghost var cs1 := chunks;
      r := Ok(lastId);
      var last := PushItems(k + 1, items, [], false, false);
      SeenNothingDetached(chunks, last);
      ghost var cs2 := chunks;
      GapReplaced(cs, k, r.value, cs1, items, cs2, last);
      Unlink(k);
    }

    method Clear()
      requires Valid()
      modifies this
      ensures Valid() && base == old(base)
      ensures chunks == [] && updates == [Update.Clear] && lastId == FIRST_IDENTIFIER
    {
      ClearTracks(base);
      assert [] + [Update<T, G>.Clear] == [Update.Clear];
      chunks, lastId := [], FIRST_IDENTIFIER;
      updates := [Update.Clear];
    }

    /** What the observer reads: every update since the last time, once. */
    method Take() returns (taken: seq<Update<T, G>>)
      requires Valid()
      modifies this
      ensures Valid() && chunks == old(chunks) && base == chunks && updates == []
      ensures taken == old(updates)
    {
      taken := updates;
      updates := [];
      base := chunks;
      TracksNothing(base);
    }
  }

  /** Between any two updates of a plain push the observer may look: nothing is detached. */
  lemma PlainWorkFollows<T, G>(source: LinkedChunk<T, G>, j: nat)
    requires source.WorksOn(j, [], false, false)
    ensures Follows(source.base, source.updates, source.chunks)
  {
    SeenNothingDetached(source.chunks, j);
  }

  /** `AsVector`: its `list` is what applying all diffs it handed out gives. */
  class AsVector<T, G> {
    const source: LinkedChunk<T, G>
    const mapper: UpdateToVectorDiff<T, G>
    ghost var list: seq<T>

    ghost predicate InStep()
      reads this, source, mapper
    {
      && source.Valid()
      && mapper.chunks == LengthsOf(source.base)
      && list == Flat(source.base)
    }

    constructor (source: LinkedChunk<T, G>)
      requires source.Valid()
      modifies source
      ensures this.source == source && InStep() && fresh(mapper)
      ensures source.chunks == old(source.chunks) || source.chunks == WithFirst(old(source.chunks))
      ensures list == Flat(source.chunks)
    {
      source.EnsureFirst();
      var drained := source.Take();
      var lengths := LengthsOf(source.chunks);
      this.source := source;
      mapper := new UpdateToVectorDiff(lengths);
      list := Flat(source.chunks);
    }

    /** The diffs bring a list that was right the last time to the items of the chunks now. */
    method Take() returns (diffs: seq<VectorDiff<T>>)
      requires InStep()
      modifies this, source, mapper
      ensures InStep() && source.chunks == old(source.chunks)
      ensures ApplicableAll(diffs, old(list)) && list == ApplyAll(diffs, old(list))
      ensures list == Flat(source.chunks)
    {
      var updates := source.Take();
      diffs := mapper.MapUpdates(updates);
      list := ApplyAll(diffs, list);
    }
  }

  // ---- Whole runs ----

  datatype Operation<T, G> =
    | PushBack(items: seq<T>)
    | PushGap(gap: G)
    | InsertAt(at: Position, items: seq<T>)
    | RemoveAt(at: Position)
    | ReplaceAt(at: Position, item: T)
    | GapAt(gap: G, at: Position)
    | RemoveEmpty(id: Id)
    | ReplaceGap(items: seq<T>, id: Id)
    | ClearAll

  method Perform<T, G>(source: LinkedChunk<T, G>, op: Operation<T, G>)
    requires source.Valid()
    modifies source
    ensures source.Valid() && source.base == old(source.base)
  {
    match op
    case PushBack(items) => source.PushItemsBack(items);
    case PushGap(gap) => source.PushGapBack(gap);
    case InsertAt(at, items) => var _ := source.InsertItemsAt(at, items);
    case RemoveAt(at) => var _ := source.RemoveItemAt(at);
    case ReplaceAt(at, item) => var _ := source.ReplaceItemAt(at, item);
    case GapAt(gap, at) => var _ := source.InsertGapAt(gap, at);
    case RemoveEmpty(id) => var _ := source.RemoveEmptyChunkAt(id);
    case ReplaceGap(items, id) => var _ := source.ReplaceGapAt(items, id);
    case ClearAll => source.Clear();
  }

  /** After any operations, successful or not, the diffs turn the observer's list into the items of the chunks. */
  method RunThenTake<T, G>(view: AsVector<T, G>, ops: seq<Operation<T, G>>) returns (diffs: seq<VectorDiff<T>>)
    requires view.InStep()
    modifies view, view.source, view.mapper
    ensures view.InStep()
    ensures ApplicableAll(diffs, old(view.list)) && ApplyAll(diffs, old(view.list)) == Flat(view.source.chunks)
  {
    var i := 0;
    while i < |ops|
      invariant 0 <= i <= |ops|
      invariant view.InStep() && view.list == old(view.list)
    {
      Perform(view.source, ops[i]);
      i := i + 1;
    }
    diffs := view.Take();
  }

  // ---- The order of positions ----

  /** The index of a position in the flat list, computed from the lengths alone. */
  function Order(lengths: Lengths, at: Position): Option<nat> {
    match Find(lengths, at.chunk)
    case None => None
    case Some(k) => if at.index < lengths[k].1 then Some(Offset(lengths, k) + at.index) else None
  }

  /** A position has an order exactly when there is an item at it, and then the order is the item's index. */
  lemma {:induction false} OrderIsIndex<T, G>(cs: seq<Chunk<T, G>>, at: Position)
    requires DistinctIds(cs)
    ensures Order(LengthsOf(cs), at).Some? <==> Resolve(cs, at, ToRead).Ok?
    ensures Resolve(cs, at, ToRead).Ok? ==>
              var order := Order(LengthsOf(cs), at).value;
              order < |Flat(cs)| && Flat(cs)[order] == cs[Resolve(cs, at, ToRead).value].content.items[at.index]
  {
    var lengths := LengthsOf(cs);
    var found := Find(lengths, at.chunk);
    if found.Some? {
      assert lengths[found.value] == LengthOf(cs[found.value]);
    }
    if Locate(cs, at.chunk).Some? {
      var k := Locate(cs, at.chunk).value;
      FindsChunk(cs, k);
      assert lengths[k] == LengthOf(cs[k]);
      OffsetIsLength(cs, k);
      GatherAt(ItemsOf, cs, k);
    }
  }

  lemma {:induction false} OffsetGrows(lengths: Lengths, j: nat, k: nat)
    requires j < k <= |lengths|
    ensures Offset(lengths, j) + lengths[j].1 <= Offset(lengths, k)
    decreases k
  {
    if j + 1 < k {
      OffsetGrows(lengths, j, k - 1);
    }
  }

  /** Orders compare as chunk first, index second: comparing them compares the items' places. */
  lemma {:induction false} OrderIsLexicographic(lengths: Lengths, a: Position, b: Position)
    requires Order(lengths, a).Some? && Order(lengths, b).Some?
    ensures var j, k := Find(lengths, a.chunk).value, Find(lengths, b.chunk).value;
            Order(lengths, a).value < Order(lengths, b).value <==> j < k || (j == k && a.index < b.index)
  {
    var j, k := Find(lengths, a.chunk).value, Find(lengths, b.chunk).value;
    if j < k {
      OffsetGrows(lengths, j, k);
    } else if k < j {
      OffsetGrows(lengths, k, j);
    }
  }

  class OrderTracker<T, G> {
    const source: LinkedChunk<T, G>
    const mapper: UpdateToVectorDiff<T, G>

    ghost predicate InStep()
      reads this, source, mapper
    {
      source.Valid() && mapper.chunks == LengthsOf(source.base)
    }

    constructor (source: LinkedChunk<T, G>)
      requires source.Valid()
      modifies source
      ensures this.source == source && InStep() && fresh(mapper) && source.updates == []
    {
      source.EnsureFirst();
      var drained := source.Take();
      this.source := source;
      mapper := new UpdateToVectorDiff(LengthsOf(source.chunks));
    }

    /** `flush_updates(false)`. */
    method FlushUpdates()
      requires InStep()
      modifies source, mapper
      ensures InStep() && source.chunks == old(source.chunks) && source.updates == []
    {
      var updates := source.Take();
      var ignored := mapper.MapUpdates(updates);
    }

    /** The item at a position is at the returned index of the flat list. */
    method Ordering(at: Position) returns (r: Option<nat>)
      requires InStep() && source.updates == []
      ensures r.Some? <==> Resolve(source.chunks, at, ToRead).Ok?
      ensures r.Some? ==>
                var k := Resolve(source.chunks, at, ToRead).value;
                && r.value < |Flat(source.chunks)|
                && Flat(source.chunks)[r.value] == source.chunks[k].content.items[at.index]
      ensures r == Order(mapper.chunks, at)
    {
      OrderIsIndex(source.chunks, at);
      r := ComputeOrder(at);
    }

    method ComputeOrder(at: Position) returns (r: Option<nat>)
      ensures r == Order(mapper.chunks, at)
    {
      var ordering, i := 0, 0;
      while i < |mapper.chunks|
        invariant 0 <= i <= |mapper.chunks|
        invariant ordering == Offset(mapper.chunks, i)
        invariant forall j :: 0 <= j < i ==> mapper.chunks[j].0 != at.chunk
      {
        if mapper.chunks[i].0 == at.chunk {
          if at.index >= mapper.chunks[i].1 {
            return None;
          }
          return Some(ordering + at.index);
        }
        ordering := ordering + mapper.chunks[i].1;
        i := i + 1;
      }
      r := None;
    }
  }
}
