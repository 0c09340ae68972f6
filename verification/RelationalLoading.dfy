/**
  Reading linked chunks back from the tables: single chunks, the last one, the one
  before another, and from those the whole linked chunk, last chunk first.
 */
module RelationalLoading {
  import opened Sequences
  import opened Chunks
  import opened ChunkSync
  import opened ChunkLog
  import opened Tables
  import opened RelationalStore

  datatype RawChunk<T, G> = RawChunk(content: Content<T, G>, previous: Option<Id>, id: Id, next: Option<Id>)

  // ---- Sorting ----

  predicate Sorted<G>(rows: seq<ItemRow<G>>) {
    forall i, j :: 0 <= i < j < |rows| ==> rows[i].at.index <= rows[j].at.index
  }

  function InsertSorted<G>(row: ItemRow<G>, rows: seq<ItemRow<G>>): (r: seq<ItemRow<G>>)
    ensures multiset(r) == multiset(rows) + multiset{row} && |r| == |rows| + 1
  {
    if rows == [] || row.at.index <= rows[0].at.index then [row] + rows
    else
      assert rows == [rows[0]] + rows[1..];
      [rows[0]] + InsertSorted(row, rows[1..])
  }

  lemma {:induction false} InsertSortedIsSorted<G>(row: ItemRow<G>, rows: seq<ItemRow<G>>)
    requires Sorted(rows)
    ensures Sorted(InsertSorted(row, rows))
  {
    if rows != [] && row.at.index > rows[0].at.index {
      InsertSortedIsSorted(row, rows[1..]);
      var rest := InsertSorted(row, rows[1..]);
      forall i | 0 <= i < |rest| ensures rows[0].at.index <= rest[i].at.index {
        assert rest[i] in multiset(rest);
        assert rest[i] in multiset(rows[1..]) + multiset{row};
      }
    }
  }

  /** `sort_unstable_by_key`: any sorted rearrangement; with distinct indices there is only one. */
  function SortByIndex<G>(rows: seq<ItemRow<G>>): (r: seq<ItemRow<G>>)
    ensures multiset(r) == multiset(rows) && |r| == |rows|
  {
    if rows == [] then []
    else
      assert rows == [rows[0]] + rows[1..];
      InsertSorted(rows[0], SortByIndex(rows[1..]))
  }

  lemma {:induction false} SortByIndexSorts<G>(rows: seq<ItemRow<G>>)
    ensures Sorted(SortByIndex(rows))
  {
    if rows != [] {
      SortByIndexSorts(rows[1..]);
      InsertSortedIsSorted(rows[0], SortByIndex(rows[1..]));
    }
  }

  // ---- Loading one chunk ----

  function Inside<G>(owner: Owner, id: Id): ItemRow<G> -> bool { (r: ItemRow<G>) => InChunk(r, owner, id) }

  /** The contents of item rows; rows without contents are passed over. */
  function ContentsOf<T, G>(s: Store<T, G>, owner: Owner, rows: seq<ItemRow<G>>): seq<T> {
    if rows == [] then []
    else
      var last := rows[|rows| - 1];
      ContentsOf(s, owner, rows[..|rows| - 1])
      + (if last.entry.AnItem? && (owner, last.entry.key) in s.items then [s.items[(owner, last.entry.key)]] else [])
  }

  predicate NoGaps<G>(rows: seq<ItemRow<G>>) { forall i :: 0 <= i < |rows| ==> rows[i].entry.AnItem? }

  /** `load_raw_chunk`; `None` stands for an error. */
  function LoadRaw<T, G>(s: Store<T, G>, owner: Owner, row: ChunkRow): Option<RawChunk<T, G>> {
    var rows := Retain(Inside<G>(owner, row.id), s.itemRows);
    if rows == [] then Some(RawChunk(Items([]), row.previous, row.id, row.next))
    else if rows[0].entry.AnItem? then
      if !NoGaps(rows) then None
      else Some(RawChunk(Items(ContentsOf(s, owner, SortByIndex(rows))), row.previous, row.id, row.next))
    else if |rows| > 1 then None
    else Some(RawChunk(Gap(rows[0].entry.gap), row.previous, row.id, row.next))
  }

  /** Chunk `k` with its links. */
  function Raw<T, G>(cs: seq<Chunk<T, G>>, k: nat): RawChunk<T, G>
    requires k < |cs|
  {
    RawChunk(cs[k].content, PreviousId(cs, k), cs[k].id, NextId(cs, k + 1))
  }

  lemma {:induction false} RetainMembers<R>(keep: R -> bool, rows: seq<R>)
    ensures forall row :: row in Retain(keep, rows) <==> row in rows && keep(row)
  {
    if rows != [] {
      RetainMembers(keep, rows[..|rows| - 1]);
      assert rows == rows[..|rows| - 1] + [rows[|rows| - 1]];
    }
  }

  /** The rows of a chunk: one for each entry, and no others. */
  lemma {:induction false} RowsOfChunk<T, G>(key: T -> ItemId, s: Store<T, G>, owner: Owner, cs: seq<Chunk<T, G>>,
                                             k: nat)
    requires Holds(key, s, owner, cs) && k < |cs|
    ensures var rows := Retain(Inside<G>(owner, cs[k].id), s.itemRows);
            && Unique(ItemKey<G>, rows)
            && (forall row :: row in rows ==>
                  InChunk(row, owner, cs[k].id) && ContentAt(key, cs[k].content, row.at.index) == Some(row.entry))
            && (forall i: nat :: ContentAt(key, cs[k].content, i).Some? ==>
                  ItemRow(owner, Position(cs[k].id, i), ContentAt(key, cs[k].content, i).value) in rows)
  {
    var inside := Inside<G>(owner, cs[k].id);
    var rows := Retain(inside, s.itemRows);
    UniqueRetain(ItemKey<G>, inside, s.itemRows);
    RetainMembers(inside, s.itemRows);
    forall row | row in rows ensures ContentAt(key, cs[k].content, row.at.index) == Some(row.entry) {
      var i :| 0 <= i < |s.itemRows| && s.itemRows[i] == row;
      LookupFinds(ItemKey<G>, s.itemRows, i);
      EntryOfChunk(key, s, owner, cs, k, row.at.index);
      assert row.at == Position(cs[k].id, row.at.index);
    }
    forall i: nat | ContentAt(key, cs[k].content, i).Some?
      ensures ItemRow(owner, Position(cs[k].id, i), ContentAt(key, cs[k].content, i).value) in rows
    {
      EntryOfChunk(key, s, owner, cs, k, i);
      LookupIsThere(ItemKey<G>, s.itemRows, (owner, Position(cs[k].id, i)));
    }
  }

  predicate HasIndex<G>(rows: seq<ItemRow<G>>, m: nat) { exists i :: 0 <= i < |rows| && rows[i].at.index == m }

  /** Rows with the distinct indices 0, 1, …, n - 1, once sorted, are in that order. */
  lemma {:induction false} SortedRanks<G>(rows: seq<ItemRow<G>>, n: nat)
    requires Sorted(rows) && forall i, j :: 0 <= i < j < |rows| ==> rows[i].at.index != rows[j].at.index
    requires forall i :: 0 <= i < |rows| ==> rows[i].at.index < n
    requires forall m: nat :: m < n ==> HasIndex(rows, m)
    ensures |rows| == n && forall j :: 0 <= j < n ==> rows[j].at.index == j
  {
    RanksBelow(rows, n, |rows|);
    assert |rows| < n ==> HasIndex(rows, |rows|);
  }

  lemma {:induction false} RanksBelow<G>(rows: seq<ItemRow<G>>, n: nat, k: nat)
    requires Sorted(rows) && forall i, j :: 0 <= i < j < |rows| ==> rows[i].at.index != rows[j].at.index
    requires forall i :: 0 <= i < |rows| ==> rows[i].at.index < n
    requires forall m: nat :: m < n ==> HasIndex(rows, m)
    requires k <= |rows|
    ensures k <= n && forall j :: 0 <= j < k ==> rows[j].at.index == j
  {
    if k > 0 {
      RanksBelow(rows, n, k - 1);
      assert rows[k - 1].at.index >= k - 1 by {
        if k > 1 {
          assert rows[k - 2].at.index == k - 2 && rows[k - 2].at.index <= rows[k - 1].at.index;
          assert rows[k - 2].at.index != rows[k - 1].at.index;
        }
      }
      assert HasIndex(rows, k - 1);
      var q :| 0 <= q < |rows| && rows[q].at.index == k - 1;
      assert q >= k - 1;
    }
  }

  lemma {:induction false} ContentsAre<T, G>(key: T -> ItemId, s: Store<T, G>, owner: Owner, rows: seq<ItemRow<G>>,
                                             xs: seq<T>)
    requires |rows| == |xs|
    requires forall i :: 0 <= i < |xs| ==> rows[i].entry == AnItem(key(xs[i]))
    requires forall i :: 0 <= i < |xs| ==> (owner, key(xs[i])) in s.items && s.items[(owner, key(xs[i]))] == xs[i]
    ensures ContentsOf(s, owner, rows) == xs
  {
    if rows != [] {
      var n := |rows| - 1;
      ContentsAre(key, s, owner, rows[..n], xs[..n]);
      assert xs == xs[..n] + [xs[n]];
    }
  }

  /** Every stored chunk loads back, contents and links. */
  lemma {:induction false} LoadsChunk<T, G>(key: T -> ItemId, s: Store<T, G>, owner: Owner, cs: seq<Chunk<T, G>>,
                                            k: nat)
    requires Holds(key, s, owner, cs) && k < |cs|
    ensures LoadRaw(s, owner, ChunkRow(owner, PreviousId(cs, k), cs[k].id, NextId(cs, k + 1))) == Some(Raw(cs, k))
  {
    RowsOfChunk(key, s, owner, cs, k);
    if cs[k].content.Gap? {
      LoadsGap(key, s, owner, cs, k);
    } else {
      LoadsItems(key, s, owner, cs, k);
    }
  }

  lemma {:induction false} LoadsGap<T, G>(key: T -> ItemId, s: Store<T, G>, owner: Owner, cs: seq<Chunk<T, G>>, k: nat)
    requires Holds(key, s, owner, cs) && k < |cs| && cs[k].content.Gap?
    ensures var rows := Retain(Inside<G>(owner, cs[k].id), s.itemRows);
            rows == [ItemRow(owner, Position(cs[k].id, 0), AGap(cs[k].content.gap))]
  {
    RowsOfChunk(key, s, owner, cs, k);
    var rows := Retain(Inside<G>(owner, cs[k].id), s.itemRows);
    var row: ItemRow<G> := ItemRow(owner, Position(cs[k].id, 0), AGap(cs[k].content.gap));
    assert ContentAt(key, cs[k].content, 0) == Some(row.entry);
    assert row in rows;
    forall i | 0 <= i < |rows| ensures rows[i] == row {
      assert rows[i] in rows;
    }
    AllTheSame(rows, row);
  }

  lemma {:induction false} AllTheSame<G>(rows: seq<ItemRow<G>>, row: ItemRow<G>)
    requires Unique(ItemKey<G>, rows) && forall i :: 0 <= i < |rows| ==> rows[i] == row
    ensures |rows| <= 1
  {
    assert |rows| > 1 ==> ItemKey<G>(rows[0]) == ItemKey<G>(rows[1]);
  }

  lemma {:induction false} LoadsItems<T, G>(key: T -> ItemId, s: Store<T, G>, owner: Owner, cs: seq<Chunk<T, G>>,
                                            k: nat)
    requires Holds(key, s, owner, cs) && k < |cs| && cs[k].content.Items?
    ensures var rows := Retain(Inside<G>(owner, cs[k].id), s.itemRows);
            && NoGaps(rows)
            && ContentsOf(s, owner, SortByIndex(rows)) == cs[k].content.items
            && (rows == [] <==> cs[k].content.items == [])
  {
    RowsOfChunk(key, s, owner, cs, k);
    var rows, xs := Retain(Inside<G>(owner, cs[k].id), s.itemRows), cs[k].content.items;
    var sorted := SortByIndex(rows);
    SortByIndexSorts(rows);
    SortedRows(key, owner, cs[k].id, rows, sorted, xs);
    forall i | 0 <= i < |rows| ensures rows[i].entry.AnItem? {
      assert rows[i] in rows;
    }
    ContentsThere(key, s, owner, cs, k);
    ContentsAre(key, s, owner, sorted, xs);
  }

  lemma {:induction false} ContentsThere<T, G>(key: T -> ItemId, s: Store<T, G>, owner: Owner, cs: seq<Chunk<T, G>>,
                                               k: nat)
    requires Holds(key, s, owner, cs) && k < |cs| && cs[k].content.Items?
    ensures var xs := cs[k].content.items;
            forall i :: 0 <= i < |xs| ==> (owner, key(xs[i])) in s.items && s.items[(owner, key(xs[i]))] == xs[i]
  {
    var xs := cs[k].content.items;
    forall i | 0 <= i < |xs| ensures (owner, key(xs[i])) in s.items && s.items[(owner, key(xs[i]))] == xs[i] {
      assert xs[i] in ItemsOf(cs[k]);
      ItemInFlat(cs, k, xs[i]);
    }
  }

  lemma {:induction false} SortedRows<T, G>(key: T -> ItemId, owner: Owner, id: Id, rows: seq<ItemRow<G>>,
                                            sorted: seq<ItemRow<G>>, xs: seq<T>)
    requires Unique(ItemKey<G>, rows) && Sorted(sorted) && multiset(sorted) == multiset(rows)
    requires forall row :: row in rows ==>
               InChunk(row, owner, id) && ContentAt<T, G>(key, Items(xs), row.at.index) == Some(row.entry)
    requires forall i: nat :: ContentAt<T, G>(key, Items(xs), i).Some? ==>
                                ItemRow(owner, Position(id, i), ContentAt<T, G>(key, Items(xs), i).value) in rows
    ensures |sorted| == |xs| && forall i :: 0 <= i < |xs| ==> sorted[i].entry == AnItem(key(xs[i]))
  {
    forall row ensures row in sorted <==> row in rows {
      assert row in multiset(sorted) <==> row in multiset(rows);
    }
    SortedDistinct(rows, sorted, owner, id);
    forall i | 0 <= i < |sorted|
      ensures sorted[i].at.index < |xs| && sorted[i].entry == AnItem(key(xs[sorted[i].at.index]))
    {
      assert sorted[i] in sorted;
    }
    forall m: nat | m < |xs| ensures HasIndex(sorted, m) {
      var row: ItemRow<G> := ItemRow(owner, Position(id, m), AnItem(key(xs[m])));
      assert ContentAt<T, G>(key, Items(xs), m) == Some(row.entry);
      assert row in sorted;
    }
    SortedRanks(sorted, |xs|);
  }

  /** Rearranged, the rows of a chunk still have distinct indices. */
  lemma {:induction false} SortedDistinct<G>(rows: seq<ItemRow<G>>, sorted: seq<ItemRow<G>>, owner: Owner, id: Id)
    requires Unique(ItemKey<G>, rows) && multiset(sorted) == multiset(rows)
    requires forall row :: row in rows ==> InChunk(row, owner, id)
    ensures forall i, j :: 0 <= i < j < |sorted| ==> sorted[i].at.index != sorted[j].at.index
  {
    forall i, j | 0 <= i < j < |sorted| ensures sorted[i].at.index != sorted[j].at.index {
      if sorted[i].at.index == sorted[j].at.index {
        assert sorted[i] in multiset(sorted) && sorted[j] in multiset(sorted);
        var p :| 0 <= p < |rows| && rows[p] == sorted[i];
        var q :| 0 <= q < |rows| && rows[q] == sorted[j];
        assert InChunk(rows[p], owner, id) && InChunk(rows[q], owner, id);
        assert rows[p].at == rows[q].at;
        UniqueIndex(ItemKey<G>, rows, p, q);
        OnceEach(rows, p);
        TwiceIn(sorted, i, j);
      }
    }
  }

  lemma {:induction false} OnceEach<G>(rows: seq<ItemRow<G>>, p: nat)
    requires Unique(ItemKey<G>, rows) && p < |rows|
    ensures multiset(rows)[rows[p]] == 1
  {
    assert rows == rows[..p] + [rows[p]] + rows[p + 1..];
    assert rows[p] !in rows[..p] && rows[p] !in rows[p + 1..];
  }

  lemma {:induction false} TwiceIn<X>(s: seq<X>, i: nat, j: nat)
    requires i < j < |s| && s[i] == s[j]
    ensures multiset(s)[s[i]] >= 2
  {
    assert s == s[..i] + [s[i]] + s[i + 1..j] + [s[j]] + s[j + 1..];
  }

  // ---- The last chunk, and the one before another ----

  function NextKey(r: ChunkRow): (Owner, Option<Id>) { (r.owner, r.next) }

  /** The row found by its next chunk is the row of the chunk before. */
  lemma {:induction false} FoundByNext<T, G>(key: T -> ItemId, s: Store<T, G>, owner: Owner, cs: seq<Chunk<T, G>>,
                                             next: Option<Id>)
    requires Holds(key, s, owner, cs)
    ensures var r := Lookup(NextKey, s.chunkRows, (owner, next));
            r.Some? ==> exists k :: 0 <= k < |cs| && NextId(cs, k + 1) == next
                                    && r.value == ChunkRow(owner, PreviousId(cs, k), cs[k].id, next)
  {
    var r := Lookup(NextKey, s.chunkRows, (owner, next));
    if r.Some? {
      LookupIsThere(NextKey, s.chunkRows, (owner, next));
      var i :| 0 <= i < |s.chunkRows| && s.chunkRows[i] == r.value;
      LookupFinds(ChunkKey, s.chunkRows, i);
      assert ChunkKey(r.value) == (owner, r.value.id);
      RowIsLink(s, owner, cs, r.value);
      var k := Locate(cs, r.value.id).value;
      assert NextId(cs, k + 1) == next;
    }
  }

  lemma {:induction false} RowIsLink<T, G>(s: Store<T, G>, owner: Owner, cs: seq<Chunk<T, G>>, row: ChunkRow)
    requires row.owner == owner && Lookup(ChunkKey, s.chunkRows, (owner, row.id)) == Some(row)
    requires Links(s, owner, row.id) == LinkAt(cs, row.id)
    ensures var k := Locate(cs, row.id);
            k.Some? && row == ChunkRow(owner, PreviousId(cs, k.value), cs[k.value].id, NextId(cs, k.value + 1))
  {}

  lemma {:induction false} RowOf<T, G>(key: T -> ItemId, s: Store<T, G>, owner: Owner, cs: seq<Chunk<T, G>>, k: nat)
    requires Holds(key, s, owner, cs) && k < |cs|
    ensures Lookup(NextKey, s.chunkRows, (owner, NextId(cs, k + 1)))
            == Some(ChunkRow(owner, PreviousId(cs, k), cs[k].id, NextId(cs, k + 1)))
  {
    LocateIs(cs, k);
    assert Links(s, owner, cs[k].id) == LinkAt(cs, cs[k].id);
    LookupIsThere(ChunkKey, s.chunkRows, (owner, cs[k].id));
    var i :| 0 <= i < |s.chunkRows| && s.chunkRows[i] == Lookup(ChunkKey, s.chunkRows, (owner, cs[k].id)).value;
    assert NextKey(s.chunkRows[i]) == (owner, NextId(cs, k + 1));
    FoundByNext(key, s, owner, cs, NextId(cs, k + 1));
    var m :| 0 <= m < |cs| && NextId(cs, m + 1) == NextId(cs, k + 1)
             && Lookup(NextKey, s.chunkRows, (owner, NextId(cs, k + 1))).value
                == ChunkRow(owner, PreviousId(cs, m), cs[m].id, NextId(cs, k + 1));
    assert m == k;
  }

  datatype Load<T, G> = Loaded(raw: Option<RawChunk<T, G>>) | Malformed

  function AsLoad<T, G>(raw: Option<RawChunk<T, G>>): Load<T, G> { if raw.None? then Malformed else Loaded(raw) }

  /** The chunk part of `load_last_chunk`. */
  function LoadLast<T, G>(s: Store<T, G>, owner: Owner): Load<T, G> {
    match Lookup(NextKey, s.chunkRows, (owner, None))
    case Some(row) => AsLoad(LoadRaw(s, owner, row))
    case None => if exists i :: 0 <= i < |s.chunkRows| && s.chunkRows[i].owner == owner then Malformed else Loaded(None)
  }

  function LoadPrevious<T, G>(s: Store<T, G>, owner: Owner, before: Id): Load<T, G> {
    match Lookup(NextKey, s.chunkRows, (owner, Some(before)))
    case Some(row) => AsLoad(LoadRaw(s, owner, row))
    case None => Loaded(None)
  }

  /** The last chunk loads, if there is any chunk. */
  lemma {:induction false} LoadsLast<T, G>(key: T -> ItemId, s: Store<T, G>, owner: Owner, cs: seq<Chunk<T, G>>)
    requires Holds(key, s, owner, cs)
    ensures LoadLast(s, owner) == Loaded(if cs == [] then None else Some(Raw(cs, |cs| - 1)))
  {
    if cs == [] {
      FoundByNext(key, s, owner, cs, None);
      forall i | 0 <= i < |s.chunkRows| ensures s.chunkRows[i].owner != owner {
        assert Links(s, owner, s.chunkRows[i].id) == LinkAt(cs, s.chunkRows[i].id);
      }
    } else {
      RowOf(key, s, owner, cs, |cs| - 1);
      LoadsChunk(key, s, owner, cs, |cs| - 1);
    }
  }

  /** Before a chunk loads the one before it, and before the first one nothing. */
  lemma {:induction false} LoadsPrevious<T, G>(key: T -> ItemId, s: Store<T, G>, owner: Owner, cs: seq<Chunk<T, G>>,
                                               k: nat)
    requires Holds(key, s, owner, cs) && k < |cs|
    ensures LoadPrevious(s, owner, cs[k].id) == Loaded(if k == 0 then None else Some(Raw(cs, k - 1)))
  {
    if k == 0 {
      NothingBeforeFirst(key, s, owner, cs);
    } else {
      assert NextId(cs, k) == Some(cs[k].id);
      RowOf(key, s, owner, cs, k - 1);
      var row := ChunkRow(owner, PreviousId(cs, k - 1), cs[k - 1].id, NextId(cs, k));
      assert LoadPrevious(s, owner, cs[k].id) == AsLoad(LoadRaw(s, owner, row));
      LoadsChunk(key, s, owner, cs, k - 1);
    }
  }

  lemma {:induction false} NothingBeforeFirst<T, G>(key: T -> ItemId, s: Store<T, G>, owner: Owner,
                                                    cs: seq<Chunk<T, G>>)
    requires Holds(key, s, owner, cs) && cs != []
    ensures Lookup(NextKey, s.chunkRows, (owner, Some(cs[0].id))) == None
  {
    FoundByNext(key, s, owner, cs, Some(cs[0].id));
    assert forall n :: 0 < n < |cs| ==> cs[n].id != cs[0].id;
  }

  // ---- Loading lazily, last chunk first ----

  datatype LazyError =
    | ChunkTooLarge(id: Id)
    | ChunkIsNotLast(id: Id)
    | Cycle(newChunk: Id, withChunk: Id)
    | MissingNextChunk(id: Id)
    | CannotConnectTwoChunks(newChunk: Id, withChunk: Id)

  datatype LazyResult<T, G> = Connected(chunks: seq<Chunk<T, G>>, lazyPrevious: Option<Id>)
    | NotConnected(error: LazyError)

  function ChunkOf<T, G>(raw: RawChunk<T, G>): Chunk<T, G> { Chunk(raw.id, raw.content) }

  predicate TooLarge<T, G>(capacity: nat, raw: RawChunk<T, G>) { |ItemsOf(ChunkOf(raw))| > capacity }

  /** `from_last_chunk`. */
  function FromLast<T, G>(capacity: nat, raw: RawChunk<T, G>): LazyResult<T, G> {
    if TooLarge(capacity, raw) then NotConnected(ChunkTooLarge(raw.id))
    else if raw.next.Some? then NotConnected(ChunkIsNotLast(raw.id))
    else Connected([ChunkOf(raw)], raw.previous)
  }

  /** `insert_new_first_chunk`. */
  function InsertNewFirst<T, G>(capacity: nat, chunks: seq<Chunk<T, G>>, lazyPrevious: Option<Id>,
                                raw: RawChunk<T, G>): LazyResult<T, G>
    requires chunks != []
  {
    if TooLarge(capacity, raw) then NotConnected(ChunkTooLarge(raw.id))
    else if raw.previous.Some? && Locate(chunks, raw.previous.value).Some? then
      NotConnected(Cycle(raw.id, raw.previous.value))
    else if raw.next.None? then NotConnected(MissingNextChunk(raw.id))
    else if raw.next.value != chunks[0].id then NotConnected(CannotConnectTwoChunks(raw.id, chunks[0].id))
    else if lazyPrevious != Some(raw.id) then NotConnected(CannotConnectTwoChunks(chunks[0].id, raw.id))
    else Connected([ChunkOf(raw)] + chunks, raw.previous)
  }

  /** Chunks from `k` on, the rest still to be loaded. */
  function ConnectedFrom<T, G>(cs: seq<Chunk<T, G>>, k: nat): LazyResult<T, G>
    requires k < |cs|
  {
    Connected(cs[k..], PreviousId(cs, k))
  }

  lemma {:induction false} StartsFromLast<T, G>(capacity: nat, cs: seq<Chunk<T, G>>)
    requires cs != [] && |ItemsOf(cs[|cs| - 1])| <= capacity
    ensures FromLast(capacity, Raw(cs, |cs| - 1)) == ConnectedFrom(cs, |cs| - 1)
  {}

  /** No consistency check of the loader fails on chunks that were stored. */
  lemma {:induction false} GoesOnWithPrevious<T, G>(capacity: nat, cs: seq<Chunk<T, G>>, k: nat)
    requires DistinctIds(cs) && 0 < k < |cs| && |ItemsOf(cs[k - 1])| <= capacity
    ensures InsertNewFirst(capacity, cs[k..], PreviousId(cs, k), Raw(cs, k - 1)) == ConnectedFrom(cs, k - 1)
  {
    assert [cs[k - 1]] + cs[k..] == cs[k - 1..];
    if k > 1 {
      assert Locate(cs[k..], cs[k - 2].id) == None;
    }
  }
}
