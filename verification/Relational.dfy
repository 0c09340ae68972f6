/** Tables: sequences of rows, looked up by a key. */
module Tables {
  import opened Sequences

  /** The first row with a key. */
  function Lookup<R, P(==)>(key: R -> P, rows: seq<R>, p: P): (r: Option<R>)
    ensures r.Some? ==> key(r.value) == p
    ensures r.None? ==> forall i :: 0 <= i < |rows| ==> key(rows[i]) != p
  {
    if rows == [] then None
    else if key(rows[0]) == p then Some(rows[0])
    else Lookup(key, rows[1..], p)
  }

  predicate Unique<R, P(==)>(key: R -> P, rows: seq<R>) {
    forall i, j :: 0 <= i < j < |rows| ==> key(rows[i]) != key(rows[j])
  }

  lemma {:induction false} UniqueIndex<R, P>(key: R -> P, rows: seq<R>, i: nat, j: nat)
    requires Unique(key, rows) && i < |rows| && j < |rows| && key(rows[i]) == key(rows[j])
    ensures i == j
  {}

  lemma {:induction false} LookupFinds<R, P>(key: R -> P, rows: seq<R>, i: nat)
    requires Unique(key, rows) && i < |rows|
    ensures Lookup(key, rows, key(rows[i])) == Some(rows[i])
  {
    if i > 0 {
      LookupFinds(key, rows[1..], i - 1);
    }
  }

  // ---- Adding a row ----

  lemma {:induction false} LookupSnoc<R, P>(key: R -> P, rows: seq<R>, row: R, p: P)
    ensures Lookup(key, rows + [row], p)
            == if Lookup(key, rows, p).Some? then Lookup(key, rows, p) else if key(row) == p then Some(row) else None
  {
    if rows == [] {
      assert rows + [row] == [row];
      assert [row][1..] == [];
    } else {
      assert (rows + [row])[1..] == rows[1..] + [row];
      LookupSnoc(key, rows[1..], row, p);
    }
  }

  lemma {:induction false} UniqueSnoc<R, P>(key: R -> P, rows: seq<R>, row: R)
    requires Unique(key, rows) && Lookup(key, rows, key(row)) == None
    ensures Unique(key, rows + [row])
  {}

  // ---- Removing rows ----

  /** `Vec::retain`. */
  function Retain<R>(keep: R -> bool, rows: seq<R>): seq<R> {
    if rows == [] then []
    else Retain(keep, rows[..|rows| - 1]) + (if keep(rows[|rows| - 1]) then [rows[|rows| - 1]] else [])
  }

  lemma {:induction false} RetainSnoc<R>(keep: R -> bool, rows: seq<R>, row: R)
    ensures Retain(keep, rows + [row]) == Retain(keep, rows) + (if keep(row) then [row] else [])
  {
    assert (rows + [row])[..|rows|] == rows;
  }

  /** Where the rows to keep can be told by their keys, those keys keep their rows. */
  lemma {:induction false} LookupRetain<R, P>(key: R -> P, keep: R -> bool, keepKey: P -> bool, rows: seq<R>, p: P)
    requires forall i :: 0 <= i < |rows| ==> (keep(rows[i]) <==> keepKey(key(rows[i])))
    ensures Lookup(key, Retain(keep, rows), p) == if keepKey(p) then Lookup(key, rows, p) else None
  {
    if rows != [] {
      var shorter, last := rows[..|rows| - 1], rows[|rows| - 1];
      assert rows == shorter + [last];
      LookupRetain(key, keep, keepKey, shorter, p);
      LookupSnoc(key, shorter, last, p);
      if keep(last) {
        LookupSnoc(key, Retain(keep, shorter), last, p);
      } else {
        assert Retain(keep, shorter) + [] == Retain(keep, shorter);
      }
    }
  }

  lemma {:induction false} UniqueRetain<R, P>(key: R -> P, keep: R -> bool, rows: seq<R>)
    requires Unique(key, rows)
    ensures Unique(key, Retain(keep, rows))
    ensures forall row :: row in Retain(keep, rows) ==> row in rows && keep(row)
    ensures |Retain(keep, rows)| <= |rows|
  {
    if rows != [] {
      var shorter, last := rows[..|rows| - 1], rows[|rows| - 1];
      assert rows == shorter + [last];
      UniqueRetain(key, keep, shorter);
      var kept := Retain(keep, shorter);
      forall i | 0 <= i < |kept| ensures key(kept[i]) != key(last) {
        assert kept[i] in shorter;
      }
    }
  }

  /** `i` is the index of the first row with a key. */
  predicate FirstAt<R, P(==)>(key: R -> P, rows: seq<R>, p: P, i: nat) {
    i < |rows| && key(rows[i]) == p && forall j :: 0 <= j < i ==> key(rows[j]) != p
  }

  lemma {:induction false} FirstAtIs<R, P>(key: R -> P, rows: seq<R>, p: P, f: R -> R, i: nat)
    requires FirstAt(key, rows, p, i)
    ensures Lookup(key, rows, p) == Some(rows[i])
    ensures SetAt(key, rows, p, f) == rows[i := f(rows[i])]
    ensures DropFirst(key, rows, p) == rows[..i] + rows[i + 1..]
  {
    if i > 0 {
      assert key(rows[0]) != p;
      FirstAtIs(key, rows[1..], p, f, i - 1);
      assert [rows[0]] + rows[1..][i - 1 := f(rows[i])] == rows[i := f(rows[i])];
      assert [rows[0]] + (rows[1..][..i - 1] + rows[1..][i..]) == rows[..i] + rows[i + 1..];
    }
  }

  /** `Vec::remove` of the last row with a key, if there is one. */
  function DropLast<R, P(==)>(key: R -> P, rows: seq<R>, p: P): seq<R> {
    if rows == [] then []
    else if key(rows[|rows| - 1]) == p then rows[..|rows| - 1]
    else DropLast(key, rows[..|rows| - 1], p) + [rows[|rows| - 1]]
  }

  lemma {:induction false} DropLastIs<R, P>(key: R -> P, rows: seq<R>, p: P, i: nat)
    requires i < |rows| && key(rows[i]) == p && forall j :: i < j < |rows| ==> key(rows[j]) != p
    ensures DropLast(key, rows, p) == rows[..i] + rows[i + 1..]
  {
    var n := |rows| - 1;
    if i < n {
      assert key(rows[n]) != p;
      DropLastIs(key, rows[..n], p, i);
      assert rows[..n][..i] + rows[..n][i + 1..] + [rows[n]] == rows[..i] + rows[i + 1..];
    }
  }

  lemma {:induction false} OnlyOneToDrop<R, P>(key: R -> P, rows: seq<R>, p: P)
    requires Unique(key, rows) && Lookup(key, rows, p).Some?
    ensures DropLast(key, rows, p) == DropFirst(key, rows, p)
  {
    LookupIsThere(key, rows, p);
    var i :| 0 <= i < |rows| && rows[i] == Lookup(key, rows, p).value;
    DropLastIs(key, rows, p, i);
    FirstAtIs(key, rows, p, (r: R) => r, i);
  }

  /** `Vec::remove` of the first row with a key. */
  function DropFirst<R, P(==)>(key: R -> P, rows: seq<R>, p: P): seq<R> {
    if rows == [] then []
    else if key(rows[0]) == p then rows[1..]
    else [rows[0]] + DropFirst(key, rows[1..], p)
  }

  lemma {:induction false} LookupDropFirst<R, P>(key: R -> P, rows: seq<R>, p: P, q: P)
    requires Unique(key, rows)
    ensures Lookup(key, DropFirst(key, rows, p), q) == if q == p then None else Lookup(key, rows, q)
  {
    if rows != [] {
      if key(rows[0]) == p {
        if Lookup(key, rows[1..], p).Some? {
          LookupIsThere(key, rows[1..], p);
        }
      } else {
        LookupDropFirst(key, rows[1..], p, q);
        assert DropFirst(key, rows, p)[1..] == DropFirst(key, rows[1..], p);
      }
    }
  }

  lemma {:induction false} LookupIsThere<R, P>(key: R -> P, rows: seq<R>, p: P)
    requires Lookup(key, rows, p).Some?
    ensures exists i :: 0 <= i < |rows| && rows[i] == Lookup(key, rows, p).value
  {
    if key(rows[0]) != p {
      LookupIsThere(key, rows[1..], p);
      var i :| 0 <= i < |rows[1..]| && rows[1..][i] == Lookup(key, rows, p).value;
      assert rows[i + 1] == rows[1..][i];
    }
  }

  lemma {:induction false} UniqueDropFirst<R, P>(key: R -> P, rows: seq<R>, p: P)
    requires Unique(key, rows)
    ensures Unique(key, DropFirst(key, rows, p))
    ensures forall i :: 0 <= i < |DropFirst(key, rows, p)| ==> DropFirst(key, rows, p)[i] in rows
  {
    if rows != [] && key(rows[0]) != p {
      UniqueDropFirst(key, rows[1..], p);
      var rest := DropFirst(key, rows[1..], p);
      forall i | 0 <= i < |rest| ensures key(rest[i]) != key(rows[0]) && rest[i] in rows {
        assert rest[i] in rows[1..];
      }
    }
  }

  // ---- Changing a row ----

  /** Changes the first row with a key. */
  function SetAt<R, P(==)>(key: R -> P, rows: seq<R>, p: P, f: R -> R): (r: seq<R>)
    ensures |r| == |rows|
  {
    if rows == [] then []
    else if key(rows[0]) == p then [f(rows[0])] + rows[1..]
    else [rows[0]] + SetAt(key, rows[1..], p, f)
  }

  lemma {:induction false} LookupSetAt<R, P>(key: R -> P, rows: seq<R>, p: P, f: R -> R, q: P)
    requires Lookup(key, rows, p).Some? ==> key(f(Lookup(key, rows, p).value)) == p
    ensures Lookup(key, SetAt(key, rows, p, f), q)
            == if q == p && Lookup(key, rows, p).Some? then Some(f(Lookup(key, rows, p).value))
                  else Lookup(key, rows, q)
  {
    if rows != [] {
      if key(rows[0]) == p {
        assert SetAt(key, rows, p, f)[1..] == rows[1..];
      } else {
        LookupSetAt(key, rows[1..], p, f, q);
        assert SetAt(key, rows, p, f)[1..] == SetAt(key, rows[1..], p, f);
      }
    }
  }

  lemma {:induction false} SetAtIsSameIff<R, P>(key: R -> P, rows: seq<R>, p: P, f: R -> R)
    requires Lookup(key, rows, p).Some?
    ensures SetAt(key, rows, p, f) == rows <==> f(Lookup(key, rows, p).value) == Lookup(key, rows, p).value
  {
    var rows' := SetAt(key, rows, p, f);
    if key(rows[0]) == p {
      assert rows' == rows <==> rows'[0] == rows[0];
    } else {
      SetAtIsSameIff(key, rows[1..], p, f);
      assert rows'[1..] == SetAt(key, rows[1..], p, f);
      assert rows == [rows[0]] + rows[1..];
    }
  }

  /** Keys stay where they are. */
  lemma {:induction false} SetAtKeys<R, P>(key: R -> P, rows: seq<R>, p: P, f: R -> R)
    requires Lookup(key, rows, p).Some? ==> key(f(Lookup(key, rows, p).value)) == p
    ensures forall i :: 0 <= i < |rows| ==> key(SetAt(key, rows, p, f)[i]) == key(rows[i])
    ensures Unique(key, rows) ==> Unique(key, SetAt(key, rows, p, f))
  {
    if rows != [] && key(rows[0]) != p {
      SetAtKeys(key, rows[1..], p, f);
    }
  }
}

/**
  `RelationalLinkedChunk`: the linked chunks of a memory store, as tables. It is
  only ever written by applying the updates of linked chunks.
 */
module RelationalStore {
  import opened Sequences
  import opened Chunks
  import opened ChunkSync
  import opened ChunkLog
  import opened Tables

  /** A `LinkedChunkId`: several linked chunks share the tables. */
  type Owner = nat

  /** An event ID. */
  type ItemId = string

  datatype ChunkRow = ChunkRow(owner: Owner, previous: Option<Id>, id: Id, next: Option<Id>)

  datatype Entry<G> = AnItem(key: ItemId) | AGap(gap: G)

  datatype ItemRow<G> = ItemRow(owner: Owner, at: Position, entry: Entry<G>)

  /** `items` has the contents of the items, by identifier; it outlives the rows. */
  datatype Store<T, G> = Store(chunkRows: seq<ChunkRow>, itemRows: seq<ItemRow<G>>, items: map<(Owner, ItemId), T>)

  datatype Error = InvalidChunkIdentifier(id: Id) | DuplicateChunkIdentifier(id: Id)

  datatype Outcome<S> = Done(store: S) | Refused(store: S, error: Error) | Panicked

  function ChunkKey(r: ChunkRow): (Owner, Id) { (r.owner, r.id) }

  function ItemKey<G>(r: ItemRow<G>): (Owner, Position) { (r.owner, r.at) }

  // ---- What each update does to the tables ----

  function NextSet(next: Option<Id>): ChunkRow -> ChunkRow { (r: ChunkRow) => r.(next := next) }

  function PreviousSet(previous: Option<Id>): ChunkRow -> ChunkRow { (r: ChunkRow) => r.(previous := previous) }

  predicate Known(rows: seq<ChunkRow>, owner: Owner, id: Option<Id>) {
    id.Some? ==> Lookup(ChunkKey, rows, (owner, id.value)).Some?
  }

  /** Lets the row of `id`, if there is an `id`, point to `target` as its next chunk. */
  function LinkNext(rows: seq<ChunkRow>, owner: Owner, id: Option<Id>, target: Option<Id>): seq<ChunkRow> {
    if id.None? then rows else SetAt(ChunkKey, rows, (owner, id.value), NextSet(target))
  }

  function LinkPrevious(rows: seq<ChunkRow>, owner: Owner, id: Option<Id>, target: Option<Id>): seq<ChunkRow> {
    if id.None? then rows else SetAt(ChunkKey, rows, (owner, id.value), PreviousSet(target))
  }

  /** `insert_chunk`. */
  function InsertRow(rows: seq<ChunkRow>, owner: Owner, previous: Option<Id>, id: Id, next: Option<Id>)
    : Outcome<seq<ChunkRow>>
  {
    if Lookup(ChunkKey, rows, (owner, id)).Some? then Refused(rows, DuplicateChunkIdentifier(id))
    else if !Known(rows, owner, previous) then Refused(rows, InvalidChunkIdentifier(previous.value))
    else
      var linked := LinkNext(rows, owner, previous, Some(id));
      if !Known(linked, owner, next) then Refused(linked, InvalidChunkIdentifier(next.value))
      else Done(LinkPrevious(linked, owner, next, Some(id)) + [ChunkRow(owner, previous, id, next)])
  }

  /** `remove_chunk`. */
  function RemoveRow(rows: seq<ChunkRow>, owner: Owner, id: Id): Outcome<seq<ChunkRow>> {
    match Lookup(ChunkKey, rows, (owner, id))
    case None => Panicked
    case Some(row) =>
      var rest := DropFirst(ChunkKey, rows, (owner, id));
      if !Known(rest, owner, row.previous) then Panicked
      else
        var linked := LinkNext(rest, owner, row.previous, row.next);
        if !Known(linked, owner, row.next) then Panicked
        else Done(LinkPrevious(linked, owner, row.next, row.previous))
  }

  predicate InChunk<G>(r: ItemRow<G>, owner: Owner, id: Id) { r.owner == owner && r.at.chunk == id }

  function OutsideChunk<G>(owner: Owner, id: Id): ItemRow<G> -> bool {
    (r: ItemRow<G>) => !InChunk(r, owner, id)
  }

  function BeforeEnd<G>(owner: Owner, end: Position): ItemRow<G> -> bool {
    (r: ItemRow<G>) => !(InChunk(r, owner, end.chunk) && r.at.index >= end.index)
  }

  /** The rows after a removed one move up. */
  function MovedUp<G>(owner: Owner, at: Position): ItemRow<G> -> ItemRow<G> {
    (r: ItemRow<G>) =>
      if InChunk(r, owner, at.chunk) && r.at.index > at.index then r.(at := Position(r.at.chunk, r.at.index - 1)) else r
  }

  /** The rows without one of a chunk, as the loop leaves them. */
  function RowsWithout<G>(rows: seq<ItemRow<G>>, owner: Owner, at: Position): seq<ItemRow<G>> {
    Map(MovedUp<G>(owner, at), DropLast(ItemKey<G>, rows, (owner, at)))
  }

  function PushOne<T, G>(key: T -> ItemId, s: Store<T, G>, owner: Owner, at: Position, item: T): Store<T, G> {
    s.(itemRows := s.itemRows + [ItemRow(owner, at, AnItem(key(item)))], items := s.items[(owner, key(item)) := item])
  }

  /** The loop over the pushed items. */
  function PushAll<T, G>(key: T -> ItemId, s: Store<T, G>, owner: Owner, at: Position, items: seq<T>): Store<T, G> {
    if items == [] then s
    else
      var n := |items| - 1;
      PushOne(key, PushAll(key, s, owner, at, items[..n]), owner, Position(at.chunk, at.index + n), items[n])
  }

  function PlaceOf<G>(r: ItemRow<G>): Position { r.at }

  function EntrySet<G>(entry: Entry<G>): ItemRow<G> -> ItemRow<G> {
    (r: ItemRow<G>) => r.(entry := entry)
  }

  function ApplyUpdate<T, G>(key: T -> ItemId, s: Store<T, G>, owner: Owner, u: Update<T, G>): Outcome<Store<T, G>> {
    match u
    case NewItemsChunk(previous, id, next) =>
      (match InsertRow(s.chunkRows, owner, previous, id, next)
       case Done(rows) => Done(s.(chunkRows := rows))
       case Refused(rows, e) => Refused(s.(chunkRows := rows), e)
       case Panicked => Panicked)
    case NewGapChunk(previous, id, next, gap) =>
      (match InsertRow(s.chunkRows, owner, previous, id, next)
       case Done(rows) =>
         Done(s.(chunkRows := rows, itemRows := s.itemRows + [ItemRow(owner, Position(id, 0), AGap(gap))]))
       case Refused(rows, e) => Refused(s.(chunkRows := rows), e)
       case Panicked => Panicked)
    case RemoveChunk(id) =>
      (match RemoveRow(s.chunkRows, owner, id)
       case Done(rows) => Done(s.(chunkRows := rows, itemRows := Retain(OutsideChunk(owner, id), s.itemRows)))
       case _ => Panicked)
    case PushItems(at, items) => Done(PushAll(key, s, owner, at, items))
    case ReplaceItem(at, item) =>
      // The row is looked up by its position alone.
      var found := Lookup(PlaceOf, s.itemRows, at);
      if found.None? || found.value.entry.AGap? then Panicked
      else
        Done(s.(itemRows := SetAt(PlaceOf, s.itemRows, at, EntrySet(AnItem(key(item)))),
                items := s.items[(owner, key(item)) := item]))
    case RemoveItem(at) =>
      if Lookup(ItemKey, s.itemRows, (owner, at)).None? then Panicked
      else Done(s.(itemRows := RowsWithout(s.itemRows, owner, at)))
    case DetachLastItems(at) => Done(s.(itemRows := Retain(BeforeEnd(owner, at), s.itemRows)))
    case StartReattachItems => Done(s)
    case EndReattachItems => Done(s)
    case Clear =>
      Done(s.(chunkRows := Retain((r: ChunkRow) => r.owner != owner, s.chunkRows),
              itemRows := Retain((r: ItemRow<G>) => r.owner != owner, s.itemRows)))
  }

  // ---- What the tables say about a linked chunk ----

  function Links<T, G>(s: Store<T, G>, owner: Owner, id: Id): Option<(Option<Id>, Option<Id>)> {
    match Lookup(ChunkKey, s.chunkRows, (owner, id))
    case None => None
    case Some(r) => Some((r.previous, r.next))
  }

  function EntryIn<T, G>(s: Store<T, G>, owner: Owner, at: Position): Option<Entry<G>> {
    match Lookup(ItemKey, s.itemRows, (owner, at))
    case None => None
    case Some(r) => Some(r.entry)
  }

  // ---- What the chunks themselves say ----

  function LinkAt<T, G>(cs: seq<Chunk<T, G>>, id: Id): Option<(Option<Id>, Option<Id>)> {
    match Locate(cs, id)
    case None => None
    case Some(k) => Some((PreviousId(cs, k), NextId(cs, k + 1)))
  }

  function ContentAt<T, G>(key: T -> ItemId, c: Content<T, G>, i: nat): Option<Entry<G>> {
    match c
    case Gap(g) => if i == 0 then Some(AGap(g)) else None
    case Items(xs) => if i < |xs| then Some(AnItem(key(xs[i]))) else None
  }

  function EntryAt<T, G>(key: T -> ItemId, cs: seq<Chunk<T, G>>, at: Position): Option<Entry<G>> {
    match Locate(cs, at.chunk)
    case None => None
    case Some(k) => ContentAt(key, cs[k].content, at.index)
  }

  /** The tables hold exactly the chunks `cs` for `owner`. */
  ghost predicate Holds<T, G>(key: T -> ItemId, s: Store<T, G>, owner: Owner, cs: seq<Chunk<T, G>>) {
    && Unique(ChunkKey, s.chunkRows) && Unique(ItemKey, s.itemRows) && DistinctIds(cs)
    && (forall id :: Links(s, owner, id) == LinkAt(cs, id))
    && (forall at :: EntryIn(s, owner, at) == EntryAt(key, cs, at))
    && (forall x :: x in Flat(cs) ==> (owner, key(x)) in s.items && s.items[(owner, key(x))] == x)
  }

  /** Items with the same identifier are the same. */
  ghost predicate KeysAgree<T>(key: T -> ItemId, items: seq<T>) {
    forall x, y :: x in items && y in items && key(x) == key(y) ==> x == y
  }

  // ---- Chunk lists ----

  lemma {:induction false} LocateUnchanged<T, G>(cs: seq<Chunk<T, G>>, cs': seq<Chunk<T, G>>, id: Id)
    requires |cs| == |cs'| && forall i :: 0 <= i < |cs| ==> cs[i].id == cs'[i].id
    ensures Locate(cs, id) == Locate(cs', id)
  {
    if cs != [] {
      LocateUnchanged(cs[..|cs| - 1], cs'[..|cs| - 1], id);
    }
  }

  lemma {:induction false} LocateInserted<T, G>(cs: seq<Chunk<T, G>>, k: nat, c: Chunk<T, G>, id: Id)
    requires DistinctIds(cs) && k <= |cs| && Locate(cs, c.id) == None
    ensures DistinctIds(InsertedAt(cs, k, c))
    ensures Locate(InsertedAt(cs, k, c), id)
            == if id == c.id then Some(k)
               else match Locate(cs, id) case None => None case Some(i) => Some(if i < k then i else i + 1)
  {
    var cs' := InsertedAt(cs, k, c);
    InsertedDistinct(cs, k, c);
    if id == c.id {
      LocateIs(cs', k);
    } else if Locate(cs, id).Some? {
      var i := Locate(cs, id).value;
      LocateIs(cs', if i < k then i else i + 1);
    } else {
      LocateNone(cs', id);
    }
  }

  lemma {:induction false} InsertedDistinct<T, G>(cs: seq<Chunk<T, G>>, k: nat, c: Chunk<T, G>)
    requires DistinctIds(cs) && k <= |cs| && Locate(cs, c.id) == None
    ensures var cs' := InsertedAt(cs, k, c);
            && DistinctIds(cs')
            && forall i :: 0 <= i < |cs'| ==> cs'[i] == if i < k then cs[i] else if i == k then c else cs[i - 1]
  {}

  lemma {:induction false} LocateNone<T, G>(cs: seq<Chunk<T, G>>, id: Id)
    requires forall i :: 0 <= i < |cs| ==> cs[i].id != id
    ensures Locate(cs, id) == None
  {}

  /** Inserting a chunk relinks its neighbours and nothing else. */
  lemma {:induction false} LinkInserted<T, G>(cs: seq<Chunk<T, G>>, k: nat, c: Chunk<T, G>, id: Id)
    requires DistinctIds(cs) && k <= |cs| && Locate(cs, c.id) == None
    ensures LinkAt(InsertedAt(cs, k, c), id)
            == if id == c.id then Some((PreviousId(cs, k), NextId(cs, k)))
               else match LinkAt(cs, id)
                    case None => None
                    case Some(l) => Some((if NextId(cs, k) == Some(id) then Some(c.id) else l.0,
                                          if PreviousId(cs, k) == Some(id) then Some(c.id) else l.1))
  {
    LocateInserted(cs, k, c, id);
    if id == c.id {
      assert NextId(InsertedAt(cs, k, c), k + 1) == NextId(cs, k);
    } else if Locate(cs, id).Some? {
      NeighboursInserted(cs, k, c, Locate(cs, id).value);
    }
  }

  lemma {:induction false} NeighboursInserted<T, G>(cs: seq<Chunk<T, G>>, k: nat, c: Chunk<T, G>, i: nat)
    requires DistinctIds(cs) && k <= |cs| && i < |cs|
    ensures var cs', j := InsertedAt(cs, k, c), if i < k then i else i + 1;
            && PreviousId(cs', j) == (if NextId(cs, k) == Some(cs[i].id) then Some(c.id) else PreviousId(cs, i))
            && NextId(cs', j + 1) == (if PreviousId(cs, k) == Some(cs[i].id) then Some(c.id) else NextId(cs, i + 1))
  {
    assert NextId(cs, k) == Some(cs[i].id) <==> k == i;
    assert PreviousId(cs, k) == Some(cs[i].id) <==> k == i + 1;
  }

  lemma {:induction false} LocateWithout<T, G>(cs: seq<Chunk<T, G>>, j: nat, id: Id)
    requires DistinctIds(cs) && j < |cs|
    ensures DistinctIds(Without(cs, j))
    ensures Locate(Without(cs, j), id)
            == if id == cs[j].id then None
               else match Locate(cs, id) case None => None case Some(i) => Some(if i < j then i else i - 1)
  {
    var cs' := Without(cs, j);
    assert forall i :: 0 <= i < |cs'| ==> cs'[i] == if i < j then cs[i] else cs[i + 1];
    if id != cs[j].id && Locate(cs, id).Some? {
      var i := Locate(cs, id).value;
      LocateIs(cs', if i < j then i else i - 1);
    }
  }

  /** Removing a chunk links its neighbours to each other and nothing else. */
  lemma {:induction false} LinkWithout<T, G>(cs: seq<Chunk<T, G>>, j: nat, id: Id)
    requires DistinctIds(cs) && j < |cs|
    ensures LinkAt(Without(cs, j), id)
            == if id == cs[j].id then None
               else match LinkAt(cs, id)
                    case None => None
                    case Some(l) => Some((if NextId(cs, j + 1) == Some(id) then PreviousId(cs, j) else l.0,
                                          if PreviousId(cs, j) == Some(id) then NextId(cs, j + 1) else l.1))
  {
    var cs' := Without(cs, j);
    LocateWithout(cs, j, id);
    assert forall i :: 0 <= i < |cs'| ==> cs'[i] == if i < j then cs[i] else cs[i + 1];
  }

  lemma {:induction false} EntryInserted<T, G>(key: T -> ItemId, cs: seq<Chunk<T, G>>, k: nat, c: Chunk<T, G>,
                                               at: Position)
    requires DistinctIds(cs) && k <= |cs| && Locate(cs, c.id) == None
    ensures EntryAt(key, InsertedAt(cs, k, c), at)
            == if at.chunk == c.id then ContentAt(key, c.content, at.index) else EntryAt(key, cs, at)
  {
    var cs' := InsertedAt(cs, k, c);
    LocateInserted(cs, k, c, at.chunk);
    assert forall i :: 0 <= i < |cs'| ==> cs'[i] == if i < k then cs[i] else if i == k then c else cs[i - 1];
  }

  lemma {:induction false} EntryWithout<T, G>(key: T -> ItemId, cs: seq<Chunk<T, G>>, j: nat, at: Position)
    requires DistinctIds(cs) && j < |cs|
    ensures EntryAt(key, Without(cs, j), at) == if at.chunk == cs[j].id then None else EntryAt(key, cs, at)
  {
    var cs' := Without(cs, j);
    LocateWithout(cs, j, at.chunk);
    assert forall i :: 0 <= i < |cs'| ==> cs'[i] == if i < j then cs[i] else cs[i + 1];
  }

  /** Other items in a chunk leave all links, and the entries of all other chunks. */
  lemma {:induction false} WithItemsSays<T, G>(key: T -> ItemId, cs: seq<Chunk<T, G>>, j: nat, items: seq<T>)
    requires DistinctIds(cs) && j < |cs|
    ensures DistinctIds(WithItems(cs, j, items))
    ensures forall id :: LinkAt(WithItems(cs, j, items), id) == LinkAt(cs, id)
    ensures forall at :: EntryAt(key, WithItems(cs, j, items), at)
                         == if at.chunk == cs[j].id then ContentAt<T, G>(key, Items(items), at.index)
                            else EntryAt(key, cs, at)
  {
    var cs' := WithItems(cs, j, items);
    forall id ensures LinkAt(cs', id) == LinkAt(cs, id) {
      LocateUnchanged(cs, cs', id);
    }
    forall at: Position
      ensures EntryAt(key, cs', at)
              == if at.chunk == cs[j].id then ContentAt<T, G>(key, Items(items), at.index) else EntryAt(key, cs, at)
    {
      LocateUnchanged(cs, cs', at.chunk);
      LocateIs(cs, j);
    }
  }

  // ---- Chunk rows ----

  lemma {:induction false} LinkNextLookup(rows: seq<ChunkRow>, owner: Owner, id: Option<Id>, target: Option<Id>)
    ensures Unique(ChunkKey, rows) ==> Unique(ChunkKey, LinkNext(rows, owner, id, target))
    ensures forall q :: Lookup(ChunkKey, LinkNext(rows, owner, id, target), q)
                        == var r := Lookup(ChunkKey, rows, q);
                           if r.Some? && id.Some? && q == (owner, id.value) then Some(r.value.(next := target)) else r
  {
    if id.Some? {
      SetAtKeys(ChunkKey, rows, (owner, id.value), NextSet(target));
      forall q: (Owner, Id) {
        LookupSetAt(ChunkKey, rows, (owner, id.value), NextSet(target), q);
      }
    }
  }

  lemma {:induction false} LinkPreviousLookup(rows: seq<ChunkRow>, owner: Owner, id: Option<Id>, target: Option<Id>)
    ensures Unique(ChunkKey, rows) ==> Unique(ChunkKey, LinkPrevious(rows, owner, id, target))
    ensures forall q :: Lookup(ChunkKey, LinkPrevious(rows, owner, id, target), q)
                        == var r := Lookup(ChunkKey, rows, q);
                           if r.Some? && id.Some? && q == (owner, id.value)
                              then Some(r.value.(previous := target)) else r
  {
    if id.Some? {
      SetAtKeys(ChunkKey, rows, (owner, id.value), PreviousSet(target));
      forall q: (Owner, Id) {
        LookupSetAt(ChunkKey, rows, (owner, id.value), PreviousSet(target), q);
      }
    }
  }

  /** What an accepted insertion leaves in the table. */
  lemma {:induction false} InsertRowLookup(rows: seq<ChunkRow>, owner: Owner, previous: Option<Id>, id: Id,
                                           next: Option<Id>)
    requires Unique(ChunkKey, rows) && Lookup(ChunkKey, rows, (owner, id)) == None
    requires Known(rows, owner, previous) && Known(rows, owner, next)
    ensures InsertRow(rows, owner, previous, id, next).Done?
    ensures Unique(ChunkKey, InsertRow(rows, owner, previous, id, next).store)
    ensures forall q :: Lookup(ChunkKey, InsertRow(rows, owner, previous, id, next).store, q)
                        == if q == (owner, id) then Some(ChunkRow(owner, previous, id, next))
                           else
                             var r := Lookup(ChunkKey, rows, q);
                             if r.None? then None
                             else Some(ChunkRow(r.value.owner,
                                                if next.Some? && q == (owner, next.value)
                                                   then Some(id) else r.value.previous,
                                                r.value.id,
                                                if previous.Some? && q == (owner, previous.value)
                                                   then Some(id) else r.value.next))
  {
    var linked := LinkNext(rows, owner, previous, Some(id));
    LinkNextLookup(rows, owner, previous, Some(id));
    LinkPreviousLookup(linked, owner, next, Some(id));
    var both, row := LinkPrevious(linked, owner, next, Some(id)), ChunkRow(owner, previous, id, next);
    assert Lookup(ChunkKey, both, (owner, id)) == None;
    UniqueSnoc(ChunkKey, both, row);
    forall q: (Owner, Id) {
      LookupSnoc(ChunkKey, both, row, q);
    }
  }

  lemma {:induction false} RemoveRowLookup(rows: seq<ChunkRow>, owner: Owner, id: Id)
    requires Unique(ChunkKey, rows) && Lookup(ChunkKey, rows, (owner, id)).Some?
    requires var row := Lookup(ChunkKey, rows, (owner, id)).value;
             && Known(rows, owner, row.previous) && Known(rows, owner, row.next)
             && row.previous != Some(id) && row.next != Some(id)
    ensures RemoveRow(rows, owner, id).Done?
    ensures Unique(ChunkKey, RemoveRow(rows, owner, id).store)
    ensures var row := Lookup(ChunkKey, rows, (owner, id)).value;
            forall q :: Lookup(ChunkKey, RemoveRow(rows, owner, id).store, q)
                        == if q == (owner, id) then None
                           else
                             var r := Lookup(ChunkKey, rows, q);
                             if r.None? then None
                             else Some(ChunkRow(
                               r.value.owner,
                               if row.next.Some? && q == (owner, row.next.value)
                                  then row.previous else r.value.previous,
                               r.value.id,
                               if row.previous.Some? && q == (owner, row.previous.value)
                                  then row.next else r.value.next))
  {
    var row := Lookup(ChunkKey, rows, (owner, id)).value;
    var rest := DropFirst(ChunkKey, rows, (owner, id));
    UniqueDropFirst(ChunkKey, rows, (owner, id));
    forall q: (Owner, Id)
      ensures Lookup(ChunkKey, rest, q) == if q == (owner, id) then None else Lookup(ChunkKey, rows, q)
    {
      LookupDropFirst(ChunkKey, rows, (owner, id), q);
    }
    LinkNextLookup(rest, owner, row.previous, row.next);
    LinkPreviousLookup(LinkNext(rest, owner, row.previous, row.next), owner, row.next, row.previous);
  }

  // ---- Every update keeps the tables in step with the chunks ----

  /** The new chunk's links, then its entry. */
  lemma {:induction false} InsertedLinks<T, G>(s: Store<T, G>, owner: Owner, cs: seq<Chunk<T, G>>, k: nat,
                                               c: Chunk<T, G>)
    requires Unique(ChunkKey, s.chunkRows) && DistinctIds(cs) && k <= |cs| && Locate(cs, c.id) == None
    requires forall id :: Links(s, owner, id) == LinkAt(cs, id)
    ensures var r := InsertRow(s.chunkRows, owner, PreviousId(cs, k), c.id, NextId(cs, k));
            && r.Done? && Unique(ChunkKey, r.store)
            && forall id :: Links(s.(chunkRows := r.store), owner, id) == LinkAt(InsertedAt(cs, k, c), id)
  {
    assert Links(s, owner, c.id) == LinkAt(cs, c.id);
    if k > 0 {
      RowsAround(s, owner, cs, k - 1);
    }
    if k < |cs| {
      RowsAround(s, owner, cs, k);
    }
    InsertRowLookup(s.chunkRows, owner, PreviousId(cs, k), c.id, NextId(cs, k));
    var s' := s.(chunkRows := InsertRow(s.chunkRows, owner, PreviousId(cs, k), c.id, NextId(cs, k)).store);
    forall id ensures Links(s', owner, id) == LinkAt(InsertedAt(cs, k, c), id) {
      assert Links(s, owner, id) == LinkAt(cs, id);
      InsertedLink(s, owner, cs, k, c, s'.chunkRows, id);
    }
  }

  lemma {:induction false} InsertedLink<T, G>(s: Store<T, G>, owner: Owner, cs: seq<Chunk<T, G>>, k: nat,
                                              c: Chunk<T, G>, rows: seq<ChunkRow>, id: Id)
    requires DistinctIds(cs) && k <= |cs| && Locate(cs, c.id) == None && Links(s, owner, id) == LinkAt(cs, id)
    requires Lookup(ChunkKey, rows, (owner, id))
             == if id == c.id then Some(ChunkRow(owner, PreviousId(cs, k), id, NextId(cs, k)))
                else match Lookup(ChunkKey, s.chunkRows, (owner, id))
                     case None => None
                     case Some(r) =>
                       Some(ChunkRow(r.owner, if NextId(cs, k) == Some(id) then Some(c.id) else r.previous,
                                     r.id, if PreviousId(cs, k) == Some(id) then Some(c.id) else r.next))
    ensures Links(s.(chunkRows := rows), owner, id) == LinkAt(InsertedAt(cs, k, c), id)
  {
    LinkInserted(cs, k, c, id);
  }

  lemma {:induction false} InsertedEntries<T, G>(key: T -> ItemId, s: Store<T, G>, owner: Owner, cs: seq<Chunk<T, G>>,
                                                 k: nat, c: Chunk<T, G>)
    requires Unique(ItemKey<G>, s.itemRows) && DistinctIds(cs) && k <= |cs| && Locate(cs, c.id) == None
    requires ItemsOf(c) == [] && forall at :: EntryIn(s, owner, at) == EntryAt(key, cs, at)
    ensures var rows := if c.content.Items? then s.itemRows
                        else s.itemRows + [ItemRow(owner, Position(c.id, 0), AGap(c.content.gap))];
            && Unique(ItemKey<G>, rows)
            && forall at :: EntryIn(s.(itemRows := rows), owner, at) == EntryAt(key, InsertedAt(cs, k, c), at)
  {
    forall at: Position ensures
      EntryAt(key, InsertedAt(cs, k, c), at)
      == if at.chunk == c.id then ContentAt(key, c.content, at.index) else EntryIn(s, owner, at)
    {
      EntryInserted(key, cs, k, c, at);
      assert EntryIn(s, owner, at) == EntryAt(key, cs, at);
    }
    assert forall i :: EntryIn(s, owner, Position(c.id, i)) == EntryAt(key, cs, Position(c.id, i)) == None;
    if c.content.Items? {
      assert s.(itemRows := s.itemRows) == s;
    } else {
      var row := ItemRow(owner, Position(c.id, 0), AGap(c.content.gap));
      assert EntryIn(s, owner, Position(c.id, 0)) == None;
      UniqueSnoc(ItemKey<G>, s.itemRows, row);
      forall at: Position {
        LookupSnoc(ItemKey<G>, s.itemRows, row, (owner, at));
      }
    }
  }

  lemma {:induction false} InsertHolds<T, G>(key: T -> ItemId, s: Store<T, G>, owner: Owner, cs: seq<Chunk<T, G>>,
                                             k: nat, c: Chunk<T, G>)
    requires Holds(key, s, owner, cs) && k <= |cs| && Locate(cs, c.id) == None && ItemsOf(c) == []
    ensures var r := ApplyUpdate(key, s, owner, Inserted(cs, k, c));
            r.Done? && Holds(key, r.store, owner, InsertedAt(cs, k, c))
  {
    InsertedLinks(s, owner, cs, k, c);
    InsertedEntries(key, s, owner, cs, k, c);
    InsertedFlat(cs, k, c);
    LocateInserted(cs, k, c, c.id);
    var s' := ApplyUpdate(key, s, owner, Inserted(cs, k, c)).store;
    forall id ensures Links(s', owner, id) == LinkAt(InsertedAt(cs, k, c), id) {
      assert Links(s.(chunkRows := s'.chunkRows), owner, id) == LinkAt(InsertedAt(cs, k, c), id);
    }
    forall at ensures EntryIn(s', owner, at) == EntryAt(key, InsertedAt(cs, k, c), at) {
      assert EntryIn(s.(itemRows := s'.itemRows), owner, at) == EntryAt(key, InsertedAt(cs, k, c), at);
    }
  }

  lemma {:induction false} RemoveChunkHolds<T, G>(key: T -> ItemId, s: Store<T, G>, owner: Owner, cs: seq<Chunk<T, G>>,
                                                  j: nat)
    requires Holds(key, s, owner, cs) && j < |cs|
    ensures var r := ApplyUpdate(key, s, owner, RemoveChunk(cs[j].id));
            r.Done? && Holds(key, r.store, owner, Without(cs, j))
  {
    RemovedLinks(s, owner, cs, j);
    RemovedEntries(key, s, owner, cs, j);
    LocateWithout(cs, j, cs[j].id);
    var s' := ApplyUpdate(key, s, owner, RemoveChunk(cs[j].id)).store;
    forall id ensures Links(s', owner, id) == LinkAt(Without(cs, j), id) {
      assert Links(s.(chunkRows := s'.chunkRows), owner, id) == LinkAt(Without(cs, j), id);
    }
    forall at ensures EntryIn(s', owner, at) == EntryAt(key, Without(cs, j), at) {
      assert EntryIn(s.(itemRows := s'.itemRows), owner, at) == EntryAt(key, Without(cs, j), at);
    }
    forall x | x in Flat(Without(cs, j)) ensures x in Flat(cs) {
      GatherAt(ItemsOf<T, G>, cs, j);
      GatherAppend(ItemsOf<T, G>, cs[..j], cs[j + 1..]);
    }
  }

  /** The rows of a chunk and of its neighbours are there. */
  lemma {:induction false} RowsAround<T, G>(s: Store<T, G>, owner: Owner, cs: seq<Chunk<T, G>>, j: nat)
    requires DistinctIds(cs) && j < |cs| && forall id :: Links(s, owner, id) == LinkAt(cs, id)
    ensures Lookup(ChunkKey, s.chunkRows, (owner, cs[j].id))
            == Some(ChunkRow(owner, PreviousId(cs, j), cs[j].id, NextId(cs, j + 1)))
    ensures Known(s.chunkRows, owner, PreviousId(cs, j)) && Known(s.chunkRows, owner, NextId(cs, j + 1))
    ensures PreviousId(cs, j) != Some(cs[j].id) && NextId(cs, j + 1) != Some(cs[j].id)
  {
    LocateIs(cs, j);
    assert Links(s, owner, cs[j].id) == LinkAt(cs, cs[j].id);
    if j > 0 {
      LocateIs(cs, j - 1);
      assert Links(s, owner, cs[j - 1].id) == LinkAt(cs, cs[j - 1].id);
    }
    if j + 1 < |cs| {
      LocateIs(cs, j + 1);
      assert Links(s, owner, cs[j + 1].id) == LinkAt(cs, cs[j + 1].id);
    }
  }

  lemma {:induction false} RemovedLinks<T, G>(s: Store<T, G>, owner: Owner, cs: seq<Chunk<T, G>>, j: nat)
    requires Unique(ChunkKey, s.chunkRows) && DistinctIds(cs) && j < |cs|
    requires forall id :: Links(s, owner, id) == LinkAt(cs, id)
    ensures var r := RemoveRow(s.chunkRows, owner, cs[j].id);
            && r.Done? && Unique(ChunkKey, r.store)
            && forall id :: Links(s.(chunkRows := r.store), owner, id) == LinkAt(Without(cs, j), id)
  {
    RowsAround(s, owner, cs, j);
    RemoveRowLookup(s.chunkRows, owner, cs[j].id);
    var s' := s.(chunkRows := RemoveRow(s.chunkRows, owner, cs[j].id).store);
    forall id ensures Links(s', owner, id) == LinkAt(Without(cs, j), id) {
      RemovedLink(s, owner, cs, j, s'.chunkRows, id);
    }
  }

  lemma {:induction false} RemovedLink<T, G>(s: Store<T, G>, owner: Owner, cs: seq<Chunk<T, G>>, j: nat,
                                             rows: seq<ChunkRow>, id: Id)
    requires DistinctIds(cs) && j < |cs| && Links(s, owner, id) == LinkAt(cs, id)
    requires Lookup(ChunkKey, rows, (owner, id))
             == if id == cs[j].id then None
                else match Lookup(ChunkKey, s.chunkRows, (owner, id))
                     case None => None
                     case Some(r) =>
                       Some(ChunkRow(r.owner, if NextId(cs, j + 1) == Some(id) then PreviousId(cs, j) else r.previous,
                                     r.id, if PreviousId(cs, j) == Some(id) then NextId(cs, j + 1) else r.next))
    ensures Links(s.(chunkRows := rows), owner, id) == LinkAt(Without(cs, j), id)
  {
    LinkWithout(cs, j, id);
  }

  lemma {:induction false} RemovedEntries<T, G>(key: T -> ItemId, s: Store<T, G>, owner: Owner, cs: seq<Chunk<T, G>>,
                                                j: nat)
    requires Unique(ItemKey<G>, s.itemRows) && DistinctIds(cs) && j < |cs|
    requires forall at :: EntryIn(s, owner, at) == EntryAt(key, cs, at)
    ensures var rows := Retain(OutsideChunk<G>(owner, cs[j].id), s.itemRows);
            && Unique(ItemKey<G>, rows)
            && forall at :: EntryIn(s.(itemRows := rows), owner, at) == EntryAt(key, Without(cs, j), at)
  {
    var keep := OutsideChunk<G>(owner, cs[j].id);
    var keepKey := (q: (Owner, Position)) => !(q.0 == owner && q.1.chunk == cs[j].id);
    UniqueRetain(ItemKey<G>, keep, s.itemRows);
    forall at: Position
      ensures EntryIn(s.(itemRows := Retain(keep, s.itemRows)), owner, at) == EntryAt(key, Without(cs, j), at)
    {
      LookupRetain(ItemKey<G>, keep, keepKey, s.itemRows, (owner, at));
      EntryWithout(key, cs, j, at);
      assert EntryIn(s, owner, at) == EntryAt(key, cs, at);
    }
  }

  // ---- Updates of the items of one chunk ----

  lemma {:induction false} ItemsHold<T, G>(key: T -> ItemId, s: Store<T, G>, s': Store<T, G>, owner: Owner,
                                           cs: seq<Chunk<T, G>>, j: nat, items: seq<T>)
    requires Holds(key, s, owner, cs) && j < |cs|
    requires s'.chunkRows == s.chunkRows && Unique(ItemKey<G>, s'.itemRows)
    requires forall at :: EntryIn(s', owner, at)
                          == if at.chunk == cs[j].id then ContentAt<T, G>(key, Items(items), at.index)
                             else EntryIn(s, owner, at)
    requires forall x :: x in Flat(WithItems(cs, j, items)) ==>
                           (owner, key(x)) in s'.items && s'.items[(owner, key(x))] == x
    ensures Holds(key, s', owner, WithItems(cs, j, items))
  {
    var cs' := WithItems(cs, j, items);
    WithItemsSays(key, cs, j, items);
    forall id ensures Links(s', owner, id) == LinkAt(cs', id) {
      assert Links(s', owner, id) == Links(s, owner, id) == LinkAt(cs, id);
    }
    forall at ensures EntryIn(s', owner, at) == EntryAt(key, cs', at) {
      assert EntryIn(s, owner, at) == EntryAt(key, cs, at);
    }
  }

  lemma {:induction false} EntryOfChunk<T, G>(key: T -> ItemId, s: Store<T, G>, owner: Owner, cs: seq<Chunk<T, G>>,
                                              j: nat, i: nat)
    requires Holds(key, s, owner, cs) && j < |cs|
    ensures EntryIn(s, owner, Position(cs[j].id, i)) == ContentAt(key, cs[j].content, i)
  {
    LocateIs(cs, j);
    assert EntryIn(s, owner, Position(cs[j].id, i)) == EntryAt(key, cs, Position(cs[j].id, i));
  }

  /** The part of a chunk's items that stays is among all items. */
  lemma {:induction false} InFlat<T, G>(cs: seq<Chunk<T, G>>, j: nat, items: seq<T>, x: T)
    requires j < |cs| && x in Flat(WithItems(cs, j, items))
    ensures x in items || x in Flat(cs)
  {
    WithItemsFlat(cs, j, items);
    GatherAt(ItemsOf<T, G>, cs, j);
  }

  lemma {:induction false} ItemInFlat<T, G>(cs: seq<Chunk<T, G>>, j: nat, x: T)
    requires j < |cs| && x in ItemsOf(cs[j])
    ensures x in Flat(cs)
  {
    GatherAt(ItemsOf<T, G>, cs, j);
  }

  // Pushing

  /** One of the `n` positions from `at` on. */
  predicate InRange(q: (Owner, Position), owner: Owner, at: Position, n: nat) {
    q.0 == owner && q.1.chunk == at.chunk && at.index <= q.1.index < at.index + n
  }

  lemma {:induction false} PushAllRows<T, G>(key: T -> ItemId, s: Store<T, G>, owner: Owner, at: Position,
                                             items: seq<T>)
    requires Unique(ItemKey<G>, s.itemRows)
    requires forall q :: InRange(q, owner, at, |items|) ==> Lookup(ItemKey<G>, s.itemRows, q) == None
    ensures var s' := PushAll(key, s, owner, at, items);
            && s'.chunkRows == s.chunkRows && Unique(ItemKey<G>, s'.itemRows)
            && forall q :: Lookup(ItemKey<G>, s'.itemRows, q)
                           == if InRange(q, owner, at, |items|)
                              then Some(ItemRow(owner, q.1, AnItem(key(items[q.1.index - at.index]))))
                              else Lookup(ItemKey<G>, s.itemRows, q)
  {
    if items != [] {
      var n := |items| - 1;
      PushAllRows(key, s, owner, at, items[..n]);
      var before := PushAll(key, s, owner, at, items[..n]);
      var row: ItemRow<G> := ItemRow(owner, Position(at.chunk, at.index + n), AnItem(key(items[n])));
      UniqueSnoc(ItemKey<G>, before.itemRows, row);
      forall q: (Owner, Position)
        ensures Lookup(ItemKey<G>, before.itemRows + [row], q)
                == if Lookup(ItemKey<G>, before.itemRows, q).None? && q == (owner, row.at) then Some(row)
                   else Lookup(ItemKey<G>, before.itemRows, q)
      {
        LookupSnoc(ItemKey<G>, before.itemRows, row, q);
      }
    }
  }

  /** Under the identifier of a pushed item is a pushed item with that identifier. */
  lemma {:induction false} PushedContent<T, G>(key: T -> ItemId, s: Store<T, G>, owner: Owner, at: Position,
                                               items: seq<T>, x: T)
    requires x in items
    ensures var m := PushAll(key, s, owner, at, items).items;
            (owner, key(x)) in m && m[(owner, key(x))] in items && key(m[(owner, key(x))]) == key(x)
  {
    var n := |items| - 1;
    if key(items[n]) != key(x) {
      assert items == items[..n] + [items[n]];
      PushedContent(key, s, owner, at, items[..n], x);
    }
  }

  lemma {:induction false} KeptContent<T, G>(key: T -> ItemId, s: Store<T, G>, owner: Owner, at: Position,
                                             items: seq<T>, id: ItemId)
    requires (owner, id) in s.items && forall i :: 0 <= i < |items| ==> key(items[i]) != id
    ensures var m := PushAll(key, s, owner, at, items).items; (owner, id) in m && m[(owner, id)] == s.items[(owner, id)]
  {
    if items != [] {
      KeptContent(key, s, owner, at, items[..|items| - 1], id);
    }
  }

  lemma {:induction false} PushHolds<T, G>(key: T -> ItemId, s: Store<T, G>, owner: Owner, cs: seq<Chunk<T, G>>,
                                           j: nat, items: seq<T>)
    requires Holds(key, s, owner, cs) && j < |cs| && cs[j].content.Items?
    requires KeysAgree(key, Flat(Extended(cs, j, items)))
    ensures var r := ApplyUpdate(key, s, owner, Pushed(cs, j, items));
            r.Done? && Holds(key, r.store, owner, Extended(cs, j, items))
  {
    var xs, at := cs[j].content.items, Position(cs[j].id, |cs[j].content.items|);
    var s' := PushAll(key, s, owner, at, items);
    PushedEntries(key, s, owner, cs, j, items);
    PushedContents(key, s, owner, cs, j, items);
    ItemsHold(key, s, s', owner, cs, j, xs + items);
  }

  lemma {:induction false} PushedEntries<T, G>(key: T -> ItemId, s: Store<T, G>, owner: Owner, cs: seq<Chunk<T, G>>,
                                               j: nat, items: seq<T>)
    requires Holds(key, s, owner, cs) && j < |cs| && cs[j].content.Items?
    ensures var xs := cs[j].content.items;
            var s' := PushAll(key, s, owner, Position(cs[j].id, |xs|), items);
            && s'.chunkRows == s.chunkRows && Unique(ItemKey<G>, s'.itemRows)
            && forall p :: EntryIn(s', owner, p)
                           == if p.chunk == cs[j].id then ContentAt<T, G>(key, Items(xs + items), p.index)
                                 else EntryIn(s, owner, p)
  {
    var xs, at := cs[j].content.items, Position(cs[j].id, |cs[j].content.items|);
    forall p: Position | p.chunk == cs[j].id ensures EntryIn(s, owner, p) == ContentAt<T, G>(key, Items(xs), p.index) {
      EntryOfChunk(key, s, owner, cs, j, p.index);
    }
    forall q | InRange(q, owner, at, |items|) ensures Lookup(ItemKey<G>, s.itemRows, q) == None {
      assert EntryIn(s, owner, q.1) == None;
    }
    PushAllRows(key, s, owner, at, items);
  }

  lemma {:induction false} PushedContents<T, G>(key: T -> ItemId, s: Store<T, G>, owner: Owner, cs: seq<Chunk<T, G>>,
                                                j: nat, items: seq<T>)
    requires Holds(key, s, owner, cs) && j < |cs| && cs[j].content.Items?
    requires KeysAgree(key, Flat(Extended(cs, j, items)))
    ensures var m := PushAll(key, s, owner, Position(cs[j].id, |cs[j].content.items|), items).items;
            forall x :: x in Flat(Extended(cs, j, items)) ==> (owner, key(x)) in m && m[(owner, key(x))] == x
  {
    var cs', at := Extended(cs, j, items), Position(cs[j].id, |cs[j].content.items|);
    var m := PushAll(key, s, owner, at, items).items;
    forall x | x in Flat(cs') ensures (owner, key(x)) in m && m[(owner, key(x))] == x {
      if i :| 0 <= i < |items| && key(items[i]) == key(x) {
        PushedContent(key, s, owner, at, items, items[i]);
        var y := m[(owner, key(x))];
        assert y in ItemsOf(cs'[j]);
        ItemInFlat(cs', j, y);
      } else {
        InFlat(cs, j, ItemsOf(cs[j]) + items, x);
        if x in ItemsOf(cs[j]) {
          ItemInFlat(cs, j, x);
        }
        KeptContent(key, s, owner, at, items, key(x));
      }
    }
  }

  // Replacing

  lemma {:induction false} SetPlaceLookup<G>(rows: seq<ItemRow<G>>, at: Position, entry: Entry<G>, q: (Owner, Position))
    requires Lookup(PlaceOf<G>, rows, at).Some?
    ensures var row := Lookup(PlaceOf<G>, rows, at).value;
            Lookup(ItemKey<G>, SetAt(PlaceOf<G>, rows, at, EntrySet(entry)), q)
            == if q == ItemKey(row) then Some(row.(entry := entry)) else Lookup(ItemKey<G>, rows, q)
  {
    var rows' := SetAt(PlaceOf<G>, rows, at, EntrySet(entry));
    if rows[0].at == at {
      assert rows'[1..] == rows[1..];
    } else {
      SetPlaceLookup(rows[1..], at, entry, q);
      assert rows'[1..] == SetAt(PlaceOf<G>, rows[1..], at, EntrySet(entry));
    }
  }

  lemma {:induction false} SetPlaceUnique<G>(rows: seq<ItemRow<G>>, at: Position, entry: Entry<G>)
    requires Unique(ItemKey<G>, rows)
    ensures Unique(ItemKey<G>, SetAt(PlaceOf<G>, rows, at, EntrySet(entry)))
    ensures forall i :: 0 <= i < |rows| ==> ItemKey(SetAt(PlaceOf<G>, rows, at, EntrySet(entry))[i]) == ItemKey(rows[i])
  {
    if rows != [] && rows[0].at != at {
      SetPlaceUnique(rows[1..], at, entry);
    }
  }

  /** The first row at a position belongs to `owner`. */
  predicate OwnsFirst<T, G>(s: Store<T, G>, owner: Owner, at: Position) {
    Lookup(PlaceOf<G>, s.itemRows, at).Some? && Lookup(PlaceOf<G>, s.itemRows, at).value.owner == owner
  }

  lemma {:induction false} OwnFirstEntry<T, G>(s: Store<T, G>, owner: Owner, at: Position)
    requires OwnsFirst(s, owner, at)
    ensures EntryIn(s, owner, at) == Some(Lookup(PlaceOf<G>, s.itemRows, at).value.entry)
  {
    FirstByPlace(s.itemRows, at);
  }

  lemma {:induction false} FirstByPlace<G>(rows: seq<ItemRow<G>>, at: Position)
    requires Lookup(PlaceOf<G>, rows, at).Some?
    ensures var row := Lookup(PlaceOf<G>, rows, at).value; Lookup(ItemKey<G>, rows, ItemKey(row)) == Some(row)
  {
    if rows[0].at != at {
      FirstByPlace(rows[1..], at);
    }
  }

  lemma {:induction false} ReplaceHolds<T, G>(key: T -> ItemId, s: Store<T, G>, owner: Owner, cs: seq<Chunk<T, G>>,
                                              j: nat, i: nat, item: T)
    requires Holds(key, s, owner, cs) && j < |cs| && cs[j].content.Items? && i < |cs[j].content.items|
    requires KeysAgree(key, Flat(WithItems(cs, j, cs[j].content.items[i := item])))
    requires OwnsFirst(s, owner, Position(cs[j].id, i))
    ensures var r := ApplyUpdate(key, s, owner, ReplaceItem(Position(cs[j].id, i), item));
            r.Done? && Holds(key, r.store, owner, WithItems(cs, j, cs[j].content.items[i := item]))
  {
    var at, xs := Position(cs[j].id, i), cs[j].content.items[i := item];
    EntryOfChunk(key, s, owner, cs, j, i);
    OwnFirstEntry(s, owner, at);
    var s' := ApplyUpdate(key, s, owner, ReplaceItem(at, item)).store;
    SetPlaceUnique(s.itemRows, at, AnItem(key(item)));
    forall p: Position
      ensures EntryIn(s', owner, p)
              == if p.chunk == cs[j].id then ContentAt<T, G>(key, Items(xs), p.index) else EntryIn(s, owner, p)
    {
      SetPlaceLookup(s.itemRows, at, AnItem(key(item)), (owner, p));
      if p.chunk == cs[j].id {
        EntryOfChunk(key, s, owner, cs, j, p.index);
      }
    }
    ReplacedContents(key, s, owner, cs, j, i, item);
    ItemsHold(key, s, s', owner, cs, j, xs);
  }

  lemma {:induction false} ReplacedContents<T, G>(key: T -> ItemId, s: Store<T, G>, owner: Owner, cs: seq<Chunk<T, G>>,
                                                  j: nat, i: nat, item: T)
    requires Holds(key, s, owner, cs) && j < |cs| && cs[j].content.Items? && i < |cs[j].content.items|
    requires KeysAgree(key, Flat(WithItems(cs, j, cs[j].content.items[i := item])))
    ensures forall x :: x in Flat(WithItems(cs, j, cs[j].content.items[i := item])) ==>
                          var m := s.items[(owner, key(item)) := item]; (owner, key(x)) in m && m[(owner, key(x))] == x
  {
    var xs := cs[j].content.items[i := item];
    var cs' := WithItems(cs, j, xs);
    assert item == xs[i];
    ItemInFlat(cs', j, item);
    forall x | x in Flat(cs')
      ensures var m := s.items[(owner, key(item)) := item]; (owner, key(x)) in m && m[(owner, key(x))] == x
    {
      InFlat(cs, j, xs, x);
      if x in xs && x != item {
        assert x in ItemsOf(cs[j]);
        ItemInFlat(cs, j, x);
      }
    }
  }

  // Removing

  lemma {:induction false} MovedUpLookup<G>(rows: seq<ItemRow<G>>, owner: Owner, at: Position, q: (Owner, Position))
    requires Lookup(ItemKey<G>, rows, (owner, at)) == None
    ensures Lookup(ItemKey<G>, Map(MovedUp(owner, at), rows), q)
            == if q.0 == owner && q.1.chunk == at.chunk && q.1.index >= at.index then
                 (match Lookup(ItemKey<G>, rows, (owner, Position(at.chunk, q.1.index + 1)))
                  case None => None
                  case Some(r) => Some(r.(at := q.1)))
               else Lookup(ItemKey<G>, rows, q)
  {
    var rows' := Map(MovedUp<G>(owner, at), rows);
    if rows != [] {
      MovedUpLookup(rows[1..], owner, at, q);
      assert rows'[1..] == Map(MovedUp<G>(owner, at), rows[1..]);
      assert rows'[0] == MovedUp<G>(owner, at)(rows[0]);
    }
  }

  lemma {:induction false} MovedUpUnique<G>(rows: seq<ItemRow<G>>, owner: Owner, at: Position)
    requires Unique(ItemKey<G>, rows) && Lookup(ItemKey<G>, rows, (owner, at)) == None
    ensures Unique(ItemKey<G>, Map(MovedUp(owner, at), rows))
  {
    var rows' := Map(MovedUp<G>(owner, at), rows);
    forall i, k | 0 <= i < k < |rows| ensures ItemKey(rows'[i]) != ItemKey(rows'[k]) {
      assert rows'[i] == MovedUp<G>(owner, at)(rows[i]) && rows'[k] == MovedUp<G>(owner, at)(rows[k]);
      assert ItemKey(rows[i]) != ItemKey(rows[k]) && ItemKey(rows[i]) != (owner, at) && ItemKey(rows[k]) != (owner, at);
    }
  }

  lemma {:induction false} RowsWithoutUnique<G>(rows: seq<ItemRow<G>>, owner: Owner, at: Position)
    requires Unique(ItemKey<G>, rows) && Lookup(ItemKey<G>, rows, (owner, at)).Some?
    ensures Unique(ItemKey<G>, RowsWithout(rows, owner, at))
  {
    OnlyOneToDrop(ItemKey<G>, rows, (owner, at));
    UniqueDropFirst(ItemKey<G>, rows, (owner, at));
    LookupDropFirst(ItemKey<G>, rows, (owner, at), (owner, at));
    MovedUpUnique(DropFirst(ItemKey<G>, rows, (owner, at)), owner, at);
  }

  lemma {:induction false} RowsWithoutLookup<G>(rows: seq<ItemRow<G>>, owner: Owner, at: Position, q: (Owner, Position))
    requires Unique(ItemKey<G>, rows) && Lookup(ItemKey<G>, rows, (owner, at)).Some?
    ensures Lookup(ItemKey<G>, RowsWithout(rows, owner, at), q)
            == if q.0 == owner && q.1.chunk == at.chunk && q.1.index >= at.index then
                 (match Lookup(ItemKey<G>, rows, (owner, Position(at.chunk, q.1.index + 1)))
                  case None => None
                  case Some(r) => Some(r.(at := q.1)))
               else Lookup(ItemKey<G>, rows, q)
  {
    var rest := DropFirst(ItemKey<G>, rows, (owner, at));
    OnlyOneToDrop(ItemKey<G>, rows, (owner, at));
    LookupDropFirst(ItemKey<G>, rows, (owner, at), (owner, at));
    LookupDropFirst(ItemKey<G>, rows, (owner, at), q);
    LookupDropFirst(ItemKey<G>, rows, (owner, at), (owner, Position(at.chunk, q.1.index + 1)));
    MovedUpLookup(rest, owner, at, q);
  }

  lemma {:induction false} RemovedItemEntry<T, G>(key: T -> ItemId, s: Store<T, G>, owner: Owner, cs: seq<Chunk<T, G>>,
                                                  j: nat, i: nat, p: Position)
    requires Holds(key, s, owner, cs) && j < |cs| && cs[j].content.Items? && i < |cs[j].content.items|
    ensures var xs := cs[j].content.items;
            EntryIn(s.(itemRows := RowsWithout(s.itemRows, owner, Position(cs[j].id, i))), owner, p)
            == if p.chunk == cs[j].id then ContentAt<T, G>(key, Items(xs[..i] + xs[i + 1..]), p.index)
                  else EntryIn(s, owner, p)
  {
    EntryOfChunk(key, s, owner, cs, j, i);
    RowsWithoutLookup(s.itemRows, owner, Position(cs[j].id, i), (owner, p));
    if p.chunk == cs[j].id {
      EntryOfChunk(key, s, owner, cs, j, p.index);
      EntryOfChunk(key, s, owner, cs, j, p.index + 1);
    }
  }

  lemma {:induction false} RemoveItemHolds<T, G>(key: T -> ItemId, s: Store<T, G>, owner: Owner, cs: seq<Chunk<T, G>>,
                                                 j: nat, i: nat)
    requires Holds(key, s, owner, cs) && j < |cs| && cs[j].content.Items? && i < |cs[j].content.items|
    ensures var xs := cs[j].content.items;
            var r := ApplyUpdate(key, s, owner, RemoveItem(Position(cs[j].id, i)));
            r.Done? && Holds(key, r.store, owner, WithItems(cs, j, xs[..i] + xs[i + 1..]))
  {
    var at, xs := Position(cs[j].id, i), cs[j].content.items;
    var ys, s' := xs[..i] + xs[i + 1..], s.(itemRows := RowsWithout(s.itemRows, owner, at));
    EntryOfChunk(key, s, owner, cs, j, i);
    RowsWithoutUnique(s.itemRows, owner, at);
    forall p: Position
      ensures EntryIn(s', owner, p)
              == if p.chunk == cs[j].id then ContentAt<T, G>(key, Items(ys), p.index) else EntryIn(s, owner, p)
    {
      RemovedItemEntry(key, s, owner, cs, j, i, p);
    }
    RemovedStillThere(cs, j, i);
    ItemsHold(key, s, s', owner, cs, j, ys);
  }

  lemma {:induction false} RemovedStillThere<T, G>(cs: seq<Chunk<T, G>>, j: nat, i: nat)
    requires j < |cs| && cs[j].content.Items? && i < |cs[j].content.items|
    ensures var xs := cs[j].content.items;
            forall x :: x in Flat(WithItems(cs, j, xs[..i] + xs[i + 1..])) ==> x in Flat(cs)
  {
    var xs := cs[j].content.items;
    var ys := xs[..i] + xs[i + 1..];
    forall x | x in Flat(WithItems(cs, j, ys)) ensures x in Flat(cs) {
      InFlat(cs, j, ys, x);
      if x in ys {
        assert x in xs;
        ItemInFlat(cs, j, x);
      }
    }
  }

  // Detaching and clearing

  lemma {:induction false} DetachHolds<T, G>(key: T -> ItemId, s: Store<T, G>, owner: Owner, cs: seq<Chunk<T, G>>,
                                             j: nat, n: nat)
    requires Holds(key, s, owner, cs) && j < |cs| && cs[j].content.Items? && n <= |cs[j].content.items|
    ensures var r := ApplyUpdate(key, s, owner, DetachLastItems(Position(cs[j].id, n)));
            r.Done? && Holds(key, r.store, owner, WithItems(cs, j, cs[j].content.items[..n]))
  {
    var at, xs := Position(cs[j].id, n), cs[j].content.items;
    var keep := BeforeEnd<G>(owner, at);
    var keepKey := (q: (Owner, Position)) => !(q.0 == owner && q.1.chunk == at.chunk && q.1.index >= at.index);
    UniqueRetain(ItemKey<G>, keep, s.itemRows);
    var s' := s.(itemRows := Retain(keep, s.itemRows));
    forall p: Position
      ensures EntryIn(s', owner, p)
              == if p.chunk == cs[j].id then ContentAt<T, G>(key, Items(xs[..n]), p.index) else EntryIn(s, owner, p)
    {
      LookupRetain(ItemKey<G>, keep, keepKey, s.itemRows, (owner, p));
      if p.chunk == cs[j].id {
        EntryOfChunk(key, s, owner, cs, j, p.index);
      }
    }
    forall x | x in Flat(WithItems(cs, j, xs[..n])) ensures x in Flat(cs) {
      InFlat(cs, j, xs[..n], x);
      if x in xs[..n] {
        assert x in xs;
        ItemInFlat(cs, j, x);
      }
    }
    ItemsHold(key, s, s', owner, cs, j, xs[..n]);
  }

  lemma {:induction false} ClearHolds<T, G>(key: T -> ItemId, s: Store<T, G>, owner: Owner, cs: seq<Chunk<T, G>>)
    requires Holds(key, s, owner, cs)
    ensures Holds(key, ApplyUpdate(key, s, owner, Clear).store, owner, [])
  {
    var keep, keepRow := (r: ChunkRow) => r.owner != owner, (r: ItemRow<G>) => r.owner != owner;
    UniqueRetain(ChunkKey, keep, s.chunkRows);
    UniqueRetain(ItemKey<G>, keepRow, s.itemRows);
    var s' := ApplyUpdate(key, s, owner, Clear).store;
    forall id ensures Links(s', owner, id) == None {
      LookupRetain(ChunkKey, keep, (q: (Owner, Id)) => q.0 != owner, s.chunkRows, (owner, id));
    }
    forall at ensures EntryIn(s', owner, at) == None {
      LookupRetain(ItemKey<G>, keepRow, (q: (Owner, Position)) => q.0 != owner, s.itemRows, (owner, at));
    }
  }

  // ---- Whole logs ----

  /**
    What an update needs besides being one of the linked chunk: items with the same
    identifier are the same afterwards, and a replaced item's row is the first at
    its position.
   */
  ghost predicate Suits<T, G>(key: T -> ItemId, s: Store<T, G>, owner: Owner, u: Update<T, G>, cs': seq<Chunk<T, G>>) {
    && (u.PushItems? || u.ReplaceItem? ==> KeysAgree(key, Flat(cs')))
    && (u.ReplaceItem? ==> OwnsFirst(s, owner, u.at))
  }

  /** One update of the log: the tables follow the chunks. */
  lemma {:induction false} EffectHolds<T, G>(key: T -> ItemId, s: Store<T, G>, owner: Owner, cs: seq<Chunk<T, G>>,
                                             u: Update<T, G>, cs': seq<Chunk<T, G>>)
    requires Holds(key, s, owner, cs) && Effect(cs, u) == Some(cs') && Suits(key, s, owner, u, cs')
    ensures ApplyUpdate(key, s, owner, u).Done? && Holds(key, ApplyUpdate(key, s, owner, u).store, owner, cs')
  {
    match u
    case NewItemsChunk(previous, id, next) =>
      InsertEffectHolds(key, s, owner, cs, previous, Chunk(id, Items([])), next);
    case NewGapChunk(previous, id, next, gap) =>
      InsertEffectHolds(key, s, owner, cs, previous, Chunk(id, Gap(gap)), next);
    case RemoveChunk(id) => RemoveChunkHolds(key, s, owner, cs, Locate(cs, id).value);
    case PushItems(at, items) => PushHolds(key, s, owner, cs, ItemsChunk(cs, at.chunk).value, items);
    case ReplaceItem(at, item) => ReplaceHolds(key, s, owner, cs, ItemsChunk(cs, at.chunk).value, at.index, item);
    case RemoveItem(at) => RemoveItemHolds(key, s, owner, cs, ItemsChunk(cs, at.chunk).value, at.index);
    case DetachLastItems(at) => DetachHolds(key, s, owner, cs, ItemsChunk(cs, at.chunk).value, at.index);
    case StartReattachItems =>
    case EndReattachItems =>
    case Clear => ClearHolds(key, s, owner, cs);
  }

  lemma {:induction false} InsertEffectHolds<T, G>(key: T -> ItemId, s: Store<T, G>, owner: Owner, cs: seq<Chunk<T, G>>,
                                                   previous: Option<Id>, c: Chunk<T, G>, next: Option<Id>)
    requires Holds(key, s, owner, cs) && ItemsOf(c) == [] && InsertEffect(cs, previous, c, next).Some?
    ensures var k := if next.None? then |cs| else Locate(cs, next.value).value;
            var r := ApplyUpdate(key, s, owner, Inserted(cs, k, c));
            && PreviousId(cs, k) == previous && NextId(cs, k) == next
            && r.Done? && Holds(key, r.store, owner, InsertEffect(cs, previous, c, next).value)
  {
    InsertHolds(key, s, owner, cs, if next.None? then |cs| else Locate(cs, next.value).value, c);
  }

  /** `apply_updates`: stops at the first update that is refused. */
  function ApplyLog<T, G>(key: T -> ItemId, s: Store<T, G>, owner: Owner, us: seq<Update<T, G>>): Outcome<Store<T, G>> {
    if us == [] then Done(s)
    else
      match ApplyLog(key, s, owner, us[..|us| - 1])
      case Done(mid) => ApplyUpdate(key, mid, owner, us[|us| - 1])
      case Refused(mid, e) => Refused(mid, e)
      case Panicked => Panicked
  }

  /** Update `i` of a log that was accepted so far suits the tables. */
  ghost predicate SuitsAt<T, G>(key: T -> ItemId, s: Store<T, G>, owner: Owner, base: seq<Chunk<T, G>>,
                                us: seq<Update<T, G>>, i: nat)
    requires i < |us|
  {
    var r, cs' := ApplyLog(key, s, owner, us[..i]), ReplayLog(base, us[..i + 1]);
    r.Done? && cs'.Some? ==> Suits(key, r.store, owner, us[i], cs'.value)
  }

  lemma {:induction false} SuitsBefore<T, G>(key: T -> ItemId, s: Store<T, G>, owner: Owner,
                                             base: seq<Chunk<T, G>>, us: seq<Update<T, G>>, n: nat)
    requires n <= |us| && forall i :: 0 <= i < |us| ==> SuitsAt(key, s, owner, base, us, i)
    ensures forall i :: 0 <= i < n ==> SuitsAt(key, s, owner, base, us[..n], i)
  {
    forall i | 0 <= i < n ensures SuitsAt(key, s, owner, base, us[..n], i) {
      assert SuitsAt(key, s, owner, base, us, i);
      assert us[..n][..i] == us[..i] && us[..n][..i + 1] == us[..i + 1];
    }
  }

  /** Persistence: tables that hold the chunks before, hold the chunks after any log was applied to them. */
  lemma {:induction false} LogHolds<T, G>(key: T -> ItemId, s: Store<T, G>, owner: Owner, base: seq<Chunk<T, G>>,
                                          us: seq<Update<T, G>>, cs: seq<Chunk<T, G>>)
    requires Holds(key, s, owner, base) && Logs(base, us, cs)
    requires forall i :: 0 <= i < |us| ==> SuitsAt(key, s, owner, base, us, i)
    ensures ApplyLog(key, s, owner, us).Done? && Holds(key, ApplyLog(key, s, owner, us).store, owner, cs)
    decreases |us|
  {
    if us != [] {
      var n := |us| - 1;
      var mid := ReplayLog(base, us[..n]).value;
      SuitsBefore(key, s, owner, base, us, n);
      LogHolds(key, s, owner, base, us[..n], mid);
      assert SuitsAt(key, s, owner, base, us, n);
      assert us[..n + 1] == us;
      EffectHolds(key, ApplyLog(key, s, owner, us[..n]).store, owner, mid, us[n], cs);
    }
  }

  // ---- When a push or a replacement is stored ----

  /** Contents are kept by identifier: tables can only hold items whose identifiers agree. */
  lemma {:induction false} HoldingNeedsAgreement<T, G>(key: T -> ItemId, s: Store<T, G>, owner: Owner,
                                                       cs: seq<Chunk<T, G>>)
    requires Holds(key, s, owner, cs)
    ensures KeysAgree(key, Flat(cs))
  {
    forall x, y | x in Flat(cs) && y in Flat(cs) && key(x) == key(y) ensures x == y {
      assert s.items[(owner, key(x))] == x && s.items[(owner, key(y))] == y;
    }
  }

  /** A push is stored exactly when the identifiers of all items agree afterwards. */
  lemma {:induction false} PushStoredIff<T, G>(key: T -> ItemId, s: Store<T, G>, owner: Owner, cs: seq<Chunk<T, G>>,
                                               j: nat, items: seq<T>)
    requires Holds(key, s, owner, cs) && j < |cs| && cs[j].content.Items?
    ensures var r := ApplyUpdate(key, s, owner, Pushed(cs, j, items));
            && r.Done?
            && (Holds(key, r.store, owner, Extended(cs, j, items)) <==> KeysAgree(key, Flat(Extended(cs, j, items))))
  {
    var r := ApplyUpdate(key, s, owner, Pushed(cs, j, items));
    if KeysAgree(key, Flat(Extended(cs, j, items))) {
      PushHolds(key, s, owner, cs, j, items);
    }
    if Holds(key, r.store, owner, Extended(cs, j, items)) {
      HoldingNeedsAgreement(key, r.store, owner, Extended(cs, j, items));
    }
  }

  /**
    A replacement finds some row at its position, of whichever linked chunk comes
    first. If that is a gap's row it panics. Otherwise it is stored exactly when the
    identifiers agree afterwards and the row is its own, or the new item has the
    identifier of the old one.
   */
  lemma {:induction false} ReplaceStoredIff<T, G>(key: T -> ItemId, s: Store<T, G>, owner: Owner,
                                                  cs: seq<Chunk<T, G>>, j: nat, i: nat, item: T)
    requires Holds(key, s, owner, cs) && j < |cs| && cs[j].content.Items? && i < |cs[j].content.items|
    ensures var at, cs' := Position(cs[j].id, i), WithItems(cs, j, cs[j].content.items[i := item]);
            var first, r := Lookup(PlaceOf<G>, s.itemRows, at), ApplyUpdate(key, s, owner, ReplaceItem(at, item));
            && first.Some?
            && r == (if first.value.entry.AnItem? then Done(r.store) else Panicked)
            && (r.Done? && Holds(key, r.store, owner, cs')
                <==> KeysAgree(key, Flat(cs'))
                     && (first.value.owner == owner
                         || (first.value.entry.AnItem? && key(item) == key(cs[j].content.items[i]))))
  {
    var at, cs' := Position(cs[j].id, i), WithItems(cs, j, cs[j].content.items[i := item]);
    var r := ApplyUpdate(key, s, owner, ReplaceItem(at, item));
    EntryOfChunk(key, s, owner, cs, j, i);
    SomeoneIsFirst(s, owner, at);
    var first := Lookup(PlaceOf<G>, s.itemRows, at).value;
    if first.owner == owner {
      OwnFirstEntry(s, owner, at);
    }
    if r.Done? && Holds(key, r.store, owner, cs') {
      HoldingNeedsAgreement(key, r.store, owner, cs');
      EntryOfChunk(key, r.store, owner, cs', j, i);
      SetPlaceLookup(s.itemRows, at, AnItem(key(item)), (owner, at));
    }
    if KeysAgree(key, Flat(cs')) {
      if first.owner == owner {
        ReplaceHolds(key, s, owner, cs, j, i, item);
      } else if first.entry.AnItem? && key(item) == key(cs[j].content.items[i]) {
        ReplaceElsewhereHolds(key, s, owner, cs, j, i, item);
      }
    }
  }

  /** Where there is an entry, there is a first row at its position. */
  lemma {:induction false} SomeoneIsFirst<T, G>(s: Store<T, G>, owner: Owner, at: Position)
    requires EntryIn(s, owner, at).Some?
    ensures Lookup(PlaceOf<G>, s.itemRows, at).Some?
  {
    LookupIsThere(ItemKey<G>, s.itemRows, (owner, at));
  }

  /** An item row of someone else was found, but the identifier is the one that was there. */
  lemma {:induction false} ReplaceElsewhereHolds<T, G>(key: T -> ItemId, s: Store<T, G>, owner: Owner,
                                                       cs: seq<Chunk<T, G>>, j: nat, i: nat, item: T)
    requires Holds(key, s, owner, cs) && j < |cs| && cs[j].content.Items? && i < |cs[j].content.items|
    requires var first := Lookup(PlaceOf<G>, s.itemRows, Position(cs[j].id, i));
             first.Some? && first.value.entry.AnItem? && first.value.owner != owner
    requires key(item) == key(cs[j].content.items[i])
    requires KeysAgree(key, Flat(WithItems(cs, j, cs[j].content.items[i := item])))
    ensures var r := ApplyUpdate(key, s, owner, ReplaceItem(Position(cs[j].id, i), item));
            r.Done? && Holds(key, r.store, owner, WithItems(cs, j, cs[j].content.items[i := item]))
  {
    var at, xs := Position(cs[j].id, i), cs[j].content.items[i := item];
    var s' := ApplyUpdate(key, s, owner, ReplaceItem(at, item)).store;
    SetPlaceUnique(s.itemRows, at, AnItem(key(item)));
    forall p: Position
      ensures EntryIn(s', owner, p)
              == if p.chunk == cs[j].id then ContentAt<T, G>(key, Items(xs), p.index) else EntryIn(s, owner, p)
    {
      SetPlaceLookup(s.itemRows, at, AnItem(key(item)), (owner, p));
      if p.chunk == cs[j].id {
        EntryOfChunk(key, s, owner, cs, j, p.index);
      }
    }
    ReplacedContents(key, s, owner, cs, j, i, item);
    ItemsHold(key, s, s', owner, cs, j, xs);
  }

  // ---- A linked chunk that has the tables for itself ----

  ghost predicate OnlyOwner<T, G>(s: Store<T, G>, owner: Owner) {
    forall row :: row in s.itemRows ==> row.owner == owner
  }

  lemma {:induction false} PushKeepsOwner<T, G>(key: T -> ItemId, s: Store<T, G>, owner: Owner, at: Position,
                                                items: seq<T>)
    requires OnlyOwner(s, owner)
    ensures OnlyOwner(PushAll(key, s, owner, at, items), owner)
  {
    if items != [] {
      PushKeepsOwner(key, s, owner, at, items[..|items| - 1]);
    }
  }

  lemma {:induction false} RetainIsPart<R>(keep: R -> bool, rows: seq<R>)
    ensures forall row :: row in Retain(keep, rows) ==> row in rows
  {
    if rows != [] {
      RetainIsPart(keep, rows[..|rows| - 1]);
      assert rows == rows[..|rows| - 1] + [rows[|rows| - 1]];
    }
  }

  lemma {:induction false} DropLastIsPart<R, P>(key: R -> P, rows: seq<R>, p: P)
    ensures forall row :: row in DropLast(key, rows, p) ==> row in rows
  {
    if rows != [] {
      DropLastIsPart(key, rows[..|rows| - 1], p);
      assert rows == rows[..|rows| - 1] + [rows[|rows| - 1]];
    }
  }

  lemma {:induction false} SetPlaceOwners<G>(rows: seq<ItemRow<G>>, at: Position, entry: Entry<G>)
    ensures forall i :: 0 <= i < |rows| ==> SetAt(PlaceOf<G>, rows, at, EntrySet(entry))[i].owner == rows[i].owner
  {
    if rows != [] && rows[0].at != at {
      SetPlaceOwners(rows[1..], at, entry);
    }
  }

  lemma {:induction false} UpdateKeepsOwner<T, G>(key: T -> ItemId, s: Store<T, G>, owner: Owner, u: Update<T, G>)
    requires OnlyOwner(s, owner) && ApplyUpdate(key, s, owner, u).Done?
    ensures OnlyOwner(ApplyUpdate(key, s, owner, u).store, owner)
  {
    match u
    case PushItems(at, items) => PushKeepsOwner(key, s, owner, at, items);
    case ReplaceItem(at, item) => SetPlaceOwners(s.itemRows, at, AnItem(key(item)));
    case RemoveItem(at) => DropLastIsPart(ItemKey<G>, s.itemRows, (owner, at));
    case RemoveChunk(id) => RetainIsPart(OutsideChunk<G>(owner, id), s.itemRows);
    case DetachLastItems(at) => RetainIsPart(BeforeEnd<G>(owner, at), s.itemRows);
    case Clear => RetainIsPart((r: ItemRow<G>) => r.owner != owner, s.itemRows);
    case _ =>
  }

  /** Items with the same identifier are the same, after every update of the log. */
  ghost predicate AgreesAlong<T, G>(key: T -> ItemId, base: seq<Chunk<T, G>>, us: seq<Update<T, G>>) {
    forall i :: 0 <= i <= |us| ==>
      (ReplayLog(base, us[..i]).Some? ==> KeysAgree(key, Flat(ReplayLog(base, us[..i]).value)))
  }

  lemma {:induction false} LogKeepsOwner<T, G>(key: T -> ItemId, s: Store<T, G>, owner: Owner, us: seq<Update<T, G>>)
    requires OnlyOwner(s, owner) && ApplyLog(key, s, owner, us).Done?
    ensures OnlyOwner(ApplyLog(key, s, owner, us).store, owner)
    decreases |us|
  {
    if us != [] {
      var n := |us| - 1;
      LogKeepsOwner(key, s, owner, us[..n]);
      UpdateKeepsOwner(key, ApplyLog(key, s, owner, us[..n]).store, owner, us[n]);
    }
  }

  /**
    For a linked chunk that has the tables for itself, agreeing identifiers are all
    it takes: every log of it is accepted and stored.
   */
  lemma {:induction false} SoleLogHolds<T, G>(key: T -> ItemId, s: Store<T, G>, owner: Owner, base: seq<Chunk<T, G>>,
                                              us: seq<Update<T, G>>, cs: seq<Chunk<T, G>>)
    requires Holds(key, s, owner, base) && OnlyOwner(s, owner) && Logs(base, us, cs) && AgreesAlong(key, base, us)
    ensures ApplyLog(key, s, owner, us).Done? && Holds(key, ApplyLog(key, s, owner, us).store, owner, cs)
    decreases |us|
  {
    if us != [] {
      var n := |us| - 1;
      var mid := ReplayLog(base, us[..n]).value;
      assert AgreesAlong(key, base, us[..n]) by {
        forall i | 0 <= i <= n ensures us[..n][..i] == us[..i] {}
      }
      SoleLogHolds(key, s, owner, base, us[..n], mid);
      LogKeepsOwner(key, s, owner, us[..n]);
      assert us[..n + 1] == us;
      SoleUpdateSuits(key, ApplyLog(key, s, owner, us[..n]).store, owner, mid, us[n], cs);
      EffectHolds(key, ApplyLog(key, s, owner, us[..n]).store, owner, mid, us[n], cs);
    }
  }

  /** In other words, such a log suits the tables all along. */
  lemma {:induction false} SoleLogSuits<T, G>(key: T -> ItemId, s: Store<T, G>, owner: Owner, base: seq<Chunk<T, G>>,
                                              us: seq<Update<T, G>>, cs: seq<Chunk<T, G>>)
    requires Holds(key, s, owner, base) && OnlyOwner(s, owner) && Logs(base, us, cs) && AgreesAlong(key, base, us)
    ensures forall i :: 0 <= i < |us| ==> SuitsAt(key, s, owner, base, us, i)
  {
    forall i | 0 <= i < |us| ensures SuitsAt(key, s, owner, base, us, i) {
      var cs' := ReplayLog(base, us[..i + 1]);
      if cs'.Some? {
        assert us[..i + 1][..i] == us[..i];
        var mid := ReplayLog(base, us[..i]).value;
        assert AgreesAlong(key, base, us[..i]) by {
          forall n | 0 <= n <= i ensures us[..i][..n] == us[..n] {}
        }
        SoleLogHolds(key, s, owner, base, us[..i], mid);
        LogKeepsOwner(key, s, owner, us[..i]);
        SoleUpdateSuits(key, ApplyLog(key, s, owner, us[..i]).store, owner, mid, us[i], cs'.value);
      }
    }
  }

  lemma {:induction false} SoleUpdateSuits<T, G>(key: T -> ItemId, s: Store<T, G>, owner: Owner, cs: seq<Chunk<T, G>>,
                                                 u: Update<T, G>, cs': seq<Chunk<T, G>>)
    requires Holds(key, s, owner, cs) && OnlyOwner(s, owner) && Effect(cs, u) == Some(cs') && KeysAgree(key, Flat(cs'))
    ensures Suits(key, s, owner, u, cs')
  {
    if u.ReplaceItem? {
      EntryOfChunk(key, s, owner, cs, ItemsChunk(cs, u.at.chunk).value, u.at.index);
      LookupIsThere(ItemKey<G>, s.itemRows, (owner, u.at));
      assert Lookup(PlaceOf<G>, s.itemRows, u.at).Some?;
      LookupIsThere(PlaceOf<G>, s.itemRows, u.at);
    }
  }

  // ---- Linked chunks that share the tables ----

  /** What the tables say about another linked chunk. */
  ghost predicate SameFor<T, G>(s: Store<T, G>, s': Store<T, G>, other: Owner) {
    && (forall id :: Links(s', other, id) == Links(s, other, id))
    && (forall at :: EntryIn(s', other, at) == EntryIn(s, other, at))
    && (forall k :: ((other, k) in s'.items <==> (other, k) in s.items)
                    && ((other, k) in s.items ==> s'.items[(other, k)] == s.items[(other, k)]))
  }

  lemma {:induction false} PushAllOthers<T, G>(key: T -> ItemId, s: Store<T, G>, owner: Owner, at: Position,
                                               items: seq<T>, other: Owner)
    requires other != owner
    ensures SameFor(s, PushAll(key, s, owner, at, items), other)
  {
    if items != [] {
      var n := |items| - 1;
      PushAllOthers(key, s, owner, at, items[..n], other);
      var before := PushAll(key, s, owner, at, items[..n]);
      var row: ItemRow<G> := ItemRow(owner, Position(at.chunk, at.index + n), AnItem(key(items[n])));
      forall p: Position {
        LookupSnoc(ItemKey<G>, before.itemRows, row, (other, p));
      }
    }
  }

  lemma {:induction false} ChunkRowsOthers<T, G>(s: Store<T, G>, rows: seq<ChunkRow>, other: Owner)
    requires forall id :: Lookup(ChunkKey, rows, (other, id)) == Lookup(ChunkKey, s.chunkRows, (other, id))
    ensures SameFor(s, s.(chunkRows := rows), other)
  {
    forall id ensures Links(s.(chunkRows := rows), other, id) == Links(s, other, id) {
      assert Lookup(ChunkKey, rows, (other, id)) == Lookup(ChunkKey, s.chunkRows, (other, id));
    }
  }

  lemma {:induction false} ItemRowsOthers<T, G>(s: Store<T, G>, rows: seq<ItemRow<G>>, other: Owner)
    requires forall at :: Lookup(ItemKey<G>, rows, (other, at)) == Lookup(ItemKey<G>, s.itemRows, (other, at))
    ensures SameFor(s, s.(itemRows := rows), other)
  {
    forall at ensures EntryIn(s.(itemRows := rows), other, at) == EntryIn(s, other, at) {
      assert Lookup(ItemKey<G>, rows, (other, at)) == Lookup(ItemKey<G>, s.itemRows, (other, at));
    }
  }

  lemma {:induction false} InsertOthers(rows: seq<ChunkRow>, owner: Owner, previous: Option<Id>, id: Id,
                                        next: Option<Id>, other: Owner, i: Id)
    requires other != owner && !InsertRow(rows, owner, previous, id, next).Panicked?
    ensures Lookup(ChunkKey, InsertRow(rows, owner, previous, id, next).store, (other, i))
      == Lookup(ChunkKey, rows, (other, i))
  {
    var linked := LinkNext(rows, owner, previous, Some(id));
    LinkNextLookup(rows, owner, previous, Some(id));
    LinkPreviousLookup(linked, owner, next, Some(id));
    LookupSnoc(ChunkKey, LinkPrevious(linked, owner, next, Some(id)), ChunkRow(owner, previous, id, next), (other, i));
  }

  lemma {:induction false} RemoveOthers(rows: seq<ChunkRow>, owner: Owner, id: Id, other: Owner, i: Id)
    requires other != owner && Unique(ChunkKey, rows) && RemoveRow(rows, owner, id).Done?
    ensures Lookup(ChunkKey, RemoveRow(rows, owner, id).store, (other, i)) == Lookup(ChunkKey, rows, (other, i))
  {
    var row := Lookup(ChunkKey, rows, (owner, id)).value;
    var rest := DropFirst(ChunkKey, rows, (owner, id));
    LookupDropFirst(ChunkKey, rows, (owner, id), (other, i));
    LinkNextLookup(rest, owner, row.previous, row.next);
    LinkPreviousLookup(LinkNext(rest, owner, row.previous, row.next), owner, row.next, row.previous);
  }

  /** Every update but a replacement, accepted or refused, leaves the other linked chunks alone. */
  lemma {:induction false} OthersUntouched<T, G>(key: T -> ItemId, s: Store<T, G>, owner: Owner, u: Update<T, G>,
                                                 other: Owner)
    requires Unique(ChunkKey, s.chunkRows) && Unique(ItemKey<G>, s.itemRows) && other != owner
    requires !u.ReplaceItem? && !ApplyUpdate(key, s, owner, u).Panicked?
    ensures SameFor(s, ApplyUpdate(key, s, owner, u).store, other)
  {
    var s' := ApplyUpdate(key, s, owner, u).store;
    match u
    case NewItemsChunk(previous, id, next) =>
      forall i { InsertOthers(s.chunkRows, owner, previous, id, next, other, i); }
      ChunkRowsOthers(s, s'.chunkRows, other);
    case NewGapChunk(previous, id, next, gap) => NewGapOthers(key, s, owner, previous, id, next, gap, other);
    case RemoveChunk(id) => RemoveChunkOthers(key, s, owner, id, other);
    case PushItems(at, items) => PushAllOthers(key, s, owner, at, items, other);
    case RemoveItem(at) =>
      forall p ensures Lookup(ItemKey<G>, s'.itemRows, (other, p)) == Lookup(ItemKey<G>, s.itemRows, (other, p)) {
        RowsWithoutLookup(s.itemRows, owner, at, (other, p));
      }
      ItemRowsOthers(s, s'.itemRows, other);
    case DetachLastItems(at) =>
      RetainOthers(s.itemRows, BeforeEnd<G>(owner, at),
                   (q: (Owner, Position)) => !(q.0 == owner && q.1.chunk == at.chunk && q.1.index >= at.index), other);
      ItemRowsOthers(s, s'.itemRows, other);
    case StartReattachItems =>
    case EndReattachItems =>
    case Clear => ClearOthers(key, s, owner, other);
  }

  lemma {:induction false} NewGapOthers<T, G>(key: T -> ItemId, s: Store<T, G>, owner: Owner, previous: Option<Id>,
                                              id: Id, next: Option<Id>, gap: G, other: Owner)
    requires other != owner && !ApplyUpdate(key, s, owner, NewGapChunk(previous, id, next, gap)).Panicked?
    ensures SameFor(s, ApplyUpdate(key, s, owner, NewGapChunk(previous, id, next, gap)).store, other)
  {
    var s' := ApplyUpdate(key, s, owner, NewGapChunk(previous, id, next, gap)).store;
    forall i { InsertOthers(s.chunkRows, owner, previous, id, next, other, i); }
    ChunkRowsOthers(s, s'.chunkRows, other);
    var mid := s.(chunkRows := s'.chunkRows);
    forall at { LookupSnoc(ItemKey<G>, s.itemRows, ItemRow(owner, Position(id, 0), AGap(gap)), (other, at)); }
    ItemRowsOthers(mid, s'.itemRows, other);
  }

  lemma {:induction false} RemoveChunkOthers<T, G>(key: T -> ItemId, s: Store<T, G>, owner: Owner, id: Id,
                                                   other: Owner)
    requires Unique(ChunkKey, s.chunkRows) && other != owner
    requires !ApplyUpdate(key, s, owner, RemoveChunk(id)).Panicked?
    ensures SameFor(s, ApplyUpdate(key, s, owner, RemoveChunk(id)).store, other)
  {
    var s' := ApplyUpdate(key, s, owner, RemoveChunk(id)).store;
    forall i { RemoveOthers(s.chunkRows, owner, id, other, i); }
    ChunkRowsOthers(s, s'.chunkRows, other);
    var mid := s.(chunkRows := s'.chunkRows);
    RetainOthers(s.itemRows, OutsideChunk<G>(owner, id),
                 (q: (Owner, Position)) => !(q.0 == owner && q.1.chunk == id), other);
    ItemRowsOthers(mid, s'.itemRows, other);
  }

  lemma {:induction false} ClearOthers<T, G>(key: T -> ItemId, s: Store<T, G>, owner: Owner, other: Owner)
    requires other != owner
    ensures SameFor(s, ApplyUpdate(key, s, owner, Clear).store, other)
  {
    var s' := ApplyUpdate(key, s, owner, Clear).store;
    forall i ensures Lookup(ChunkKey, s'.chunkRows, (other, i)) == Lookup(ChunkKey, s.chunkRows, (other, i)) {
      LookupRetain(ChunkKey, (r: ChunkRow) => r.owner != owner,
                   (q: (Owner, Id)) => q.0 != owner, s.chunkRows, (other, i));
    }
    ChunkRowsOthers(s, s'.chunkRows, other);
    var mid := s.(chunkRows := s'.chunkRows);
    RetainOthers(s.itemRows, (r: ItemRow<G>) => r.owner != owner, (q: (Owner, Position)) => q.0 != owner, other);
    ItemRowsOthers(mid, s'.itemRows, other);
  }

  lemma {:induction false} RetainOthers<G>(rows: seq<ItemRow<G>>, keep: ItemRow<G> -> bool,
                                           keepKey: ((Owner, Position)) -> bool, other: Owner)
    requires forall i :: 0 <= i < |rows| ==> (keep(rows[i]) <==> keepKey(ItemKey(rows[i])))
    requires forall at :: keepKey((other, at))
    ensures forall at :: Lookup(ItemKey<G>, Retain(keep, rows), (other, at)) == Lookup(ItemKey<G>, rows, (other, at))
  {
    forall at ensures Lookup(ItemKey<G>, Retain(keep, rows), (other, at)) == Lookup(ItemKey<G>, rows, (other, at)) {
      LookupRetain(ItemKey<G>, keep, keepKey, rows, (other, at));
      assert keepKey((other, at));
    }
  }

  /**
    A replacement panics exactly when no row or a gap's row comes first at its
    position. Otherwise it leaves all other linked chunks alone exactly when that row is
    its own (or already says the same), and changes the entry of the one it belongs to.
   */
  lemma {:induction false} ReplaceStaysOwnIff<T, G>(key: T -> ItemId, s: Store<T, G>, owner: Owner, at: Position,
                                                    item: T)
    ensures var r, first := ApplyUpdate(key, s, owner, ReplaceItem(at, item)), Lookup(PlaceOf<G>, s.itemRows, at);
            && (r.Panicked? <==> first.None? || first.value.entry.AGap?)
            && (!r.Panicked? ==>
                  && r.Done?
                  && ((forall other :: other != owner ==> SameFor(s, r.store, other))
                      <==> first.value.owner == owner || first.value.entry == AnItem(key(item)))
                  && (first.value.owner != owner ==> EntryIn(r.store, owner, at) == EntryIn(s, owner, at))
                  && EntryIn(r.store, first.value.owner, at) == Some(AnItem(key(item))))
  {
    var r, found := ApplyUpdate(key, s, owner, ReplaceItem(at, item)), Lookup(PlaceOf<G>, s.itemRows, at);
    if r.Done? {
      var s', first := r.store, found.value;
      FirstByPlace(s.itemRows, at);
      forall o: Owner, p: Position
        ensures EntryIn(s', o, p) == if (o, p) == (first.owner, at) then Some(AnItem(key(item))) else EntryIn(s, o, p)
      {
        SetPlaceLookup(s.itemRows, at, AnItem(key(item)), (o, p));
      }
      assert EntryIn(s, first.owner, at) == Some(first.entry);
      if first.owner == owner || first.entry == AnItem(key(item)) {
        forall other | other != owner ensures SameFor(s, s', other) {
          assert forall id :: Links(s', other, id) == Links(s, other, id);
        }
      } else {
        assert EntryIn(s', first.owner, at) != EntryIn(s, first.owner, at);
        assert !SameFor(s, s', first.owner);
      }
    }
  }

  /** One update of the log leaves the other linked chunks alone. */
  lemma {:induction false} EffectSparesOthers<T, G>(key: T -> ItemId, s: Store<T, G>, owner: Owner,
                                                    cs: seq<Chunk<T, G>>, u: Update<T, G>, cs': seq<Chunk<T, G>>,
                                                    other: Owner)
    requires Holds(key, s, owner, cs) && Effect(cs, u) == Some(cs') && Suits(key, s, owner, u, cs')
    requires other != owner
    ensures ApplyUpdate(key, s, owner, u).Done? && SameFor(s, ApplyUpdate(key, s, owner, u).store, other)
  {
    EffectHolds(key, s, owner, cs, u, cs');
    if u.ReplaceItem? {
      ReplaceStaysOwnIff(key, s, owner, u.at, u.item);
    } else {
      OthersUntouched(key, s, owner, u, other);
    }
  }

  /** So does the whole log. */
  lemma {:induction false} LogSparesOthers<T, G>(key: T -> ItemId, s: Store<T, G>, owner: Owner,
                                                 base: seq<Chunk<T, G>>, us: seq<Update<T, G>>,
                                                 cs: seq<Chunk<T, G>>, other: Owner)
    requires Holds(key, s, owner, base) && Logs(base, us, cs) && other != owner
    requires forall i :: 0 <= i < |us| ==> SuitsAt(key, s, owner, base, us, i)
    ensures ApplyLog(key, s, owner, us).Done? && SameFor(s, ApplyLog(key, s, owner, us).store, other)
    decreases |us|
  {
    if us != [] {
      var n := |us| - 1;
      var mid := ReplayLog(base, us[..n]).value;
      SuitsBefore(key, s, owner, base, us, n);
      LogHolds(key, s, owner, base, us[..n], mid);
      LogSparesOthers(key, s, owner, base, us[..n], mid, other);
      assert SuitsAt(key, s, owner, base, us, n);
      assert us[..n + 1] == us;
      var before := ApplyLog(key, s, owner, us[..n]).store;
      EffectSparesOthers(key, before, owner, mid, us[n], cs, other);
      SameForTwice(s, before, ApplyLog(key, s, owner, us).store, other);
    }
  }

  lemma {:induction false} SameForTwice<T, G>(s0: Store<T, G>, s1: Store<T, G>, s2: Store<T, G>, other: Owner)
    requires SameFor(s0, s1, other) && SameFor(s1, s2, other)
    ensures SameFor(s0, s2, other)
  {
    forall id ensures Links(s2, other, id) == Links(s0, other, id) {
      assert Links(s1, other, id) == Links(s0, other, id);
    }
    forall at ensures EntryIn(s2, other, at) == EntryIn(s0, other, at) {
      assert EntryIn(s1, other, at) == EntryIn(s0, other, at);
    }
  }

  lemma {:induction false} SameForHolds<T, G>(key: T -> ItemId, s: Store<T, G>, s': Store<T, G>, other: Owner,
                                              theirs: seq<Chunk<T, G>>)
    requires Holds(key, s, other, theirs) && SameFor(s, s', other)
    requires Unique(ChunkKey, s'.chunkRows) && Unique(ItemKey<G>, s'.itemRows)
    ensures Holds(key, s', other, theirs)
  {
    forall id ensures Links(s', other, id) == LinkAt(theirs, id) {
      assert Links(s, other, id) == LinkAt(theirs, id);
    }
    forall at ensures EntryIn(s', other, at) == EntryAt(key, theirs, at) {
      assert EntryIn(s, other, at) == EntryAt(key, theirs, at);
    }
  }

  /** Linked chunks that share the tables: what one of them logs leaves the others stored as they were. */
  lemma {:induction false} OthersHold<T, G>(key: T -> ItemId, s: Store<T, G>, owner: Owner, base: seq<Chunk<T, G>>,
                                            us: seq<Update<T, G>>, cs: seq<Chunk<T, G>>, other: Owner,
                                            theirs: seq<Chunk<T, G>>)
    requires Holds(key, s, owner, base) && Logs(base, us, cs)
    requires forall i :: 0 <= i < |us| ==> SuitsAt(key, s, owner, base, us, i)
    requires other != owner && Holds(key, s, other, theirs)
    ensures ApplyLog(key, s, owner, us).Done? && Holds(key, ApplyLog(key, s, owner, us).store, other, theirs)
  {
    LogHolds(key, s, owner, base, us, cs);
    LogSparesOthers(key, s, owner, base, us, cs, other);
    SameForHolds(key, s, ApplyLog(key, s, owner, us).store, other, theirs);
  }

  // ---- Refused insertions ----

  /** Linking a row to another keeps which rows there are. */
  lemma {:induction false} LinkKeepsKnown(rows: seq<ChunkRow>, owner: Owner, previous: Option<Id>, target: Option<Id>,
                                          next: Option<Id>)
    ensures Known(LinkNext(rows, owner, previous, target), owner, next) <==> Known(rows, owner, next)
  {
    LinkNextLookup(rows, owner, previous, target);
  }

  /**
    An insertion is refused exactly when the chunk is already there or one of its
    neighbours is not; the first of these in this order is the error. A refused one
    leaves the table as it was, except in one case: only the next chunk is unknown, and
    the previous one now points to a chunk that does not exist.
   */
  lemma {:induction false} RefusedInsertIsCleanIff(rows: seq<ChunkRow>, owner: Owner, previous: Option<Id>, id: Id,
                                                   next: Option<Id>)
    ensures var r, there := InsertRow(rows, owner, previous, id, next), Lookup(ChunkKey, rows, (owner, id)).Some?;
            && !r.Panicked?
            && (r.Refused? <==> there || !Known(rows, owner, previous) || !Known(rows, owner, next))
            && (r.Refused? ==>
                  && r.error == (if there then DuplicateChunkIdentifier(id)
                                 else if !Known(rows, owner, previous) then InvalidChunkIdentifier(previous.value)
                                 else InvalidChunkIdentifier(next.value))
                  && (r.store == rows
                      <==> || there || !Known(rows, owner, previous) || previous.None?
                           || Lookup(ChunkKey, rows, (owner, previous.value)).value.next == Some(id)))
  {
    LinkKeepsKnown(rows, owner, previous, Some(id), next);
    if Lookup(ChunkKey, rows, (owner, id)).None? && Known(rows, owner, previous) && previous.Some? {
      SetAtIsSameIff(ChunkKey, rows, (owner, previous.value), NextSet(Some(id)));
    }
  }

  /** The empty tables hold nothing, for anyone. */
  lemma {:induction false} EmptyHolds<T, G>(key: T -> ItemId, owner: Owner)
    ensures Holds<T, G>(key, Store([], [], map[]), owner, [])
  {}

  const FIRST_PLACE := Position(0, 0)

  function OneItem(x: string): seq<Chunk<string, ()>> { [Chunk(0, Items([x]))] }

  /** Two linked chunks with one item each. */
  lemma {:induction false} TwoRooms(key: string -> ItemId, a: string, b: string) returns (s: Store<string, ()>)
    ensures Holds(key, s, 0, OneItem(a)) && Holds(key, s, 1, OneItem(b))
    ensures s.itemRows == [ItemRow(0, FIRST_PLACE, AnItem(key(a))), ItemRow(1, FIRST_PLACE, AnItem(key(b)))]
  {
    s := Store([], [], map[]);
    EmptyHolds<string, ()>(key, 0);
    EmptyHolds<string, ()>(key, 1);
    s := AddRoom(key, s, 0, a, 1, []);
    s := AddRoom(key, s, 1, b, 0, OneItem(a));
  }

  lemma {:induction false} PushSingle<T, G>(key: T -> ItemId, s: Store<T, G>, owner: Owner, at: Position, x: T)
    ensures PushAll(key, s, owner, at, [x]) == PushOne(key, s, owner, at, x)
  {
    assert [x][..0] == [] && [x][0] == x;
    assert PushAll(key, s, owner, at, [x][..0]) == s;
    assert Position(at.chunk, at.index + 0) == at;
  }

  lemma {:induction false} FlatOne<T, G>(c: Chunk<T, G>)
    ensures Flat([c]) == ItemsOf(c)
  {
    assert [c][1..] == [];
    assert Gather(ItemsOf<T, G>, [c]) == ItemsOf(c) + Gather(ItemsOf<T, G>, [c][1..]);
  }

  lemma {:induction false} AddRoom(key: string -> ItemId, s: Store<string, ()>, owner: Owner, x: string,
                                   other: Owner, theirs: seq<Chunk<string, ()>>) returns (s': Store<string, ()>)
    requires other != owner && Holds(key, s, owner, []) && Holds(key, s, other, theirs)
    ensures Holds(key, s', owner, OneItem(x)) && Holds(key, s', other, theirs)
    ensures s'.itemRows == s.itemRows + [ItemRow(owner, FIRST_PLACE, AnItem(key(x)))]
  {
    var added: Update<string, ()> := NewItemsChunk(None, 0, None);
    var empty: seq<Chunk<string, ()>> := [Chunk(0, Items([]))];
    assert InsertedAt([], 0, empty[0]) == empty;
    assert Effect([], added) == Some(empty);
    EffectHolds(key, s, owner, [], added, empty);
    EffectSparesOthers(key, s, owner, [], added, empty, other);
    var mid := ApplyUpdate(key, s, owner, added).store;
    SameForHolds(key, s, mid, other, theirs);
    var push: Update<string, ()> := PushItems(FIRST_PLACE, [x]);
    LocateIs(empty, 0);
    assert [] + [x] == [x];
    assert Extended(empty, 0, [x]) == OneItem(x);
    assert Effect(empty, push) == Some(OneItem(x));
    FlatOne(OneItem(x)[0]);
    EffectHolds(key, mid, owner, empty, push, OneItem(x));
    EffectSparesOthers(key, mid, owner, empty, push, OneItem(x), other);
    s' := ApplyUpdate(key, mid, owner, push).store;
    SameForHolds(key, mid, s', other, theirs);
    PushSingle(key, mid, owner, FIRST_PLACE, x);
  }

  /** The wrong row is reached in practice: replacing the item of one room changes what another room has stored. */
  lemma {:induction false} ReplaceReachesAnotherRoom(key: string -> ItemId, a: string, b: string, c: string)
    returns (s: Store<string, ()>, s': Store<string, ()>)
    requires key(a) != key(c) && key(b) != key(c)
    ensures Holds(key, s, 0, OneItem(a)) && Holds(key, s, 1, OneItem(b))
    ensures ApplyUpdate(key, s, 1, ReplaceItem(FIRST_PLACE, c)) == Done(s')
    ensures Effect(OneItem(b), ReplaceItem(FIRST_PLACE, c)) == Some(OneItem(c))
    ensures !Holds(key, s', 0, OneItem(a)) && !Holds(key, s', 1, OneItem(c))
  {
    s := TwoRooms(key, a, b);
    s' := ApplyUpdate(key, s, 1, ReplaceItem(FIRST_PLACE, c)).store;
    ReplaceStaysOwnIff(key, s, 1, FIRST_PLACE, c);
    LocateIs(OneItem(a), 0);
    LocateIs(OneItem(b), 0);
    LocateIs(OneItem(c), 0);
    assert [b][0 := c] == [c];
    assert WithItems(OneItem(b), 0, [c]) == OneItem(c);
    assert EntryIn(s', 0, FIRST_PLACE) != EntryAt(key, OneItem(a), FIRST_PLACE);
    assert EntryIn(s, 1, FIRST_PLACE) == EntryAt(key, OneItem(b), FIRST_PLACE);
    assert EntryIn(s', 1, FIRST_PLACE) != EntryAt(key, OneItem(c), FIRST_PLACE);
  }

  /** And a gap of another room makes the replacement panic. */
  lemma {:induction false} ReplacePanicsOnAnotherRoomsGap(key: string -> ItemId, b: string, c: string)
    returns (s: Store<string, ()>)
    ensures Holds(key, s, 0, [Chunk(0, Gap(()))]) && Holds(key, s, 1, OneItem(b))
    ensures Effect(OneItem(b), ReplaceItem(FIRST_PLACE, c)) == Some(OneItem(c))
    ensures ApplyUpdate(key, s, 1, ReplaceItem(FIRST_PLACE, c)) == Panicked
  {
    s := Store([], [], map[]);
    EmptyHolds<string, ()>(key, 0);
    EmptyHolds<string, ()>(key, 1);
    var gap: Update<string, ()> := NewGapChunk(None, 0, None, ());
    var theirs: seq<Chunk<string, ()>> := [Chunk(0, Gap(()))];
    assert InsertedAt([], 0, theirs[0]) == theirs;
    assert Effect([], gap) == Some(theirs);
    EffectHolds(key, s, 0, [], gap, theirs);
    EffectSparesOthers(key, s, 0, [], gap, theirs, 1);
    var mid := ApplyUpdate(key, s, 0, gap).store;
    SameForHolds(key, s, mid, 1, []);
    s := AddRoom(key, mid, 1, b, 0, theirs);
    LocateIs(OneItem(b), 0);
    assert [b][0 := c] == [c];
    assert WithItems(OneItem(b), 0, [c]) == OneItem(c);
  }

  /** Two items with one identifier: a push that the tables do not hold. */
  lemma {:induction false} SameIdentifierIsNotStored(key: string -> ItemId, a: string, b: string)
    returns (s: Store<string, ()>)
    requires key(a) == key(b) && a != b
    ensures Holds(key, s, 0, OneItem(a))
    ensures var cs' := Extended(OneItem(a), 0, [b]);
            var r := ApplyUpdate(key, s, 0, Pushed(OneItem(a), 0, [b]));
            r.Done? && !Holds(key, r.store, 0, cs')
  {
    s := TwoRooms(key, a, a);
    var cs' := Extended(OneItem(a), 0, [b]);
    FlatOne(cs'[0]);
    assert cs' == [cs'[0]];
    assert Flat(cs') == [a, b];
    assert a in Flat(cs') && b in Flat(cs');
    PushStoredIff(key, s, 0, OneItem(a), 0, [b]);
  }

  /** A refused insertion after which the last chunk points to one that does not exist. */
  lemma {:induction false} RefusedInsertLeavesDanglingLink()
    ensures var rows := [ChunkRow(0, None, 0, None)];
            && InsertRow(rows, 0, Some(0), 1, Some(2))
               == Refused([ChunkRow(0, None, 0, Some(1))], InvalidChunkIdentifier(2))
            && Lookup(ChunkKey, [ChunkRow(0, None, 0, Some(1))], (0, 1)) == None
  {
    var rows := [ChunkRow(0, None, 0, None)];
    assert SetAt(ChunkKey, rows, (0, 0), NextSet(Some(1))) == [ChunkRow(0, None, 0, Some(1))];
  }
}
