/** `RelationalLinkedChunk` itself: the loops over its tables. */
module RelationalLinkedChunks {
  import opened Sequences
  import opened Chunks
  import opened ChunkSync
  import opened ChunkLog
  import opened Tables
  import opened RelationalStore
  import opened RelationalLoading
  import LinkedChunks

  /** How applying updates ended; `Panic` is a failed `expect` or `assert!`. */
  datatype Status = Accepted | Rejected(error: Error) | Panic

  ghost predicate Ends<S>(status: Status, now: S, outcome: Outcome<S>) {
    match outcome
    case Done(s) => status == Accepted && now == s
    case Refused(s, e) => status == Rejected(e) && now == s
    case Panicked => status == Panic
  }

  /** `iter().position(..)`, by key. */
  method Find<R, P(==)>(key: R -> P, rows: seq<R>, p: P) returns (i: Option<nat>)
    ensures i.Some? ==> FirstAt(key, rows, p, i.value) && Lookup(key, rows, p) == Some(rows[i.value])
    ensures i.None? ==> Lookup(key, rows, p) == None
  {
    var n := 0;
    while n < |rows|
      invariant 0 <= n <= |rows|
      invariant forall j :: 0 <= j < n ==> key(rows[j]) != p
    {
      if key(rows[n]) == p {
        FirstAtIs(key, rows, p, (r: R) => r, n);
        return Some(n);
      }
      n := n + 1;
    }
    ghost var found := Lookup(key, rows, p);
    if found.Some? {
      LookupIsThere(key, rows, p);
    }
    i := None;
  }

  /** `retain`, and the removal of collected indices from the back. */
  method RetainRows<R>(keep: R -> bool, rows: seq<R>) returns (kept: seq<R>)
    ensures kept == Retain(keep, rows)
  {
    kept := [];
    var n := 0;
    while n < |rows|
      invariant 0 <= n <= |rows|
      invariant kept == Retain(keep, rows[..n])
    {
      assert rows[..n + 1] == rows[..n] + [rows[n]];
      RetainSnoc(keep, rows[..n], rows[n]);
      if keep(rows[n]) {
        kept := kept + [rows[n]];
      }
      n := n + 1;
    }
    assert rows[..n] == rows;
  }

  class RelationalLinkedChunk<T, G> {
    const key: T -> ItemId
    var chunkRows: seq<ChunkRow>
    var itemRows: seq<ItemRow<G>>
    var items: map<(Owner, ItemId), T>

    ghost function View(): Store<T, G>
      reads this
    {
      Store(chunkRows, itemRows, items)
    }

    constructor (key: T -> ItemId)
      ensures this.key == key && View() == Store([], [], map[])
    {
      this.key := key;
      chunkRows, itemRows, items := [], [], map[];
    }

    // ---- Writing ----

    /** Lets the row of `id` point to `target`; false if there is no such row. */
    method SetNext(owner: Owner, id: Option<Id>, target: Option<Id>) returns (ok: bool)
      modifies this
      ensures itemRows == old(itemRows) && items == old(items)
      ensures ok <==> Known(old(chunkRows), owner, id)
      ensures chunkRows == if ok then LinkNext(old(chunkRows), owner, id, target) else old(chunkRows)
    {
      if id.None? {
        return true;
      }
      var i := Find(ChunkKey, chunkRows, (owner, id.value));
      if i.None? {
        return false;
      }
      FirstAtIs(ChunkKey, chunkRows, (owner, id.value), NextSet(target), i.value);
      chunkRows := chunkRows[i.value := chunkRows[i.value].(next := target)];
      ok := true;
    }

    method SetPrevious(owner: Owner, id: Option<Id>, target: Option<Id>) returns (ok: bool)
      modifies this
      ensures itemRows == old(itemRows) && items == old(items)
      ensures ok <==> Known(old(chunkRows), owner, id)
      ensures chunkRows == if ok then LinkPrevious(old(chunkRows), owner, id, target) else old(chunkRows)
    {
      if id.None? {
        return true;
      }
      var i := Find(ChunkKey, chunkRows, (owner, id.value));
      if i.None? {
        return false;
      }
      FirstAtIs(ChunkKey, chunkRows, (owner, id.value), PreviousSet(target), i.value);
      chunkRows := chunkRows[i.value := chunkRows[i.value].(previous := target)];
      ok := true;
    }

    method InsertChunk(owner: Owner, previous: Option<Id>, id: Id, next: Option<Id>) returns (status: Status)
      modifies this
      ensures itemRows == old(itemRows) && items == old(items)
      ensures Ends(status, chunkRows, InsertRow(old(chunkRows), owner, previous, id, next))
    {
      var known := Find(ChunkKey, chunkRows, (owner, id));
      if known.Some? {
        return Rejected(DuplicateChunkIdentifier(id));
      }
      var ok := SetNext(owner, previous, Some(id));
      if !ok {
        return Rejected(InvalidChunkIdentifier(previous.value));
      }
      ok := SetPrevious(owner, next, Some(id));
      if !ok {
        return Rejected(InvalidChunkIdentifier(next.value));
      }
      chunkRows := chunkRows + [ChunkRow(owner, previous, id, next)];
      status := Accepted;
    }

    method RemoveChunkRow(owner: Owner, id: Id) returns (status: Status)
      modifies this
      ensures itemRows == old(itemRows) && items == old(items)
      ensures Ends(status, chunkRows, RemoveRow(old(chunkRows), owner, id))
    {
      var i := Find(ChunkKey, chunkRows, (owner, id));
      if i.None? {
        return Panic;
      }
      var row := chunkRows[i.value];
      FirstAtIs(ChunkKey, chunkRows, (owner, id), (r: ChunkRow) => r, i.value);
      chunkRows := chunkRows[..i.value] + chunkRows[i.value + 1..];
      var ok := SetNext(owner, row.previous, row.next);
      if !ok {
        return Panic;
      }
      ok := SetPrevious(owner, row.next, row.previous);
      if !ok {
        return Panic;
      }
      status := Accepted;
    }

    method PushItemRows(owner: Owner, at: Position, pushed: seq<T>)
      modifies this
      ensures View() == PushAll(key, old(View()), owner, at, pushed)
    {
      var position := at;
      var n := 0;
      while n < |pushed|
        invariant 0 <= n <= |pushed|
        invariant position == Position(at.chunk, at.index + n)
        invariant View() == PushAll(key, old(View()), owner, at, pushed[..n])
      {
        var id := key(pushed[n]);
        items := items[(owner, id) := pushed[n]];
        itemRows := itemRows + [ItemRow(owner, position, AnItem(id))];
        position := Position(position.chunk, position.index + 1);
        assert pushed[..n + 1][..n] == pushed[..n];
        n := n + 1;
      }
      assert pushed[..n] == pushed;
    }

    method ReplaceItemRow(owner: Owner, at: Position, item: T) returns (status: Status)
      modifies this
      ensures Ends(status, View(), ApplyUpdate(key, old(View()), owner, ReplaceItem(at, item)))
    {
      var i := Find(PlaceOf<G>, itemRows, at);
      if i.None? || itemRows[i.value].entry.AGap? {
        return Panic;
      }
      var id := key(item);
      FirstAtIs(PlaceOf<G>, itemRows, at, EntrySet(AnItem(id)), i.value);
      items := items[(owner, id) := item];
      itemRows := itemRows[i.value := itemRows[i.value].(entry := AnItem(id))];
      status := Accepted;
    }

    method RemoveItemRow(owner: Owner, at: Position) returns (status: Status)
      modifies this
      ensures Ends(status, View(), ApplyUpdate(key, old(View()), owner, RemoveItem(at)))
    {
      ghost var rows := itemRows;
      var toRemove: Option<nat> := None;
      var moved: seq<ItemRow<G>> := [];
      var n := 0;
      while n < |itemRows|
        invariant 0 <= n <= |itemRows| && |moved| == n
        invariant itemRows == rows && chunkRows == old(chunkRows) && items == old(items)
        invariant forall j :: 0 <= j < n ==> moved[j] == MovedUp<G>(owner, at)(rows[j])
        invariant toRemove.None? ==> forall j :: 0 <= j < n ==> ItemKey(rows[j]) != (owner, at)
        invariant toRemove.Some? ==> toRemove.value < n && ItemKey(rows[toRemove.value]) == (owner, at)
        invariant toRemove.Some? ==> forall j :: toRemove.value < j < n ==> ItemKey(rows[j]) != (owner, at)
      {
        var row := itemRows[n];
        if row.owner == owner {
          if row.at == at {
            toRemove := Some(n);
          }
          if row.at.chunk == at.chunk && row.at.index > at.index {
            row := row.(at := Position(row.at.chunk, row.at.index - 1));
          }
        }
        moved := moved + [row];
        n := n + 1;
      }
      if toRemove.None? {
        NothingToFind(rows, (owner, at));
        return Panic;
      }
      var i := toRemove.value;
      RemovedRows(rows, owner, at, i, moved);
      itemRows := moved[..i] + moved[i + 1..];
      status := Accepted;
    }

    /** The `match` in `apply_updates`. */
    method ApplyOne(owner: Owner, u: Update<T, G>) returns (status: Status)
      modifies this
      ensures Ends(status, View(), ApplyUpdate(key, old(View()), owner, u))
    {
      status := Accepted;
      match u
      case NewItemsChunk(previous, id, next) => status := InsertChunk(owner, previous, id, next);
      case NewGapChunk(previous, id, next, gap) =>
        status := InsertChunk(owner, previous, id, next);
        if status == Accepted {
          itemRows := itemRows + [ItemRow(owner, Position(id, 0), AGap(gap))];
        }
      case RemoveChunk(id) =>
        status := RemoveChunkRow(owner, id);
        if status == Accepted {
          itemRows := RetainRows(OutsideChunk<G>(owner, id), itemRows);
        }
      case PushItems(at, pushed) => PushItemRows(owner, at, pushed);
      case ReplaceItem(at, item) => status := ReplaceItemRow(owner, at, item);
      case RemoveItem(at) => status := RemoveItemRow(owner, at);
      case DetachLastItems(at) => itemRows := RetainRows(BeforeEnd<G>(owner, at), itemRows);
      case StartReattachItems =>
      case EndReattachItems =>
      case Clear =>
        chunkRows := RetainRows((r: ChunkRow) => r.owner != owner, chunkRows);
        itemRows := RetainRows((r: ItemRow<G>) => r.owner != owner, itemRows);
    }

    method ApplyUpdates(owner: Owner, updates: seq<Update<T, G>>) returns (status: Status)
      modifies this
      ensures Ends(status, View(), ApplyLog(key, old(View()), owner, updates))
    {
      status := Accepted;
      var n := 0;
      while n < |updates|
        invariant 0 <= n <= |updates| && status == Accepted
        invariant ApplyLog(key, old(View()), owner, updates[..n]) == Done(View())
      {
        assert updates[..n + 1][..n] == updates[..n];
        status := ApplyOne(owner, updates[n]);
        n := n + 1;
        if status != Accepted {
          EarlyEnd(key, old(View()), owner, updates, n);
          return;
        }
      }
      assert updates[..n] == updates;
    }

    // ---- Reading ----

    method LoadRawChunk(owner: Owner, row: ChunkRow) returns (r: Option<RawChunk<T, G>>)
      ensures r == LoadRaw(View(), owner, row)
    {
      var rows := RetainRows(Inside<G>(owner, row.id), itemRows);
      if |rows| == 0 {
        return Some(RawChunk(Items([]), row.previous, row.id, row.next));
      }
      match rows[0].entry
      case AnItem(_) =>
        var n := 0;
        while n < |rows|
          invariant 0 <= n <= |rows|
          invariant forall j :: 0 <= j < n ==> rows[j].entry.AnItem?
        {
          if rows[n].entry.AGap? {
            return None;
          }
          n := n + 1;
        }
        var contents := CollectContents(owner, SortByIndex(rows));
        r := Some(RawChunk(Items(contents), row.previous, row.id, row.next));
      case AGap(gap) =>
        if |rows| > 1 {
          return None;
        }
        r := Some(RawChunk(Gap(gap), row.previous, row.id, row.next));
    }

    method CollectContents(owner: Owner, rows: seq<ItemRow<G>>) returns (contents: seq<T>)
      ensures contents == ContentsOf(View(), owner, rows)
    {
      contents := [];
      var n := 0;
      while n < |rows|
        invariant 0 <= n <= |rows|
        invariant contents == ContentsOf(View(), owner, rows[..n])
      {
        assert rows[..n + 1][..n] == rows[..n];
        var entry := rows[n].entry;
        if entry.AnItem? && (owner, entry.key) in items {
          contents := contents + [items[(owner, entry.key)]];
        }
        n := n + 1;
      }
      assert rows[..n] == rows;
    }

    /** The chunk with no next one, and the largest identifier, after which new ones are to be generated. */
    method LoadLastChunk(owner: Owner) returns (r: Load<T, G>, lastId: Id)
      ensures r == LoadLast(View(), owner)
      ensures forall i :: 0 <= i < |chunkRows| && chunkRows[i].owner == owner ==> chunkRows[i].id <= lastId
      ensures lastId == LinkedChunks.FIRST_IDENTIFIER || Lookup(ChunkKey, chunkRows, (owner, lastId)).Some?
    {
      lastId := LinkedChunks.FIRST_IDENTIFIER;
      var any := false;
      var n := 0;
      while n < |chunkRows|
        invariant 0 <= n <= |chunkRows|
        invariant any <==> exists i :: 0 <= i < n && chunkRows[i].owner == owner
        invariant forall i :: 0 <= i < n && chunkRows[i].owner == owner ==> chunkRows[i].id <= lastId
        invariant lastId == LinkedChunks.FIRST_IDENTIFIER
                  || exists i :: 0 <= i < n && chunkRows[i].owner == owner && chunkRows[i].id == lastId
      {
        if chunkRows[n].owner == owner {
          any := true;
          if chunkRows[n].id > lastId {
            lastId := chunkRows[n].id;
          }
        }
        n := n + 1;
      }
      var i := Find(NextKey, chunkRows, (owner, None));
      if i.None? {
        r := if any then Malformed else Loaded(None);
      } else {
        var raw := LoadRawChunk(owner, chunkRows[i.value]);
        r := AsLoad(raw);
      }
    }

    method LoadPreviousChunk(owner: Owner, before: Id) returns (r: Load<T, G>)
      ensures r == LoadPrevious(View(), owner, before)
    {
      var i := Find(NextKey, chunkRows, (owner, Some(before)));
      if i.None? {
        return Loaded(None);
      }
      var raw := LoadRawChunk(owner, chunkRows[i.value]);
      r := AsLoad(raw);
    }

    /**
      Loading a stored linked chunk lazily, until nothing comes before its first
      chunk: no check of the loader fails, and the chunks are those that were stored.
     */
    method Reload(owner: Owner, capacity: nat, ghost cs: seq<Chunk<T, G>>) returns (r: Option<seq<Chunk<T, G>>>,
                  lastId: Id)
      requires Holds(key, View(), owner, cs)
      requires forall k :: 0 <= k < |cs| ==> |ItemsOf(cs[k])| <= capacity
      ensures r == Some(cs)
      ensures forall k :: 0 <= k < |cs| ==> cs[k].id <= lastId
    {
      var last;
      last, lastId := LoadLastChunk(owner);
      LoadsLast(key, View(), owner, cs);
      IdsBelow(key, View(), owner, cs, lastId);
      if last.raw.None? {
        return Some([]), lastId;
      }
      StartsFromLast(capacity, cs);
      assert last.raw == Some(Raw(cs, |cs| - 1));
      var loaded := FromLast(capacity, last.raw.value);
      ghost var k := |cs| - 1;
      while loaded.Connected? && loaded.lazyPrevious.Some?
        invariant 0 <= k < |cs| && loaded == ConnectedFrom(cs, k)
        decreases k
      {
        loaded := ConnectPrevious(owner, capacity, loaded.chunks, loaded.lazyPrevious, cs, k);
        k := k - 1;
      }
      assert k == 0 && loaded.chunks == cs[0..] == cs;
      r := Some(loaded.chunks);
    }

    /** One chunk further back. */
    method ConnectPrevious(owner: Owner, capacity: nat, chunks: seq<Chunk<T, G>>, lazyPrevious: Option<Id>,
                           ghost cs: seq<Chunk<T, G>>, ghost k: nat) returns (r: LazyResult<T, G>)
      requires Holds(key, View(), owner, cs) && 0 < k < |cs| && |ItemsOf(cs[k - 1])| <= capacity
      requires chunks == cs[k..] && lazyPrevious == PreviousId(cs, k)
      ensures r == ConnectedFrom(cs, k - 1)
    {
      LoadsPrevious(key, View(), owner, cs, k);
      var previous := LoadPreviousChunk(owner, chunks[0].id);
      GoesOnWithPrevious(capacity, cs, k);
      r := InsertNewFirst(capacity, chunks, lazyPrevious, previous.raw.value);
    }

    /**
      What was taken from a linked chunk is stored, with nothing refused: tables that
      held its chunks the last time hold them again, and all other linked chunks in
      the same tables stay as they were.
     */
    method Persist(owner: Owner, source: LinkedChunks.LinkedChunk<T, G>) returns (status: Status)
      requires source.Valid() && Holds(key, View(), owner, source.base)
      requires forall i :: 0 <= i < |source.updates| ==> SuitsAt(key, View(), owner, source.base, source.updates, i)
      modifies this, source
      ensures source.Valid() && source.chunks == old(source.chunks) && source.base == source.chunks
      ensures status == Accepted && Holds(key, View(), owner, source.chunks)
      ensures forall other :: other != owner ==> SameFor(old(View()), View(), other)
      ensures forall other, theirs :: other != owner && Holds(key, old(View()), other, theirs) ==>
                                        Holds(key, View(), other, theirs)
    {
      ghost var base, before := source.base, View();
      var updates := source.Take();
      LogHolds(key, before, owner, base, updates, source.chunks);
      forall other | other != owner ensures SameFor(before, ApplyLog(key, before, owner, updates).store, other) {
        LogSparesOthers(key, before, owner, base, updates, source.chunks, other);
      }
      status := ApplyUpdates(owner, updates);
      forall other, theirs | other != owner && Holds(key, before, other, theirs)
        ensures Holds(key, View(), other, theirs)
      {
        SameForHolds(key, before, View(), other, theirs);
      }
    }
  }

  lemma {:induction false} NothingToFind<G>(rows: seq<ItemRow<G>>, p: (Owner, Position))
    requires forall j :: 0 <= j < |rows| ==> ItemKey(rows[j]) != p
    ensures Lookup(ItemKey<G>, rows, p) == None
  {
    if Lookup(ItemKey<G>, rows, p).Some? {
      LookupIsThere(ItemKey<G>, rows, p);
    }
  }

  lemma {:induction false} RemovedRows<G>(rows: seq<ItemRow<G>>, owner: Owner, at: Position, i: nat,
                                          moved: seq<ItemRow<G>>)
    requires i < |rows| && ItemKey(rows[i]) == (owner, at) &&
      forall j :: i < j < |rows| ==> ItemKey(rows[j]) != (owner, at)
    requires |moved| == |rows| && forall j :: 0 <= j < |rows| ==> moved[j] == MovedUp<G>(owner, at)(rows[j])
    ensures Lookup(ItemKey<G>, rows, (owner, at)).Some?
    ensures moved[..i] + moved[i + 1..] == RowsWithout(rows, owner, at)
  {
    DropLastIs(ItemKey<G>, rows, (owner, at), i);
    assert ItemKey<G>(rows[i]) == (owner, at);
  }

  lemma {:induction false} EarlyEnd<T, G>(key: T -> ItemId, s: Store<T, G>, owner: Owner, us: seq<Update<T, G>>, n: nat)
    requires n <= |us| && !ApplyLog(key, s, owner, us[..n]).Done?
    ensures ApplyLog(key, s, owner, us) == ApplyLog(key, s, owner, us[..n])
    decreases |us|
  {
    if n < |us| {
      var m := |us| - 1;
      assert us[..m][..n] == us[..n];
      EarlyEnd(key, s, owner, us[..m], n);
    } else {
      assert us[..n] == us;
    }
  }

  lemma {:induction false} IdsBelow<T, G>(key: T -> ItemId, s: Store<T, G>, owner: Owner, cs: seq<Chunk<T, G>>,
                                          lastId: Id)
    requires Holds(key, s, owner, cs)
    requires forall i :: 0 <= i < |s.chunkRows| && s.chunkRows[i].owner == owner ==> s.chunkRows[i].id <= lastId
    ensures forall k :: 0 <= k < |cs| ==> cs[k].id <= lastId
  {
    forall k | 0 <= k < |cs| ensures cs[k].id <= lastId {
      LocateIs(cs, k);
      assert Links(s, owner, cs[k].id) == LinkAt(cs, cs[k].id);
      LookupIsThere(ChunkKey, s.chunkRows, (owner, cs[k].id));
    }
  }
}
