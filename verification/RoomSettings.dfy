/**
  Per-room encryption settings. Each setter loads the room's record, changes one
  field and saves the whole record back.
 */
module RoomSettings {
  import opened Sequences

  type RoomId = string

  datatype Settings = Settings(
    algorithm: string, onlyAllowTrustedDevices: bool,
    sessionRotationPeriod: Option<nat>, sessionRotationPeriodMessages: Option<nat>)

  const DEFAULT := Settings("m.megolm.v1.aes-sha2", false, None, None)

  datatype Change = Algorithm(algorithm: string) | TrustedOnly(trustedOnly: bool)

  datatype Kind = KAlgorithm | KTrustedOnly

  type Store = map<RoomId, Settings>

  function KindOf(c: Change): Kind { if c.Algorithm? then KAlgorithm else KTrustedOnly }

  /** `get_room_settings(..).unwrap_or_default()`. */
  function Load(store: Store, room: RoomId): Settings {
    if room in store then store[room] else DEFAULT
  }

  function Update(c: Change, s: Settings): Settings {
    match c
    case Algorithm(a) => s.(algorithm := a)
    case TrustedOnly(t) => s.(onlyAllowTrustedDevices := t)
  }

  /** The value of one setting, in the form in which it is written. */
  function Current(store: Store, room: RoomId, k: Kind): Change {
    match k
    case KAlgorithm => Algorithm(Load(store, room).algorithm)
    case KTrustedOnly => TrustedOnly(Load(store, room).onlyAllowTrustedDevices)
  }

  // ---- One call at a time ----

  datatype Call = Call(room: RoomId, change: Change)

  function AfterCall(c: Call, store: Store): Store {
    store[c.room := Update(c.change, Load(store, c.room))]
  }

  /** The fields no setter is about. */
  function RotationOf(store: Store, room: RoomId): (Option<nat>, Option<nat>) {
    (Load(store, room).sessionRotationPeriod, Load(store, room).sessionRotationPeriodMessages)
  }

  /** The machine's store; reads and writes of it can fail, and so can parsing a room ID. */
  class OlmMachine {
    var store: Store

    constructor ()
      ensures store == map[]
    {
      store := map[];
    }

    /** The common part of `set_room_algorithm` and `set_room_only_allow_trusted_devices`. */
    method SetRoom(room: RoomId, change: Change, parsed: bool, loaded: bool, saved: bool) returns (ok: bool)
      modifies this
      ensures ok <==> parsed && loaded && saved
      ensures !ok ==> store == old(store)
      ensures ok ==> Current(store, room, KindOf(change)) == change
      ensures forall r, k :: r != room || k != KindOf(change) ==> Current(store, r, k) == Current(old(store), r, k)
      ensures forall r :: RotationOf(store, r) == RotationOf(old(store), r)
      ensures forall r :: r != room ==> (r in store <==> r in old(store))
      ensures ok ==> store == AfterCall(Call(room, change), old(store))
    {
      if !parsed || !loaded {
        return false;
      }
      var settings := if room in store then store[room] else DEFAULT;
      match change {
        case Algorithm(a) => settings := settings.(algorithm := a);
        case TrustedOnly(t) => settings := settings.(onlyAllowTrustedDevices := t);
      }
      if saved {
        store := store[room := settings];
      }
      ok := saved;
    }
  }

  function Writers(room: RoomId, k: Kind): Call -> bool {
    (c: Call) => c.room == room && KindOf(c.change) == k
  }

  /**
    After any serial run each setting of each room holds the last value written to
    it, or what it held before if it was never written.
   */
  lemma SerialRunKeepsLastWrite(initial: Store, calls: seq<Call>, room: RoomId, k: Kind)
    ensures forall i: nat :: IsLast(Writers(room, k), calls, i) ==>
              Current(Fold(AfterCall, initial, calls), room, k) == calls[i].change
    ensures Never(Writers(room, k), calls) ==>
              Current(Fold(AfterCall, initial, calls), room, k) == Current(initial, room, k)
  {
    LastWriteWins(AfterCall, initial, calls, (s: Store) => Current(s, room, k),
                  Writers(room, k), (c: Call) => c.change);
  }

  /** The fields no setter is about stay what they were. */
  lemma {:induction false} OtherFieldsUntouched(initial: Store, calls: seq<Call>, room: RoomId)
    ensures var before, after := Load(initial, room), Load(Fold(AfterCall, initial, calls), room);
            && after.sessionRotationPeriod == before.sessionRotationPeriod
            && after.sessionRotationPeriodMessages == before.sessionRotationPeriodMessages
  {
    if calls != [] {
      OtherFieldsUntouched(initial, calls[..|calls| - 1], room);
    }
  }

  /** Setters of different fields, or of different rooms, commute. */
  lemma SettersCommute(store: Store, a: Call, b: Call)
    requires a.room != b.room || KindOf(a.change) != KindOf(b.change)
    ensures AfterCall(a, AfterCall(b, store)) == AfterCall(b, AfterCall(a, store))
  {}

  // ---- Interleaved calls ----

  type CallId = nat

  /** A call that has loaded the record and not yet saved it. */
  datatype Pending = Pending(call: Call, loaded: Settings)

  datatype State = State(store: Store, pending: map<CallId, Pending>)

  datatype Action = Read(id: CallId, call: Call) | Save(id: CallId)

  predicate Enabled(s: State, a: Action) {
    match a
    case Read(id, _) => id !in s.pending
    case Save(id) => id in s.pending
  }

  function Step(s: State, a: Action): State
    requires Enabled(s, a)
  {
    match a
    case Read(id, call) => s.(pending := s.pending[id := Pending(call, Load(s.store, call.room))])
    case Save(id) =>
      var p := s.pending[id];
      State(s.store[p.call.room := Update(p.call.change, p.loaded)], s.pending - {id})
  }

  ghost predicate IsRun(run: seq<Action>, states: seq<State>) {
    && |states| == |run| + 1
    && states[0].pending == map[]
    && forall i :: 0 <= i < |run| ==> Enabled(states[i], run[i]) && states[i + 1] == Step(states[i], run[i])
  }

  /** Step `n` is the save of a call that loaded its record at step `i`. */
  ghost predicate Spans(run: seq<Action>, states: seq<State>, i: nat, n: nat) {
    && i < n < |run| < |states|
    && run[i].Read? && run[n].Save? && run[i].id == run[n].id
    && run[n].id in states[n].pending
    && states[n].pending[run[n].id] == Pending(run[i].call, Load(states[i].store, run[i].call.room))
    && forall j :: i < j < n ==> run[j].id != run[n].id
  }

  lemma {:induction false} LoadedWhen(run: seq<Action>, states: seq<State>, id: CallId, n: nat) returns (i: nat)
    requires IsRun(run, states) && n < |states| && id in states[n].pending
    ensures i < n && run[i].Read? && run[i].id == id
    ensures states[n].pending[id] == Pending(run[i].call, Load(states[i].store, run[i].call.room))
    ensures forall j :: i < j < n ==> run[j].id != id
  {
    if run[n - 1].id == id {
      i := n - 1;
    } else {
      i := LoadedWhen(run, states, id, n - 1);
    }
  }

  lemma SaveSpans(run: seq<Action>, states: seq<State>, n: nat) returns (i: nat)
    requires IsRun(run, states) && n < |run| && run[n].Save?
    ensures Spans(run, states, i, n)
  {
    i := LoadedWhen(run, states, run[n].id, n);
  }

  /** Step `l` saves the same room and either writes the same setting, or loaded before step `j`. */
  ghost predicate Clobbers(run: seq<Action>, states: seq<State>, j: nat, l: nat, room: RoomId, k: Kind) {
    exists i: nat :: Spans(run, states, i, l) && run[i].call.room == room && (KindOf(run[i].call.change) == k || i < j)
  }

  /** A written value is still there as long as nothing clobbered it. */
  lemma {:induction false} UnclobberedSurvives(run: seq<Action>, states: seq<State>, j: nat, n: nat)
    requires IsRun(run, states) && j < n < |states| && run[j].Save?
    requires var c := states[j].pending[run[j].id].call;
             forall l :: j < l < n ==> !Clobbers(run, states, j, l, c.room, KindOf(c.change))
    ensures var c := states[j].pending[run[j].id].call;
            Current(states[n].store, c.room, KindOf(c.change)) == c.change
  {
    var c := states[j].pending[run[j].id].call;
    if n > j + 1 {
      UnclobberedSurvives(run, states, j, n - 1);
      var l := n - 1;
      if run[l].Save? && states[l].pending[run[l].id].call.room == c.room {
        var i := SaveSpans(run, states, l);
        assert !Clobbers(run, states, j, l, c.room, KindOf(c.change));
        assert i != j;
        UnclobberedSurvives(run, states, j, i);
      }
    }
  }

  /** A save of the other setting puts back what its call had loaded. */
  lemma OverlapRestoresLoadedValue(run: seq<Action>, states: seq<State>, i: nat, l: nat, k: Kind)
    requires IsRun(run, states) && Spans(run, states, i, l) && KindOf(run[i].call.change) != k
    ensures Current(states[l + 1].store, run[i].call.room, k) == Current(states[i].store, run[i].call.room, k)
  {}

  // ---- When a setting is what was written to it last ----

  /** The call that step `n` finds pending under `id`: read off the actions alone. */
  function CallAt(run: seq<Action>, n: nat, id: CallId): Option<Call>
    requires n <= |run|
  {
    if n == 0 then None
    else if run[n - 1].id != id then CallAt(run, n - 1, id)
    else if run[n - 1].Read? then Some(run[n - 1].call) else None
  }

  /** What the first `n` actions wrote last to a setting; `initial` if they wrote nothing to it. */
  function LastWritten(initial: Change, run: seq<Action>, n: nat, room: RoomId, k: Kind): Change
    requires n <= |run|
  {
    if n == 0 then initial
    else
      var call := if run[n - 1].Save? then CallAt(run, n - 1, run[n - 1].id) else None;
      if call.Some? && call.value.room == room && KindOf(call.value.change) == k then call.value.change
      else LastWritten(initial, run, n - 1, room, k)
  }

  /** Actions `i` and `l` are the two halves of one call. */
  predicate HalvesOf(run: seq<Action>, i: nat, l: nat) {
    && i < l < |run|
    && run[i].Read? && run[l].Save? && run[i].id == run[l].id
    && forall j :: i < j < l ==> run[j].id != run[l].id
  }

  lemma {:induction false} PendingIsCall(run: seq<Action>, states: seq<State>, n: nat, id: CallId)
    requires IsRun(run, states) && n <= |run|
    ensures id in states[n].pending <==> CallAt(run, n, id).Some?
    ensures id in states[n].pending ==> CallAt(run, n, id) == Some(states[n].pending[id].call)
  {
    if n > 0 {
      PendingIsCall(run, states, n - 1, id);
    }
  }

  lemma {:induction false} LoadedAt(run: seq<Action>, states: seq<State>, i: nat, n: nat)
    requires IsRun(run, states) && i < n <= |run| && run[i].Read?
    requires forall j :: i < j < n ==> run[j].id != run[i].id
    ensures run[i].id in states[n].pending
    ensures states[n].pending[run[i].id] == Pending(run[i].call, Load(states[i].store, run[i].call.room))
  {
    if i + 1 < n {
      LoadedAt(run, states, i, n - 1);
    }
  }

  lemma HalvesSpan(run: seq<Action>, states: seq<State>, i: nat, l: nat)
    requires IsRun(run, states)
    ensures HalvesOf(run, i, l) <==> Spans(run, states, i, l)
  {
    if HalvesOf(run, i, l) {
      LoadedAt(run, states, i, l);
    }
  }

  /** No save of another setting of the room puts back an older value of this one. */
  ghost predicate NothingPutBack(initial: Change, run: seq<Action>, room: RoomId, k: Kind) {
    forall i: nat, l: nat ::
      HalvesOf(run, i, l) && run[i].call.room == room && KindOf(run[i].call.change) != k ==>
        LastWritten(initial, run, i, room, k) == LastWritten(initial, run, l, room, k)
  }

  ghost predicate KeptThroughout(run: seq<Action>, states: seq<State>, room: RoomId, k: Kind)
    requires |states| == |run| + 1
  {
    var initial := Current(states[0].store, room, k);
    forall n: nat :: n <= |run| ==> Current(states[n].store, room, k) == LastWritten(initial, run, n, room, k)
  }

  /**
    In an interleaved run a setting of a room is at every moment what was written to
    it last, exactly when no call about the room's other setting loaded the record
    before that value was written and saved it after.
   */
  lemma SettingKeptIff(run: seq<Action>, states: seq<State>, room: RoomId, k: Kind)
    requires IsRun(run, states)
    ensures KeptThroughout(run, states, room, k)
            <==> NothingPutBack(Current(states[0].store, room, k), run, room, k)
  {
    var initial := Current(states[0].store, room, k);
    if NothingPutBack(initial, run, room, k) {
      forall n: nat | n <= |run| ensures Current(states[n].store, room, k) == LastWritten(initial, run, n, room, k) {
        KeptUpTo(run, states, room, k, n);
      }
    }
    if KeptThroughout(run, states, room, k) {
      forall i: nat, l: nat | HalvesOf(run, i, l) && run[i].call.room == room && KindOf(run[i].call.change) != k
        ensures LastWritten(initial, run, i, room, k) == LastWritten(initial, run, l, room, k)
      {
        SaveOfOther(run, states, room, k, i, l);
      }
    }
  }

  /** After a save of the other setting, this one is what it was when that call loaded the record. */
  lemma SaveOfOther(run: seq<Action>, states: seq<State>, room: RoomId, k: Kind, i: nat, l: nat)
    requires IsRun(run, states) && HalvesOf(run, i, l)
    requires run[i].call.room == room && KindOf(run[i].call.change) != k
    ensures Current(states[l + 1].store, room, k) == Current(states[i].store, room, k)
    ensures forall initial :: LastWritten(initial, run, l + 1, room, k) == LastWritten(initial, run, l, room, k)
  {
    HalvesSpan(run, states, i, l);
    OverlapRestoresLoadedValue(run, states, i, l, k);
    PendingIsCall(run, states, l, run[l].id);
  }

  lemma {:induction false} KeptUpTo(run: seq<Action>, states: seq<State>, room: RoomId, k: Kind, n: nat)
    requires IsRun(run, states) && n <= |run|
    requires NothingPutBack(Current(states[0].store, room, k), run, room, k)
    ensures Current(states[n].store, room, k)
            == LastWritten(Current(states[0].store, room, k), run, n, room, k)
  {
    if n > 0 {
      KeptUpTo(run, states, room, k, n - 1);
      if run[n - 1].Save? {
        PendingIsCall(run, states, n - 1, run[n - 1].id);
        var call := states[n - 1].pending[run[n - 1].id].call;
        if call.room == room && KindOf(call.change) != k {
          var i := SaveSpans(run, states, n - 1);
          HalvesSpan(run, states, i, n - 1);
          SaveOfOther(run, states, room, k, i, n - 1);
          KeptUpTo(run, states, room, k, i);
        }
      }
    }
  }

  /** Two overlapping calls: the algorithm written by one is lost to the other, which is not about it. */
  lemma OverlapLosesAlgorithm(room: RoomId, a: string, trusted: bool) returns (run: seq<Action>, states: seq<State>)
    requires a != DEFAULT.algorithm
    ensures IsRun(run, states) && |run| == 4 && states[0].store == map[]
    ensures run == [Read(0, Call(room, Algorithm(a))), Read(1, Call(room, TrustedOnly(trusted))), Save(0), Save(1)]
    ensures var k := KindOf(Algorithm(a));
            && LastWritten(Current(map[], room, k), run, 4, room, k) == Algorithm(a)
            && Current(states[4].store, room, k) == Algorithm(DEFAULT.algorithm)
  {
    var first, second := Call(room, Algorithm(a)), Call(room, TrustedOnly(trusted));
    run := [Read(0, first), Read(1, second), Save(0), Save(1)];
    var s0 := State(map[], map[]);
    var s1 := Step(s0, run[0]);
    var s2 := Step(s1, run[1]);
    var s3 := Step(s2, run[2]);
    states := [s0, s1, s2, s3, Step(s3, run[3])];
    assert CallAt(run, 2, 0) == CallAt(run, 1, 0) == Some(first);
    assert CallAt(run, 3, 1) == CallAt(run, 2, 1) == Some(second);
    var k := KindOf(first.change);
    assert LastWritten(Current(map[], room, k), run, 3, room, k) == first.change;
  }
}
