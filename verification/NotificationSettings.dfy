/** `NotificationSettings::set_delegate` and its `Drop`: which push-rule handlers stay registered. */
module NotificationHandlers {
  import opened Sequences

  type Handler = nat

  /** `Set` and `Unset` are `set_delegate` with and without a delegate; `DropClone` drops one clone of the object. */
  datatype Op = Set | Unset | DropClone

  /** Handlers are numbered in the order in which they were added; `tracked` is the slot all clones share. */
  datatype State = State(registered: set<Handler>, added: nat, tracked: Option<Handler>)

  const START := State({}, 0, None)

  function AfterOp(op: Op, s: State): State {
    match op
    case Set => State(s.registered + {s.added}, s.added + 1, Some(s.added))
    case Unset => s.(registered := Untracked(s), tracked := None)
    case DropClone => s.(registered := Untracked(s))
  }

  function Untracked(s: State): set<Handler> {
    if s.tracked.Some? then s.registered - {s.tracked.value} else s.registered
  }

  predicate EndsInSet(history: seq<Op>) { history != [] && history[|history| - 1] == Set }

  /** How often a delegate was set right after another, with nothing in between to remove that one. */
  function SetTwice(history: seq<Op>): nat {
    if history == [] then 0
    else
      var shorter := history[..|history| - 1];
      SetTwice(shorter) + (if EndsInSet(history) && EndsInSet(shorter) then 1 else 0)
  }

  lemma SetTwiceSnoc(history: seq<Op>, op: Op)
    ensures EndsInSet(history + [op]) <==> op == Set
    ensures SetTwice(history + [op]) == SetTwice(history) + (if op == Set && EndsInSet(history) then 1 else 0)
  {
    assert (history + [op])[..|history|] == history;
  }

  // ---- One call at a time ----

  ghost predicate Accounted(s: State, isSet: bool, lost: nat) {
    && (forall h :: h in s.registered ==> h < s.added)
    && (s.tracked.Some? ==> s.tracked.value + 1 == s.added)
    && (s.tracked.Some? && s.tracked.value in s.registered <==> isSet)
    && |Untracked(s)| == lost
  }

  lemma SetAccounted(s: State, isSet: bool, lost: nat)
    requires Accounted(s, isSet, lost)
    ensures Accounted(AfterOp(Set, s), true, lost + (if isSet then 1 else 0))
  {
    assert Untracked(AfterOp(Set, s)) == s.registered;
    if isSet {
      assert s.registered == Untracked(s) + {s.tracked.value};
    } else {
      assert s.registered == Untracked(s);
    }
  }

  lemma RemovalAccounted(s: State, op: Op, isSet: bool, lost: nat)
    requires Accounted(s, isSet, lost) && op != Set
    ensures Accounted(AfterOp(op, s), false, lost)
  {
    assert Untracked(AfterOp(op, s)) == Untracked(s);
  }

  /**
    The tracked handler is the most recently added one, it is registered exactly when
    the last operation set it, and the handlers left behind are as many as the times a
    delegate was set over another.
   */
  lemma {:induction false} HandlerAccounting(history: seq<Op>)
    ensures var s := Fold(AfterOp, START, history);
            && (forall h :: h in s.registered ==> h < s.added)
            && (s.tracked.Some? ==> s.tracked.value + 1 == s.added)
            && (s.tracked.Some? && s.tracked.value in s.registered <==> EndsInSet(history))
            && |Untracked(s)| == SetTwice(history)
  {
    assert Accounted(Fold(AfterOp, START, history), EndsInSet(history), SetTwice(history)) by {
      Accounting(history);
    }
  }

  lemma {:induction false} Accounting(history: seq<Op>)
    ensures Accounted(Fold(AfterOp, START, history), EndsInSet(history), SetTwice(history))
  {
    if history != [] {
      var shorter, op := history[..|history| - 1], history[|history| - 1];
      Accounting(shorter);
      var before := Fold(AfterOp, START, shorter);
      if op == Set {
        SetAccounted(before, EndsInSet(shorter), SetTwice(shorter));
      } else {
        RemovalAccounted(before, op, EndsInSet(shorter), SetTwice(shorter));
      }
    }
  }

  /** Setting a delegate twice leaves the first handler registered for good. */
  lemma SecondDelegateLeavesFirst()
    ensures var s := Fold(AfterOp, START, [Set, Set, Unset]);
            s.registered == {0} && s.tracked == None
  {
    assert [Set, Set, Unset][..2] == [Set, Set] && [Set, Set][..1] == [Set] && [Set][..0] == [];
    assert Fold(AfterOp, START, [Set]) == State({0}, 1, Some(0));
    assert Fold(AfterOp, START, [Set, Set]) == State({0, 1}, 2, Some(1));
  }

  class NotificationSettings {
    var registered: set<Handler>
    var added: nat
    var tracked: Option<Handler>
    ghost var history: seq<Op>

    ghost function View(): State
      reads this
    {
      State(registered, added, tracked)
    }

    ghost predicate Valid()
      reads this
    {
      View() == Fold(AfterOp, START, history)
    }

    /** Handlers nobody can remove any more. */
    ghost function LeftBehind(): set<Handler>
      reads this
    {
      Untracked(View())
    }

    constructor ()
      ensures Valid() && history == [] && registered == {}
    {
      registered, added, tracked, history := {}, 0, None, [];
    }

    /** With a delegate a new handler is added and tracked; one that was tracked before stays, for good. */
    method SetDelegate(delegate: bool)
      requires Valid()
      modifies this
      ensures Valid() && history == old(history) + [if delegate then Set else Unset]
      ensures delegate ==> tracked.Some? && tracked.value !in old(registered)
      ensures delegate ==> registered == old(registered) + {tracked.value} && LeftBehind() == old(registered)
      ensures !delegate ==> tracked.None? && registered == LeftBehind() == old(LeftBehind())
      ensures |LeftBehind()| == SetTwice(history)
    {
      HandlerAccounting(history);
      if delegate {
        var handler := added;
        registered, added := registered + {handler}, added + 1;
        tracked := Some(handler);
      } else {
        if tracked.Some? {
          registered := registered - {tracked.value};
        }
        tracked := None;
      }
      history := history + [if delegate then Set else Unset];
      assert history[..|history| - 1] == old(history);
      HandlerAccounting(history);
    }

    /** Whatever clone is dropped, the tracked handler goes with it. */
    method Drop()
      requires Valid()
      modifies this
      ensures Valid() && history == old(history) + [DropClone]
      ensures tracked == old(tracked) && (tracked.Some? ==> tracked.value !in registered)
      ensures registered == LeftBehind() == old(LeftBehind())
      ensures |registered| == SetTwice(history)
    {
      if tracked.Some? {
        registered := registered - {tracked.value};
      }
      history := history + [DropClone];
      assert history[..|history| - 1] == old(history);
      HandlerAccounting(history);
    }
  }

  // ---- Overlapping calls ----

  type CallId = nat

  /** `adding` are the calls that have added their handler and not yet written the slot. */
  datatype Shared = Shared(
    registered: set<Handler>, added: nat, tracked: Option<Handler>, adding: map<CallId, Handler>)

  datatype Action = Add(id: CallId) | Track(id: CallId) | Remove | DropOne

  predicate Enabled(s: Shared, a: Action) {
    match a
    case Add(id) => id !in s.adding
    case Track(id) => id in s.adding
    case _ => true
  }

  function WithoutTracked(s: Shared): set<Handler> {
    if s.tracked.Some? then s.registered - {s.tracked.value} else s.registered
  }

  function Step(s: Shared, a: Action): Shared
    requires Enabled(s, a)
  {
    match a
    case Add(id) =>
      s.(registered := s.registered + {s.added}, added := s.added + 1, adding := s.adding[id := s.added])
    case Track(id) => s.(tracked := Some(s.adding[id]), adding := s.adding - {id})
    case Remove => s.(registered := WithoutTracked(s), tracked := None)
    case DropOne => s.(registered := WithoutTracked(s))
  }

  ghost predicate IsRun(run: seq<Action>, states: seq<Shared>) {
    && |states| == |run| + 1
    && states[0] == Shared({}, 0, None, map[])
    && forall i :: 0 <= i < |run| ==> Enabled(states[i], run[i]) && states[i + 1] == Step(states[i], run[i])
  }

  /** The run as the slot sees it. */
  function SlotOps(run: seq<Action>): seq<Op> {
    if run == [] then []
    else
      SlotOps(run[..|run| - 1]) + SlotOp(run[|run| - 1])
  }

  function SlotOp(a: Action): seq<Op> {
    match a
    case Add(_) => []
    case Track(_) => [Set]
    case Remove => [Unset]
    case DropOne => [DropClone]
  }

  /** Handlers that are neither tracked nor about to be. */
  function Lost(s: Shared): set<Handler> { LostOf(s.registered, s.tracked, s.adding.Values) }

  function LostOf(registered: set<Handler>, tracked: Option<Handler>, adding: set<Handler>): set<Handler> {
    (if tracked.Some? then registered - {tracked.value} else registered) - adding
  }

  lemma AddedIsNotLost(registered: set<Handler>, tracked: Option<Handler>, adding: set<Handler>, h: Handler)
    requires h !in registered
    ensures LostOf(registered + {h}, tracked, adding + {h}) == LostOf(registered, tracked, adding)
  {}

  /** The handler found in the slot is lost, if it is still registered. */
  lemma OverwrittenIsLost(registered: set<Handler>, tracked: Option<Handler>, adding: set<Handler>, h: Handler)
    requires h in adding && adding <= registered && (tracked.Some? ==> tracked.value !in adding)
    ensures var isSet := tracked.Some? && tracked.value in registered;
            |LostOf(registered, Some(h), adding - {h})|
            == |LostOf(registered, tracked, adding)| + (if isSet then 1 else 0)
  {
    if tracked.Some? && tracked.value in registered {
      assert LostOf(registered, Some(h), adding - {h}) == LostOf(registered, tracked, adding) + {tracked.value};
    } else {
      assert LostOf(registered, Some(h), adding - {h}) == LostOf(registered, tracked, adding);
    }
  }

  predicate Injective(m: map<CallId, Handler>) {
    forall i, j :: i in m && j in m && m[i] == m[j] ==> i == j
  }

  lemma ValuesAdd(m: map<CallId, Handler>, id: CallId, h: Handler)
    requires Injective(m) && id !in m && h !in m.Values
    ensures m[id := h].Values == m.Values + {h} && Injective(m[id := h])
  {
    var m' := m[id := h];
    assert m'[id] == h;
    forall v ensures v in m'.Values <==> v in m.Values + {h} {
      if v in m.Values {
        var i :| i in m && m[i] == v;
        assert m'[i] == v;
      }
    }
    forall i, j | i in m' && j in m' && m'[i] == m'[j] ensures i == j {
      assert i != id ==> m[i] in m.Values;
      assert j != id ==> m[j] in m.Values;
    }
  }

  lemma ValuesRemove(m: map<CallId, Handler>, id: CallId)
    requires Injective(m) && id in m
    ensures (m - {id}).Values == m.Values - {m[id]} && Injective(m - {id})
  {
    var m' := m - {id};
    forall v ensures v in m'.Values <==> v in m.Values - {m[id]} {
      if v in m.Values && v != m[id] {
        var i :| i in m && m[i] == v;
        assert i in m' && m'[i] == v;
      }
    }
  }

  ghost predicate SharedInv(s: Shared, isSet: bool, lost: nat) {
    Injective(s.adding) && SetsInv(s.registered, s.added, s.tracked, s.adding.Values, isSet, lost)
  }

  ghost predicate SetsInv(registered: set<Handler>, added: nat, tracked: Option<Handler>, adding: set<Handler>,
                          isSet: bool, lost: nat) {
    && (forall h :: h in registered ==> h < added) && adding <= registered
    && (tracked.Some? ==> tracked.value < added && tracked.value !in adding)
    && (tracked.Some? && tracked.value in registered <==> isSet)
    && |LostOf(registered, tracked, adding)| == lost
  }

  lemma AddKeepsSets(registered: set<Handler>, added: nat, tracked: Option<Handler>, adding: set<Handler>,
                     isSet: bool, lost: nat)
    requires SetsInv(registered, added, tracked, adding, isSet, lost)
    ensures added !in adding
    ensures SetsInv(registered + {added}, added + 1, tracked, adding + {added}, isSet, lost)
  {
    AddedIsNotLost(registered, tracked, adding, added);
  }

  lemma AddKeeps(s: Shared, id: CallId, isSet: bool, lost: nat)
    requires SharedInv(s, isSet, lost) && id !in s.adding
    ensures SharedInv(Step(s, Add(id)), isSet, lost)
  {
    AddKeepsSets(s.registered, s.added, s.tracked, s.adding.Values, isSet, lost);
    ValuesAdd(s.adding, id, s.added);
  }

  lemma TrackKeeps(s: Shared, id: CallId, isSet: bool, lost: nat)
    requires SharedInv(s, isSet, lost) && id in s.adding
    ensures SharedInv(Step(s, Track(id)), true, lost + (if isSet then 1 else 0))
  {
    assert s.adding[id] in s.adding.Values;
    ValuesRemove(s.adding, id);
    OverwrittenIsLost(s.registered, s.tracked, s.adding.Values, s.adding[id]);
  }

  lemma RemovalKeeps(s: Shared, a: Action, isSet: bool, lost: nat)
    requires SharedInv(s, isSet, lost) && (a.Remove? || a.DropOne?)
    ensures SharedInv(Step(s, a), false, lost)
  {
    if s.tracked.Some? {
      RemovedIsNotLost(s.registered, s.tracked.value, s.adding.Values, Step(s, a).tracked);
    }
  }

  lemma RemovedIsNotLost(registered: set<Handler>, h: Handler, adding: set<Handler>, tracked: Option<Handler>)
    requires adding <= registered && h !in adding && (tracked == None || tracked == Some(h))
    ensures LostOf(registered - {h}, tracked, adding) == LostOf(registered, Some(h), adding)
    ensures adding <= registered - {h}
  {}

  /**
    In every interleaving the accounting is that of the writes to the slot, in their
    order: as many handlers are lost as a write found another's handler in the slot.
   */
  lemma {:induction false} InterleavedAccounting(run: seq<Action>, states: seq<Shared>, n: nat)
    requires IsRun(run, states) && n <= |run|
    ensures var s, ops := states[n], SlotOps(run[..n]);
            && (s.tracked.Some? && s.tracked.value in s.registered <==> EndsInSet(ops))
            && |Lost(s)| == SetTwice(ops)
    ensures SharedInv(states[n], EndsInSet(SlotOps(run[..n])), SetTwice(SlotOps(run[..n])))
  {
    if n > 0 {
      InterleavedAccounting(run, states, n - 1);
      assert run[..n][..n - 1] == run[..n - 1];
      StepAccounted(states[n - 1], run[n - 1], SlotOps(run[..n - 1]));
    }
  }

  lemma StepAccounted(s: Shared, a: Action, ops: seq<Op>)
    requires Enabled(s, a) && SharedInv(s, EndsInSet(ops), SetTwice(ops))
    ensures var ops' := ops + SlotOp(a); SharedInv(Step(s, a), EndsInSet(ops'), SetTwice(ops'))
  {
    match a
    case Add(id) =>
      AddKeeps(s, id, EndsInSet(ops), SetTwice(ops));
      assert ops + [] == ops;
    case Track(id) =>
      TrackKeeps(s, id, EndsInSet(ops), SetTwice(ops));
      SetTwiceSnoc(ops, Set);
    case Remove =>
      RemovalKeeps(s, Remove, EndsInSet(ops), SetTwice(ops));
      SetTwiceSnoc(ops, Unset);
    case DropOne =>
      RemovalKeeps(s, DropOne, EndsInSet(ops), SetTwice(ops));
      SetTwiceSnoc(ops, DropClone);
  }

  // ---- Which handler is tracked ----

  predicate WritesSlot(a: Action) { a.Track? || a.Remove? }

  /** The slot holds what was last written to it. */
  lemma {:induction false} SlotIsKept(run: seq<Action>, states: seq<Shared>, k: nat, n: nat)
    requires IsRun(run, states) && k <= n <= |run| && forall i :: k <= i < n ==> !WritesSlot(run[i])
    ensures states[n].tracked == states[k].tracked
  {
    if k < n {
      SlotIsKept(run, states, k, n - 1);
    }
  }

  /** A call that has added its handler keeps it until it writes the slot; handlers are numbered as they are added. */
  lemma {:induction false} HandlerIsKept(run: seq<Action>, states: seq<Shared>, a: nat, n: nat, id: CallId)
    requires IsRun(run, states) && a < n <= |run| && run[a] == Add(id)
    requires forall i :: a < i < n ==> run[i] != Track(id)
    ensures id in states[n].adding && states[n].adding[id] == states[a].added
    ensures states[n].added > states[a].added
    ensures states[n].added == states[a].added + 1 <==> forall i :: a < i < n ==> !run[i].Add?
  {
    if a + 1 < n {
      HandlerIsKept(run, states, a, n - 1, id);
    }
  }

  /** A handler about to be tracked was added by its call, at `a`. */
  lemma {:induction false} SomeoneAdded(run: seq<Action>, states: seq<Shared>, n: nat, id: CallId) returns (a: nat)
    requires IsRun(run, states) && n <= |run| && id in states[n].adding
    ensures a < n && run[a] == Add(id) && forall i :: a < i < n ==> run[i] != Track(id)
  {
    if run[n - 1] == Add(id) {
      a := n - 1;
    } else {
      a := SomeoneAdded(run, states, n - 1, id);
    }
  }

  /**
    In every interleaving the tracked handler is that of the call that wrote the slot
    last, added at `a`. It is the newest there was at the write exactly when no other
    call added its own in between.
   */
  lemma TrackedIsLastWriter(run: seq<Action>, states: seq<Shared>, k: nat, n: nat) returns (a: nat)
    requires IsRun(run, states) && k < n <= |run| && run[k].Track?
    requires forall i :: k < i < n ==> !WritesSlot(run[i])
    ensures a < k && run[a] == Add(run[k].id) && forall i :: a < i < k ==> run[i] != run[k]
    ensures states[n].tracked == Some(states[a].added)
    ensures states[n].tracked == Some(states[k].added - 1) <==> forall i :: a < i < k ==> !run[i].Add?
  {
    a := SomeoneAdded(run, states, k, run[k].id);
    HandlerIsKept(run, states, a, k, run[k].id);
    SlotIsKept(run, states, k + 1, n);
  }

  /** The slot is empty exactly when it was never written or last emptied. */
  lemma {:induction false} TrackedIff(run: seq<Action>, states: seq<Shared>, n: nat)
    requires IsRun(run, states) && n <= |run|
    ensures states[n].tracked.Some?
            <==> exists k :: 0 <= k < n && run[k].Track? && forall i :: k < i < n ==> !WritesSlot(run[i])
  {
    if n > 0 {
      TrackedIff(run, states, n - 1);
      if WritesSlot(run[n - 1]) {
        assert run[n - 1].Track? ==> states[n].tracked.Some?;
      } else if states[n].tracked.Some? {
        var k :| 0 <= k < n - 1 && run[k].Track? && forall i :: k < i < n - 1 ==> !WritesSlot(run[i]);
        assert forall i :: k < i < n ==> !WritesSlot(run[i]);
      }
    }
  }

  /** Two overlapping calls after which the older handler is the tracked one, and the newer one is lost. */
  lemma OlderHandlerTracked() returns (run: seq<Action>, states: seq<Shared>)
    ensures IsRun(run, states) && run == [Add(0), Add(1), Track(1), Track(0)]
    ensures states[4].tracked == Some(0) && Lost(states[4]) == {1}
  {
    run := [Add(0), Add(1), Track(1), Track(0)];
    var s0 := Shared({}, 0, None, map[]);
    var s1 := Step(s0, run[0]);
    var s2 := Step(s1, run[1]);
    var s3 := Step(s2, run[2]);
    states := [s0, s1, s2, s3, Step(s3, run[3])];
    assert states[4].registered == {0, 1} && states[4].adding == map[];
  }
}

/** Push conditions as the SDK and as the FFI represent them. */
module PushConditions {
  import opened Sequences

  /** The integers of Matrix's canonical JSON. */
  const MAX_SAFE: int := 0x1F_FFFF_FFFF_FFFF

  predicate SafeInt(i: int) { -MAX_SAFE <= i <= MAX_SAFE }

  predicate SafeUInt(n: nat) { n <= MAX_SAFE }

  /** `js_int::Int` and `js_int::UInt`. */
  type Int = i: int | SafeInt(i)
  type UInt = n: nat | SafeUInt(n)

  // ---- The SDK's types ----

  datatype SdkComparison = SdkEq | SdkLt | SdkGt | SdkGe | SdkLe

  datatype SdkJsonValue = SdkNull | SdkBool(b: bool) | SdkInteger(i: Int) | SdkString(s: string)

  datatype SdkPushCondition =
    | SdkEventMatch(key: string, pattern: string)
    | SdkContainsDisplayName
    | SdkRoomMemberCount(prefix: SdkComparison, count: UInt)
    | SdkSenderNotificationPermission(key: string)
    | SdkEventPropertyIs(key: string, value: SdkJsonValue)
    | SdkEventPropertyContains(key: string, value: SdkJsonValue)
    | SdkOther(kind: string)

  // ---- The FFI's types; integers are any `i64` and `u64` ----

  datatype ComparisonOperator = Eq | Lt | Gt | Ge | Le

  datatype JsonValue = Null | Bool(b: bool) | Integer(i: int) | Text(s: string)

  datatype PushCondition =
    | EventMatch(key: string, pattern: string)
    | ContainsDisplayName
    | RoomMemberCount(prefix: ComparisonOperator, count: nat)
    | SenderNotificationPermission(key: string)
    | EventPropertyIs(key: string, value: JsonValue)
    | EventPropertyContains(key: string, value: JsonValue)

  // ---- The conversions ----

  function OperatorToFfi(op: SdkComparison): ComparisonOperator {
    match op
    case SdkEq => Eq
    case SdkLt => Lt
    case SdkGt => Gt
    case SdkGe => Ge
    case SdkLe => Le
  }

  function OperatorToSdk(op: ComparisonOperator): SdkComparison {
    match op
    case Eq => SdkEq
    case Lt => SdkLt
    case Gt => SdkGt
    case Ge => SdkGe
    case Le => SdkLe
  }

  function ValueToFfi(v: SdkJsonValue): JsonValue {
    match v
    case SdkNull => Null
    case SdkBool(b) => Bool(b)
    case SdkInteger(i) => Integer(i)
    case SdkString(s) => Text(s)
  }

  /** `Int::new(value).unwrap_or_default()`. */
  function ValueToSdk(v: JsonValue): SdkJsonValue {
    match v
    case Null => SdkNull
    case Bool(b) => SdkBool(b)
    case Integer(i) => SdkInteger(if SafeInt(i) then i else 0)
    case Text(s) => SdkString(s)
  }

  /** `None` stands for the error on a condition the FFI does not know. */
  function ToFfi(c: SdkPushCondition): Option<PushCondition> {
    match c
    case SdkEventMatch(key, pattern) => Some(EventMatch(key, pattern))
    case SdkContainsDisplayName => Some(ContainsDisplayName)
    case SdkRoomMemberCount(prefix, count) => Some(RoomMemberCount(OperatorToFfi(prefix), count))
    case SdkSenderNotificationPermission(key) => Some(SenderNotificationPermission(key))
    case SdkEventPropertyIs(key, value) => Some(EventPropertyIs(key, ValueToFfi(value)))
    case SdkEventPropertyContains(key, value) => Some(EventPropertyContains(key, ValueToFfi(value)))
    case SdkOther(_) => None
  }

  function ToSdk(c: PushCondition): SdkPushCondition {
    match c
    case EventMatch(key, pattern) => SdkEventMatch(key, pattern)
    case ContainsDisplayName => SdkContainsDisplayName
    case RoomMemberCount(prefix, count) =>
      SdkRoomMemberCount(OperatorToSdk(prefix), if SafeUInt(count) then count else 0)
    case SenderNotificationPermission(key) => SdkSenderNotificationPermission(key)
    case EventPropertyIs(key, value) => SdkEventPropertyIs(key, ValueToSdk(value))
    case EventPropertyContains(key, value) => SdkEventPropertyContains(key, ValueToSdk(value))
  }

  /** A list crosses to the FFI as a whole or not at all. */
  function AllToFfi(cs: seq<SdkPushCondition>): Option<seq<PushCondition>> {
    if cs == [] then Some([])
    else
      var front, last := AllToFfi(cs[..|cs| - 1]), ToFfi(cs[|cs| - 1]);
      if front.Some? && last.Some? then Some(front.value + [last.value]) else None
  }

  function AllToSdk(cs: seq<PushCondition>): seq<SdkPushCondition> { Map(ToSdk, cs) }

  // ---- What the conditions ask ----

  /** The events and rooms a condition is checked against. */
  datatype Situation = Situation(
    members: nat,
    displayNameMentioned: bool,
    globMatches: (string, string) -> bool,
    senderMay: string -> bool,
    property: string -> Option<JsonScalar>,
    listed: (string, JsonScalar) -> bool)

  /** A scalar of canonical JSON. */
  datatype JsonScalar = JNull | JBool(b: bool) | JNumber(i: int) | JString(s: string)

  function SdkScalar(v: SdkJsonValue): JsonScalar {
    match v
    case SdkNull => JNull
    case SdkBool(b) => JBool(b)
    case SdkInteger(i) => JNumber(i)
    case SdkString(s) => JString(s)
  }

  function FfiScalar(v: JsonValue): JsonScalar {
    match v
    case Null => JNull
    case Bool(b) => JBool(b)
    case Integer(i) => JNumber(i)
    case Text(s) => JString(s)
  }

  predicate SdkCounts(op: SdkComparison, limit: nat, members: nat) {
    match op
    case SdkEq => members == limit
    case SdkLt => members < limit
    case SdkGt => members > limit
    case SdkGe => members >= limit
    case SdkLe => members <= limit
  }

  predicate FfiCounts(op: ComparisonOperator, limit: nat, members: nat) {
    match op
    case Eq => members == limit
    case Lt => members < limit
    case Gt => members > limit
    case Ge => members >= limit
    case Le => members <= limit
  }

  predicate SdkApplies(c: SdkPushCondition, world: Situation) {
    match c
    case SdkEventMatch(key, pattern) => world.globMatches(key, pattern)
    case SdkContainsDisplayName => world.displayNameMentioned
    case SdkRoomMemberCount(prefix, count) => SdkCounts(prefix, count, world.members)
    case SdkSenderNotificationPermission(key) => world.senderMay(key)
    case SdkEventPropertyIs(key, value) => world.property(key) == Some(SdkScalar(value))
    case SdkEventPropertyContains(key, value) => world.listed(key, SdkScalar(value))
    case SdkOther(_) => false
  }

  predicate FfiApplies(c: PushCondition, world: Situation) {
    match c
    case EventMatch(key, pattern) => world.globMatches(key, pattern)
    case ContainsDisplayName => world.displayNameMentioned
    case RoomMemberCount(prefix, count) => FfiCounts(prefix, count, world.members)
    case SenderNotificationPermission(key) => world.senderMay(key)
    case EventPropertyIs(key, value) => world.property(key) == Some(FfiScalar(value))
    case EventPropertyContains(key, value) => world.listed(key, FfiScalar(value))
  }

  /** A condition of the SDK means the same over the FFI, in every situation. */
  lemma ToFfiKeepsMeaning(c: SdkPushCondition, world: Situation)
    requires ToFfi(c).Some?
    ensures FfiApplies(ToFfi(c).value, world) <==> SdkApplies(c, world)
  {
    match c
    case SdkEventPropertyIs(_, value) => assert FfiScalar(ValueToFfi(value)) == SdkScalar(value);
    case SdkEventPropertyContains(_, value) => assert FfiScalar(ValueToFfi(value)) == SdkScalar(value);
    case _ =>
  }

  predicate InRangeValue(v: JsonValue) { v.Integer? ==> SafeInt(v.i) }

  /** All numbers of the condition are ones the SDK types can hold. */
  predicate InRange(c: PushCondition) {
    match c
    case RoomMemberCount(_, n) => SafeUInt(n)
    case EventPropertyIs(_, v) => InRangeValue(v)
    case EventPropertyContains(_, v) => InRangeValue(v)
    case _ => true
  }

  /** And one of the FFI means the same to the SDK in every situation exactly if its numbers are in range. */
  lemma ToSdkKeepsMeaningIff(c: PushCondition)
    ensures (forall world :: SdkApplies(ToSdk(c), world) <==> FfiApplies(c, world)) <==> InRange(c)
  {
    if InRange(c) {
      forall world ensures SdkApplies(ToSdk(c), world) <==> FfiApplies(c, world) {
        ToSdkKeepsMeaning(c, world);
      }
    } else {
      var world := OutOfRangeIsNoticed(c);
    }
  }

  /** A situation in which a number out of range makes the difference. */
  lemma OutOfRangeIsNoticed(c: PushCondition) returns (world: Situation)
    requires !InRange(c)
    ensures SdkApplies(ToSdk(c), world) != FfiApplies(c, world)
  {
    world := Situation(0, false, (_, _) => false, _ => false, _ => None, (_, _) => false);
    match c
    case RoomMemberCount(prefix, count) =>
      if prefix != Lt && prefix != Ge {
        world := world.(members := count);
      }
    case EventPropertyIs(_, value) => world := world.(property := _ => Some(FfiScalar(value)));
    case EventPropertyContains(_, value) => world := world.(listed := (_, j) => j == FfiScalar(value));
  }

  lemma ToSdkKeepsMeaning(c: PushCondition, world: Situation)
    requires InRange(c)
    ensures SdkApplies(ToSdk(c), world) <==> FfiApplies(c, world)
  {
    match c
    case EventPropertyIs(_, value) => assert SdkScalar(ValueToSdk(value)) == FfiScalar(value);
    case EventPropertyContains(_, value) => assert SdkScalar(ValueToSdk(value)) == FfiScalar(value);
    case _ =>
  }

  // ---- Round trips ----

  lemma SdkConditionRoundTrip(c: SdkPushCondition)
    ensures ToFfi(c).Some? <==> !c.SdkOther?
    ensures ToFfi(c).Some? ==> ToSdk(ToFfi(c).value) == c && InRange(ToFfi(c).value)
  {}

  /** What the FFI sees of a condition once it went through the SDK: a number out of range becomes 0. */
  function Clamped(c: PushCondition): PushCondition {
    match c
    case RoomMemberCount(p, n) => RoomMemberCount(p, if SafeUInt(n) then n else 0)
    case EventPropertyIs(k, Integer(i)) => EventPropertyIs(k, Integer(if SafeInt(i) then i else 0))
    case EventPropertyContains(k, Integer(i)) => EventPropertyContains(k, Integer(if SafeInt(i) then i else 0))
    case _ => c
  }

  lemma FfiConditionRoundTrip(c: PushCondition)
    ensures ToFfi(ToSdk(c)) == Some(Clamped(c))
    ensures Clamped(c) == c <==> InRange(c)
  {}

  /** SDK to FFI to SDK loses nothing; it fails exactly on a list with a condition the FFI does not know. */
  lemma {:induction false} SdkRoundTrip(cs: seq<SdkPushCondition>)
    ensures AllToFfi(cs).Some? <==> forall i :: 0 <= i < |cs| ==> !cs[i].SdkOther?
    ensures AllToFfi(cs).Some? ==> AllToSdk(AllToFfi(cs).value) == cs
  {
    if cs != [] {
      var shorter, last := cs[..|cs| - 1], cs[|cs| - 1];
      SdkRoundTrip(shorter);
      SdkConditionRoundTrip(last);
      assert cs == shorter + [last];
      if AllToFfi(cs).Some? {
        MapAppend(ToSdk, AllToFfi(shorter).value, [ToFfi(last).value]);
        assert Map(ToSdk, [ToFfi(last).value]) == [last];
      }
    }
  }

  /**
    FFI to SDK to FFI always succeeds, sets every number out of range to 0 and changes
    nothing else, so it is the identity exactly on lists in range, and once is as good
    as twice.
   */
  lemma {:induction false} FfiRoundTrip(cs: seq<PushCondition>)
    ensures AllToFfi(AllToSdk(cs)) == Some(Map(Clamped, cs))
    ensures AllToFfi(AllToSdk(cs)) == Some(cs) <==> forall i :: 0 <= i < |cs| ==> InRange(cs[i])
    ensures AllToFfi(AllToSdk(Map(Clamped, cs))) == Some(Map(Clamped, cs))
  {
    ClampsAll(cs);
    ClampsAll(Map(Clamped, cs));
    assert Map(Clamped, Map(Clamped, cs)) == Map(Clamped, cs);
    forall i | 0 <= i < |cs| ensures Clamped(cs[i]) == cs[i] <==> InRange(cs[i]) {
      FfiConditionRoundTrip(cs[i]);
    }
    if Map(Clamped, cs) == cs {
      forall i | 0 <= i < |cs| ensures Clamped(cs[i]) == cs[i] {
        assert Map(Clamped, cs)[i] == cs[i];
      }
    }
  }

  lemma {:induction false} ClampsAll(cs: seq<PushCondition>)
    ensures AllToFfi(AllToSdk(cs)) == Some(Map(Clamped, cs))
  {
    if cs != [] {
      var shorter, last := cs[..|cs| - 1], cs[|cs| - 1];
      ClampsAll(shorter);
      FfiConditionRoundTrip(last);
      assert AllToSdk(cs)[..|cs| - 1] == AllToSdk(shorter);
      assert Map(Clamped, cs) == Map(Clamped, shorter) + [Clamped(last)];
    }
  }
}
