/** The initial state of a room to be created: implied events first, then the caller's own. */
module CreateRoom {
  import opened Sequences

  type Key = (string, string)

  datatype StateEvent = StateEvent(eventType: string, stateKey: string, content: string)

  datatype Parameters = Parameters(
    isEncrypted: bool, avatar: Option<string>, joinRule: Option<string>, historyVisibility: Option<string>,
    initialState: Option<seq<StateEvent>>)

  /** The conversions that can fail: join rules, history visibility, and JSON contents. */
  datatype Library = Library(
    joinRuleContent: string -> Option<string>,
    historyContent: string -> Option<string>,
    parseJson: string -> Option<string>)

  const ENCRYPTION := "m.room.encryption"
  const AVATAR := "m.room.avatar"
  const JOIN_RULES := "m.room.join_rules"
  const HISTORY := "m.room.history_visibility"
  const MEGOLM := "m.megolm.v1.aes-sha2"

  function KeyOf(e: StateEvent): Key { (e.eventType, e.stateKey) }

  /** Keeps the first failing conversion an error. */
  predicate Converts(o: Option<string>, f: string -> Option<string>) { o.Some? ==> f(o.value).Some? }

  function Implied(o: Option<string>, f: string -> Option<string>, eventType: string): seq<StateEvent> {
    if o.Some? && f(o.value).Some? then [StateEvent(eventType, "", f(o.value).value)] else []
  }

  /** The events the dedicated parameters stand for. */
  function ImpliedEvents(lib: Library, p: Parameters): seq<StateEvent> {
    (if p.isEncrypted then [StateEvent(ENCRYPTION, "", MEGOLM)] else [])
    + (if p.avatar.Some? then [StateEvent(AVATAR, "", p.avatar.value)] else [])
    + Implied(p.joinRule, lib.joinRuleContent, JOIN_RULES)
    + Implied(p.historyVisibility, lib.historyContent, HISTORY)
  }

  function CallerEvents(p: Parameters): seq<StateEvent> {
    if p.initialState.Some? then p.initialState.value else []
  }

  /** The caller's event with its content parsed and printed again. */
  function Reparsed(lib: Library, e: StateEvent): StateEvent {
    var json := lib.parseJson(e.content);
    e.(content := if json.Some? then json.value else "")
  }

  predicate Accepted(lib: Library, p: Parameters) {
    && Converts(p.joinRule, lib.joinRuleContent)
    && Converts(p.historyVisibility, lib.historyContent)
    && forall i :: 0 <= i < |CallerEvents(p)| ==> lib.parseJson(CallerEvents(p)[i].content).Some?
  }

  /** The `initial_state` part of `TryFrom<CreateRoomParameters>`; `None` stands for an error. */
  method InitialState(lib: Library, p: Parameters) returns (events: Option<seq<StateEvent>>)
    ensures events.Some? <==> Accepted(lib, p)
    ensures events.Some? ==>
              events.value == ImpliedEvents(lib, p) + Map(e => Reparsed(lib, e), CallerEvents(p))
  {
    var state: seq<StateEvent> := [];
    if p.isEncrypted {
      state := state + [StateEvent(ENCRYPTION, "", MEGOLM)];
    }
    if p.avatar.Some? {
      state := state + [StateEvent(AVATAR, "", p.avatar.value)];
    }
    if p.joinRule.Some? {
      var content := lib.joinRuleContent(p.joinRule.value);
      if content == None {
        return None;
      }
      state := state + [StateEvent(JOIN_RULES, "", content.value)];
    }
    if p.historyVisibility.Some? {
      var content := lib.historyContent(p.historyVisibility.value);
      if content == None {
        return None;
      }
      state := state + [StateEvent(HISTORY, "", content.value)];
    }
    assert state == ImpliedEvents(lib, p);
    events := AddCallerEvents(lib, state, CallerEvents(p));
  }

  /** The loop over the caller's own events. */
  method AddCallerEvents(lib: Library, implied: seq<StateEvent>, caller: seq<StateEvent>)
    returns (events: Option<seq<StateEvent>>)
    ensures events.Some? <==> forall i :: 0 <= i < |caller| ==> lib.parseJson(caller[i].content).Some?
    ensures events.Some? ==> events.value == implied + Map(e => Reparsed(lib, e), caller)
  {
    var state := implied;
    var i := 0;
    while i < |caller|
      invariant 0 <= i <= |caller|
      invariant forall j :: 0 <= j < i ==> lib.parseJson(caller[j].content).Some?
      invariant state == implied + Map(e => Reparsed(lib, e), caller[..i])
    {
      var json := lib.parseJson(caller[i].content);
      if json == None {
        return None;
      }
      assert caller[..i + 1] == caller[..i] + [caller[i]];
      state := state + [caller[i].(content := json.value)];
      i := i + 1;
    }
    assert caller[..i] == caller;
    events := Some(state);
  }

  // ---- What the homeserver makes of it ----

  function Apply(e: StateEvent, state: map<Key, string>): map<Key, string> { state[KeyOf(e) := e.content] }

  /** The state of the new room: later events replace earlier ones of the same type and key. */
  function RoomState(events: seq<StateEvent>): map<Key, string> { Fold(Apply, map[], events) }

  function Lookup(state: map<Key, string>, k: Key): Option<string> {
    if k in state then Some(state[k]) else None
  }

  function For(k: Key): StateEvent -> bool { e => KeyOf(e) == k }

  lemma LastEventWins(events: seq<StateEvent>, k: Key)
    ensures forall i: nat :: IsLast(For(k), events, i) ==> Lookup(RoomState(events), k) == Some(events[i].content)
    ensures Never(For(k), events) ==> Lookup(RoomState(events), k) == None
  {
    LastWriteWins(Apply, map[], events, (s: map<Key, string>) => Lookup(s, k),
                  For(k), (e: StateEvent) => Some(e.content));
  }

  /**
    A caller-provided event wins over the one a dedicated parameter implies, the
    caller's last event of a type and key over its earlier ones, and where the caller
    has none the implied event stands.
   */
  lemma CallerWins(implied: seq<StateEvent>, caller: seq<StateEvent>, k: Key)
    ensures forall i: nat :: IsLast(For(k), caller, i) ==>
              Lookup(RoomState(implied + caller), k) == Some(caller[i].content)
    ensures Never(For(k), caller) ==> Lookup(RoomState(implied + caller), k) == Lookup(RoomState(implied), k)
  {
    var all := implied + caller;
    LastEventWins(all, k);
    LastEventWins(implied, k);
    forall i: nat | IsLast(For(k), caller, i)
      ensures Lookup(RoomState(all), k) == Some(caller[i].content)
    {
      assert forall j :: |implied| + i < j < |all| ==> all[j] == caller[j - |implied|];
      assert IsLast(For(k), all, |implied| + i);
    }
    if Never(For(k), caller) {
      if Never(For(k), implied) {
        assert Never(For(k), all);
      } else {
        var i := SomeLast(For(k), implied);
        assert IsLast(For(k), all, i);
      }
    }
  }
}
