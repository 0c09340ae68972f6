/**
  `Client::set_delegate` and `set_utd_delegate`: look at a `OnceLock`, prepare,
  then `get_or_init` it.
 */
module ClientDelegates {
  import opened Sequences

  type CallId = nat
  type Delegate = nat

  datatype Outcome = Err(id: CallId) | OkNothing(id: CallId) | OkInstalling(id: CallId, delegate: Delegate)

  /** `preparing` are the calls that found the lock empty and have not reached `get_or_init`. */
  datatype State = State(slot: Option<Delegate>, preparing: map<CallId, Delegate>, returned: seq<Outcome>)

  datatype Action = Check(id: CallId, delegate: Option<Delegate>) | Install(id: CallId)

  predicate Enabled(s: State, a: Action) {
    match a
    case Check(id, _) => id !in s.preparing
    case Install(id) => id in s.preparing
  }

  function Step(s: State, a: Action): State
    requires Enabled(s, a)
  {
    match a
    case Check(id, delegate) =>
      if s.slot.Some? then s.(returned := s.returned + [Err(id)])
      else if delegate == None then s.(returned := s.returned + [OkNothing(id)])
      else s.(preparing := s.preparing[id := delegate.value])
    case Install(id) =>
      State(if s.slot.Some? then s.slot else Some(s.preparing[id]), s.preparing - {id},
            s.returned + [OkInstalling(id, s.preparing[id])])
  }

  ghost predicate IsRun(run: seq<Action>, states: seq<State>) {
    && |states| == |run| + 1
    && states[0] == State(None, map[], [])
    && forall i :: 0 <= i < |run| ==> Enabled(states[i], run[i]) && states[i + 1] == Step(states[i], run[i])
  }

  /** A delegate, once installed, is never replaced. */
  lemma {:induction false} InstalledForGood(run: seq<Action>, states: seq<State>, i: nat, j: nat)
    requires IsRun(run, states) && i <= j < |states| && states[i].slot.Some?
    ensures states[j].slot == states[i].slot
  {
    if i < j {
      InstalledForGood(run, states, i, j - 1);
    }
  }

  /** The call installing at `n` found the lock empty at step `c`. */
  ghost predicate Spans(run: seq<Action>, states: seq<State>, c: nat, n: nat) {
    && c < n < |run| < |states|
    && run[c].Check? && run[n].Install? && run[c].id == run[n].id
    && run[n].id in states[n].preparing
    && states[c].slot == None && run[c].delegate == Some(states[n].preparing[run[n].id])
    && forall j :: c < j < n ==> run[j].id != run[n].id
  }

  lemma {:induction false} CheckedWhen(run: seq<Action>, states: seq<State>, id: CallId, n: nat) returns (c: nat)
    requires IsRun(run, states) && n < |states| && id in states[n].preparing
    ensures c < n && run[c].Check? && run[c].id == id && states[c].slot == None
    ensures run[c].delegate == Some(states[n].preparing[id])
    ensures forall j :: c < j < n ==> run[j].id != id
  {
    if run[n - 1].id == id {
      c := n - 1;
    } else {
      c := CheckedWhen(run, states, id, n - 1);
    }
  }

  /** The first `Install` of a run decides: its delegate is the one, from then on. */
  ghost predicate FirstInstall(run: seq<Action>, f: nat) {
    f < |run| && run[f].Install? && forall j :: 0 <= j < f ==> !run[j].Install?
  }

  lemma {:induction false} EmptyBeforeFirst(run: seq<Action>, states: seq<State>, n: nat)
    requires IsRun(run, states) && n < |states|
    requires forall j :: 0 <= j < n ==> !run[j].Install?
    ensures states[n].slot == None
  {
    if n > 0 {
      EmptyBeforeFirst(run, states, n - 1);
    }
  }

  lemma FirstInstallDecides(run: seq<Action>, states: seq<State>, f: nat, n: nat)
    requires IsRun(run, states) && FirstInstall(run, f) && f < n < |states|
    ensures states[n].slot == Some(states[f].preparing[run[f].id])
    ensures forall j :: 0 <= j <= f ==> states[j].slot == None
  {
    forall j | 0 <= j <= f ensures states[j].slot == None {
      EmptyBeforeFirst(run, states, j);
    }
    InstalledForGood(run, states, f + 1, n);
  }

  lemma {:induction false} SomeFirst(run: seq<Action>, n: nat) returns (f: nat)
    requires n < |run| && run[n].Install?
    ensures f <= n && FirstInstall(run, f)
  {
    f := n;
    if j: nat :| j < n && run[j].Install? {
      f := SomeFirst(run, j);
    }
  }

  /**
    Every call that got past the check did so before the first install, and installs
    no earlier than that. So two calls that both return `Ok` with a delegate
    overlapped: each checked before the other installed.
   */
  lemma TwoInstallersOverlap(run: seq<Action>, states: seq<State>, a: nat, b: nat) returns (ca: nat, cb: nat)
    requires IsRun(run, states) && a < |run| && b < |run| && a != b
    requires run[a].Install? && run[b].Install?
    ensures Spans(run, states, ca, a) && Spans(run, states, cb, b)
    ensures ca < b && cb < a
    ensures exists f :: ca < f <= a && cb < f <= b && FirstInstall(run, f)
  {
    ca := CheckedWhen(run, states, run[a].id, a);
    cb := CheckedWhen(run, states, run[b].id, b);
    var f := SomeFirst(run, a);
    assert f <= b;
    FirstInstallDecides(run, states, f, f + 1);
    if f < ca {
      InstalledForGood(run, states, f + 1, ca);
    }
    if f < cb {
      InstalledForGood(run, states, f + 1, cb);
    }
  }

  /** Of the calls that return `Ok` with a delegate, exactly the first to install has its own in place. */
  lemma OwnDelegateInstalledIffFirst(run: seq<Action>, states: seq<State>, n: nat)
    requires IsRun(run, states) && n < |run| && run[n].Install?
    ensures states[n].slot == None <==> FirstInstall(run, n)
  {
    var f := SomeFirst(run, n);
    if f < n {
      FirstInstallDecides(run, states, f, n);
    } else {
      EmptyBeforeFirst(run, states, n);
    }
  }

  /** Once a delegate is installed, every call that starts returns an error. */
  lemma LaterCallsFail(run: seq<Action>, states: seq<State>, f: nat, n: nat)
    requires IsRun(run, states) && FirstInstall(run, f) && f < n < |run| && run[n].Check?
    ensures states[n + 1].returned == states[n].returned + [Err(run[n].id)]
  {
    FirstInstallDecides(run, states, f, n);
  }
}

/** `Client::get_session_verification_controller`: a slot filled on first use, without `get_or_init`. */
module VerificationController {
  import opened Sequences

  type CallId = nat
  type Controller = nat

  /**
    `creating` are the calls that found the slot empty, `returned` what finished calls
    returned, `made` the controllers created so far.
   */
  datatype State = State(
    slot: Option<Controller>, creating: set<CallId>, returned: seq<(CallId, Controller)>, made: set<Controller>)

  datatype Action = Read(id: CallId) | Fail(id: CallId) | Write(id: CallId, controller: Controller)

  predicate Enabled(s: State, a: Action) {
    match a
    case Read(id) => id !in s.creating
    case Fail(id) => id in s.creating
    case Write(id, c) => id in s.creating && c !in s.made
  }

  function Step(s: State, a: Action): State
    requires Enabled(s, a)
  {
    match a
    case Read(id) =>
      if s.slot.Some? then s.(returned := s.returned + [(id, s.slot.value)])
      else s.(creating := s.creating + {id})
    case Fail(id) => s.(creating := s.creating - {id})
    case Write(id, c) => State(Some(c), s.creating - {id}, s.returned + [(id, c)], s.made + {c})
  }

  ghost predicate IsRun(run: seq<Action>, states: seq<State>) {
    && |states| == |run| + 1
    && states[0] == State(None, {}, [], {})
    && forall i :: 0 <= i < |run| ==> Enabled(states[i], run[i]) && states[i + 1] == Step(states[i], run[i])
  }

  /** The slot never empties, and keeps its controller for as long as nobody writes. */
  lemma {:induction false} SlotIsStable(run: seq<Action>, states: seq<State>, i: nat, j: nat)
    requires IsRun(run, states) && i <= j < |states| && states[i].slot.Some?
    ensures states[j].slot.Some?
    ensures (forall k :: i <= k < j ==> !run[k].Write?) ==> states[j].slot == states[i].slot
  {
    if i < j {
      SlotIsStable(run, states, i, j - 1);
    }
  }

  /** A call writing at `n` read the empty slot at step `r`. */
  lemma {:induction false} ReadWhen(run: seq<Action>, states: seq<State>, id: CallId, n: nat) returns (r: nat)
    requires IsRun(run, states) && n < |states| && id in states[n].creating
    ensures r < n && run[r] == Read(id) && states[r].slot == None
    ensures forall j :: r < j < n ==> run[j].id != id
  {
    if run[n - 1].id == id {
      r := n - 1;
    } else {
      r := ReadWhen(run, states, id, n - 1);
    }
  }

  /** Only calls that overlapped can replace a controller: a second writer read before the first wrote. */
  lemma SecondWriterOverlapped(run: seq<Action>, states: seq<State>, w: nat, n: nat) returns (r: nat)
    requires IsRun(run, states) && w < n < |run| && run[w].Write? && run[n].Write?
    ensures r < w && run[r] == Read(run[n].id) && states[r].slot == None
    ensures forall j :: r < j < n ==> run[j].id != run[n].id
  {
    r := ReadWhen(run, states, run[n].id, n);
    if w < r {
      SlotIsStable(run, states, w + 1, r);
    }
  }

  /**
    The controller a call created is still the shared one at `n` exactly when no
    other call wrote in between.
   */
  lemma {:induction false} KeepsOwnControllerIff(run: seq<Action>, states: seq<State>, w: nat, n: nat)
    requires IsRun(run, states) && w < n < |states| && run[w].Write?
    ensures run[w].controller in states[n].made
    ensures states[n].slot == Some(run[w].controller) <==> forall k :: w < k < n ==> !run[k].Write?
  {
    if w + 1 < n {
      KeepsOwnControllerIff(run, states, w, n - 1);
    }
  }

  /** Calls that start after the last write all return the same controller. */
  lemma LateCallsAgree(run: seq<Action>, states: seq<State>, m: nat, i: nat, j: nat)
    requires IsRun(run, states) && m <= i < |run| && m <= j < |run| && run[i].Read? && run[j].Read?
    requires states[m].slot.Some? && forall k :: m <= k < |run| ==> !run[k].Write?
    ensures states[i + 1].returned == states[i].returned + [(run[i].id, states[m].slot.value)]
    ensures states[j + 1].returned == states[j].returned + [(run[j].id, states[m].slot.value)]
  {
    SlotIsStable(run, states, m, i);
    SlotIsStable(run, states, m, j);
  }

  /** Two overlapping calls: both return a controller, and the first one's is not the shared one. */
  lemma ControllerReplaced(a: Controller, b: Controller) returns (run: seq<Action>, states: seq<State>)
    requires a != b
    ensures IsRun(run, states) && run == [Read(0), Read(1), Write(0, a), Write(1, b)]
    ensures states[4].returned == [(0, a), (1, b)] && states[4].slot == Some(b)
  {
    run := [Read(0), Read(1), Write(0, a), Write(1, b)];
    var s0 := State(None, {}, [], {});
    var s1 := Step(s0, run[0]);
    var s2 := Step(s1, run[1]);
    var s3 := Step(s2, run[2]);
    states := [s0, s1, s2, s3, Step(s3, run[3])];
  }
}
