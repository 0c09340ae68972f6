/**
  The three `changes_listener` loops of the verification bindings: forward every
  state of a stream to a callback, and stop after a done or cancelled one.
 */
module VerificationListeners {
  import opened Sequences

  /** The part of a stream up to and including the first element satisfying `stop`. */
  function ThroughFirst<S>(stop: S -> bool, stream: seq<S>): seq<S> {
    if stream == [] then []
    else if stop(stream[0]) then [stream[0]]
    else [stream[0]] + ThroughFirst(stop, stream[1..])
  }

  /** `heard` is a prefix that ends at the first stopping element, or the whole stream without one. */
  lemma {:induction false} ThroughFirstIsCut<S>(stop: S -> bool, stream: seq<S>)
    ensures var heard := ThroughFirst(stop, stream);
            && |heard| <= |stream| && heard == stream[..|heard|]
            && (forall i :: 0 <= i < |heard| - 1 ==> !stop(heard[i]))
            && (|heard| < |stream| ==> |heard| > 0 && stop(heard[|heard| - 1]))
  {
    if stream != [] && !stop(stream[0]) {
      ThroughFirstIsCut(stop, stream[1..]);
      var rest := ThroughFirst(stop, stream[1..]);
      var heard := [stream[0]] + rest;
      assert heard[1..] == rest;
      assert heard == stream[..|heard|];
    }
  }

  /** The loop of the listeners; the callback's arguments are collected in `delivered`. */
  method ChangesListener<S, V>(stream: seq<S>, stop: S -> bool, convert: S -> V) returns (delivered: seq<V>)
    ensures delivered == Map(convert, ThroughFirst(stop, stream))
  {
    delivered := [];
    var i := 0;
    assert stream[0..] == stream;
    while i < |stream|
      invariant 0 <= i <= |stream|
      invariant delivered + Map(convert, ThroughFirst(stop, stream[i..])) == Map(convert, ThroughFirst(stop, stream))
    {
      assert stream[i..][0] == stream[i] && stream[i..][1..] == stream[i + 1..];
      var shouldBreak := stop(stream[i]);
      assert Map(convert, ThroughFirst(stop, stream[i..]))
          == [convert(stream[i])] + (if shouldBreak then [] else Map(convert, ThroughFirst(stop, stream[i + 1..])));
      delivered := delivered + [convert(stream[i])];
      if shouldBreak {
        break;
      }
      i := i + 1;
    }
  }

  datatype CancelInfo = CancelInfo(reason: string, cancelCode: string, cancelledByUs: bool)

  // ---- SAS ----

  datatype RustSasState =
    | RustCreated | RustStarted | RustAccepted
    | RustKeysExchanged(emojis: Option<seq<nat>>, decimals: (nat, nat, nat))
    | RustConfirmed | RustDone | RustCancelled(info: CancelInfo)

  datatype SasState =
    | Created | Started | Accepted | KeysExchanged(emojis: Option<seq<int>>, decimals: seq<int>)
    | Confirmed | Done | Cancelled(cancelInfo: CancelInfo)

  function ConvertSas(s: RustSasState): SasState {
    match s
    case RustCreated => Created
    case RustStarted => Started
    case RustAccepted => Accepted
    case RustKeysExchanged(emojis, d) =>
      KeysExchanged(if emojis.Some? then Some(Map((i: nat) => i as int, emojis.value)) else None, [d.0, d.1, d.2])
    case RustConfirmed => Confirmed
    case RustDone => Done
    case RustCancelled(info) => Cancelled(info)
  }

  predicate SasEnds(s: RustSasState) { s.RustDone? || s.RustCancelled? }

  predicate SasShowsEnd(s: SasState) { s.Done? || s.Cancelled? }

  // ---- QR code ----

  datatype QrVerificationState =
    | QrVStarted | QrVScanned | QrVConfirmed | QrVReciprocated | QrVDone | QrVCancelled(info: CancelInfo)

  datatype QrCodeState =
    | QrStarted | QrScanned | QrConfirmed | QrReciprocated | QrDone | QrCancelled(cancelInfo: CancelInfo)

  function ConvertQr(s: QrVerificationState): QrCodeState {
    match s
    case QrVStarted => QrStarted
    case QrVScanned => QrScanned
    case QrVConfirmed => QrConfirmed
    case QrVReciprocated => QrReciprocated
    case QrVDone => QrDone
    case QrVCancelled(info) => QrCancelled(info)
  }

  predicate QrEnds(s: QrVerificationState) { s.QrVDone? || s.QrVCancelled? }

  predicate QrShowsEnd(s: QrCodeState) { s.QrDone? || s.QrCancelled? }

  // ---- What the callback gets ----

  /** A trace in which only the last entry may satisfy `end`. */
  predicate EndsOnce<V>(end: V -> bool, trace: seq<V>) {
    forall i :: 0 <= i < |trace| - 1 ==> !end(trace[i])
  }

  lemma DeliveredEndsOnce<S(!new), V>(stream: seq<S>, stop: S -> bool, convert: S -> V, end: V -> bool)
    requires forall s: S :: stop(s) <==> end(convert(s))
    ensures var delivered := Map(convert, ThroughFirst(stop, stream));
            && EndsOnce(end, delivered)
            && |delivered| <= |stream| && delivered == Map(convert, stream[..|delivered|])
            && (|delivered| < |stream| ==> |delivered| > 0 && end(delivered[|delivered| - 1]))
  {
    ThroughFirstIsCut(stop, stream);
  }

  /** `Sas::changes_listener`: a done or cancelled state is reported once and last, and nothing after it. */
  method SasListener(stream: seq<RustSasState>) returns (delivered: seq<SasState>)
    ensures EndsOnce(SasShowsEnd, delivered)
    ensures |delivered| <= |stream| && delivered == Map(ConvertSas, stream[..|delivered|])
    ensures |delivered| < |stream| ==> |delivered| > 0 && SasShowsEnd(delivered[|delivered| - 1])
  {
    DeliveredEndsOnce(stream, SasEnds, ConvertSas, SasShowsEnd);
    delivered := ChangesListener(stream, SasEnds, ConvertSas);
  }

  /** `QrCode::changes_listener`. */
  method QrListener(stream: seq<QrVerificationState>) returns (delivered: seq<QrCodeState>)
    ensures EndsOnce(QrShowsEnd, delivered)
    ensures |delivered| <= |stream| && delivered == Map(ConvertQr, stream[..|delivered|])
    ensures |delivered| < |stream| ==> |delivered| > 0 && QrShowsEnd(delivered[|delivered| - 1])
  {
    DeliveredEndsOnce(stream, QrEnds, ConvertQr, QrShowsEnd);
    delivered := ChangesListener(stream, QrEnds, ConvertQr);
  }
}

/**
  A verification request and its changes listener, step by step. The request is
  an observable value shared by several tasks; starting a verification method
  reads it, awaits, and then writes without looking again. The listener takes the
  newest value and converts it in a later step, asking the live request for the
  method lists when the value is `Transitioned`.
 */
module VerificationRequests {
  import opened Sequences

  datatype Methods = Methods(theirs: seq<string>, ours: seq<string>)

  /** `InnerRequest`; `flow` tells the verification flows of one request apart. */
  datatype Request =
    | Created(ours: seq<string>)
    | Requested(theirs: seq<string>)
    | Ready(methods: Methods)
    | Transitioned(methods: Methods, flow: nat)
    | Passive
    | Done
    | Cancelled(code: string)

  /** `VerificationRequestState` as the client sees it. */
  datatype Visible =
    | VRequested
    | VReady(theirs: seq<string>, ours: seq<string>)
    | VDone
    | VCancelled(code: string)

  /** Where the listener task is; `Unset` until `set_changes_listener` is called. */
  datatype Listener =
    | Unset
    | Waiting
    | Holding(item: Request)
    | HoldingTheirs(item: Request, theirs: seq<string>)
    | Stopped
    | Panicked

  /**
    `version` counts the writes to the observable, `seen` is the last one the
    listener took, `starts` are the calls that read the request and will write it.
   */
  datatype State = State(
    live: Request, version: nat, seen: nat, starts: map<nat, Methods>, listener: Listener, delivered: seq<Visible>)

  datatype Action =
    | ReceiveReady(theirs: seq<string>, otherOwnDevice: bool)
    | Accept(ours: seq<string>)
    | BeginStart(id: nat)
    | EndStart(id: nat, flow: nat)
    | AbandonStart(id: nat)
    | ReceiveDone
    | Cancel(code: string)
    | SetListener
    | Poll
    | Deliver
    | ReadTheirs
    | ReadOurs

  /** `their_supported_methods` of the live request. */
  function Theirs(r: Request): Option<seq<string>> {
    match r
    case Requested(t) => Some(t)
    case Ready(m) => Some(m.theirs)
    case Transitioned(m, _) => Some(m.theirs)
    case _ => None
  }

  /** `our_supported_methods` of the live request. */
  function Ours(r: Request): Option<seq<string>> {
    match r
    case Created(o) => Some(o)
    case Ready(m) => Some(m.ours)
    case Transitioned(m, _) => Some(m.ours)
    case _ => None
  }

  predicate HasMethods(r: Request) { r.Ready? || r.Transitioned? }

  predicate Terminal(r: Request) { r.Passive? || r.Done? || r.Cancelled? }

  /** The conversion of every state but `Transitioned`. */
  function Convert(r: Request): Visible
    requires !r.Transitioned?
  {
    match r
    case Created(_) => VRequested
    case Requested(_) => VRequested
    case Ready(m) => VReady(m.theirs, m.ours)
    case Passive => VCancelled("m.accepted")
    case Done => VDone
    case Cancelled(code) => VCancelled(code)
  }

  predicate Enabled(s: State, a: Action) {
    match a
    case BeginStart(id) => id !in s.starts && HasMethods(s.live)
    case EndStart(id, _) => id in s.starts
    case AbandonStart(id) => id in s.starts
    case SetListener => s.listener.Unset?
    case Poll => s.listener.Waiting? && s.seen < s.version
    case Deliver => s.listener.Holding? && !s.listener.item.Transitioned?
    case ReadTheirs => s.listener.Holding? && s.listener.item.Transitioned?
    case ReadOurs => s.listener.HoldingTheirs?
    case _ => true
  }

  function Write(s: State, r: Request): State { s.(live := r, version := s.version + 1) }

  function Step(s: State, a: Action): State
    requires Enabled(s, a)
  {
    match a
    case ReceiveReady(theirs, otherOwnDevice) =>
      if s.live.Created? then Write(s, Ready(Methods(theirs, s.live.ours)))
      else if s.live.Requested? && otherOwnDevice then Write(s, Passive)
      else s
    case Accept(ours) => if s.live.Requested? then Write(s, Ready(Methods(s.live.theirs, ours))) else s
    case BeginStart(id) => s.(starts := s.starts[id := s.live.methods])
    case EndStart(id, flow) => Write(s, Transitioned(s.starts[id], flow)).(starts := s.starts - {id})
    case AbandonStart(id) => s.(starts := s.starts - {id})
    case ReceiveDone => if s.live.Transitioned? || s.live.Passive? then Write(s, Done) else s
    case Cancel(code) => if Terminal(s.live) then s else Write(s, Cancelled(code))
    case SetListener => s.(seen := s.version, listener := Waiting)
    case Poll => s.(seen := s.version, listener := Holding(s.live))
    case Deliver =>
      s.(delivered := s.delivered + [Convert(s.listener.item)],
         listener := if Terminal(s.listener.item) then Stopped else Waiting)
    case ReadTheirs =>
      (match Theirs(s.live)
       case Some(t) => s.(listener := HoldingTheirs(s.listener.item, t))
       case None => s.(listener := Panicked))
    case ReadOurs =>
      (match Ours(s.live)
       case Some(o) => s.(delivered := s.delivered + [VReady(s.listener.theirs, o)], listener := Waiting)
       case None => s.(listener := Panicked))
  }

  /** A request we sent (`Created`) or received (`Requested`). The listener is set at any later moment. */
  predicate Initial(s: State) {
    && (s.live.Created? || s.live.Requested?)
    && s.seen == s.version && s.starts == map[] && s.listener == Unset && s.delivered == []
  }

  ghost predicate IsRun(run: seq<Action>, states: seq<State>) {
    && |states| == |run| + 1
    && Initial(states[0])
    && forall i :: 0 <= i < |run| ==> Enabled(states[i], run[i]) && states[i + 1] == Step(states[i], run[i])
  }

  /** One more step of a run. */
  lemma Continue(run: seq<Action>, states: seq<State>, a: Action) returns (run': seq<Action>, states': seq<State>)
    requires IsRun(run, states) && Enabled(states[|run|], a)
    ensures IsRun(run', states') && |run'| == |run| + 1
    ensures states'[|run'|] == Step(states[|run|], a) && states'[|run|] == states[|run|]
  {
    run', states' := run + [a], states + [Step(states[|run|], a)];
  }

  // ---- Invariants of every run ----

  /** The method lists held anywhere: by the live request, a start in progress, or the listener. */
  predicate Holds(s: State, m: Methods) {
    || (HasMethods(s.live) && s.live.methods == m)
    || (exists id :: id in s.starts && s.starts[id] == m)
    || (s.listener.Holding? && HasMethods(s.listener.item) && s.listener.item.methods == m)
    || (s.listener.HoldingTheirs? && HasMethods(s.listener.item) && s.listener.item.methods == m)
  }

  predicate Young(r: Request) { r.Created? || r.Requested? }

  /** All method lists are the same, and there are none before the request is ready. */
  ghost predicate MethodsAgree(s: State) {
    && (forall m, m' :: Holds(s, m) && Holds(s, m') ==> m == m')
    && (Young(s.live) || s.live.Passive? ==> forall m :: !Holds(s, m))
    && (s.listener.HoldingTheirs? ==>
         s.listener.item.Transitioned? && s.listener.theirs == s.listener.item.methods.theirs)
  }

  lemma StepAgrees(s: State, a: Action)
    requires MethodsAgree(s) && Enabled(s, a)
    ensures MethodsAgree(Step(s, a))
  {
    var s' := Step(s, a);
    match a
    case BeginStart(id) =>
      assert Holds(s, s.live.methods);
      forall m | Holds(s', m) ensures Holds(s, m) {}
    case EndStart(id, flow) =>
      assert Holds(s, s.starts[id]);
      forall m | Holds(s', m) ensures Holds(s, m) {}
    case AbandonStart(id) =>
      forall m | Holds(s', m) ensures Holds(s, m) {}
    case ReceiveReady(theirs, o) =>
      if s.live.Created? {
        forall m | Holds(s', m) ensures m == Methods(theirs, s.live.ours) { assert !Holds(s, m); }
      } else {
        forall m | Holds(s', m) ensures Holds(s, m) {}
      }
    case Accept(ours) =>
      if s.live.Requested? {
        forall m | Holds(s', m) ensures m == Methods(s.live.theirs, ours) { assert !Holds(s, m); }
      }
    case ReadTheirs =>
      assert Holds(s, s.listener.item.methods);
      assert HasMethods(s.live) ==> Holds(s, s.live.methods);
      forall m | Holds(s', m) ensures Holds(s, m) {}
    case _ =>
      forall m | Holds(s', m) ensures Holds(s, m) {}
  }

  lemma {:induction false} RunAgrees(run: seq<Action>, states: seq<State>, i: nat)
    requires IsRun(run, states) && i <= |run|
    ensures MethodsAgree(states[i])
  {
    if i > 0 {
      RunAgrees(run, states, i - 1);
      StepAgrees(states[i - 1], run[i - 1]);
    }
  }

  // ---- The live request ----

  function Rank(r: Request): nat {
    if Young(r) then 0 else if HasMethods(r) then 1 else 2
  }

  /**
    What `state()` shows moves backwards in exactly one situation: a start that read
    the request earlier writes after the request was done or cancelled.
   */
  lemma LiveMovesBackIff(run: seq<Action>, states: seq<State>, i: nat)
    requires IsRun(run, states) && i < |run|
    ensures Rank(states[i + 1].live) < Rank(states[i].live)
            <==> run[i].EndStart? && (states[i].live.Done? || states[i].live.Cancelled?)
  {
    RunAgrees(run, states, i);
    var s := states[i];
    if run[i].EndStart? {
      assert Holds(s, s.starts[run[i].id]);
    }
  }

  /** Such a run exists: the request is cancelled while a start awaits, and comes back. */
  lemma CancelledRequestComesBack() returns (run: seq<Action>, states: seq<State>, i: nat)
    ensures IsRun(run, states) && i < |run|
    ensures states[i].live.Cancelled? && states[i + 1].live.Transitioned?
  {
    run, states := [], [State(Created([]), 0, 0, map[], Unset, [])];
    run, states := Continue(run, states, ReceiveReady([], false));
    run, states := Continue(run, states, BeginStart(0));
    run, states := Continue(run, states, Cancel("m.user"));
    i := |run|;
    run, states := Continue(run, states, EndStart(0, 0));
  }

  // ---- The listener ----

  function VisibleRank(v: Visible): nat {
    match v
    case VRequested => 0
    case VReady(_, _) => 1
    case VDone => 2
    case VCancelled(_) => 2
  }

  predicate Ascending(trace: seq<Visible>) {
    forall i, j :: 0 <= i < j < |trace| ==> VisibleRank(trace[i]) <= VisibleRank(trace[j])
  }

  predicate EndsOnce(trace: seq<Visible>) {
    forall i :: 0 <= i < |trace| - 1 ==> VisibleRank(trace[i]) < 2
  }

  function LastRank(trace: seq<Visible>): nat {
    if trace == [] then 0 else VisibleRank(trace[|trace| - 1])
  }

  /** What the callback got so far is in order, and what the listener holds continues it. */
  ghost predicate TraceInv(s: State) {
    && Ascending(s.delivered) && EndsOnce(s.delivered)
    && (s.listener.Stopped? <==> LastRank(s.delivered) == 2)
    && (LastRank(s.delivered) >= 1 ==> !Young(s.live))
    && (s.listener.Holding? || s.listener.HoldingTheirs? ==>
          LastRank(s.delivered) <= Rank(s.listener.item) && (Young(s.live) ==> Young(s.listener.item)))
    && (s.listener.HoldingTheirs? ==> s.listener.item.Transitioned?)
  }

  lemma SnocTrace(trace: seq<Visible>, v: Visible)
    requires Ascending(trace) && EndsOnce(trace) && LastRank(trace) <= VisibleRank(v) && LastRank(trace) < 2
    ensures Ascending(trace + [v]) && EndsOnce(trace + [v])
  {
    forall i | 0 <= i < |trace| ensures VisibleRank(trace[i]) <= LastRank(trace) {
      if i < |trace| - 1 {
        assert VisibleRank(trace[i]) <= VisibleRank(trace[|trace| - 1]);
      }
    }
  }

  predicate OfListener(a: Action) {
    a.SetListener? || a.Poll? || a.Deliver? || a.ReadTheirs? || a.ReadOurs?
  }

  lemma LiveStepKeepsTrace(s: State, a: Action)
    requires TraceInv(s) && MethodsAgree(s) && Enabled(s, a) && !OfListener(a)
    ensures TraceInv(Step(s, a))
  {
    var s' := Step(s, a);
    assert s'.delivered == s.delivered && s'.listener == s.listener;
    if a.EndStart? {
      assert Holds(s, s.starts[a.id]);
    }
    assert Young(s'.live) ==> Young(s.live);
  }

  lemma ListenerStepKeepsTrace(s: State, a: Action)
    requires TraceInv(s) && Enabled(s, a) && OfListener(a)
    ensures TraceInv(Step(s, a))
  {
    var s' := Step(s, a);
    if a.Deliver? {
      SnocTrace(s.delivered, Convert(s.listener.item));
    } else if a.ReadOurs? && Ours(s.live).Some? {
      SnocTrace(s.delivered, VReady(s.listener.theirs, Ours(s.live).value));
    } else {
      assert s'.delivered == s.delivered;
    }
  }

  /**
    Although the live request can go back, what the callback gets never does: the
    listener stops at the first done or cancelled state, which is reported once and last.
   */
  lemma {:induction false} DeliveredNeverMovesBack(run: seq<Action>, states: seq<State>, i: nat)
    requires IsRun(run, states) && i <= |run|
    ensures TraceInv(states[i])
    ensures Ascending(states[i].delivered) && EndsOnce(states[i].delivered)
    ensures states[i].listener.Stopped? <==>
              states[i].delivered != [] && VisibleRank(states[i].delivered[|states[i].delivered| - 1]) == 2
  {
    if i > 0 {
      DeliveredNeverMovesBack(run, states, i - 1);
      RunAgrees(run, states, i - 1);
      if OfListener(run[i - 1]) {
        ListenerStepKeepsTrace(states[i - 1], run[i - 1]);
      } else {
        LiveStepKeepsTrace(states[i - 1], run[i - 1]);
      }
    }
  }

  /** Once stopped, nothing is delivered any more. */
  lemma {:induction false} NothingAfterTheEnd(run: seq<Action>, states: seq<State>, i: nat, j: nat)
    requires IsRun(run, states) && i <= j <= |run| && states[i].listener.Stopped?
    ensures states[j].listener.Stopped? && states[j].delivered == states[i].delivered
  {
    if i < j {
      NothingAfterTheEnd(run, states, i, j - 1);
    }
  }

  /**
    Converting a `Transitioned` item asks the live request twice. Either question
    panics exactly when the request was done or cancelled by then; otherwise the
    client gets the method lists the item was queued with.
   */
  lemma TransitionedConverts(run: seq<Action>, states: seq<State>, i: nat)
    requires IsRun(run, states) && i < |run| && (run[i].ReadTheirs? || run[i].ReadOurs?)
    ensures states[i].listener.item.Transitioned?
    ensures states[i + 1].listener.Panicked? <==> states[i].live.Done? || states[i].live.Cancelled?
    ensures var m := states[i].listener.item.methods;
            !states[i + 1].listener.Panicked? ==>
              if run[i].ReadTheirs? then states[i + 1].listener == HoldingTheirs(states[i].listener.item, m.theirs)
              else states[i + 1].delivered == states[i].delivered + [VReady(m.theirs, m.ours)]
  {
    RunAgrees(run, states, i);
    var s := states[i];
    assert Holds(s, s.listener.item.methods);
    assert HasMethods(s.live) ==> Holds(s, s.live.methods);
  }

  /** A run after which a `Transitioned` item is queued. */
  lemma ItemQueued() returns (run: seq<Action>, states: seq<State>)
    ensures IsRun(run, states)
    ensures var s := states[|run|]; s.live.Transitioned? && s.listener.Waiting? && Enabled(s, Poll)
  {
    run, states := [], [State(Created([]), 0, 0, map[], Unset, [])];
    run, states := Continue(run, states, SetListener);
    run, states := Continue(run, states, ReceiveReady([], false));
    run, states := Continue(run, states, BeginStart(0));
    run, states := Continue(run, states, EndStart(0, 0));
  }

  /** The panic is reachable: the request is cancelled between the poll and the conversion. */
  lemma QueuedItemCanPanic() returns (run: seq<Action>, states: seq<State>)
    ensures IsRun(run, states) && states[|run|].listener.Panicked?
  {
    run, states := ItemQueued();
    run, states := Continue(run, states, Poll);
    run, states := Continue(run, states, Cancel("m.user"));
    run, states := Continue(run, states, ReadTheirs);
  }
}
