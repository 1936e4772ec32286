/** The reconciliation engine: observations become a deduplicated stream of transitions, and
    waiting for connectivity is bounded by one grace timer. */
module Engine {
  import opened Text
  import Connectivity

  datatype Mode = NoMode | ModeNone | ModeInfrastructure | ModeStandalone | ModeProvisioning

  datatype Stage =
    | NoStage | Booting | Reconciling | WaitingForConnectivity | Infrastructure | Standalone | Provisioning
    | Failed | Stopped

  datatype Condition = Unknown | Disconnected | Connecting | Activated | DeviceFailed

  datatype Reason =
    | NoReason | Starting | InspectingNetwork | InfrastructureReady | StandaloneActive | ProvisioningActive
    | NoCandidate | WaitingForActivation | NotYetConnected | ActivationFailed | ActivationTimedOut
    | ConnectivityTimedOut | DeviceUnmanaged | ObservationFailed | Interrupted

  datatype Detail = NoDetail | Because(verdict: Connectivity.Verdict) | ErrorText(text: string)

  datatype Summary = Summary(uuid: string, mode: Mode, autoconnect: bool)

  datatype Snapshot = Snapshot(
    managed: bool,
    condition: Condition,
    activeUuid: string,
    activeMode: Mode,
    connectivity: Connectivity.Observation,
    profiles: seq<Summary>)

  datatype State = State(sequence: nat, stage: Stage, mode: Mode, reason: Reason, detail: Detail)

  datatype Trigger = Boot | NetworkChanged | GraceExpired | Cancelled

  datatype Transition = Transition(previous: State, current: State, trigger: Trigger)

  const ZERO := State(0, NoStage, NoMode, NoReason, NoDetail)

  const BOOTING := State(0, Booting, ModeNone, Starting, NoDetail)

  function At(stage: Stage, mode: Mode, reason: Reason): State {
    State(0, stage, mode, reason, NoDetail)
  }

  predicate SameState(a: State, b: State) {
    a.stage == b.stage && a.mode == b.mode && a.reason == b.reason && a.detail == b.detail
  }

  predicate HasAutoconnect(profiles: seq<Summary>, mode: Mode) {
    exists p :: p in profiles && p.mode == mode && p.autoconnect
  }

  method FindAutoconnect(profiles: seq<Summary>, mode: Mode) returns (found: bool)
    ensures found <==> HasAutoconnect(profiles, mode)
  {
    for n := 0 to |profiles|
      invariant forall i :: 0 <= i < n ==> !(profiles[i].mode == mode && profiles[i].autoconnect)
    {
      if profiles[n].mode == mode && profiles[n].autoconnect {
        return true;
      }
    }
    return false;
  }

  function Evaluate(s: Snapshot, requirement: Connectivity.Requirement, timedOut: bool): State {
    if !s.managed then At(Failed, ModeNone, DeviceUnmanaged)
    else if s.activeMode == ModeProvisioning then At(Provisioning, ModeProvisioning, ProvisioningActive)
    else if s.activeMode == ModeStandalone then At(Standalone, ModeStandalone, StandaloneActive)
    else if HasAutoconnect(s.profiles, ModeStandalone) then
      if s.condition == DeviceFailed then At(Provisioning, ModeProvisioning, ActivationFailed)
      else if timedOut then At(Provisioning, ModeProvisioning, ActivationTimedOut)
      else At(WaitingForConnectivity, ModeStandalone, WaitingForActivation)
    else if s.activeMode != ModeInfrastructure && !HasAutoconnect(s.profiles, ModeInfrastructure) then
      At(Provisioning, ModeProvisioning, NoCandidate)
    else if s.condition == DeviceFailed then At(Provisioning, ModeProvisioning, ActivationFailed)
    else
      var result := Connectivity.Evaluate(requirement, s.connectivity);
      if s.activeMode == ModeInfrastructure && result.accepted then
        At(Infrastructure, ModeInfrastructure, InfrastructureReady)
      else if timedOut then
        if s.activeMode == ModeInfrastructure then
          State(0, Provisioning, ModeProvisioning, ConnectivityTimedOut, Because(result.reason))
        else At(Provisioning, ModeProvisioning, ActivationTimedOut)
      else if s.activeMode == ModeInfrastructure then
        State(0, WaitingForConnectivity, ModeInfrastructure, NotYetConnected, Because(result.reason))
      else At(WaitingForConnectivity, ModeInfrastructure, WaitingForActivation)
  }

  /** There is a network to wait for: one is active, or a profile would start on its own. */
  predicate HasCandidate(s: Snapshot) {
    s.activeMode == ModeInfrastructure || HasAutoconnect(s.profiles, ModeInfrastructure) ||
    HasAutoconnect(s.profiles, ModeStandalone)
  }

  /** A managed device that runs neither access point. */
  predicate Unsettled(s: Snapshot) {
    s.managed && s.activeMode != ModeProvisioning && s.activeMode != ModeStandalone
  }

  /** The active network is the one the device is meant to use, and it suffices. */
  predicate Satisfied(s: Snapshot, requirement: Connectivity.Requirement) {
    s.activeMode == ModeInfrastructure && !HasAutoconnect(s.profiles, ModeStandalone) &&
    Connectivity.Evaluate(requirement, s.connectivity).accepted
  }

  /** Neither good nor hopeless yet: only time decides. */
  predicate Pending(s: Snapshot, requirement: Connectivity.Requirement) {
    Unsettled(s) && HasCandidate(s) && s.condition != DeviceFailed && !Satisfied(s, requirement)
  }

  /** What a snapshot is judged to be: each stage and each way into provisioning, with exactly
      the snapshots that get it. */
  lemma EvaluateDecides(s: Snapshot, requirement: Connectivity.Requirement, timedOut: bool)
    ensures var e := Evaluate(s, requirement, timedOut);
            && e.sequence == 0
            && (e.stage == Failed <==> !s.managed)
            && (e.stage == Standalone <==> s.managed && s.activeMode == ModeStandalone)
            && (e.stage == Infrastructure <==>
                 s.managed && s.condition != DeviceFailed && Satisfied(s, requirement))
            && (e.stage == WaitingForConnectivity <==> Pending(s, requirement) && !timedOut)
            && (e.reason in {ActivationTimedOut, ConnectivityTimedOut} <==> Pending(s, requirement) && timedOut)
            && (e.reason == ProvisioningActive <==> s.managed && s.activeMode == ModeProvisioning)
            && (e.reason == NoCandidate <==> Unsettled(s) && !HasCandidate(s))
            && (e.reason == ActivationFailed <==> Unsettled(s) && HasCandidate(s) && s.condition == DeviceFailed)
            && e.stage !in {NoStage, Booting, Reconciling, Stopped}
            && e.reason !in {NoReason, Starting, InspectingNetwork, ObservationFailed, Interrupted}
  {
  }

  /** The mode, the reason and the detail that come with each stage. A device on its way is on its way
      to the access point if that would start on its own, and only a network that is active
      but not good enough is explained by a verdict. */
  lemma EvaluateExplains(s: Snapshot, requirement: Connectivity.Requirement, timedOut: bool)
    ensures var e := Evaluate(s, requirement, timedOut);
            var ownNetwork := s.activeMode == ModeInfrastructure && !HasAutoconnect(s.profiles, ModeStandalone);
            && (e.stage == Failed ==> e.mode == ModeNone && e.reason == DeviceUnmanaged)
            && (e.stage == Standalone ==> e.mode == ModeStandalone && e.reason == StandaloneActive)
            && (e.stage == Infrastructure ==> e.mode == ModeInfrastructure && e.reason == InfrastructureReady)
            && (e.stage == Provisioning ==> e.mode == ModeProvisioning)
            && (e.stage == WaitingForConnectivity ==>
                 && e.mode == (if HasAutoconnect(s.profiles, ModeStandalone) then ModeStandalone else ModeInfrastructure)
                 && e.reason == (if ownNetwork then NotYetConnected else WaitingForActivation))
            && (e.reason == ConnectivityTimedOut ==> ownNetwork) && (e.reason == ActivationTimedOut ==> !ownNetwork)
            && e.detail == (if e.reason == NotYetConnected || e.reason == ConnectivityTimedOut
                            then Because(Connectivity.Evaluate(requirement, s.connectivity).reason) else NoDetail)
  {
  }

  /** Time running out changes nothing except that waiting becomes provisioning. */
  lemma TimeoutOnlyEndsWaiting(s: Snapshot, requirement: Connectivity.Requirement)
    ensures var e, late := Evaluate(s, requirement, false), Evaluate(s, requirement, true);
            if e.stage == WaitingForConnectivity then late.stage == Provisioning && late.detail == e.detail
            else late == e
  {
  }

  /** What NetworkManager shows when it is asked for a snapshot. */
  datatype Sight = Seen(snapshot: Snapshot) | Unseen(text: string)

  /** Everything a reconciliation does not decide itself: the snapshot, whether the context
      is cancelled when the first emission, the snapshot and the last emission end, and
      whether each emission was received. */
  datatype Weather = Weather(
    sight: Sight,
    early: bool, middle: bool, late: bool,
    firstSent: bool, lastSent: bool)

  /** The variables of a run. `timer` names the armed grace timer, `armed` counts the timers
      ever created. */
  datatype Run = Run(
    current: State,
    sequence: nat,
    timer: Option<nat>,
    armed: nat,
    cancelled: bool,
    changesOpen: bool,
    stream: seq<Transition>,
    returned: bool)

  const INITIAL := Run(ZERO, 0, None, 0, false, true, [], false)

  /** A duplicate is dropped; an emission that the cancelled context cut off has used up its
      sequence number. */
  function Emit(r: Run, next: State, trigger: Trigger, sent: bool): Run {
    if SameState(r.current, next) then r
    else
      var numbered := next.(sequence := r.sequence + 1);
      if sent then
        r.(sequence := r.sequence + 1, current := numbered,
           stream := r.stream + [Transition(r.current, numbered, trigger)])
      else r.(sequence := r.sequence + 1)
  }

  predicate Emitted(r: Run, next: State, sent: bool) {
    SameState(r.current, next) || sent
  }

  function ReconcilingState(r: Run): State {
    At(Reconciling, r.current.mode, InspectingNetwork)
  }

  function FailedState(text: string): State {
    State(0, Failed, ModeNone, ObservationFailed, ErrorText(text))
  }

  /** The grace timer runs exactly while the next stage is waiting, and is armed only once. */
  function Timed(r: Run, next: State): Run {
    if next.stage != WaitingForConnectivity then r.(timer := None)
    else if r.timer.Some? then r
    else r.(timer := Some(r.armed), armed := r.armed + 1)
  }

  function Announce(r: Run, trigger: Trigger, w: Weather): Run {
    if trigger == Boot then Emit(r.(cancelled := w.early), ReconcilingState(r), trigger, w.firstSent)
    else r.(cancelled := w.early)
  }

  predicate Announced(r: Run, trigger: Trigger, w: Weather) {
    trigger == Boot ==> Emitted(r, ReconcilingState(r), w.firstSent)
  }

  function Judge(r: Run, trigger: Trigger, timedOut: bool, requirement: Connectivity.Requirement, w: Weather): Run {
    match w.sight
    case Unseen(text) =>
      if w.middle then r.(cancelled := true)
      else Emit(r.(timer := None, cancelled := w.late), FailedState(text), trigger, w.lastSent)
    case Seen(s) =>
      var next := Evaluate(s, requirement, timedOut);
      Emit(Timed(r, next).(cancelled := w.late), next, trigger, w.lastSent)
  }

  function Reconcile(r: Run, trigger: Trigger, timedOut: bool, requirement: Connectivity.Requirement, w: Weather): Run {
    var announced := Announce(r, trigger, w);
    if Announced(r, trigger, w) then Judge(announced, trigger, timedOut, requirement, w) else announced
  }

  /** Cancellation is permanent, and only a cancelled context cuts an emission off. */
  predicate Feasible(cancelled: bool, w: Weather) {
    && (cancelled ==> w.early) && (w.early ==> w.middle) && (w.middle ==> w.late)
    && (!w.firstSent ==> w.early) && (!w.lastSent ==> w.late)
  }

  datatype Input =
    | Changed(weather: Weather)
    | ChangesClosed
    | WatchFailed
    | GraceFired(id: nat, weather: Weather)
    | CancelSeen(room: bool)

  function StoppedState(r: Run): State {
    State(r.sequence + 1, Stopped, r.current.mode, Interrupted, NoDetail)
  }

  /** One iteration of the select loop; an input that no case of the select receives does
      nothing. */
  function Step(r: Run, requirement: Connectivity.Requirement, i: Input): Run {
    if r.returned then r
    else
      match i
      case Changed(w) => if r.changesOpen then Reconcile(r, NetworkChanged, false, requirement, w) else r
      case ChangesClosed => r.(changesOpen := false)
      case WatchFailed => r
      case GraceFired(id, w) =>
        if r.timer == Some(id) then Reconcile(r.(timer := None), GraceExpired, true, requirement, w) else r
      case CancelSeen(room) =>
        if !r.cancelled then r
        else
          r.(timer := None, sequence := r.sequence + 1, returned := true,
             stream := if room then r.stream + [Transition(r.current, StoppedState(r), Cancelled)] else r.stream)
  }

  predicate Possible(r: Run, i: Input) {
    match i
    case Changed(w) => Feasible(r.cancelled, w)
    case GraceFired(_, w) => Feasible(r.cancelled, w)
    case _ => true
  }

  /** The start of a run: the booting state, then the first reconciliation. */
  function Booted(requirement: Connectivity.Requirement, sent: bool, w: Weather): Run {
    if sent then Reconcile(Emit(INITIAL, BOOTING, Boot, true), Boot, false, requirement, w)
    else Emit(INITIAL, BOOTING, Boot, false).(cancelled := true, returned := true)
  }

  function Execute(r: Run, requirement: Connectivity.Requirement, inputs: seq<Input>): Run {
    if inputs == [] then r
    else Step(Execute(r, requirement, inputs[..|inputs| - 1]), requirement, inputs[|inputs| - 1])
  }

  ghost predicate Script(r: Run, requirement: Connectivity.Requirement, inputs: seq<Input>) {
    inputs == [] ||
    (Script(r, requirement, inputs[..|inputs| - 1]) &&
     Possible(Execute(r, requirement, inputs[..|inputs| - 1]), inputs[|inputs| - 1]))
  }

  lemma {:induction false} OneMore(r: Run, requirement: Connectivity.Requirement, inputs: seq<Input>, i: Input)
    requires Script(r, requirement, inputs) && Possible(Execute(r, requirement, inputs), i)
    ensures Script(r, requirement, inputs + [i])
    ensures Execute(r, requirement, inputs + [i]) == Step(Execute(r, requirement, inputs), requirement, i)
  {
    assert (inputs + [i])[..|inputs|] == inputs;
  }

  /** What a sight amounts to: the judgement of the snapshot, or a failed observation and its text. */
  ghost predicate Shows(state: State, sight: Sight, requirement: Connectivity.Requirement, timedOut: bool) {
    match sight
    case Seen(s) => SameState(state, Evaluate(s, requirement, timedOut))
    case Unseen(text) =>
      state.stage == Failed && state.mode == ModeNone && state.reason == ObservationFailed && state.detail == ErrorText(text)
  }

  /** The stream only grows, and grows under this trigger. */
  ghost predicate Extends(r: Run, r': Run, trigger: Trigger) {
    && r.stream <= r'.stream
    && forall i :: |r.stream| <= i < |r'.stream| ==> r'.stream[i].trigger == trigger
  }

  lemma {:induction false} ReconcileExtends(r: Run, trigger: Trigger, timedOut: bool,
                                            requirement: Connectivity.Requirement, w: Weather)
    ensures Extends(r, Reconcile(r, trigger, timedOut, requirement, w), trigger)
  {
    var announced := Announce(r, trigger, w);
    assert Extends(r, announced, trigger);
    JudgeExtends(announced, trigger, timedOut, requirement, w);
  }

  /** A reconciliation that is not cut off leaves the run in the state its snapshot calls for, keeps
      what was sent and sends what it adds under its own trigger, and keeps the grace timer
      running exactly if that state is waiting. */
  lemma {:induction false} ReconcileShows(r: Run, trigger: Trigger, timedOut: bool,
                                          requirement: Connectivity.Requirement, w: Weather)
    requires Feasible(r.cancelled, w) && !w.late
    ensures var r' := Reconcile(r, trigger, timedOut, requirement, w);
            && Shows(r'.current, w.sight, requirement, timedOut) && !r'.cancelled && r'.returned == r.returned
            && Extends(r, r', trigger)
            && (r'.timer.Some? <==> r'.current.stage == WaitingForConnectivity)
  {
    ReconcileExtends(r, trigger, timedOut, requirement, w);
    if w.sight.Seen? {
      EvaluateDecides(w.sight.snapshot, requirement, timedOut);
    }
  }

  /** A run that sees its cancellation ends. Its last state says so and keeps the mode, if the
      stream has room for it. */
  lemma {:induction false} CancelEnds(r: Run, requirement: Connectivity.Requirement, room: bool)
    requires r.cancelled && !r.returned
    ensures var r' := Step(r, requirement, CancelSeen(room));
            && r'.returned && r'.timer.None? && r'.current == r.current
            && (!room ==> r'.stream == r.stream)
            && (room ==>
                 && |r'.stream| == |r.stream| + 1 && r'.stream[..|r.stream|] == r.stream
                 && var last := r'.stream[|r.stream|];
                    && last.previous == r.current && last.trigger == Cancelled
                    && last.current.stage == Stopped && last.current.reason == Interrupted
                    && last.current.mode == r.current.mode && last.current.sequence == r.sequence + 1)
  {
  }

  function Last(stream: seq<Transition>): State {
    if stream == [] then ZERO else stream[|stream| - 1].current
  }

  /** Each transition starts where the one before it ended, is numbered higher, changes what
      can be observed, and never follows a stop. */
  predicate Linked(previous: State, t: Transition) {
    && t.previous == previous && previous.sequence < t.current.sequence
    && !SameState(previous, t.current) && previous.stage != Stopped
  }

  predicate Chain(stream: seq<Transition>) {
    stream == [] || (Chain(stream[..|stream| - 1]) && Linked(Last(stream[..|stream| - 1]), stream[|stream| - 1]))
  }

  lemma ChainGrows(stream: seq<Transition>, t: Transition)
    requires Chain(stream) && Linked(Last(stream), t)
    ensures Chain(stream + [t]) && Last(stream + [t]) == t.current
  {
    assert (stream + [t])[..|stream|] == stream;
  }

  /** While a run goes on, its stream is a chain that ends in its current state. */
  ghost predicate Streaming(r: Run) {
    && Chain(r.stream)
    && (!r.returned ==> Last(r.stream) == r.current && r.current.sequence <= r.sequence && r.current.stage != Stopped)
  }

  /** Unless it is cancelled, a run that waits has a timer and a run that does not wait has none. */
  ghost predicate Timing(r: Run) {
    && (r.timer.Some? ==> r.timer.value < r.armed)
    && (!r.cancelled && !r.returned ==> (r.timer.Some? <==> r.current.stage == WaitingForConnectivity))
  }

  lemma EmitKeepsStreaming(r: Run, next: State, trigger: Trigger, sent: bool)
    requires Streaming(r) && !r.returned && next.stage != Stopped
    ensures Streaming(Emit(r, next, trigger, sent)) && !Emit(r, next, trigger, sent).returned
    ensures sent ==> SameState(Emit(r, next, trigger, sent).current, next)
  {
    if !SameState(r.current, next) && sent {
      ChainGrows(r.stream, Transition(r.current, next.(sequence := r.sequence + 1), trigger));
    }
  }

  /** What a judgement keeps of a run. */
  ghost predicate Sane(r: Run, r': Run, timedOut: bool) {
    && Streaming(r') && Timing(r') && !r'.returned && (r.cancelled ==> r'.cancelled)
    && (!r'.cancelled && timedOut ==> r'.current.stage != WaitingForConnectivity)
  }

  lemma JudgeUnseenKeeps(r: Run, trigger: Trigger, timedOut: bool, requirement: Connectivity.Requirement, w: Weather)
    requires Streaming(r) && !r.returned && Feasible(r.cancelled, w) && (r.timer.Some? ==> r.timer.value < r.armed)
    requires w.sight.Unseen?
    ensures Sane(r, Judge(r, trigger, timedOut, requirement, w), timedOut)
  {
    if !w.middle {
      EmitKeepsStreaming(r.(timer := None, cancelled := w.late), FailedState(w.sight.text), trigger, w.lastSent);
    }
  }

  lemma JudgeSeenKeeps(r: Run, trigger: Trigger, timedOut: bool, requirement: Connectivity.Requirement, w: Weather)
    requires Streaming(r) && !r.returned && Feasible(r.cancelled, w) && (r.timer.Some? ==> r.timer.value < r.armed)
    requires w.sight.Seen?
    ensures Sane(r, Judge(r, trigger, timedOut, requirement, w), timedOut)
  {
    var next := Evaluate(w.sight.snapshot, requirement, timedOut);
    EvaluateDecides(w.sight.snapshot, requirement, timedOut);
    EmitKeepsStreaming(Timed(r, next).(cancelled := w.late), next, trigger, w.lastSent);
  }

  lemma JudgeKeeps(r: Run, trigger: Trigger, timedOut: bool, requirement: Connectivity.Requirement, w: Weather)
    requires Streaming(r) && !r.returned && Feasible(r.cancelled, w) && (r.timer.Some? ==> r.timer.value < r.armed)
    ensures Sane(r, Judge(r, trigger, timedOut, requirement, w), timedOut)
  {
    if w.sight.Seen? {
      JudgeSeenKeeps(r, trigger, timedOut, requirement, w);
    } else {
      JudgeUnseenKeeps(r, trigger, timedOut, requirement, w);
    }
  }

  lemma ReconcileKeeps(r: Run, trigger: Trigger, timedOut: bool, requirement: Connectivity.Requirement, w: Weather)
    requires Streaming(r) && !r.returned && Feasible(r.cancelled, w) && (r.timer.Some? ==> r.timer.value < r.armed)
    ensures Sane(r, Reconcile(r, trigger, timedOut, requirement, w), timedOut)
  {
    var announced := Announce(r, trigger, w);
    if trigger == Boot {
      EmitKeepsStreaming(r.(cancelled := w.early), ReconcilingState(r), trigger, w.firstSent);
    }
    if Announced(r, trigger, w) {
      JudgeKeeps(announced, trigger, timedOut, requirement, w);
    }
  }

  lemma StepKeeps(r: Run, requirement: Connectivity.Requirement, i: Input)
    requires Streaming(r) && Timing(r) && Possible(r, i)
    ensures Streaming(Step(r, requirement, i)) && Timing(Step(r, requirement, i))
    ensures r.cancelled ==> Step(r, requirement, i).cancelled
  {
    if !r.returned {
      match i {
        case Changed(w) =>
          if r.changesOpen {
            ReconcileKeeps(r, NetworkChanged, false, requirement, w);
          }
        case GraceFired(id, w) =>
          if r.timer == Some(id) {
            ReconcileKeeps(r.(timer := None), GraceExpired, true, requirement, w);
          }
        case CancelSeen(room) =>
          if r.cancelled && room {
            ChainGrows(r.stream, Transition(r.current, StoppedState(r), Cancelled));
          }
        case _ =>
      }
    }
  }

  lemma BootKeeps(requirement: Connectivity.Requirement, sent: bool, w: Weather)
    requires sent ==> Feasible(false, w)
    ensures Streaming(Booted(requirement, sent, w)) && Timing(Booted(requirement, sent, w))
  {
    if sent {
      EmitKeepsStreaming(INITIAL, BOOTING, Boot, true);
      ReconcileKeeps(Emit(INITIAL, BOOTING, Boot, true), Boot, false, requirement, w);
    }
  }

  lemma {:induction false} ExecuteKeeps(r: Run, requirement: Connectivity.Requirement, inputs: seq<Input>)
    requires Streaming(r) && Timing(r) && Script(r, requirement, inputs)
    ensures Streaming(Execute(r, requirement, inputs)) && Timing(Execute(r, requirement, inputs))
  {
    if inputs != [] {
      ExecuteKeeps(r, requirement, inputs[..|inputs| - 1]);
      StepKeeps(Execute(r, requirement, inputs[..|inputs| - 1]), requirement, inputs[|inputs| - 1]);
    }
  }

  /** Whatever happens in whatever order, the emitted transitions form a chain. */
  lemma {:induction false} TransitionsFormAChain(requirement: Connectivity.Requirement, sent: bool, w: Weather,
                                                 inputs: seq<Input>)
    requires sent ==> Feasible(false, w)
    requires Script(Booted(requirement, sent, w), requirement, inputs)
    ensures Chain(Execute(Booted(requirement, sent, w), requirement, inputs).stream)
  {
    BootKeeps(requirement, sent, w);
    ExecuteKeeps(Booted(requirement, sent, w), requirement, inputs);
  }

  /** What being a chain means, position by position. */
  lemma {:induction false} ChainMeans(stream: seq<Transition>, i: nat, j: nat)
    requires Chain(stream) && i < j < |stream|
    ensures stream[j].previous == stream[j - 1].current
    ensures stream[i].current.sequence < stream[j].current.sequence
    ensures !SameState(stream[j - 1].current, stream[j].current)
    ensures stream[i].current.stage != Stopped
  {
    var n := |stream| - 1;
    if j < n {
      ChainMeans(stream[..n], i, j);
    } else {
      assert Last(stream[..n]) == stream[n - 1].current;
      if i < n - 1 {
        ChainMeans(stream[..n], i, n - 1);
      }
    }
  }

  lemma EmitExtends(r: Run, next: State, trigger: Trigger, sent: bool)
    ensures Extends(r, Emit(r, next, trigger, sent), trigger)
  {
  }

  lemma JudgeExtends(r: Run, trigger: Trigger, timedOut: bool, requirement: Connectivity.Requirement, w: Weather)
    ensures Extends(r, Judge(r, trigger, timedOut, requirement, w), trigger)
  {
    match w.sight {
      case Unseen(text) =>
        EmitExtends(r.(timer := None, cancelled := w.late), FailedState(text), trigger, w.lastSent);
      case Seen(s) =>
        var next := Evaluate(s, requirement, timedOut);
        EmitExtends(Timed(r, next).(cancelled := w.late), next, trigger, w.lastSent);
    }
  }

  lemma StepExtends(r: Run, requirement: Connectivity.Requirement, i: Input)
    ensures r.stream <= Step(r, requirement, i).stream
  {
    match i {
      case Changed(w) => JudgeExtends(r.(cancelled := w.early), NetworkChanged, false, requirement, w);
      case GraceFired(_, w) =>
        JudgeExtends(r.(timer := None, cancelled := w.early), GraceExpired, true, requirement, w);
      case _ =>
    }
  }

  lemma {:induction false} ExecuteExtends(r: Run, requirement: Connectivity.Requirement, inputs: seq<Input>)
    ensures r.stream <= Execute(r, requirement, inputs).stream
  {
    if inputs != [] {
      ExecuteExtends(r, requirement, inputs[..|inputs| - 1]);
      StepExtends(Execute(r, requirement, inputs[..|inputs| - 1]), requirement, inputs[|inputs| - 1]);
    }
  }

  /** The stream opens with booting and then reconciling; only a cancellation during boot
      can leave either out. */
  lemma {:induction false} StreamOpens(requirement: Connectivity.Requirement, sent: bool, w: Weather, inputs: seq<Input>)
    ensures var stream := Execute(Booted(requirement, sent, w), requirement, inputs).stream;
            && (sent ==> |stream| >= 1 && stream[0] == Transition(ZERO, BOOTING.(sequence := 1), Boot))
            && (!sent ==> stream == [])
            && (sent && w.firstSent ==>
                 |stream| >= 2 &&
                 stream[1] == Transition(BOOTING.(sequence := 1),
                                         State(2, Reconciling, ModeNone, InspectingNetwork, NoDetail), Boot))
  {
    var r := Booted(requirement, sent, w);
    ExecuteExtends(r, requirement, inputs);
    if sent {
      var booting := Emit(INITIAL, BOOTING, Boot, true);
      JudgeExtends(Announce(booting, Boot, w), Boot, false, requirement, w);
    } else {
      ReturnedStays(r, requirement, inputs);
    }
  }

  /** Nothing happens after a run has returned. */
  lemma {:induction false} ReturnedStays(r: Run, requirement: Connectivity.Requirement, inputs: seq<Input>)
    requires r.returned
    ensures Execute(r, requirement, inputs) == r
  {
    if inputs != [] {
      ReturnedStays(r, requirement, inputs[..|inputs| - 1]);
    }
  }

  /** In any run that has not been cancelled, the grace timer is armed at every idle point
      exactly while the current stage is waiting. */
  lemma {:induction false} TimerRunsWhileWaiting(requirement: Connectivity.Requirement, w: Weather, inputs: seq<Input>)
    requires Feasible(false, w) && Script(Booted(requirement, true, w), requirement, inputs)
    ensures var r := Execute(Booted(requirement, true, w), requirement, inputs);
            !r.cancelled ==> (r.timer.Some? <==> r.current.stage == WaitingForConnectivity)
  {
    BootKeeps(requirement, true, w);
    ExecuteKeeps(Booted(requirement, true, w), requirement, inputs);
    NeverReturnsUncancelled(requirement, w, inputs);
  }

  lemma StepMarksReturn(r: Run, requirement: Connectivity.Requirement, i: Input)
    requires (r.returned ==> r.cancelled) && Possible(r, i)
    ensures Step(r, requirement, i).returned ==> Step(r, requirement, i).cancelled
  {
  }

  lemma {:induction false} NeverReturnsUncancelled(requirement: Connectivity.Requirement, w: Weather, inputs: seq<Input>)
    requires Feasible(false, w) && Script(Booted(requirement, true, w), requirement, inputs)
    ensures var r := Execute(Booted(requirement, true, w), requirement, inputs); r.returned ==> r.cancelled
  {
    if inputs != [] {
      NeverReturnsUncancelled(requirement, w, inputs[..|inputs| - 1]);
      StepMarksReturn(Execute(Booted(requirement, true, w), requirement, inputs[..|inputs| - 1]), requirement,
                      inputs[|inputs| - 1]);
    }
  }

  /** An expired timer acts once, and when it acts the run leaves the waiting stage. A timer
      that was stopped or replaced can never act. */
  lemma ExpiryEndsWaiting(r: Run, requirement: Connectivity.Requirement, id: nat, w: Weather)
    requires Streaming(r) && Timing(r) && !r.returned && Feasible(r.cancelled, w)
    ensures var r' := Step(r, requirement, GraceFired(id, w));
            && (r.timer != Some(id) ==> r' == r)
            && (r.timer == Some(id) && !r'.cancelled ==> r'.current.stage != WaitingForConnectivity && r'.timer.None?)
  {
    if r.timer == Some(id) {
      ReconcileKeeps(r.(timer := None), GraceExpired, true, requirement, w);
    }
  }

  /** Further changes while the run keeps waiting never re-arm the timer. */
  lemma WaitingNeverRearms(r: Run, requirement: Connectivity.Requirement, i: Input)
    requires Streaming(r) && Timing(r) && Possible(r, i) && !r.returned && !r.cancelled
    requires r.current.stage == WaitingForConnectivity
    ensures var r' := Step(r, requirement, i);
            !r'.cancelled && r'.current.stage == WaitingForConnectivity ==> r'.timer == r.timer && r'.armed == r.armed
  {
    if i.GraceFired? {
      ExpiryEndsWaiting(r, requirement, i.id, i.weather);
    }
  }

  /** How often a stream enters the waiting stage. */
  function Waits(stream: seq<Transition>): nat {
    if stream == [] then 0
    else
      var t := stream[|stream| - 1];
      Waits(stream[..|stream| - 1]) +
      if t.current.stage == WaitingForConnectivity && t.previous.stage != WaitingForConnectivity then 1 else 0
  }

  ghost predicate Counted(r: Run) {
    !r.cancelled ==> r.armed == Waits(r.stream)
  }

  lemma EmitCounts(r: Run, next: State, trigger: Trigger)
    ensures Waits(Emit(r, next, trigger, true).stream) ==
            Waits(r.stream) +
            if next.stage == WaitingForConnectivity && r.current.stage != WaitingForConnectivity then 1 else 0
  {
    var t := Transition(r.current, next.(sequence := r.sequence + 1), trigger);
    assert (r.stream + [t])[..|r.stream|] == r.stream;
  }

  lemma JudgeCounts(r: Run, trigger: Trigger, timedOut: bool, requirement: Connectivity.Requirement, w: Weather)
    requires Counted(r) && Feasible(r.cancelled, w)
    requires !r.cancelled && !timedOut ==> (r.timer.Some? <==> r.current.stage == WaitingForConnectivity)
    ensures Counted(Judge(r, trigger, timedOut, requirement, w))
  {
    if !w.late {
      match w.sight {
        case Unseen(text) => EmitCounts(r.(timer := None, cancelled := w.late), FailedState(text), trigger);
        case Seen(s) =>
          var next := Evaluate(s, requirement, timedOut);
          EvaluateDecides(s, requirement, timedOut);
          EmitCounts(Timed(r, next).(cancelled := w.late), next, trigger);
      }
    }
  }

  lemma StepCounts(r: Run, requirement: Connectivity.Requirement, i: Input)
    requires Streaming(r) && Timing(r) && Counted(r) && Possible(r, i)
    ensures Counted(Step(r, requirement, i))
  {
    if !r.returned {
      match i {
        case Changed(w) =>
          if r.changesOpen {
            JudgeCounts(r.(cancelled := w.early), NetworkChanged, false, requirement, w);
          }
        case GraceFired(id, w) =>
          if r.timer == Some(id) {
            JudgeCounts(r.(timer := None, cancelled := w.early), GraceExpired, true, requirement, w);
          }
        case _ =>
      }
    }
  }

  lemma BootCounts(requirement: Connectivity.Requirement, w: Weather)
    requires Feasible(false, w)
    ensures Counted(Booted(requirement, true, w))
  {
    var booting := Emit(INITIAL, BOOTING, Boot, true);
    EmitCounts(INITIAL, BOOTING, Boot);
    var announced := Announce(booting, Boot, w);
    if w.firstSent {
      EmitCounts(booting.(cancelled := w.early), ReconcilingState(booting), Boot);
      JudgeCounts(announced, Boot, false, requirement, w);
    }
  }

  lemma {:induction false} ExecuteCounts(r: Run, requirement: Connectivity.Requirement, inputs: seq<Input>)
    requires Streaming(r) && Timing(r) && Counted(r) && Script(r, requirement, inputs)
    ensures Counted(Execute(r, requirement, inputs))
  {
    if inputs != [] {
      ExecuteCounts(r, requirement, inputs[..|inputs| - 1]);
      ExecuteKeeps(r, requirement, inputs[..|inputs| - 1]);
      StepCounts(Execute(r, requirement, inputs[..|inputs| - 1]), requirement, inputs[|inputs| - 1]);
    }
  }

  /** Each wait gets one grace period: over an uncancelled run, the timers ever created are
      exactly the entries into the waiting stage. */
  lemma {:induction false} OneTimerPerWait(requirement: Connectivity.Requirement, w: Weather, inputs: seq<Input>)
    requires Feasible(false, w) && Script(Booted(requirement, true, w), requirement, inputs)
    ensures var r := Execute(Booted(requirement, true, w), requirement, inputs);
            !r.cancelled ==> r.armed == Waits(r.stream)
  {
    BootKeeps(requirement, true, w);
    BootCounts(requirement, w);
    ExecuteCounts(Booted(requirement, true, w), requirement, inputs);
  }
}
