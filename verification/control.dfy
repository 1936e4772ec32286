/** The appliance controller and the manual recovery requests it serves, as one state machine:
    requests may arrive between any two steps of the controller. */
module Control {
  import opened Engine

  datatype Action = NoAction | Enter | Leave

  datatype Decision = Act(action: Action) | Fail(terminal: bool)

  /** What a state asks for; only a failed observation is worth a restart. */
  function ActionFor(s: State): Decision {
    match s.stage
    case Booting => Act(NoAction)
    case Reconciling => Act(NoAction)
    case WaitingForConnectivity => Act(NoAction)
    case Provisioning => Act(Enter)
    case Infrastructure => Act(Leave)
    case Standalone => Act(Leave)
    case Failed => Fail(s.reason != ObservationFailed)
    case Stopped => Act(NoAction)
    case NoStage => Fail(true)
  }

  /** Where the controller is between two atomic steps. `Idle`: no run is in progress. */
  datatype Phase = Idle | Looking | Serving | Woken | Recovering | Completing

  datatype Entry = Consumed(stage: Stage) | Applied(action: Action, recovery: bool) | Acknowledged

  /** `log` holds what the current run has done, `applied` the actions among it. */
  datatype Product = Product(
    pending: bool,
    token: bool,
    phase: Phase,
    current: Action,
    awaiting: bool,
    log: seq<Entry>,
    applied: seq<Action>)

  const START := Product(false, false, Idle, NoAction, false, [], [])

  datatype Event =
    | Requested
    | RunBegins
    | RunLooks
    | WakeTaken
    | WakeChecked
    | EnterTried(ok: bool)
    | Completed
    | StateSeen(state: State, ok: bool)
    | RunEnds

  /** Request: marks recovery as pending and leaves a token, unless it is pending already. */
  function Request(s: Product): Product {
    if s.pending then s else s.(pending := true, token := true)
  }

  function Noted(s: Product, e: Entry): Product {
    s.(log := s.log + [e])
  }

  /** The part of the loop that handles one state. */
  function See(s: Product, state: State, ok: bool): Product {
    var seen := Noted(s, Consumed(state.stage));
    if state.stage == Stopped then seen.(phase := Idle)
    else
      match ActionFor(state)
      case Fail(_) => seen.(phase := Idle)
      case Act(next) =>
        var settled := if next == Enter then seen.(awaiting := false) else seen;
        if settled.awaiting && next == Leave then settled
        else if next == NoAction || next == settled.current then settled
        else if !ok then settled.(phase := Idle)
        else Noted(settled, Applied(next, false)).(current := next, applied := s.applied + [next])
  }

  function Step(s: Product, e: Event): Product {
    match e
    case Requested => Request(s)
    case RunBegins =>
      if s.phase == Idle then s.(phase := Looking, current := NoAction, awaiting := false, log := [], applied := []) else s
    case RunLooks =>
      if s.phase == Looking then s.(phase := if s.pending then Recovering else Serving) else s
    case WakeTaken =>
      if s.phase == Serving && s.token then s.(token := false, phase := Woken) else s
    case WakeChecked =>
      if s.phase == Woken then s.(phase := if s.pending then Recovering else Serving) else s
    case EnterTried(ok) =>
      if s.phase != Recovering || s.current == Enter then s
      else if ok then Noted(s, Applied(Enter, true)).(phase := Completing, applied := s.applied + [Enter])
      else s.(phase := Idle)
    case Completed =>
      if s.phase == Completing then
        Noted(s, Acknowledged).(pending := false, token := false, current := Enter, awaiting := true, phase := Serving)
      else if s.phase == Recovering && s.current == Enter then
        Noted(s, Acknowledged).(pending := false, token := false, phase := Serving)
      else s
    case StateSeen(state, ok) => if s.phase == Serving then See(s, state, ok) else s
    case RunEnds => if s.phase == Serving then s.(phase := Idle) else s
  }

  function Execute(s: Product, es: seq<Event>): Product {
    if es == [] then s else Step(Execute(s, es[..|es| - 1]), es[|es| - 1])
  }

  /** The last action a run applied. */
  function LastApplied(log: seq<Entry>): Action {
    if log == [] then NoAction
    else
      var e := log[|log| - 1];
      if e.Applied? then e.action else LastApplied(log[..|log| - 1])
  }

  /** A recovery entered provisioning and no provisioning state has been consumed since. */
  predicate Awaiting(log: seq<Entry>) {
    log != [] &&
    var e := log[|log| - 1];
    e == Applied(Enter, true) || (e != Consumed(Provisioning) && Awaiting(log[..|log| - 1]))
  }

  /** Each applied action differs from the one before it, and a leave never overtakes a
      recovery. */
  predicate Disciplined(log: seq<Entry>) {
    log == [] ||
    var front, e := log[..|log| - 1], log[|log| - 1];
    && Disciplined(front)
    && (e.Applied? ==> e.action != NoAction && e.action != LastApplied(front))
    && (e.Applied? && e.action == Leave ==> !Awaiting(front))
    && (e.Acknowledged? ==> LastApplied(front) == Enter)
  }

  lemma LogGrows(log: seq<Entry>, e: Entry)
    ensures LastApplied(log + [e]) == if e.Applied? then e.action else LastApplied(log)
    ensures Awaiting(log + [e]) == (e == Applied(Enter, true) || (e != Consumed(Provisioning) && Awaiting(log)))
    ensures Disciplined(log + [e]) <==>
            && Disciplined(log) && (e.Applied? ==> e.action != NoAction && e.action != LastApplied(log))
            && (e.Applied? && e.action == Leave ==> !Awaiting(log))
            && (e.Acknowledged? ==> LastApplied(log) == Enter)
  {
    assert (log + [e])[..|log|] == log;
  }

  ghost predicate RequestInv(s: Product) {
    && (s.token ==> s.pending)
    && (s.phase == Serving ==> (s.pending <==> s.token))
    && (s.phase == Recovering || s.phase == Completing ==> s.pending)
  }

  ghost predicate LogInv(s: Product) {
    && Disciplined(s.log)
    && (s.phase == Completing ==> LastApplied(s.log) == Enter && Awaiting(s.log))
    && (s.phase != Completing && s.phase != Idle ==> s.current == LastApplied(s.log) && s.awaiting == Awaiting(s.log))
  }

  ghost predicate Inv(s: Product) {
    RequestInv(s) && LogInv(s)
  }

  lemma StepKeepsRequests(s: Product, e: Event)
    requires RequestInv(s)
    ensures RequestInv(Step(s, e))
  {
  }

  lemma SeeKeepsLog(s: Product, state: State, ok: bool)
    requires LogInv(s) && s.phase == Serving
    ensures LogInv(See(s, state, ok))
  {
    LogGrows(s.log, Consumed(state.stage));
    var seen := s.log + [Consumed(state.stage)];
    if ActionFor(state).Act? {
      LogGrows(seen, Applied(ActionFor(state).action, false));
    }
  }

  lemma EnterKeepsLog(s: Product, ok: bool)
    requires LogInv(s)
    ensures LogInv(Step(s, EnterTried(ok)))
  {
    LogGrows(s.log, Applied(Enter, true));
  }

  lemma CompletedKeepsLog(s: Product)
    requires LogInv(s)
    ensures LogInv(Step(s, Completed))
  {
    LogGrows(s.log, Acknowledged);
  }

  lemma StepKeepsLog(s: Product, e: Event)
    requires LogInv(s)
    ensures LogInv(Step(s, e))
  {
    match e {
      case EnterTried(ok) => EnterKeepsLog(s, ok);
      case Completed => CompletedKeepsLog(s);
      case StateSeen(state, ok) =>
        if s.phase == Serving {
          SeeKeepsLog(s, state, ok);
        }
      case _ =>
    }
  }

  lemma {:induction false} ReachableInv(s: Product, es: seq<Event>)
    requires Inv(s)
    ensures Inv(Execute(s, es))
  {
    if es != [] {
      ReachableInv(s, es[..|es| - 1]);
      StepKeepsRequests(Execute(s, es[..|es| - 1]), es[|es| - 1]);
      StepKeepsLog(Execute(s, es[..|es| - 1]), es[|es| - 1]);
    }
  }

  /** No recovery request is lost: whatever the interleaving, a pending request has a token in
      the slot, or the controller has already taken the wake-up, or no run is past its first
      look at the requests. A token never lies without a request. */
  lemma {:induction false} NoLostRequest(es: seq<Event>)
    ensures var s := Execute(START, es);
            && (s.token ==> s.pending)
            && (s.pending && !s.token ==> s.phase != Serving)
            && (s.phase == Serving ==> (s.pending <==> s.token))
  {
    ReachableInv(START, es);
  }

  predicate OnlyRequests(es: seq<Event>) {
    es == [] || (OnlyRequests(es[..|es| - 1]) && es[|es| - 1] == Requested)
  }

  lemma {:induction false} RequestsKeepPending(s: Product, es: seq<Event>)
    requires s.pending && OnlyRequests(es)
    ensures Execute(s, es) == s
  {
    if es != [] {
      RequestsKeepPending(s, es[..|es| - 1]);
    }
  }

  lemma ExecuteAppend(s: Product, es: seq<Event>, e: Event)
    ensures Execute(s, es + [e]) == Step(Execute(s, es), e)
  {
    assert (es + [e])[..|es|] == es;
  }

  /** A request that outlives its run is the first thing the next run acts on, however many
      more requests come in meanwhile. */
  lemma {:induction false} NextRunSeesRequest(es: seq<Event>, before: seq<Event>, between: seq<Event>)
    requires Execute(START, es).phase == Idle && Execute(START, es).pending
    requires OnlyRequests(before) && OnlyRequests(between)
    ensures var begun := Step(Execute(Execute(START, es), before), RunBegins);
            Step(Execute(begun, between), RunLooks).phase == Recovering
  {
    RequestsKeepPending(Execute(START, es), before);
    RequestsKeepPending(Step(Execute(START, es), RunBegins), between);
  }

  /** A taken wake-up cannot go stale either: from the moment the token is taken, requests and
      the controller's own check lead to the recovery. */
  lemma {:induction false} TakenWakeLeadsToRecovery(es: seq<Event>, between: seq<Event>)
    requires Execute(START, es).phase == Serving && Execute(START, es).pending && OnlyRequests(between)
    ensures var taken := Step(Execute(START, es), WakeTaken);
            taken.phase == Woken && Step(Execute(taken, between), WakeChecked).phase == Recovering
  {
    ReachableInv(START, es);
    RequestsKeepPending(Step(Execute(START, es), WakeTaken), between);
  }

  /** Pending clears in one way only: the controller acknowledges it, and the last action it
      has applied is a successful enter. */
  lemma {:induction false} PendingClearsOnEnter(es: seq<Event>, e: Event)
    requires Execute(START, es).pending && !Step(Execute(START, es), e).pending
    ensures e == Completed && LastApplied(Step(Execute(START, es), e).log) == Enter
    ensures !Step(Execute(START, es), e).token
  {
    ReachableInv(START, es);
    LogGrows(Execute(START, es).log, Acknowledged);
  }

  lemma {:induction false} RunsAreDisciplined(es: seq<Event>)
    ensures Disciplined(Execute(START, es).log)
  {
    ReachableInv(START, es);
  }

  function Actions(log: seq<Entry>): seq<Action> {
    if log == [] then []
    else
      var e := log[|log| - 1];
      var front := Actions(log[..|log| - 1]);
      if e.Applied? then front + [e.action] else front
  }

  lemma ActionsGrow(log: seq<Entry>, e: Entry)
    ensures Actions(log + [e]) == if e.Applied? then Actions(log) + [e.action] else Actions(log)
  {
    assert (log + [e])[..|log|] == log;
  }

  lemma SeeKeepsApplied(s: Product, state: State, ok: bool)
    requires s.applied == Actions(s.log)
    ensures See(s, state, ok).applied == Actions(See(s, state, ok).log)
  {
    ActionsGrow(s.log, Consumed(state.stage));
    if ActionFor(state).Act? {
      ActionsGrow(s.log + [Consumed(state.stage)], Applied(ActionFor(state).action, false));
    }
  }

  lemma EnterKeepsApplied(s: Product, ok: bool)
    requires s.applied == Actions(s.log)
    ensures Step(s, EnterTried(ok)).applied == Actions(Step(s, EnterTried(ok)).log)
  {
    ActionsGrow(s.log, Applied(Enter, true));
  }

  lemma CompletedKeepsApplied(s: Product)
    requires s.applied == Actions(s.log)
    ensures Step(s, Completed).applied == Actions(Step(s, Completed).log)
  {
    ActionsGrow(s.log, Acknowledged);
  }

  lemma {:induction false} AppliedIsLogged(s: Product, es: seq<Event>)
    requires s.applied == Actions(s.log)
    ensures Execute(s, es).applied == Actions(Execute(s, es).log)
  {
    if es != [] {
      var before, e := Execute(s, es[..|es| - 1]), es[|es| - 1];
      AppliedIsLogged(s, es[..|es| - 1]);
      match e {
        case StateSeen(state, ok) => SeeKeepsApplied(before, state, ok);
        case EnterTried(ok) => EnterKeepsApplied(before, ok);
        case Completed => CompletedKeepsApplied(before);
        case _ =>
      }
    }
  }

  lemma {:induction false} LastOfActions(log: seq<Entry>)
    ensures LastApplied(log) == if Actions(log) == [] then NoAction else Actions(log)[|Actions(log)| - 1]
  {
    if log != [] {
      LastOfActions(log[..|log| - 1]);
    }
  }

  /** Within one run the applied actions strictly alternate between enter and leave. */
  lemma {:induction false} ActionsAlternate(log: seq<Entry>)
    requires Disciplined(log)
    ensures forall i :: 0 <= i < |Actions(log)| ==> Actions(log)[i] != NoAction
    ensures forall i :: 0 < i < |Actions(log)| ==> Actions(log)[i] != Actions(log)[i - 1]
  {
    if log != [] {
      ActionsAlternate(log[..|log| - 1]);
      LastOfActions(log[..|log| - 1]);
    }
  }

  lemma {:induction false} AwaitingUntilSeen(log: seq<Entry>, i: nat)
    requires i < |log| && log[i] == Applied(Enter, true) && !Awaiting(log)
    ensures exists k :: i < k < |log| && log[k] == Consumed(Provisioning)
  {
    var n := |log| - 1;
    if i < n && log[n] != Consumed(Provisioning) {
      AwaitingUntilSeen(log[..n], i);
      var k :| i < k < n && log[..n][k] == Consumed(Provisioning);
      assert log[k] == Consumed(Provisioning);
    }
  }

  lemma {:induction false} DisciplinedPrefix(log: seq<Entry>, n: nat)
    requires Disciplined(log) && n <= |log|
    ensures Disciplined(log[..n])
  {
    if n < |log| {
      DisciplinedPrefix(log[..|log| - 1], n);
      assert log[..|log| - 1][..n] == log[..n];
    } else {
      assert log[..n] == log;
    }
  }

  /** After a recovery has entered provisioning, no leave is applied before a provisioning
      state has been consumed from the engine. */
  lemma RecoveryIsNotUndone(log: seq<Entry>, i: nat, j: nat)
    requires Disciplined(log) && i < j < |log|
    requires log[i] == Applied(Enter, true) && log[j].Applied? && log[j].action == Leave
    ensures exists k :: i < k < j && log[k] == Consumed(Provisioning)
  {
    DisciplinedPrefix(log, j + 1);
    assert log[..j + 1][..j] == log[..j];
    AwaitingUntilSeen(log[..j], i);
    var k :| i < k < j && log[..j][k] == Consumed(Provisioning);
    assert log[k] == Consumed(Provisioning);
  }

  /** Controller action discipline, over every interleaving and every stream of states. */
  lemma {:induction false} ActionDiscipline(es: seq<Event>)
    ensures var log, applied := Execute(START, es).log, Execute(START, es).applied;
            && (forall i :: 0 <= i < |applied| ==> applied[i] == Enter || applied[i] == Leave)
            && (forall i :: 0 < i < |applied| ==> applied[i] != applied[i - 1])
            && (forall i, j :: 0 <= i < j < |log| && log[i] == Applied(Enter, true) && log[j] == Applied(Leave, false) ==>
                 exists k :: i < k < j && log[k] == Consumed(Provisioning))
  {
    RunsAreDisciplined(es);
    var log := Execute(START, es).log;
    ActionsAlternate(log);
    AppliedIsLogged(START, es);
    forall i, j | 0 <= i < j < |log| && log[i] == Applied(Enter, true) && log[j] == Applied(Leave, false)
      ensures exists k :: i < k < j && log[k] == Consumed(Provisioning)
    {
      RecoveryIsNotUndone(log, i, j);
    }
  }

  /** What each stage makes a run do. A durable mode is left for, unless a recovery is waiting for
      its provisioning; provisioning is entered; stages on the way change nothing; a failure, a
      missing stage and a stop end the run without another action. */
  lemma {:induction false} StageDecidesAction(es: seq<Event>, state: State)
    requires Execute(START, es).phase == Serving
    ensures var s, s' := Execute(START, es), Step(Execute(START, es), StateSeen(state, true));
            match state.stage
            case Infrastructure => LeavesUnlessAwaiting(s, s')
            case Standalone => LeavesUnlessAwaiting(s, s')
            case Provisioning => s'.phase == Serving && LastApplied(s'.log) == Enter && !Awaiting(s'.log)
            case Booting => s'.phase == Serving && s'.applied == s.applied
            case Reconciling => s'.phase == Serving && s'.applied == s.applied
            case WaitingForConnectivity => s'.phase == Serving && s'.applied == s.applied
            case Failed => s'.phase == Idle && s'.applied == s.applied
            case NoStage => s'.phase == Idle && s'.applied == s.applied
            case Stopped => s'.phase == Idle && s'.applied == s.applied
  {
    var s := Execute(START, es);
    ReachableInv(START, es);
    var seen := s.log + [Consumed(state.stage)];
    LogGrows(s.log, Consumed(state.stage));
    LogGrows(seen, Applied(Enter, false));
    LogGrows(seen, Applied(Leave, false));
  }

  /** Captive mode is left, unless that would undo a recovery nobody has seen yet. */
  ghost predicate LeavesUnlessAwaiting(s: Product, s': Product) {
    && s'.phase == Serving
    && if Awaiting(s.log) then s'.applied == s.applied && LastApplied(s'.log) == LastApplied(s.log)
       else LastApplied(s'.log) == Leave
  }

  /** An action that is due and fails ends the run and is not recorded. */
  lemma {:induction false} FailedActionEndsRun(es: seq<Event>, state: State)
    requires Execute(START, es).phase == Serving
    requires Step(Execute(START, es), StateSeen(state, true)).applied != Execute(START, es).applied
    ensures var s, s' := Execute(START, es), Step(Execute(START, es), StateSeen(state, false));
            s'.phase == Idle && s'.applied == s.applied
  {
  }

  /** A failed observation is worth a restart; every other failure, and a state without a stage,
      is not. */
  predicate Hopeless(state: State) {
    state.stage == NoStage || (state.stage == Failed && state.reason != ObservationFailed)
  }
}
