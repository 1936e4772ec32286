/** The single-flight operation service as a state machine: every critical section is one
    step, and any thread may take the next one. */
module Operations {
  import opened Text

  /** 16 random bytes; only equality matters. */
  type Id = nat

  datatype Kind = Connect | Standalone
  datatype State = Pending | Running | Succeeded | Failed
  /** What a failed operation tells the browser: the fixed texts for an interrupted and an
      internal failure, or the public error of the backend. */
  datatype Failure = Interruption | InternalFailure | Public(code: string, message: string)

  datatype Operation = Operation(
    id: Id,
    kind: Kind,
    state: State,
    network: string,
    failure: Option<Failure>,
    createdAt: int,
    finishedAt: Option<int>)

  const HISTORY_LIMIT := 10

  predicate Active(op: Operation) {
    op.state == Pending || op.state == Running
  }

  /** `acting` are the goroutines inside their action and `leaving` counts those that have
      recorded their result but not yet told the wait group. `issued` and `begun` remember
      every id ever handed out and every action ever started. */
  datatype Service = Service(
    operations: map<Id, Operation>,
    queued: set<Id>,
    order: seq<Id>,
    forgetting: bool,
    shuttingDown: bool,
    cancelled: bool,
    acting: set<Id>,
    leaving: nat,
    done: bool,
    issued: set<Id>,
    begun: seq<Id>)

  const EMPTY := Service(map[], {}, [], false, false, false, {}, 0, false, {}, [])

  datatype Event =
    | Start(kind: Kind, network: string, id: Id, now: int)
    | Begin(id: Id, now: int)
    | Cancel(id: Id, now: int)
    | Finish(id: Id, failure: Option<Failure>, now: int)
    | Leave
    | ForgetBegin
    | ForgetEnd
    | Shutdown(now: int)
    | ParentCancelled
    | Drain

  function LiveGoroutines(s: Service): nat {
    |s.acting| + s.leaving
  }

  predicate Unavailable(s: Service) {
    s.shuttingDown || s.cancelled
  }

  /** activeOperationLocked: the newest operation that is pending or running. */
  function ActiveOperation(operations: map<Id, Operation>, order: seq<Id>): (r: Option<Operation>)
    requires forall id :: id in order ==> id in operations
    ensures r.Some? ==> Active(r.value) && exists i :: 0 <= i < |order| && operations[order[i]] == r.value
    ensures r.None? <==> forall i :: 0 <= i < |order| ==> !Active(operations[order[i]])
  {
    if order == [] then None
    else
      var last := order[|order| - 1];
      if Active(operations[last]) then Some(operations[last])
      else ActiveOperation(operations, order[..|order| - 1])
  }

  /** trimHistoryLocked: drop the oldest while there are too many, but never an active one. */
  function Trim(operations: map<Id, Operation>, order: seq<Id>): (map<Id, Operation>, seq<Id>)
    decreases |order|
  {
    if |order| > HISTORY_LIMIT && order[0] in operations && !Active(operations[order[0]])
    then Trim(operations - {order[0]}, order[1..])
    else (operations, order)
  }

  function Interrupt(op: Operation, now: int): Operation {
    op.(state := Failed, finishedAt := Some(now), failure := Some(Interruption))
  }

  function CancelPending(s: Service, id: Id, now: int): Service {
    if id in s.operations && s.operations[id].state == Pending && id in s.queued
    then s.(operations := s.operations[id := Interrupt(s.operations[id], now)], queued := s.queued - {id})
    else s
  }

  function Begun(s: Service, id: Id): Service
    requires id in s.operations
  {
    s.(operations := s.operations[id := s.operations[id].(state := Running)],
       queued := s.queued - {id}, acting := s.acting + {id}, begun := s.begun + [id])
  }

  function BeginStep(s: Service, id: Id, now: int): Service {
    if id !in s.operations || id !in s.queued || s.operations[id].state != Pending then s
    else if Unavailable(s) then CancelPending(s, id, now)
    else Begun(s, id)
  }

  function Finished(op: Operation, failure: Option<Failure>, now: int): Operation {
    op.(state := if failure.None? then Succeeded else Failed, failure := failure, finishedAt := Some(now))
  }

  function FinishStep(s: Service, id: Id, failure: Option<Failure>, now: int): Service {
    var after := s.(acting := s.acting - {id}, leaving := s.leaving + 1);
    if id !in s.operations then after
    else after.(operations := s.operations[id := Finished(s.operations[id], failure, now)])
  }

  /** A start is refused while the service stops, a profile is being forgotten, or another
      operation is active. */
  predicate CanStart(s: Service) {
    && !Unavailable(s) && !s.forgetting
    && forall id :: id in s.operations ==> !Active(s.operations[id])
  }

  function NewOperation(kind: Kind, network: string, id: Id, now: int): Operation {
    Operation(id, kind, Pending, network, None, now, None)
  }

  function StartStep(s: Service, op: Operation): Service {
    var kept := Trim(s.operations[op.id := op], s.order + [op.id]);
    s.(operations := kept.0, order := kept.1, queued := s.queued + {op.id}, issued := s.issued + {op.id})
  }

  /** Everything queued is interrupted. */
  function ShutdownStep(s: Service, now: int): Service {
    s.(operations := map id | id in s.operations ::
         if id in s.queued && s.operations[id].state == Pending then Interrupt(s.operations[id], now)
         else s.operations[id],
       queued := s.queued - (set id | id in s.operations && s.operations[id].state == Pending),
       shuttingDown := true, cancelled := true)
  }

  function Step(s: Service, e: Event): Service {
    match e
    case Start(kind, network, id, now) =>
      if CanStart(s) then StartStep(s, NewOperation(kind, network, id, now)) else s
    case Begin(id, now) => BeginStep(s, id, now)
    case Cancel(id, now) => CancelPending(s, id, now)
    case Finish(id, failure, now) => if id in s.acting then FinishStep(s, id, failure, now) else s
    case Leave => if s.leaving > 0 then s.(leaving := s.leaving - 1) else s
    case ForgetBegin => if CanStart(s) then s.(forgetting := true) else s
    case ForgetEnd => s.(forgetting := false)
    case Shutdown(now) =>
      if s.shuttingDown then s else ShutdownStep(s, now)
    case ParentCancelled => s.(cancelled := true)
    case Drain => if s.shuttingDown && LiveGoroutines(s) == 0 then s.(done := true) else s
  }

  /** Operation ids are 16 random bytes: no id is handed out twice. */
  predicate Possible(s: Service, e: Event) {
    e.Start? ==> e.id !in s.issued
  }

  function Execute(s: Service, es: seq<Event>): Service {
    if es == [] then s else Step(Execute(s, es[..|es| - 1]), es[|es| - 1])
  }

  ghost predicate Schedule(s: Service, es: seq<Event>) {
    es == [] || (Schedule(s, es[..|es| - 1]) && Possible(Execute(s, es[..|es| - 1]), es[|es| - 1]))
  }

  /** The states a schedule passes through, written out one by one. */
  ghost predicate History(states: seq<Service>, es: seq<Event>) {
    && |states| == |es| + 1 && states[0] == EMPTY
    && forall i {:trigger es[i]} :: 0 <= i < |es| ==> Possible(states[i], es[i]) && states[i + 1] == Step(states[i], es[i])
  }

  lemma {:induction false} HistoryIsExecution(states: seq<Service>, es: seq<Event>)
    requires History(states, es)
    ensures Schedule(EMPTY, es) && Execute(EMPTY, es) == states[|es|]
  {
    if es != [] {
      var n := |es| - 1;
      HistoryIsExecution(states[..n + 1], es[..n]);
      assert Possible(states[n], es[n]) && states[n + 1] == Step(states[n], es[n]);
    }
  }

  lemma HistoryGrows(states: seq<Service>, es: seq<Event>, e: Event)
    requires History(states, es) && Possible(states[|es|], e)
    ensures History(states + [Step(states[|es|], e)], es + [e])
  {
  }

  ghost predicate Distinct(s: seq<Id>) {
    forall i, j :: 0 <= i < j < |s| ==> s[i] != s[j]
  }

  ghost predicate WellFormed(op: Operation) {
    && (Active(op) ==> op.finishedAt.None? && op.failure.None?)
    && (!Active(op) ==> op.finishedAt.Some? && (op.state == Failed <==> op.failure.Some?))
  }

  ghost predicate HistoryInv(s: Service) {
    && Distinct(s.order) && (forall id :: id in s.order <==> id in s.operations)
    && |s.order| <= HISTORY_LIMIT
    && (forall id :: id in s.operations ==> s.operations[id].id == id && WellFormed(s.operations[id]))
  }

  /** At most one operation is active, and it is the newest; queued actions are exactly the
      pending operations and acting goroutines exactly the running ones. */
  ghost predicate FlightInv(s: Service) {
    && (forall id :: id in s.operations && Active(s.operations[id]) ==> s.order != [] && s.order[|s.order| - 1] == id)
    && (forall id :: id in s.queued <==> id in s.operations && s.operations[id].state == Pending)
    && (forall id :: id in s.acting <==> id in s.operations && s.operations[id].state == Running)
    && (s.forgetting ==> forall id :: id in s.operations ==> !Active(s.operations[id]))
  }

  ghost predicate LedgerInv(s: Service) {
    && (forall id :: id in s.operations ==> id in s.issued)
    && (forall id :: id in s.begun ==> id in s.issued && id !in s.queued)
    && Distinct(s.begun)
    && (s.shuttingDown ==> s.cancelled && s.queued == {})
    && (s.done ==> s.shuttingDown && LiveGoroutines(s) == 0)
  }

  ghost predicate Inv(s: Service) {
    HistoryInv(s) && FlightInv(s) && LedgerInv(s)
  }

  lemma TrimAtLimit(operations: map<Id, Operation>, order: seq<Id>)
    requires Distinct(order) && |order| <= HISTORY_LIMIT + 1
    requires forall id :: id in order <==> id in operations
    requires |order| > HISTORY_LIMIT ==> !Active(operations[order[0]])
    ensures Trim(operations, order) ==
            if |order| > HISTORY_LIMIT then (operations - {order[0]}, order[1..]) else (operations, order)
  {
  }

  lemma StartedOrder(s: Service, e: Event)
    requires HistoryInv(s) && e.Start? && e.id !in s.operations && CanStart(s)
    ensures var s' := Step(s, e);
            && s'.order == (if |s.order| == HISTORY_LIMIT then s.order[1..] else s.order) + [e.id]
            && (forall id :: id in s'.order <==> id in s'.operations)
            && (forall id :: id in s'.operations ==>
                 if id == e.id then s'.operations[id] == NewOperation(e.kind, e.network, e.id, e.now)
                 else id in s.operations && s'.operations[id] == s.operations[id])
  {
    var grown := s.operations[e.id := NewOperation(e.kind, e.network, e.id, e.now)];
    var longer := s.order + [e.id];
    TrimAtLimit(grown, longer);
    if |s.order| == HISTORY_LIMIT {
      assert longer[1..] == s.order[1..] + [e.id];
      assert s.order == [s.order[0]] + s.order[1..];
    }
  }

  lemma StartKeepsHistory(s: Service, e: Event)
    requires Inv(s) && e.Start? && Possible(s, e) && CanStart(s)
    ensures HistoryInv(Step(s, e))
  {
    StartedOrder(s, e);
  }

  lemma StartKeepsRest(s: Service, e: Event)
    requires Inv(s) && e.Start? && Possible(s, e) && CanStart(s)
    ensures FlightInv(Step(s, e)) && LedgerInv(Step(s, e))
  {
    StartedOrder(s, e);
    var s' := Step(s, e);
    assert e.id in s'.order;
    forall id | id in s.operations && id !in s'.operations ensures !Active(s.operations[id]) {
    }
  }

  /** Steps that rewrite at most one operation and keep the order keep the history. */
  lemma RewriteKeepsHistory(s: Service, s': Service, id: Id)
    requires HistoryInv(s) && s'.order == s.order && id in s.operations && id in s'.operations
    requires s'.operations == s.operations[id := s'.operations[id]]
    requires s'.operations[id].id == id && WellFormed(s'.operations[id])
    ensures HistoryInv(s')
  {
  }

  lemma BeginKeepsInv(s: Service, e: Event)
    requires Inv(s) && e.Begin?
    ensures Inv(Step(s, e))
  {
    if e.id in s.operations && e.id in s.queued && s.operations[e.id].state == Pending {
      if Unavailable(s) {
        CancelKeepsInv(s, e.id, e.now);
      } else {
        RewriteKeepsHistory(s, Step(s, e), e.id);
      }
    }
  }

  lemma CancelKeepsInv(s: Service, id: Id, now: int)
    requires Inv(s)
    ensures Inv(CancelPending(s, id, now))
  {
    if id in s.operations && s.operations[id].state == Pending && id in s.queued {
      RewriteKeepsHistory(s, CancelPending(s, id, now), id);
    }
  }

  lemma FinishKeepsInv(s: Service, e: Event)
    requires Inv(s) && e.Finish?
    ensures Inv(Step(s, e))
  {
    if e.id in s.acting {
      RewriteKeepsHistory(s, Step(s, e), e.id);
    }
  }

  /** The queue with these operations interrupted, part of the way through a shutdown. */
  function Released(s: Service, ids: set<Id>, now: int): Service {
    s.(operations := map id | id in s.operations ::
         if id in ids && s.operations[id].state == Pending then Interrupt(s.operations[id], now) else s.operations[id],
       queued := s.queued - ids)
  }

  lemma ReleaseNone(s: Service, now: int)
    ensures Released(s, {}, now) == s
  {
    assert Released(s, {}, now).operations == s.operations;
  }

  lemma ReleaseOne(s: Service, ids: set<Id>, id: Id, now: int)
    requires id in s.queued && id !in ids && id in s.operations && s.operations[id].state == Pending
    ensures CancelPending(Released(s, ids, now), id, now) == Released(s, ids + {id}, now)
  {
    var one := CancelPending(Released(s, ids, now), id, now);
    var all := Released(s, ids + {id}, now);
    assert one.operations == all.operations;
    assert one.queued == all.queued;
  }

  lemma ReleaseAll(s: Service, now: int)
    requires FlightInv(s)
    ensures ShutdownStep(s, now) == Released(s, s.queued, now).(shuttingDown := true, cancelled := true)
  {
    assert ShutdownStep(s, now).operations == Released(s, s.queued, now).operations;
    assert ShutdownStep(s, now).queued == {} == Released(s, s.queued, now).queued;
  }

  lemma ShutdownKeepsInv(s: Service, e: Event)
    requires Inv(s) && e.Shutdown?
    ensures Inv(Step(s, e))
  {
    if !s.shuttingDown {
      var s' := Step(s, e);
      assert s'.queued == {};
    }
  }

  /** One inductive invariant for every interleaving. */
  lemma StepKeepsInv(s: Service, e: Event)
    requires Inv(s) && Possible(s, e)
    ensures Inv(Step(s, e))
  {
    match e {
      case Start(_, _, _, _) =>
        if CanStart(s) {
          StartKeepsHistory(s, e);
          StartKeepsRest(s, e);
        }
      case Begin(_, _) => BeginKeepsInv(s, e);
      case Cancel(id, now) => CancelKeepsInv(s, id, now);
      case Finish(_, _, _) => FinishKeepsInv(s, e);
      case Shutdown(_) => ShutdownKeepsInv(s, e);
      case _ =>
    }
  }

  lemma {:induction false} ReachableInv(s: Service, es: seq<Event>)
    requires Inv(s) && Schedule(s, es)
    ensures Inv(Execute(s, es))
  {
    if es != [] {
      ReachableInv(s, es[..|es| - 1]);
      StepKeepsInv(Execute(s, es[..|es| - 1]), es[|es| - 1]);
    }
  }

  ghost predicate OneFlight(s: Service) {
    && (forall a, b ::
         a in s.operations && Active(s.operations[a]) && b in s.operations && Active(s.operations[b]) ==> a == b)
    && (forall a :: a in s.operations && Active(s.operations[a]) ==>
         |s.order| > 0 && s.order[|s.order| - 1] == a && !s.forgetting)
    && (forall a :: a in s.queued <==> a in s.operations && s.operations[a].state == Pending)
    && (forall a :: a in s.order <==> a in s.operations) && Distinct(s.order) && |s.order| <= HISTORY_LIMIT
  }

  lemma InvMeansOneFlight(s: Service)
    requires HistoryInv(s) && FlightInv(s)
    ensures OneFlight(s)
  {
  }

  /** Single flight over all interleavings: in every reachable state at most one operation is
      active, it is the newest in the order list, queued actions are exactly the pending
      operations, the map and the order list agree, and forgetting excludes activity. */
  lemma {:induction false} SingleFlight(es: seq<Event>)
    requires Schedule(EMPTY, es)
    ensures OneFlight(Execute(EMPTY, es))
  {
    ReachableInv(EMPTY, es);
    InvMeansOneFlight(Execute(EMPTY, es));
  }

  /** A goroutine that finishes always finds its record: an active operation is never evicted. */
  lemma {:induction false} FinishFindsItsRecord(es: seq<Event>, id: Id)
    requires Schedule(EMPTY, es) && id in Execute(EMPTY, es).acting
    ensures id in Execute(EMPTY, es).operations && Execute(EMPTY, es).operations[id].state == Running
  {
    ReachableInv(EMPTY, es);
  }

  /** How one record may change: never its identity, forward through its states, and not at
      all once it is terminal. */
  ghost predicate Evolves(op: Operation, op': Operation) {
    && op'.id == op.id && op'.kind == op.kind && op'.network == op.network && op'.createdAt == op.createdAt
    && (!Active(op) ==> op' == op)
    && (op.state == Running ==> op'.state != Pending)
    && (op.state == op'.state ==> op' == op)
  }

  lemma StepEvolves(s: Service, e: Event, id: Id)
    requires Inv(s) && Possible(s, e) && id in s.issued
    ensures id in Step(s, e).issued
    ensures id in Step(s, e).operations ==> id in s.operations && Evolves(s.operations[id], Step(s, e).operations[id])
    ensures id in s.operations && Active(s.operations[id]) ==> id in Step(s, e).operations
  {
    if e.Start? && CanStart(s) {
      StartedOrder(s, e);
    }
  }

  /** Lifecycle: over any run, a record only moves forward, a terminal record is frozen, and
      only terminal records are ever dropped. */
  lemma {:induction false} Lifecycle(s: Service, es: seq<Event>, id: Id)
    requires Inv(s) && Schedule(s, es) && id in s.issued
    ensures var s' := Execute(s, es);
            && id in s'.issued
            && (id in s'.operations ==> id in s.operations && Evolves(s.operations[id], s'.operations[id]))
  {
    if es != [] {
      Lifecycle(s, es[..|es| - 1], id);
      ReachableInv(s, es[..|es| - 1]);
      StepEvolves(Execute(s, es[..|es| - 1]), es[|es| - 1], id);
    }
  }

  /** Each action starts at most once, and only for an id that was handed out. */
  lemma {:induction false} ActionsRunAtMostOnce(es: seq<Event>)
    requires Schedule(EMPTY, es)
    ensures Distinct(Execute(EMPTY, es).begun)
    ensures forall id :: id in Execute(EMPTY, es).begun ==> id in Execute(EMPTY, es).issued
  {
    ReachableInv(EMPTY, es);
  }

  /** What the HTTP layer does with an operation it has just reserved: begin it once the
      client holds the response, release it otherwise. */
  function Settle(id: Id, accepted: bool, now: int): Event {
    if accepted then Begin(id, now) else Cancel(id, now)
  }

  /** Whatever other threads do before, between and after, startOperation never leaves its
      operation pending: the slot is always released. */
  lemma {:induction false} SlotIsReleased(before: seq<Event>, id: Id, accepted: bool, now: int, after: seq<Event>)
    requires Schedule(EMPTY, before) && id in Execute(EMPTY, before).issued
    requires Schedule(Step(Execute(EMPTY, before), Settle(id, accepted, now)), after)
    ensures var s := Execute(Step(Execute(EMPTY, before), Settle(id, accepted, now)), after);
            id in s.operations ==> s.operations[id].state != Pending
  {
    var s := Execute(EMPTY, before);
    ReachableInv(EMPTY, before);
    var s' := Step(s, Settle(id, accepted, now));
    StepKeepsInv(s, Settle(id, accepted, now));
    assert id in s'.operations ==> s'.operations[id].state != Pending;
    Lifecycle(s', after, id);
  }

  /** How a step may move a service that has been marked for shutdown. */
  ghost predicate OnlyWindsDown(s: Service, s': Service) {
    && s'.shuttingDown && s'.begun == s.begun && s'.operations.Keys == s.operations.Keys
    && s'.acting <= s.acting && LiveGoroutines(s') <= LiveGoroutines(s)
    && (s.done ==> s'.done)
  }

  lemma FinishWindsDown(s: Service, id: Id, failure: Option<Failure>, now: int)
    requires s.shuttingDown && id in s.acting
    ensures OnlyWindsDown(s, FinishStep(s, id, failure, now))
  {
    assert |s.acting - {id}| == |s.acting| - 1;
  }

  lemma StepAfterShutdown(s: Service, e: Event)
    requires Inv(s) && s.shuttingDown && Possible(s, e)
    ensures OnlyWindsDown(s, Step(s, e))
  {
    match e {
      case Finish(id, failure, now) =>
        if id in s.acting {
          FinishWindsDown(s, id, failure, now);
        }
      case Begin(id, now) => assert BeginStep(s, id, now) == s;
      case _ =>
    }
  }

  ghost function RunningIds(s: Service): set<Id> {
    set id | id in s.operations && s.operations[id].state == Running
  }

  /** Shutdown safety: once marked, whatever follows, nothing is pending and nothing begins;
      live goroutines only decrease and bound the running operations; and when the done
      signal has fired every retained operation is terminal. */
  lemma {:induction false} ShutdownSafety(s: Service, es: seq<Event>)
    requires Inv(s) && s.shuttingDown && Schedule(s, es)
    ensures var s' := Execute(s, es);
            && Inv(s') && s'.shuttingDown && s'.queued == {} && s'.begun == s.begun
            && LiveGoroutines(s') <= LiveGoroutines(s)
            && |RunningIds(s')| <= LiveGoroutines(s')
            && (s.done ==> s'.done)
            && (s'.done ==> forall id :: id in s'.operations ==> !Active(s'.operations[id]))
  {
    if es != [] {
      ShutdownSafety(s, es[..|es| - 1]);
      StepAfterShutdown(Execute(s, es[..|es| - 1]), es[|es| - 1]);
      StepKeepsInv(Execute(s, es[..|es| - 1]), es[|es| - 1]);
    }
    var s' := Execute(s, es);
    assert RunningIds(s') == s'.acting;
  }

  /** A shutdown that timed out can be called again: it marks nothing twice. */
  lemma ShutdownIsIdempotent(s: Service, first: int, again: int)
    ensures Step(Step(s, Shutdown(first)), Shutdown(again)) == Step(s, Shutdown(first))
  {
  }

  /** Whenever every live goroutine of a marked service has finished and left, the done
      signal can fire: a retried wait is never stuck on the service itself. */
  lemma DrainedServiceSignals(s: Service)
    requires Inv(s) && s.shuttingDown && RunningIds(s) == {} && s.leaving == 0
    ensures Step(s, Drain).done
  {
    assert s.acting == RunningIds(s);
  }

  /** The record of an operation that was dropped before it ran. */
  predicate Interrupted(op: Operation, now: int) {
    op.state == Failed && op.failure == Some(Interruption) && op.finishedAt == Some(now)
  }

  /** The rest of the history is what it was. */
  ghost predicate OthersKept(s: Service, s': Service, id: Id) {
    s'.order == s.order && s'.operations.Keys == s.operations.Keys &&
    forall other :: other in s.operations && other != id ==> s'.operations[other] == s.operations[other]
  }

  /** An action's result is what its record says afterwards: succeeded exactly without a failure,
      and otherwise failed with that failure. */
  lemma {:induction false} FinishRecordsResult(es: seq<Event>, id: Id, failure: Option<Failure>, now: int)
    requires Schedule(EMPTY, es) && id in Execute(EMPTY, es).acting
    ensures var s, s' := Execute(EMPTY, es), Step(Execute(EMPTY, es), Finish(id, failure, now));
            && id in s'.operations && s'.operations[id].failure == failure && s'.operations[id].finishedAt == Some(now)
            && (s'.operations[id].state == Succeeded <==> failure.None?)
            && (s'.operations[id].state == Failed <==> failure.Some?)
            && id !in s'.acting && OthersKept(s, s', id)
  {
    ReachableInv(EMPTY, es);
  }

  /** A reserved action begins exactly while the service is neither stopping nor cancelled, and is
      interrupted otherwise; nothing that is not queued begins. */
  lemma {:induction false} BeginStartsOrInterrupts(es: seq<Event>, id: Id, now: int)
    requires Schedule(EMPTY, es)
    ensures var s, s' := Execute(EMPTY, es), Step(Execute(EMPTY, es), Begin(id, now));
            && (id !in s.queued ==> s' == s)
            && (id in s.queued ==>
                 && id in s'.operations && id !in s'.queued && OthersKept(s, s', id)
                 && (!s.shuttingDown && !s.cancelled ==>
                      s'.operations[id].state == Running && s'.begun == s.begun + [id] && s'.acting == s.acting + {id})
                 && (s.shuttingDown || s.cancelled ==>
                      Interrupted(s'.operations[id], now) && s'.begun == s.begun && s'.acting == s.acting))
  {
    ReachableInv(EMPTY, es);
  }

  /** Releasing a reserved action interrupts it, and nothing else. */
  lemma {:induction false} CancelInterrupts(es: seq<Event>, id: Id, now: int)
    requires Schedule(EMPTY, es)
    ensures var s, s' := Execute(EMPTY, es), Step(Execute(EMPTY, es), Cancel(id, now));
            && (id !in s.queued ==> s' == s)
            && (id in s.queued ==>
                 id in s'.operations && Interrupted(s'.operations[id], now) && s'.queued == s.queued - {id} &&
                 s'.begun == s.begun && OthersKept(s, s', id))
  {
    ReachableInv(EMPTY, es);
  }

  /** Nobody stops the service, forgets a profile or has an operation pending or running. */
  ghost predicate Idle(s: Service) {
    && !s.shuttingDown && !s.cancelled && !s.forgetting
    && forall id :: id in s.operations ==> s.operations[id].state == Succeeded || s.operations[id].state == Failed
  }

  /** A start is accepted exactly by an idle service, and reserves a pending operation. */
  lemma {:induction false} StartReserves(es: seq<Event>, kind: Kind, network: string, id: Id, now: int)
    requires Schedule(EMPTY, es) && id !in Execute(EMPTY, es).issued
    ensures var s, s' := Execute(EMPTY, es), Step(Execute(EMPTY, es), Start(kind, network, id, now));
            && (!Idle(s) ==> s' == s)
            && (Idle(s) ==>
                 && id in s'.operations && id in s'.queued && s'.order != [] && s'.order[|s'.order| - 1] == id
                 && s'.operations[id] == Operation(id, kind, Pending, network, None, now, None)
                 && s'.begun == s.begun && s'.acting == s.acting)
  {
    ReachableInv(EMPTY, es);
    if Idle(Execute(EMPTY, es)) {
      StartedOrder(Execute(EMPTY, es), Start(kind, network, id, now));
    }
  }

  /** The shutdown mark interrupts everything that was pending and lets what runs go on. */
  lemma {:induction false} ShutdownInterruptsPending(es: seq<Event>, now: int)
    requires Schedule(EMPTY, es) && !Execute(EMPTY, es).shuttingDown
    ensures var s, s' := Execute(EMPTY, es), Step(Execute(EMPTY, es), Shutdown(now));
            && s'.shuttingDown && s'.cancelled && s'.queued == {} && s'.acting == s.acting
            && s'.order == s.order && s'.operations.Keys == s.operations.Keys
            && (forall id :: id in s.operations ==>
                 if s.operations[id].state == Pending then Interrupted(s'.operations[id], now)
                 else s'.operations[id] == s.operations[id])
  {
    ReachableInv(EMPTY, es);
  }

  /** Forgetting begins exactly in an idle service, excludes starts until it ends, and touches no record. */
  lemma {:induction false} ForgettingExcludes(es: seq<Event>)
    requires Schedule(EMPTY, es)
    ensures var s := Execute(EMPTY, es);
            && Step(s, ForgetBegin) == (if Idle(s) then s.(forgetting := true) else s)
            && Step(s, ForgetEnd) == s.(forgetting := false)
            && Step(s, ParentCancelled) == s.(cancelled := true)
  {
  }
}
