/** The operation service itself: records on the heap, mutated in place under one lock. Each
    method is one critical section and refines one step of the state machine. */
module OperationService {
  import opened Text
  import opened Operations

  /** One operation record: shared by reference inside the service, overwritten in place. */
  class Record {
    var value: Operation

    constructor (value: Operation)
      ensures this.value == value
    {
      this.value := value;
    }

    /** cloneOperation: a new record, so later writes to this one do not show in it. */
    method Clone() returns (copy: Record)
      ensures fresh(copy) && copy.value == value
    {
      copy := new Record(value);
    }
  }

  datatype Refusal = Stopping | ProfileChange | Conflict(active: Record)

  datatype StartResult = Started(snapshot: Record) | Refused(why: Refusal) | NoEntropy

  class Service {
    var operations: map<Id, Record>
    var actions: map<Id, Kind>
    var order: seq<Id>
    var isForgetting: bool
    var isShuttingDown: bool
    var isCancelled: bool
    var operationWG: nat
    var shutdownDone: bool
    ghost var view: Operations.Service
    ghost var past: seq<Event>
    ghost var states: seq<Operations.Service>
    ghost var Repr: set<Record>

    /** Every record is stored under its own id and belongs to the service. */
    ghost predicate Separate()
      reads this`operations, this`Repr, Repr
    {
      forall id :: id in operations ==> operations[id] in Repr && operations[id].value.id == id
    }

    /** The records hold exactly these operations. */
    ghost predicate Holds(model: map<Id, Operation>)
      requires Separate()
      reads this`operations, this`Repr, Repr
    {
      forall id :: (id in model <==> id in operations) && (id in operations ==> operations[id].value == model[id])
    }

    /** What a change to the records leaves as it is. */
    ghost predicate Flags(v: Operations.Service)
      reads this`isForgetting, this`isShuttingDown, this`isCancelled, this`operationWG, this`shutdownDone
    {
      && v.forgetting == isForgetting && v.shuttingDown == isShuttingDown && v.cancelled == isCancelled
      && LiveGoroutines(v) == operationWG && v.done == shutdownDone
    }

    /** The fields hold the abstract state `v`. */
    ghost predicate Tied(v: Operations.Service)
      requires Separate()
      reads this`operations, this`actions, this`order, this`isForgetting, this`isShuttingDown, this`isCancelled,
            this`operationWG, this`shutdownDone, this`Repr, Repr
    {
      && Holds(v.operations) && (forall id :: id in v.queued <==> id in actions) && v.order == order
      && Flags(v)
    }

    ghost predicate Valid()
      reads this, Repr
    {
      Separate() && Tied(view) && Reached()
    }

    /** The steps taken so far are a schedule of the state machine that ends in this view. */
    ghost predicate Reached()
      reads this`view, this`past, this`states
    {
      History(states, past) && states[|past|] == view
    }

    lemma ReachedInv()
      requires Reached()
      ensures Schedule(EMPTY, past) && view == Execute(EMPTY, past) && Inv(view)
    {
      HistoryIsExecution(states, past);
      ReachableInv(EMPTY, past);
    }

    lemma QueuedIsPending(id: Id)
      requires Reached()
      ensures id in view.queued <==> id in view.operations && view.operations[id].state == Pending
    {
      ReachedInv();
    }

    lemma QueuedIsNotActing(id: Id)
      requires Reached() && id in view.queued
      ensures id !in view.acting && |view.acting + {id}| == |view.acting| + 1
    {
      ReachedInv();
    }

    lemma OrderIsComplete()
      requires Reached()
      ensures forall id :: id in view.order <==> id in view.operations
    {
      ReachedInv();
    }

    /** Takes one step of the state machine. */
    ghost method Advance(e: Event)
      requires Reached() && Possible(view, e)
      modifies this`view, this`past, this`states
      ensures Reached() && view == Step(old(view), e) && past == old(past) + [e]
    {
      HistoryGrows(states, past, e);
      states := states + [Step(view, e)];
      past := past + [e];
      view := Step(view, e);
    }

    constructor ()
      ensures Valid() && fresh(Repr) && view == EMPTY && past == []
    {
      operations, actions, order := map[], map[], [];
      isForgetting, isShuttingDown, isCancelled := false, false, false;
      operationWG, shutdownDone := 0, false;
      view, past, states := EMPTY, [], [EMPTY];
      Repr := {};
    }

    method ActiveOperationLocked() returns (active: Record?)
      requires Valid()
      ensures active == null <==> forall id :: id in view.operations ==> !Active(view.operations[id])
      ensures active != null ==>
                exists id :: id in operations && operations[id] == active && Active(view.operations[id])
    {
      OrderIsComplete();
      var index := |order| - 1;
      while index >= 0
        invariant -1 <= index < |order|
        invariant forall i :: index < i < |order| ==> !Active(view.operations[order[i]])
      {
        assert order[index] in order;
        var operation := operations[order[index]];
        assert operation.value == view.operations[order[index]];
        if operation.value.state == Pending || operation.value.state == Running {
          return operation;
        }
        index := index - 1;
      }
      return null;
    }

    method Operation(id: Id) returns (snapshot: Record?)
      requires Valid()
      ensures snapshot == null <==> id !in view.operations
      ensures snapshot != null ==> fresh(snapshot) && snapshot.value == view.operations[id]
    {
      if id !in operations {
        return null;
      }
      assert operations[id].value == view.operations[id];
      snapshot := operations[id].Clone();
    }

    /** Overwrites one record in place. */
    method Rewrite(id: Id, value: Operation, ghost model: map<Id, Operation>)
      requires Separate() && Holds(model) && id in operations && value.id == id
      modifies operations[id]
      ensures Separate() && Holds(model[id := value])
    {
      var record := operations[id];
      record.value := value;
      forall other | other in operations && other != id ensures operations[other].value == model[other] {
        assert old(operations[other].value.id) == other;
      }
    }

    /** Fails a pending operation in place and drops its queued action. */
    method CancelPendingOperationLocked(id: Id, now: int, ghost v: Operations.Service) returns (released: bool)
      requires Separate() && Tied(v)
      modifies this`actions, Repr
      ensures Separate()
      ensures Tied(CancelPending(v, id, now))
      ensures released <==> id in v.queued && id in v.operations && v.operations[id].state == Pending
    {
      assert id in operations ==> operations[id].value == v.operations[id];
      released := id in operations && operations[id].value.state == Pending && id in actions;
      if released {
        Rewrite(id, Interrupt(operations[id].value, now), v.operations);
        actions := actions - {id};
      }
    }

    /** Releases a reserved transition; no backend work is started. */
    method CancelPendingOperation(id: Id, now: int) returns (released: bool)
      requires Valid()
      modifies this, Repr
      ensures Valid() && Repr == old(Repr) && past == old(past) + [Cancel(id, now)]
      ensures released <==> id in old(view).queued
    {
      QueuedIsPending(id);
      released := CancelPendingOperationLocked(id, now, view);
      Advance(Cancel(id, now));
    }

    /** Marks a queued operation running; its goroutine is counted. */
    method Run(id: Id, now: int)
      requires Valid() && id in view.queued && !Unavailable(view)
      modifies this`actions, this`operationWG, Repr
      ensures Separate() && Tied(BeginStep(view, id, now))
    {
      QueuedIsPending(id);
      QueuedIsNotActing(id);
      Rewrite(id, operations[id].value.(state := Running), view.operations);
      actions := actions - {id};
      operationWG := operationWG + 1;
    }

    method BeginOperationLocked(id: Id, now: int) returns (begun: bool)
      requires Valid()
      modifies this`actions, this`operationWG, Repr
      ensures Separate()
      ensures Tied(BeginStep(view, id, now))
      ensures begun <==> id in view.queued && !Unavailable(view)
    {
      QueuedIsPending(id);
      var ready := id in operations && id in actions && operations[id].value.state == Pending;
      begun := ready && !isShuttingDown && !isCancelled;
      if begun {
        Run(id, now);
      } else if ready {
        var _ := CancelPendingOperationLocked(id, now, view);
      }
    }

    /** Starts one reserved operation exactly once, or fails it when the service stops. */
    method BeginOperation(id: Id, now: int) returns (begun: bool)
      requires Valid()
      modifies this, Repr
      ensures Valid() && Repr == old(Repr) && past == old(past) + [Begin(id, now)]
      ensures begun <==> id in old(view).queued && !Unavailable(old(view))
    {
      begun := BeginOperationLocked(id, now);
      Advance(Begin(id, now));
    }

    ghost predicate Trimmable(model: map<Id, Operation>)
      reads this`order, this`actions
    {
      && Distinct(order) && (forall id :: id in order ==> id in model)
      && forall id :: id in actions ==> id in model && model[id].state == Pending
    }

    method DropOldest(ghost model: map<Id, Operation>)
      requires Separate() && Holds(model) && Trimmable(model) && order != [] && !Active(operations[order[0]].value)
      modifies this`operations, this`actions, this`order
      ensures Separate() && Holds(model - {old(order)[0]}) && actions == old(actions) && order == old(order)[1..]
      ensures Trimmable(model - {old(order)[0]})
    {
      var oldestID := order[0];
      assert oldestID !in order[1..];
      operations := operations - {oldestID};
      actions := actions - {oldestID};
      order := order[1..];
    }

    /** What the HTTP layer does with a reserved operation: begin it once the client holds the
        response, release it if the response never arrived. */
    method Settle(id: Id, accepted: bool, now: int)
      requires Valid()
      modifies this, Repr
      ensures Valid() && Repr == old(Repr) && past == old(past) + [Operations.Settle(id, accepted, now)]
    {
      if accepted {
        var _ := BeginOperation(id, now);
      } else {
        var _ := CancelPendingOperation(id, now);
      }
    }

    /** Drops the oldest records while there are too many, but never an active one. */
    method TrimHistoryLocked(ghost model: map<Id, Operation>)
      requires Separate() && Holds(model) && Trimmable(model)
      modifies this`operations, this`actions, this`order
      ensures Separate() && actions == old(actions)
      ensures var kept := Trim(model, old(order)); Holds(kept.0) && order == kept.1
    {
      ghost var left := model;
      while |order| > HISTORY_LIMIT
        invariant Separate() && Holds(left) && Trimmable(left) && actions == old(actions)
        invariant Trim(left, order) == Trim(model, old(order))
        decreases |order|
      {
        var oldest := operations[order[0]];
        if oldest.value.state == Pending || oldest.value.state == Running {
          return;
        }
        ghost var shorter := left - {order[0]};
        DropOldest(left);
        left := shorter;
      }
    }

    lemma ReadyToStart(id: Id)
      requires Reached() && id !in view.issued
      ensures id !in view.operations && Distinct(view.order) && forall k :: k in view.order ==> k in view.operations
      ensures forall k :: k in view.queued ==> k in view.operations && view.operations[k].state == Pending
    {
      ReachedInv();
    }

    method Store(op: Operation, ghost model: map<Id, Operation>)
      requires Separate() && Holds(model) && Trimmable(model) && op.id !in model && op.state == Pending
      modifies this`operations, this`actions, this`order, this`Repr
      ensures Separate() && fresh(Repr - old(Repr)) && old(Repr) <= Repr
      ensures Holds(model[op.id := op]) && Trimmable(model[op.id := op])
      ensures order == old(order) + [op.id] && actions.Keys == old(actions.Keys) + {op.id}
    {
      var record := new Record(op);
      Repr := Repr + {record};
      operations := operations[op.id := record];
      actions := actions[op.id := op.kind];
      order := order + [op.id];
    }

    lemma TiedStart(op: Operation)
      requires Separate() && Holds(StartStep(view, op).operations) && order == StartStep(view, op).order
      requires actions.Keys == view.queued + {op.id} && Flags(view)
      ensures Tied(StartStep(view, op))
    {
    }

    method StoreQueued(op: Operation)
      requires Separate() && Tied(view) && Reached() && op.id !in view.issued && op.state == Pending
      modifies this`operations, this`actions, this`order, this`Repr
      ensures Separate() && fresh(Repr - old(Repr)) && old(Repr) <= Repr
      ensures Holds(view.operations[op.id := op]) && Trimmable(view.operations[op.id := op])
      ensures order == view.order + [op.id] && actions.Keys == view.queued + {op.id} && Flags(view)
    {
      ReadyToStart(op.id);
      Store(op, view.operations);
    }

    /** Stores a new record, queues its action and drops old history. */
    method Reserve(op: Operation)
      requires Separate() && Tied(view) && Reached() && op.id !in view.issued && op.state == Pending
      modifies this`operations, this`actions, this`order, this`Repr
      ensures Separate() && fresh(Repr - old(Repr)) && old(Repr) <= Repr && Tied(StartStep(view, op))
    {
      StoreQueued(op);
      TrimHistoryLocked(view.operations[op.id := op]);
      TiedStart(op);
    }

    /** Why a mutation is refused: the service stops, an operation is active, or a profile is
        being forgotten. No two reasons after the first can hold at once, so their order in
        the two callers does not show. */
    method Refuse() returns (why: Option<Refusal>)
      requires Valid()
      ensures why.None? <==> CanStart(view)
      ensures why == Some(Stopping) <==> Unavailable(view)
      ensures why == Some(ProfileChange) <==> !Unavailable(view) && view.forgetting
      ensures why.Some? && why.value.Conflict? ==>
                && fresh(why.value.active) && Active(why.value.active.value)
                && exists id :: id in view.operations && view.operations[id] == why.value.active.value
    {
      if isShuttingDown || isCancelled {
        return Some(Stopping);
      }
      if isForgetting {
        return Some(ProfileChange);
      }
      var active := ActiveOperationLocked();
      if active != null {
        var snapshot := active.Clone();
        return Some(Conflict(snapshot));
      }
      return None;
    }

    /** Reserves the transition slot; the action does not start yet. */
    method Start(kind: Kind, network: string, drawn: Option<Id>, now: int) returns (r: StartResult)
      requires Valid()
      requires drawn.Some? ==> drawn.value !in view.issued
      modifies this
      ensures Valid() && fresh(Repr - old(Repr)) && old(Repr) <= Repr
      ensures r.Refused? <==> !CanStart(old(view))
      ensures r.Started? <==> CanStart(old(view)) && drawn.Some?
      ensures r.Started? ==>
                && past == old(past) + [Operations.Start(kind, network, drawn.value, now)]
                && fresh(r.snapshot) && r.snapshot !in Repr
                && r.snapshot.value == NewOperation(kind, network, drawn.value, now)
      ensures !r.Started? ==> past == old(past) && view == old(view)
    {
      var refusal := Refuse();
      if refusal.Some? {
        return Refused(refusal.value);
      }
      if drawn.None? {
        return NoEntropy;
      }
      var op := NewOperation(kind, network, drawn.value, now);
      Reserve(op);
      var snapshot := new Record(op);
      r := Started(snapshot);
      Advance(Operations.Start(kind, network, drawn.value, now));
    }

    lemma FinishCounts(id: Id, failure: Option<Failure>, now: int)
      requires id in view.acting
      ensures LiveGoroutines(FinishStep(view, id, failure, now)) == LiveGoroutines(view)
    {
      assert |view.acting - {id}| == |view.acting| - 1;
    }

    /** The goroutine of one action records its result. */
    method FinishLocked(id: Id, failure: Option<Failure>, now: int)
      requires Separate() && Tied(view) && id in view.acting
      modifies Repr
      ensures Separate() && Tied(FinishStep(view, id, failure, now))
    {
      FinishCounts(id, failure, now);
      if id !in operations {
        return;
      }
      assert operations[id].value == view.operations[id];
      Rewrite(id, Finished(operations[id].value, failure, now), view.operations);
    }

    lemma FinishFindsRecord(id: Id)
      requires Reached() && id in view.acting
      ensures id in view.operations
    {
      ReachedInv();
    }

    method Finish(id: Id, failure: Option<Failure>, now: int)
      requires Valid() && id in view.acting
      modifies this, Repr
      ensures Valid() && Repr == old(Repr) && past == old(past) + [Operations.Finish(id, failure, now)]
      ensures id in old(operations) && id in operations && operations[id] == old(operations)[id]
      ensures var op := operations[id].value;
              && op.failure == failure && op.finishedAt == Some(now)
              && (op.state == Succeeded <==> failure.None?) && (op.state == Failed <==> failure.Some?)
    {
      FinishFindsRecord(id);
      FinishLocked(id, failure, now);
      Advance(Operations.Finish(id, failure, now));
    }

    /** A goroutine that has recorded its result tells the wait group. */
    method Leave()
      requires Valid() && view.leaving > 0
      modifies this
      ensures Valid() && Repr == old(Repr) && past == old(past) + [Operations.Leave]
    {
      operationWG := operationWG - 1;
      Advance(Operations.Leave);
    }

    /** The first half of forgetting a network: it holds no lock while the backend works. */
    method BeginForget() returns (why: Option<Refusal>)
      requires Valid()
      modifies this
      ensures Valid() && Repr == old(Repr) && past == old(past) + [ForgetBegin]
      ensures why.None? <==> CanStart(old(view))
    {
      why := Refuse();
      if why.None? {
        isForgetting := true;
      }
      Advance(ForgetBegin);
    }

    method EndForget()
      requires Valid()
      modifies this
      ensures Valid() && Repr == old(Repr) && past == old(past) + [ForgetEnd]
    {
      isForgetting := false;
      Advance(ForgetEnd);
    }

    lemma FlightHolds()
      requires Reached()
      ensures FlightInv(view)
    {
      ReachedInv();
    }

    method ReleaseNext(id: Id, ghost released: set<Id>, now: int)
      requires Separate() && Tied(Released(view, released, now)) && id !in released
      requires Reached() && id in view.queued
      modifies this`actions, Repr
      ensures Separate() && Tied(Released(view, released + {id}, now))
    {
      QueuedIsPending(id);
      ReleaseOne(view, released, id, now);
      var _ := CancelPendingOperationLocked(id, now, Released(view, released, now));
    }

    lemma QueuedActions()
      requires Separate() && Tied(view)
      ensures actions.Keys == view.queued
    {
    }

    /** Interrupts everything that is queued. */
    method ReleaseQueue(now: int)
      requires Separate() && Tied(view) && Reached()
      modifies this`actions, Repr
      ensures Separate() && Tied(Released(view, view.queued, now))
    {
      var waiting := actions.Keys;
      ghost var gone: set<Id> := {};
      QueuedActions();
      ReleaseNone(view, now);
      while waiting != {}
        invariant Separate() && gone <= view.queued && waiting == view.queued - gone
        invariant Tied(Released(view, gone, now))
        decreases waiting
      {
        var id :| id in waiting;
        ReleaseNext(id, gone, now);
        waiting, gone := waiting - {id}, gone + {id};
      }
      assert gone == view.queued;
    }

    method ShutdownLocked(now: int)
      requires Separate() && Tied(view) && Reached()
      modifies this`actions, this`isShuttingDown, this`isCancelled, Repr
      ensures Separate() && Tied(ShutdownStep(view, now))
    {
      FlightHolds();
      ReleaseAll(view, now);
      ReleaseQueue(now);
      isShuttingDown, isCancelled := true, true;
    }

    /** The part of Shutdown that runs once, under the lock. */
    method ShutdownMark(now: int)
      requires Valid()
      modifies this, Repr
      ensures Valid() && Repr == old(Repr) && past == old(past) + [Shutdown(now)]
    {
      if !isShuttingDown {
        ShutdownLocked(now);
      }
      Advance(Shutdown(now));
    }

    /** The wait group has drained: every later wait returns at once. */
    method SignalDone()
      requires Valid() && isShuttingDown && operationWG == 0
      modifies this
      ensures Valid() && Repr == old(Repr) && past == old(past) + [Drain] && shutdownDone
    {
      shutdownDone := true;
      Advance(Drain);
    }
  }
}
