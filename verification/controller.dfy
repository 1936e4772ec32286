/** The controller's loop, the request set it drains and the supervisor around it, with other
    threads free to request recovery between any two steps. */
module Controller {
  import opened Engine
  import opened Control

  /** Coalesced recovery requests: a flag and a one-slot wake-up channel. */
  class Requests {
    var pending: bool
    var notify: bool

    constructor ()
      ensures !pending && !notify
    {
      pending, notify := false, false;
    }

    /** False when another request already stands for the same outcome. */
    method Request() returns (accepted: bool)
      modifies this
      ensures accepted == !old(pending) && pending
      ensures notify == (old(notify) || !old(pending))
    {
      if pending {
        return false;
      }
      pending := true;
      if !notify {
        notify := true;
      }
      return true;
    }

    /** Also drops a wake-up left unread by a run that looked at the flag first. */
    method Complete()
      modifies this
      ensures !pending && !notify
    {
      pending := false;
      if notify {
        notify := false;
      }
    }
  }

  /** What the provisioning manager was asked for, and whether it did it. */
  datatype Asked = Asked(action: Action, ok: bool)

  datatype Exit = Returned(failed: bool, terminal: bool) | StillRunning

  class Loop {
    const requests: Requests
    var current: Action
    var awaitingProvisioning: bool
    var applied: seq<Action>
    var asked: seq<Asked>
    ghost var view: Product
    ghost var past: seq<Event>

    constructor (requests: Requests)
      requires !requests.pending && !requests.notify
      ensures this.requests == requests && Valid() && view == START && past == [] && asked == []
    {
      this.requests := requests;
      current, awaitingProvisioning, applied, asked, view, past := NoAction, false, [], [], START, [];
    }

    /** The fields are a reachable state of the state machine; `applied` holds what the
        provisioning manager was successfully asked for in this run. */
    ghost predicate Valid()
      reads this, requests
    {
      && applied == view.applied
      && requests.pending == view.pending && requests.notify == view.token
      && current == view.current && awaitingProvisioning == view.awaiting
      && Reached()
    }

    ghost predicate Reached()
      reads this`view, this`past
    {
      view == Control.Execute(START, past)
    }

    ghost method Advance(e: Event)
      requires Reached()
      modifies this`view, this`past
      ensures Reached() && view == Control.Step(old(view), e) && past == old(past) + [e]
    {
      ExecuteAppend(START, past, e);
      past := past + [e];
      view := Control.Step(view, e);
    }

    lemma ServingInv()
      requires Reached()
      ensures Inv(view)
    {
      ReachableInv(START, past);
    }

    /** What other threads do between two steps. */
    method Meanwhile()
      requires Valid()
      modifies this, requests
      ensures Valid() && view == (if view.pending then Request(old(view)) else old(view))
      ensures current == old(current) && awaitingProvisioning == old(awaitingProvisioning) && asked == old(asked)
    {
      var left: nat := *;
      while left > 0
        invariant Valid() && view == (if view.pending then Request(old(view)) else old(view))
        invariant current == old(current) && awaitingProvisioning == old(awaitingProvisioning) && asked == old(asked)
        decreases left
      {
        var _ := requests.Request();
        Advance(Requested);
        left := left - 1;
      }
    }

    /** Asks the provisioning manager to act; it may fail. */
    method Apply(next: Action) returns (ok: bool)
      modifies this`applied, this`asked
      ensures applied == old(applied) + if ok then [next] else []
      ensures asked == old(asked) + [Asked(next, ok)]
    {
      ok := *;
      asked := asked + [Asked(next, ok)];
      if ok {
        applied := applied + [next];
      }
    }

    method ApplyRecovery() returns (ok: bool)
      requires Valid() && view.phase == Recovering
      modifies this, requests
      ensures Valid() && view.phase == (if ok then Serving else Idle)
      ensures ok ==> current == Enter && !requests.pending && !requests.notify
      ensures !ok ==> requests.pending && old(current) != Enter
      ensures asked == old(asked) + if old(current) == Enter then [] else [Asked(Enter, ok)]
      ensures !ok ==> past == old(past) + [EnterTried(false)]
    {
      ServingInv();
      if current == Enter {
        requests.Complete();
        Advance(Completed);
        return true;
      }
      ok := Apply(Enter);
      Advance(EnterTried(ok));
      if ok {
        Meanwhile();
        requests.Complete();
        current := Enter;
        awaitingProvisioning := true;
        Advance(Completed);
      }
    }

    /** The manager was asked for exactly the action that was due, and `ok` is its answer. */
    ghost predicate Responded(before: Product, was: seq<Asked>, state: State, ok: bool)
      reads this`asked
    {
      var due := See(before, state, true).applied;
      asked == was + if due == before.applied || due == [] then [] else [Asked(due[|due| - 1], ok)]
    }

    /** Handles one state from the engine. A manager that fails because the run was cancelled is
        no failure. */
    method Handle(state: State) returns (exit: Exit, ghost cancelled: bool)
      requires Valid() && view.phase == Serving
      modifies this
      ensures Valid() && view.phase == (if exit == StillRunning then Serving else Idle)
      ensures exists ok :: view == See(old(view), state, ok) && Responded(old(view), old(asked), state, ok) &&
                           past == old(past) + [StateSeen(state, ok)]
      ensures exit == Returned(true, true) <==> Hopeless(state)
      ensures exit == Returned(false, false) <==> state.stage == Stopped || cancelled
      ensures cancelled ==> asked != old(asked) && asked[|asked| - 1].ok == false
      ensures state.stage == Failed && !Hopeless(state) ==> exit == Returned(true, false)
      ensures exit.Returned? && exit.terminal ==> exit.failed
    {
      cancelled := false;
      if state.stage == Stopped {
        Advance(StateSeen(state, true));
        return Returned(false, false), cancelled;
      }
      var decision := ActionFor(state);
      if decision.Fail? {
        Advance(StateSeen(state, true));
        return Returned(true, decision.terminal), cancelled;
      }
      exit, cancelled := Follow(state, decision.action);
    }

    /** Applies the action a state asks for, unless it is in force already or would undo a
        recovery whose provisioning has not been seen yet. */
    method Follow(state: State, next: Action) returns (exit: Exit, ghost cancelled: bool)
      requires Valid() && view.phase == Serving && state.stage != Stopped && ActionFor(state) == Act(next)
      modifies this
      ensures Valid() && view.phase == (if exit == StillRunning then Serving else Idle)
      ensures exists ok :: view == See(old(view), state, ok) && Responded(old(view), old(asked), state, ok) &&
                           past == old(past) + [StateSeen(state, ok)]
      ensures exit == StillRunning || exit == Returned(!cancelled, false)
      ensures cancelled ==> exit.Returned?
      ensures exit.Returned? ==> asked != old(asked) && asked[|asked| - 1].ok == false
    {
      cancelled := false;
      if awaitingProvisioning && next == Enter {
        awaitingProvisioning := false;
      }
      if (awaitingProvisioning && next == Leave) || next == NoAction || next == current {
        Advance(StateSeen(state, true));
        return StillRunning, cancelled;
      }
      var ok := Apply(next);
      if !ok {
        var done := *;
        cancelled := done;
        Advance(StateSeen(state, false));
        return Returned(!done, false), cancelled;
      }
      current := next;
      Advance(StateSeen(state, true));
      return StillRunning, cancelled;
    }

    /** Takes the wake-up from the slot and looks whether it still stands for a request. */
    method Wake() returns (ok: bool)
      requires Valid() && view.phase == Serving && requests.notify
      modifies this, requests
      ensures Valid() && view.phase == (if ok then Serving else Idle)
      ensures !ok ==> asked == old(asked) + [Asked(Enter, false)] && past != [] && past[|past| - 1] == EnterTried(false)
    {
      requests.notify := false;
      Advance(WakeTaken);
      Meanwhile();
      var stands := requests.pending;
      Advance(WakeChecked);
      if !stands {
        return true;
      }
      Meanwhile();
      ok := ApplyRecovery();
    }

    method Begin() returns (ok: bool)
      requires Valid() && view.phase == Idle
      modifies this, requests
      ensures Valid() && view.phase == (if ok then Serving else Idle)
      ensures old(requests.pending) && ok ==> LastApplied(view.log) == Enter && current == Enter
      ensures !ok ==> asked == old(asked) + [Asked(Enter, false)] && past != [] && past[|past| - 1] == EnterTried(false)
    {
      current, awaitingProvisioning, applied := NoAction, false, [];
      Advance(RunBegins);
      Meanwhile();
      var pending := requests.pending;
      Advance(RunLooks);
      ok := true;
      if pending {
        Meanwhile();
        ok := ApplyRecovery();
        ServingInv();
      }
    }

    /** What a run makes of the last thing that happened to it: it is terminal exactly for a state
        without hope, and no failure for a stop or for a refusal because of a cancellation. */
    ghost predicate EndedBy(exit: Exit, cancelled: bool)
      reads this`past
      requires exit.Returned?
    {
      past != [] &&
      match past[|past| - 1]
      case StateSeen(state, _) =>
        exit.terminal == Hopeless(state) && exit.failed == (state.stage != Stopped && !cancelled)
      case EnterTried(ok) => !ok && !exit.terminal && exit.failed == !cancelled
      case RunEnds => !exit.terminal
      case _ => false
    }

    ghost predicate SawHopeless()
      reads this`past
    {
      past != [] && past[|past| - 1].StateSeen? && Hopeless(past[|past| - 1].state)
    }

    /** Run: recovers first if a request is pending, and then serves states and wake-ups until
        something ends the run or the model stops watching it. */
    method RunLoop(patience: nat) returns (exit: Exit, ghost cancelled: bool)
      requires Valid() && view.phase == Idle
      modifies this, requests
      ensures Valid() && view.phase == (if exit == StillRunning then Serving else Idle)
      ensures Disciplined(view.log)
      ensures exit.Returned? ==> EndedBy(exit, cancelled)
    {
      var ok := Begin();
      exit, cancelled := if ok then StillRunning else Returned(true, false), false;
      var left := patience;
      while left > 0 && exit == StillRunning
        invariant Valid() && view.phase == (if exit == StillRunning then Serving else Idle)
        invariant exit.Returned? ==> EndedBy(exit, cancelled)
      {
        Meanwhile();
        var choice: nat := *;
        if choice == 0 {
          var failed := *;
          Advance(RunEnds);
          exit := Returned(failed, false);
        } else if choice == 1 && requests.notify {
          exit, cancelled := Serve();
        } else {
          var state := *;
          exit, cancelled := Handle(state);
        }
        left := left - 1;
      }
      ServingInv();
    }

    /** Serves a wake-up; a recovery refused because the run was cancelled is no failure. */
    method Serve() returns (exit: Exit, ghost cancelled: bool)
      requires Valid() && view.phase == Serving && requests.notify
      modifies this, requests
      ensures Valid() && view.phase == (if exit == StillRunning then Serving else Idle)
      ensures exit.Returned? ==> EndedBy(exit, cancelled)
    {
      var ok := Wake();
      var done := *;
      exit, cancelled := if ok then StillRunning else Returned(!done, false), done;
    }
  }

  datatype Verdict = Finished | Terminal | Exhausted | Watching

  /** Supervisor.Run: restarts a failed run while the budget lasts. How the last run ended and
      whether supervision was `stopped` decide the verdict; only a state without hope is
      terminal. */
  method Supervise(loop: Loop, maxRestarts: nat, patience: nat)
    returns (verdict: Verdict, runs: nat, last: Exit, stopped: bool)
    requires loop.Valid() && loop.view.phase == Idle
    modifies loop, loop.requests
    ensures loop.Valid() && 1 <= runs <= maxRestarts + 1
    ensures verdict == Watching <==> last == StillRunning
    ensures verdict == Finished <==> last.Returned? && (stopped || !last.failed)
    ensures verdict == Terminal <==> last.Returned? && !stopped && last.failed && last.terminal
    ensures verdict == Exhausted <==> last.Returned? && !stopped && last.failed && !last.terminal
    ensures verdict == Exhausted ==> runs == maxRestarts + 1
    ensures verdict != Watching ==> loop.view.phase == Idle
    ensures verdict == Terminal ==> loop.SawHopeless()
  {
    runs, stopped := 0, false;
    var restarts := 0;
    while true
      invariant loop.Valid() && loop.view.phase == Idle && runs == restarts <= maxRestarts && !stopped
      decreases maxRestarts - restarts
    {
      ghost var cancelled;
      last, cancelled := loop.RunLoop(patience);
      runs := runs + 1;
      if last == StillRunning {
        return Watching, runs, last, stopped;
      }
      stopped := *;
      if stopped || !last.failed {
        return Finished, runs, last, stopped;
      }
      if last.terminal {
        return Terminal, runs, last, stopped;
      }
      if restarts >= maxRestarts {
        return Exhausted, runs, last, stopped;
      }
      loop.Meanwhile();
      stopped := *;
      if stopped {
        return Finished, runs, last, stopped;
      }
      restarts := restarts + 1;
    }
  }
}
