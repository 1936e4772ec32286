/** The engine's own variables, updated in place by its closures and its select loop. Each
    method computes one function of the Engine module; the world's choices come out as ghost
    results. */
module Reconciler {
  import opened Text
  import opened Engine
  import Connectivity

  /** Judging does not look at how the first emission went. */
  lemma JudgeIgnoresAnnouncement(r: Run, early: bool, trigger: Trigger, timedOut: bool,
                                 requirement: Connectivity.Requirement, w: Weather)
    ensures Judge(r.(cancelled := early), trigger, timedOut, requirement, w) ==
            Judge(r, trigger, timedOut, requirement, Weather(w.sight, w.middle, w.middle, w.late, true, w.lastSent))
  {
    match w.sight {
      case Unseen(_) =>
      case Seen(s) =>
        var next := Evaluate(s, requirement, timedOut);
        assert Timed(r.(cancelled := early), next).(cancelled := w.late) == Timed(r, next).(cancelled := w.late);
    }
  }

  class Loop {
    const requirement: Connectivity.Requirement
    var current: State
    var sequence: nat
    var graceTimer: Option<nat>
    var created: nat
    var isCancelled: bool
    var changesOpen: bool
    var transitions: seq<Transition>
    var hasReturned: bool

    constructor (requirement: Connectivity.Requirement)
      ensures this.requirement == requirement && View() == INITIAL
    {
      this.requirement := requirement;
      current, sequence, graceTimer, created := ZERO, 0, None, 0;
      isCancelled, changesOpen, transitions, hasReturned := false, true, [], false;
    }

    ghost function View(): Run
      reads this
    {
      Run(current, sequence, graceTimer, created, isCancelled, changesOpen, transitions, hasReturned)
    }

    /** The context may be cancelled at any time, and stays cancelled. */
    method Elapse()
      modifies this`isCancelled
      ensures old(isCancelled) ==> isCancelled
    {
      var now := *;
      isCancelled := isCancelled || now;
    }

    /** emit: drops what looks the same, and otherwise sends unless the context ends first. */
    method Emit(next: State, trigger: Trigger) returns (ok: bool, ghost sent: bool)
      modifies this
      ensures old(isCancelled) ==> isCancelled
      ensures !sent ==> isCancelled
      ensures ok <==> Emitted(old(View()), next, sent)
      ensures View() == Engine.Emit(old(View()).(cancelled := isCancelled), next, trigger, sent)
    {
      if SameState(current, next) {
        return true, true;
      }
      sequence := sequence + 1;
      var numbered := next.(sequence := sequence);
      Elapse();
      var received := *;
      if isCancelled && !received {
        return false, false;
      }
      transitions := transitions + [Transition(current, numbered, trigger)];
      current := numbered;
      return true, true;
    }

    method StopGrace()
      modifies this`graceTimer
      ensures graceTimer == None
    {
      graceTimer := None;
    }

    method TakeSnapshot() returns (sight: Sight)
      modifies this`isCancelled
      ensures old(isCancelled) ==> isCancelled
    {
      sight := *;
      Elapse();
    }

    /** evaluate, branch by branch. */
    method Assess(s: Snapshot, timedOut: bool) returns (next: State)
      ensures next == Evaluate(s, requirement, timedOut)
    {
      if !s.managed {
        return At(Failed, ModeNone, DeviceUnmanaged);
      }
      if s.activeMode == ModeProvisioning {
        return At(Provisioning, ModeProvisioning, ProvisioningActive);
      }
      if s.activeMode == ModeStandalone {
        return At(Standalone, ModeStandalone, StandaloneActive);
      }
      var standalone := FindAutoconnect(s.profiles, ModeStandalone);
      if standalone {
        if s.condition == DeviceFailed {
          return At(Provisioning, ModeProvisioning, ActivationFailed);
        }
        if timedOut {
          return At(Provisioning, ModeProvisioning, ActivationTimedOut);
        }
        return At(WaitingForConnectivity, ModeStandalone, WaitingForActivation);
      }
      var saved := FindAutoconnect(s.profiles, ModeInfrastructure);
      if s.activeMode != ModeInfrastructure && !saved {
        return At(Provisioning, ModeProvisioning, NoCandidate);
      }
      if s.condition == DeviceFailed {
        return At(Provisioning, ModeProvisioning, ActivationFailed);
      }
      var result := Connectivity.Evaluate(requirement, s.connectivity);
      if s.activeMode == ModeInfrastructure && result.accepted {
        return At(Infrastructure, ModeInfrastructure, InfrastructureReady);
      }
      if timedOut {
        if s.activeMode == ModeInfrastructure {
          return State(0, Provisioning, ModeProvisioning, ConnectivityTimedOut, Because(result.reason));
        }
        return At(Provisioning, ModeProvisioning, ActivationTimedOut);
      }
      if s.activeMode == ModeInfrastructure {
        return State(0, WaitingForConnectivity, ModeInfrastructure, NotYetConnected, Because(result.reason));
      }
      return At(WaitingForConnectivity, ModeInfrastructure, WaitingForActivation);
    }

    /** The grace timer runs while the device waits for connectivity. */
    method TimeGrace(next: State)
      modifies this`graceTimer, this`created
      ensures View() == Timed(old(View()), next)
    {
      if next.stage == WaitingForConnectivity {
        if graceTimer.None? {
          graceTimer := Some(created);
          created := created + 1;
        }
      } else {
        StopGrace();
      }
    }

    /** The state a sight calls for was sent or is already the current one; a failed observation
        counts unless the run was cancelled. */
    ghost predicate Went(r: Run, sight: Sight, cancelled: bool, timedOut: bool, sent: bool)
    {
      match sight
      case Unseen(_) => !cancelled
      case Seen(s) => Emitted(r, Evaluate(s, requirement, timedOut), sent)
    }

    /** The part of reconcile that follows the snapshot. */
    method JudgeSight(sight: Sight, trigger: Trigger, timedOut: bool) returns (ok: bool, ghost sent: bool)
      modifies this
      ensures old(isCancelled) ==> isCancelled
      ensures !sent ==> isCancelled
      ensures View() == Judge(old(View()), trigger, timedOut, requirement,
                              Weather(sight, old(isCancelled), old(isCancelled), isCancelled, true, sent))
      ensures ok <==> Went(old(View()), sight, old(isCancelled), timedOut, sent)
      ensures !ok ==> isCancelled
    {
      match sight {
        case Unseen(text) =>
          if isCancelled {
            return false, true;
          }
          StopGrace();
          ok, sent := Emit(FailedState(text), trigger);
          ok := true;
        case Seen(s) =>
          var next := Assess(s, timedOut);
          TimeGrace(next);
          ok, sent := Emit(next, trigger);
      }
    }

    method Reconcile(trigger: Trigger, timedOut: bool) returns (ok: bool, ghost w: Weather)
      modifies this
      ensures Feasible(old(isCancelled), w)
      ensures View() == Engine.Reconcile(old(View()), trigger, timedOut, requirement, w)
      ensures ok <==>
              Announced(old(View()), trigger, w) &&
              Went(Announce(old(View()), trigger, w), w.sight, w.middle, timedOut, w.lastSent)
      ensures !ok ==> isCancelled
    {
      ghost var first := true;
      if trigger == Boot {
        ok, first := Emit(At(Reconciling, current.mode, InspectingNetwork), trigger);
        if !ok {
          return false, Weather(Unseen(""), isCancelled, isCancelled, isCancelled, first, true);
        }
      }
      ghost var early := isCancelled;
      var sight := TakeSnapshot();
      ghost var before := View();
      ghost var last;
      ok, last := JudgeSight(sight, trigger, timedOut);
      w := Weather(sight, early, before.cancelled, isCancelled, first, last);
      JudgeIgnoresAnnouncement(before, early, trigger, timedOut, requirement, w);
    }

    /** What a run has been through: how its booting state went, the first reconciliation and
        the inputs since. */
    ghost predicate Lived(sent: bool, w: Weather, inputs: seq<Input>)
      reads this
    {
      && (sent ==> Feasible(false, w))
      && Script(Booted(requirement, sent, w), requirement, inputs)
      && View() == Execute(Booted(requirement, sent, w), requirement, inputs)
    }

    method Start() returns (ghost sent: bool, ghost w: Weather)
      requires View() == INITIAL
      modifies this
      ensures Lived(sent, w, [])
    {
      w := Weather(Unseen(""), true, true, true, true, true);
      var ok;
      ok, sent := Emit(BOOTING, Boot);
      if !ok {
        hasReturned := true;
        return;
      }
      ok, w := Reconcile(Boot, false);
    }

    /** One turn of the select loop; the scheduler picks any case that is ready. */
    method Turn() returns (ghost i: Input)
      requires !hasReturned
      modifies this
      ensures Possible(old(View()), i) && View() == Step(old(View()), requirement, i)
    {
      var choice: nat := *;
      var ok;
      ghost var w;
      if isCancelled && choice == 0 {
        StopGrace();
        sequence := sequence + 1;
        var room := *;
        if room {
          var stopped := State(sequence, Stopped, current.mode, Interrupted, NoDetail);
          transitions := transitions + [Transition(current, stopped, Cancelled)];
        }
        hasReturned := true;
        return CancelSeen(room);
      }
      if changesOpen && choice == 1 {
        ok, w := Reconcile(NetworkChanged, false);
        return Changed(w);
      }
      if changesOpen && choice == 2 {
        changesOpen := false;
        return ChangesClosed;
      }
      if graceTimer.Some? && choice == 3 {
        ghost var id := graceTimer.value;
        graceTimer := None;
        ok, w := Reconcile(GraceExpired, true);
        return GraceFired(id, w);
      }
      return WatchFailed;
    }

    lemma LivedOn(sent: bool, w: Weather, inputs: seq<Input>, before: Run, i: Input)
      requires (sent ==> Feasible(false, w)) && Script(Booted(requirement, sent, w), requirement, inputs)
      requires before == Execute(Booted(requirement, sent, w), requirement, inputs)
      requires Possible(before, i) && View() == Step(before, requirement, i)
      ensures Lived(sent, w, inputs + [i])
    {
      OneMore(Booted(requirement, sent, w), requirement, inputs, i);
    }

    /** run: boots and then serves the select loop until it returns or the model stops
        watching it. Everything proved about Execute holds of it. */
    method RunLoop(patience: nat) returns (ghost sent: bool, ghost w: Weather, ghost inputs: seq<Input>)
      requires View() == INITIAL
      modifies this
      ensures Lived(sent, w, inputs) && Chain(transitions)
    {
      inputs := [];
      sent, w := Start();
      var left := patience;
      while left > 0 && !hasReturned
        invariant Lived(sent, w, inputs)
      {
        ghost var before := View();
        ghost var i := Turn();
        LivedOn(sent, w, inputs, before, i);
        inputs := inputs + [i];
        left := left - 1;
      }
      TransitionsFormAChain(requirement, sent, w, inputs);
    }
  }
}
