/** What a protected transition guarantees, derived from its account. */
module Transitions {
  import opened Text
  import opened Profiles
  import opened Selection
  import opened NetworkManager
  import opened Recovery

  function Rollbacks(calls: seq<Call>): nat {
    if calls == [] then 0
    else Rollbacks(calls[..|calls| - 1]) + if calls[|calls| - 1].CheckpointRolledBack? then 1 else 0
  }

  lemma {:induction false} RollbacksAppend(a: seq<Call>, b: seq<Call>)
    ensures Rollbacks(a + b) == Rollbacks(a) + Rollbacks(b)
  {
    if b == [] {
      assert a + b == a;
    } else {
      var front := b[..|b| - 1];
      RollbacksAppend(a, front);
      assert (a + b)[..|a + b| - 1] == a + front;
    }
  }

  lemma {:induction false} UndecidedHasNoRollback(calls: seq<Call>)
    requires forall c :: c in calls ==> !c.CheckpointRolledBack?
    ensures Rollbacks(calls) == 0
  {
    if calls != [] {
      UndecidedHasNoRollback(calls[..|calls| - 1]);
    }
  }

  lemma {:induction false} RollbackCallsRollBackOnce(plan: Plan, uuid: Profiles.Uuid, back: seq<Call>, report: Report)
    requires RollbackCalls(plan, uuid, back, report)
    ensures Rollbacks(back) == 1 && CheckpointCommitted(true) !in back
  {
    assert back == back[..1] + back[1..];
    RollbacksAppend(back[..1], back[1..]);
    assert back[..1][..0] == [];
    UndecidedHasNoRollback(back[1..]);
  }

  lemma {:induction false} RolledBackOnce(plan: Plan, uuid: Profiles.Uuid, first: seq<Call>, back: seq<Call>, report: Report)
    requires (forall c :: c in first ==> Undecided(c)) && RollbackCalls(plan, uuid, back, report)
    ensures Rollbacks(first + back) == 1 && CheckpointCommitted(true) !in first + back
    ensures report.rollback.Some? <==> CheckpointRolledBack(false) in first + back
    ensures report.rollback.None? ==>
              (report.restoration.None? <==>
               ConfirmedRestored(plan.previousUuid, plan.previousAddress, first + back))
  {
    RollbacksAppend(first, back);
    UndecidedHasNoRollback(first);
    RollbackCallsRollBackOnce(plan, uuid, back, report);
    if report.rollback.None? {
      RestorationComesLast(plan, uuid, first, back, report);
    }
    assert forall c :: c in first + back <==> c in first || c in back;
    assert forall c :: c in back ==> c == back[0] || c in back[1..];
  }

  lemma {:induction false} RestorationComesLast(plan: Plan, uuid: Profiles.Uuid, first: seq<Call>, back: seq<Call>,
                                                report: Report)
    requires RollbackCalls(plan, uuid, back, report) && report.rollback.None?
    ensures ConfirmedRestored(plan.previousUuid, plan.previousAddress, first + back) <==>
            ConfirmedRestored(plan.previousUuid, plan.previousAddress, back[1..])
  {
    assert |back| > 1;
    assert (first + back)[|first + back| - 1] == back[1..][|back[1..]| - 1];
  }

  /** Rollback totality. A rejected transition rolled back exactly once, and no commit succeeded.
      Its report names a failed rollback exactly when the rollback failed, and a failed
      restoration exactly when the last call did not read the previous connection live. */
  lemma {:induction false} RejectedRollsBackOnce(plan: Plan, s: Store, s': Store, err: string, a: Account)
    requires RejectedAccount(plan, s, s', err, a)
    ensures Rollbacks(a.calls) == 1 && CheckpointCommitted(true) !in a.calls
    ensures a.report.value.rollback.Some? <==> CheckpointRolledBack(false) in a.calls
    ensures a.report.value.rollback.None? ==>
              (a.report.value.restoration.None? <==>
               ConfirmedRestored(plan.previousUuid, plan.previousAddress, a.calls))
  {
    var tried: seq<Call>, back: seq<Call> :| RejectedCalls(plan, a, tried, back);
    RolledBackOnce(plan, tried[0].activation.uuid, [CheckpointCreated(true)] + tried, back, a.report.value);
  }

  /** The calls of a transition before it rolled back, all of them if it did not. */
  function BeforeRollback(calls: seq<Call>): (front: seq<Call>)
    ensures front <= calls
  {
    if calls == [] || calls[0].CheckpointRolledBack? then []
    else [calls[0]] + BeforeRollback(calls[1..])
  }

  lemma {:induction false} BeforeRollbackIs(front: seq<Call>, rest: seq<Call>)
    requires (forall c :: c in front ==> !c.CheckpointRolledBack?) && (rest == [] || rest[0].CheckpointRolledBack?)
    ensures BeforeRollback(front + rest) == front
  {
    if front == [] {
      assert front + rest == rest;
    } else {
      assert (front + rest)[1..] == front[1..] + rest;
      BeforeRollbackIs(front[1..], rest);
    }
  }

  /** Every call of the attempt went through, and the status it read is acceptable: checkpoint,
      activation, wait, status, and the connectivity check if there was one. */
  ghost predicate WentWell(plan: Plan, calls: seq<Call>) {
    && (forall c :: c in calls ==> Succeeded(c))
    && |calls| > 3 && calls[3].StatusRead? && calls[3].status.Some?
    && Accepted(plan, calls[3].status.value,
                if |calls| > 4 && calls[4].ConnectivityChecked? then calls[4].value else None, CandidateUuid(plan))
  }

  ghost predicate Smooth(calls: seq<Call>) {
    forall c :: c in calls ==> Succeeded(c) && !c.CheckpointRolledBack?
  }

  lemma {:induction false} SmoothJoin(a: seq<Call>, b: seq<Call>)
    requires Smooth(a) && Smooth(b)
    ensures Smooth(a + b)
  {
  }

  lemma {:induction false} ValidatedIsSmooth(plan: Plan, judged: seq<Call>, activation: Activation)
    requires Validated(plan, judged, activation)
    ensures Smooth(judged)
  {
  }

  lemma {:induction false} ShapeWentWell(plan: Plan, front: seq<Call>, judged: seq<Call>, last: seq<Call>,
                                         activation: Activation)
    requires |front| == 2 && Smooth(front) && Smooth(last) && last != [] && !last[0].ConnectivityChecked?
    requires Validated(plan, judged, activation) && activation.uuid == CandidateUuid(plan)
    ensures WentWell(plan, BeforeRollback(front + judged + last))
  {
    var calls := front + judged + last;
    ValidatedIsSmooth(plan, judged, activation);
    SmoothJoin(front, judged);
    SmoothJoin(front + judged, last);
    assert calls[3] == judged[1] && calls[4] == if |judged| == 3 then judged[2] else last[0];
    BeforeRollbackIs(calls, []);
    assert calls + [] == calls;
  }

  lemma {:induction false} CommittedWentWell(plan: Plan, s: Store, s': Store, activation: Activation, a: Account)
    requires CommittedAccount(plan, s, s', activation, a)
    ensures WentWell(plan, BeforeRollback(a.calls))
  {
    var judged := CommittedShape(plan, a.calls, activation);
    ShapeWentWell(plan, [CheckpointCreated(true), ActivationCall(plan, activation)], judged,
                  [Finalized(true), CheckpointCommitted(true)], activation);
  }

  lemma {:induction false} BrokenOffWentWrong(plan: Plan, tried: seq<Call>)
    requires BrokenOff(plan, tried)
    ensures !WentWell(plan, [CheckpointCreated(true)] + tried)
  {
    var calls := [CheckpointCreated(true)] + tried;
    assert calls[1] == tried[0] && tried[0] in calls;
    if tried[0].ok {
      var rest := tried[1..];
      assert forall i :: 0 <= i < |rest| ==> calls[i + 2] == rest[i] && rest[i] in calls;
      if judged, last :| Validated(plan, judged, tried[0].activation) && Unconcluded(last) && rest == judged + last {
        assert rest[|rest| - 1] == last[|last| - 1];
      }
    }
  }

  /** When a transition commits, from its calls alone: if and only if every call before a rollback
      went through and the candidate was accepted on the status that was read. */
  lemma {:induction false} CommitsIffAllWentWell(plan: Plan, s: Store, s': Store, activation: Activation,
                                                 err: Option<string>, a: Account)
    requires err.None? ==> CommittedAccount(plan, s, s', activation, a)
    requires err.Some? ==> UnprotectedAccount(plan, s, s', err.value, a) || RejectedAccount(plan, s, s', err.value, a)
    ensures err.None? <==> WentWell(plan, BeforeRollback(a.calls))
  {
    if err.None? {
      CommittedWentWell(plan, s, s', activation, a);
    } else if RejectedAccount(plan, s, s', err.value, a) {
      var tried: seq<Call>, back: seq<Call> :| RejectedCalls(plan, a, tried, back);
      BeforeRollbackIs([CheckpointCreated(true)] + tried, back);
      BrokenOffWentWrong(plan, tried);
    } else {
      BeforeRollbackIs(a.calls, []);
      assert a.calls + [] == a.calls;
    }
  }

  predicate Preliminary(c: Call) {
    !c.CheckpointRolledBack? && !c.Finalized? && !c.CheckpointCommitted?
  }

  lemma {:induction false} ValidatedIsPreliminary(plan: Plan, judged: seq<Call>, activation: Activation)
    requires Validated(plan, judged, activation)
    ensures forall i :: 0 <= i < |judged| ==> Preliminary(judged[i])
  {
  }

  /** The calls of a committed transition: a checkpoint, the activation, the calls that judged
      the candidate and found it acceptable, the finalization and the commit. */
  lemma {:induction false} CommittedShape(plan: Plan, calls: seq<Call>, activation: Activation) returns (judged: seq<Call>)
    requires |calls| > 0 && calls[0] == CheckpointCreated(true) && CommittedCalls(plan, calls[1..], activation)
    ensures Validated(plan, judged, activation)
    ensures calls == [CheckpointCreated(true), ActivationCall(plan, activation)] + judged +
                     [Finalized(true), CheckpointCommitted(true)]
  {
    judged :| Validated(plan, judged, activation) &&
      calls[1..] == [ActivationCall(plan, activation)] + judged + [Finalized(true), CheckpointCommitted(true)];
    assert calls == [calls[0]] + calls[1..];
  }

  lemma {:induction false} CommittedOrder(front: seq<Call>)
    requires forall i :: 0 <= i < |front| ==> Preliminary(front[i])
    ensures Rollbacks(front + [Finalized(true), CheckpointCommitted(true)]) == 0
  {
    UndecidedHasNoRollback(front + [Finalized(true), CheckpointCommitted(true)]);
  }

  /** A committed transition never rolled back. Its candidate was accepted on a status read
      after its activation, and a fresh connectivity check if one is required; only then came
      the finalization and the commit, once each and in this order. */
  lemma {:induction false} CommittedNeverRollsBack(plan: Plan, s: Store, s': Store, activation: Activation, a: Account)
    requires CommittedAccount(plan, s, s', activation, a)
    ensures Rollbacks(a.calls) == 0
    ensures exists judged ::
              && Validated(plan, judged, activation) && activation.uuid == CandidateUuid(plan)
              && (forall c :: c in judged ==> Preliminary(c))
              && a.calls == [CheckpointCreated(true), ActivationCall(plan, activation)] + judged +
                            [Finalized(true), CheckpointCommitted(true)]
  {
    var judged := CommittedShape(plan, a.calls, activation);
    ValidatedIsPreliminary(plan, judged, activation);
    CommittedOrder([CheckpointCreated(true), ActivationCall(plan, activation)] + judged);
  }

  lemma {:induction false} ForwardAddsFirst(plan: Plan, s: Store, log: seq<Attempt>)
    requires ForwardWrites(plan, s, log)
    ensures AddsFirst(log)
    ensures log != [] || plan.candidate.SavedProfile? ==> Opened(s, log) == WithCandidate(plan, s)
  {
  }

  /** A new candidate on disk is a survivor of its own transition. */
  lemma {:induction false} NewCandidateSurvives(plan: Plan, s: Store, powerCut: bool)
    requires Ready(plan, s) && plan.candidate.NewProfile?
    requires powerCut ==> !plan.candidate.profile.inMemory
    ensures Survivor(IntentOf(plan), WithCandidate(plan, s), CandidateUuid(plan), powerCut)
  {
  }

  /** Crash consistency of a transition: stop it after any of its forward writes, with or
      without power, clean up any part of what startup cleans up, and a production mode that
      could boot before still has a successor that can, given a survivor. */
  lemma {:induction false} TransitionSurvivesCrash(plan: Plan, s: Store, a: Account, k: nat, powerCut: bool,
                                                   cleanup: seq<Attempt>, v: Uuid)
    requires Ready(plan, s) && ForwardWrites(plan, s, a.forward)
    requires Survivor(IntentOf(plan), WithCandidate(plan, s), v, powerCut) && Undisturbed(a.forward, v)
    requires Bootable(s, plan.iface, powerCut) && PendingIsInert(s)
    requires Restart(plan.iface, s, a.forward, k, powerCut, cleanup)
    ensures Bootable(Replay(Wreck(s, a.forward, k, powerCut), cleanup), plan.iface, powerCut)
  {
    ForwardAddsFirst(plan, s, a.forward);
    if a.forward == [] {
      CrashKeepsBootable(s, plan.iface, powerCut);
      CleanupKeepsBootable(plan.iface, Wreck(s, a.forward, k, powerCut), cleanup, powerCut);
    } else {
      CrashConsistency(IntentOf(plan), s, a.forward, k, powerCut, cleanup, v);
    }
  }

  /** Exactly when a transition that finalized survives every crash: if and only if the store,
      with the candidate in it, held a survivor that nobody else removed. */
  lemma {:induction false} TransitionSurvivesIff(plan: Plan, s: Store, a: Account, powerCut: bool)
    requires Ready(plan, s) && ForwardWrites(plan, s, a.forward)
    requires Settled(IntentOf(plan), WithCandidate(plan, s), Replay(s, a.forward))
    requires plan.candidate.NewProfile? ==> a.forward != []
    requires Bootable(s, plan.iface, powerCut) && PendingIsInert(s)
    ensures SurvivesEveryCrash(plan.iface, s, a.forward, powerCut) <==>
            exists v :: Survivor(IntentOf(plan), WithCandidate(plan, s), v, powerCut) && Undisturbed(a.forward, v)
  {
    ForwardAddsFirst(plan, s, a.forward);
    EligibilityIff(IntentOf(plan), s, a.forward, powerCut);
  }

  /** A store that differs from `s` by the unselected candidate at most. */
  lemma {:induction false} CandidateOnlyChanges(plan: Plan, s: Store, log: seq<Attempt>)
    requires Ready(plan, s) && plan.candidate.NewProfile?
    requires forall a :: a in log ==> a.write == Add(plan.candidate.profile) || a.write == Delete(CandidateUuid(plan))
    ensures Untouched(plan, s, Replay(s, log))
  {
    if log != [] {
      var n := |log| - 1;
      assert forall a :: a in log[..n] ==> a in log;
      CandidateOnlyChanges(plan, s, log[..n]);
      assert log[n] in log;
      assert s[CandidateUuid(plan) := plan.candidate.profile] - {CandidateUuid(plan)} == s;
      assert s - {CandidateUuid(plan)} == s;
    }
  }

  /** Before finalization starts, every intermediate store of a transition, its cleanup
      included, holds all pre-existing profiles exactly as they were. */
  lemma {:induction false} UnfinalizedNeverTouches(plan: Plan, s: Store, s': Store, err: string, a: Account, k: nat)
    requires Ready(plan, s) && ForwardWrites(plan, s, a.forward) && BackwardWrites(plan, a.backward)
    requires RejectedAccount(plan, s, s', err, a) && a.finalized.None?
    requires k <= |a.forward + a.backward|
    ensures Untouched(plan, s, Replay(s, (a.forward + a.backward)[..k]))
  {
    var log := (a.forward + a.backward)[..k];
    if plan.candidate.NewProfile? {
      forall x | x in log ensures x.write == Add(plan.candidate.profile) || x.write == Delete(CandidateUuid(plan)) {
        assert x in a.forward || x in a.backward;
        if x in a.forward {
          assert x == a.forward[0];
        }
      }
      CandidateOnlyChanges(plan, s, log);
    } else {
      assert log == [];
    }
  }

  /** A transition that fails before finalizing, and whose clean-up reports no failure, leaves the
      store as it was, unless the reply to the addition was lost: then the candidate stays,
      unselected, and nothing reports it. */
  lemma {:induction false} OnlyStraysStay(plan: Plan, s: Store, s': Store, err: string, a: Account)
    requires Ready(plan, s) && RejectedAccount(plan, s, s', err, a) && a.finalized.None?
    requires a.report.value.rollback.None? && a.report.value.rejected.None?
    ensures s' == s <==> !Stray(plan, a.forward)
    ensures s' == if Stray(plan, a.forward) then WithCandidate(plan, s) else s
  {
    if Stray(plan, a.forward) {
      assert CandidateUuid(plan) in s' && CandidateUuid(plan) !in s;
    }
  }

  /** What gets rid of a stray: the start of the next process, if it is marked pending, and any
      later transition of its kind that commits. */
  lemma {:induction false} StraysGo(plan: Plan, s: Store, next: Plan, s': Store)
    requires Ready(plan, s) && plan.candidate.NewProfile?
    requires next.iface == plan.iface && next.role == plan.role && (plan.role == Infrastructure ==> next.ssid == plan.ssid)
    requires Ready(next, WithCandidate(plan, s)) && CandidateUuid(next) != CandidateUuid(plan)
    ensures plan.role == Infrastructure && plan.candidate.profile.pending ==>
              CleanupTarget(plan.candidate.profile, plan.iface)
    ensures Settled(IntentOf(next), WithCandidate(next, WithCandidate(plan, s)), s') ==> CandidateUuid(plan) !in s'
  {
    var t, all := IntentOf(next), WithCandidate(next, WithCandidate(plan, s));
    if Settled(t, all, s') {
      var mid: Store :| SelectedFrom(all, mid, t.iface, t.role) && Pruned(t, mid, s');
    }
  }

  lemma {:induction false} ForwardStarts(plan: Plan, s: Store, forward: seq<Attempt>)
    requires Ready(plan, s) && ForwardWrites(plan, s, forward)
    requires plan.candidate.NewProfile? && forward != [] && forward[0].outcome == Done
    ensures Run(ForwardPath(IntentOf(plan)), WithCandidate(plan, s), forward[1..])
    ensures Replay(WithCandidate(plan, s), forward[1..]) == Replay(s, forward)
  {
    assert forward == forward[..1] + forward[1..];
    assert forward[..1] == [] + [forward[0]];
    ReplayStep(s, [], forward[0]);
    ReplayAppend(s, forward[..1], forward[1..]);
    RunSplit(ForwardPath(IntentOf(plan)), s, forward[..1], forward[1..]);
  }

  /** After a failure that follows the finalization, a commit that failed, the durable
      flags have been switched already. If the rollback leaves the candidate in place, because
      it was saved before, because the rollback failed or because the removal did, something
      boots on its own exactly when the store held a survivor that nobody else removed. */
  lemma {:induction false} RejectionKeepingCandidate(plan: Plan, s: Store, s': Store, err: string, a: Account,
                                                     powerCut: bool)
    requires Ready(plan, s) && ForwardWrites(plan, s, a.forward)
    requires RejectedAccount(plan, s, s', err, a) && a.finalized == Some(true)
    requires s' == Replay(s, a.forward)
    ensures Bootable(s', plan.iface, powerCut) <==>
            exists v :: Survivor(IntentOf(plan), WithCandidate(plan, s), v, powerCut) && Undisturbed(a.forward, v)
  {
    var t := IntentOf(plan);
    ForwardAddsFirst(plan, s, a.forward);
    SettledBootsIff(t, WithCandidate(plan, s), s', powerCut);
    forall v | Survivor(t, WithCandidate(plan, s), v, powerCut) ensures v in s' <==> Undisturbed(a.forward, v) {
      StaysIffUndisturbed(plan, s, a.forward, powerCut, v);
    }
  }

  lemma {:induction false} StaysIffUndisturbed(plan: Plan, s: Store, forward: seq<Attempt>, powerCut: bool, v: Uuid)
    requires Ready(plan, s) && ForwardWrites(plan, s, forward)
    requires plan.candidate.NewProfile? ==> forward != [] && forward[0].outcome == Done
    requires Survivor(IntentOf(plan), WithCandidate(plan, s), v, powerCut)
    ensures v in Replay(s, forward) <==> Undisturbed(forward, v)
  {
    ForwardAddsFirst(plan, s, forward);
    if Undisturbed(forward, v) && forward != [] {
      SurvivorStays(IntentOf(plan), s, forward, powerCut, v);
    }
    if v in Replay(s, forward) {
      forall a | a in forward && Target(a.write) == v ensures a.outcome != Gone {
        if a.outcome == Gone {
          GoneStaysGone(s, forward, a);
        }
      }
    }
  }

  lemma {:induction false} SettledWithoutCandidate(plan: Plan, s: Store, forward: seq<Attempt>, powerCut: bool, v: Uuid)
    requires Ready(plan, s) && ForwardWrites(plan, s, forward)
    requires plan.candidate.NewProfile? && forward != [] && forward[0].outcome == Done
    requires Settled(IntentOf(plan), WithCandidate(plan, s), Replay(s, forward))
    ensures var left := Replay(s, forward) - {CandidateUuid(plan)};
            v in left && Startable(left[v], plan.iface, powerCut) <==>
            Survivor(IntentOf(plan), s, v, powerCut) && Undisturbed(forward, v)
  {
    var t, all, mid := IntentOf(plan), WithCandidate(plan, s), Replay(s, forward);
    if v in mid {
      SettledStartable(t, all, mid, powerCut, v);
    }
    if v != CandidateUuid(plan) {
      assert Survivor(t, all, v, powerCut) <==> Survivor(t, s, v, powerCut);
    }
    if Survivor(t, all, v, powerCut) {
      StaysIffUndisturbed(plan, s, forward, powerCut, v);
    }
  }

  /** A standalone candidate supersedes every other standalone profile. */
  lemma {:induction false} StandaloneHasNoSurvivor(plan: Plan, s: Store, powerCut: bool, v: Uuid)
    requires Ready(plan, s) && plan.candidate.NewProfile? && plan.role == Standalone && WellKeyed(s)
    ensures !Survivor(IntentOf(plan), s, v, powerCut)
  {
  }

  /** If the rollback removes its new candidate, something boots on its own exactly when the
      store before the call held a survivor: another network of the selected mode that the
      candidate does not supersede. After a standalone transition nothing does. */
  lemma {:induction false} RejectionAfterFinalize(plan: Plan, s: Store, s': Store, err: string, a: Account, powerCut: bool)
    requires Ready(plan, s) && ForwardWrites(plan, s, a.forward)
    requires RejectedAccount(plan, s, s', err, a) && a.finalized == Some(true)
    requires plan.candidate.NewProfile? && a.report.value.rollback.None? && a.report.value.rejected.None?
    ensures Bootable(s', plan.iface, powerCut) <==>
            exists v :: Survivor(IntentOf(plan), s, v, powerCut) && Undisturbed(a.forward, v)
    ensures plan.role == Standalone && WellKeyed(s) ==> !Bootable(s', plan.iface, powerCut)
  {
    forall v
      ensures v in s' && Startable(s'[v], plan.iface, powerCut) <==>
              Survivor(IntentOf(plan), s, v, powerCut) && Undisturbed(a.forward, v)
      ensures plan.role == Standalone && WellKeyed(s) ==> !Survivor(IntentOf(plan), s, v, powerCut)
    {
      SettledWithoutCandidate(plan, s, a.forward, powerCut, v);
      if plan.role == Standalone && WellKeyed(s) {
        StandaloneHasNoSurvivor(plan, s, powerCut, v);
      }
    }
  }

  /** Nothing took the profile out of the store: no other process, and no deletion. */
  ghost predicate Spared(log: seq<Attempt>, v: Uuid) {
    forall a :: a in log && Target(a.write) == v ==> a.outcome != Gone && !(a.write.Delete? && TookEffect(a.outcome))
  }

  ghost predicate Unwritten(log: seq<Attempt>, v: Uuid) {
    forall a :: a in log && Target(a.write) == v ==> !TookEffect(a.outcome)
  }

  /** A production profile that a run leaves in the store, on disk if power is cut, and that is
      of the selected mode or was eligible and has not been switched off. */
  ghost predicate Kept(t: Intent, s: Store, log: seq<Attempt>, v: Uuid, powerCut: bool) {
    && v in s && Production(s[v], t.iface) && (powerCut ==> !s[v].inMemory) && Spared(log, v)
    && (s[v].role == t.role || (s[v].autoconnect && Unwritten(log, v)))
  }

  ghost predicate AddsNothing(log: seq<Attempt>) {
    forall a :: a in log ==> !a.write.Add?
  }

  lemma {:induction false} SparedNext(log: seq<Attempt>, v: Uuid)
    requires log != []
    ensures var front, last := log[..|log| - 1], log[|log| - 1];
            && (Spared(log, v) <==>
                 Spared(front, v) && (Target(last.write) == v ==>
                   last.outcome != Gone && !(last.write.Delete? && TookEffect(last.outcome))))
            && (Unwritten(log, v) <==> Unwritten(front, v) && (Target(last.write) == v ==> !TookEffect(last.outcome)))
            && (AddsNothing(log) ==> AddsNothing(front) && !last.write.Add?)
  {
    assert log == log[..|log| - 1] + [log[|log| - 1]];
  }

  /** What a run has made of a profile it did not remove. */
  predicate Became(t: Intent, p: Profile, now: Profile, written: bool) {
    && (Production(now, t.iface) <==> Production(p, t.iface))
    && now.role == p.role && now.inMemory == p.inMemory
    && now.autoconnect == (if written then p.role == t.role else p.autoconnect)
  }

  /** What a run that adds nothing makes of one profile, whatever the outcomes. */
  lemma {:induction false} FateOf(t: Intent, s: Store, log: seq<Attempt>, v: Uuid)
    requires Run(ForwardPath(t), s, log) && AddsNothing(log)
    ensures v in Replay(s, log) <==> v in s && Spared(log, v)
    ensures v in Replay(s, log) ==> Became(t, s[v], Replay(s, log)[v], !Unwritten(log, v))
  {
    if log != [] {
      var front, last := log[..|log| - 1], log[|log| - 1];
      SparedNext(log, v);
      FateOf(t, s, front, v);
      assert ForwardPath(t)(Replay(s, front), last.write);
    }
  }

  /** While a profile of the selected mode waits to be enabled, nothing has been switched off. */
  lemma {:induction false} WaitingSwitchesNothingOff(t: Intent, s: Store, log: seq<Attempt>, u: Uuid, v: Uuid)
    requires t.role == Infrastructure || t.role == Standalone
    requires Run(ForwardPath(t), s, log) && AddsNothing(log)
    requires u in Replay(s, log) && Production(Replay(s, log)[u], t.iface) && Replay(s, log)[u].role == t.role
    requires !Replay(s, log)[u].autoconnect
    requires v in s && Startable(s[v], t.iface, false)
    ensures v in Replay(s, log) && Replay(s, log)[v] == s[v]
  {
    if log != [] {
      var front, last := log[..|log| - 1], log[|log| - 1];
      SparedNext(log, v);
      assert ForwardPath(t)(Replay(s, front), last.write);
      WaitingSwitchesNothingOff(t, s, front, u, v);
    }
  }

  lemma {:induction false} StartableIsKept(t: Intent, s: Store, log: seq<Attempt>, powerCut: bool, v: Uuid)
    requires Run(ForwardPath(t), s, log) && AddsNothing(log)
    requires v in Replay(s, log) && Startable(Replay(s, log)[v], t.iface, powerCut)
    ensures Kept(t, s, log, v, powerCut)
  {
    FateOf(t, s, log, v);
  }

  lemma {:induction false} KeptBoots(t: Intent, s: Store, log: seq<Attempt>, powerCut: bool, out: set<Uuid>, v: Uuid)
    requires t.role == Infrastructure || t.role == Standalone
    requires Run(ForwardPath(t), s, log) && AddsNothing(log) && Bootable(s - out, t.iface, powerCut)
    requires Kept(t, s, log, v, powerCut) && v !in out
    ensures Bootable(Replay(s, log) - out, t.iface, powerCut)
  {
    var left := Replay(s, log) - out;
    FateOf(t, s, log, v);
    if left[v].autoconnect {
      assert v in left && Startable(left[v], t.iface, powerCut);
    } else {
      var u :| u in s - out && Startable((s - out)[u], t.iface, powerCut);
      WaitingSwitchesNothingOff(t, s, log, v, u);
      assert u in left && Startable(left[u], t.iface, powerCut);
    }
  }

  /** What a finalization leaves eligible, wherever it stops. Of any run of its writes, complete
      or not, a mode boots afterwards exactly when the run kept a profile. `out` are profiles
      left out of account on both sides. */
  lemma {:induction false} BootsIffKept(t: Intent, s: Store, log: seq<Attempt>, powerCut: bool, out: set<Uuid>)
    requires t.role == Infrastructure || t.role == Standalone
    requires Run(ForwardPath(t), s, log) && AddsNothing(log) && Bootable(s - out, t.iface, powerCut)
    ensures Bootable(Replay(s, log) - out, t.iface, powerCut) <==>
            exists v :: Kept(t, s, log, v, powerCut) && v !in out
  {
    var left := Replay(s, log) - out;
    if u :| u in left && Startable(left[u], t.iface, powerCut) {
      StartableIsKept(t, s, log, powerCut, u);
    }
    if v :| Kept(t, s, log, v, powerCut) && v !in out {
      KeptBoots(t, s, log, powerCut, out, v);
    }
  }

  lemma {:induction false} FinalizationRuns(plan: Plan, s: Store, forward: seq<Attempt>)
    requires Ready(plan, s) && ForwardWrites(plan, s, forward)
    requires plan.candidate.NewProfile? ==> forward != [] && forward[0].outcome == Done
    ensures Run(ForwardPath(IntentOf(plan)), WithCandidate(plan, s), Finalization(plan, forward))
    ensures Replay(WithCandidate(plan, s), Finalization(plan, forward)) == Replay(s, forward)
    ensures AddsNothing(Finalization(plan, forward))
  {
    if plan.candidate.NewProfile? {
      ForwardStarts(plan, s, forward);
      forall a | a in forward[1..] ensures !a.write.Add? {
        var i :| 0 <= i < |forward[1..]| && forward[1..][i] == a;
        assert forward[i + 1] == a;
      }
    }
  }

  lemma {:induction false} BootsOutside(plan: Plan, s: Store, powerCut: bool, out: set<Uuid>)
    requires Ready(plan, s) && Bootable(s, plan.iface, powerCut)
    requires out == {} || (plan.candidate.NewProfile? && out == {CandidateUuid(plan)})
    ensures Bootable(WithCandidate(plan, s) - out, plan.iface, powerCut)
  {
    var u :| u in s && Startable(s[u], plan.iface, powerCut);
    var left := WithCandidate(plan, s) - out;
    assert u in left && Startable(left[u], plan.iface, powerCut);
  }

  /** The condition under which something still boots after a rejected transition: a profile
      that its finalization kept, the candidate counting only if it is still there. */
  ghost predicate KeptThrough(plan: Plan, s: Store, s': Store, a: Account, v: Uuid, powerCut: bool) {
    && Kept(IntentOf(plan), WithCandidate(plan, s), Finalization(plan, a.forward), v, powerCut)
    && (v == CandidateUuid(plan) ==> v in s')
  }

  /** However a transition is rejected, before, during or after its finalization and whatever its
      rollback managed to do: if something booted on its own before, something boots afterwards
      exactly when the finalization kept a profile. */
  lemma {:induction false} RejectedBootsIff(plan: Plan, s: Store, s': Store, err: string, a: Account, powerCut: bool)
    requires Ready(plan, s) && ForwardWrites(plan, s, a.forward) && RejectedAccount(plan, s, s', err, a)
    requires Bootable(s, plan.iface, powerCut)
    ensures Bootable(s', plan.iface, powerCut) <==> exists v :: KeptThrough(plan, s, s', a, v, powerCut)
  {
    if a.finalized.None? {
      UntouchedBoots(plan, s, s', a, powerCut);
    } else {
      RejectedStoreBootsIff(plan, s, s', a, powerCut);
    }
  }

  lemma {:induction false} UntouchedBoots(plan: Plan, s: Store, s': Store, a: Account, powerCut: bool)
    requires Ready(plan, s) && Untouched(plan, s, s') && Bootable(s, plan.iface, powerCut)
    requires Finalization(plan, a.forward) == []
    ensures Bootable(s', plan.iface, powerCut) && exists v :: KeptThrough(plan, s, s', a, v, powerCut)
  {
    var u :| u in s && Startable(s[u], plan.iface, powerCut);
    assert u in s' && Startable(s'[u], plan.iface, powerCut);
    assert KeptThrough(plan, s, s', a, u, powerCut);
  }

  lemma {:induction false} KeptOutside(t: Intent, s: Store, log: seq<Attempt>, powerCut: bool, candidate: Uuid,
                                       out: set<Uuid>, v: Uuid)
    requires Run(ForwardPath(t), s, log) && AddsNothing(log) && (out == {} || out == {candidate})
    requires Kept(t, s, log, v, powerCut)
    ensures v !in out <==> v == candidate ==> v in Replay(s, log) - out
  {
    FateOf(t, s, log, v);
  }

  lemma {:induction false} RejectedStoreBootsIff(plan: Plan, s: Store, s': Store, a: Account, powerCut: bool)
    requires Ready(plan, s) && ForwardWrites(plan, s, a.forward)
    requires plan.candidate.NewProfile? ==> a.forward != [] && a.forward[0].outcome == Done
    requires s' == Replay(s, a.forward) ||
             (plan.candidate.NewProfile? && s' == Replay(s, a.forward) - {CandidateUuid(plan)})
    requires Bootable(s, plan.iface, powerCut)
    ensures Bootable(s', plan.iface, powerCut) <==> exists v :: KeptThrough(plan, s, s', a, v, powerCut)
  {
    var t, all, rest := IntentOf(plan), WithCandidate(plan, s), Finalization(plan, a.forward);
    var out := if s' == Replay(s, a.forward) then {} else {CandidateUuid(plan)};
    BootsOutside(plan, s, powerCut, out);
    FinalizationRuns(plan, s, a.forward);
    assert s' == Replay(all, rest) - out;
    BootsIffKept(t, all, rest, powerCut, out);
    forall v ensures Kept(t, all, rest, v, powerCut) && v !in out <==> KeptThrough(plan, s, s', a, v, powerCut) {
      if Kept(t, all, rest, v, powerCut) {
        KeptOutside(t, all, rest, powerCut, CandidateUuid(plan), out, v);
      }
    }
  }
}
