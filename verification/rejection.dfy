/** A transition that is rejected after its finalization: one run, in full. */
module Rejection {
  import opened Text
  import opened Profiles
  import opened Selection
  import opened NetworkManager
  import opened Recovery
  import opened Addresses
  import opened Accumulation
  import Connectivity

  function Done(w: Write): Attempt {
    Attempt(w, Outcome.Done)
  }

  /** The writes of the run: add the candidate, enable it, disable the mode at home. */
  function Forward(home: Profile, candidate: Profile): seq<Attempt> {
    [Done(Add(candidate))] + Switching(home, candidate)
  }

  function Switching(home: Profile, candidate: Profile): seq<Attempt> {
    Updating(home, candidate, Outcome.Done, Outcome.Done)
  }

  function Both(home: Profile, candidate: Profile): Store {
    map[home.uuid := home, candidate.uuid := candidate]
  }

  function Selected(home: Profile, candidate: Profile): Store {
    map[home.uuid := Rebuilt(home, false), candidate.uuid := Rebuilt(candidate, true)]
  }

  lemma {:induction false} UpdatingSelects(home: Profile, candidate: Profile)
    requires home.uuid != candidate.uuid
    ensures Selecting(home, candidate, Switching(home, candidate))
    ensures Replay(Both(home, candidate), Switching(home, candidate)) == Selected(home, candidate)
  {
    var both, log := Both(home, candidate), Switching(home, candidate);
    ReplayTwo(both, log[0], log[1]);
    assert log == [log[0], log[1]];
  }

  lemma {:induction false} UpdatingSettles(t: Intent, home: Profile, candidate: Profile)
    requires Pair(t, home, candidate, true)
    ensures var both, log := Both(home, candidate), Switching(home, candidate);
            Run(ForwardPath(t), both, log) && Settled(t, both, Selected(home, candidate))
  {
    UpdatingSelects(home, candidate);
    NothingSuperseded(t, home, candidate, Selected(home, candidate));
    TwoUpdatesSettle(t, Both(home, candidate), home, candidate, Switching(home, candidate));
  }

  lemma {:induction false} ForwardRuns(t: Intent, home: Profile, candidate: Profile)
    requires Pair(t, home, candidate, true)
    ensures var s, log := map[home.uuid := home], Forward(home, candidate);
            Run(ForwardPath(t), s, log) && Replay(s, log) == Selected(home, candidate)
  {
    var s, add := map[home.uuid := home], Done(Add(candidate));
    ReplayStep(s, [], add);
    RunStep(ForwardPath(t), s, [], add);
    assert [] + [add] == [add] && Replay(s, [add]) == Both(home, candidate);
    UpdatingSelects(home, candidate);
    UpdatingSettles(t, home, candidate);
    RunAppend(ForwardPath(t), s, [add], Switching(home, candidate));
    ReplayAppend(s, [add], Switching(home, candidate));
  }

  /** A plan to move from `home` to the new profile `candidate`. */
  ghost predicate Moving(plan: Plan, home: Profile, candidate: Profile) {
    && plan.candidate == NewProfile(candidate) && Pair(IntentOf(plan), home, candidate, true)
    && Canonical(candidate.uuid)
  }

  lemma {:induction false} MoveIsReady(plan: Plan, home: Profile, candidate: Profile)
    requires Moving(plan, home, candidate)
    ensures var s := map[home.uuid := home];
            Ready(plan, s) && WithCandidate(plan, s) == Both(home, candidate) &&
            Bootable(s, plan.iface, true) && PendingIsInert(s)
  {
    var s := map[home.uuid := home];
    assert home.uuid in s && Startable(s[home.uuid], plan.iface, true);
  }

  lemma {:induction false} MoveWrites(plan: Plan, home: Profile, candidate: Profile)
    requires Moving(plan, home, candidate)
    ensures ForwardWrites(plan, map[home.uuid := home], Forward(home, candidate))
  {
    ForwardRuns(IntentOf(plan), home, candidate);
    assert forall i :: 0 < i < 3 ==> Forward(home, candidate)[i] == Switching(home, candidate)[i - 1];
  }

  lemma {:induction false} MoveReachesItsEnd(plan: Plan, home: Profile, candidate: Profile)
    requires Moving(plan, home, candidate)
    ensures var s, log := map[home.uuid := home], Forward(home, candidate);
            Reached(plan, s, Replay(s, log), Some(true), log)
  {
    MoveIsReady(plan, home, candidate);
    ForwardRuns(IntentOf(plan), home, candidate);
    UpdatingSettles(IntentOf(plan), home, candidate);
  }

  const CLEAN := Report(None, None, None)

  function Started(candidate: Profile): Activation {
    Activation("path", candidate.uuid)
  }

  function Judging(judged: Status): seq<Call> {
    [ActivationAwaited("path", true), StatusRead(Some(judged))]
  }

  /** The calls of the run: the candidate is accepted and finalized, the commit is refused, and
      the rollback removes it and finds the previous connection live. */
  function Tried(candidate: Profile, judged: Status): seq<Call> {
    [CandidateActivated(Started(candidate), true)] + (Judging(judged) + [Finalized(true), CheckpointCommitted(false)])
  }

  function RolledBack(candidate: Profile, restored: Status): seq<Call> {
    [CheckpointRolledBack(true)] + ([OwnedDeleted(candidate.uuid, true)] + [StatusRead(Some(restored))])
  }

  lemma {:induction false} TriedIsBrokenOff(plan: Plan, candidate: Profile, judged: Status, text: string)
    requires plan.candidate == NewProfile(candidate) && Validated(plan, Judging(judged), Started(candidate))
    ensures BrokenOff(plan, Tried(candidate, judged)) && Marks(Tried(candidate, judged), Some(true))
    ensures Explains(plan.messages, Tried(candidate, judged), plan.messages.commit + ": " + text)
    ensures forall c :: c in Tried(candidate, judged) ==> Undecided(c)
  {
    var last := [Finalized(true), CheckpointCommitted(false)];
    var tried := Tried(candidate, judged);
    assert Unconcluded(last) && tried[1..] == Judging(judged) + last;
    assert tried[3] == Finalized(true) && tried[|tried| - 1] == CheckpointCommitted(false);
    assert Wrapped(plan.messages.commit, plan.messages.commit + ": " + text);
  }

  lemma {:induction false} RolledBackCleanly(plan: Plan, candidate: Profile, restored: Status)
    requires plan.candidate == NewProfile(candidate) && candidate.uuid != ""
    requires ConnectionActive(restored, plan.previousUuid, plan.previousAddress)
    ensures RollbackCalls(plan, candidate.uuid, RolledBack(candidate, restored), CLEAN)
  {
    var restoring := [StatusRead(Some(restored))];
    assert Restoring(plan.previousUuid, plan.previousAddress, 0, restoring);
    assert RolledBack(candidate, restored)[1..] == Removal(plan, candidate.uuid, CLEAN) + restoring;
  }

  lemma {:induction false} CallsAreRejected(plan: Plan, candidate: Profile, judged: Status, restored: Status, a: Account)
    requires plan.candidate == NewProfile(candidate) && candidate.uuid != ""
    requires Validated(plan, Judging(judged), Started(candidate))
    requires a.report == Some(CLEAN) && a.finalized == Some(true) && a.cause == plan.messages.commit + ": " + "refused"
    requires a.calls == [CheckpointCreated(true)] + Tried(candidate, judged) + RolledBack(candidate, restored)
    requires ConnectionActive(restored, plan.previousUuid, plan.previousAddress)
    ensures RejectedCalls(plan, a, Tried(candidate, judged), RolledBack(candidate, restored))
  {
    TriedIsBrokenOff(plan, candidate, judged, "refused");
    RolledBackCleanly(plan, candidate, restored);
  }

  /** The account of the run. */
  function Refusal(plan: Plan, home: Profile, candidate: Profile, judged: Status, restored: Status): Account {
    Account([CheckpointCreated(true)] + Tried(candidate, judged) + RolledBack(candidate, restored),
            Forward(home, candidate), [Done(Delete(candidate.uuid))], Some(true),
            plan.messages.commit + ": " + "refused", Some(CLEAN))
  }

  lemma {:induction false} RemovalLeavesHome(plan: Plan, home: Profile, candidate: Profile)
    requires Moving(plan, home, candidate)
    ensures AfterRollback(plan, Selected(home, candidate), map[home.uuid := Rebuilt(home, false)], CLEAN)
    ensures !Bootable(map[home.uuid := Rebuilt(home, false)], plan.iface, false)
  {
    assert Selected(home, candidate) - {candidate.uuid} == map[home.uuid := Rebuilt(home, false)];
  }

  lemma {:induction false} RefusalIsRejected(plan: Plan, home: Profile, candidate: Profile, judged: Status, restored: Status)
    requires Moving(plan, home, candidate) && Validated(plan, Judging(judged), Started(candidate))
    requires ConnectionActive(restored, plan.previousUuid, plan.previousAddress)
    ensures var s, s', a := map[home.uuid := home], map[home.uuid := Rebuilt(home, false)],
                            Refusal(plan, home, candidate, judged, restored);
            RejectedAccount(plan, s, s', FailureText(plan.messages, a.cause, CLEAN), a)
  {
    CandidateIsNamed(plan);
    CallsAreRejected(plan, candidate, judged, restored, Refusal(plan, home, candidate, judged, restored));
    MoveReachesItsEnd(plan, home, candidate);
    ForwardRuns(IntentOf(plan), home, candidate);
    RemovalLeavesHome(plan, home, candidate);
  }

  lemma {:induction false} MoveIsIssued(plan: Plan, home: Profile, candidate: Profile)
    requires Moving(plan, home, candidate)
    ensures Forward(home, candidate)[0] == Done(Add(candidate))
    ensures SelectionLog(IntentOf(plan), Both(home, candidate), Forward(home, candidate)[1..])
  {
    assert Forward(home, candidate)[1..] == Switching(home, candidate);
    UpdatingSelects(home, candidate);
    TwoUpdatesAreSelected(IntentOf(plan), Both(home, candidate), home, candidate, Switching(home, candidate));
  }

  lemma {:induction false} Stays(address: IPv4, uuid: Uuid) returns (status: Status)
    ensures ConnectionActive(status, uuid, address)
  {
    var text := AddressText(address);
    AddressCodec(text, address);
    status := Status(4, ACTIVATED, "path", uuid, [text]);
    assert ParseIPv4(status.addresses[0]) == Some(address);
  }

  lemma {:induction false} Move() returns (plan: Plan, home: Profile, candidate: Profile)
    ensures Moving(plan, home, candidate) && Canonical(home.uuid)
    ensures plan.acceptance == MeetsPolicy(Connectivity.Local) && home.uuid == plan.previousUuid
  {
    var a := CanonicalUuid('a');
    var b := CanonicalUuid('b');
    home := Sample(a, Standalone, true, false, false);
    candidate := Sample(b, Infrastructure, false, true, false);
    plan := Plan("wlan0", Infrastructure, "net", NewProfile(candidate), MeetsPolicy(Connectivity.Local), a,
                 [10, 42, 0, 1], INFRASTRUCTURE_MESSAGES);
  }

  lemma {:induction false} RefusalDetails(plan: Plan, home: Profile, candidate: Profile, judged: Status, restored: Status)
    requires plan.candidate == NewProfile(candidate)
    requires Validated(plan, Judging(judged), Started(candidate))
    ensures var a := Refusal(plan, home, candidate, judged, restored);
            && Judged(plan, a.calls) && a.calls[5] == CheckpointCommitted(false) && BackwardWrites(plan, a.backward)
            && forall x :: x in a.forward + a.backward ==> x.outcome == Outcome.Done
  {
    var calls := Refusal(plan, home, candidate, judged, restored).calls;
    assert calls[2..4] == Judging(judged);
  }

  lemma {:induction false} JudgedIsAccepted(plan: Plan, candidate: Profile, judged: Status, address: IPv4)
    requires plan.candidate == NewProfile(candidate) && plan.acceptance == MeetsPolicy(Connectivity.Local)
    requires ConnectionActive(judged, candidate.uuid, address)
    ensures Validated(plan, Judging(judged), Started(candidate))
  {
  }

  /** After its activation the candidate was found acceptable, and then finalized. */
  ghost predicate Judged(plan: Plan, calls: seq<Call>) {
    |calls| > 5 && calls[1].CandidateActivated? && Validated(plan, calls[2..4], calls[1].activation) &&
    calls[4] == Finalized(true)
  }

  /** A transition that finalized as selectMode issues it, was rejected because its commit was
      refused, and was rolled back without any failure, but boots no more. */
  ghost predicate LosesEligibility(plan: Plan, s: Store, s': Store, err: string, a: Account) {
    && Ready(plan, s) && Bootable(s, plan.iface, true) && PendingIsInert(s)
    && ForwardWrites(plan, s, a.forward) && BackwardWrites(plan, a.backward)
    && a.forward != [] && SelectionLog(IntentOf(plan), WithCandidate(plan, s), a.forward[1..])
    && (forall x :: x in a.forward + a.backward ==> x.outcome == Outcome.Done)
    && RejectedAccount(plan, s, s', err, a) && a.finalized == Some(true) && a.report == Some(CLEAN)
    && Judged(plan, a.calls) && a.calls[5] == CheckpointCommitted(false)
    && plan.previousUuid in s' && !Bootable(s', plan.iface, false)
  }

  lemma {:induction false} RefusalLoses(plan: Plan, home: Profile, candidate: Profile, judged: Status, restored: Status,
                                        s: Store, s': Store, a: Account)
    requires Moving(plan, home, candidate) && home.uuid == plan.previousUuid
    requires ConnectionActive(restored, plan.previousUuid, plan.previousAddress)
    requires s == map[home.uuid := home] && s' == map[home.uuid := Rebuilt(home, false)]
    requires a == Refusal(plan, home, candidate, judged, restored)
    requires Validated(plan, Judging(judged), Started(candidate))
    ensures LosesEligibility(plan, s, s', FailureText(plan.messages, a.cause, CLEAN), a)
  {
    RefusalIsRejected(plan, home, candidate, judged, restored);
    RefusalDetails(plan, home, candidate, judged, restored);
    MoveIsReady(plan, home, candidate);
    MoveWrites(plan, home, candidate);
    MoveIsIssued(plan, home, candidate);
    RemovalLeavesHome(plan, home, candidate);
  }

  /** What a refused commit leaves behind. The transition activated, accepted and finalized its
      candidate, its commit was refused, and everything the rollback did succeeded: the
      candidate is gone and the previous connection is live. But onboardd wrote no flag back:
      that connection's profile no longer connects on its own, and neither does anything else. */
  lemma {:induction false} RefusedCommitLosesEligibility() returns (plan: Plan, s: Store, s': Store, err: string, a: Account)
    ensures LosesEligibility(plan, s, s', err, a) && CanonicalKeys(s)
  {
    var home, candidate;
    plan, home, candidate := Move();
    var restored := Stays(plan.previousAddress, plan.previousUuid);
    var judged := Stays([10, 0, 0, 2], candidate.uuid);
    s, s' := map[home.uuid := home], map[home.uuid := Rebuilt(home, false)];
    a := Refusal(plan, home, candidate, judged, restored);
    err := FailureText(plan.messages, a.cause, CLEAN);
    JudgedIsAccepted(plan, candidate, judged, [10, 0, 0, 2]);
    RefusalLoses(plan, home, candidate, judged, restored, s, s', a);
  }
}
