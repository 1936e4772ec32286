/** Checkpoint-protected network transitions. */
module Recovery {
  import opened Text
  import opened Profiles
  import opened Selection
  import opened NetworkManager
  import opened Uuids
  import opened Addresses
  import Connectivity

  datatype Messages = Messages(
    checkpoint: string,
    activate: string,
    wait: string,
    inspect: string,
    finalize: string,
    commit: string,
    rejected: string)

  const INFRASTRUCTURE_MESSAGES := Messages(
    "protect current connection with checkpoint",
    "activate infrastructure profile",
    "wait for candidate infrastructure profile",
    "inspect candidate connectivity",
    "select infrastructure mode",
    "commit infrastructure transition",
    "remove rejected infrastructure profile")

  const STANDALONE_MESSAGES := Messages(
    "protect setup AP with checkpoint",
    "activate standalone profile",
    "wait for standalone profile",
    "inspect standalone profile",
    "select standalone mode",
    "commit standalone transition",
    "remove rejected standalone profile")

  /** A candidate the transition creates, and deletes again when it is rejected, or a saved
      profile it may not delete. */
  datatype Candidate = NewProfile(profile: Profile) | SavedProfile(uuid: Uuid)

  datatype Acceptance = MeetsPolicy(requirement: Connectivity.Requirement) | HasAddress(address: IPv4)

  datatype Plan = Plan(
    iface: string,
    role: Role,
    ssid: string,
    candidate: Candidate,
    acceptance: Acceptance,
    previousUuid: Uuid,
    previousAddress: IPv4,
    messages: Messages)

  function CandidateUuid(plan: Plan): Uuid {
    match plan.candidate
    case NewProfile(p) => p.uuid
    case SavedProfile(u) => u
  }

  function IntentOf(plan: Plan): Intent {
    Intent(plan.iface, plan.role, plan.ssid, CandidateUuid(plan))
  }

  predicate Canonical(uuid: Uuid) {
    ValidUuid(uuid) && Lower(uuid) == uuid
  }

  /** What the callers of runTransition have established: a fresh, unselected candidate of
      their own, or a saved profile of theirs on the interface. */
  ghost predicate Ready(plan: Plan, s: Store) {
    && (plan.role == Infrastructure || plan.role == Standalone)
    && Canonical(CandidateUuid(plan))
    && match plan.candidate
       case NewProfile(p) => p.owned && p.uuid !in s && InScope(IntentOf(plan), p) && !p.autoconnect
       case SavedProfile(u) => u in s && s[u].owned && InScope(IntentOf(plan), s[u])
  }

  predicate ConnectionActive(status: Status, uuid: Uuid, address: IPv4) {
    && status.state == ACTIVATED && status.activeUuid == uuid
    && exists i :: 0 <= i < |status.addresses| && ParseIPv4(status.addresses[i]) == Some(address)
  }

  /** The connection is live exactly when the device is activated, this profile is the active
      one and the text of this address is among the addresses shown. */
  lemma LiveMeans(status: Status, uuid: Uuid, address: IPv4)
    ensures ConnectionActive(status, uuid, address) <==>
            status.state == 100 && status.activeUuid == uuid && AddressText(address) in status.addresses
  {
    forall i | 0 <= i < |status.addresses|
      ensures ParseIPv4(status.addresses[i]) == Some(address) <==> status.addresses[i] == AddressText(address)
    {
      AddressCodec(status.addresses[i], address);
    }
  }

  /** The candidate is the active profile and meets the acceptance rule; an internet
      requirement is judged on a fresh connectivity check only. */
  predicate Accepted(plan: Plan, status: Status, checked: Option<nat>, uuid: Uuid) {
    match plan.acceptance
    case HasAddress(a) => checked.None? && ConnectionActive(status, uuid, a)
    case MeetsPolicy(requirement) =>
      && status.activeUuid == uuid
      && (checked.Some? <==> requirement == Connectivity.Internet)
      && Connectivity.Evaluate(requirement,
           Observe(if checked.Some? then status.(connectivity := checked.value) else status)).accepted
  }

  /** Which network is accepted, by numbers: its device is activated on the candidate with some
      address, and where internet is required a fresh check found full connectivity. */
  lemma AcceptedMeans(plan: Plan, status: Status, checked: Option<nat>, uuid: Uuid)
    requires plan.acceptance.MeetsPolicy?
    ensures Accepted(plan, status, checked, uuid) <==>
            && status.state == 100 && status.activeUuid == uuid && status.addresses != []
            && checked == (if plan.acceptance.requirement == Connectivity.Internet then Some(4) else None)
  {
  }

  /** What a rollback reported: nothing, or the error text of each step that failed. */
  datatype Report = Report(rollback: Option<string>, rejected: Option<string>, restoration: Option<string>)

  function FailureText(messages: Messages, cause: string, report: Report): string {
    if report.rollback.Some? then
      cause + "\n" + "rollback NetworkManager checkpoint: " + report.rollback.value
    else
      cause
      + (if report.rejected.Some? then "\n" + messages.rejected + ": " + report.rejected.value else "")
      + (if report.restoration.Some?
         then "\n" + "confirm previous connection restoration: " + report.restoration.value else "")
  }

  /** A status read that shows the connection live. */
  predicate Live(uuid: Uuid, address: IPv4, c: Call) {
    c.StatusRead? && c.status.Some? && ConnectionActive(c.status.value, uuid, address)
  }

  /** Polling reads the status until the connection is live or the deadline has passed. */
  ghost predicate Polled(uuid: Uuid, address: IPv4, patience: nat, calls: seq<Call>) {
    && 0 < |calls| <= patience + 1 && (forall i :: 0 <= i < |calls| ==> calls[i].StatusRead?)
    && (forall i :: 0 <= i < |calls| - 1 ==> !Live(uuid, address, calls[i]))
    && (Live(uuid, address, calls[|calls| - 1]) || |calls| == patience + 1)
  }

  /** An activation under way is awaited, and then the connection polled for. */
  ghost predicate Awaited(uuid: Uuid, address: IPv4, path: string, patience: nat, calls: seq<Call>) {
    && calls != [] && calls[0].ActivationAwaited? && calls[0].path == path
    && if calls[0].ok then Polled(uuid, address, patience, calls[1..]) else |calls| == 1
  }

  /** Exactly the previous profile is activated, and then awaited. */
  ghost predicate Reactivated(uuid: Uuid, address: IPv4, patience: nat, calls: seq<Call>) {
    && calls != [] && calls[0].ProfileActivated? && calls[0].uuid == uuid
    && if calls[0].ok then Awaited(uuid, address, calls[0].activation.activePath, patience, calls[1..])
       else |calls| == 1
  }

  /** The activation of the profile that a status shows under way. */
  function UnderWay(uuid: Uuid, c: Call): string {
    if c.StatusRead? && c.status.Some? && c.status.value.activeUuid == uuid then c.status.value.activeConnection else ""
  }

  /** The calls of a restoration: nothing more if the connection is live already; otherwise an
      activation under way is awaited, or the previous profile activated. */
  ghost predicate Restoring(uuid: Uuid, address: IPv4, patience: nat, calls: seq<Call>) {
    && calls != [] && calls[0].StatusRead?
    && if Live(uuid, address, calls[0]) then |calls| == 1
       else if UnderWay(uuid, calls[0]) != ""
       then Awaited(uuid, address, UnderWay(uuid, calls[0]), patience, calls[1..])
       else Reactivated(uuid, address, patience, calls[1..])
  }

  /** Restoration reads the status, waits, and activates nothing but the previous profile. */
  predicate RestorationCall(uuid: Uuid, c: Call) {
    c.StatusRead? || c.ActivationAwaited? || (c.ProfileActivated? && c.uuid == uuid)
  }

  ghost predicate RestorationCalls(uuid: Uuid, calls: seq<Call>) {
    forall c :: c in calls ==> RestorationCall(uuid, c)
  }

  /** The latest call is a status read that shows the previous connection live again. */
  ghost predicate ConfirmedRestored(uuid: Uuid, address: IPv4, calls: seq<Call>) {
    |calls| > 0 && Live(uuid, address, calls[|calls| - 1])
  }

  /** An internet requirement is judged on a fresh check, but only of the candidate itself. */
  predicate NeedsCheck(plan: Plan, status: Status, uuid: Uuid) {
    plan.acceptance == MeetsPolicy(Connectivity.Internet) && status.activeUuid == uuid
  }

  /** The calls that judge an activated candidate: its activation is awaited, the status read, and
      the connectivity checked if that is needed; the first failure ends them. */
  ghost predicate Judgement(plan: Plan, calls: seq<Call>, activation: Activation) {
    && calls != [] && calls[0].ActivationAwaited? && calls[0].path == activation.activePath
    && if !calls[0].ok then |calls| == 1
       else
         && |calls| > 1 && calls[1].StatusRead?
         && if calls[1].status.Some? && NeedsCheck(plan, calls[1].status.value, activation.uuid)
            then |calls| == 3 && calls[2].ConnectivityChecked? else |calls| == 2
  }

  /** The calls that judged the candidate and found it acceptable. */
  ghost predicate Validated(plan: Plan, calls: seq<Call>, activation: Activation) {
    && (|calls| == 2 || |calls| == 3)
    && calls[0] == ActivationAwaited(activation.activePath, true) && calls[1].StatusRead? && calls[1].status.Some?
    && (|calls| == 3 ==> calls[2].ConnectivityChecked? && calls[2].value.Some?)
    && Accepted(plan, calls[1].status.value, if |calls| == 3 then calls[2].value else None, activation.uuid)
  }

  /** The call that activates the candidate. */
  predicate IsActivation(plan: Plan, c: Call) {
    match plan.candidate
    case NewProfile(_) => c.CandidateActivated?
    case SavedProfile(u) => c.ProfileActivated? && c.uuid == u
  }

  function ActivationCall(plan: Plan, activation: Activation): Call {
    if plan.candidate.NewProfile? then CandidateActivated(activation, true)
    else ProfileActivated(CandidateUuid(plan), activation, true)
  }

  /** The calls of a committed transition after its checkpoint: activate, judge, record the
      intent, commit, in this order and nothing else. */
  ghost predicate CommittedCalls(plan: Plan, calls: seq<Call>, activation: Activation) {
    exists judged :: Validated(plan, judged, activation) &&
      calls == [ActivationCall(plan, activation)] + judged + [Finalized(true), CheckpointCommitted(true)]
  }

  /** What is recorded of an accepted candidate when it could not be made durable. */
  ghost predicate Unconcluded(calls: seq<Call>) {
    calls == [Finalized(false)] || calls == [Finalized(true), CheckpointCommitted(false)]
  }

  /** The calls for an activated candidate that was not accepted, or not made durable. */
  ghost predicate Unaccomplished(plan: Plan, calls: seq<Call>, activation: Activation) {
    || (Judgement(plan, calls, activation) && !Validated(plan, calls, activation))
    || exists judged, last :: Validated(plan, judged, activation) && Unconcluded(last) && calls == judged + last
  }

  /** The calls of a transition that failed after its checkpoint, up to its rollback: the activation
      failed, or what followed it. */
  ghost predicate BrokenOff(plan: Plan, calls: seq<Call>) {
    && calls != [] && IsActivation(plan, calls[0])
    && if calls[0].ok
       then calls[0].activation.uuid == CandidateUuid(plan) && Unaccomplished(plan, calls[1..], calls[0].activation)
       else |calls| == 1
  }

  ghost predicate Wrapped(stage: string, text: string) {
    exists inner :: text == stage + ": " + inner
  }

  /** The cause names the step that failed; why a candidate was not accepted is up to the rule. */
  ghost predicate Explains(messages: Messages, calls: seq<Call>, cause: string)
    requires calls != []
  {
    match calls[|calls| - 1]
    case CandidateActivated(_, _) => Wrapped(messages.activate, cause)
    case ProfileActivated(_, _, _) => Wrapped(messages.activate, cause)
    case ActivationAwaited(_, _) => Wrapped(messages.wait, cause)
    case StatusRead(status) => status.None? ==> Wrapped(messages.inspect, cause)
    case Finalized(_) => Wrapped(messages.finalize, cause)
    case CheckpointCommitted(_) => Wrapped(messages.commit, cause)
    case _ => true
  }

  predicate Undecided(c: Call) {
    !c.CheckpointRolledBack? && c != CheckpointCommitted(true)
  }

  /** The removal of a candidate that has a name to be removed by. */
  function Removal(plan: Plan, uuid: Uuid, report: Report): seq<Call> {
    if plan.candidate.NewProfile? && uuid != "" then [OwnedDeleted(uuid, report.rejected.None?)] else []
  }

  /** The calls of a rollback: exactly one rollback; unless it failed, the removal of a named new
      candidate and a restoration follow, and the report names exactly what failed. */
  ghost predicate RollbackCalls(plan: Plan, uuid: Uuid, calls: seq<Call>, report: Report) {
    && |calls| > 0
    && calls[0] == CheckpointRolledBack(report.rollback.None?)
    && (forall i :: 0 < i < |calls| ==> Undecided(calls[i]))
    && (report.rollback.Some? ==> |calls| == 1 && report.rejected.None? && report.restoration.None?)
    && (report.rollback.None? ==> CleanedUp(plan, uuid, calls[1..], report))
  }

  ghost predicate CleanedUp(plan: Plan, uuid: Uuid, calls: seq<Call>, report: Report) {
    && (exists restoring, patience: nat ::
         calls == Removal(plan, uuid, report) + restoring &&
         Restoring(plan.previousUuid, plan.previousAddress, patience, restoring))
    && (report.rejected.Some? ==> Removal(plan, uuid, report) != [])
    && (report.restoration.None? <==> ConfirmedRestored(plan.previousUuid, plan.previousAddress, calls))
  }

  /** Pre-existing profiles are exactly what they were; at most the candidate was added. */
  ghost predicate Untouched(plan: Plan, s: Store, s': Store) {
    s' == s || (plan.candidate.NewProfile? && s' == s[CandidateUuid(plan) := plan.candidate.profile])
  }

  function WithCandidate(plan: Plan, s: Store): Store {
    if plan.candidate.NewProfile? then s[CandidateUuid(plan) := plan.candidate.profile] else s
  }

  /** NetworkManager stored the new candidate, but the reply to its addition was lost: the
      transition fails without knowing that it is there. */
  predicate Stray(plan: Plan, forward: seq<Attempt>) {
    plan.candidate.NewProfile? && LostAddition(plan.candidate.profile, forward)
  }

  /** The forward writes: the candidate first, if it is new, and only once. */
  ghost predicate ForwardWrites(plan: Plan, s: Store, log: seq<Attempt>) {
    && Run(ForwardPath(IntentOf(plan)), s, log)
    && (plan.candidate.NewProfile? && log != [] ==>
         log[0].write == Add(plan.candidate.profile) && (log[0].outcome != Done ==> |log| == 1))
    && (forall i :: (plan.candidate.NewProfile? ==> 0 < i) && 0 <= i < |log| ==> !log[i].write.Add?)
  }

  /** The backward writes remove the candidate and nothing else. */
  ghost predicate BackwardWrites(plan: Plan, log: seq<Attempt>) {
    (plan.candidate.SavedProfile? ==> log == []) &&
    forall a :: a in log ==> a.write == Delete(CandidateUuid(plan))
  }

  method WaitForConnection(client: Client, uuid: Uuid, address: IPv4, patience: nat)
    returns (err: Option<string>, ghost calls: seq<Call>)
    modifies client`trace
    ensures client.trace == old(client.trace) + calls && Polled(uuid, address, patience, calls)
    ensures err.None? <==> ConfirmedRestored(uuid, address, calls)
  {
    var left := patience;
    calls := [];
    while true
      invariant client.trace == old(client.trace) + calls && |calls| + left == patience
      invariant forall c :: c in calls ==> c.StatusRead? && !Live(uuid, address, c)
      decreases left
    {
      var status, failed := client.ReadStatus();
      calls := calls + [StatusRead(if failed.None? then Some(status) else None)];
      if failed.None? && ConnectionActive(status, uuid, address) {
        err := None;
        return;
      }
      if left == 0 {
        err := Some("context deadline exceeded");
        return;
      }
      left := left - 1;
    }
  }

  /** Waits for an activation under way and then for the connection itself. */
  method AwaitPrevious(client: Client, uuid: Uuid, address: IPv4, activePath: string, patience: nat)
    returns (err: Option<string>, ghost calls: seq<Call>)
    modifies client`trace
    ensures client.trace == old(client.trace) + calls && Awaited(uuid, address, activePath, patience, calls)
    ensures err.None? <==> ConfirmedRestored(uuid, address, calls)
  {
    var waited := client.WaitForActivation(activePath);
    calls := [ActivationAwaited(activePath, waited.None?)];
    if waited.Some? {
      err := Some("wait for previous profile " + uuid + " activation: " + waited.value);
      return;
    }
    ghost var more;
    err, more := WaitForConnection(client, uuid, address, patience);
    Reassociate(old(client.trace), calls, more);
    assert (calls + more)[1..] == more;
    calls := calls + more;
  }

  /** Reactivates exactly the previous profile. */
  method Reactivate(client: Client, uuid: Uuid, address: IPv4, patience: nat)
    returns (err: Option<string>, ghost calls: seq<Call>)
    modifies client`trace
    ensures client.trace == old(client.trace) + calls && Reactivated(uuid, address, patience, calls)
    ensures err.None? <==> ConfirmedRestored(uuid, address, calls)
  {
    var activation, refused := client.ActivateProfile(uuid);
    calls := [ProfileActivated(uuid, activation, refused.None?)];
    if refused.Some? {
      err := Some("reactivate previous profile " + uuid + ": " + refused.value);
      return;
    }
    ghost var more;
    err, more := AwaitPrevious(client, uuid, address, activation.activePath, patience);
    Reassociate(old(client.trace), calls, more);
    assert (calls + more)[1..] == more;
    calls := calls + more;
  }

  /** Confirms the previous connection, reactivating exactly that profile when needed. */
  method RestorePreviousConnection(client: Client, uuid: Uuid, address: IPv4, patience: nat)
    returns (err: Option<string>, ghost calls: seq<Call>)
    modifies client`trace
    ensures client.trace == old(client.trace) + calls && Restoring(uuid, address, patience, calls)
    ensures err.None? <==> ConfirmedRestored(uuid, address, calls)
  {
    var status, failed := client.ReadStatus();
    calls := [StatusRead(if failed.None? then Some(status) else None)];
    if failed.None? && ConnectionActive(status, uuid, address) {
      err := None;
      return;
    }
    var underWay := if failed.None? && status.activeUuid == uuid then status.activeConnection else "";
    ghost var more;
    if underWay != "" {
      err, more := AwaitPrevious(client, uuid, address, underWay, patience);
    } else {
      err, more := Reactivate(client, uuid, address, patience);
    }
    Reassociate(old(client.trace), calls, more);
    assert (calls + more)[1..] == more;
    calls := calls + more;
  }

  lemma RestoringCallsOnly(uuid: Uuid, address: IPv4, patience: nat, calls: seq<Call>)
    requires Restoring(uuid, address, patience, calls)
    ensures RestorationCalls(uuid, calls)
  {
    forall c | c in calls ensures RestorationCall(uuid, c) {
      var i :| 0 <= i < |calls| && calls[i] == c;
      assert i > 0 ==> calls[1..][i - 1] == c;
      assert i > 1 ==> calls[1..][1..][i - 2] == c;
      assert i > 2 ==> calls[1..][1..][1..][i - 3] == c;
    }
  }

  /** What a rollback does to the store: at most it removes a new candidate. */
  ghost predicate AfterRollback(plan: Plan, mid: Store, s': Store, report: Report) {
    && (s' == mid || s' == mid - {CandidateUuid(plan)})
    && (plan.candidate.SavedProfile? || report.rollback.Some? ==> s' == mid)
    && (plan.candidate.NewProfile? && report.rollback.None? && report.rejected.None? ==>
         s' == mid - {CandidateUuid(plan)})
  }

  method RemoveRejected(client: Client, plan: Plan, candidateUuid: Uuid)
    returns (rejected: Option<string>, ghost calls: seq<Call>, ghost backward: seq<Attempt>)
    requires client.Valid() && candidateUuid in {"", CandidateUuid(plan)} && Canonical(CandidateUuid(plan))
    modifies client
    ensures client.Valid() && client.trace == old(client.trace) + calls && client.log == old(client.log) + backward
    ensures BackwardWrites(plan, backward)
    ensures calls ==
            if plan.candidate.NewProfile? && candidateUuid != "" then [OwnedDeleted(candidateUuid, rejected.None?)] else []
    ensures rejected.Some? ==> calls != []
    ensures client.store == old(client.store) || client.store == old(client.store) - {CandidateUuid(plan)}
    ensures plan.candidate.SavedProfile? || candidateUuid == "" ==> client.store == old(client.store)
    ensures plan.candidate.NewProfile? && candidateUuid != "" && rejected.None? ==>
              CandidateUuid(plan) !in client.store
  {
    rejected, calls, backward := None, [], [];
    if plan.candidate.NewProfile? && candidateUuid != "" {
      ghost var before := client.log;
      rejected := client.DeleteOwnedProfile(candidateUuid);
      calls := [OwnedDeleted(candidateUuid, rejected.None?)];
      backward := client.log[|before|..];
    }
  }

  lemma RollbackCallsCompose(plan: Plan, uuid: Uuid, report: Report, restoring: seq<Call>, patience: nat)
    requires report.rollback.None? && (report.rejected.Some? ==> Removal(plan, uuid, report) != [])
    requires Restoring(plan.previousUuid, plan.previousAddress, patience, restoring)
    requires report.restoration.None? <==> ConfirmedRestored(plan.previousUuid, plan.previousAddress, restoring)
    ensures RollbackCalls(plan, uuid, [CheckpointRolledBack(true)] + (Removal(plan, uuid, report) + restoring), report)
  {
    var more := Removal(plan, uuid, report) + restoring;
    var calls := [CheckpointRolledBack(true)] + more;
    RestoringCallsOnly(plan.previousUuid, plan.previousAddress, patience, restoring);
    forall i | 0 < i < |calls| ensures Undecided(calls[i]) {
      assert calls[i] in Removal(plan, uuid, report) || calls[i] in restoring;
    }
    assert calls[1..] == more;
  }

  /** What follows a rollback that went through: the rejected candidate is removed and the
      previous connection confirmed. */
  method CleanUp(client: Client, plan: Plan, candidateUuid: Uuid, patience: nat)
    returns (report: Report, ghost calls: seq<Call>, ghost backward: seq<Attempt>)
    requires client.Valid() && candidateUuid in {"", CandidateUuid(plan)} && Canonical(CandidateUuid(plan))
    modifies client
    ensures client.Valid() && client.trace == old(client.trace) + calls && client.log == old(client.log) + backward
    ensures report.rollback.None? && BackwardWrites(plan, backward)
    ensures RollbackCalls(plan, candidateUuid, [CheckpointRolledBack(true)] + calls, report)
    ensures candidateUuid == "" ==> client.store == old(client.store)
    ensures candidateUuid != "" ==> AfterRollback(plan, old(client.store), client.store, report)
  {
    var rejected, unrestored;
    ghost var removal, restoring := [], [];
    rejected, removal, backward := RemoveRejected(client, plan, candidateUuid);
    unrestored, restoring := RestorePreviousConnection(client, plan.previousUuid, plan.previousAddress, patience);
    report := Report(None, rejected, unrestored);
    calls := removal + restoring;
    Reassociate(old(client.trace), removal, restoring);
    RollbackCallsCompose(plan, candidateUuid, report, restoring, patience);
  }

  /** Restores the checkpoint, removes the rejected candidate and confirms the previous
      connection. A failed rollback is returned at once. */
  method RollbackTransition(client: Client, plan: Plan, candidateUuid: Uuid, cause: string, patience: nat)
    returns (err: string, report: Report, ghost calls: seq<Call>, ghost backward: seq<Attempt>)
    requires client.Valid() && candidateUuid in {"", CandidateUuid(plan)} && Canonical(CandidateUuid(plan))
    modifies client
    ensures client.Valid() && client.trace == old(client.trace) + calls && client.log == old(client.log) + backward
    ensures err == FailureText(plan.messages, cause, report)
    ensures RollbackCalls(plan, candidateUuid, calls, report) && BackwardWrites(plan, backward)
    ensures candidateUuid == "" ==> client.store == old(client.store)
    ensures candidateUuid != "" ==> AfterRollback(plan, old(client.store), client.store, report)
  {
    var refused := client.RollbackCheckpoint();
    if refused.Some? {
      report, backward := Report(refused, None, None), [];
      calls := [CheckpointRolledBack(false)];
    } else {
      ghost var more;
      report, more, backward := CleanUp(client, plan, candidateUuid, patience);
      Reassociate(old(client.trace), [CheckpointRolledBack(true)], more);
      calls := [CheckpointRolledBack(true)] + more;
    }
    err := FailureText(plan.messages, cause, report);
  }

  function RequirementName(r: Connectivity.Requirement): string {
    if r == Connectivity.Internet then "internet" else "local"
  }

  /** What a candidate is rejected with that is active but does not meet the policy. */
  function Unsatisfied(r: Connectivity.Requirement, reason: Connectivity.Verdict): string {
    "candidate does not satisfy " + RequirementName(r) + " requirement: " + Connectivity.VerdictText(reason)
  }

  method Accept(client: Client, plan: Plan, status: Status, activation: Activation)
    returns (err: Option<string>, ghost calls: seq<Call>)
    modifies client`trace
    ensures client.trace == old(client.trace) + calls
    ensures if NeedsCheck(plan, status, activation.uuid) then |calls| == 1 && calls[0].ConnectivityChecked? else calls == []
    ensures err.None? ==> calls == [] || calls[0].value.Some?
    ensures calls == [] || calls[0].value.Some? ==>
              (err.None? <==> Accepted(plan, status, if calls == [] then None else calls[0].value, activation.uuid))
    ensures err.Some? && plan.acceptance.MeetsPolicy? && status.activeUuid == activation.uuid &&
            (calls == [] || calls[0].value.Some?) ==>
              exists reason ::
                err == Some(Unsatisfied(plan.acceptance.requirement, reason)) &&
                reason == Connectivity.Evaluate(
                  plan.acceptance.requirement,
                  Observe(if calls == [] then status else status.(connectivity := calls[0].value.value))).reason
  {
    calls := [];
    match plan.acceptance {
      case HasAddress(address) =>
        if !ConnectionActive(status, activation.uuid, address) {
          return Some("standalone profile " + activation.uuid + " is not active at " + AddressText(address)), calls;
        }
        return None, calls;
      case MeetsPolicy(requirement) =>
        if status.activeUuid != activation.uuid {
          return Some("candidate profile " + activation.uuid + " is not active"), calls;
        }
        var judged := status;
        if requirement == Connectivity.Internet {
          var value, failed := client.CheckConnectivity();
          calls := [ConnectivityChecked(if failed.None? then Some(value) else None)];
          if failed.Some? {
            return failed, calls;
          }
          judged := judged.(connectivity := value);
        }
        var result := Connectivity.Evaluate(requirement, Observe(judged));
        if !result.accepted {
          return Some(Unsatisfied(requirement, result.reason)), calls;
        }
        return None, calls;
    }
  }

  lemma FirstIsForward(plan: Plan, s: Store, a: Attempt)
    requires Ready(plan, s) && plan.candidate.NewProfile? && a.write == Add(plan.candidate.profile)
    ensures ForwardWrites(plan, s, [a])
  {
    RunStep(ForwardPath(IntentOf(plan)), s, [], a);
    assert [] + [a] == [a];
  }

  lemma AddedIsForward(plan: Plan, s: Store, added: seq<Attempt>)
    requires Ready(plan, s) && plan.candidate.NewProfile?
    requires added != [] ==> added[0].write == Add(plan.candidate.profile)
    requires |added| > 1 ==> |added| == 2 && added[0].outcome == Done && added[1].write == Delete(CandidateUuid(plan))
    ensures var n := if added == [] then 0 else 1;
            ForwardWrites(plan, s, added[..n]) && BackwardWrites(plan, added[n..])
  {
    if added == [] {
      assert added[..0] == [] && added[0..] == [];
    } else {
      FirstIsForward(plan, s, added[0]);
      assert added[..1] == [added[0]];
      assert forall a :: a in added[1..] ==> a == added[1];
    }
  }

  lemma ForwardExtends(plan: Plan, s: Store, log: seq<Attempt>, forward: seq<Attempt>, added: seq<Attempt>)
    requires ForwardWrites(plan, s, forward) && Run(ForwardPath(IntentOf(plan)), Replay(s, forward), added)
    requires plan.candidate.NewProfile? ==> |forward| > 0 && forward[0].outcome == Done
    requires forall a :: a in added ==> !a.write.Add?
    ensures ForwardWrites(plan, s, forward + added)
    ensures Replay(s, forward + added) == Replay(Replay(s, forward), added)
    ensures log + (forward + added) == log + forward + added
  {
    ForwardCompose(IntentOf(plan), s, log, forward, added);
    var whole := forward + added;
    forall i | (plan.candidate.NewProfile? ==> 0 < i) && 0 <= i < |whole| ensures !whole[i].write.Add? {
      if i >= |forward| {
        assert whole[i] in added;
      }
    }
  }

  /** What a failure that names no candidate has left: nothing, or a stray. A stray is never named. */
  ghost predicate Unreported(plan: Plan, s: Store, s': Store, uuid: Uuid, forward: seq<Attempt>) {
    && (uuid == "" && !Stray(plan, forward) ==> s' == s)
    && (Stray(plan, forward) ==> uuid == "" && s' == WithCandidate(plan, s))
  }

  /** The step that differs between transitions: create and activate, or only activate. */
  method Activate(client: Client, plan: Plan)
    returns (activation: Activation, cause: Option<string>, ghost calls: seq<Call>,
             ghost forward: seq<Attempt>, ghost backward: seq<Attempt>)
    requires client.Valid() && Ready(plan, client.store)
    modifies client
    ensures client.Valid() && client.trace == old(client.trace) + calls
    ensures client.log == old(client.log) + forward + backward
    ensures ForwardWrites(plan, old(client.store), forward) && BackwardWrites(plan, backward)
    ensures activation.uuid in {"", CandidateUuid(plan)}
    ensures |calls| == 1 && IsActivation(plan, calls[0]) && calls[0].activation == activation
    ensures cause.None? <==> calls[0].ok
    ensures cause.Some? ==> Wrapped(plan.messages.activate, cause.value)
    ensures forward == [] || (plan.candidate.NewProfile? && |forward| == 1)
    ensures cause.None? ==>
              && activation.uuid == CandidateUuid(plan) && backward == []
              && client.store == WithCandidate(plan, old(client.store)) == Replay(old(client.store), forward)
              && (plan.candidate.NewProfile? ==> |forward| > 0 && forward[0].outcome == Done)
              && calls == [ActivationCall(plan, activation)]
    ensures cause.Some? ==>
              && Untouched(plan, old(client.store), client.store)
              && Unreported(plan, old(client.store), client.store, activation.uuid, forward)
  {
    forward, backward := [], [];
    var failed;
    match plan.candidate {
      case NewProfile(p) =>
        ghost var added;
        activation, failed, added := client.AddAndActivate(p);
        calls := [CandidateActivated(activation, failed.None?)];
        AddedIsForward(plan, old(client.store), added);
        ghost var n := if added == [] then 0 else 1;
        forward, backward := added[..n], added[n..];
        assert added == forward + backward;
        Reassociate(old(client.log), forward, backward);
      case SavedProfile(u) =>
        activation, failed := client.ActivateProfile(u);
        calls := [ProfileActivated(u, activation, failed.None?)];
    }
    cause := if failed.Some? then Some(plan.messages.activate + ": " + failed.value) else None;
  }

  /** Waits for the activation and judges the candidate; nothing durable changes. */
  method Validate(client: Client, plan: Plan, activation: Activation)
    returns (cause: Option<string>, ghost calls: seq<Call>)
    modifies client`trace
    ensures client.trace == old(client.trace) + calls
    ensures forall c :: c in calls ==> Undecided(c) && !c.Finalized?
    ensures Judgement(plan, calls, activation) && (cause.None? <==> Validated(plan, calls, activation))
    ensures cause.Some? ==> Explains(plan.messages, calls, cause.value)
  {
    var waited := client.WaitForActivation(activation.activePath);
    calls := [ActivationAwaited(activation.activePath, waited.None?)];
    if waited.Some? {
      cause := Some(plan.messages.wait + ": " + waited.value);
      return;
    }
    var status, unread := client.ReadStatus();
    calls := calls + [StatusRead(if unread.None? then Some(status) else None)];
    if unread.Some? {
      cause := Some(plan.messages.inspect + ": " + unread.value);
      return;
    }
    ghost var checks := [];
    cause, checks := Accept(client, plan, status, activation);
    calls := calls + checks;
  }

  /** Records the accepted candidate durably and commits the checkpoint. */
  method Conclude(client: Client, plan: Plan)
    returns (cause: Option<string>, ghost calls: seq<Call>, ghost added: seq<Attempt>)
    requires client.Valid() && (plan.role == Infrastructure || plan.role == Standalone)
    modifies client
    ensures client.Valid() && client.trace == old(client.trace) + calls
    ensures Did(old(client.store), client.store, old(client.log), client.log, added)
    ensures Run(ForwardPath(IntentOf(plan)), old(client.store), added) && forall a :: a in added ==> !a.write.Add?
    ensures |calls| > 0 && calls[0].Finalized? && forall i :: 0 < i < |calls| ==> !calls[i].Finalized?
    ensures calls[0] == Finalized(true) ==> Settled(IntentOf(plan), old(client.store), client.store)
    ensures calls[0] == Finalized(false) ==> Unfinished(IntentOf(plan), old(client.store), client.store, added)
    ensures if cause.None? then calls == [Finalized(true), CheckpointCommitted(true)]
            else Unconcluded(calls) && Explains(plan.messages, calls, cause.value)
  {
    var unfinalized;
    unfinalized, added := client.FinalizeTransition(IntentOf(plan));
    calls := [Finalized(unfinalized.None?)];
    if unfinalized.Some? {
      cause := Some(plan.messages.finalize + ": " + unfinalized.value);
      return;
    }
    var uncommitted := client.CommitCheckpoint();
    calls := calls + [CheckpointCommitted(uncommitted.None?)];
    cause := if uncommitted.Some? then Some(plan.messages.commit + ": " + uncommitted.value) else None;
  }

  lemma Reassociate<T>(a: seq<T>, b: seq<T>, c: seq<T>)
    ensures a + b + c == a + (b + c)
  {
  }

  /** Whether the calls finalized, and how that ended. */
  ghost predicate Marks(calls: seq<Call>, finalized: Option<bool>) {
    && (forall c :: c in calls && c.Finalized? ==> finalized == Some(c.ok))
    && (finalized.Some? ==> Finalized(finalized.value) in calls)
  }

  lemma MarksAfter(first: Call, more: seq<Call>, finalized: Option<bool>)
    requires Undecided(first) && !first.Finalized? && Marks(more, finalized)
    ensures Marks([first] + more, finalized)
    ensures (forall c :: c in more ==> Undecided(c)) ==> forall c :: c in [first] + more ==> Undecided(c)
  {
  }

  /** What a finalization that was reached has done to the store. */
  ghost predicate Concluded(t: Intent, s: Store, s': Store, finalized: Option<bool>, added: seq<Attempt>) {
    && (finalized == Some(true) ==> Settled(t, s, s'))
    && (finalized == Some(false) ==> Unfinished(t, s, s', added))
    && (finalized.None? ==> s' == s && added == [])
  }

  /** Judges an activated candidate and, if it is acceptable, makes it durable. */
  method JudgeCandidate(client: Client, plan: Plan, activation: Activation)
    returns (cause: Option<string>, ghost finalized: Option<bool>, ghost calls: seq<Call>, ghost added: seq<Attempt>)
    requires client.Valid() && (plan.role == Infrastructure || plan.role == Standalone)
    modifies client
    ensures client.Valid() && client.trace == old(client.trace) + calls
    ensures Did(old(client.store), client.store, old(client.log), client.log, added)
    ensures Run(ForwardPath(IntentOf(plan)), old(client.store), added) && forall a :: a in added ==> !a.write.Add?
    ensures Marks(calls, finalized) && Concluded(IntentOf(plan), old(client.store), client.store, finalized, added)
    ensures cause.None? ==> finalized == Some(true)
    ensures cause.None? ==> CommittedCalls(plan, [ActivationCall(plan, activation)] + calls, activation)
    ensures cause.Some? ==>
              && (forall c :: c in calls ==> Undecided(c))
              && Unaccomplished(plan, calls, activation) && calls != [] && Explains(plan.messages, calls, cause.value)
  {
    finalized, added := None, [];
    cause, calls := Validate(client, plan, activation);
    if cause.Some? {
      return;
    }
    ghost var judged, last := calls, [];
    cause, last, added := Conclude(client, plan);
    finalized := Some(last[0].ok);
    Reassociate(old(client.trace), judged, last);
    Reassociate([ActivationCall(plan, activation)], judged, last);
    ConcludedAfter(judged, last, finalized.value);
    calls := judged + last;
  }

  lemma ConcludedAfter(judged: seq<Call>, last: seq<Call>, ok: bool)
    requires forall c :: c in judged ==> Undecided(c) && !c.Finalized?
    requires last != [] && last[0] == Finalized(ok) && forall i :: 0 < i < |last| ==> !last[i].Finalized?
    ensures Marks(judged + last, Some(ok)) && (judged + last)[|judged + last| - 1] == last[|last| - 1]
    ensures (forall c :: c in last ==> Undecided(c)) ==> forall c :: c in judged + last ==> Undecided(c)
  {
    var calls := judged + last;
    assert calls[|judged|] == last[0];
    assert forall c :: c in calls <==> c in judged || c in last;
  }

  /** The writes of the finalization: all but the addition of a new candidate. */
  function Finalization(plan: Plan, forward: seq<Attempt>): seq<Attempt> {
    if plan.candidate.NewProfile? && forward != [] then forward[1..] else forward
  }

  /** What a transition that reached its finalization has done to the store by then. */
  ghost predicate Reached(plan: Plan, s: Store, mid: Store, finalized: Option<bool>, forward: seq<Attempt>) {
    && mid == Replay(s, forward)
    && (plan.candidate.NewProfile? ==> forward != [] && forward[0].outcome == Done)
    && Concluded(IntentOf(plan), WithCandidate(plan, s), mid, finalized, Finalization(plan, forward))
  }

  /** A transition that did not reach its finalization has added the candidate at most. */
  ghost predicate NotReached(plan: Plan, s: Store, mid: Store, forward: seq<Attempt>) {
    Untouched(plan, s, mid) && (forward == [] || (plan.candidate.NewProfile? && |forward| == 1))
  }

  lemma ConcludedReaches(plan: Plan, s: Store, now: Store, log: seq<Attempt>, began: seq<Attempt>,
                         added: seq<Attempt>, finalized: Option<bool>)
    requires ForwardWrites(plan, s, began) && WithCandidate(plan, s) == Replay(s, began)
    requires began == [] || (plan.candidate.NewProfile? && |began| == 1)
    requires plan.candidate.NewProfile? ==> |began| == 1 && began[0].outcome == Done
    requires Run(ForwardPath(IntentOf(plan)), Replay(s, began), added) && forall a :: a in added ==> !a.write.Add?
    requires now == Replay(Replay(s, began), added)
    requires Concluded(IntentOf(plan), WithCandidate(plan, s), now, finalized, added)
    ensures ForwardWrites(plan, s, began + added)
    ensures log + began + added == log + (began + added) + []
    ensures finalized.Some? ==> Reached(plan, s, now, finalized, began + added)
    ensures finalized.None? ==> NotReached(plan, s, now, began + added)
  {
    ForwardExtends(plan, s, log, began, added);
    assert Finalization(plan, began + added) == added;
    assert finalized.None? ==> began + added == began;
  }

  /** A failed attempt: undecided calls that give the reason, and a cause that names the step. */
  ghost predicate Failing(plan: Plan, calls: seq<Call>, activation: Activation, cause: string) {
    && BrokenOff(plan, calls) && calls[0].activation == activation && Explains(plan.messages, calls, cause)
    && forall c :: c in calls ==> Undecided(c)
  }

  /** Everything between the checkpoint and its commit. A failure is returned as the cause
      the caller rolls back with. */
  method TryCandidate(client: Client, plan: Plan)
    returns (activation: Activation, cause: Option<string>, ghost finalized: Option<bool>, ghost calls: seq<Call>,
             ghost forward: seq<Attempt>, ghost backward: seq<Attempt>)
    requires client.Valid() && Ready(plan, client.store)
    modifies client
    ensures client.Valid() && client.trace == old(client.trace) + calls
    ensures client.log == old(client.log) + forward + backward
    ensures ForwardWrites(plan, old(client.store), forward) && BackwardWrites(plan, backward)
    ensures activation.uuid in {"", CandidateUuid(plan)}
    ensures cause.None? ==> CommittedCalls(plan, calls, activation) && finalized == Some(true)
    ensures cause.Some? ==> Failing(plan, calls, activation, cause.value)
    ensures Marks(calls, finalized)
    ensures finalized.Some? ==>
              && activation.uuid == CandidateUuid(plan) && backward == []
              && Reached(plan, old(client.store), client.store, finalized, forward)
    ensures finalized.None? ==>
              && NotReached(plan, old(client.store), client.store, forward)
              && Unreported(plan, old(client.store), client.store, activation.uuid, forward)
  {
    finalized := None;
    activation, cause, calls, forward, backward := Activate(client, plan);
    if cause.Some? {
      return;
    }
    ghost var first, more, began, added := calls, [], forward, [];
    assert client.log == old(client.log) + began;
    cause, finalized, more, added := JudgeCandidate(client, plan, activation);
    forward := began + added;
    ConcludedReaches(plan, old(client.store), client.store, old(client.log), began, added, finalized);
    Reassociate(old(client.trace), first, more);
    MarksAfter(first[0], more, finalized);
    assert ([first[0]] + more)[1..] == more;
    calls := [first[0]] + more;
  }

  /** The account of one transition: its calls and durable writes in order, how its
      finalization ended if it was reached, and for a failed one the cause and, if it was
      rolled back, what the rollback reported. */
  datatype Account = Account(
    calls: seq<Call>,
    forward: seq<Attempt>,
    backward: seq<Attempt>,
    finalized: Option<bool>,
    cause: string,
    report: Option<Report>)

  /** Success: accepted, then finalized, then committed, with nothing rolled back. */
  ghost predicate CommittedAccount(plan: Plan, s: Store, s': Store, activation: Activation, a: Account) {
    && a.report.None? && a.backward == [] && a.finalized == Some(true)
    && |a.calls| > 0 && a.calls[0] == CheckpointCreated(true) && CommittedCalls(plan, a.calls[1..], activation)
    && activation.uuid == CandidateUuid(plan)
    && Reached(plan, s, s', a.finalized, a.forward)
  }

  /** No checkpoint: nothing else was called and nothing changed. */
  ghost predicate UnprotectedAccount(plan: Plan, s: Store, s': Store, err: string, a: Account) {
    && a.report.None? && a.calls == [CheckpointCreated(false)] && a.finalized.None?
    && a.forward == [] && a.backward == [] && s' == s
    && err == plan.messages.checkpoint + ": " + a.cause
  }

  /** The calls of a rejected transition. */
  ghost predicate RejectedCalls(plan: Plan, a: Account, tried: seq<Call>, back: seq<Call>)
    requires a.report.Some?
  {
    && a.calls == [CheckpointCreated(true)] + tried + back
    && BrokenOff(plan, tried) && Explains(plan.messages, tried, a.cause) && (forall c :: c in tried ==> Undecided(c))
    && RollbackCalls(plan, tried[0].activation.uuid, back, a.report.value) && Marks(tried, a.finalized)
  }

  /** Rejection: one rollback after undecided calls, and the error text of its report. What was
      finalized stays, but for a new candidate that was removed; if nothing was, pre-existing
      profiles are untouched, and nothing is left behind but a stray. */
  ghost predicate RejectedAccount(plan: Plan, s: Store, s': Store, err: string, a: Account) {
    && a.report.Some? && (exists tried, back :: RejectedCalls(plan, a, tried, back))
    && err == FailureText(plan.messages, a.cause, a.report.value)
    && (a.finalized.Some? ==>
         && Reached(plan, s, Replay(s, a.forward), a.finalized, a.forward)
         && AfterRollback(plan, Replay(s, a.forward), s', a.report.value))
    && (a.finalized.None? ==>
         && NotReached(plan, s, s', a.forward)
         && (Stray(plan, a.forward) ==> s' == WithCandidate(plan, s))
         && (a.report.value.rollback.None? && a.report.value.rejected.None? && !Stray(plan, a.forward) ==> s' == s))
  }

  lemma WithoutFirst<T>(x: T, rest: seq<T>)
    ensures ([x] + rest)[0] == x && ([x] + rest)[1..] == rest
  {
  }

  /** The store after an unfinalized transition was rolled back. */
  lemma UnfinalizedRolledBack(plan: Plan, s: Store, mid: Store, s': Store, uuid: Uuid, forward: seq<Attempt>, report: Report)
    requires Ready(plan, s) && NotReached(plan, s, mid, forward) && Unreported(plan, s, mid, uuid, forward)
    requires if uuid == "" then s' == mid else AfterRollback(plan, mid, s', report)
    ensures NotReached(plan, s, s', forward) && (Stray(plan, forward) ==> s' == WithCandidate(plan, s))
    ensures report.rollback.None? && report.rejected.None? && !Stray(plan, forward) ==> s' == s
  {
    if plan.candidate.NewProfile? {
      assert s[CandidateUuid(plan) := plan.candidate.profile] - {CandidateUuid(plan)} == s;
      assert s - {CandidateUuid(plan)} == s;
    }
  }

  /** Rolls back a transition that failed after its checkpoint, and accounts for all of it. */
  method Reject(client: Client, plan: Plan, activation: Activation, cause: string, patience: nat, ghost s: Store,
                ghost tried: seq<Call>, ghost forward: seq<Attempt>, ghost backward: seq<Attempt>,
                ghost finalized: Option<bool>)
    returns (err: string, ghost account: Account, ghost back: seq<Call>, ghost removal: seq<Attempt>)
    requires client.Valid() && Ready(plan, s) && activation.uuid in {"", CandidateUuid(plan)}
    requires Failing(plan, tried, activation, cause) && Marks(tried, finalized) && BackwardWrites(plan, backward)
    requires finalized.Some? ==>
               activation.uuid == CandidateUuid(plan) && Reached(plan, s, client.store, finalized, forward)
    requires finalized.None? ==>
               NotReached(plan, s, client.store, forward) &&
               Unreported(plan, s, client.store, activation.uuid, forward)
    modifies client
    ensures client.Valid() && client.trace == old(client.trace) + back && client.log == old(client.log) + removal
    ensures account.calls == [CheckpointCreated(true)] + tried + back
    ensures account.forward == forward && account.backward == backward + removal
    ensures BackwardWrites(plan, account.backward) && RejectedAccount(plan, s, client.store, err, account)
  {
    ghost var mid := client.store;
    var report;
    err, report, back, removal := RollbackTransition(client, plan, activation.uuid, cause, patience);
    account := Account([CheckpointCreated(true)] + tried + back, forward, backward + removal, finalized, cause,
                       Some(report));
    assert RejectedCalls(plan, account, tried, back);
    if finalized.None? {
      UnfinalizedRolledBack(plan, s, mid, client.store, activation.uuid, forward, report);
    } else {
      CandidateIsNamed(plan);
    }
  }

  lemma CandidateIsNamed(plan: Plan)
    requires Canonical(CandidateUuid(plan))
    ensures CandidateUuid(plan) != ""
  {
  }

  /** Creates a checkpoint, tries the candidate, and on any failure after the checkpoint
      rolls back once. `patience` is how many polls fit before the restoration deadline. */
  method RunTransition(client: Client, plan: Plan, patience: nat)
    returns (activation: Activation, err: Option<string>, ghost account: Account)
    requires client.Valid() && Ready(plan, client.store)
    modifies client
    ensures client.Valid() && client.trace == old(client.trace) + account.calls
    ensures client.log == old(client.log) + account.forward + account.backward
    ensures ForwardWrites(plan, old(client.store), account.forward) && BackwardWrites(plan, account.backward)
    ensures err.None? ==> CommittedAccount(plan, old(client.store), client.store, activation, account)
    ensures err.Some? ==> activation == NO_ACTIVATION
    ensures err.Some? ==>
              UnprotectedAccount(plan, old(client.store), client.store, err.value, account) ||
              RejectedAccount(plan, old(client.store), client.store, err.value, account)
  {
    var unprotected := client.CreateCheckpoint();
    if unprotected.Some? {
      account := Account([CheckpointCreated(false)], [], [], None, unprotected.value, None);
      activation, err := NO_ACTIVATION, Some(plan.messages.checkpoint + ": " + unprotected.value);
      return;
    }
    ghost var s, trace, log := client.store, old(client.trace), client.log;
    ghost var finalized, tried, forward, backward;
    var cause;
    activation, cause, finalized, tried, forward, backward := TryCandidate(client, plan);
    Reassociate(trace, [CheckpointCreated(true)], tried);
    if cause.None? {
      err := None;
      account := Account([CheckpointCreated(true)] + tried, forward, backward, finalized, "", None);
      WithoutFirst(CheckpointCreated(true), tried);
      return;
    }
    ghost var back, removal;
    var text;
    text, account, back, removal :=
      Reject(client, plan, activation, cause.value, patience, s, tried, forward, backward, finalized);
    Reassociate(trace, [CheckpointCreated(true)] + tried, back);
    Reassociate(log + forward, backward, removal);
    activation, err := NO_ACTIVATION, Some(text);
  }
}
