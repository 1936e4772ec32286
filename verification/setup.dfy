/** What the setup page's requests do to the network: a protected transition first, and only
    after it has been committed the exit from captive mode. */
module Setup {
  import opened Text
  import opened Profiles
  import opened NetworkManager
  import opened Recovery
  import opened Addresses
  import opened Attempts
  import opened Classification
  import Captive
  import Settings

  datatype Failure =
    | ModeUnavailable
    | ConnectionUnknown
    | NetworkNotFound
    | ActiveNetwork
    | NetworkReadOnly
    | Unavailable(text: string)
    | TransitionFailed(code: Code)
    | CleanupFailed
    | Panicked

  predicate UsableText(text: string) {
    ParseIPv4(text).Some? && ParseIPv4(text).value != [0, 0, 0, 0]
  }

  /** There is a connection to come back to exactly when the status could be read and shows an
      activated device with a usable address; then it is live in that status. */
  ghost predicate ComesBackTo(status: Option<Status>, previous: Option<(Uuid, IPv4)>) {
    && (previous.Some? <==>
         && status.Some? && status.value.state == ACTIVATED && status.value.activeUuid != ""
         && exists a :: a in status.value.addresses && UsableText(a))
    && (previous.Some? ==>
         ConnectionActive(status.value, previous.value.0, previous.value.1) && previous.value.1 != [0, 0, 0, 0])
  }

  /** A request reads the status first and keeps the connection it shows. */
  ghost predicate ReadFirst(before: seq<Call>, after: seq<Call>, previous: Option<(Uuid, IPv4)>) {
    exists status :: before + [StatusRead(status)] <= after && ComesBackTo(status, previous)
  }

  /** The connection to come back to: the active profile and its first usable address. */
  method PreviousConnection(status: Status) returns (previous: Option<(Uuid, IPv4)>)
    ensures ComesBackTo(Some(status), previous)
  {
    if status.state != ACTIVATED || status.activeUuid == "" {
      return None;
    }
    for n := 0 to |status.addresses|
      invariant forall i :: 0 <= i < n ==> !UsableText(status.addresses[i])
    {
      var parsed := ParseIPv4(status.addresses[n]);
      if parsed.Some? && parsed.value != [0, 0, 0, 0] {
        assert UsableText(status.addresses[n]);
        return Some((status.activeUuid, parsed.value));
      }
    }
    return None;
  }

  /** Writes that add no temporary profile and do not touch `u` through an addition leave `u`
      as temporary as it was. */
  lemma {:induction false} StaysTemporary(iface: string, s: Store, log: seq<Attempt>, u: Uuid)
    requires forall a :: a in log && a.write.Add? ==> !Captive.Temporary(a.write.profile, iface) && a.write.profile.uuid != u
    ensures u in Replay(s, log) ==>
              u in s && (Captive.Temporary(Replay(s, log)[u], iface) <==> Captive.Temporary(s[u], iface))
  {
    if log != [] {
      StaysTemporary(iface, s, log[..|log| - 1], u);
    }
  }

  /** A transition adds its candidate at most, and a candidate is never temporary. */
  lemma TransitionAdds(plan: Plan, s: Store, forward: seq<Attempt>, backward: seq<Attempt>, a: Attempt)
    requires Ready(plan, s) && ForwardWrites(plan, s, forward) && BackwardWrites(plan, backward)
    requires a in forward + backward && a.write.Add?
    ensures !Captive.Temporary(a.write.profile, plan.iface) && a.write.profile.uuid == CandidateUuid(plan)
    ensures plan.candidate.NewProfile?
  {
    if a in forward {
      var i :| 0 <= i < |forward| && forward[i] == a;
    }
  }

  /** So a transition that runs while captive mode is active adds nothing the ledger would have
      to record, and what the ledger records stays deletable. */
  lemma LedgerSurvives(plan: Plan, s: Store, forward: seq<Attempt>, backward: seq<Attempt>, l: Captive.Ledger)
    requires Ready(plan, s) && ForwardWrites(plan, s, forward) && BackwardWrites(plan, backward)
    requires plan.candidate.NewProfile? ==> l.profile != Some(CandidateUuid(plan))
    ensures Captive.Strays(l, Replay(s, forward + backward), plan.iface) <= Captive.Strays(l, s, plan.iface)
    ensures var now := Replay(s, forward + backward);
            l.profile.Some? && l.profile.value in now ==>
              l.profile.value in s &&
              (Captive.Temporary(now[l.profile.value], plan.iface) <==> Captive.Temporary(s[l.profile.value], plan.iface))
  {
    forall a | a in forward + backward && a.write.Add?
      ensures !Captive.Temporary(a.write.profile, plan.iface) && a.write.profile.uuid == CandidateUuid(plan)
      ensures plan.candidate.NewProfile?
    {
      TransitionAdds(plan, s, forward, backward, a);
    }
    Captive.OthersKeepLedger(l, plan.iface, s, forward + backward);
    if l.profile.Some? {
      StaysTemporary(plan.iface, s, forward + backward, l.profile.value);
    }
  }

  lemma StoreAfter(origin: Store, log: seq<Attempt>, forward: seq<Attempt>, backward: seq<Attempt>)
    ensures Replay(origin, log + forward + backward) == Replay(Replay(origin, log), forward + backward)
  {
    Reassociate(log, forward, backward);
    ReplayAppend(origin, log, forward + backward);
  }

  /** What a request asks of the transition it starts. */
  datatype Order = Order(
    iface: string,
    role: Role,
    ssid: string,
    acceptance: Option<Acceptance>,
    previous: (Uuid, IPv4))

  ghost predicate PlannedFor(plan: Plan, order: Order) {
    && plan.iface == order.iface && plan.role == order.role && plan.ssid == order.ssid
    && order.acceptance == Some(plan.acceptance)
    && plan.previousUuid == order.previous.0 && plan.previousAddress == order.previous.1
  }

  function Policy(requirement: string): Option<Acceptance> {
    match ParseRequirement(requirement)
    case Some(r) => Some(MeetsPolicy(r))
    case None => None
  }

  /** The access point must come up under its own address. */
  function OwnAddress(address: string): Option<Acceptance> {
    match ParseStrictPrefix(address)
    case Some(prefix) => Some(HasAddress(prefix.address))
    case None => None
  }

  lemma InfrastructurePlanFits(iface: string, c: Settings.InfrastructureOptions, requirement: string, t: Timing,
                               generated: Uuid)
    requires InfrastructureError(iface, c, requirement, t, generated).None? && c.uuid == ""
    ensures var plan := InfrastructurePlan(iface, c, requirement, t, generated);
            && plan.candidate.NewProfile? && CandidateUuid(plan) == generated
            && PlannedFor(plan, Order(iface, Infrastructure, c.ssid, Policy(requirement),
                                      (t.previousUuid, t.previousAddress.value)))
  {
    InfrastructureBuilt(iface, c, requirement, t, generated);
  }

  /** How an attempt went: refused before anything was touched, or run as planned. */
  ghost predicate Ran(plan: Option<Plan>, order: Order, s: Store, s': Store, err: Option<string>, account: Account) {
    && (plan.None? ==> err.Some? && account == NO_ACCOUNT && s' == s)
    && (plan.Some? ==>
         && Ready(plan.value, s) && PlannedFor(plan.value, order)
         && exists activation :: Attempted(plan.value, s, s', activation, err, account))
  }

  /** Runs the protected transition to a new network, or refuses its options. */
  method AttemptNew(client: Client, iface: string, c: Settings.InfrastructureOptions, requirement: string, t: Timing,
                    generated: Uuid, patience: nat)
    returns (err: Option<string>, ghost plan: Option<Plan>, ghost account: Account)
    requires client.Valid() && c.uuid == "" && Fresh("", generated, client.store) && t.previousAddress.Some?
    modifies client
    ensures client.Valid() && client.log == old(client.log) + account.forward + account.backward
    ensures client.trace == old(client.trace) + account.calls
    ensures Ran(plan, Order(iface, Infrastructure, c.ssid, Policy(requirement), (t.previousUuid, t.previousAddress.value)),
                old(client.store), client.store, err, account)
    ensures plan.Some? ==> CandidateUuid(plan.value) == generated
    ensures plan.None? <==> InfrastructureError(iface, c, requirement, t, generated).Some?
    ensures plan.None? ==> err == InfrastructureError(iface, c, requirement, t, generated)
  {
    ghost var s := client.store;
    plan := None;
    var activation;
    activation, err, account := AttemptInfrastructure(client, iface, c, requirement, t, generated, patience);
    if InfrastructureError(iface, c, requirement, t, generated).None? {
      InfrastructureIsReady(iface, c, requirement, t, generated, s);
      InfrastructurePlanFits(iface, c, requirement, t, generated);
      plan := Some(InfrastructurePlan(iface, c, requirement, t, generated));
    }
  }

  lemma StandalonePlanFits(iface: string, c: Settings.AccessPointOptions, t: Timing, generated: Uuid)
    requires StandaloneError(iface, c, t, generated).None? && c.uuid == ""
    requires ParseStrictPrefix(c.address).Some?
    ensures var plan := StandalonePlan(iface, c, t, generated);
            && plan.candidate.NewProfile? && CandidateUuid(plan) == generated
            && PlannedFor(plan, Order(iface, Standalone, c.ssid, OwnAddress(c.address),
                                      (t.previousUuid, t.previousAddress.value)))
  {
    StandaloneBuilt(iface, c, t, generated);
  }

  /** Runs the protected transition to the configured access point, refuses its options, or
      panics on its address. */
  method AttemptAccessPoint(client: Client, iface: string, c: Settings.AccessPointOptions, t: Timing, generated: Uuid,
                            patience: nat)
    returns (err: Option<string>, panicked: bool, ghost plan: Option<Plan>, ghost account: Account)
    requires client.Valid() && c.uuid == "" && Fresh("", generated, client.store) && t.previousAddress.Some?
    modifies client
    ensures client.Valid() && client.log == old(client.log) + account.forward + account.backward
    ensures client.trace == old(client.trace) + account.calls
    ensures panicked <==> Panics(iface, c, t, generated)
    ensures panicked ==> plan.None? && client.store == old(client.store) && account == NO_ACCOUNT
    ensures !panicked ==>
              Ran(plan, Order(iface, Standalone, c.ssid, OwnAddress(c.address), (t.previousUuid, t.previousAddress.value)),
                  old(client.store), client.store, err, account)
    ensures plan.Some? ==> CandidateUuid(plan.value) == generated
    ensures plan.Some? <==> !panicked && StandaloneError(iface, c, t, generated).None?
    ensures plan.None? ==> err == StandaloneError(iface, c, t, generated)
  {
    ghost var s := client.store;
    plan := None;
    var activation;
    activation, err, panicked, account := AttemptStandalone(client, iface, c, t, generated, patience);
    if !panicked && StandaloneError(iface, c, t, generated).None? {
      StandaloneIsReady(iface, c, t, generated, s);
      StandalonePlanFits(iface, c, t, generated);
      plan := Some(StandalonePlan(iface, c, t, generated));
    }
  }

  /** Runs the protected transition to a saved network. */
  method AttemptKnown(client: Client, iface: string, p: Profile, requirement: string, t: Timing, patience: nat)
    returns (err: Option<string>, ghost plan: Option<Plan>, ghost account: Account)
    requires client.Valid() && Canonical(p.uuid) && p.uuid in client.store && client.store[p.uuid] == p
    requires p.owned && p.role == Infrastructure && p.iface == iface && t.previousAddress.Some?
    modifies client
    ensures client.Valid() && client.log == old(client.log) + account.forward + account.backward
    ensures client.trace == old(client.trace) + account.calls
    ensures Ran(plan, Order(iface, Infrastructure, p.ssid, Policy(requirement), (t.previousUuid, t.previousAddress.value)),
                old(client.store), client.store, err, account)
    ensures plan.Some? ==> plan.value.candidate == SavedProfile(p.uuid)
    ensures plan.None? <==> SavedError(iface, p.uuid, p.ssid, requirement, t).Some?
    ensures plan.None? ==> err == SavedError(iface, p.uuid, p.ssid, requirement, t)
  {
    plan := None;
    var activation;
    activation, err, account := AttemptSaved(client, iface, p.uuid, p.ssid, requirement, t, patience);
    if SavedError(iface, p.uuid, p.ssid, requirement, t).None? {
      plan := Some(SavedPlan(iface, p.uuid, p.ssid, requirement, t));
    }
  }

  class Backend {
    const client: Client
    const manager: Captive.Manager
    const iface: string
    const requirement: string
    const activationWait: int
    const rollbackAfter: int
    const restorationWait: int
    const fold: char -> char
    const standaloneEnabled: bool

    ghost predicate Sound()
      reads manager, manager.session, manager.platform, client
    {
      manager.platform.client == client && manager.options.iface == iface && manager.Sound()
    }

    constructor (manager: Captive.Manager, requirement: string, activationWait: int, rollbackAfter: int,
                 restorationWait: int, fold: char -> char, standaloneEnabled: bool)
      requires manager.Sound()
      ensures Sound() && this.manager == manager && this.client == manager.platform.client
      ensures this.iface == manager.options.iface && this.requirement == requirement && this.fold == fold
      ensures this.standaloneEnabled == standaloneEnabled && this.activationWait == activationWait
      ensures this.rollbackAfter == rollbackAfter && this.restorationWait == restorationWait
    {
      this.client, this.manager, this.iface := manager.platform.client, manager, manager.options.iface;
      this.requirement, this.fold, this.standaloneEnabled := requirement, fold, standaloneEnabled;
      this.activationWait, this.rollbackAfter, this.restorationWait := activationWait, rollbackAfter, restorationWait;
    }

    function Times(previous: (Uuid, IPv4)): Timing {
      Timing(activationWait, rollbackAfter, restorationWait, previous.0, Some(previous.1))
    }

    /** Leaves captive mode after the network has changed. */
    method ExitCaptive() returns (failure: Option<Failure>)
      requires Sound()
      modifies manager, manager.platform, client
      modifies if manager.session == null then {} else {manager.session}
      ensures Sound() && !manager.active && manager.Others() == old(manager.Others())
      ensures manager.Unrecorded() == old(manager.Unrecorded()) && old(client.trace) <= client.trace
      ensures failure == if manager.Owes() == Captive.NOTHING then None else Some(CleanupFailed)
      ensures failure.None? ==> (manager.NothingRemains() <==> old(manager.Unrecorded()) == {})
    {
      var err;
      ghost var r;
      err, r := manager.LeaveProvisioning();
      failure := if err.Some? then Some(CleanupFailed) else None;
    }

    /** The connection a transition would come back to. */
    method Current() returns (previous: Option<(Uuid, IPv4)>)
      requires Sound()
      modifies client`trace
      ensures Sound()
      ensures exists status :: client.trace == old(client.trace) + [StatusRead(status)] && ComesBackTo(status, previous)
    {
      var status, failed := client.ReadStatus();
      if failed.Some? {
        assert ComesBackTo(None, None);
        return None;
      }
      previous := PreviousConnection(status);
      assert client.trace == old(client.trace) + [StatusRead(Some(status))];
    }

    /** What follows an attempt: a failure is classified and captive mode stays up for another
        try; after a commit captive mode is left. */
    method Conclude(err: Option<string>) returns (failure: Option<Failure>)
      requires Sound()
      modifies manager, manager.platform, client
      modifies if manager.session == null then {} else {manager.session}
      ensures Sound() && manager.Others() == old(manager.Others())
      ensures manager.Unrecorded() == old(manager.Unrecorded()) && old(client.trace) <= client.trace
      ensures err.Some? ==>
                && failure == Some(TransitionFailed(Classify(fold, err.value)))
                && manager.Owes() == old(manager.Owes()) && manager.active == old(manager.active)
                && client.store == old(client.store)
      ensures err.None? ==>
                && !manager.active && failure == (if manager.Owes() == Captive.NOTHING then None else Some(CleanupFailed))
                && (failure.None? ==> (manager.NothingRemains() <==> manager.Unrecorded() == {}))
    {
      if err.Some? {
        return Some(TransitionFailed(Classify(fold, err.value)));
      }
      failure := ExitCaptive();
    }

    /** The temporary profiles that the ledger does not record, in a given store. */
    ghost function StraysIn(s: Store): set<Uuid>
      reads manager, manager.session
    {
      Captive.Strays(manager.Owes(), s, iface)
    }

    /** Everything Sound says except for the client's own bookkeeping, against a given store. */
    ghost predicate SoundAgainst(s: Store)
      reads manager, manager.session, manager.platform
    {
      && manager.platform.client == client && manager.options.iface == iface
      && (manager.session != null ==>
           && manager.session.platform == manager.platform && manager.session.iface == iface
           && manager.session.Deletable(s) && manager.session.Owes() != Captive.NOTHING)
      && Captive.Records(manager.Owes(), manager.platform.dns, manager.platform.table)
      && (manager.active ==> manager.Owes().redirect && manager.Owes().profile.Some? && manager.Owes().dns)
    }

    /** A transition that runs between two captive steps leaves the manager sound. */
    lemma StillSound(plan: Plan, log: seq<Attempt>, s: Store, account: Account)
      requires client.Valid() && plan.iface == iface && Ready(plan, s)
      requires s == Replay(client.origin, log) && client.log == log + account.forward + account.backward
      requires ForwardWrites(plan, s, account.forward) && BackwardWrites(plan, account.backward)
      requires SoundAgainst(s)
      requires plan.candidate.NewProfile? ==> manager.Owes().profile != Some(CandidateUuid(plan))
      ensures Sound() && manager.Unrecorded() <= StraysIn(s)
    {
      StoreAfter(client.origin, log, account.forward, account.backward);
      LedgerSurvives(plan, s, account.forward, account.backward, manager.Owes());
    }

    /** The network changed as the plan says, and captive mode is over; `mid` is the store
        between the commit and the exit. */
    ghost predicate Switched(plan: Option<Plan>, mid: Store)
      reads manager, manager.platform, client
    {
      && plan.Some? && !manager.active && manager.platform.client == client && manager.options.iface == iface
      && manager.Others() == Captive.Permanent(mid, iface)
    }

    /** What every request promises, whichever way it ends, given the store, the ledger, the
        profiles the ledger missed and the mode before it. The attempt, if there was one, is
        accounted for; captive mode is left exactly after it has succeeded, and the request
        succeeds exactly if nothing is owed then; a failed transition leaves captive mode as it
        was and is classified. */
    ghost predicate Answered(failure: Option<Failure>, err: Option<string>, plan: Option<Plan>, mid: Store,
                             account: Account, s: Store, owed: Captive.Ledger, missed: set<Uuid>, active: bool)
      reads manager, manager.session, manager.platform, manager.platform.client, client
    {
      && manager.Unrecorded() <= missed
      && (plan.Some? ==> exists activation :: Attempted(plan.value, s, mid, activation, err, account))
      && (err.Some? <==> failure.Some? && failure.value.TransitionFailed?)
      && (err.Some? ==> failure.value.code == Classify(fold, err.value))
      && (plan.Some? && err.None? <==> failure.None? || failure == Some(CleanupFailed))
      && (failure.None? || failure == Some(CleanupFailed) ==>
           Switched(plan, mid) && (failure.None? <==> manager.Owes() == Captive.NOTHING))
      && (failure.None? ==> (manager.NothingRemains() <==> manager.Unrecorded() == {}))
      && (failure.Some? && failure != Some(CleanupFailed) ==> manager.Owes() == owed && manager.active == active)
      && (plan.None? ==> client.store == s)
    }

    /** An attempt has ended, and the manager has not been told: `s` and `log` are from before it. */
    ghost predicate Midway(plan: Option<Plan>, order: Order, log: seq<Attempt>, s: Store, err: Option<string>,
                           account: Account)
      reads manager, manager.session, manager.platform, client
    {
      && client.Valid() && SoundAgainst(s) && s == Replay(client.origin, log) && order.iface == iface
      && client.log == log + account.forward + account.backward
      && Ran(plan, order, s, client.store, err, account)
      && (plan.Some? && plan.value.candidate.NewProfile? ==> manager.Owes().profile != Some(CandidateUuid(plan.value)))
    }

    /** The common end of all three requests, after the attempt. */
    method Settle(err: Option<string>, ghost plan: Option<Plan>, ghost order: Order, ghost log: seq<Attempt>,
                  ghost s: Store, ghost account: Account)
      returns (failure: Option<Failure>)
      requires Midway(plan, order, log, s, err, account)
      modifies manager, manager.platform, client
      modifies if manager.session == null then {} else {manager.session}
      ensures Sound() && old(client.trace) <= client.trace
      ensures Answered(failure, err, plan, old(client.store), account, s, old(manager.Owes()), old(StraysIn(s)),
                       old(manager.active))
      ensures failure.None? || failure == Some(CleanupFailed) || failure.value.TransitionFailed?
    {
      if plan.Some? {
        StillSound(plan.value, log, s, account);
      }
      failure := Conclude(err);
    }

    /** What is said of the connection to come back to: the status read decides whether the
        request gets anywhere, and the transition is planned for it. */
    ghost predicate Grounded(before: seq<Call>, failure: Option<Failure>, plan: Option<Plan>, role: Role, ssid: string,
                             acceptance: Option<Acceptance>, previous: Option<(Uuid, IPv4)>)
      reads client
    {
      && ReadFirst(before, client.trace, previous)
      && (failure == Some(ConnectionUnknown) <==> previous.None?)
      && (previous.None? ==> plan.None?)
      && (plan.Some? ==> PlannedFor(plan.value, Order(iface, role, ssid, acceptance, previous.value)))
    }

    lemma ReadStays(before: seq<Call>, read: seq<Call>, after: seq<Call>, previous: Option<(Uuid, IPv4)>)
      requires exists status :: read == before + [StatusRead(status)] && ComesBackTo(status, previous)
      requires read <= after
      ensures ReadFirst(before, after, previous)
    {
    }

    /** The same for an attempt that may have panicked before it touched anything. */
    method SettleUnlessPanicked(err: Option<string>, panicked: bool, ghost plan: Option<Plan>, ghost order: Order,
                                ghost log: seq<Attempt>, ghost s: Store, ghost account: Account)
      returns (failure: Option<Failure>)
      requires if panicked then Sound() && plan.None? && client.store == s
               else Midway(plan, order, log, s, err, account)
      modifies manager, manager.platform, client
      modifies if manager.session == null then {} else {manager.session}
      ensures Sound() && old(client.trace) <= client.trace
      ensures Answered(failure, if panicked then None else err, plan, old(client.store), account, s, old(manager.Owes()),
                       old(StraysIn(s)), old(manager.active))
      ensures failure == Some(Panicked) <==> panicked
      ensures failure.None? || failure in {Some(CleanupFailed), Some(Panicked)} || failure.value.TransitionFailed?
    {
      if panicked {
        return Some(Panicked);
      }
      failure := Settle(err, plan, order, log, s, account);
    }

    /** A network from the setup page, with nothing but what its user gave. */
    function Requested(ssid: string, password: string, open: bool, hidden: bool): (c: Settings.InfrastructureOptions)
      ensures c.ssid == ssid && c.password == password && c.open == open && c.hidden == hidden
      ensures c.uuid == c.id == "" && c.priority == 0
    {
      Settings.InfrastructureOptions("", "", "", ssid, password, open, hidden, false, 0, false)
    }

    method RunNew(c: Settings.InfrastructureOptions, current: (Uuid, IPv4), generated: Uuid, patience: nat)
      returns (err: Option<string>, ghost plan: Option<Plan>, ghost account: Account)
      requires Sound() && SoundAgainst(client.store)
      requires c.uuid == "" && Fresh("", generated, client.store) && manager.Owes().profile != Some(generated)
      modifies client
      ensures Midway(plan, Order(iface, Infrastructure, c.ssid, Policy(requirement), current), old(client.log),
                     old(client.store), err, account)
      ensures client.trace == old(client.trace) + account.calls
      ensures plan.None? ==> err.Some? && err == InfrastructureError(iface, c, requirement, Times(current), generated)
    {
      err, plan, account := AttemptNew(client, iface, c, requirement, Times(current), generated, patience);
    }

    /** The attempt to move to a new network from a known connection, and what follows it. */
    method MoveToNew(c: Settings.InfrastructureOptions, current: (Uuid, IPv4), generated: Uuid, patience: nat)
      returns (failure: Option<Failure>, ghost err: Option<string>, ghost plan: Option<Plan>, ghost mid: Store,
               ghost account: Account)
      requires Sound() && c.uuid == "" && Fresh("", generated, client.store) && manager.Owes().profile != Some(generated)
      modifies manager, manager.platform, client
      modifies if manager.session == null then {} else {manager.session}
      ensures Sound() && old(client.trace) <= client.trace
      ensures Answered(failure, err, plan, mid, account, old(client.store), old(manager.Owes()),
                       old(manager.Unrecorded()), old(manager.active))
      ensures failure.None? || failure == Some(CleanupFailed) || failure.value.TransitionFailed?
      ensures plan.Some? ==> PlannedFor(plan.value, Order(iface, Infrastructure, c.ssid, Policy(requirement), current))
      ensures plan.None? ==> err.Some? && err == InfrastructureError(iface, c, requirement, Times(current), generated)
    {
      ghost var log, s := client.log, client.store;
      assert SoundAgainst(s) && StraysIn(s) == manager.Unrecorded();
      var failed;
      failed, plan, account := RunNew(c, current, generated, patience);
      err, mid := failed, client.store;
      failure := Settle(failed, plan, Order(iface, Infrastructure, c.ssid, Policy(requirement), current), log, s, account);
    }

    /** Connects to a new network; `previous` is the connection that was read first. */
    method Connect(ssid: string, password: string, open: bool, hidden: bool, generated: Uuid, patience: nat)
      returns (failure: Option<Failure>, ghost err: Option<string>, ghost plan: Option<Plan>, ghost mid: Store,
               ghost account: Account, ghost previous: Option<(Uuid, IPv4)>)
      requires Sound() && Fresh("", generated, client.store) && manager.Owes().profile != Some(generated)
      modifies manager, manager.platform, client
      modifies if manager.session == null then {} else {manager.session}
      ensures Sound()
      ensures Answered(failure, err, plan, mid, account, old(client.store), old(manager.Owes()),
                       old(manager.Unrecorded()), old(manager.active))
      ensures Grounded(old(client.trace), failure, plan, Infrastructure, ssid, Policy(requirement), previous)
      ensures previous.Some? && plan.None? ==>
                err.Some? && err == InfrastructureError(iface, Requested(ssid, password, open, hidden), requirement,
                                                        Times(previous.value), generated)
    {
      err, plan, mid, account := None, None, client.store, NO_ACCOUNT;
      var current := Current();
      previous := current;
      ghost var read := client.trace;
      if current.None? {
        failure := Some(ConnectionUnknown);
      } else {
        failure, err, plan, mid, account :=
          MoveToNew(Requested(ssid, password, open, hidden), current.value, generated, patience);
      }
      ReadStays(old(client.trace), read, client.trace, previous);
    }

    predicate Manages(p: Profile) {
      p.owned && p.role == Infrastructure && p.iface == iface && IsInfrastructureWiFi(p)
    }

    /** Why a saved profile cannot be connected to, given the status and the profile of that UUID. */
    function KnownFailure(uuid: Uuid, s: Store, status: Status): Option<Failure> {
      if uuid !in s then Some(NetworkNotFound)
      else if uuid == status.activeUuid then Some(ActiveNetwork)
      else if !Manages(s[uuid]) then Some(NetworkReadOnly)
      else None
    }

    /** The saved profile a request names, if onboardd may connect to it. */
    method KnownProfile(uuid: Uuid)
      returns (found: Option<(Profile, Status)>, failure: Option<Failure>, ghost status: Option<Status>)
      requires Sound()
      modifies client`trace, client`replies
      ensures Sound() && (found.None? <==> failure.Some?)
      ensures client.trace == old(client.trace) + [StatusRead(status)]
      ensures status.None? || !AllAnswered(old(client.replies), client.replies) ==>
                failure.Some? && failure.value.Unavailable?
      ensures status.Some? && AllAnswered(old(client.replies), client.replies) ==>
                failure == KnownFailure(uuid, client.store, status.value)
      ensures found.Some? ==>
                && uuid in client.store && found.value.0 == client.store[uuid] && Some(found.value.1) == status
                && found.value.0.uuid == uuid && Manages(found.value.0) && found.value.1.activeUuid != uuid
    {
      client.NeverTouchedForeign();
      var current, failed := client.ReadStatus();
      status := if failed.None? then Some(current) else None;
      if failed.Some? {
        return None, Some(Unavailable(failed.value)), status;
      }
      var ps, unlisted := client.ListProfiles();
      if unlisted.Some? {
        return None, Some(Unavailable(unlisted.value)), status;
      }
      for n := 0 to |ps|
        invariant forall i :: 0 <= i < n ==> ps[i].uuid != uuid
      {
        if ps[n].uuid != uuid {
          continue;
        }
        assert ps[n] in ps;
        if uuid == current.activeUuid {
          return None, Some(ActiveNetwork), status;
        }
        if !ps[n].owned || ps[n].role != Infrastructure || ps[n].iface != iface || !IsInfrastructureWiFi(ps[n]) {
          return None, Some(NetworkReadOnly), status;
        }
        return Some((ps[n], current)), None, status;
      }
      assert forall p :: p in ps ==> p.uuid != uuid;
      return None, Some(NetworkNotFound), status;
    }

    method RunKnown(p: Profile, current: (Uuid, IPv4), patience: nat)
      returns (err: Option<string>, ghost plan: Option<Plan>, ghost account: Account)
      requires Sound() && SoundAgainst(client.store)
      requires Canonical(p.uuid) && p.uuid in client.store && client.store[p.uuid] == p && Manages(p)
      modifies client
      ensures Midway(plan, Order(iface, Infrastructure, p.ssid, Policy(requirement), current), old(client.log),
                     old(client.store), err, account)
      ensures client.trace == old(client.trace) + account.calls
      ensures plan.Some? ==> plan.value.candidate == SavedProfile(p.uuid)
      ensures plan.None? ==> err.Some? && err == SavedError(iface, p.uuid, p.ssid, requirement, Times(current))
    {
      err, plan, account := AttemptKnown(client, iface, p, requirement, Times(current), patience);
    }

    /** The attempt to move to a saved network from a known connection, and what follows it. */
    method MoveToKnown(p: Profile, current: (Uuid, IPv4), patience: nat)
      returns (failure: Option<Failure>, ghost err: Option<string>, ghost plan: Option<Plan>, ghost mid: Store,
               ghost account: Account)
      requires Sound() && Canonical(p.uuid) && p.uuid in client.store && client.store[p.uuid] == p && Manages(p)
      modifies manager, manager.platform, client
      modifies if manager.session == null then {} else {manager.session}
      ensures Sound() && old(client.trace) <= client.trace
      ensures Answered(failure, err, plan, mid, account, old(client.store), old(manager.Owes()),
                       old(manager.Unrecorded()), old(manager.active))
      ensures failure.None? || failure == Some(CleanupFailed) || failure.value.TransitionFailed?
      ensures plan.Some? ==>
                plan.value.candidate == SavedProfile(p.uuid) &&
                PlannedFor(plan.value, Order(iface, Infrastructure, p.ssid, Policy(requirement), current))
      ensures plan.None? ==> err.Some? && err == SavedError(iface, p.uuid, p.ssid, requirement, Times(current))
    {
      ghost var log, s := client.log, client.store;
      assert SoundAgainst(s) && StraysIn(s) == manager.Unrecorded();
      var failed;
      failed, plan, account := RunKnown(p, current, patience);
      err, mid := failed, client.store;
      failure := Settle(failed, plan, Order(iface, Infrastructure, p.ssid, Policy(requirement), current), log, s, account);
    }

    /** Connects to a saved profile that was found with this status. */
    method ConnectTo(p: Profile, status: Status, patience: nat)
      returns (failure: Option<Failure>, ghost err: Option<string>, ghost plan: Option<Plan>, ghost mid: Store,
               ghost account: Account, ghost previous: Option<(Uuid, IPv4)>)
      requires Sound() && Canonical(p.uuid) && p.uuid in client.store && client.store[p.uuid] == p && Manages(p)
      modifies manager, manager.platform, client
      modifies if manager.session == null then {} else {manager.session}
      ensures Sound() && old(client.trace) <= client.trace
      ensures Answered(failure, err, plan, mid, account, old(client.store), old(manager.Owes()),
                       old(manager.Unrecorded()), old(manager.active))
      ensures ComesBackTo(Some(status), previous) && (failure == Some(ConnectionUnknown) <==> previous.None?)
      ensures previous.None? ==> plan.None?
      ensures failure.None? || failure == Some(CleanupFailed) || failure == Some(ConnectionUnknown) ||
              failure.value.TransitionFailed?
      ensures plan.Some? ==>
                plan.value.candidate == SavedProfile(p.uuid) &&
                PlannedFor(plan.value, Order(iface, Infrastructure, p.ssid, Policy(requirement), previous.value))
      ensures previous.Some? && plan.None? ==>
                err.Some? && err == SavedError(iface, p.uuid, p.ssid, requirement, Times(previous.value))
    {
      err, plan, mid, account := None, None, client.store, NO_ACCOUNT;
      var current := PreviousConnection(status);
      previous := current;
      if current.None? {
        failure := Some(ConnectionUnknown);
      } else {
        failure, err, plan, mid, account := MoveToKnown(p, current.value, patience);
      }
    }

    /** NetworkManager keeps its profiles under canonical UUIDs. */
    method ConnectKnownNetwork(uuid: Uuid, patience: nat)
      returns (failure: Option<Failure>, ghost err: Option<string>, ghost plan: Option<Plan>, ghost mid: Store,
               ghost account: Account)
      requires Sound() && (uuid in client.store ==> Canonical(uuid))
      modifies manager, manager.platform, client
      modifies if manager.session == null then {} else {manager.session}
      ensures Sound()
      ensures Answered(failure, err, plan, mid, account, old(client.store), old(manager.Owes()),
                       old(manager.Unrecorded()), old(manager.active))
      ensures exists status, listed: bool ::
                && old(client.trace) + [StatusRead(status)] <= client.trace
                && KnownOutcome(uuid, old(client.store), status, listed, failure, plan)
    {
      err, plan, mid, account := None, None, client.store, NO_ACCOUNT;
      var found;
      ghost var status, previous;
      ghost var replies := client.replies;
      found, failure, status := KnownProfile(uuid);
      ghost var listed := AllAnswered(replies, client.replies);
      if failure.None? {
        failure, err, plan, mid, account, previous := ConnectTo(found.value.0, found.value.1, patience);
      }
      assert KnownOutcome(uuid, old(client.store), status, listed, failure, plan);
    }

    /** How a request for a saved network ends, given the status that was read first and whether
        the profiles could be listed. */
    ghost predicate KnownOutcome(uuid: Uuid, s: Store, status: Option<Status>, listed: bool, failure: Option<Failure>,
                                 plan: Option<Plan>) {
      && (failure.Some? && failure.value.Unavailable? <==> status.None? || !listed)
      && (status.Some? && listed && KnownFailure(uuid, s, status.value).Some? ==>
           failure == KnownFailure(uuid, s, status.value) && plan.None?)
      && (plan.Some? ==>
           && status.Some? && listed && KnownFailure(uuid, s, status.value).None?
           && plan.value.candidate == SavedProfile(uuid)
           && exists previous ::
                ComesBackTo(status, Some(previous)) &&
                PlannedFor(plan.value, Order(iface, Infrastructure, s[uuid].ssid, Policy(requirement), previous)))
      && (status.Some? && listed && KnownFailure(uuid, s, status.value).None? ==>
           (failure == Some(ConnectionUnknown) <==> ComesBackTo(status, None)))
    }

    method RunAccessPoint(c: Settings.AccessPointOptions, current: (Uuid, IPv4), generated: Uuid, patience: nat)
      returns (err: Option<string>, panicked: bool, ghost plan: Option<Plan>, ghost account: Account)
      requires Sound() && SoundAgainst(client.store)
      requires c.uuid == "" && Fresh("", generated, client.store) && manager.Owes().profile != Some(generated)
      modifies client
      ensures panicked <==> Panics(iface, c, Times(current), generated)
      ensures panicked ==>
                && plan.None? && Sound() && client.store == old(client.store)
                && manager.Unrecorded() == old(manager.Unrecorded())
      ensures !panicked ==>
                Midway(plan, Order(iface, Standalone, c.ssid, OwnAddress(c.address), current), old(client.log),
                       old(client.store), err, account)
      ensures client.trace == old(client.trace) + account.calls
      ensures plan.None? && !panicked ==> err.Some? && err == StandaloneError(iface, c, Times(current), generated)
    {
      err, panicked, plan, account := AttemptAccessPoint(client, iface, c, Times(current), generated, patience);
    }

    /** The attempt to move to the configured access point from a known connection, and what
        follows it. A panic on the address comes before anything is touched. */
    method MoveToAccessPoint(c: Settings.AccessPointOptions, current: (Uuid, IPv4), generated: Uuid, patience: nat)
      returns (failure: Option<Failure>, ghost err: Option<string>, ghost plan: Option<Plan>, ghost mid: Store,
               ghost account: Account)
      requires Sound() && c.uuid == "" && Fresh("", generated, client.store) && manager.Owes().profile != Some(generated)
      modifies manager, manager.platform, client
      modifies if manager.session == null then {} else {manager.session}
      ensures Sound() && old(client.trace) <= client.trace
      ensures Answered(failure, err, plan, mid, account, old(client.store), old(manager.Owes()),
                       old(manager.Unrecorded()), old(manager.active))
      ensures failure.None? || failure in {Some(CleanupFailed), Some(Panicked)} || failure.value.TransitionFailed?
      ensures plan.Some? ==> PlannedFor(plan.value, Order(iface, Standalone, c.ssid, OwnAddress(c.address), current))
      ensures failure == Some(Panicked) <==> Panics(iface, c, Times(current), generated)
      ensures plan.None? && failure != Some(Panicked) ==>
                err.Some? && err == StandaloneError(iface, c, Times(current), generated)
    {
      ghost var log, s := client.log, client.store;
      assert SoundAgainst(s) && StraysIn(s) == manager.Unrecorded();
      var failed, panicked;
      failed, panicked, plan, account := RunAccessPoint(c, current, generated, patience);
      err, mid := if panicked then None else failed, client.store;
      failure := SettleUnlessPanicked(failed, panicked, plan,
                                      Order(iface, Standalone, c.ssid, OwnAddress(c.address), current), log, s, account);
    }

    /** Starts the configured access point, if that mode is enabled. */
    method StartStandalone(c: Settings.AccessPointOptions, generated: Uuid, patience: nat)
      returns (failure: Option<Failure>, ghost err: Option<string>, ghost plan: Option<Plan>, ghost mid: Store,
               ghost account: Account, ghost previous: Option<(Uuid, IPv4)>)
      requires Sound() && Fresh("", generated, client.store) && manager.Owes().profile != Some(generated)
      requires c.uuid == ""
      modifies manager, manager.platform, client
      modifies if manager.session == null then {} else {manager.session}
      ensures Sound()
      ensures Answered(failure, err, plan, mid, account, old(client.store), old(manager.Owes()),
                       old(manager.Unrecorded()), old(manager.active))
      ensures failure == Some(ModeUnavailable) <==> !standaloneEnabled
      ensures !standaloneEnabled ==> client.trace == old(client.trace) && plan.None?
      ensures standaloneEnabled ==>
                Grounded(old(client.trace), failure, plan, Standalone, c.ssid, OwnAddress(c.address), previous)
      ensures standaloneEnabled && previous.Some? ==>
                && (failure == Some(Panicked) <==> Panics(iface, c, Times(previous.value), generated))
                && (plan.None? && failure != Some(Panicked) ==>
                     err.Some? && err == StandaloneError(iface, c, Times(previous.value), generated))
    {
      err, plan, mid, account, previous := None, None, client.store, NO_ACCOUNT, None;
      if !standaloneEnabled {
        return Some(ModeUnavailable), err, plan, mid, account, previous;
      }
      var current := Current();
      previous := current;
      ghost var read := client.trace;
      if current.None? {
        failure := Some(ConnectionUnknown);
      } else {
        failure, err, plan, mid, account := MoveToAccessPoint(c, current.value, generated, patience);
      }
      ReadStays(old(client.trace), read, client.trace, previous);
    }
  }
}
