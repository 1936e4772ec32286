/** The three entry points of a protected transition. */
module Attempts {
  import opened Text
  import opened Profiles
  import opened NetworkManager
  import opened Recovery
  import opened Uuids
  import opened Addresses
  import Connectivity
  import Settings

  const SECOND := 1_000_000_000

  /** Options shared by every attempt; durations are nanoseconds, and an address is None when
      it is not a valid IPv4 address. */
  datatype Timing = Timing(
    activationWait: int,
    rollbackAfter: int,
    restorationWait: int,
    previousUuid: Uuid,
    previousAddress: Option<IPv4>)

  function ParseRequirement(text: string): Option<Connectivity.Requirement> {
    if text == "local" then Some(Connectivity.Local)
    else if text == "internet" then Some(Connectivity.Internet)
    else None
  }

  /** The two requirements are named by the words the failure texts use. */
  lemma {:induction false} RequirementsAreNamed(text: string, r: Connectivity.Requirement)
    ensures ParseRequirement(text) == Some(r) <==> text == RequirementName(r)
  {
    assert "local" != "internet";
  }

  predicate UsableIPv4(a: Option<IPv4>) {
    a.Some? && a.value != [0, 0, 0, 0] && !(224 <= a.value[0] < 240)
  }

  /** Usable means neither the unspecified address nor a multicast one, which starts with the
      bits 1110. */
  lemma {:induction false} UsableAddresses(a: IPv4)
    ensures UsableIPv4(Some(a)) <==> (a[0] != 0 || a[1] != 0 || a[2] != 0 || a[3] != 0) && a[0] / 16 != 14
    ensures !UsableIPv4(None)
  {
  }

  function OptionsError(iface: string, requirement: Option<string>, t: Timing, restorationMessage: string)
    : (r: Option<string>)
    ensures r.None? <==>
            && iface != "" && (requirement.Some? ==> ParseRequirement(requirement.value).Some?)
            && t.activationWait > 0 && t.rollbackAfter > 0 && t.rollbackAfter % SECOND == 0 && t.restorationWait > 0
            && t.previousUuid != "" && UsableIPv4(t.previousAddress)
  {
    if iface == "" then Some("interface is required")
    else if requirement.Some? && ParseRequirement(requirement.value).None? then
      Some("unknown connectivity requirement")
    else if t.activationWait <= 0 then Some("activation wait must be positive")
    else if t.rollbackAfter <= 0 || t.rollbackAfter % SECOND != 0 then
      Some("checkpoint rollback duration must be a positive whole number of seconds")
    else if t.restorationWait <= 0 then Some(restorationMessage)
    else if t.previousUuid == "" then Some("previous profile UUID is required")
    else if !UsableIPv4(t.previousAddress) then Some("previous IPv4 address must be usable")
    else None
  }

  const PROVISIONING_WAIT := "provisioning restoration wait must be positive"
  const SETUP_WAIT := "setup restoration wait must be positive"

  /** A candidate is never selected before it is accepted. */
  function PendingCandidate(c: Settings.InfrastructureOptions, iface: string): Settings.InfrastructureOptions {
    c.(iface := iface, autoconnect := false, pending := true)
  }

  function StandaloneCandidate(c: Settings.AccessPointOptions, iface: string): Settings.AccessPointOptions {
    c.(iface := iface, role := Standalone, autoconnect := false)
  }

  function InfrastructureError(iface: string, c: Settings.InfrastructureOptions, requirement: string, t: Timing,
                               generated: Uuid): (r: Option<string>)
    ensures r.None? ==> UsableIPv4(t.previousAddress) && ParseRequirement(requirement).Some?
  {
    match OptionsError(iface, Some(requirement), t, PROVISIONING_WAIT)
    case Some(e) => Some(e)
    case None =>
      match Settings.InfrastructureRefusal(PendingCandidate(c, iface), generated)
      case Some(e) => Some("validate candidate infrastructure profile: " + e)
      case None => None
  }

  function InfrastructurePlan(iface: string, c: Settings.InfrastructureOptions, requirement: string, t: Timing,
                              generated: Uuid): Plan
    requires InfrastructureError(iface, c, requirement, t, generated).None?
  {
    var built := Settings.BuildInfrastructure(PendingCandidate(c, iface), generated).value.0;
    Plan(iface, Infrastructure, c.ssid, NewProfile(Settings.DecodeProfile(built, false)),
         MeetsPolicy(ParseRequirement(requirement).value), t.previousUuid, t.previousAddress.value,
         INFRASTRUCTURE_MESSAGES)
  }

  function SavedError(iface: string, uuid: Uuid, ssid: string, requirement: string, t: Timing): Option<string> {
    if uuid == "" then Some("saved profile uuid is required")
    else if ssid == "" then Some("saved profile ssid is required")
    else OptionsError(iface, Some(requirement), t, PROVISIONING_WAIT)
  }

  /** A saved network is tried exactly when it is named and the shared options are accepted. */
  lemma {:induction false} SavedIsAccepted(iface: string, uuid: Uuid, ssid: string, requirement: string, t: Timing)
    ensures SavedError(iface, uuid, ssid, requirement, t).None? <==>
            uuid != "" && ssid != "" && OptionsError(iface, Some(requirement), t, PROVISIONING_WAIT).None?
  {
  }

  function SavedPlan(iface: string, uuid: Uuid, ssid: string, requirement: string, t: Timing): Plan
    requires SavedError(iface, uuid, ssid, requirement, t).None?
  {
    Plan(iface, Infrastructure, ssid, SavedProfile(uuid), MeetsPolicy(ParseRequirement(requirement).value),
         t.previousUuid, t.previousAddress.value, INFRASTRUCTURE_MESSAGES)
  }

  function StandaloneError(iface: string, c: Settings.AccessPointOptions, t: Timing, generated: Uuid)
    : (r: Option<string>)
    ensures r.None? ==> UsableIPv4(t.previousAddress)
  {
    match OptionsError(iface, None, t, SETUP_WAIT)
    case Some(e) => Some(e)
    case None =>
      match Settings.AccessPointRefusal(StandaloneCandidate(c, iface), generated)
      case Some(e) => Some("validate standalone profile: " + e)
      case None => None
  }

  /** netip.MustParsePrefix panics on the text of options that were accepted. */
  predicate Panics(iface: string, c: Settings.AccessPointOptions, t: Timing, generated: Uuid) {
    StandaloneError(iface, c, t, generated).None? && ParseStrictPrefix(c.address).None?
  }

  /** Exactly when: the options are accepted and the address text is empty or has a mask with
      a leading zero. */
  lemma {:induction false} PanicsIff(iface: string, c: Settings.AccessPointOptions, t: Timing, generated: Uuid)
    ensures Panics(iface, c, t, generated) <==>
            StandaloneError(iface, c, t, generated).None? && (c.address == "" || LeadingZeroMask(c.address))
  {
    StrictParseGap(c.address);
    if StandaloneError(iface, c, t, generated).None? {
      assert StandaloneCandidate(c, iface).address == c.address && ParseAddress(c.address).Some?;
    }
  }

  /** Options with nothing wrong but no address text. */
  predicate OnlyLacksAddress(iface: string, c: Settings.AccessPointOptions, t: Timing) {
    && c.address == "" && c.uuid == "" && OptionsError(iface, None, t, SETUP_WAIT).None?
    && Settings.AccessPointError(StandaloneCandidate(c, iface)).None?
  }

  lemma {:induction false} EmptyAddressPanics(iface: string, c: Settings.AccessPointOptions, t: Timing, generated: Uuid)
    requires OnlyLacksAddress(iface, c, t)
    ensures Panics(iface, c, t, generated)
  {
    DefaultAddressParses();
    PanicsIff(iface, c, t, generated);
  }

  lemma {:induction false} PlainTiming() returns (iface: string, t: Timing)
    ensures OptionsError(iface, None, t, SETUP_WAIT).None? && iface != ""
  {
    iface, t := "w", Timing(SECOND, SECOND, SECOND, "a", Some([10, 0, 0, 1]));
  }

  lemma {:induction false} PlainAccessPoint(iface: string) returns (c: Settings.AccessPointOptions)
    requires iface != ""
    ensures Settings.AccessPointError(StandaloneCandidate(c, iface)).None? && c.address == "" && c.uuid == ""
  {
    c := Settings.AccessPointOptions("", "", "", "s", "12345678", "", Standalone, false, 0, "");
  }

  /** An access point that leaves its address to the default is such an option record. */
  lemma {:induction false} DefaultAddressPanics()
    returns (iface: string, c: Settings.AccessPointOptions, t: Timing)
    ensures OnlyLacksAddress(iface, c, t) && forall generated :: Panics(iface, c, t, generated)
  {
    iface, t := PlainTiming();
    c := PlainAccessPoint(iface);
    forall generated ensures Panics(iface, c, t, generated) {
      EmptyAddressPanics(iface, c, t, generated);
    }
  }

  function StandalonePlan(iface: string, c: Settings.AccessPointOptions, t: Timing, generated: Uuid): Plan
    requires StandaloneError(iface, c, t, generated).None? && ParseStrictPrefix(c.address).Some?
  {
    var built := Settings.BuildAccessPoint(StandaloneCandidate(c, iface), generated).value.0;
    Plan(iface, Standalone, c.ssid, NewProfile(Settings.DecodeProfile(built, false)),
         HasAddress(ParseStrictPrefix(c.address).value.address), t.previousUuid, t.previousAddress.value,
         STANDALONE_MESSAGES)
  }

  /** Profile UUIDs are random: a generated one is canonical and names no stored profile. */
  ghost predicate Fresh(value: string, generated: Uuid, s: Store) {
    Canonical(generated) &&
    var uuid := Settings.ResolveUuid(value, generated);
    uuid.Ok? ==> uuid.value !in s
  }

  lemma ResolvedIsCanonical(value: string, generated: Uuid)
    requires Canonical(generated) && Settings.ResolveUuid(value, generated).Ok?
    ensures Canonical(Settings.ResolveUuid(value, generated).value)
  {
    LowerUuid(value);
  }

  /** The profile that NetworkManager reports for a candidate built from accepted options. */
  lemma InfrastructureBuilt(iface: string, c: Settings.InfrastructureOptions, requirement: string, t: Timing,
                            generated: Uuid)
    requires InfrastructureError(iface, c, requirement, t, generated).None?
    ensures Settings.ResolveUuid(c.uuid, generated).Ok?
    ensures InfrastructurePlan(iface, c, requirement, t, generated).candidate ==
            NewProfile(Profile(Settings.ResolveUuid(c.uuid, generated).value,
                               Settings.IdOr(c.id, Infrastructure, c.ssid), WIFI, iface, c.ssid, "infrastructure",
                               false, c.priority, true, Infrastructure, true, false))
  {
    var o := PendingCandidate(c, iface);
    var (built, uuid) := Settings.BuildInfrastructure(o, generated).value;
    Settings.DecodedInfrastructure(o, uuid, built, Settings.OwnSecrets(o.password), false);
  }

  lemma StandaloneBuilt(iface: string, c: Settings.AccessPointOptions, t: Timing, generated: Uuid)
    requires StandaloneError(iface, c, t, generated).None? && ParseStrictPrefix(c.address).Some?
    ensures Settings.ResolveUuid(c.uuid, generated).Ok?
    ensures StandalonePlan(iface, c, t, generated).candidate ==
            NewProfile(Profile(Settings.ResolveUuid(c.uuid, generated).value, Settings.IdOr(c.id, Standalone, c.ssid),
                               WIFI, iface, c.ssid, "ap", false, c.priority, true, Standalone, false, false))
  {
    Settings.BuiltAccessPointDecodes(StandaloneCandidate(c, iface), generated, false);
  }

  /** Each kind of transition keeps to its own wording. */
  lemma PlansAreWorded(iface: string, requirement: string, t: Timing)
    ensures forall c, generated :: InfrastructureError(iface, c, requirement, t, generated).None? ==>
              InfrastructurePlan(iface, c, requirement, t, generated).messages == INFRASTRUCTURE_MESSAGES
    ensures forall uuid, ssid :: SavedError(iface, uuid, ssid, requirement, t).None? ==>
              SavedPlan(iface, uuid, ssid, requirement, t).messages == INFRASTRUCTURE_MESSAGES
    ensures forall c, generated ::
              StandaloneError(iface, c, t, generated).None? && ParseStrictPrefix(c.address).Some? ==>
              StandalonePlan(iface, c, t, generated).messages == STANDALONE_MESSAGES
  {
  }

  /** The candidate of a new network is owned, in scope, unselected, marked pending and on disk. */
  lemma InfrastructureIsReady(iface: string, c: Settings.InfrastructureOptions, requirement: string, t: Timing,
                              generated: Uuid, s: Store)
    requires InfrastructureError(iface, c, requirement, t, generated).None? && Fresh(c.uuid, generated, s)
    ensures var plan := InfrastructurePlan(iface, c, requirement, t, generated);
            Ready(plan, s) && plan.candidate.profile.pending && !plan.candidate.profile.inMemory
  {
    InfrastructureBuilt(iface, c, requirement, t, generated);
    ResolvedIsCanonical(c.uuid, generated);
  }

  /** A standalone candidate is not marked pending: until it is selected it does not start
      on its own. */
  lemma StandaloneIsReady(iface: string, c: Settings.AccessPointOptions, t: Timing, generated: Uuid, s: Store)
    requires StandaloneError(iface, c, t, generated).None? && Fresh(c.uuid, generated, s)
    requires ParseStrictPrefix(c.address).Some?
    ensures var plan := StandalonePlan(iface, c, t, generated);
            Ready(plan, s) && !plan.candidate.profile.pending && !plan.candidate.profile.inMemory
  {
    StandaloneBuilt(iface, c, t, generated);
    ResolvedIsCanonical(c.uuid, generated);
  }

  /** How a transition that was started ended. */
  ghost predicate Attempted(plan: Plan, s: Store, s': Store, activation: Activation, err: Option<string>, a: Account) {
    && ForwardWrites(plan, s, a.forward) && BackwardWrites(plan, a.backward)
    && (err.None? ==> CommittedAccount(plan, s, s', activation, a))
    && (err.Some? ==> UnprotectedAccount(plan, s, s', err.value, a) || RejectedAccount(plan, s, s', err.value, a))
  }

  /** Runs the plan of accepted options. */
  method AttemptPlan(client: Client, plan: Plan, patience: nat)
    returns (activation: Activation, err: Option<string>, ghost account: Account)
    requires client.Valid() && Ready(plan, client.store)
    modifies client
    ensures client.Valid() && client.trace == old(client.trace) + account.calls
    ensures client.log == old(client.log) + account.forward + account.backward
    ensures Attempted(plan, old(client.store), client.store, activation, err, account)
  {
    activation, err, account := RunTransition(client, plan, patience);
  }

  const NO_ACCOUNT := Account([], [], [], None, "", None)

  method AttemptInfrastructure(client: Client, iface: string, c: Settings.InfrastructureOptions, requirement: string,
                               t: Timing, generated: Uuid, patience: nat)
    returns (activation: Activation, err: Option<string>, ghost account: Account)
    requires client.Valid() && Fresh(c.uuid, generated, client.store)
    modifies client
    ensures client.Valid() && client.trace == old(client.trace) + account.calls
    ensures client.log == old(client.log) + account.forward + account.backward
    ensures var refusal := InfrastructureError(iface, c, requirement, t, generated);
            if refusal.Some? then err == refusal && client.store == old(client.store) && account == NO_ACCOUNT
            else Attempted(InfrastructurePlan(iface, c, requirement, t, generated),
                           old(client.store), client.store, activation, err, account)
  {
    var refusal := InfrastructureError(iface, c, requirement, t, generated);
    if refusal.Some? {
      activation, err, account := NO_ACTIVATION, refusal, NO_ACCOUNT;
      return;
    }
    InfrastructureIsReady(iface, c, requirement, t, generated, client.store);
    activation, err, account :=
      AttemptPlan(client, InfrastructurePlan(iface, c, requirement, t, generated), patience);
  }

  /** The caller guarantees what the server checked: an owned infrastructure profile on the
      interface, listed under its own UUID and SSID. */
  method AttemptSaved(client: Client, iface: string, uuid: Uuid, ssid: string, requirement: string, t: Timing,
                      patience: nat)
    returns (activation: Activation, err: Option<string>, ghost account: Account)
    requires client.Valid()
    requires uuid != "" ==>
               Canonical(uuid) && uuid in client.store && client.store[uuid].owned &&
               client.store[uuid].role == Infrastructure && client.store[uuid].iface == iface &&
               client.store[uuid].ssid == ssid
    modifies client
    ensures client.Valid() && client.trace == old(client.trace) + account.calls
    ensures client.log == old(client.log) + account.forward + account.backward
    ensures var refusal := SavedError(iface, uuid, ssid, requirement, t);
            if refusal.Some? then err == refusal && client.store == old(client.store) && account == NO_ACCOUNT
            else Attempted(SavedPlan(iface, uuid, ssid, requirement, t),
                           old(client.store), client.store, activation, err, account)
  {
    var refusal := SavedError(iface, uuid, ssid, requirement, t);
    if refusal.Some? {
      activation, err, account := NO_ACTIVATION, refusal, NO_ACCOUNT;
      return;
    }
    activation, err, account := AttemptPlan(client, SavedPlan(iface, uuid, ssid, requirement, t), patience);
  }

  /** A panic comes before anything is called or changed. */
  method AttemptStandalone(client: Client, iface: string, c: Settings.AccessPointOptions, t: Timing, generated: Uuid,
                           patience: nat)
    returns (activation: Activation, err: Option<string>, panicked: bool, ghost account: Account)
    requires client.Valid() && Fresh(c.uuid, generated, client.store)
    modifies client
    ensures client.Valid() && client.trace == old(client.trace) + account.calls
    ensures client.log == old(client.log) + account.forward + account.backward
    ensures panicked <==> Panics(iface, c, t, generated)
    ensures var refusal := StandaloneError(iface, c, t, generated);
            if refusal.Some? || panicked then err == refusal && client.store == old(client.store) && account == NO_ACCOUNT
            else Attempted(StandalonePlan(iface, c, t, generated),
                           old(client.store), client.store, activation, err, account)
  {
    var refusal := StandaloneError(iface, c, t, generated);
    panicked := refusal.None? && ParseStrictPrefix(c.address).None?;
    if refusal.Some? || panicked {
      activation, err, account := NO_ACTIVATION, refusal, NO_ACCOUNT;
      return;
    }
    StandaloneIsReady(iface, c, t, generated, client.store);
    activation, err, account := AttemptPlan(client, StandalonePlan(iface, c, t, generated), patience);
  }
}
