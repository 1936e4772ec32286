/** Captive mode: a temporary access point, a DNS fragment and an nft table, each of which
    can fail to appear or to disappear, and the ledger of what still has to be removed. */
module Captive {
  import opened Text
  import opened Profiles
  import opened Selection
  import opened NetworkManager
  import opened Plans
  import opened Recovery
  import opened Addresses
  import opened Attempts
  import Settings

  datatype ProvisioningOptions = ProvisioningOptions(
    iface: string,
    ssid: string,
    password: string,
    address: Option<Prefix>,
    band: string,
    wait: int)

  /** A profile that exists only in captive mode. */
  predicate Temporary(p: Profile, iface: string) {
    p.owned && p.role == Provisioning && p.iface == iface
  }

  ghost function Temporaries(s: Store, iface: string): set<Uuid> {
    set u | u in s && Temporary(s[u], iface)
  }

  /** Everything else in the store. */
  ghost function Permanent(s: Store, iface: string): Store {
    map u | u in s && !Temporary(s[u], iface) :: s[u]
  }

  /** What still has to be removed. */
  datatype Ledger = Ledger(redirect: bool, profile: Option<Uuid>, dns: bool)

  const NOTHING := Ledger(false, None, false)

  /** The DNS fragment and the nft table are owed while they may exist. */
  predicate Records(l: Ledger, dns: bool, table: bool) {
    (table ==> l.redirect) && (dns ==> l.dns)
  }

  /** Temporary profiles that the ledger does not know of. */
  ghost function Strays(l: Ledger, s: Store, iface: string): set<Uuid> {
    Temporaries(s, iface) - (if l.profile.None? then {} else {l.profile.value})
  }

  /** The ledger records everything that exists. */
  ghost predicate Covers(l: Ledger, dns: bool, table: bool, s: Store, iface: string) {
    Records(l, dns, table) && Strays(l, s, iface) == {}
  }

  /** An addition of a temporary profile that NetworkManager carried out, though the call failed. */
  predicate IsLostAddition(a: Attempt, iface: string) {
    a.write.Add? && a.outcome == Lost && Temporary(a.write.profile, iface)
  }

  /** How many of them a log holds. */
  function LostAdditions(log: seq<Attempt>, iface: string): nat {
    if log == [] then 0
    else LostAdditions(log[..|log| - 1], iface) + if IsLostAddition(log[|log| - 1], iface) then 1 else 0
  }

  lemma {:induction false} LostNext(log: seq<Attempt>, a: Attempt, iface: string)
    ensures LostAdditions(log + [a], iface) == LostAdditions(log, iface) + if IsLostAddition(a, iface) then 1 else 0
  {
    assert (log + [a])[..|log|] == log;
  }

  lemma {:induction false} NoneLost(log: seq<Attempt>, added: seq<Attempt>, iface: string)
    requires forall a :: a in added ==> !a.write.Add?
    ensures LostAdditions(log + added, iface) == LostAdditions(log, iface)
  {
    if added == [] {
      assert log + added == log;
    } else {
      var front := added[..|added| - 1];
      NoneLost(log, front, iface);
      LostNext(log + front, added[|added| - 1], iface);
      assert log + added == log + front + [added[|added| - 1]];
    }
  }

  lemma {:induction false} LostByAdding(log: seq<Attempt>, added: seq<Attempt>, p: Profile, iface: string)
    requires Temporary(p, iface) && (added == [] || added[0].write == Add(p))
    requires |added| > 1 ==> added[0].outcome == Done && |added| == 2 && added[1].write == Delete(p.uuid)
    ensures LostAdditions(log + added, iface) == LostAdditions(log, iface) + if LostAddition(p, added) then 1 else 0
  {
    if added == [] {
      assert log + added == log;
    } else {
      LostNext(log, added[0], iface);
      NoneLost(log + [added[0]], added[1..], iface);
      assert log + added == log + [added[0]] + added[1..];
      assert added == [added[0]] + added[1..];
    }
  }

  lemma {:induction false} LostByDeleting(log: seq<Attempt>, log': seq<Attempt>, u: Uuid, iface: string)
    requires log' == log || exists o :: log' == log + [Attempt(Delete(u), o)]
    ensures LostAdditions(log', iface) == LostAdditions(log, iface)
  {
    if log' != log {
      var o :| log' == log + [Attempt(Delete(u), o)];
      LostNext(log, Attempt(Delete(u), o), iface);
    }
  }

  /** What one call may do to the temporary profiles nobody records: it adds one only if an
      addition was lost. */
  ghost predicate Tracked(before: set<Uuid>, lostBefore: nat, after: set<Uuid>, lostAfter: nat) {
    lostBefore <= lostAfter && (lostBefore == lostAfter ==> after <= before)
  }

  /** So over any series of calls a temporary profile that nobody records goes back to an
      addition whose reply was lost. */
  lemma {:induction false} StraysComeFromLosses(strays: seq<set<Uuid>>, lost: seq<nat>)
    requires |strays| == |lost| > 0 && strays[0] == {}
    requires forall i :: 0 < i < |lost| ==> Tracked(strays[i - 1], lost[i - 1], strays[i], lost[i])
    ensures lost[0] <= lost[|lost| - 1]
    ensures strays[|strays| - 1] != {} ==> lost[0] < lost[|lost| - 1]
  {
    if |lost| > 1 {
      var n := |lost| - 1;
      StraysComeFromLosses(strays[..n], lost[..n]);
      assert strays[..n][n - 1] == strays[n - 1] && lost[..n][n - 1] == lost[n - 1];
      assert Tracked(strays[n - 1], lost[n - 1], strays[n], lost[n]);
    }
  }

  /** Which removals of a cleanup went through. */
  datatype Removed = Removed(redirect: bool, profile: bool, dns: bool)

  /** The removals a cleanup attempts, in order. */
  function Removals(l: Ledger, r: Removed): seq<Call> {
    (if l.redirect then [RedirectRemoved(r.redirect)] else []) + StopCalls(l, r)
  }

  function StopCalls(l: Ledger, r: Removed): seq<Call> {
    (if l.profile.Some? then [OwnedDeleted(l.profile.value, r.profile)] else []) +
    (if l.dns then [DnsRemoved(r.dns)] else [])
  }

  /** What a cleanup still owes: exactly the removals that failed. */
  function StillOwed(l: Ledger, r: Removed): Ledger {
    Ledger(l.redirect && !r.redirect, if r.profile then None else l.profile, l.dns && !r.dns)
  }

  /** The redirect is dropped first, then the session is stopped. */
  lemma RemovalsCompose(owed: Ledger, dropped: bool, r: Removed)
    ensures StillOwed(owed.(redirect := owed.redirect && !dropped), r.(redirect := false)) ==
            StillOwed(owed, r.(redirect := dropped))
    ensures StopCalls(owed.(redirect := owed.redirect && !dropped), r) == StopCalls(owed, r.(redirect := dropped))
  {
  }

  ghost predicate ConfirmedCalls(calls: seq<Call>, activation: Activation, address: IPv4) {
    && |calls| == 3 && calls[0] == ActivationAwaited(activation.activePath, true)
    && Live(activation.uuid, address, calls[1]) && calls[2] == Finalized(true)
  }

  /** The access point was not confirmed: it did not come up, its status could not be read or did
      not show the address, or the finalization failed. */
  ghost predicate Unconfirmed(calls: seq<Call>, activation: Activation, address: IPv4) {
    || calls == [ActivationAwaited(activation.activePath, false)]
    || (|calls| == 2 && calls[0] == ActivationAwaited(activation.activePath, true) && calls[1].StatusRead? &&
        !Live(activation.uuid, address, calls[1]))
    || (|calls| == 3 && calls[0] == ActivationAwaited(activation.activePath, true) &&
        Live(activation.uuid, address, calls[1]) && calls[2] == Finalized(false))
  }

  ghost predicate LaunchedCalls(calls: seq<Call>, uuid: Uuid, address: IPv4) {
    && |calls| == 4 && calls[0].CandidateActivated? && calls[0].ok && calls[0].activation.uuid == uuid
    && ConfirmedCalls(calls[1..], calls[0].activation, address)
  }

  /** The calls of a launch that failed, before it was cleaned up. */
  ghost predicate LaunchFailed(calls: seq<Call>, uuid: Uuid, address: IPv4) {
    && calls != [] && calls[0].CandidateActivated?
    && if calls[0].ok then calls[0].activation.uuid == uuid && Unconfirmed(calls[1..], calls[0].activation, address)
       else |calls| == 1
  }

  /** The profile that a launch knows it added. */
  function Named(c: Call): Option<Uuid> {
    if c.CandidateActivated? && c.activation.uuid != "" then Some(c.activation.uuid) else None
  }

  /** A launch that failed and removed what it knew of. */
  ghost predicate LaunchUndone(calls: seq<Call>, uuid: Uuid, address: IPv4) {
    exists tried, r ::
      LaunchFailed(tried, uuid, address) && calls == tried + StopCalls(Ledger(false, Named(tried[0]), true), r)
  }

  /** The calls of a start that was not refused for its options and failed. */
  ghost predicate StartFailed(calls: seq<Call>, uuid: Uuid, address: IPv4) {
    && calls != [] && calls[0].DnsInstalled?
    && if calls[0].ok then LaunchUndone(calls[1..], uuid, address) else |calls| == 1
  }

  /** Why an entry failed: one of its calls did, or a status did not show the access point. */
  ghost predicate Troubled(calls: seq<Call>, uuid: Uuid, address: IPv4) {
    SomeFailed(calls) || exists c :: c in calls && c.StatusRead? && !Live(uuid, address, c)
  }

  lemma TroubleStays(front: seq<Call>, calls: seq<Call>, rest: seq<Call>, uuid: Uuid, address: IPv4)
    requires Troubled(calls, uuid, address)
    ensures Troubled(front + calls + rest, uuid, address)
  {
    assert forall c :: c in calls ==> c in front + calls + rest;
  }

  lemma LaunchFailureIsTrouble(calls: seq<Call>, uuid: Uuid, address: IPv4)
    requires LaunchFailed(calls, uuid, address)
    ensures Troubled(calls, uuid, address)
  {
    assert calls[0] in calls;
    if calls[0].ok {
      var rest := calls[1..];
      forall i | 0 <= i < |rest| ensures rest[i] in calls {
        assert rest[i] == calls[i + 1];
      }
      assert rest[|rest| - 1] in calls;
    }
  }

  lemma StartFailureIsTrouble(calls: seq<Call>, uuid: Uuid, address: IPv4)
    requires StartFailed(calls, uuid, address)
    ensures Troubled(calls, uuid, address)
  {
    assert calls[0] in calls;
    if calls[0].ok {
      var tried: seq<Call>, r: Removed :| LaunchFailed(tried, uuid, address) &&
        calls[1..] == tried + StopCalls(Ledger(false, Named(tried[0]), true), r);
      LaunchFailureIsTrouble(tried, uuid, address);
      TroubleStays([calls[0]], tried, StopCalls(Ledger(false, Named(tried[0]), true), r), uuid, address);
      assert calls == [calls[0]] + tried + StopCalls(Ledger(false, Named(tried[0]), true), r);
    }
  }

  lemma RedirectFailureIsTrouble(front: seq<Call>, calls: seq<Call>, uuid: Uuid, address: IPv4)
    requires calls != [] && calls[0] == RedirectInstalled(false)
    ensures Troubled(front + calls, uuid, address)
  {
    assert (front + calls)[|front|] == calls[0] && (front + calls)[|front|] in front + calls;
  }

  lemma OwedMeansFailed(l: Ledger, r: Removed)
    requires StillOwed(l, r) != NOTHING
    ensures SomeFailed(Removals(l, r))
  {
    var calls := Removals(l, r);
    if l.redirect && !r.redirect {
      assert RedirectRemoved(false) in calls;
    } else if l.profile.Some? && !r.profile {
      assert OwnedDeleted(l.profile.value, false) in calls;
    } else {
      assert DnsRemoved(false) in calls;
    }
  }

  /** The calls of a successful entry: the DNS fragment exists before the access point starts,
      the address is confirmed before strays are pruned, and the redirect comes last. */
  ghost predicate EnteredCalls(calls: seq<Call>, uuid: Uuid, address: IPv4) {
    && |calls| == 6 && calls[0] == DnsInstalled(true)
    && LaunchedCalls(calls[1..5], uuid, address)
    && calls[5] == RedirectInstalled(true)
  }

  function OptionsError(o: ProvisioningOptions): (r: Option<string>)
    ensures r.None? <==>
            o.iface != "" && o.ssid != "" && o.password != "" && o.address.Some? &&
            UsableIPv4(Some(o.address.value.address)) && o.wait > 0
  {
    if o.iface == "" then Some("interface is required")
    else if o.ssid == "" then Some("SSID is required")
    else if o.password == "" then Some("password is required")
    else if o.address.None? || !UsableIPv4(Some(o.address.value.address)) then
      Some("address must be a usable IPv4 prefix")
    else if o.wait <= 0 then Some("activation wait must be positive")
    else None
  }

  function AccessPoint(o: ProvisioningOptions): Settings.AccessPointOptions
    requires OptionsError(o).None?
  {
    Settings.AccessPointOptions("", "", o.iface, o.ssid, o.password, PrefixText(o.address.value), Provisioning,
                                false, 0, o.band)
  }

  function StartError(o: ProvisioningOptions, generated: Uuid): (r: Option<string>)
    ensures r.None? ==> OptionsError(o).None?
  {
    match OptionsError(o)
    case Some(e) => Some(e)
    case None =>
      match Settings.AccessPointRefusal(AccessPoint(o), generated)
      case Some(e) => Some("validate provisioning AP: " + e)
      case None => None
  }

  function ProvisioningProfile(o: ProvisioningOptions, generated: Uuid): Profile
    requires StartError(o, generated).None?
  {
    Settings.DecodeProfile(Settings.BuildAccessPoint(AccessPoint(o), generated).value.0, true)
  }

  /** The profile captive mode adds is temporary, unselected and never written to disk. */
  lemma ProvisioningProfileIsTemporary(o: ProvisioningOptions, generated: Uuid)
    requires StartError(o, generated).None? && Canonical(generated)
    ensures var p := ProvisioningProfile(o, generated);
            Temporary(p, o.iface) && p.uuid == generated && !p.autoconnect && p.priority == 0 && p.inMemory &&
            p.ssid == o.ssid
  {
    Settings.BuiltAccessPointDecodes(AccessPoint(o), generated, true);
  }

  /** Finalizing a provisioning profile deletes other temporary profiles and nothing else. */
  lemma {:induction false} ProvisioningPrunesOnly(t: Intent, s: Store, log: seq<Attempt>)
    requires t.role == Provisioning && Run(ForwardPath(t), s, log)
    requires forall a :: a in log ==> a.write.Delete?
    ensures Permanent(Replay(s, log), t.iface) == Permanent(s, t.iface)
    ensures Temporaries(Replay(s, log), t.iface) <= Temporaries(s, t.iface)
    ensures t.keep in s ==> t.keep in Replay(s, log) && Replay(s, log)[t.keep] == s[t.keep]
  {
    if log != [] {
      var n := |log| - 1;
      ProvisioningPrunesOnly(t, s, log[..n]);
      assert Allowed(t, Replay(s, log[..n]), log[n].write);
    }
  }

  /** So it stays within what startup may remove. */
  lemma {:induction false} PruningIsCleanup(t: Intent, s: Store, log: seq<Attempt>)
    requires t.role == Provisioning && Run(ForwardPath(t), s, log)
    requires forall a :: a in log ==> a.write.Delete?
    ensures Run(StartupCleanup(t.iface), s, log)
  {
    if log != [] {
      var n := |log| - 1;
      PruningIsCleanup(t, s, log[..n]);
      assert Allowed(t, Replay(s, log[..n]), log[n].write);
      assert StartupCleanup(t.iface)(Replay(s, log[..n]), log[n].write);
    }
  }

  lemma PrunedTemporaries(t: Intent, s: Store, s': Store)
    requires t.role == Provisioning && WellKeyed(s) && Pruned(t, s, s')
    ensures Temporaries(s', t.iface) <= {t.keep}
  {
  }

  /** Entering and leaving captive mode cannot change what boots. */
  lemma PermanentDecidesBoot(s: Store, s': Store, iface: string, powerCut: bool)
    requires Permanent(s, iface) == Permanent(s', iface)
    ensures Bootable(s, iface, powerCut) <==> Bootable(s', iface, powerCut)
  {
    if Bootable(s, iface, powerCut) {
      PermanentBoots(s, s', iface, powerCut);
    }
    if Bootable(s', iface, powerCut) {
      PermanentBoots(s', s, iface, powerCut);
    }
  }

  lemma PermanentBoots(s: Store, s': Store, iface: string, powerCut: bool)
    requires Permanent(s, iface) == Permanent(s', iface) && Bootable(s, iface, powerCut)
    ensures Bootable(s', iface, powerCut)
  {
    var u :| u in s && Startable(s[u], iface, powerCut);
    assert u in Permanent(s, iface);
    assert u in s' && s'[u] == s[u];
  }

  /** Writes made elsewhere, none of which adds a temporary profile, add none to the store. */
  lemma {:induction false} OthersAddNoTemporary(iface: string, s: Store, log: seq<Attempt>)
    requires forall a :: a in log && a.write.Add? ==> !Temporary(a.write.profile, iface)
    ensures Temporaries(Replay(s, log), iface) <= Temporaries(s, iface)
  {
    if log != [] {
      OthersAddNoTemporary(iface, s, log[..|log| - 1]);
    }
  }

  /** So the ledger misses nothing new whatever the setup workflow does to the store in between. */
  lemma {:induction false} OthersKeepLedger(l: Ledger, iface: string, s: Store, log: seq<Attempt>)
    requires forall a :: a in log && a.write.Add? ==> !Temporary(a.write.profile, iface)
    ensures Strays(l, Replay(s, log), iface) <= Strays(l, s, iface)
  {
    OthersAddNoTemporary(iface, s, log);
  }

  /** What is owed after a series of cleanups. */
  function AfterCleanups(l: Ledger, rs: seq<Removed>): Ledger {
    if rs == [] then l else StillOwed(AfterCleanups(l, rs[..|rs| - 1]), rs[|rs| - 1])
  }

  /** Retrying works: a debt is paid exactly when one of the attempts to remove it went through. */
  lemma {:induction false} RetriesSettle(l: Ledger, rs: seq<Removed>)
    ensures var l' := AfterCleanups(l, rs);
            && (l'.redirect <==> l.redirect && forall r :: r in rs ==> !r.redirect)
            && (l'.dns <==> l.dns && forall r :: r in rs ==> !r.dns)
            && l'.profile == (if exists r :: r in rs && r.profile then None else l.profile)
  {
    if rs != [] {
      RetriesSettle(l, rs[..|rs| - 1]);
      assert rs == rs[..|rs| - 1] + [rs[|rs| - 1]];
    }
  }

  /** The DNS fragment and the nft table. */
  class Platform {
    var dns: bool
    var table: bool
    const client: Client

    constructor (client: Client, dns: bool, table: bool)
      ensures this.client == client && this.dns == dns && this.table == table
    {
      this.client, this.dns, this.table := client, dns, table;
    }

    /** Written to a temporary file and renamed: all or nothing. */
    method InstallDns() returns (err: Option<string>)
      modifies this`dns, client`trace
      ensures dns == (old(dns) || err.None?)
      ensures client.trace == old(client.trace) + [DnsInstalled(err.None?)]
    {
      err := *;
      if err.None? {
        dns := true;
      }
      client.trace := client.trace + [DnsInstalled(err.None?)];
    }

    method RemoveDns() returns (err: Option<string>)
      modifies this`dns, client`trace
      ensures dns == (old(dns) && !err.None?)
      ensures client.trace == old(client.trace) + [DnsRemoved(err.None?)]
    {
      err := *;
      if err.None? {
        dns := false;
      }
      client.trace := client.trace + [DnsRemoved(err.None?)];
    }

    /** A failed removal may still have removed the table. */
    method DeleteTable() returns (err: Option<string>)
      modifies this`table
      ensures err.None? ==> !table
      ensures table ==> old(table)
    {
      err := *;
      var removed := *;
      if err.None? || removed {
        table := false;
      }
    }

    method RemoveRedirect() returns (err: Option<string>)
      modifies this`table, client`trace
      ensures err.None? ==> !table
      ensures table ==> old(table)
      ensures client.trace == old(client.trace) + [RedirectRemoved(err.None?)]
    {
      err := DeleteTable();
      client.trace := client.trace + [RedirectRemoved(err.None?)];
    }

    /** Replaces the table; a failure can leave it there or not. */
    method InstallRedirect() returns (err: Option<string>)
      modifies this`table, client`trace
      ensures err.None? ==> table
      ensures client.trace == old(client.trace) + [RedirectInstalled(err.None?)]
    {
      err := DeleteTable();
      if err.None? {
        err := *;
        table := *;
        if err.None? {
          table := true;
        }
      }
      client.trace := client.trace + [RedirectInstalled(err.None?)];
    }
  }

  /** Without a temporary profile the store keeps the others. */
  lemma {:induction false} DeletedTemporary(s: Store, u: Uuid, iface: string)
    requires u in s ==> Temporary(s[u], iface)
    ensures Temporaries(s - {u}, iface) == Temporaries(s, iface) - {u}
    ensures Permanent(s - {u}, iface) == Permanent(s, iface)
  {
  }

  class Session {
    const platform: Platform
    const iface: string
    var uuid: Uuid
    var profileRemoved: bool
    var dnsRemoved: bool

    constructor (platform: Platform, iface: string)
      ensures this.platform == platform && this.iface == iface
      ensures uuid == "" && profileRemoved && !dnsRemoved
    {
      this.platform, this.iface := platform, iface;
      uuid, profileRemoved, dnsRemoved := "", true, false;
    }

    ghost function Owes(): Ledger
      reads this
    {
      Ledger(false, if profileRemoved then None else Some(uuid), !dnsRemoved)
    }

    /** The recorded profile, while it is owed, is one this session may delete. */
    ghost predicate Deletable(s: Store)
      reads this
    {
      !profileRemoved ==> Canonical(uuid) && (uuid in s ==> Temporary(s[uuid], iface))
    }

    /** Temporary profiles that this session does not record. */
    ghost function Unrecorded(): set<Uuid>
      reads this, platform.client
    {
      Strays(Owes(), platform.client.store, iface)
    }

    ghost function Lost(): nat
      reads platform.client
    {
      LostAdditions(platform.client.log, iface)
    }

    /** Deletes the recorded profile if it is still owed. */
    method RemoveProfile() returns (err: Option<string>)
      requires platform.client.Valid() && Deletable(platform.client.store)
      modifies this`profileRemoved, platform.client
      ensures platform.client.Valid() && Deletable(platform.client.store)
      ensures Unrecorded() == old(Unrecorded()) && Lost() == old(Lost())
      ensures Permanent(platform.client.store, iface) == old(Permanent(platform.client.store, iface))
      ensures platform.client.store.Keys <= old(platform.client.store.Keys)
      ensures old(profileRemoved) ==> platform.client.store == old(platform.client.store)
      ensures profileRemoved <==> err.None?
      ensures old(profileRemoved) ==> profileRemoved
      ensures platform.client.trace == old(platform.client.trace) +
              (if old(profileRemoved) then [] else [OwnedDeleted(uuid, err.None?)])
    {
      if profileRemoved {
        return None;
      }
      ghost var s, log := platform.client.store, platform.client.log;
      err := platform.client.DeleteOwnedProfile(uuid);
      DeletedTemporary(s, uuid, iface);
      profileRemoved := err.None?;
      LostByDeleting(log, platform.client.log, uuid, iface);
    }

    /** Removes what is still owed; what fails stays owed and can be retried. */
    method Stop() returns (err: Option<string>, ghost r: Removed)
      requires platform.client.Valid() && Deletable(platform.client.store) && Records(Owes(), platform.dns, false)
      modifies this`profileRemoved, this`dnsRemoved, platform`dns, platform.client
      ensures platform.client.Valid() && Deletable(platform.client.store) && Records(Owes(), platform.dns, false)
      ensures Unrecorded() == old(Unrecorded()) && Lost() == old(Lost())
      ensures old(profileRemoved) ==> platform.client.store == old(platform.client.store)
      ensures Permanent(platform.client.store, iface) == old(Permanent(platform.client.store, iface))
      ensures platform.client.store.Keys <= old(platform.client.store.Keys)
      ensures Owes() == StillOwed(old(Owes()), r)
      ensures err.None? <==> Owes() == NOTHING
      ensures platform.client.trace == old(platform.client.trace) + StopCalls(old(Owes()), r)
    {
      var profileError := RemoveProfile();
      var dnsError: Option<string> := None;
      if !dnsRemoved {
        dnsError := platform.RemoveDns();
        dnsRemoved := dnsError.None?;
      }
      r := Removed(true, profileError.None?, dnsError.None?);
      err := if profileError.Some? then profileError else dnsError;
    }
  }

  lemma AddedTemporary(s: Store, p: Profile, iface: string)
    requires Temporary(p, iface) && p.uuid !in s
    ensures Temporaries(s[p.uuid := p], iface) == Temporaries(s, iface) + {p.uuid}
    ensures Permanent(s[p.uuid := p], iface) == Permanent(s, iface)
  {
  }

  /** Adds and activates the temporary profile. If it may have stayed behind it is recorded
      before anything else happens; one whose addition was lost stays without a record. */
  method ActivateAccessPoint(session: Session, p: Profile)
    returns (activation: Activation, err: Option<string>, ghost lost: bool)
    requires session.platform.client.Valid() && p.uuid !in session.platform.client.store
    requires Temporary(p, session.iface) && Canonical(p.uuid)
    requires session.Owes() == Ledger(false, None, true)
    modifies session`uuid, session`profileRemoved, session.platform.client
    ensures session.platform.client.Valid() && session.Deletable(session.platform.client.store)
    ensures session.Owes().dns
    ensures session.Unrecorded() == old(session.Unrecorded()) + if lost then {p.uuid} else {}
    ensures session.Lost() == old(session.Lost()) + if lost then 1 else 0
    ensures Permanent(session.platform.client.store, session.iface) ==
            old(Permanent(session.platform.client.store, session.iface))
    ensures session.platform.client.trace == old(session.platform.client.trace) + [CandidateActivated(activation, err.None?)]
    ensures session.Owes() == Ledger(false, Named(CandidateActivated(activation, err.None?)), true)
    ensures lost ==>
              && err.Some? && activation == NO_ACTIVATION && session.Owes() == Ledger(false, None, true)
              && session.platform.client.store == old(session.platform.client.store)[p.uuid := p]
    ensures err.None? ==>
              && activation.uuid == p.uuid && session.Owes() == Ledger(false, Some(p.uuid), true)
              && p.uuid in session.platform.client.store
  {
    ghost var s, log, added := session.platform.client.store, session.platform.client.log, [];
    AddedTemporary(s, p, session.iface);
    activation, err, added := session.platform.client.AddAndActivate(p);
    lost := LostAddition(p, added);
    LostByAdding(log, added, p, session.iface);
    if activation.uuid != "" {
      session.uuid := activation.uuid;
      session.profileRemoved := false;
    }
  }

  /** Waits for the access point, confirms that it is the active profile with the configured
      address, and only then prunes stray temporary profiles, recorded or not. */
  method ConfirmAccessPoint(session: Session, activation: Activation, o: ProvisioningOptions)
    returns (failure: Option<(string, string)>, ghost calls: seq<Call>)
    requires session.platform.client.Valid() && session.Deletable(session.platform.client.store)
    requires o.iface == session.iface && o.address.Some? && session.Owes() == Ledger(false, Some(activation.uuid), true)
    requires activation.uuid in session.platform.client.store
    modifies session.platform.client
    ensures session.platform.client.Valid() && session.Deletable(session.platform.client.store)
    ensures Permanent(session.platform.client.store, session.iface) ==
            old(Permanent(session.platform.client.store, session.iface))
    ensures session.Unrecorded() <= old(session.Unrecorded()) && session.Lost() == old(session.Lost())
    ensures session.platform.client.trace == old(session.platform.client.trace) + calls
    ensures failure.None? ==>
              && Temporaries(session.platform.client.store, session.iface) == {activation.uuid}
              && ConfirmedCalls(calls, activation, o.address.value.address)
    ensures failure.Some? ==> Unconfirmed(calls, activation, o.address.value.address)
  {
    var client := session.platform.client;
    var waited := client.WaitForActivation(activation.activePath);
    calls := [ActivationAwaited(activation.activePath, waited.None?)];
    if waited.Some? {
      failure := Some(("wait for provisioning AP", waited.value));
      return;
    }
    var status, failed := client.ReadStatus();
    calls := calls + [StatusRead(if failed.None? then Some(status) else None)];
    if failed.Some? {
      failure := Some(("confirm provisioning AP address", failed.value));
      return;
    }
    if !ConnectionActive(status, activation.uuid, o.address.value.address) {
      failure := Some(("confirm provisioning AP address", "device does not have expected address"));
      return;
    }
    ghost var added;
    var intent := Intent(o.iface, Provisioning, o.ssid, activation.uuid);
    ghost var before, log := client.store, client.log;
    client.NeverTouchedForeign();
    var finalized;
    finalized, added := client.FinalizeTransition(intent);
    ProvisioningPrunesOnly(intent, before, added);
    NoneLost(log, added, o.iface);
    calls := calls + [Finalized(finalized.None?)];
    if finalized.Some? {
      failure := Some(("finalize provisioning AP", finalized.value));
      return;
    }
    PrunedTemporaries(intent, before, client.store);
    failure := None;
  }

  /** Removes what a failed start left behind; a session that could not be removed in full
      is handed to the caller. */
  method StartFailure(session: Session, stage: string, cause: string)
    returns (left: Session?, err: Option<string>, ghost calls: seq<Call>, ghost r: Removed)
    requires session.platform.client.Valid() && session.Deletable(session.platform.client.store)
    requires Records(session.Owes(), session.platform.dns, false)
    modifies session`profileRemoved, session`dnsRemoved, session.platform`dns, session.platform.client
    ensures session.platform.client.Valid() && session.Deletable(session.platform.client.store)
    ensures Records(session.Owes(), session.platform.dns, false)
    ensures session.Unrecorded() == old(session.Unrecorded()) && session.Lost() == old(session.Lost())
    ensures old(session.Owes()).profile.None? ==> session.platform.client.store == old(session.platform.client.store)
    ensures Permanent(session.platform.client.store, session.iface) ==
            old(Permanent(session.platform.client.store, session.iface))
    ensures session.Owes() == StillOwed(old(session.Owes()), r) && calls == StopCalls(old(session.Owes()), r)
    ensures err.Some? && left == (if session.Owes() == NOTHING then null else session)
    ensures session.platform.client.trace == old(session.platform.client.trace) + calls
  {
    ghost var owed := session.Owes();
    var cleanup;
    cleanup, r := session.Stop();
    calls := StopCalls(owed, r);
    if cleanup.Some? {
      left, err := session, Some(stage + ": " + cause + "\n" + cleanup.value);
    } else {
      left, err := null, Some(stage + ": " + cause);
    }
  }

  /** How a start ends whose access point was added without a reply: nothing is waited for or
      deleted, only the DNS fragment is removed again, and no session records the profile. */
  ghost predicate LostCalls(calls: seq<Call>, removed: bool) {
    calls == [CandidateActivated(NO_ACTIVATION, false), DnsRemoved(removed)]
  }

  /** An entry that lost the reply to its addition: the ledger is empty, or owes the DNS
      fragment alone. */
  ghost predicate LostEntry(calls: seq<Call>, l: Ledger) {
    && |calls| == 3 && calls[0] == DnsInstalled(true) && LostCalls(calls[1..], l == NOTHING)
    && l == Ledger(false, None, l.dns)
  }

  /** What a start does about the temporary profiles nobody records, given the ones before it. */
  ghost predicate Recorded(before: set<Uuid>, after: set<Uuid>, lost: bool, p: Uuid) {
    && (p in after <==> lost) && after <= before + {p}
    && (lost ==> after == before + {p})
  }

  /** Starts the access point of a session whose DNS fragment is in place. */
  method Launch(started: Session, o: ProvisioningOptions, p: Profile)
    returns (session: Session?, err: Option<string>, ghost calls: seq<Call>, ghost lost: bool)
    requires started.platform.client.Valid() && Canonical(p.uuid) && p.uuid !in started.platform.client.store
    requires started.iface == o.iface && o.address.Some? && Temporary(p, o.iface)
    requires started.Owes() == Ledger(false, None, true)
    modifies started, started.platform`dns, started.platform.client
    ensures started.platform.client.Valid() && started.Deletable(started.platform.client.store)
    ensures Records(started.Owes(), started.platform.dns, false)
    ensures Recorded(old(started.Unrecorded()), started.Unrecorded(), lost, p.uuid)
    ensures started.Lost() == old(started.Lost()) + if lost then 1 else 0
    ensures Permanent(started.platform.client.store, o.iface) == old(Permanent(started.platform.client.store, o.iface))
    ensures started.platform.client.trace == old(started.platform.client.trace) + calls
    ensures session == (if started.Owes() == NOTHING then null else started)
    ensures lost ==>
              && err.Some? && LostCalls(calls, started.Owes() == NOTHING)
              && started.Owes() == Ledger(false, None, started.Owes().dns)
              && started.platform.client.store == old(started.platform.client.store)[p.uuid := p]
    ensures err.None? ==>
              && session != null && session.Owes() == Ledger(false, Some(p.uuid), true)
              && started.platform.dns == old(started.platform.dns)
              && Temporaries(started.platform.client.store, o.iface) == {p.uuid}
              && LaunchedCalls(calls, p.uuid, o.address.value.address)
    ensures err.Some? ==> LaunchUndone(calls, p.uuid, o.address.value.address)
  {
    ghost var before := started.platform.client.trace;
    var activation;
    activation, err, lost := ActivateAccessPoint(started, p);
    ghost var first := [CandidateActivated(activation, err.None?)];
    ghost var more, r := [], Removed(true, true, true);
    var failure := None;
    if err.Some? {
      failure := Some(("activate provisioning AP", err.value));
    } else {
      failure, more := ConfirmAccessPoint(started, activation, o);
    }
    calls := first + more;
    Reassociate(before, first, more);
    assert calls[1..] == more;
    if failure.Some? {
      ghost var tried := calls;
      assert LaunchFailed(tried, p.uuid, o.address.value.address);
      session, err, more, r := StartFailure(started, failure.value.0, failure.value.1);
      Reassociate(before, tried, more);
      calls := tried + more;
      assert more == StopCalls(Ledger(false, Named(tried[0]), true), r);
      return;
    }
    session := started;
  }

  ghost function OwedBy(session: Session?): Ledger
    reads session
  {
    if session == null then NOTHING else session.Owes()
  }

  /** What a start leaves behind is either removed or recorded in the session it returns, a
      profile whose addition was lost excepted. */
  ghost predicate Accounted(session: Session?, dns: bool, s: Store, iface: string)
    reads session
  {
    && Records(OwedBy(session), dns, false)
    && (session != null ==> session.iface == iface && session.Deletable(s) && session.Owes() != NOTHING)
  }

  method StartWith(platform: Platform, o: ProvisioningOptions, p: Profile)
    returns (session: Session?, err: Option<string>, ghost calls: seq<Call>, ghost lost: bool)
    requires platform.client.Valid() && Canonical(p.uuid) && p.uuid !in platform.client.store
    requires o.address.Some? && Temporary(p, o.iface) && !platform.dns
    modifies platform`dns, platform.client
    ensures platform.client.Valid() && Accounted(session, platform.dns, platform.client.store, o.iface)
    ensures session != null ==> fresh(session) && session.platform == platform
    ensures Permanent(platform.client.store, o.iface) == old(Permanent(platform.client.store, o.iface))
    ensures Recorded(old(Temporaries(platform.client.store, o.iface)),
                     Strays(OwedBy(session), platform.client.store, o.iface), lost, p.uuid)
    ensures LostAdditions(platform.client.log, o.iface) ==
            old(LostAdditions(platform.client.log, o.iface)) + if lost then 1 else 0
    ensures platform.client.trace == old(platform.client.trace) + calls
    ensures lost ==>
              && err.Some? && LostEntry(calls, OwedBy(session))
              && platform.client.store == old(platform.client.store)[p.uuid := p]
    ensures err.None? ==>
              && session != null && session.Owes() == Ledger(false, Some(p.uuid), true)
              && platform.dns && Temporaries(platform.client.store, o.iface) == {p.uuid}
              && EnteredCalls(calls + [RedirectInstalled(true)], p.uuid, o.address.value.address)
    ensures err.Some? ==> StartFailed(calls, p.uuid, o.address.value.address)
    ensures calls != []
  {
    session, lost := null, false;
    err := platform.InstallDns();
    calls := [DnsInstalled(err.None?)];
    if err.Some? {
      err := Some("prepare captive DNS: " + err.value);
      return;
    }
    var started := new Session(platform, o.iface);
    ghost var more;
    session, err, more, lost := Launch(started, o, p);
    Reassociate(old(platform.client.trace), calls, more);
    calls := calls + more;
    assert calls[1..] == more;
    assert err.None? ==> (calls + [RedirectInstalled(true)])[1..5] == more;
  }

  /** Refuses unusable options before anything is touched. */
  method Start(platform: Platform, o: ProvisioningOptions, generated: Uuid)
    returns (session: Session?, err: Option<string>, ghost calls: seq<Call>, ghost lost: bool)
    requires platform.client.Valid() && Canonical(generated) && generated !in platform.client.store && !platform.dns
    modifies platform`dns, platform.client
    ensures platform.client.Valid() && Accounted(session, platform.dns, platform.client.store, o.iface)
    ensures session != null ==> fresh(session) && session.platform == platform
    ensures Permanent(platform.client.store, o.iface) == old(Permanent(platform.client.store, o.iface))
    ensures Recorded(old(Temporaries(platform.client.store, o.iface)),
                     Strays(OwedBy(session), platform.client.store, o.iface), lost, generated)
    ensures LostAdditions(platform.client.log, o.iface) ==
            old(LostAdditions(platform.client.log, o.iface)) + if lost then 1 else 0
    ensures platform.client.trace == old(platform.client.trace) + calls
    ensures lost ==>
              && err.Some? && StartError(o, generated).None?
              && LostEntry(calls, OwedBy(session))
              && platform.client.store == old(platform.client.store)[generated := ProvisioningProfile(o, generated)]
    ensures err.None? ==>
              && o.address.Some? && session != null && session.Owes() == Ledger(false, Some(generated), true)
              && platform.dns && Temporaries(platform.client.store, o.iface) == {generated}
              && EnteredCalls(calls + [RedirectInstalled(true)], generated, o.address.value.address)
    ensures StartError(o, generated).Some? ==>
              err == StartError(o, generated) && calls == [] && platform.client.store == old(platform.client.store)
    ensures StartError(o, generated).None? && err.Some? ==> StartFailed(calls, generated, o.address.value.address)
  {
    var refusal := StartError(o, generated);
    if refusal.Some? {
      session, err, calls, lost := null, refusal, [], false;
      return;
    }
    var p := ProvisioningProfile(o, generated);
    ProvisioningProfileIsTemporary(o, generated);
    session, err, calls, lost := StartWith(platform, o, p);
  }

  class Manager {
    const platform: Platform
    const options: ProvisioningOptions
    var session: Session?
    var redirectNeedsRemove: bool
    var active: bool

    constructor (platform: Platform, options: ProvisioningOptions)
      ensures this.platform == platform && this.options == options && Unused()
    {
      this.platform, this.options := platform, options;
      session, redirectNeedsRemove, active := null, false, false;
    }

    ghost predicate Unused()
      reads this
    {
      session == null && !redirectNeedsRemove && !active
    }

    ghost function Owes(): Ledger
      reads this, session
    {
      if session == null then Ledger(redirectNeedsRemove, None, false)
      else session.Owes().(redirect := redirectNeedsRemove)
    }

    /** Temporary profiles that no ledger entry records. */
    ghost function Unrecorded(): set<Uuid>
      reads this, session, platform, platform.client
    {
      Strays(Owes(), platform.client.store, options.iface)
    }

    ghost function Lost(): nat
      reads platform, platform.client
    {
      LostAdditions(platform.client.log, options.iface)
    }

    /** The ledger records everything that may exist outside, except for profiles whose addition
        was lost, and a manager that calls itself active owes all three resources. */
    ghost predicate Sound()
      reads this, session, platform, platform.client
    {
      && platform.client.Valid()
      && (session != null ==>
           && session.platform == platform && session.iface == options.iface
           && session.Deletable(platform.client.store) && session.Owes() != NOTHING)
      && Records(Owes(), platform.dns, platform.table)
      && (active ==> Owes().redirect && Owes().profile.Some? && Owes().dns)
    }

    ghost predicate NothingRemains()
      reads platform, platform.client
    {
      !platform.dns && !platform.table && Temporaries(platform.client.store, options.iface) == {}
    }

    ghost function Others(): Store
      reads platform, platform.client
    {
      Permanent(platform.client.store, options.iface)
    }

    /** Removes what a previous process may have left behind: all three removals are attempted,
        whichever fails, if there is an interface. Success is what makes the empty ledger of a new manager sound. */
    method RecoverStartup() returns (err: Option<string>, ghost added: seq<Attempt>)
      requires platform.client.Valid() && "" !in platform.client.store
      modifies platform`dns, platform`table, platform.client
      ensures platform.client.Valid() && Others() == old(Others())
      ensures !Unused() ==> err.Some? && platform.client.trace == old(platform.client.trace)
      ensures Unused() && options.iface == "" ==>
                err.Some? && exists a :: platform.client.trace == old(platform.client.trace) + [RedirectRemoved(a)]
      ensures Unused() && options.iface != "" ==>
                exists a, b, c ::
                  platform.client.trace == old(platform.client.trace) + [RedirectRemoved(a), Finalized(b), DnsRemoved(c)] &&
                  (err.None? <==> a && b && c)
      ensures old(platform.client.replies) <= platform.client.replies
      ensures platform.client.log == old(platform.client.log) + added
      ensures platform.client.store == Replay(old(platform.client.store), added)
      ensures Run(StartupCleanup(options.iface), old(platform.client.store), added)
      ensures Lost() == old(Lost()) && Temporaries(platform.client.store, options.iface) <=
                                       old(Temporaries(platform.client.store, options.iface))
      ensures err.None? ==> Sound() && NothingRemains() && Unrecorded() == {}
    {
      added := [];
      if active || session != null || redirectNeedsRemove {
        return Some("startup recovery requires an unused captive manager"), added;
      }
      ghost var calls, before, log := platform.client.trace, platform.client.store, platform.client.log;
      var redirectErr := platform.RemoveRedirect();
      if options.iface == "" {
        return Some("interface is required"), added;
      }
      platform.client.NeverTouchedForeign();
      var intent := Intent(options.iface, Provisioning, "", "");
      var profileErr;
      profileErr, added := platform.client.FinalizeTransition(intent);
      ProvisioningPrunesOnly(intent, before, added);
      PruningIsCleanup(intent, before, added);
      NoneLost(log, added, options.iface);
      if profileErr.None? {
        PrunedTemporaries(intent, before, platform.client.store);
      }
      var dnsErr := platform.RemoveDns();
      assert platform.client.trace ==
             calls + [RedirectRemoved(redirectErr.None?), Finalized(profileErr.None?), DnsRemoved(dnsErr.None?)];
      err := if redirectErr.Some? then redirectErr else if profileErr.Some? then profileErr else dnsErr;
    }

    /** Removes the nft table if it is owed. */
    method DropRedirect() returns (err: Option<string>)
      requires Sound() && !active
      modifies this`redirectNeedsRemove, platform`table, platform.client`trace
      ensures Sound() && Owes() == old(Owes()).(redirect := redirectNeedsRemove) && (redirectNeedsRemove <==> err != None)
      ensures redirectNeedsRemove ==> old(redirectNeedsRemove)
      ensures platform.client.trace == old(platform.client.trace) +
              (if old(redirectNeedsRemove) then [RedirectRemoved(err.None?)] else [])
    {
      if !redirectNeedsRemove {
        return None;
      }
      err := platform.RemoveRedirect();
      redirectNeedsRemove := !err.None?;
    }

    /** Stops the session if there is one, and forgets it once it owes nothing. */
    method StopSession() returns (err: Option<string>, ghost r: Removed)
      requires Sound() && !active
      modifies this`session, platform`dns, platform.client
      modifies if session == null then {} else {session}
      ensures Sound() && Others() == old(Others())
      ensures platform.client.store.Keys <= old(platform.client.store.Keys)
      ensures Unrecorded() == old(Unrecorded()) && Lost() == old(Lost())
      ensures session == null || session == old(session)
      ensures err.None? <==> session == null
      ensures Owes() == StillOwed(old(Owes()), r.(redirect := false))
      ensures platform.client.trace == old(platform.client.trace) + StopCalls(old(Owes()), r)
    {
      if session == null {
        return None, Removed(true, true, true);
      }
      err, r := session.Stop();
      if err.None? {
        session := null;
      }
    }

    /** Attempts every removal that is owed, forgets exactly what it removed, and succeeds
        exactly when nothing is owed any more. */
    method CleanupLocked() returns (err: Option<string>, ghost r: Removed)
      requires Sound() && !active
      modifies this`session, this`redirectNeedsRemove, platform, platform.client
      modifies if session == null then {} else {session}
      ensures Sound() && Others() == old(Others())
      ensures session == null || session == old(session)
      ensures Unrecorded() == old(Unrecorded()) && Lost() == old(Lost())
      ensures platform.client.store.Keys <= old(platform.client.store.Keys)
      ensures Owes() == StillOwed(old(Owes()), r)
      ensures err.None? <==> Owes() == NOTHING
      ensures platform.client.trace == old(platform.client.trace) + Removals(old(Owes()), r)
    {
      ghost var owed, before := Owes(), platform.client.trace;
      var redirectErr := DropRedirect();
      var sessionErr;
      sessionErr, r := StopSession();
      RemovalsCompose(owed, redirectErr.None?, r);
      r := r.(redirect := redirectErr.None?);
      Reassociate(before, if owed.redirect then [RedirectRemoved(r.redirect)] else [], StopCalls(owed, r));
      err := if redirectErr.None? then sessionErr else redirectErr;
    }

    /** Finishes an earlier cleanup first, so a new session never hides an old debt. */
    method FinishCleanup() returns (err: Option<string>, ghost r: Removed)
      requires Sound() && !active
      modifies this`session, this`redirectNeedsRemove, platform, platform.client
      modifies if session == null then {} else {session}
      ensures Sound() && Others() == old(Others())
      ensures session == null || session == old(session)
      ensures Unrecorded() == old(Unrecorded()) && Lost() == old(Lost())
      ensures platform.client.store.Keys <= old(platform.client.store.Keys)
      ensures Owes() == StillOwed(old(Owes()), r)
      ensures err.None? <==> Owes() == NOTHING
      ensures platform.client.trace == old(platform.client.trace) + Removals(old(Owes()), r)
    {
      if session != null || redirectNeedsRemove {
        err, r := CleanupLocked();
        if err.Some? {
          err := Some("finish previous captive cleanup: " + err.value);
        }
      } else {
        err, r := None, Removed(true, true, true);
      }
    }

    /** The options are refused before anything is touched. */
    predicate Refused(generated: Uuid)
      ensures !Refused(generated) ==> options.address.Some?
    {
      StartError(options, generated).Some?
    }

    /** Installs the redirect for a started session. The debt is recorded before the attempt,
        because a failed installation can leave rules behind. */
    method InstallRedirect() returns (err: Option<string>, ghost calls: seq<Call>)
      requires Sound() && !active && session != null && session.Owes().profile.Some? && session.Owes().dns
      modifies this, session, platform, platform.client
      ensures Sound() && Others() == old(Others())
      ensures Unrecorded() == old(Unrecorded()) && Lost() == old(Lost())
      ensures session == null || session == old(session)
      ensures err.None? <==> active
      ensures err.None? ==>
                && platform.table && platform.dns == old(platform.dns)
                && platform.client.store == old(platform.client.store)
                && calls == [RedirectInstalled(true)]
      ensures err.Some? ==> exists r :: calls == [RedirectInstalled(false)] + Removals(old(Owes()).(redirect := true), r)
      ensures platform.client.trace == old(platform.client.trace) + calls
    {
      redirectNeedsRemove := true;
      err := platform.InstallRedirect();
      calls := [RedirectInstalled(err.None?)];
      if err.None? {
        active := true;
        return;
      }
      ghost var owed := Owes();
      assert owed == old(Owes()).(redirect := true);
      var cleanup;
      ghost var r;
      cleanup, r := CleanupLocked();
      Reassociate(old(platform.client.trace), calls, Removals(owed, r));
      calls := calls + Removals(owed, r);
      err := Some("install captive HTTP redirect: " + err.value + (if cleanup.Some? then "\n" + cleanup.value else ""));
    }

    /** Starts a session and records whatever it left behind. */
    method StartSession(generated: Uuid) returns (err: Option<string>, ghost calls: seq<Call>, ghost lost: bool)
      requires Sound() && !active && Owes() == NOTHING
      requires Canonical(generated) && generated !in platform.client.store
      modifies this`session, platform`dns, platform.client
      ensures Sound() && Others() == old(Others())
      ensures session != null ==> fresh(session)
      ensures Recorded(old(Unrecorded()), Unrecorded(), lost, generated)
      ensures Lost() == old(Lost()) + if lost then 1 else 0
      ensures lost ==> err.Some? && LostEntry(calls, Owes())
      ensures err.Some? ==> Refused(generated) || StartFailed(calls, generated, options.address.value.address)
      ensures err.None? ==>
                && session != null && session.Owes() == Ledger(false, Some(generated), true)
                && options.address.Some?
                && EnteredCalls(calls + [RedirectInstalled(true)], generated, options.address.value.address)
                && platform.dns && Temporaries(platform.client.store, options.iface) == {generated}
      ensures platform.client.trace == old(platform.client.trace) + calls
    {
      assert !platform.dns && Unrecorded() == Temporaries(platform.client.store, options.iface);
      session, err, calls, lost := Start(platform, options, generated);
      assert Owes() == OwedBy(session);
    }

    /** Starts a session and installs the redirect, on a clean slate. */
    method EnterClean(generated: Uuid) returns (err: Option<string>, ghost calls: seq<Call>, ghost lost: bool)
      requires Sound() && !active && Owes() == NOTHING
      requires Canonical(generated) && generated !in platform.client.store
      modifies this, platform, platform.client
      ensures Sound() && Others() == old(Others())
      ensures session != null ==> fresh(session)
      ensures Recorded(old(Unrecorded()), Unrecorded(), lost, generated)
      ensures Lost() == old(Lost()) + if lost then 1 else 0
      ensures lost ==> err.Some? && LostEntry(calls, Owes())
      ensures err.Some? ==> Refused(generated) || Troubled(calls, generated, options.address.value.address)
      ensures err.None? <==> active
      ensures err.None? ==>
                && options.address.Some? && EnteredCalls(calls, generated, options.address.value.address)
                && platform.dns && platform.table
                && Temporaries(platform.client.store, options.iface) == {generated}
      ensures platform.client.trace == old(platform.client.trace) + calls
    {
      err, calls, lost := StartSession(generated);
      if err.Some? {
        if !Refused(generated) {
          StartFailureIsTrouble(calls, generated, options.address.value.address);
        }
        return;
      }
      ghost var more;
      err, more := InstallRedirect();
      Reassociate(old(platform.client.trace), calls, more);
      if err.Some? {
        RedirectFailureIsTrouble(calls, more, generated, options.address.value.address);
      }
      calls := calls + more;
    }

    /** Succeeds exactly when captive mode is active afterwards. A fresh entry leaves the
        configured access point as the only temporary profile, with the DNS fragment and the
        redirect in place; no other profile changes either way. */
    method EnterProvisioning(generated: Uuid)
      returns (err: Option<string>, ghost r: Removed, ghost calls: seq<Call>, ghost lost: bool)
      requires Sound() && Canonical(generated) && generated !in platform.client.store
      modifies this, platform, platform.client
      modifies if session == null then {} else {session}
      ensures Sound() && Others() == old(Others())
      ensures session != null ==> session == old(session) || fresh(session)
      ensures Recorded(old(Unrecorded()), Unrecorded(), lost, generated)
      ensures Lost() == old(Lost()) + if lost then 1 else 0
      ensures old(Unrecorded()) == {} ==> (Unrecorded() == {} <==> Lost() == old(Lost()))
      ensures Tracked(old(Unrecorded()), old(Lost()), Unrecorded(), Lost())
      ensures lost ==> err.Some? && LostEntry(calls, Owes())
      ensures err.Some? ==>
                || Refused(generated) || SomeFailed(Removals(old(Owes()), r))
                || Troubled(calls, generated, options.address.value.address)
      ensures err.None? <==> active
      ensures old(active) ==>
                platform.client.store == old(platform.client.store) && platform.client.trace == old(platform.client.trace)
      ensures !old(active) ==>
                platform.client.trace == old(platform.client.trace) + Removals(old(Owes()), r) + calls
      ensures !old(active) && err.None? ==>
                && options.address.Some? && EnteredCalls(calls, generated, options.address.value.address)
                && platform.dns && platform.table && Unrecorded() == {}
                && Temporaries(platform.client.store, options.iface) == {generated}
    {
      r, calls, err, lost := Removed(true, true, true), [], None, false;
      if active {
        return;
      }
      err, r := FinishCleanup();
      if err.Some? {
        OwedMeansFailed(old(Owes()), r);
        return;
      }
      err, calls, lost := EnterClean(generated);
    }

    /** A nil result means nothing captive remains but the profiles nobody recorded: nothing at all
        exactly when there were none. Otherwise exactly the failed removals stay owed, and the
        next call retries them. */
    method LeaveProvisioning() returns (err: Option<string>, ghost r: Removed)
      requires Sound()
      modifies this, platform, platform.client
      modifies if session == null then {} else {session}
      ensures Sound() && !active && Others() == old(Others())
      ensures Unrecorded() == old(Unrecorded()) && Lost() == old(Lost())
      ensures Tracked(old(Unrecorded()), old(Lost()), Unrecorded(), Lost())
      ensures session == null || session == old(session)
      ensures Owes() == StillOwed(old(Owes()), r)
      ensures err.None? <==> Owes() == NOTHING
      ensures err.None? ==> Temporaries(platform.client.store, options.iface) == old(Unrecorded())
      ensures err.None? ==> (NothingRemains() <==> old(Unrecorded()) == {})
      ensures platform.client.trace == old(platform.client.trace) + Removals(old(Owes()), r)
    {
      if session == null && !redirectNeedsRemove {
        return None, Removed(true, true, true);
      }
      active := false;
      err, r := CleanupLocked();
    }
  }

  lemma RecoveryFailed(before: seq<Call>, after: seq<Call>)
    requires exists a, b, c :: after == before + [RedirectRemoved(a), Finalized(b), DnsRemoved(c)] && !(a && b && c)
    ensures before <= after && SomeFailed(after[|before|..])
  {
    var a, b, c :| after == before + [RedirectRemoved(a), Finalized(b), DnsRemoved(c)] && !(a && b && c);
    var calls := [RedirectRemoved(a), Finalized(b), DnsRemoved(c)];
    assert after[|before|..] == calls;
    assert calls[0] in calls && calls[1] in calls && calls[2] in calls;
  }

  /** What the daemon does before it serves anything: both recoveries run, whichever fails,
      and together they delete nothing that the crash guarantee does not allow. */
  method RecoverAppliance(manager: Manager) returns (err: Option<string>, ghost added: seq<Attempt>)
    requires manager.platform.client.Valid() && "" !in manager.platform.client.store && manager.Unused()
    modifies manager.platform`dns, manager.platform`table, manager.platform.client
    ensures manager.platform.client.Valid()
    ensures manager.platform.client.store == Replay(old(manager.platform.client.store), added)
    ensures Run(StartupCleanup(manager.options.iface), old(manager.platform.client.store), added)
    ensures err.None? ==> manager.Sound() && manager.NothingRemains() && manager.Unrecorded() == {}
    ensures err.None? ==>
              forall u :: u in manager.platform.client.store ==>
                !Pending(manager.platform.client.store[u], manager.options.iface)
    ensures var client := manager.platform.client;
            err.Some? && manager.options.iface != "" ==>
              || (old(client.trace) <= client.trace && SomeFailed(client.trace[|old(client.trace)|..]))
              || !AllAnswered(old(client.replies), client.replies) || !EndsWell(added)
  {
    var client := manager.platform.client;
    ghost var before := client.store;
    var captiveErr;
    captiveErr, added := manager.RecoverStartup();
    ghost var between, more, halfway, calls := client.store, [], client.replies, client.trace;
    if captiveErr.Some? && manager.options.iface != "" {
      RecoveryFailed(old(client.trace), calls);
    }
    var pendingErr;
    pendingErr, more := client.DeletePendingInfrastructureProfiles(manager.options.iface);
    RepliesCompose(old(client.replies), halfway, client.replies);
    RunAppend(StartupCleanup(manager.options.iface), before, added, more);
    ReplayAppend(before, added, more);
    added := added + more;
    err := if captiveErr.Some? then captiveErr else pendingErr;
  }
}
