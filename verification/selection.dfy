/** Which durable writes a transition may issue, and what every crash point between two
    of them leaves behind. */
module Selection {
  import opened Profiles

  /** The arguments of FinalizeTransition: the mode being selected and the candidate. */
  datatype Intent = Intent(iface: string, role: Role, ssid: string, keep: Uuid)

  predicate InScope(t: Intent, p: Profile) {
    p.iface == t.iface && p.role == t.role && (t.role == Infrastructure ==> p.ssid == t.ssid)
  }

  predicate Superseded(t: Intent, p: Profile) {
    p.owned && p.uuid != t.keep && InScope(t, p)
  }

  /** Autoconnect marks exactly the selected mode. */
  ghost predicate Intended(s: Store, iface: string, role: Role) {
    forall u :: u in s && Production(s[u], iface) ==> s[u].autoconnect == (s[u].role == role)
  }

  ghost predicate AllEnabled(s: Store, iface: string, role: Role) {
    forall u :: u in s && Production(s[u], iface) && s[u].role == role ==> s[u].autoconnect
  }

  /** The writes of the forward path, with what is known when each is issued. */
  ghost predicate Allowed(t: Intent, s: Store, w: Write) {
    match w
    case Add(p) => p.uuid == t.keep && p.uuid !in s && p.owned && InScope(t, p) && !p.autoconnect
    case SetAutoconnect(u, enabled) =>
      && u in s && Production(s[u], t.iface)
      && s[u].autoconnect != enabled && enabled == (s[u].role == t.role)
      && (!enabled ==> AllEnabled(s, t.iface, t.role))
    case Delete(u) =>
      && u != t.keep && (u in s ==> Superseded(t, s[u]))
      && (t.role != Provisioning ==> Intended(s, t.iface, t.role))
  }

  ghost function ForwardPath(t: Intent): (Store, Write) -> bool {
    (s: Store, w: Write) => Allowed(t, s, w)
  }

  /** What NetworkManager still holds after the daemon dies; a power cut also loses the
      profiles that were never written to disk. */
  function AfterCrash(s: Store, powerCut: bool): Store {
    map u | u in s && (powerCut ==> !s[u].inMemory) :: s[u]
  }

  /** Some production mode would still come up on its own at the next boot. */
  ghost predicate Bootable(s: Store, iface: string, powerCut: bool) {
    exists u :: u in s && Startable(s[u], iface, powerCut)
  }

  predicate Startable(p: Profile, iface: string, powerCut: bool) {
    Production(p, iface) && p.autoconnect && (powerCut ==> !p.inMemory)
  }

  /** An uncommitted candidate never starts on its own. */
  ghost predicate PendingIsInert(s: Store) {
    forall u :: u in s && s[u].pending ==> !s[u].autoconnect
  }

  /** What startup removes before reconciling: temporary access points and uncommitted
      infrastructure candidates, owned and on this interface. */
  predicate CleanupTarget(p: Profile, iface: string) {
    p.owned && p.iface == iface &&
    (p.role == Provisioning || (p.role == Infrastructure && p.pending))
  }

  ghost function StartupCleanup(iface: string): (Store, Write) -> bool {
    (s: Store, w: Write) => w.Delete? && (w.uuid in s ==> CleanupTarget(s[w.uuid], iface))
  }

  /** No other process removes the profile while one of these writes is aimed at it. */
  ghost predicate Undisturbed(log: seq<Attempt>, u: Uuid) {
    forall a :: a in log && Target(a.write) == u ==> a.outcome != Gone
  }

  /** A profile of the selected mode that finalization enables and keeps, and that a power cut
      does not lose. */
  predicate Survivor(t: Intent, s: Store, u: Uuid, powerCut: bool) {
    && u in s && Production(s[u], t.iface) && s[u].role == t.role && !Superseded(t, s[u])
    && (powerCut ==> !s[u].inMemory)
  }

  /** A candidate can only be added by the first write, and if that fails nothing follows. */
  ghost predicate AddsFirst(log: seq<Attempt>) {
    && (forall i :: 0 < i < |log| ==> !log[i].write.Add?)
    && (log != [] && log[0].write.Add? && log[0].outcome != Done ==> |log| == 1)
  }

  /** The store with the candidate that the log starts by adding, if it does. */
  function Opened(s: Store, log: seq<Attempt>): Store {
    if log != [] && log[0].write.Add? then s[log[0].write.profile.uuid := log[0].write.profile] else s
  }

  lemma {:induction false} AddKeepsBootable(t: Intent, s: Store, a: Attempt, powerCut: bool)
    requires Allowed(t, s, a.write) && a.write.Add?
    requires Bootable(s, t.iface, powerCut) && PendingIsInert(s)
    ensures Bootable(Effect(s, a), t.iface, powerCut) && PendingIsInert(Effect(s, a))
    ensures a.outcome == Done ==> Effect(s, a) == Opened(s, [a])
  {
    var u :| u in s && Startable(s[u], t.iface, powerCut);
    assert u in Effect(s, a) && Startable(Effect(s, a)[u], t.iface, powerCut);
  }

  /** One write keeps some mode bootable as long as a survivor `v` is there to fall back on. */
  lemma {:induction false} StepKeepsBootable(t: Intent, s: Store, a: Attempt, powerCut: bool, v: Uuid)
    requires t.role == Infrastructure || t.role == Standalone
    requires Allowed(t, s, a.write) && !a.write.Add?
    requires Survivor(t, s, v, powerCut) && (Target(a.write) == v ==> a.outcome != Gone)
    requires Bootable(s, t.iface, powerCut) && PendingIsInert(s)
    ensures Bootable(Effect(s, a), t.iface, powerCut) && PendingIsInert(Effect(s, a))
    ensures Survivor(t, Effect(s, a), v, powerCut)
  {
    var u :| u in s && Startable(s[u], t.iface, powerCut);
    var s' := Effect(s, a);
    if a.write.SetAutoconnect? && a.write.enabled {
      assert u in s' && Startable(s'[u], t.iface, powerCut);
    } else {
      assert v in s' && (a.outcome == Refused || Startable(s'[v], t.iface, powerCut));
    }
  }

  /** Every crash point of the forward path keeps a mode bootable, given any survivor. */
  lemma {:induction false} ForwardPathKeepsBootable(t: Intent, s: Store, log: seq<Attempt>, powerCut: bool, v: Uuid)
    requires t.role == Infrastructure || t.role == Standalone
    requires Run(ForwardPath(t), s, log) && AddsFirst(log)
    requires Survivor(t, Opened(s, log), v, powerCut) && Undisturbed(log, v)
    requires Bootable(s, t.iface, powerCut) && PendingIsInert(s)
    ensures Bootable(Replay(s, log), t.iface, powerCut) && PendingIsInert(Replay(s, log))
    ensures log != [] && (log[0].write.Add? ==> log[0].outcome == Done) ==> Survivor(t, Replay(s, log), v, powerCut)
  {
    if log != [] {
      var n := |log| - 1;
      var front, last := log[..n], log[n];
      RunPrefix(ForwardPath(t), s, log, n);
      assert forall a :: a in front ==> a in log;
      assert last in log && ForwardPath(t)(Replay(s, front), last.write);
      if n == 0 && last.write.Add? {
        AddKeepsBootable(t, s, last, powerCut);
      } else {
        if n > 0 {
          assert front[0] == log[0];
          ForwardPathKeepsBootable(t, s, front, powerCut, v);
        }
        StepKeepsBootable(t, Replay(s, front), last, powerCut, v);
      }
    }
  }

  lemma {:induction false} CleanupKeepsBootable(iface: string, s: Store, log: seq<Attempt>, powerCut: bool)
    requires Run(StartupCleanup(iface), s, log)
    requires Bootable(s, iface, powerCut) && PendingIsInert(s)
    ensures Bootable(Replay(s, log), iface, powerCut) && PendingIsInert(Replay(s, log))
  {
    if log != [] {
      var n := |log| - 1;
      var before := Replay(s, log[..n]);
      RunPrefix(StartupCleanup(iface), s, log, n);
      CleanupKeepsBootable(iface, s, log[..n], powerCut);
      assert StartupCleanup(iface)(before, log[n].write);
      var u :| u in before && Startable(before[u], iface, powerCut);
      assert u in Effect(before, log[n]);
    }
  }

  /** What is left of a run that was stopped after `k` writes. */
  function Wreck(s: Store, log: seq<Attempt>, k: nat, powerCut: bool): Store
    requires k <= |log|
  {
    AfterCrash(Replay(s, log[..k]), powerCut)
  }

  /** A restart: the run stopped after `k` writes, then any part of the startup cleanup. */
  ghost predicate Restart(iface: string, s: Store, log: seq<Attempt>, k: nat, powerCut: bool, cleanup: seq<Attempt>) {
    k <= |log| && Run(StartupCleanup(iface), Wreck(s, log, k, powerCut), cleanup)
  }

  ghost predicate SurvivesEveryCrash(iface: string, s: Store, log: seq<Attempt>, powerCut: bool) {
    forall k: nat, cleanup :: Restart(iface, s, log, k, powerCut, cleanup) ==>
      Bootable(Replay(Wreck(s, log, k, powerCut), cleanup), iface, powerCut)
  }

  lemma {:induction false} CrashKeepsBootable(s: Store, iface: string, powerCut: bool)
    requires Bootable(s, iface, powerCut) && PendingIsInert(s)
    ensures Bootable(AfterCrash(s, powerCut), iface, powerCut) && PendingIsInert(AfterCrash(s, powerCut))
  {
    var u :| u in s && Startable(s[u], iface, powerCut);
    assert u in AfterCrash(s, powerCut);
  }

  /** Losing what is only in memory does not change what can start from disk. */
  lemma {:induction false} CrashDecidesNothing(s: Store, iface: string, powerCut: bool)
    ensures Bootable(AfterCrash(s, powerCut), iface, powerCut) <==> Bootable(s, iface, powerCut)
  {
    if u :| u in s && Startable(s[u], iface, powerCut) {
      assert u in AfterCrash(s, powerCut) && Startable(AfterCrash(s, powerCut)[u], iface, powerCut);
    }
    if u :| u in AfterCrash(s, powerCut) && Startable(AfterCrash(s, powerCut)[u], iface, powerCut) {
      assert u in s && Startable(s[u], iface, powerCut);
    }
  }

  /** Crash consistency. Stop the forward path after any number of writes, lose power or
      not, and run any part of the startup cleanup: if some production mode could boot
      before the transition and the store holds a survivor, one still can. */
  lemma {:induction false} CrashConsistency(t: Intent, s: Store, log: seq<Attempt>, k: nat, powerCut: bool,
                         cleanup: seq<Attempt>, v: Uuid)
    requires t.role == Infrastructure || t.role == Standalone
    requires Run(ForwardPath(t), s, log) && AddsFirst(log)
    requires Survivor(t, Opened(s, log), v, powerCut) && Undisturbed(log, v)
    requires Bootable(s, t.iface, powerCut) && PendingIsInert(s)
    requires Restart(t.iface, s, log, k, powerCut, cleanup)
    ensures Bootable(Replay(Wreck(s, log, k, powerCut), cleanup), t.iface, powerCut)
  {
    if k > 0 {
      RunPrefix(ForwardPath(t), s, log, k);
      assert forall a :: a in log[..k] ==> a in log;
      assert log[..k][0] == log[0];
      ForwardPathKeepsBootable(t, s, log[..k], powerCut, v);
    }
    CrashKeepsBootable(Replay(s, log[..k]), t.iface, powerCut);
    CleanupKeepsBootable(t.iface, Wreck(s, log, k, powerCut), cleanup, powerCut);
  }

  /** What another process removed stays removed. */
  lemma {:induction false} GoneStaysGone(s: Store, log: seq<Attempt>, a: Attempt)
    requires AddsFirst(log) && a in log && a.outcome == Gone
    ensures Target(a.write) !in Replay(s, log)
  {
    var n := |log| - 1;
    if log[n] != a {
      assert log == log[..n] + [log[n]];
      GoneStaysGone(s, log[..n], a);
    }
  }

  lemma {:induction false} SettledStartable(t: Intent, s: Store, s': Store, powerCut: bool, v: Uuid)
    requires t.role == Infrastructure || t.role == Standalone
    requires Settled(t, s, s') && v in s'
    ensures v in s && (Startable(s'[v], t.iface, powerCut) <==> Survivor(t, s, v, powerCut))
  {
    var mid: Store :| SelectedFrom(s, mid, t.iface, t.role) && Pruned(t, mid, s');
    assert s'[v] == mid[v] == Reassigned(s[v], t.iface, t.role) && !Superseded(t, mid[v]);
  }

  /** After a finalization that went through, the device boots on its own exactly when a
      survivor of the store before it is still there. */
  lemma {:induction false} SettledBootsIff(t: Intent, s: Store, s': Store, powerCut: bool)
    requires t.role == Infrastructure || t.role == Standalone
    requires Settled(t, s, s')
    ensures Bootable(s', t.iface, powerCut) <==> exists v :: Survivor(t, s, v, powerCut) && v in s'
  {
    forall v | v in s' ensures v in s && (Startable(s'[v], t.iface, powerCut) <==> Survivor(t, s, v, powerCut)) {
      SettledStartable(t, s, s', powerCut, v);
    }
  }

  lemma {:induction false} StepKeepsSurvivor(t: Intent, s: Store, a: Attempt, powerCut: bool, v: Uuid)
    requires Allowed(t, s, a.write) && Survivor(t, s, v, powerCut)
    requires !a.write.Add? && (Target(a.write) == v ==> a.outcome != Gone)
    ensures Survivor(t, Effect(s, a), v, powerCut)
  {
  }

  /** And a survivor that nothing disturbed is still there. */
  lemma {:induction false} SurvivorStays(t: Intent, s: Store, log: seq<Attempt>, powerCut: bool, v: Uuid)
    requires Run(ForwardPath(t), s, log) && AddsFirst(log) && log != []
    requires Survivor(t, Opened(s, log), v, powerCut) && Undisturbed(log, v)
    requires log[0].write.Add? ==> log[0].outcome == Done
    ensures Survivor(t, Replay(s, log), v, powerCut)
  {
    var n := |log| - 1;
    var front, last := log[..n], log[n];
    assert last in log && ForwardPath(t)(Replay(s, front), last.write);
    assert forall a :: a in front ==> a in log;
    if n > 0 {
      assert front[0] == log[0];
      SurvivorStays(t, s, front, powerCut, v);
      StepKeepsSurvivor(t, Replay(s, front), last, powerCut, v);
    } else if !last.write.Add? {
      StepKeepsSurvivor(t, s, last, powerCut, v);
    }
  }

  /** Exactly when a transition survives every crash. Of a run that ends in a settled store:
      every crash point, with any part of the startup cleanup after it, leaves a mode
      bootable, if and only if the store held a survivor that no other process removed
      while the run wrote to it. */
  lemma {:induction false} EligibilityIff(t: Intent, s: Store, log: seq<Attempt>, powerCut: bool)
    requires t.role == Infrastructure || t.role == Standalone
    requires Run(ForwardPath(t), s, log) && AddsFirst(log)
    requires Bootable(s, t.iface, powerCut) && PendingIsInert(s)
    requires Settled(t, Opened(s, log), Replay(s, log))
    ensures SurvivesEveryCrash(t.iface, s, log, powerCut) <==>
            exists v :: Survivor(t, Opened(s, log), v, powerCut) && Undisturbed(log, v)
  {
    if v :| Survivor(t, Opened(s, log), v, powerCut) && Undisturbed(log, v) {
      forall k: nat, cleanup | Restart(t.iface, s, log, k, powerCut, cleanup)
        ensures Bootable(Replay(Wreck(s, log, k, powerCut), cleanup), t.iface, powerCut)
      {
        CrashConsistency(t, s, log, k, powerCut, cleanup, v);
      }
    }
    if SurvivesEveryCrash(t.iface, s, log, powerCut) {
      assert Restart(t.iface, s, log, |log|, powerCut, []);
      assert log[..|log|] == log;
      BootsBecauseOfSurvivor(t, s, log, powerCut);
    }
  }

  lemma {:induction false} BootsBecauseOfSurvivor(t: Intent, s: Store, log: seq<Attempt>, powerCut: bool)
    requires t.role == Infrastructure || t.role == Standalone
    requires AddsFirst(log) && Settled(t, Opened(s, log), Replay(s, log))
    requires Bootable(AfterCrash(Replay(s, log), powerCut), t.iface, powerCut)
    ensures exists v :: Survivor(t, Opened(s, log), v, powerCut) && Undisturbed(log, v)
  {
    var u :| u in AfterCrash(Replay(s, log), powerCut) &&
      Startable(AfterCrash(Replay(s, log), powerCut)[u], t.iface, powerCut);
    assert u in Replay(s, log) && Startable(Replay(s, log)[u], t.iface, powerCut);
    SettledBootsIff(t, Opened(s, log), Replay(s, log), powerCut);
    var v :| Survivor(t, Opened(s, log), v, powerCut) && v in Replay(s, log);
    forall a | a in log && Target(a.write) == v ensures a.outcome != Gone {
      if a.outcome == Gone {
        GoneStaysGone(s, log, a);
      }
    }
  }

  /** Without interference the condition is one about the store before the call. */
  lemma {:induction false} EligibilityBeforeTheCall(t: Intent, s: Store, log: seq<Attempt>, powerCut: bool)
    requires t.role == Infrastructure || t.role == Standalone
    requires Run(ForwardPath(t), s, log) && AddsFirst(log)
    requires Bootable(s, t.iface, powerCut) && PendingIsInert(s)
    requires Settled(t, Opened(s, log), Replay(s, log))
    requires forall a :: a in log ==> a.outcome != Gone
    ensures SurvivesEveryCrash(t.iface, s, log, powerCut) <==> exists v :: Survivor(t, Opened(s, log), v, powerCut)
  {
    EligibilityIff(t, s, log, powerCut);
    if v :| Survivor(t, Opened(s, log), v, powerCut) {
      assert Undisturbed(log, v);
    }
  }

  /** Once the new intent is recorded, the device boots on its own exactly when some
      profile of the selected mode is left on disk. */
  lemma {:induction false} IntendedBootsIff(s: Store, iface: string, role: Role, powerCut: bool)
    requires Intended(s, iface, role)
    ensures Bootable(s, iface, powerCut) <==>
            exists u :: u in s && Production(s[u], iface) && s[u].role == role && (powerCut ==> !s[u].inMemory)
  {
    if u :| u in s && Startable(s[u], iface, powerCut) {
      assert Production(s[u], iface) && s[u].role == role;
    }
    if u :| u in s && Production(s[u], iface) && s[u].role == role && (powerCut ==> !s[u].inMemory) {
      assert Startable(s[u], iface, powerCut);
    }
  }

  /** What selectMode makes of one profile. */
  function Reassigned(p: Profile, iface: string, role: Role): Profile {
    var enabled := p.role == role;
    if Production(p, iface) && p.autoconnect != enabled then Rebuilt(p, enabled) else p
  }

  /** The store after every autoconnect update went through or found its profile gone. */
  ghost predicate SelectedFrom(s: Store, s': Store, iface: string, role: Role) {
    && (forall u :: u in s' ==> u in s && s'[u] == Reassigned(s[u], iface, role))
    && (forall u :: u in s && Reassigned(s[u], iface, role) == s[u] ==> u in s')
  }

  lemma {:induction false} SelectedIsIntended(s: Store, s': Store, iface: string, role: Role)
    requires SelectedFrom(s, s', iface, role)
    ensures Intended(s', iface, role)
  {
    forall u | u in s' && Production(s'[u], iface) ensures s'[u].autoconnect == (s'[u].role == role) {
      assert s'[u] == Reassigned(s[u], iface, role);
    }
  }

  /** Only superseded profiles were removed, and none is left. */
  ghost predicate Pruned(t: Intent, s: Store, s': Store) {
    && (forall u :: u in s' ==> u in s && s'[u] == s[u] && !Superseded(t, s[u]))
    && (forall u :: u in s && !Superseded(t, s[u]) ==> u in s')
  }

  /** The store after FinalizeTransition succeeded in a production mode. */
  ghost predicate Settled(t: Intent, s: Store, s': Store) {
    exists mid :: SelectedFrom(s, mid, t.iface, t.role) && Pruned(t, mid, s')
  }

  /** The profiles of the intended scope, in plain terms: onboardd's, of the same role on the
      same interface and, for a network, with the same name. */
  ghost predicate SameTarget(t: Intent, p: Profile) {
    p.owned && p.iface == t.iface &&
    match t.role
    case Infrastructure => p.role == Infrastructure && p.ssid == t.ssid
    case role => p.role == role
  }

  /** What a committed transition amounts to for a profile that is left: the networks start by
      themselves exactly when a network was selected, the access point exactly when it was, no
      rival of the candidate is left, and a profile that had the right flag is as it was. */
  lemma {:induction false} SettledStays(t: Intent, s: Store, s': Store, u: Uuid)
    requires (t.role == Infrastructure || t.role == Standalone) && WellKeyed(s)
    requires Settled(t, s, s') && u in s'
    ensures u in s
    ensures s[u].owned && s[u].iface == t.iface && s[u].role == Infrastructure ==>
              (s'[u].autoconnect <==> t.role == Infrastructure)
    ensures s[u].owned && s[u].iface == t.iface && s[u].role == Standalone ==>
              (s'[u].autoconnect <==> t.role == Standalone)
    ensures SameTarget(t, s[u]) ==> u == t.keep
    ensures s'[u].autoconnect == s[u].autoconnect ==> s'[u] == s[u]
  {
    var mid: Store :| SelectedFrom(s, mid, t.iface, t.role) && Pruned(t, mid, s');
    assert mid[u] == s'[u] && s'[u] == Reassigned(s[u], t.iface, t.role);
  }

  /** A profile that is rebuilt gets a name if it had none. */
  lemma {:induction false} RebuiltIsNamed(p: Profile, enabled: bool)
    requires p.role == Infrastructure || p.role == Standalone
    ensures p.id != "" ==> Rebuilt(p, enabled).id == p.id
    ensures p.id == "" && p.role == Infrastructure ==> Rebuilt(p, enabled).id == "onboardd Wi-Fi " + p.ssid
    ensures p.id == "" && p.role == Standalone ==> Rebuilt(p, enabled).id == "onboardd " + "standalone"
  {
  }

  /** Only onboardd's networks and access points of the interface are changed, and only in their
      flag, their pending mark and the values every rebuilt profile has. */
  lemma {:induction false} SettledChanges(t: Intent, s: Store, s': Store, u: Uuid)
    requires Settled(t, s, s') && u in s' && u in s && s'[u] != s[u]
    ensures s[u].owned && s[u].iface == t.iface && (s[u].role == Infrastructure || s[u].role == Standalone)
    ensures !s'[u].pending && s'[u].kind == WIFI && (s[u].id != "" ==> s'[u].id == s[u].id)
    ensures s'[u].mode == if s[u].role == Infrastructure then "infrastructure" else "ap"
    ensures s[u] == s'[u].(autoconnect := s[u].autoconnect, pending := s[u].pending, id := s[u].id, kind := s[u].kind,
                           mode := s[u].mode)
  {
    var mid: Store :| SelectedFrom(s, mid, t.iface, t.role) && Pruned(t, mid, s');
    assert mid[u] == s'[u] && s'[u] == Reassigned(s[u], t.iface, t.role);
  }

  /** And for one that is gone: it was a rival of the candidate, or somebody removed it before
      its flag could be changed. */
  lemma {:induction false} SettledGoes(t: Intent, s: Store, s': Store, u: Uuid)
    requires (t.role == Infrastructure || t.role == Standalone) && WellKeyed(s)
    requires Settled(t, s, s') && u in s && u !in s'
    ensures s[u].owned && s[u].iface == t.iface
    ensures (SameTarget(t, s[u]) && u != t.keep) ||
            ((s[u].role == Infrastructure || s[u].role == Standalone) && s[u].autoconnect != (s[u].role == t.role))
  {
    var mid: Store :| SelectedFrom(s, mid, t.iface, t.role) && Pruned(t, mid, s');
    assert u in mid ==> Superseded(t, mid[u]);
  }

  /** A series of writes that stopped early: nothing was written, or the last write failed; if
      it was refused its profile is still there. */
  ghost predicate StoppedEarly(s': Store, log: seq<Attempt>) {
    log == [] ||
    var last := log[|log| - 1];
    Failed(last.outcome) && (last.outcome == Refused ==> Target(last.write) in s')
  }

  /** The store after FinalizeTransition failed in a production mode: a write failed, or
      the profiles could not be listed, before the updates or after them. */
  ghost predicate Unfinished(t: Intent, s: Store, s': Store, log: seq<Attempt>) {
    || StoppedEarly(s', log)
    || (!Failed(log[|log| - 1].outcome) && (forall a :: a in log ==> a.write.SetAutoconnect?) &&
        SelectedFrom(s, s', t.iface, t.role))
  }

  /** A finalization that stopped while pruning. */
  lemma {:induction false} PruningUnfinished(t: Intent, s: Store, mid: Store, s': Store, selecting: seq<Attempt>,
                                             pruning: seq<Attempt>)
    requires SelectedFrom(s, mid, t.iface, t.role) && forall a :: a in selecting ==> a.write.SetAutoconnect?
    requires selecting == [] || !Failed(selecting[|selecting| - 1].outcome)
    requires StoppedEarly(s', pruning) && (pruning == [] ==> s' == mid)
    ensures Unfinished(t, s, s', selecting + pruning)
  {
    if pruning == [] {
      assert selecting + pruning == selecting;
    }
  }

  /** The writes that leave profiles of others alone. */
  ghost predicate OwnedWrite(s: Store, w: Write) {
    if w.Add? then w.profile.owned && w.profile.uuid !in s
    else w.uuid in s ==> s[w.uuid].owned
  }

  ghost function OwnedWrites(): (Store, Write) -> bool {
    (s: Store, w: Write) => OwnedWrite(s, w)
  }

  ghost function Foreign(s: Store): Store {
    map u | u in s && !s[u].owned :: s[u]
  }

  /** Whatever mixture of operations ran, and however each call ended, the profiles of
      others are exactly the profiles they were. */
  lemma {:induction false} ForeignFrame(s: Store, log: seq<Attempt>)
    requires WellKeyed(s) && Run(OwnedWrites(), s, log)
    ensures WellKeyed(Replay(s, log)) && Foreign(Replay(s, log)) == Foreign(s)
  {
    if log != [] {
      var n := |log| - 1;
      RunPrefix(OwnedWrites(), s, log, n);
      ForeignFrame(s, log[..n]);
      assert OwnedWrites()(Replay(s, log[..n]), log[n].write);
    }
  }
}
