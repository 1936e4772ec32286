/** The write plans of selectMode, deleteSupersededProfiles and the startup cleanup, and
    what carrying one out does to the store. */
module Plans {
  import opened Profiles
  import opened Selection
  import Sorting

  datatype Update = Update(profile: Profile, enabled: bool)

  function Keep<T(!new)>(wanted: T -> bool, s: seq<T>): (r: seq<T>)
    ensures forall x :: x in r <==> x in s && wanted(x)
  {
    if s == [] then []
    else
      var front, last := s[..|s| - 1], s[|s| - 1];
      assert s == front + [last];
      Keep(wanted, front) + if wanted(last) then [last] else []
  }

  lemma {:induction false} KeepDistinct<T(!new)>(wanted: T -> bool, s: seq<T>)
    requires Sorting.Distinct(s)
    ensures Sorting.Distinct(Keep(wanted, s))
  {
    if s != [] {
      KeepDistinct(wanted, s[..|s| - 1]);
    }
  }

  lemma {:induction false} KeepNext<T(!new)>(wanted: T -> bool, s: seq<T>, n: nat)
    requires n < |s|
    ensures Keep(wanted, s[..n + 1]) == Keep(wanted, s[..n]) + if wanted(s[n]) then [s[n]] else []
  {
    assert s[..n + 1][..n] == s[..n];
  }

  ghost predicate Enumerates(ps: seq<Profile>, s: Store) {
    && Sorting.Distinct(ps)
    && (forall p: Profile :: p in ps <==> p.uuid in s && s[p.uuid] == p)
  }

  predicate Wanted(p: Profile, iface: string, selected: Role) {
    Production(p, iface) && p.autoconnect != (p.role == selected)
  }

  function NeedsUpdate(iface: string, selected: Role): Profile -> bool {
    (p: Profile) => Wanted(p, iface, selected)
  }

  function IsSuperseded(t: Intent): Profile -> bool {
    (p: Profile) => Superseded(t, p)
  }

  predicate Pending(p: Profile, iface: string) {
    p.owned && p.pending && p.iface == iface && p.role == Infrastructure
  }

  function IsPending(iface: string): Profile -> bool {
    (p: Profile) => Pending(p, iface)
  }

  function Updates(ps: seq<Profile>, selected: Role): (us: seq<Update>)
    ensures |us| == |ps| && forall i :: 0 <= i < |ps| ==> us[i] == Update(ps[i], ps[i].role == selected)
  {
    seq(|ps|, i requires 0 <= i < |ps| => Update(ps[i], ps[i].role == selected))
  }

  predicate EnabledFirst(left: Update, right: Update) {
    left.enabled && !right.enabled
  }

  /** autoconnectUpdates: the wrong profiles in listing order, then stably enables first. */
  function UpdatePlan(ps: seq<Profile>, iface: string, selected: Role): seq<Update> {
    Sorting.StableSort(EnabledFirst, Updates(Keep(NeedsUpdate(iface, selected), ps), selected))
  }

  /** The plan names exactly the stored profiles whose autoconnect is wrong, each once,
      and every enable precedes every disable. */
  lemma {:induction false} UpdatePlanIsRight(ps: seq<Profile>, s: Store, iface: string, selected: Role)
    requires WellKeyed(s) && Enumerates(ps, s)
    ensures var us := UpdatePlan(ps, iface, selected);
            && (forall x: Update :: x in us <==>
                 x.profile.uuid in s && s[x.profile.uuid] == x.profile &&
                 Wanted(x.profile, iface, selected) && x.enabled == (x.profile.role == selected))
            && Sorting.Distinct(us)
            && (forall i, j :: 0 <= i < j < |us| && us[j].enabled ==> us[i].enabled)
  {
    var wrong := Keep(NeedsUpdate(iface, selected), ps);
    var unsorted := Updates(wrong, selected);
    var us := UpdatePlan(ps, iface, selected);
    KeepDistinct(NeedsUpdate(iface, selected), ps);
    assert Sorting.Distinct(unsorted);
    Sorting.SameMembers(us, unsorted);
    Sorting.DistinctRearranged(unsorted, us);
    Sorting.SortOrders(EnabledFirst, unsorted);
    forall i, j | 0 <= i < j < |us| && us[j].enabled ensures us[i].enabled {
      assert !EnabledFirst(us[j], us[i]);
    }
    forall x: Update | x.profile in wrong && x.enabled == (x.profile.role == selected) ensures x in unsorted {
      var i :| 0 <= i < |wrong| && wrong[i] == x.profile;
      assert unsorted[i] == x;
    }
  }

  /** The writes were issued in order, and only the last one may have failed. */
  ghost predicate Follows(ws: seq<Write>, log: seq<Attempt>) {
    && |log| <= |ws|
    && (forall i :: 0 <= i < |log| ==> log[i].write == ws[i])
    && (forall i :: 0 <= i < |log| - 1 ==> !Failed(log[i].outcome))
  }

  ghost predicate Completed(ws: seq<Write>, log: seq<Attempt>) {
    Follows(ws, log) && |log| == |ws| && (log != [] ==> !Failed(log[|log| - 1].outcome))
  }

  lemma {:induction false} CompletedStep(ws: seq<Write>, log: seq<Attempt>, a: Attempt)
    requires |log| < |ws| && Completed(ws[..|log|], log) && a.write == ws[|log|]
    ensures Follows(ws, log + [a])
    ensures !Failed(a.outcome) ==> Completed(ws[..|log| + 1], log + [a])
  {
  }

  function UpdateWrites(us: seq<Update>): (ws: seq<Write>)
    ensures |ws| == |us|
    ensures forall i :: 0 <= i < |us| ==> ws[i] == SetAutoconnect(us[i].profile.uuid, us[i].enabled)
  {
    seq(|us|, i requires 0 <= i < |us| => SetAutoconnect(us[i].profile.uuid, us[i].enabled))
  }

  function DeleteWrites(ps: seq<Profile>): (ws: seq<Write>)
    ensures |ws| == |ps| && forall i :: 0 <= i < |ps| ==> ws[i] == Delete(ps[i].uuid)
  {
    seq(|ps|, i requires 0 <= i < |ps| => Delete(ps[i].uuid))
  }

  /** The store after the profiles in `processed` were updated or found gone. */
  ghost predicate PartlySelected(s: Store, now: Store, processed: set<Uuid>, iface: string, role: Role) {
    && (forall u :: u in now ==> u in s && now[u] == if u in processed then Reassigned(s[u], iface, role) else s[u])
    && (forall u :: u in s && u !in processed ==> u in now)
  }

  lemma {:induction false} SelectStep(t: Intent, s: Store, now: Store, processed: set<Uuid>, u: Uuid, o: Outcome)
    requires PartlySelected(s, now, processed, t.iface, t.role)
    requires u in s && u !in processed && Wanted(s[u], t.iface, t.role)
    requires s[u].role == t.role ||
             forall v :: v in s && Wanted(s[v], t.iface, t.role) && s[v].role == t.role ==> v in processed
    ensures var w := SetAutoconnect(u, s[u].role == t.role);
            && Allowed(t, now, w)
            && (o != Refused ==>
                 PartlySelected(s, Effect(now, Attempt(w, o)), processed + {u}, t.iface, t.role))
  {
    assert now[u] == s[u];
    if s[u].role != t.role {
      forall v | v in now && Production(now[v], t.iface) && now[v].role == t.role
        ensures now[v].autoconnect
      {
        assert s[v].role == t.role;
      }
    }
  }

  ghost function Processed(us: seq<Update>): set<Uuid> {
    set x | x in us :: x.profile.uuid
  }

  /** What is known when the plan reaches its n-th update. */
  lemma {:induction false} PlanEntry(ps: seq<Profile>, s: Store, iface: string, role: Role, n: nat)
    requires WellKeyed(s) && Enumerates(ps, s) && n < |UpdatePlan(ps, iface, role)|
    ensures var us := UpdatePlan(ps, iface, role);
            var u := us[n].profile.uuid;
            && u in s && s[u] == us[n].profile && Wanted(s[u], iface, role) && us[n].enabled == (s[u].role == role)
  {
    UpdatePlanIsRight(ps, s, iface, role);
    assert UpdatePlan(ps, iface, role)[n] in UpdatePlan(ps, iface, role);
  }

  lemma {:induction false} PlanVisitsOnce(ps: seq<Profile>, s: Store, iface: string, role: Role, i: nat, n: nat)
    requires WellKeyed(s) && Enumerates(ps, s) && i < n < |UpdatePlan(ps, iface, role)|
    ensures UpdatePlan(ps, iface, role)[i].profile.uuid != UpdatePlan(ps, iface, role)[n].profile.uuid
  {
    PlanEntry(ps, s, iface, role, i);
    PlanEntry(ps, s, iface, role, n);
    UpdatePlanIsRight(ps, s, iface, role);
  }

  lemma {:induction false} ProcessedNext(us: seq<Update>, n: nat)
    requires n < |us|
    ensures Processed(us[..n + 1]) == Processed(us[..n]) + {us[n].profile.uuid}
  {
    assert us[..n + 1] == us[..n] + [us[n]];
  }

  lemma {:induction false} PlanEnablesFirst(ps: seq<Profile>, s: Store, iface: string, role: Role, n: nat, v: Uuid)
    requires WellKeyed(s) && Enumerates(ps, s) && n < |UpdatePlan(ps, iface, role)|
    requires !UpdatePlan(ps, iface, role)[n].enabled && v in s && Wanted(s[v], iface, role) && s[v].role == role
    ensures v in Processed(UpdatePlan(ps, iface, role)[..n])
  {
    var us := UpdatePlan(ps, iface, role);
    UpdatePlanIsRight(ps, s, iface, role);
    var x := Update(s[v], true);
    assert x in us;
    var i :| 0 <= i < |us| && us[i] == x;
    assert us[..n][i] == x;
  }

  lemma {:induction false} PlanPosition(ps: seq<Profile>, s: Store, iface: string, role: Role, n: nat)
    requires WellKeyed(s) && Enumerates(ps, s) && n < |UpdatePlan(ps, iface, role)|
    ensures var us := UpdatePlan(ps, iface, role);
            var u := us[n].profile.uuid;
            && u in s && Wanted(s[u], iface, role) && us[n].enabled == (s[u].role == role)
            && u !in Processed(us[..n])
            && (s[u].role == role ||
                forall v :: v in s && Wanted(s[v], iface, role) && s[v].role == role ==> v in Processed(us[..n]))
            && Processed(us[..n + 1]) == Processed(us[..n]) + {u}
  {
    var us := UpdatePlan(ps, iface, role);
    PlanEntry(ps, s, iface, role, n);
    ProcessedNext(us, n);
    forall i | 0 <= i < n ensures us[i].profile.uuid != us[n].profile.uuid {
      PlanVisitsOnce(ps, s, iface, role, i, n);
    }
    if !us[n].enabled {
      forall v | v in s && Wanted(s[v], iface, role) && s[v].role == role ensures v in Processed(us[..n]) {
        PlanEnablesFirst(ps, s, iface, role, n, v);
      }
    }
  }

  lemma {:induction false} PlanStep(t: Intent, s: Store, now: Store, ps: seq<Profile>, n: nat, o: Outcome)
    requires WellKeyed(s) && Enumerates(ps, s) && n < |UpdatePlan(ps, t.iface, t.role)|
    requires PartlySelected(s, now, Processed(UpdatePlan(ps, t.iface, t.role)[..n]), t.iface, t.role)
    ensures var us := UpdatePlan(ps, t.iface, t.role);
            var w := SetAutoconnect(us[n].profile.uuid, us[n].enabled);
            && Allowed(t, now, w)
            && (o != Refused ==> PartlySelected(s, Effect(now, Attempt(w, o)), Processed(us[..n + 1]), t.iface, t.role))
  {
    var us := UpdatePlan(ps, t.iface, t.role);
    PlanPosition(ps, s, t.iface, t.role, n);
    SelectStep(t, s, now, Processed(us[..n]), us[n].profile.uuid, o);
  }

  lemma {:induction false} SelectRun(t: Intent, s: Store, ps: seq<Profile>, log: seq<Attempt>)
    requires WellKeyed(s) && Enumerates(ps, s)
    requires Follows(UpdateWrites(UpdatePlan(ps, t.iface, t.role)), log)
    ensures Run(ForwardPath(t), s, log)
    ensures log == [] || log[|log| - 1].outcome != Refused ==>
              PartlySelected(s, Replay(s, log), Processed(UpdatePlan(ps, t.iface, t.role)[..|log|]), t.iface, t.role)
  {
    if log != [] {
      var n := |log| - 1;
      var front := log[..n];
      var us := UpdatePlan(ps, t.iface, t.role);
      SelectRun(t, s, ps, front);
      PlanStep(t, s, Replay(s, front), ps, n, log[n].outcome);
      assert log[n] == Attempt(SetAutoconnect(us[n].profile.uuid, us[n].enabled), log[n].outcome);
    }
  }

  lemma {:induction false} PlanCoversWrong(ps: seq<Profile>, s: Store, iface: string, role: Role)
    requires WellKeyed(s) && Enumerates(ps, s)
    ensures forall u :: u in s ==> (u in Processed(UpdatePlan(ps, iface, role)) <==> Wanted(s[u], iface, role))
  {
    var us := UpdatePlan(ps, iface, role);
    UpdatePlanIsRight(ps, s, iface, role);
    forall u | u in s && Wanted(s[u], iface, role) ensures u in Processed(us) {
      assert Update(s[u], s[u].role == role) in us;
    }
  }

  lemma {:induction false} ReassignedIffWanted(p: Profile, iface: string, role: Role)
    ensures Wanted(p, iface, role) <==> Reassigned(p, iface, role) != p
  {
    assert Wanted(p, iface, role) ==> Reassigned(p, iface, role).autoconnect != p.autoconnect;
  }

  lemma {:induction false} AllProcessed(s: Store, now: Store, processed: set<Uuid>, iface: string, role: Role)
    requires PartlySelected(s, now, processed, iface, role)
    requires forall u :: u in s ==> (u in processed <==> Wanted(s[u], iface, role))
    ensures SelectedFrom(s, now, iface, role)
  {
    forall u | u in now ensures now[u] == Reassigned(s[u], iface, role) {
      ReassignedIffWanted(s[u], iface, role);
    }
    forall u | u in s && Reassigned(s[u], iface, role) == s[u] ensures u in now {
      ReassignedIffWanted(s[u], iface, role);
    }
  }

  /** A plan carried out to the end leaves exactly the selected mode enabled. */
  lemma {:induction false} SelectCompletes(t: Intent, s: Store, ps: seq<Profile>, log: seq<Attempt>)
    requires WellKeyed(s) && Enumerates(ps, s)
    requires Completed(UpdateWrites(UpdatePlan(ps, t.iface, t.role)), log)
    ensures SelectedFrom(s, Replay(s, log), t.iface, t.role)
  {
    var us := UpdatePlan(ps, t.iface, t.role);
    SelectRun(t, s, ps, log);
    PlanCoversWrong(ps, s, t.iface, t.role);
    assert us[..|log|] == us;
    AllProcessed(s, Replay(s, log), Processed(us), t.iface, t.role);
  }

  lemma {:induction false} UpdateHasTarget(t: Intent, s: Store, ps: seq<Profile>, log: seq<Attempt>, n: nat)
    requires WellKeyed(s) && Enumerates(ps, s) && n < |UpdatePlan(ps, t.iface, t.role)| && |log| == n
    requires Follows(UpdateWrites(UpdatePlan(ps, t.iface, t.role)), log)
    requires log == [] || !Failed(log[n - 1].outcome)
    ensures UpdatePlan(ps, t.iface, t.role)[n].profile.uuid in Replay(s, log)
  {
    SelectRun(t, s, ps, log);
    PlanPosition(ps, s, t.iface, t.role, n);
  }

  /** A refused update leaves the profile it was for in the store. */
  lemma {:induction false} SelectStopped(t: Intent, s: Store, ps: seq<Profile>, log: seq<Attempt>)
    requires WellKeyed(s) && Enumerates(ps, s)
    requires Follows(UpdateWrites(UpdatePlan(ps, t.iface, t.role)), log)
    requires log != [] && Failed(log[|log| - 1].outcome)
    ensures StoppedEarly(Replay(s, log), log)
  {
    UpdateHasTarget(t, s, ps, log[..|log| - 1], |log| - 1);
  }

  /** Deleting part of a list of stored profiles removes those and changes nothing else. */
  lemma {:induction false} DeleteRun(s: Store, doomed: seq<Profile>, log: seq<Attempt>)
    requires Follows(DeleteWrites(doomed), log)
    ensures var now := Replay(s, log);
            && (forall u :: u in now ==> u in s && now[u] == s[u])
            && (forall u :: u in s && (forall p :: p in doomed ==> p.uuid != u) ==> u in now)
            && (log == [] || log[|log| - 1].outcome != Refused ==>
                 forall i :: 0 <= i < |log| ==> doomed[i].uuid !in now)
  {
    if log != [] {
      DeleteRun(s, doomed, log[..|log| - 1]);
      assert doomed[|log| - 1] in doomed;
    }
  }

  lemma {:induction false} DeleteSpares(s: Store, doomed: seq<Profile>, log: seq<Attempt>, u: Uuid)
    requires Follows(DeleteWrites(doomed), log)
    requires u in s && forall i :: 0 <= i < |log| ==> doomed[i].uuid != u
    ensures u in Replay(s, log)
  {
    if log != [] {
      DeleteSpares(s, doomed, log[..|log| - 1], u);
    }
  }

  /** A refused deletion leaves its profile in the store. */
  lemma {:induction false} PruneStopped(t: Intent, s: Store, ps: seq<Profile>, log: seq<Attempt>)
    requires WellKeyed(s) && Enumerates(ps, s)
    requires Follows(DeleteWrites(Keep(IsSuperseded(t), ps)), log)
    requires log != [] && Failed(log[|log| - 1].outcome)
    ensures StoppedEarly(Replay(s, log), log)
  {
    var n := |log| - 1;
    var doomed := Keep(IsSuperseded(t), ps);
    KeepDistinct(IsSuperseded(t), ps);
    assert doomed[n] in doomed;
    forall i | 0 <= i < n ensures doomed[i].uuid != doomed[n].uuid {
      assert doomed[i] in doomed && doomed[i] != doomed[n];
    }
    DeleteSpares(s, doomed, log[..n], doomed[n].uuid);
  }

  lemma {:induction false} PruneStep(t: Intent, s: Store, ps: seq<Profile>, log: seq<Attempt>, p: Profile)
    requires WellKeyed(s) && Enumerates(ps, s)
    requires t.role != Provisioning ==> Intended(s, t.iface, t.role)
    requires Follows(DeleteWrites(Keep(IsSuperseded(t), ps)), log) && p in Keep(IsSuperseded(t), ps)
    ensures Allowed(t, Replay(s, log), Delete(p.uuid))
  {
    DeleteRun(s, Keep(IsSuperseded(t), ps), log);
  }

  lemma {:induction false} PruneAllowed(t: Intent, s: Store, ps: seq<Profile>, log: seq<Attempt>)
    requires WellKeyed(s) && Enumerates(ps, s)
    requires t.role != Provisioning ==> Intended(s, t.iface, t.role)
    requires Follows(DeleteWrites(Keep(IsSuperseded(t), ps)), log)
    ensures Run(ForwardPath(t), s, log)
  {
    var doomed := Keep(IsSuperseded(t), ps);
    if log != [] {
      var n := |log| - 1;
      PruneAllowed(t, s, ps, log[..n]);
      PruneStep(t, s, ps, log[..n], doomed[n]);
      assert log[n].write == Delete(doomed[n].uuid);
    }
  }

  lemma {:induction false} PruneRun(t: Intent, s: Store, ps: seq<Profile>, log: seq<Attempt>)
    requires WellKeyed(s) && Enumerates(ps, s)
    requires Follows(DeleteWrites(Keep(IsSuperseded(t), ps)), log)
    ensures forall u :: u in Replay(s, log) ==> u in s && Replay(s, log)[u] == s[u]
    ensures forall u :: u in s && !Superseded(t, s[u]) ==> u in Replay(s, log)
    ensures Completed(DeleteWrites(Keep(IsSuperseded(t), ps)), log) ==> Pruned(t, s, Replay(s, log))
  {
    var doomed := Keep(IsSuperseded(t), ps);
    DeleteRun(s, doomed, log);
    if Completed(DeleteWrites(doomed), log) {
      forall u | u in s && Superseded(t, s[u]) ensures u !in Replay(s, log) {
        assert s[u] in doomed;
        var i :| 0 <= i < |doomed| && doomed[i] == s[u];
        assert doomed[i].uuid !in Replay(s, log);
      }
    }
  }

  lemma {:induction false} CleanupStep(iface: string, s: Store, ps: seq<Profile>, log: seq<Attempt>, p: Profile)
    requires WellKeyed(s) && Enumerates(ps, s) && p in Keep(IsPending(iface), ps)
    requires Follows(DeleteWrites(Keep(IsPending(iface), ps)), log)
    ensures StartupCleanup(iface)(Replay(s, log), Delete(p.uuid))
  {
    DeleteRun(s, Keep(IsPending(iface), ps), log);
  }

  lemma {:induction false} CleanupAllowed(iface: string, s: Store, ps: seq<Profile>, log: seq<Attempt>)
    requires WellKeyed(s) && Enumerates(ps, s)
    requires Follows(DeleteWrites(Keep(IsPending(iface), ps)), log)
    ensures Run(StartupCleanup(iface), s, log)
  {
    if log != [] {
      var n := |log| - 1;
      var p := Keep(IsPending(iface), ps)[n];
      CleanupAllowed(iface, s, ps, log[..n]);
      CleanupStep(iface, s, ps, log[..n], p);
      assert log[n].write == Delete(p.uuid);
    }
  }

  lemma {:induction false} CleanupRun(iface: string, s: Store, ps: seq<Profile>, log: seq<Attempt>)
    requires WellKeyed(s) && Enumerates(ps, s)
    requires Follows(DeleteWrites(Keep(IsPending(iface), ps)), log)
    ensures forall u :: u in Replay(s, log) ==> u in s && Replay(s, log)[u] == s[u]
    ensures forall u :: u in s && !Pending(s[u], iface) ==> u in Replay(s, log)
    ensures Completed(DeleteWrites(Keep(IsPending(iface), ps)), log) ==>
              forall u :: u in Replay(s, log) ==> !Pending(s[u], iface)
  {
    var doomed := Keep(IsPending(iface), ps);
    DeleteRun(s, doomed, log);
    if Completed(DeleteWrites(doomed), log) {
      forall u | u in s && Pending(s[u], iface) ensures u !in Replay(s, log) {
        assert s[u] in doomed;
        var i :| 0 <= i < |doomed| && doomed[i] == s[u];
        assert doomed[i].uuid !in Replay(s, log);
      }
    }
  }
}
