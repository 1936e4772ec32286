/** The NetworkManager client. Foreign calls end in an arbitrary outcome; durable writes go
    through one store, and the calls a protected transition makes are recorded in order. */
module NetworkManager {
  import opened Text
  import opened Profiles
  import opened Selection
  import opened Uuids
  import opened Plans
  import Sorting
  import Connectivity

  const ACTIVATED := 100

  datatype Status = Status(
    connectivity: nat,
    state: nat,
    activeConnection: string,
    activeUuid: Uuid,
    addresses: seq<string>)

  function InternetStateOf(connectivity: nat): Connectivity.InternetState {
    match connectivity
    case 1 => Connectivity.NoInternet
    case 2 => Connectivity.Portal
    case 3 => Connectivity.Limited
    case 4 => Connectivity.Full
    case _ => Connectivity.Unknown
  }

  /** NetworkManager's connectivity by number. */
  lemma {:induction false} ConnectivityByNumber(n: nat)
    ensures InternetStateOf(n) == Connectivity.NoInternet <==> n == 1
    ensures InternetStateOf(n) == Connectivity.Portal <==> n == 2
    ensures InternetStateOf(n) == Connectivity.Limited <==> n == 3
    ensures InternetStateOf(n) == Connectivity.Full <==> n == 4
  {
  }

  function Observe(s: Status): Connectivity.Observation {
    Connectivity.Observation(s.state == ACTIVATED, |s.addresses| > 0, InternetStateOf(s.connectivity))
  }

  datatype Activation = Activation(activePath: string, uuid: Uuid)

  const NO_ACTIVATION := Activation("", "")

  datatype Call =
    | CheckpointCreated(ok: bool)
    | CandidateActivated(activation: Activation, ok: bool)
    | ActivationAwaited(path: string, ok: bool)
    | StatusRead(status: Option<Status>)
    | ConnectivityChecked(value: Option<nat>)
    | Finalized(ok: bool)
    | CheckpointCommitted(ok: bool)
    | CheckpointRolledBack(ok: bool)
    | OwnedDeleted(uuid: Uuid, ok: bool)
    | ProfileActivated(uuid: Uuid, activation: Activation, ok: bool)
    | DnsInstalled(ok: bool)
    | DnsRemoved(ok: bool)
    | RedirectInstalled(ok: bool)
    | RedirectRemoved(ok: bool)

  lemma UpdatesNext(ps: seq<Profile>, p: Profile, selected: Role)
    ensures Updates(ps + [p], selected) == Updates(ps, selected) + [Update(p, p.role == selected)]
  {
  }

  method AutoconnectUpdates(ps: seq<Profile>, iface: string, selected: Role) returns (us: seq<Update>)
    ensures us == UpdatePlan(ps, iface, selected)
  {
    us := [];
    assert ps[..0] == [];
    for n := 0 to |ps|
      invariant us == Updates(Keep(NeedsUpdate(iface, selected), ps[..n]), selected)
    {
      KeepNext(NeedsUpdate(iface, selected), ps, n);
      UpdatesNext(Keep(NeedsUpdate(iface, selected), ps[..n]), ps[n], selected);
      if Production(ps[n], iface) {
        var enabled := ps[n].role == selected;
        if ps[n].autoconnect != enabled {
          us := us + [Update(ps[n], enabled)];
        }
      }
    }
    assert ps[..|ps|] == ps;
    us := Sorting.StableSort(EnabledFirst, us);
  }

  method SupersededProfiles(ps: seq<Profile>, t: Intent) returns (superseded: seq<Profile>)
    ensures superseded == Keep(IsSuperseded(t), ps)
  {
    superseded := [];
    for n := 0 to |ps|
      invariant superseded == Keep(IsSuperseded(t), ps[..n])
    {
      KeepNext(IsSuperseded(t), ps, n);
      if ps[n].owned && ps[n].uuid != t.keep && InScope(t, ps[n]) {
        superseded := superseded + [ps[n]];
      }
    }
    assert ps[..|ps|] == ps;
  }

  method PendingProfiles(ps: seq<Profile>, iface: string) returns (pending: seq<Profile>)
    ensures pending == Keep(IsPending(iface), ps)
  {
    pending := [];
    for n := 0 to |ps|
      invariant pending == Keep(IsPending(iface), ps[..n])
    {
      KeepNext(IsPending(iface), ps, n);
      if ps[n].owned && ps[n].pending && ps[n].iface == iface && ps[n].role == Infrastructure {
        pending := pending + [ps[n]];
      }
    }
    assert ps[..|ps|] == ps;
  }

  /** Everything a method did to the store, as a log of attempts. */
  ghost predicate Did(s: Store, s': Store, log: seq<Attempt>, log': seq<Attempt>, added: seq<Attempt>) {
    log' == log + added && s' == Replay(s, added)
  }

  lemma DidMore(s: Store, log: seq<Attempt>, added: seq<Attempt>, a: Attempt)
    ensures log + (added + [a]) == log + added + [a]
    ensures Replay(s, added + [a]) == Effect(Replay(s, added), a)
  {
    ReplayStep(s, added, a);
  }

  lemma StepKeepsOwned(s: Store, now: Store, a: Attempt)
    requires StillOwned(s, now) && !a.write.Add?
    ensures StillOwned(s, Effect(now, a))
  {
  }

  lemma ForwardCompose(t: Intent, s: Store, log: seq<Attempt>, a: seq<Attempt>, b: seq<Attempt>)
    requires Run(ForwardPath(t), s, a) && Run(ForwardPath(t), Replay(s, a), b)
    ensures Run(ForwardPath(t), s, a + b)
    ensures Replay(s, a + b) == Replay(Replay(s, a), b)
    ensures log + (a + b) == log + a + b
  {
    RunAppend(ForwardPath(t), s, a, b);
    ReplayAppend(s, a, b);
  }

  /** The call went through. */
  predicate Succeeded(c: Call) {
    match c
    case StatusRead(status) => status.Some?
    case ConnectivityChecked(value) => value.Some?
    case _ => c.ok
  }

  ghost predicate SomeFailed(calls: seq<Call>) {
    exists c :: c in calls && !Succeeded(c)
  }

  /** Every call between the two records of replies succeeded. */
  ghost predicate AllAnswered(before: seq<bool>, after: seq<bool>) {
    before <= after && forall i :: |before| <= i < |after| ==> after[i]
  }

  lemma OneReply(before: seq<bool>, b: bool)
    ensures AllAnswered(before, before + [b]) <==> b
  {
    assert (before + [b])[|before|] == b;
  }

  lemma RepliesCompose(a: seq<bool>, b: seq<bool>, c: seq<bool>)
    requires a <= b && b <= c
    ensures AllAnswered(a, c) <==> AllAnswered(a, b) && AllAnswered(b, c)
  {
    if AllAnswered(a, b) && AllAnswered(b, c) {
      forall i | |a| <= i < |c| ensures c[i] {
        assert i < |b| ==> b[i];
      }
    }
    if AllAnswered(a, c) {
      forall i | |a| <= i < |b| ensures b[i] {
        assert c[i];
      }
    }
  }

  ghost predicate EndsWell(added: seq<Attempt>) {
    added == [] || !Failed(added[|added| - 1].outcome)
  }

  /** The profile was added, and the reply was lost. */
  predicate LostAddition(p: Profile, added: seq<Attempt>) {
    added == [Attempt(Add(p), Lost)]
  }

  ghost predicate StillOwned(s: Store, now: Store) {
    forall u :: u in now ==> u in s && now[u].owned == s[u].owned
  }

  class Client {
    var store: Store
    var log: seq<Attempt>
    var trace: seq<Call>
    var replies: seq<bool>
    ghost const origin: Store

    ghost predicate Valid()
      reads this
    {
      WellKeyed(origin) && store == Replay(origin, log) && Run(OwnedWrites(), origin, log)
    }

    constructor (profiles: Store)
      requires WellKeyed(profiles)
      ensures Valid() && store == origin == profiles && log == [] && trace == [] && replies == []
    {
      origin := profiles;
      store, log, trace, replies := profiles, [], [], [];
    }

    /** The profiles of others have never changed. */
    lemma NeverTouchedForeign()
      requires Valid()
      ensures WellKeyed(store) && Foreign(store) == Foreign(origin)
    {
      ForeignFrame(origin, log);
    }

    method Issue(w: Write) returns (o: Outcome)
      requires Valid() && OwnedWrite(store, w)
      modifies this`store, this`log
      ensures Valid()
      ensures log == old(log) + [Attempt(w, o)] && store == Effect(old(store), Attempt(w, o))
      ensures w.Add? ==> o != Gone
    {
      o := *;
      if w.Add? && o == Gone {
        o := Refused;
      }
      ghost var s := store;
      match o {
        case Refused =>
        case Gone => store := store - {Target(w)};
        case _ =>
          match w {
            case Add(p) => store := store[p.uuid := p];
            case SetAutoconnect(u, enabled) =>
              if u in store {
                store := store[u := Rebuilt(store[u], enabled)];
              }
            case Delete(u) => store := store - {u};
          }
      }
      log := log + [Attempt(w, o)];
      ReplayStep(origin, old(log), Attempt(w, o));
      RunStep(OwnedWrites(), origin, old(log), Attempt(w, o));
    }

    /** A call to NetworkManager that writes nothing durable; whether it succeeded is remembered. */
    method Ask() returns (err: Option<string>)
      modifies this`replies
      ensures replies == old(replies) + [err.None?] && (AllAnswered(old(replies), replies) <==> err.None?)
    {
      err := *;
      replies := replies + [err.None?];
      OneReply(old(replies), err.None?);
    }

    method ListProfiles() returns (ps: seq<Profile>, err: Option<string>)
      requires Valid()
      modifies this`replies
      ensures Valid() && replies == old(replies) + [err.None?] && (AllAnswered(old(replies), replies) <==> err.None?)
      ensures err.None? ==> Enumerates(ps, store)
    {
      NeverTouchedForeign();
      ps := [];
      err := Ask();
      var rest := store.Keys;
      while rest != {}
        invariant rest <= store.Keys
        invariant Sorting.Distinct(ps)
        invariant forall p: Profile :: p in ps <==> p.uuid in store && p.uuid !in rest && store[p.uuid] == p
      {
        var u: Uuid :| u in rest;
        ps := ps + [store[u]];
        rest := rest - {u};
      }
    }

    /** Brings the profiles of a listing to the selected mode. */
    method SelectListed(ps: seq<Profile>, ghost t: Intent, iface: string, role: Role)
      returns (err: Option<string>, ghost added: seq<Attempt>)
      requires Valid() && t.iface == iface && t.role == role && WellKeyed(store) && Enumerates(ps, store)
      modifies this`store, this`log
      ensures Valid() && Did(old(store), store, old(log), log, added)
      ensures Run(ForwardPath(t), old(store), added) && forall a :: a in added ==> a.write.SetAutoconnect?
      ensures err.None? ==> SelectedFrom(old(store), store, iface, role)
      ensures err.Some? ==> StoppedEarly(store, added)
      ensures err.None? <==> EndsWell(added)
    {
      var us := AutoconnectUpdates(ps, iface, role);
      forall i | 0 <= i < |us| ensures us[i].profile.uuid in store && store[us[i].profile.uuid].owned {
        PlanPosition(ps, store, iface, role, i);
      }
      err, added := UpdateEach(us);
      SelectRun(t, old(store), ps, added);
      if err.None? {
        SelectCompletes(t, old(store), ps, added);
      } else {
        SelectStopped(t, old(store), ps, added);
      }
    }

    method SelectMode(iface: string, role: Role, ghost t: Intent)
      returns (err: Option<string>, ghost added: seq<Attempt>)
      requires Valid() && t.iface == iface && t.role == role
      modifies this`store, this`log, this`replies
      ensures Valid() && Did(old(store), store, old(log), log, added)
      ensures Run(ForwardPath(t), old(store), added) && forall a :: a in added ==> a.write.SetAutoconnect?
      ensures err.None? ==> SelectedFrom(old(store), store, iface, role)
      ensures err.Some? ==> StoppedEarly(store, added)
      ensures |replies| == |old(replies)| + 1 && old(replies) <= replies
      ensures err.None? <==> AllAnswered(old(replies), replies) && EndsWell(added)
    {
      added := [];
      NeverTouchedForeign();
      var ps;
      ps, err := ListProfiles();
      if err.None? {
        err, added := SelectListed(ps, t, iface, role);
      }
    }

    /** Issues the next write of a series that has not failed so far. */
    method IssueNext(w: Write, ghost ws: seq<Write>, ghost s: Store, ghost before: seq<Attempt>,
                     ghost added: seq<Attempt>)
      returns (o: Outcome, ghost more: seq<Attempt>)
      requires Valid() && !w.Add? && OwnedWrite(store, w) && Did(s, store, before, log, added) && StillOwned(s, store)
      requires |added| < |ws| && w == ws[|added|] && Completed(ws[..|added|], added)
      modifies this`store, this`log
      ensures Valid() && Did(s, store, before, log, more) && StillOwned(s, store)
      ensures |more| == |added| + 1 && more[|added|].outcome == o && Follows(ws, more)
      ensures !Failed(o) ==> Completed(ws[..|more|], more)
    {
      ghost var now := store;
      o := Issue(w);
      more := added + [Attempt(w, o)];
      StepKeepsOwned(s, now, Attempt(w, o));
      DidMore(s, before, added, Attempt(w, o));
      CompletedStep(ws, added, Attempt(w, o));
    }

    /** Issues the updates in order; a vanished profile is skipped, any other failure stops. */
    method UpdateEach(us: seq<Update>) returns (err: Option<string>, ghost added: seq<Attempt>)
      requires Valid()
      requires forall i :: 0 <= i < |us| && us[i].profile.uuid in store ==> store[us[i].profile.uuid].owned
      modifies this`store, this`log
      ensures Valid() && Did(old(store), store, old(log), log, added)
      ensures Follows(UpdateWrites(us), added)
      ensures err.None? ==> Completed(UpdateWrites(us), added)
      ensures err.Some? ==> added != [] && Failed(added[|added| - 1].outcome)
      ensures err.Some? ==> added[|added| - 1].outcome == Refused || added[|added| - 1].outcome == Lost
      ensures err.None? ==> forall a :: a in added ==> a.outcome == Done || a.outcome == Gone
    {
      err, added := None, [];
      ghost var ws := UpdateWrites(us);
      assert ws[..0] == [];
      for n := 0 to |us|
        invariant Valid() && Did(old(store), store, old(log), log, added)
        invariant |added| == n && Completed(ws[..n], added)
        invariant StillOwned(old(store), store)
      {
        var w := SetAutoconnect(us[n].profile.uuid, us[n].enabled);
        assert w == ws[n] && OwnedWrite(store, w);
        var o;
        o, added := IssueNext(w, ws, old(store), old(log), added);
        if Failed(o) {
          var text := *;
          err := Some(text);
          return;
        }
      }
      assert ws[..|us|] == ws;
    }

    /** Issues the deletions in order; a vanished profile is skipped, any other failure stops. */
    method DeleteEach(doomed: seq<Profile>) returns (err: Option<string>, ghost added: seq<Attempt>)
      requires Valid() && forall p :: p in doomed && p.uuid in store ==> store[p.uuid].owned
      modifies this`store, this`log
      ensures Valid() && Did(old(store), store, old(log), log, added)
      ensures Follows(DeleteWrites(doomed), added)
      ensures err.None? ==> Completed(DeleteWrites(doomed), added)
      ensures err.Some? ==> added != [] && Failed(added[|added| - 1].outcome)
      ensures err.Some? ==> added[|added| - 1].outcome == Refused || added[|added| - 1].outcome == Lost
      ensures err.None? ==> forall a :: a in added ==> a.outcome == Done || a.outcome == Gone
    {
      err, added := None, [];
      ghost var ws := DeleteWrites(doomed);
      for n := 0 to |doomed|
        invariant Valid() && Did(old(store), store, old(log), log, added)
        invariant |added| == n && Completed(ws[..n], added)
        invariant StillOwned(old(store), store)
      {
        assert doomed[n] in doomed;
        var o;
        o, added := IssueNext(Delete(doomed[n].uuid), ws, old(store), old(log), added);
        if Failed(o) {
          var text := *;
          err := Some(text);
          return;
        }
      }
      assert ws[..|doomed|] == ws;
    }

    method DeleteSupersededProfiles(t: Intent) returns (err: Option<string>, ghost added: seq<Attempt>)
      requires Valid()
      requires t.role != Provisioning ==> Intended(store, t.iface, t.role)
      modifies this`store, this`log, this`replies
      ensures Valid()
      ensures Did(old(store), store, old(log), log, added)
      ensures Run(ForwardPath(t), old(store), added)
      ensures forall a :: a in added ==> a.write.Delete?
      ensures forall u :: u in store ==> u in old(store) && store[u] == old(store)[u]
      ensures forall u :: u in old(store) && !Superseded(t, old(store)[u]) ==> u in store
      ensures err.None? ==> Pruned(t, old(store), store)
      ensures err.Some? ==> StoppedEarly(store, added)
      ensures |replies| == |old(replies)| + 1 && old(replies) <= replies
      ensures err.None? <==> AllAnswered(old(replies), replies) && EndsWell(added)
    {
      added := [];
      NeverTouchedForeign();
      var ps;
      ps, err := ListProfiles();
      if err.Some? {
        return;
      }
      var doomed := SupersededProfiles(ps, t);
      err, added := DeleteEach(doomed);
      PruneAllowed(t, old(store), ps, added);
      PruneRun(t, old(store), ps, added);
      if err.Some? {
        PruneStopped(t, old(store), ps, added);
      }
    }

    /** Records the selected mode and then removes what the candidate supersedes. */
    method FinalizeProduction(t: Intent) returns (err: Option<string>, ghost added: seq<Attempt>)
      requires Valid() && (t.role == Infrastructure || t.role == Standalone)
      modifies this`store, this`log, this`replies
      ensures Valid()
      ensures Did(old(store), store, old(log), log, added)
      ensures Run(ForwardPath(t), old(store), added)
      ensures forall a :: a in added ==> !a.write.Add?
      ensures err.None? ==> Settled(t, old(store), store)
      ensures err.Some? ==> Unfinished(t, old(store), store, added)
      ensures old(replies) <= replies
      ensures err.None? <==> AllAnswered(old(replies), replies) && EndsWell(added)
    {
      err, added := SelectMode(t.iface, t.role, t);
      if err.Some? {
        return;
      }
      ghost var mid, selecting, pruning, halfway := store, added, [], replies;
      SelectedIsIntended(old(store), mid, t.iface, t.role);
      err, pruning := DeleteSupersededProfiles(t);
      RepliesCompose(old(replies), halfway, replies);
      ForwardCompose(t, old(store), old(log), selecting, pruning);
      added := selecting + pruning;
      if err.Some? {
        PruningUnfinished(t, old(store), mid, store, selecting, pruning);
      } else {
        assert SelectedFrom(old(store), mid, t.iface, t.role) && Pruned(t, mid, store);
      }
    }

    method FinalizeTransition(t: Intent) returns (err: Option<string>, ghost added: seq<Attempt>)
      requires Valid()
      modifies this`store, this`log, this`trace, this`replies
      ensures Valid() && trace == old(trace) + [Finalized(err.None?)]
      ensures Did(old(store), store, old(log), log, added)
      ensures Run(ForwardPath(t), old(store), added)
      ensures forall a :: a in added ==> !a.write.Add?
      ensures err.None? && t.role != Provisioning ==> Settled(t, old(store), store)
      ensures err.None? && t.role == Provisioning ==> Pruned(t, old(store), store)
      ensures err.Some? && t.role != Provisioning ==> Unfinished(t, old(store), store, added)
      ensures old(replies) <= replies
      ensures err.None? <==> !t.role.Other? && AllAnswered(old(replies), replies) && EndsWell(added)
      ensures t.role.Other? ==> err.Some? && added == []
      ensures t.role == Provisioning ==> forall a :: a in added ==> a.write.Delete?
    {
      added := [];
      if t.role.Other? {
        err := Some("cannot finalize unknown network role");
      } else if t.role == Provisioning {
        err, added := DeleteSupersededProfiles(t);
      } else {
        err, added := FinalizeProduction(t);
      }
      trace := trace + [Finalized(err.None?)];
    }

    method DeleteProfile(p: Profile) returns (o: Outcome)
      requires Valid() && p.uuid in store && store[p.uuid] == p && p.owned
      modifies this`store, this`log
      ensures Valid() && log == old(log) + [Attempt(Delete(p.uuid), o)]
      ensures store == if o == Refused then old(store) else old(store) - {p.uuid}
    {
      o := Issue(Delete(p.uuid));
    }

    /** Deletes a profile only if it carries onboardd's ownership metadata; an absent UUID
        is success. */
    method DeleteOwnedProfile(uuid: Uuid) returns (err: Option<string>)
      requires Valid()
      modifies this`store, this`log, this`trace, this`replies
      ensures Valid() && trace == old(trace) + [OwnedDeleted(uuid, err.None?)]
      ensures err.None? ==> ValidUuid(uuid) && store == old(store) - {Lower(uuid)}
      ensures err.Some? ==> store == old(store) || store == old(store) - {Lower(uuid)}
      ensures ValidUuid(uuid) ==> |replies| == |old(replies)| + 1 && old(replies) <= replies
      ensures if ValidUuid(uuid) && AllAnswered(old(replies), replies)
              then DeletedOwned(Lower(uuid), old(store), old(log), log, err)
              else err.Some? && log == old(log)
    {
      NeverTouchedForeign();
      err := None;
      if !ValidUuid(uuid) {
        err := Some("UUID must use the canonical 8-4-4-4-12 format");
      } else {
        var ps;
        ps, err := ListProfiles();
        if err.None? {
          err := DeleteListed(uuid, ps);
        }
      }
      trace := trace + [OwnedDeleted(uuid, err.None?)];
    }

    method DeleteListed(uuid: Uuid, ps: seq<Profile>) returns (err: Option<string>)
      requires Valid() && WellKeyed(store) && Enumerates(ps, store)
      modifies this`store, this`log
      ensures Valid()
      ensures err.None? ==> store == old(store) - {Lower(uuid)}
      ensures err.Some? ==> store == old(store) || store == old(store) - {Lower(uuid)}
      ensures DeletedOwned(Lower(uuid), old(store), old(log), log, err)
    {
      for n := 0 to |ps|
        invariant store == old(store) && log == old(log)
        invariant forall i :: 0 <= i < n ==> ps[i].uuid != Lower(uuid)
      {
        if ps[n].uuid != Lower(uuid) {
          continue;
        }
        assert ps[n] in ps;
        if !ps[n].owned {
          return Some("refusing to delete profile because it is not owned by onboardd");
        }
        var o := DeleteProfile(ps[n]);
        if o == Done {
          return None;
        }
        var text := *;
        return Some(text);
      }
      assert forall p :: p in ps ==> p.uuid != Lower(uuid);
      return None;
    }

    /** The Known networks boundary: an inactive, owned infrastructure profile on the
        interface, and nothing else. */
    method DeleteOwnedInfrastructureProfile(iface: string, uuid: Uuid) returns (err: Option<string>)
      requires Valid()
      modifies this`store, this`log, this`trace, this`replies
      ensures Valid()
      ensures iface == "" || !ValidUuid(uuid) ==> err.Some? && log == old(log) && trace == old(trace)
      ensures iface != "" && ValidUuid(uuid) ==>
                exists status ::
                  && trace == old(trace) + [StatusRead(status)]
                  && if status.Some? && status.value.activeUuid != Lower(uuid) && AllAnswered(old(replies), replies)
                     then DeletedManaged(iface, Lower(uuid), old(store), old(log), log, err)
                     else err.Some? && log == old(log)
      ensures err.None? ==> store == old(store) - {Lower(uuid)}
      ensures err.Some? ==> store == old(store) || store == old(store) - {Lower(uuid)}
    {
      NeverTouchedForeign();
      if iface == "" || !ValidUuid(uuid) {
        return Some("interface name is required, or uuid is not canonical");
      }
      var status, failed := ReadStatus();
      if failed.Some? {
        return failed;
      }
      err := DeleteInactive(iface, Lower(uuid), status);
    }

    method DeleteInactive(iface: string, u: Uuid, status: Status) returns (err: Option<string>)
      requires Valid() && WellKeyed(store)
      modifies this`store, this`log, this`replies
      ensures Valid()
      ensures if status.activeUuid != u && AllAnswered(old(replies), replies)
              then DeletedManaged(iface, u, old(store), old(log), log, err)
              else err.Some? && log == old(log)
      ensures err.None? ==> store == old(store) - {u}
      ensures err.Some? ==> store == old(store) || store == old(store) - {u}
    {
      if status.activeUuid == u {
        return Some("refusing to delete active profile");
      }
      var ps;
      ps, err := ListProfiles();
      if err.None? {
        err := DeleteListedInfrastructure(iface, u, ps);
      }
    }

    method DeleteListedInfrastructure(iface: string, u: Uuid, ps: seq<Profile>) returns (err: Option<string>)
      requires Valid() && WellKeyed(store) && Enumerates(ps, store)
      modifies this`store, this`log
      ensures Valid() && DeletedManaged(iface, u, old(store), old(log), log, err)
      ensures err.None? ==> store == old(store) - {u}
      ensures err.Some? ==> store == old(store) || store == old(store) - {u}
    {
      for n := 0 to |ps|
        invariant store == old(store) && log == old(log)
        invariant forall i :: 0 <= i < n ==> ps[i].uuid != u
      {
        if ps[n].uuid != u {
          continue;
        }
        assert ps[n] in ps;
        if !ps[n].owned || ps[n].role != Infrastructure || ps[n].iface != iface || !IsInfrastructureWiFi(ps[n]) {
          return Some("refusing to delete profile because it is not an onboardd-owned infrastructure profile");
        }
        var o := DeleteProfile(ps[n]);
        if o == Done {
          return None;
        }
        var text := *;
        return Some(text);
      }
      assert forall p :: p in ps ==> p.uuid != u;
      return Some("profile was not found");
    }

    /** Startup removal of the candidates an interrupted transition left behind. */
    method DeletePendingInfrastructureProfiles(iface: string)
      returns (err: Option<string>, ghost added: seq<Attempt>)
      requires Valid()
      modifies this`store, this`log, this`replies
      ensures Valid()
      ensures Did(old(store), store, old(log), log, added)
      ensures Run(StartupCleanup(iface), old(store), added)
      ensures old(replies) <= replies
      ensures err.None? <==> iface != "" && AllAnswered(old(replies), replies) && EndsWell(added)
      ensures forall u :: u in store ==> u in old(store) && store[u] == old(store)[u]
      ensures forall u :: u in old(store) && !Pending(old(store)[u], iface) ==> u in store
      ensures err.None? ==> forall u :: u in store ==> !Pending(store[u], iface)
    {
      added := [];
      NeverTouchedForeign();
      if iface == "" {
        err := Some("interface name is required");
        return;
      }
      var ps;
      ps, err := ListProfiles();
      if err.Some? {
        return;
      }
      var pending := PendingProfiles(ps, iface);
      err, added := DeleteEach(pending);
      CleanupAllowed(iface, old(store), ps, added);
      CleanupRun(iface, old(store), ps, added);
    }

    method ReadStatus() returns (status: Status, err: Option<string>)
      modifies this`trace
      ensures trace == old(trace) + [StatusRead(if err.None? then Some(status) else None)]
    {
      status, err := *, *;
      trace := trace + [StatusRead(if err.None? then Some(status) else None)];
    }

    method CheckConnectivity() returns (value: nat, err: Option<string>)
      modifies this`trace
      ensures trace == old(trace) + [ConnectivityChecked(if err.None? then Some(value) else None)]
    {
      value, err := *, *;
      trace := trace + [ConnectivityChecked(if err.None? then Some(value) else None)];
    }

    method WaitForActivation(activePath: string) returns (err: Option<string>)
      modifies this`trace
      ensures trace == old(trace) + [ActivationAwaited(activePath, err.None?)]
    {
      err := *;
      trace := trace + [ActivationAwaited(activePath, err.None?)];
    }

    method CreateCheckpoint() returns (err: Option<string>)
      modifies this`trace
      ensures trace == old(trace) + [CheckpointCreated(err.None?)]
    {
      err := *;
      trace := trace + [CheckpointCreated(err.None?)];
    }

    method CommitCheckpoint() returns (err: Option<string>)
      modifies this`trace
      ensures trace == old(trace) + [CheckpointCommitted(err.None?)]
    {
      err := *;
      trace := trace + [CheckpointCommitted(err.None?)];
    }

    /** NetworkManager's rollback may change which profile is active; it rewrites none of
        the profiles modelled here. */
    method RollbackCheckpoint() returns (err: Option<string>)
      modifies this`trace
      ensures trace == old(trace) + [CheckpointRolledBack(err.None?)]
    {
      err := *;
      trace := trace + [CheckpointRolledBack(err.None?)];
    }

    /** Activates an existing profile without changing it. */
    method ActivateProfile(uuid: Uuid) returns (activation: Activation, err: Option<string>)
      modifies this`trace
      ensures trace == old(trace) + [ProfileActivated(uuid, activation, err.None?)]
      ensures err.None? ==> ValidUuid(uuid) && activation.uuid == Lower(uuid)
      ensures err.Some? ==> activation == NO_ACTIVATION
    {
      var path;
      activation, path, err := NO_ACTIVATION, *, *;
      if !ValidUuid(uuid) {
        err := Some("UUID must use the canonical 8-4-4-4-12 format");
      }
      if err.None? {
        activation := Activation(path, Lower(uuid));
      }
      trace := trace + [ProfileActivated(uuid, activation, err.None?)];
    }

    /** Activates a profile that was just added, or deletes it again; unless the deletion is
        known to have worked the profile is reported. */
    method ActivateOrDelete(p: Profile) returns (activation: Activation, err: Option<string>, ghost added: seq<Attempt>)
      requires Valid() && p.owned && p.uuid in store && store[p.uuid] == p
      modifies this`store, this`log, this`replies
      ensures Valid() && Did(old(store), store, old(log), log, added)
      ensures replies == old(replies) + [err.None?] && (AllAnswered(old(replies), replies) <==> err.None?)
      ensures err.None? ==> activation.uuid == p.uuid && added == []
      ensures err.Some? ==>
                exists d :: added == [Attempt(Delete(p.uuid), d)] &&
                  activation == if d == Done then NO_ACTIVATION else Activation("", p.uuid)
    {
      var path;
      path, added := *, [];
      err := Ask();
      if err.None? {
        activation := Activation(path, p.uuid);
        return;
      }
      var d := Issue(Delete(p.uuid));
      DidMore(old(store), old(log), added, Attempt(Delete(p.uuid), d));
      added := [Attempt(Delete(p.uuid), d)];
      activation := if d == Done then NO_ACTIVATION else Activation("", p.uuid);
    }

    /** Adds a profile and activates it. A profile that stays behind after a failure is reported
        by its UUID, unless the reply to its addition was lost: then it stays and nobody knows. */
    method AddAndActivate(p: Profile)
      returns (activation: Activation, err: Option<string>, ghost added: seq<Attempt>)
      requires Valid() && p.owned && p.uuid !in store
      modifies this`store, this`log, this`trace, this`replies
      ensures Valid() && trace == old(trace) + [CandidateActivated(activation, err.None?)]
      ensures log == old(log) + added && AddedAs(p, old(store), store, activation, err, added)
      ensures err.None? <==> AllAnswered(old(replies), replies) && added == [Attempt(Add(p), Done)]
      ensures added == [] ==> !AllAnswered(old(replies), replies)
    {
      activation, added := NO_ACTIVATION, [];
      err := Ask();
      ghost var asked := replies;
      if err.None? {
        var o := Issue(Add(p));
        if o == Done {
          ghost var more;
          activation, err, more := ActivateOrDelete(p);
          RepliesCompose(old(replies), asked, replies);
          AddedThenDeleted(p, old(store), activation, err, more);
          added := [Attempt(Add(p), o)] + more;
        } else {
          var text := *;
          err := Some(text);
          NotKnownAdded(p, old(store), o, text);
          added := [Attempt(Add(p), o)];
        }
      }
      trace := trace + [CandidateActivated(activation, err.None?)];
    }
  }

  /** How adding and activating a profile can end. */
  ghost predicate AddedAs(p: Profile, s: Store, s': Store, activation: Activation, err: Option<string>,
                          added: seq<Attempt>) {
    && s' == Replay(s, added) && (s' == s || s' == s[p.uuid := p])
    && (err.None? ==> activation.uuid == p.uuid && added == [Attempt(Add(p), Done)] && s' == s[p.uuid := p])
    && (err.Some? ==> activation.uuid in {"", p.uuid})
    && (p.uuid in s' && activation.uuid != p.uuid ==> LostAddition(p, added))
    && (LostAddition(p, added) ==> s' == s[p.uuid := p] && activation == NO_ACTIVATION && err.Some?)
    && (added == [] || added[0].write == Add(p))
    && (|added| > 1 ==> added[0].outcome == Done && |added| == 2 && added[1].write == Delete(p.uuid))
  }

  lemma NotKnownAdded(p: Profile, s: Store, o: Outcome, text: string)
    requires p.uuid !in s && (o == Refused || o == Lost)
    ensures AddedAs(p, s, Effect(s, Attempt(Add(p), o)), NO_ACTIVATION, Some(text), [Attempt(Add(p), o)])
  {
    ReplayStep(s, [], Attempt(Add(p), o));
    assert [] + [Attempt(Add(p), o)] == [Attempt(Add(p), o)];
  }

  lemma AddedThenDeleted(p: Profile, s: Store, activation: Activation, err: Option<string>, more: seq<Attempt>)
    requires p.uuid !in s
    requires err.None? ==> activation.uuid == p.uuid && more == []
    requires err.Some? ==>
               |more| == 1 && more[0].write == Delete(p.uuid) &&
               activation == if more[0].outcome == Done then NO_ACTIVATION else Activation("", p.uuid)
    ensures AddedAs(p, s, Replay(s[p.uuid := p], more), activation, err, [Attempt(Add(p), Done)] + more)
  {
    var add := Attempt(Add(p), Done);
    ReplayStep(s, [], add);
    assert [] + [add] == [add];
    ReplayAppend(s, [add], more);
    if more != [] {
      assert more == [] + [more[0]];
      ReplayStep(s[p.uuid := p], [], more[0]);
      assert s[p.uuid := p] - {p.uuid} == s;
    }
  }

  /** How the deletion of an owned profile ends: one deletion is issued and decides, a profile of
      somebody else is refused, and an absent one needs no deletion. */
  ghost predicate DeletedOwned(u: Uuid, s: Store, log: seq<Attempt>, log': seq<Attempt>, err: Option<string>) {
    if u in s && s[u].owned then DeletionDecides(u, log, log', err)
    else log' == log && (err.None? <==> u !in s)
  }

  ghost predicate DeletionDecides(u: Uuid, log: seq<Attempt>, log': seq<Attempt>, err: Option<string>) {
    exists o :: log' == log + [Attempt(Delete(u), o)] && (err.None? <==> o == Done)
  }

  /** The same for a network of onboardd's own on the interface, which must exist. */
  ghost predicate DeletedManaged(iface: string, u: Uuid, s: Store, log: seq<Attempt>, log': seq<Attempt>,
                                 err: Option<string>) {
    if u in s && s[u].owned && s[u].role == Infrastructure && s[u].iface == iface && IsInfrastructureWiFi(s[u])
    then DeletionDecides(u, log, log', err)
    else log' == log && err.Some?
  }

  predicate IsInfrastructureWiFi(p: Profile) {
    p.kind == WIFI && (p.mode == "" || p.mode == "infrastructure")
  }

  /** Neither an access point nor anything but Wi-Fi is a Wi-Fi client. */
  lemma {:induction false} WifiClients(p: Profile)
    ensures IsInfrastructureWiFi(p) ==> p.kind == "802-11-wireless" && p.mode != "ap" && p.mode in ["", "infrastructure"]
    ensures p.kind == "802-11-wireless" && p.mode in ["", "infrastructure"] ==> IsInfrastructureWiFi(p)
  {
    assert "ap" != "infrastructure";
  }
}
