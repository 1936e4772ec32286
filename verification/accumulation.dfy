/** What repeated transitions leave in the store, and the inputs that show where the
    forward path's guarantees end. */
module Accumulation {
  import opened Text
  import opened Profiles
  import opened Plans
  import opened Selection
  import Sorting
  import Uuids
  import opened Recovery
  import opened Transitions

  /** At most one standalone profile and at most one infrastructure profile per SSID. */
  ghost predicate NoDuplicates(s: Store, iface: string) {
    forall u, v ::
      u in s && v in s && u != v && Production(s[u], iface) && Production(s[v], iface) && s[u].role == s[v].role
      ==> s[u].role == Infrastructure && s[u].ssid != s[v].ssid
  }

  /** Between boots a store changes by committed transitions and by profiles going away. */
  datatype Step = Commit(plan: Plan) | Forget(gone: set<Uuid>)

  ghost predicate Takes(iface: string, step: Step, s: Store, s': Store) {
    match step
    case Commit(plan) =>
      plan.iface == iface && Ready(plan, s) && Settled(IntentOf(plan), WithCandidate(plan, s), s')
    case Forget(gone) => s' == s - gone
  }

  ghost predicate Chain(iface: string, steps: seq<Step>, stores: seq<Store>) {
    && |stores| == |steps| + 1
    && forall i :: 0 <= i < |steps| ==> Takes(iface, steps[i], stores[i], stores[i + 1])
  }

  function LastSelected(steps: seq<Step>): Option<Profiles.Role> {
    if steps == [] then None
    else
      var last := steps[|steps| - 1];
      if last.Commit? then Some(last.plan.role) else LastSelected(steps[..|steps| - 1])
  }

  lemma {:induction false} SettledKeeps(t: Intent, s: Store, s': Store)
    requires Settled(t, s, s') && WellKeyed(s)
    ensures WellKeyed(s') && Intended(s', t.iface, t.role)
    ensures forall u :: u in s' ==>
              u in s && !Superseded(t, s'[u]) && s'[u].ssid == s[u].ssid && s'[u].role == s[u].role &&
              (Production(s'[u], t.iface) <==> Production(s[u], t.iface))
  {
    var mid: Store :| SelectedFrom(s, mid, t.iface, t.role) && Pruned(t, mid, s');
    SelectedIsIntended(s, mid, t.iface, t.role);
    forall u | u in s' ensures s'[u] == Reassigned(s[u], t.iface, t.role) && !Superseded(t, s'[u]) {
      assert s'[u] == mid[u];
    }
  }

  lemma {:induction false} CommitKeepsUnique(plan: Plan, s: Store, s': Store)
    requires Ready(plan, s) && WellKeyed(s) && NoDuplicates(s, plan.iface)
    requires Settled(IntentOf(plan), WithCandidate(plan, s), s')
    ensures WellKeyed(s') && NoDuplicates(s', plan.iface) && Intended(s', plan.iface, plan.role)
  {
    var t := IntentOf(plan);
    var mid := WithCandidate(plan, s);
    SettledKeeps(t, mid, s');
    forall u, v | u in s' && v in s' && u != v && Production(s'[u], plan.iface) && Production(s'[v], plan.iface) &&
                  s'[u].role == s'[v].role
      ensures s'[u].role == Infrastructure && s'[u].ssid != s'[v].ssid
    {
      assert !Superseded(t, s'[u]) && !Superseded(t, s'[v]);
      assert Production(mid[u], plan.iface) && Production(mid[v], plan.iface);
      if u != t.keep && v != t.keep {
        assert mid[u] == s[u] && mid[v] == s[v];
      } else {
        assert InScope(t, mid[t.keep]);
      }
    }
  }

  /** Repeated transitions do not accumulate. From a store without duplicates, whatever
      committed transitions and removals follow, no duplicate appears, and autoconnect marks
      exactly the mode selected last. */
  lemma {:induction false} RepeatedTransitions(iface: string, steps: seq<Step>, stores: seq<Store>)
    requires Chain(iface, steps, stores) && WellKeyed(stores[0]) && NoDuplicates(stores[0], iface)
    ensures WellKeyed(stores[|steps|]) && NoDuplicates(stores[|steps|], iface)
    ensures LastSelected(steps).Some? ==> Intended(stores[|steps|], iface, LastSelected(steps).value)
  {
    if steps != [] {
      var n := |steps| - 1;
      RepeatedTransitions(iface, steps[..n], stores[..|steps|]);
      assert Takes(iface, steps[n], stores[n], stores[n + 1]);
      match steps[n] {
        case Commit(plan) =>
          CommitKeepsUnique(plan, stores[n], stores[n + 1]);
        case Forget(gone) =>
      }
    }
  }

  function Sample(uuid: Uuid, role: Profiles.Role, autoconnect: bool, pending: bool, inMemory: bool): Profile {
    Profile(uuid, "p", WIFI, "wlan0", "net", ModeName(role), autoconnect, 0, true, role, pending, inMemory)
  }

  lemma {:induction false} KeepAll<T(!new)>(wanted: T -> bool, s: seq<T>)
    requires forall x :: x in s ==> wanted(x)
    ensures Keep(wanted, s) == s
  {
    if s != [] {
      KeepAll(wanted, s[..|s| - 1]);
      assert s == s[..|s| - 1] + [s[|s| - 1]];
    }
  }

  lemma {:induction false} PlanOfTwo(home: Profile, selected: Profile, iface: string)
    requires Wanted(home, iface, Infrastructure) && Wanted(selected, iface, Infrastructure)
    requires home.role == Standalone && selected.role == Infrastructure
    ensures UpdatePlan([selected, home], iface, Infrastructure) == [Update(selected, true), Update(home, false)]
  {
    var ps := [selected, home];
    KeepAll(NeedsUpdate(iface, Infrastructure), ps);
    UpdatesOfTwo(home, selected);
    Sorting.OrderedStays(EnabledFirst, Updates(ps, Infrastructure));
  }

  lemma {:induction false} UpdatesOfTwo(home: Profile, selected: Profile)
    requires home.role == Standalone && selected.role == Infrastructure
    ensures Updates([selected, home], Infrastructure) == [Update(selected, true), Update(home, false)]
  {
  }

  /** A log that selectMode issues against a store: the plan of some listing, carried out. */
  ghost predicate SelectionLog(t: Intent, s: Store, log: seq<Attempt>) {
    exists ps :: Enumerates(ps, s) && Completed(UpdateWrites(UpdatePlan(ps, t.iface, t.role)), log)
  }

  /** The two updates that select `other`, in the order selectMode issues them. */
  ghost predicate Selecting(home: Profile, other: Profile, log: seq<Attempt>) {
    && |log| == 2 && !Failed(log[0].outcome) && !Failed(log[1].outcome)
    && log[0].write == SetAutoconnect(other.uuid, true) && log[1].write == SetAutoconnect(home.uuid, false)
  }

  /** These updates with the outcomes they had. */
  function Updating(home: Profile, other: Profile, enabled: Outcome, disabled: Outcome): (log: seq<Attempt>)
    requires !Failed(enabled) && !Failed(disabled)
    ensures Selecting(home, other, log) && log[0].outcome == enabled && log[1].outcome == disabled
  {
    [Attempt(SetAutoconnect(other.uuid, true), enabled), Attempt(SetAutoconnect(home.uuid, false), disabled)]
  }

  lemma {:induction false} TwoUpdatesAreSelected(t: Intent, s: Store, home: Profile, other: Profile, log: seq<Attempt>)
    requires Pair(t, home, other, false) && s == map[home.uuid := home, other.uuid := other]
    requires Selecting(home, other, log)
    ensures SelectionLog(t, s, log)
  {
    var ps := [other, home];
    PlanOfTwo(home, other, t.iface);
    assert Enumerates(ps, s) by {
      assert ps[0] == other && ps[1] == home;
    }
    assert Completed(UpdateWrites(UpdatePlan(ps, t.iface, t.role)), log);
  }

  /** A selection that selectMode issued is a permitted run, and selects. */
  lemma {:induction false} SelectionRuns(t: Intent, s: Store, log: seq<Attempt>)
    requires SelectionLog(t, s, log) && WellKeyed(s)
    ensures Run(ForwardPath(t), s, log) && SelectedFrom(s, Replay(s, log), t.iface, t.role)
  {
    var ps :| Enumerates(ps, s) && Completed(UpdateWrites(UpdatePlan(ps, t.iface, t.role)), log);
    SelectRun(t, s, ps, log);
    SelectCompletes(t, s, ps, log);
  }

  /** So two updates select, and if they leave nothing to prune the finalization is complete. */
  lemma {:induction false} TwoUpdatesSettle(t: Intent, s: Store, home: Profile, other: Profile, log: seq<Attempt>)
    requires Pair(t, home, other, false) && s == map[home.uuid := home, other.uuid := other]
    requires Selecting(home, other, log)
    requires forall u :: u in Replay(s, log) ==> !Superseded(t, Replay(s, log)[u])
    ensures Run(ForwardPath(t), s, log) && Settled(t, s, Replay(s, log))
  {
    TwoUpdatesAreSelected(t, s, home, other, log);
    SelectionRuns(t, s, log);
    NothingToPrune(t, s, Replay(s, log));
  }

  /** A standalone device and an infrastructure profile that is not selected yet. */
  ghost predicate Pair(t: Intent, home: Profile, other: Profile, powerCut: bool) {
    && home.uuid != other.uuid && Startable(home, t.iface, powerCut) && home.role == Standalone && !home.pending
    && t.role == Infrastructure && t.keep == other.uuid && other.owned && InScope(t, other) && !other.autoconnect
  }

  lemma {:induction false} ReplayTwo(s: Store, a: Attempt, b: Attempt)
    ensures Replay(s, [a, b]) == Effect(Effect(s, a), b)
  {
    ReplayStep(s, [], a);
    assert [] + [a] == [a];
    ReplayStep(s, [a], b);
    assert [a] + [b] == [a, b];
  }

  lemma {:induction false} NothingToPrune(t: Intent, s: Store, s': Store)
    requires SelectedFrom(s, s', t.iface, t.role) && forall u :: u in s' ==> !Superseded(t, s'[u])
    ensures Settled(t, s, s')
  {
    assert Pruned(t, s', s');
  }

  lemma {:induction false} VanishedStore(both: Store, home: Profile, candidate: Profile, enable: Attempt, disable: Attempt)
    requires home.uuid != candidate.uuid && both == map[home.uuid := home, candidate.uuid := candidate]
    requires enable == Attempt(SetAutoconnect(candidate.uuid, true), Gone)
    requires disable == Attempt(SetAutoconnect(home.uuid, false), Done)
    ensures Replay(both, [enable, disable]) == map[home.uuid := Rebuilt(home, false)]
  {
    ReplayTwo(both, enable, disable);
  }

  lemma {:induction false} MemoryStore(s: Store, home: Profile, saved: Profile, enable: Attempt, disable: Attempt)
    requires home.uuid != saved.uuid && s == map[home.uuid := home, saved.uuid := saved]
    requires saved.inMemory && !home.inMemory
    requires enable == Attempt(SetAutoconnect(saved.uuid, true), Done)
    requires disable == Attempt(SetAutoconnect(home.uuid, false), Done)
    ensures Replay(s, [enable, disable]) == map[home.uuid := Rebuilt(home, false), saved.uuid := Rebuilt(saved, true)]
    ensures AfterCrash(Replay(s, [enable, disable]), true) == map[home.uuid := Rebuilt(home, false)]
  {
    ReplayTwo(s, enable, disable);
  }

  lemma {:induction false} NothingSuperseded(t: Intent, home: Profile, other: Profile, s: Store)
    requires Pair(t, home, other, false)
    requires forall u :: u in s ==> s[u] == Rebuilt(home, false) || s[u] == Rebuilt(other, true)
    ensures forall u :: u in s ==> !Superseded(t, s[u])
  {
  }

  /** The store while the candidate vanishes from under selectMode. */
  lemma {:induction false} VanishingUpdates(t: Intent, home: Profile, candidate: Profile, both: Store, rest: seq<Attempt>)
    requires Pair(t, home, candidate, false) && both == map[home.uuid := home, candidate.uuid := candidate]
    requires Selecting(home, candidate, rest) && rest[0].outcome == Gone && rest[1].outcome == Done
    ensures Run(ForwardPath(t), both, rest)
    ensures Replay(both, rest) == map[home.uuid := Rebuilt(home, false)] && Settled(t, both, Replay(both, rest))
  {
    VanishedStore(both, home, candidate, rest[0], rest[1]);
    assert rest == [rest[0], rest[1]];
    NothingSuperseded(t, home, candidate, Replay(both, rest));
    TwoUpdatesSettle(t, both, home, candidate, rest);
  }

  /** Adding the candidate to the store that holds only the mode at home. */
  lemma {:induction false} CandidateAdded(t: Intent, home: Profile, candidate: Profile, s: Store, add: Attempt)
    requires Pair(t, home, candidate, false) && s == map[home.uuid := home] && add == Attempt(Add(candidate), Done)
    ensures Run(ForwardPath(t), s, [add])
    ensures Replay(s, [add]) == map[home.uuid := home, candidate.uuid := candidate]
  {
    assert [] + [add] == [add];
    ReplayStep(s, [], add);
    RunStep(ForwardPath(t), s, [], add);
  }

  /** Another process deletes the candidate while selectMode is about to enable it. */
  lemma {:induction false} CandidateVanishes(t: Intent, home: Profile, candidate: Profile, s: Store, add: Attempt,
                                             rest: seq<Attempt>)
    requires Pair(t, home, candidate, false) && s == map[home.uuid := home] && add == Attempt(Add(candidate), Done)
    requires Selecting(home, candidate, rest) && rest[0].outcome == Gone && rest[1].outcome == Done
    ensures Replay(s, [add]) == Opened(s, [add] + rest) == map[home.uuid := home, candidate.uuid := candidate]
    ensures Run(ForwardPath(t), s, [add] + rest)
    ensures Replay(s, [add] + rest) == map[home.uuid := Rebuilt(home, false)]
    ensures Settled(t, Opened(s, [add] + rest), Replay(s, [add] + rest))
  {
    CandidateAdded(t, home, candidate, s, add);
    ReplayAppend(s, [add], rest);
    VanishingUpdates(t, home, candidate, Replay(s, [add]), rest);
    RunAppend(ForwardPath(t), s, [add], rest);
  }

  lemma {:induction false} HomeDecidesBoot(t: Intent, home: Profile, s: Store, log: seq<Attempt>, powerCut: bool)
    requires home.uuid in s && s[home.uuid] == home && Startable(home, t.iface, powerCut) && !home.pending
    requires forall u :: u in s && u != home.uuid ==> !s[u].autoconnect
    requires AfterCrash(Replay(s, log), powerCut) == map[home.uuid := Rebuilt(home, false)]
    requires Run(ForwardPath(t), s, log) && AddsFirst(log) && Settled(t, Opened(s, log), Replay(s, log))
    ensures Stranded(t, s, log, powerCut)
  {
  }

  lemma {:induction false} AlreadyLower(s: string)
    requires forall i :: 0 <= i < |s| ==> AsciiLower(s[i]) == s[i]
    ensures Lower(s) == s
  {
  }

  /** A profile UUID in canonical form, made of one digit. */
  lemma {:induction false} CanonicalUuid(digit: char) returns (uuid: Uuid)
    requires '0' <= digit <= '9' || 'a' <= digit <= 'f'
    ensures Canonical(uuid) && StartsWith(uuid, digit)
  {
    var four: string := [digit, digit, digit, digit];
    Uuids.GroupsMakeUuid(four + four, four, four, four, four + four + four);
    uuid := four + four + (['-'] + four) + (['-'] + four) + (['-'] + four) + (['-'] + (four + four + four));
    AlreadyLower(uuid);
  }

  predicate StartsWith(s: string, c: char) {
    s != [] && s[0] == c
  }

  ghost predicate CanonicalKeys(s: Store) {
    forall u :: u in s ==> Canonical(u)
  }

  lemma {:induction false} PairIsCanonical(s: Store, home: Profile, other: Profile)
    requires Canonical(home.uuid) && Canonical(other.uuid) && s.Keys <= {home.uuid, other.uuid}
    ensures CanonicalKeys(s)
  {
  }

  /** A small home and a profile to select, with short texts, and the store that holds both. */
  lemma {:induction false} Sampled(inMemory: bool)
    returns (t: Intent, home: Profile, other: Profile, both: Store)
    ensures Pair(t, home, other, true) && other.inMemory == inMemory && !home.inMemory && t.iface == "wlan0"
    ensures both == map[home.uuid := home, other.uuid := other] && CanonicalKeys(both)
    ensures StartsWith(home.uuid, 'a') && StartsWith(other.uuid, 'b')
  {
    var a := CanonicalUuid('a');
    var b := CanonicalUuid('b');
    home := Sample(a, Standalone, true, false, false);
    other := Sample(b, Infrastructure, false, false, inMemory);
    t := Intent("wlan0", Infrastructure, "net", b);
    both := map[a := home, b := other];
    PairIsCanonical(both, home, other);
  }

  /** A run that finalized, as selectMode issued it, and left nothing that boots. */
  ghost predicate Stranded(t: Intent, s: Store, log: seq<Attempt>, powerCut: bool) {
    && Run(ForwardPath(t), s, log) && AddsFirst(log) && Settled(t, Opened(s, log), Replay(s, log))
    && Bootable(s, t.iface, powerCut) && PendingIsInert(s)
    && !Bootable(AfterCrash(Replay(s, log), powerCut), t.iface, powerCut)
  }

  lemma {:induction false} OnlyOtherSurvives(t: Intent, home: Profile, other: Profile, s: Store, powerCut: bool, v: Uuid)
    requires Pair(t, home, other, false) && s == map[home.uuid := home, other.uuid := other]
    requires Survivor(t, s, v, powerCut)
    ensures v == other.uuid && (powerCut ==> !other.inMemory)
  {
  }

  lemma {:induction false} VanishedRun(t: Intent, home: Profile, candidate: Profile, s: Store, add: Attempt,
                                       rest: seq<Attempt>)
    requires Pair(t, home, candidate, false) && s == map[home.uuid := home] && add == Attempt(Add(candidate), Done)
    requires Selecting(home, candidate, rest) && rest[0].outcome == Gone && rest[1].outcome == Done
    ensures Stranded(t, s, [add] + rest, false)
  {
    CandidateVanishes(t, home, candidate, s, add, rest);
    NoCutNoLoss(Replay(s, [add] + rest));
    HomeDecidesBoot(t, home, s, [add] + rest, false);
  }

  lemma {:induction false} NoCutNoLoss(s: Store)
    ensures AfterCrash(s, false) == s
  {
  }

  lemma {:induction false} VanishedSurvivors(t: Intent, home: Profile, candidate: Profile, s: Store, log: seq<Attempt>)
    requires Pair(t, home, candidate, false) && Opened(s, log) == map[home.uuid := home, candidate.uuid := candidate]
    requires |log| > 1 && log[1] == Attempt(SetAutoconnect(candidate.uuid, true), Gone)
    ensures forall v :: Survivor(t, Opened(s, log), v, false) ==> !Undisturbed(log, v)
  {
    assert log[1] in log;
    forall v | Survivor(t, Opened(s, log), v, false) ensures !Undisturbed(log, v) {
      OnlyOtherSurvives(t, home, candidate, Opened(s, log), false, v);
    }
  }

  lemma {:induction false} VanishedLoses(t: Intent, home: Profile, candidate: Profile, s: Store, add: Attempt,
                                         rest: seq<Attempt>)
    requires Pair(t, home, candidate, false) && s == map[home.uuid := home] && add == Attempt(Add(candidate), Done)
    requires Selecting(home, candidate, rest) && rest[0].outcome == Gone && rest[1].outcome == Done
    ensures SelectionLog(t, Replay(s, [add]), rest) && Stranded(t, s, [add] + rest, false)
    ensures forall v :: Survivor(t, Opened(s, [add] + rest), v, false) ==> !Undisturbed([add] + rest, v)
    ensures Replay(s, [add]) == map[home.uuid := home, candidate.uuid := candidate]
  {
    VanishedRun(t, home, candidate, s, add, rest);
    CandidateVanishes(t, home, candidate, s, add, rest);
    VanishedSurvivors(t, home, candidate, s, [add] + rest);
    TwoUpdatesAreSelected(t, Replay(s, [add]), home, candidate, rest);
  }

  /** Where the guarantee ends, first. Another process deletes the candidate while selectMode is
      about to enable it; selectMode skips it and disables the other mode, which leaves no
      survivor and nothing that boots, though the finalization succeeds. */
  lemma {:induction false} VanishedCandidateLosesEligibility()
    returns (t: Intent, s: Store, add: Attempt, rest: seq<Attempt>)
    ensures add.write.Add? && SelectionLog(t, Replay(s, [add]), rest) && Stranded(t, s, [add] + rest, false)
    ensures forall v :: Survivor(t, Opened(s, [add] + rest), v, false) ==> !Undisturbed([add] + rest, v)
    ensures CanonicalKeys(Replay(s, [add]))
  {
    var home, candidate, both;
    t, home, candidate, both := Sampled(false);
    s, add := map[home.uuid := home], Attempt(Add(candidate), Done);
    rest := Updating(home, candidate, Gone, Done);
    VanishedLoses(t, home, candidate, s, add, rest);
  }

  lemma {:induction false} MemoryRun(t: Intent, home: Profile, saved: Profile, s: Store, log: seq<Attempt>)
    requires Pair(t, home, saved, true) && saved.inMemory && s == map[home.uuid := home, saved.uuid := saved]
    requires Selecting(home, saved, log) && log[0].outcome == log[1].outcome == Done
    ensures Stranded(t, s, log, true)
  {
    MemoryStore(s, home, saved, log[0], log[1]);
    assert log == [log[0], log[1]];
    NothingSuperseded(t, home, saved, Replay(s, log));
    TwoUpdatesSettle(t, s, home, saved, log);
    HomeDecidesBoot(t, home, s, log, true);
  }

  lemma {:induction false} MemorySurvivors(t: Intent, home: Profile, saved: Profile, s: Store)
    requires Pair(t, home, saved, true) && saved.inMemory && s == map[home.uuid := home, saved.uuid := saved]
    ensures forall v :: !Survivor(t, s, v, true)
  {
    forall v ensures !Survivor(t, s, v, true) {
      if Survivor(t, s, v, true) {
        OnlyOtherSurvives(t, home, saved, s, true, v);
      }
    }
  }

  /** A selection, every update of it successful, of a store without a survivor of a power cut. */
  ghost predicate LosesSelection(t: Intent, s: Store, log: seq<Attempt>) {
    && SelectionLog(t, s, log) && Stranded(t, s, log, true)
    && (forall a :: a in log ==> a.outcome == Done) && forall v :: !Survivor(t, s, v, true)
  }

  lemma {:induction false} MemoryLoses(t: Intent, home: Profile, saved: Profile, s: Store, log: seq<Attempt>)
    requires Pair(t, home, saved, true) && saved.inMemory && s == map[home.uuid := home, saved.uuid := saved]
    requires Selecting(home, saved, log) && log[0].outcome == log[1].outcome == Done
    ensures LosesSelection(t, s, log)
  {
    MemoryRun(t, home, saved, s, log);
    MemorySurvivors(t, home, saved, s);
    TwoUpdatesAreSelected(t, s, home, saved, log);
    BothDone(log);
  }

  lemma {:induction false} BothDone(log: seq<Attempt>)
    requires |log| == 2 && log[0].outcome == log[1].outcome == Done
    ensures forall a :: a in log ==> a.outcome == Done
  {
  }

  /** Second: a saved profile that only lives in memory is selected like any other, and a
      power cut then loses it. No other process is needed. */
  lemma {:induction false} SavedInMemoryLosesEligibility() returns (t: Intent, s: Store, log: seq<Attempt>)
    ensures LosesSelection(t, s, log) && CanonicalKeys(s)
  {
    var home, saved;
    t, home, saved, s := Sampled(true);
    log := Updating(home, saved, Done, Done);
    MemoryLoses(t, home, saved, s, log);
  }

  /** A selection that ran to its end is where FinalizeTransition stands when the listing
      before its deletions fails. */
  lemma {:induction false} SelectionIsUnfinished(t: Intent, s: Store, log: seq<Attempt>)
    requires SelectionLog(t, s, log) && WellKeyed(s)
    requires log != [] && !Failed(log[|log| - 1].outcome) && forall a :: a in log ==> a.write.SetAutoconnect?
    ensures Unfinished(t, s, Replay(s, log), log)
  {
    SelectionRuns(t, s, log);
  }

  lemma {:induction false} SelectingEnds(home: Profile, other: Profile, log: seq<Attempt>)
    requires Selecting(home, other, log)
    ensures log != [] && !Failed(log[|log| - 1].outcome) && forall a :: a in log ==> a.write.SetAutoconnect?
  {
  }

  lemma {:induction false} VanishingIsUnfinished(t: Intent, home: Profile, candidate: Profile, s: Store, log: seq<Attempt>)
    requires Pair(t, home, candidate, true) && s == map[home.uuid := home, candidate.uuid := candidate]
    requires Selecting(home, candidate, log) && log[0].outcome == Gone && log[1].outcome == Done
    ensures SelectionLog(t, s, log) && Unfinished(t, s, Replay(s, log), log)
  {
    TwoUpdatesAreSelected(t, s, home, candidate, log);
    SelectingEnds(home, candidate, log);
    SelectionIsUnfinished(t, s, log);
  }

  lemma {:induction false} VanishingBootsNot(t: Intent, home: Profile, candidate: Profile, s: Store, log: seq<Attempt>)
    requires Pair(t, home, candidate, true) && s == map[home.uuid := home, candidate.uuid := candidate]
    requires Selecting(home, candidate, log) && log[0].outcome == Gone && log[1].outcome == Done
    ensures Bootable(s, t.iface, true) && !Bootable(Replay(s, log), t.iface, false)
  {
    VanishingUpdates(t, home, candidate, s, log);
    assert home.uuid in s && Startable(s[home.uuid], t.iface, true);
  }

  /** Where the promise that a failed finalization leaves a mode eligible ends, first. The
      candidate vanishes while it is enabled, selectMode disables the other mode, and then the
      listing before the deletions fails: FinalizeTransition returns an error, and nothing boots. */
  lemma {:induction false} ListingFailureLosesEligibility() returns (t: Intent, s: Store, log: seq<Attempt>)
    ensures SelectionLog(t, s, log) && Unfinished(t, s, Replay(s, log), log) && CanonicalKeys(s)
    ensures Bootable(s, t.iface, true) && !Bootable(Replay(s, log), t.iface, false)
  {
    var home, candidate;
    t, home, candidate, s := Sampled(false);
    log := Updating(home, candidate, Gone, Done);
    VanishingIsUnfinished(t, home, candidate, s, log);
    VanishingBootsNot(t, home, candidate, s, log);
  }

  /** A standalone device, a saved network that only lives in memory and is to be selected, and
      a second access point that only lives in memory. */
  ghost predicate Trio(t: Intent, home: Profile, saved: Profile, extra: Profile) {
    && Pair(t, home, saved, true) && saved.inMemory
    && extra.uuid != home.uuid && extra.uuid != saved.uuid
    && Production(extra, t.iface) && extra.role == Standalone && extra.autoconnect && extra.inMemory
  }

  /** The updates for the three, listed with the network first; the last one is refused. */
  function LastRefused(home: Profile, saved: Profile, extra: Profile): seq<Attempt> {
    [Attempt(SetAutoconnect(saved.uuid, true), Done), Attempt(SetAutoconnect(home.uuid, false), Done),
     Attempt(SetAutoconnect(extra.uuid, false), Refused)]
  }

  function Three(home: Profile, saved: Profile, extra: Profile): Store {
    map[saved.uuid := saved, home.uuid := home, extra.uuid := extra]
  }

  lemma {:induction false} PlanOfThree(t: Intent, home: Profile, saved: Profile, extra: Profile)
    requires Trio(t, home, saved, extra)
    ensures UpdatePlan([saved, home, extra], t.iface, t.role) ==
            [Update(saved, true), Update(home, false), Update(extra, false)]
  {
    var ps := [saved, home, extra];
    KeepAll(NeedsUpdate(t.iface, t.role), ps);
    assert Updates(ps, t.role) == [Update(saved, true), Update(home, false), Update(extra, false)];
    Sorting.OrderedStays(EnabledFirst, Updates(ps, t.role));
  }

  lemma {:induction false} ThreeAreListed(t: Intent, home: Profile, saved: Profile, extra: Profile)
    requires Trio(t, home, saved, extra)
    ensures Enumerates([saved, home, extra], Three(home, saved, extra)) && WellKeyed(Three(home, saved, extra))
  {
    var ps := [saved, home, extra];
    assert ps[0] == saved && ps[1] == home && ps[2] == extra;
  }

  lemma {:induction false} LastRefusedFollows(t: Intent, home: Profile, saved: Profile, extra: Profile)
    requires Trio(t, home, saved, extra)
    ensures Follows(UpdateWrites(UpdatePlan([saved, home, extra], t.iface, t.role)), LastRefused(home, saved, extra))
  {
    PlanOfThree(t, home, saved, extra);
  }

  lemma {:induction false} LastRefusedKeepsNone(t: Intent, home: Profile, saved: Profile, extra: Profile, v: Uuid)
    requires Trio(t, home, saved, extra)
    ensures !Kept(t, Three(home, saved, extra), LastRefused(home, saved, extra), v, true)
  {
    assert LastRefused(home, saved, extra)[1] in LastRefused(home, saved, extra);
  }

  /** The updates that selectMode issues against a store, up to some point. */
  ghost predicate SelectionBegun(t: Intent, s: Store, log: seq<Attempt>) {
    exists ps :: Enumerates(ps, s) && Follows(UpdateWrites(UpdatePlan(ps, t.iface, t.role)), log)
  }

  /** A finalization that stopped at a write that was refused, with no other process involved,
      and a reboot that loses what was only in memory. */
  ghost predicate LosesWithThePower(t: Intent, s: Store, log: seq<Attempt>) {
    && SelectionBegun(t, s, log)
    && log != [] && log[|log| - 1].outcome == Refused && (forall a :: a in log ==> a.outcome != Gone)
    && Unfinished(t, s, Replay(s, log), log)
    && Bootable(s, t.iface, true) && !Bootable(AfterCrash(Replay(s, log), true), t.iface, true)
  }

  lemma {:induction false} LastRefusedRuns(t: Intent, home: Profile, saved: Profile, extra: Profile)
    requires Trio(t, home, saved, extra)
    ensures var s, log := Three(home, saved, extra), LastRefused(home, saved, extra);
            Run(ForwardPath(t), s, log) && Unfinished(t, s, Replay(s, log), log) && SelectionBegun(t, s, log)
  {
    var s, log := Three(home, saved, extra), LastRefused(home, saved, extra);
    ThreeAreListed(t, home, saved, extra);
    LastRefusedFollows(t, home, saved, extra);
    SelectRun(t, s, [saved, home, extra], log);
    SelectStopped(t, s, [saved, home, extra], log);
  }

  lemma {:induction false} NoneKeptNoneBoots(t: Intent, s: Store, log: seq<Attempt>)
    requires t.role == Infrastructure && Run(ForwardPath(t), s, log) && AddsNothing(log) && Bootable(s, t.iface, true)
    requires forall v :: !Kept(t, s, log, v, true)
    ensures !Bootable(AfterCrash(Replay(s, log), true), t.iface, true)
  {
    assert s - {} == s && Replay(s, log) - {} == Replay(s, log);
    BootsIffKept(t, s, log, true, {});
    CrashDecidesNothing(Replay(s, log), t.iface, true);
  }

  lemma {:induction false} ThreeBoot(t: Intent, home: Profile, saved: Profile, extra: Profile)
    requires Trio(t, home, saved, extra)
    ensures Bootable(Three(home, saved, extra), t.iface, true) && AddsNothing(LastRefused(home, saved, extra))
  {
    var s := Three(home, saved, extra);
    assert home.uuid in s && Startable(s[home.uuid], t.iface, true);
  }

  lemma {:induction false} LastRefusedBootsNot(t: Intent, home: Profile, saved: Profile, extra: Profile, s: Store,
                                               log: seq<Attempt>)
    requires Trio(t, home, saved, extra) && s == Three(home, saved, extra) && log == LastRefused(home, saved, extra)
    requires Run(ForwardPath(t), s, log) && Bootable(s, t.iface, true) && AddsNothing(log)
    ensures !Bootable(AfterCrash(Replay(s, log), true), t.iface, true)
  {
    forall v ensures !Kept(t, s, log, v, true) {
      LastRefusedKeepsNone(t, home, saved, extra, v);
    }
    NoneKeptNoneBoots(t, s, log);
  }

  lemma {:induction false} LastRefusedEnds(home: Profile, saved: Profile, extra: Profile, log: seq<Attempt>)
    requires log == LastRefused(home, saved, extra)
    ensures log != [] && log[|log| - 1].outcome == Refused && forall a :: a in log ==> a.outcome != Gone
  {
  }

  lemma {:induction false} RefusedUpdateLoses(t: Intent, home: Profile, saved: Profile, extra: Profile, s: Store,
                                              log: seq<Attempt>)
    requires Trio(t, home, saved, extra) && s == Three(home, saved, extra) && log == LastRefused(home, saved, extra)
    ensures LosesWithThePower(t, s, log)
  {
    LastRefusedRuns(t, home, saved, extra);
    LastRefusedEnds(home, saved, extra, log);
    ThreeBoot(t, home, saved, extra);
    LastRefusedBootsNot(t, home, saved, extra, s, log);
  }

  /** Second: the network to select is enabled in memory only, the access point on disk is
      disabled, and the next update is refused. Until the power goes a mode could still start. */
  lemma {:induction false} RefusedWriteLosesEligibility() returns (t: Intent, s: Store, log: seq<Attempt>)
    ensures LosesWithThePower(t, s, log) && CanonicalKeys(s)
  {
    var home, saved, both;
    t, home, saved, both := Sampled(true);
    var c := CanonicalUuid('c');
    var extra := Sample(c, Standalone, true, false, true);
    s, log := Three(home, saved, extra), LastRefused(home, saved, extra);
    RefusedUpdateLoses(t, home, saved, extra, s, log);
  }
}
