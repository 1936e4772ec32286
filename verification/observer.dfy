/** What the engine sees of NetworkManager, and why a device that can still boot into a mode
    is never taken for an unconfigured one. */
module Observer {
  import opened Profiles
  import opened Selection
  import opened NetworkManager
  import opened Plans
  import Engine
  import Recovery
  import Transitions

  const DEVICE_FAILED := 120
  const DEVICE_DISCONNECTED := 30

  /** Preparing up to waiting for secondaries. */
  function ConditionOf(state: nat): Engine.Condition {
    if state == DEVICE_DISCONNECTED then Engine.Disconnected
    else if state == ACTIVATED then Engine.Activated
    else if state == DEVICE_FAILED then Engine.DeviceFailed
    else if state in {40, 50, 60, 70, 80, 90} then Engine.Connecting
    else Engine.Unknown
  }

  /** NetworkManager's device states by number: 30 is disconnected, the six from 40 to 90 are steps
      of an activation, 100 is activated and 120 failed; the others say nothing. */
  lemma {:induction false} DeviceStatesByNumber(state: nat)
    ensures ConditionOf(state) == Engine.Disconnected <==> state == 30
    ensures ConditionOf(state) == Engine.Connecting <==> 40 <= state <= 90 && state % 10 == 0
    ensures ConditionOf(state) == Engine.Activated <==> state == 100
    ensures ConditionOf(state) == Engine.DeviceFailed <==> state == 120
  {
  }

  /** onboardd's own role decides; a profile of somebody else counts when it is a Wi-Fi client. */
  function ModeOf(p: Profile): Engine.Mode {
    match p.role
    case Infrastructure => Engine.ModeInfrastructure
    case Standalone => Engine.ModeStandalone
    case Provisioning => Engine.ModeProvisioning
    case Other(_) => if p.mode == "infrastructure" then Engine.ModeInfrastructure else Engine.ModeNone
  }

  /** A profile stands for its role's mode; a role nobody knows counts as a network exactly if the
      profile is a Wi-Fi client. */
  lemma {:induction false} RolesDecideModes(p: Profile)
    ensures ModeOf(p) == Engine.ModeStandalone <==> p.role == Standalone
    ensures ModeOf(p) == Engine.ModeProvisioning <==> p.role == Provisioning
    ensures ModeOf(p) == Engine.ModeInfrastructure <==>
            p.role == Infrastructure || (p.role.Other? && p.mode == "infrastructure")
    ensures ModeOf(p) != Engine.NoMode
  {
  }

  predicate Summarized(p: Profile, iface: string) {
    p.iface == iface && ModeOf(p) != Engine.ModeNone
  }

  function Summarize(p: Profile): Engine.Summary {
    Engine.Summary(p.uuid, ModeOf(p), p.autoconnect)
  }

  function Summaries(ps: seq<Profile>, iface: string): seq<Engine.Summary> {
    if ps == [] then []
    else
      var last := ps[|ps| - 1];
      Summaries(ps[..|ps| - 1], iface) + if Summarized(last, iface) then [Summarize(last)] else []
  }

  function ActiveMode(ps: seq<Profile>, active: Uuid): Engine.Mode {
    if ps == [] then Engine.ModeNone
    else if ps[|ps| - 1].uuid == active then ModeOf(ps[|ps| - 1])
    else ActiveMode(ps[..|ps| - 1], active)
  }

  function SnapshotOf(status: Status, managed: bool, ps: seq<Profile>, iface: string): Engine.Snapshot {
    Engine.Snapshot(managed, ConditionOf(status.state), status.activeUuid, ActiveMode(ps, status.activeUuid),
                    Observe(status), Summaries(ps, iface))
  }

  method Normalize(status: Status, managed: bool, ps: seq<Profile>, iface: string) returns (s: Engine.Snapshot)
    ensures s == SnapshotOf(status, managed, ps, iface)
  {
    var summaries: seq<Engine.Summary> := [];
    var activeMode := Engine.ModeNone;
    for n := 0 to |ps|
      invariant summaries == Summaries(ps[..n], iface)
      invariant activeMode == ActiveMode(ps[..n], status.activeUuid)
    {
      assert ps[..n + 1][..n] == ps[..n];
      var mode := ModeOf(ps[n]);
      if ps[n].iface == iface && mode != Engine.ModeNone {
        summaries := summaries + [Engine.Summary(ps[n].uuid, mode, ps[n].autoconnect)];
      }
      if ps[n].uuid == status.activeUuid {
        activeMode := mode;
      }
    }
    assert ps[..|ps|] == ps;
    s := Engine.Snapshot(managed, ConditionOf(status.state), status.activeUuid, activeMode, Observe(status), summaries);
  }

  lemma {:induction false} SummariesCover(ps: seq<Profile>, iface: string, summary: Engine.Summary)
    ensures summary in Summaries(ps, iface) <==>
            exists p :: p in ps && Summarized(p, iface) && Summarize(p) == summary
  {
    if ps != [] {
      var front, last := ps[..|ps| - 1], ps[|ps| - 1];
      SummariesCover(front, iface, summary);
      assert ps == front + [last];
    }
  }

  /** The active mode is the mode of the profile that is active, on whichever interface. */
  lemma {:induction false} ActiveModeFinds(ps: seq<Profile>, s: Store, active: Uuid)
    requires WellKeyed(s) && forall p :: p in ps ==> p.uuid in s && s[p.uuid] == p
    ensures (exists p :: p in ps && p.uuid == active) ==> active in s && ActiveMode(ps, active) == ModeOf(s[active])
    ensures !(exists p :: p in ps && p.uuid == active) ==> ActiveMode(ps, active) == Engine.ModeNone
  {
    if ps != [] {
      var front, last := ps[..|ps| - 1], ps[|ps| - 1];
      assert ps == front + [last];
      ActiveModeFinds(front, s, active);
    }
  }

  /** A profile that would start on its own is a candidate the engine sees. */
  lemma BootableIsSeen(s: Store, ps: seq<Profile>, iface: string, powerCut: bool)
    requires WellKeyed(s) && Enumerates(ps, s) && Bootable(s, iface, powerCut)
    ensures Engine.HasAutoconnect(Summaries(ps, iface), Engine.ModeInfrastructure) ||
            Engine.HasAutoconnect(Summaries(ps, iface), Engine.ModeStandalone)
  {
    var u :| u in s && Startable(s[u], iface, powerCut);
    var p := s[u];
    assert p in ps && Summarized(p, iface);
    SummariesCover(ps, iface, Summarize(p));
  }

  /** So provisioning is never entered for want of a candidate while a mode can boot. */
  lemma BootableNeverLacksCandidate(s: Store, ps: seq<Profile>, iface: string, powerCut: bool, status: Status,
                                    managed: bool, requirement: Engine.Connectivity.Requirement, timedOut: bool)
    requires WellKeyed(s) && Enumerates(ps, s) && Bootable(s, iface, powerCut)
    ensures Engine.Evaluate(SnapshotOf(status, managed, ps, iface), requirement, timedOut).reason != Engine.NoCandidate
  {
    BootableIsSeen(s, ps, iface, powerCut);
    Engine.EvaluateDecides(SnapshotOf(status, managed, ps, iface), requirement, timedOut);
  }

  /** From the transition to the next boot: interrupt a protected transition after any of its
      forward writes, with or without power, and start again. If a mode could boot before and
      the transition has a survivor, the engine of the new process does not report that the
      device has no candidate. */
  lemma InterruptedTransitionFindsCandidate(plan: Recovery.Plan, s: Store, a: Recovery.Account, k: nat, powerCut: bool,
                                            cleanup: seq<Attempt>, v: Uuid, ps: seq<Profile>, status: Status,
                                            managed: bool, requirement: Engine.Connectivity.Requirement, timedOut: bool)
    requires Recovery.Ready(plan, s) && Recovery.ForwardWrites(plan, s, a.forward)
    requires Survivor(Recovery.IntentOf(plan), Recovery.WithCandidate(plan, s), v, powerCut) && Undisturbed(a.forward, v)
    requires Bootable(s, plan.iface, powerCut) && PendingIsInert(s)
    requires Restart(plan.iface, s, a.forward, k, powerCut, cleanup)
    requires var now := Replay(Wreck(s, a.forward, k, powerCut), cleanup); WellKeyed(now) && Enumerates(ps, now)
    ensures Engine.Evaluate(SnapshotOf(status, managed, ps, plan.iface), requirement, timedOut).reason !=
            Engine.NoCandidate
  {
    Transitions.TransitionSurvivesCrash(plan, s, a, k, powerCut, cleanup, v);
    BootableNeverLacksCandidate(Replay(Wreck(s, a.forward, k, powerCut), cleanup), ps, plan.iface, powerCut, status,
                                managed, requirement, timedOut);
  }
}
