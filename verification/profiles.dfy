/** NetworkManager's connection store as onboardd sees it: profiles by UUID, and the
    durable writes that change them one D-Bus call at a time. */
module Profiles {

  type Uuid = string

  /** `Other` is any role text in the metadata that onboardd does not know. */
  datatype Role = Infrastructure | Provisioning | Standalone | Other(name: string)

  datatype Profile = Profile(
    uuid: Uuid,
    id: string,
    kind: string,
    iface: string,
    ssid: string,
    mode: string,
    autoconnect: bool,
    priority: int,
    owned: bool,
    role: Role,
    pending: bool,
    inMemory: bool)

  type Store = map<Uuid, Profile>

  ghost predicate WellKeyed(s: Store) {
    forall u :: u in s ==> s[u].uuid == u
  }

  /** An onboardd profile that selects a durable mode on the interface. */
  predicate Production(p: Profile, iface: string) {
    p.owned && p.iface == iface && (p.role == Infrastructure || p.role == Standalone)
  }

  const WIFI := "802-11-wireless"

  function DefaultId(role: Role, ssid: string): string {
    if role == Infrastructure then "onboardd Wi-Fi " + ssid else "onboardd " + RoleName(role)
  }

  function RoleName(role: Role): string {
    match role
    case Infrastructure => "infrastructure"
    case Provisioning => "provisioning"
    case Standalone => "standalone"
    case Other(name) => name
  }

  function ModeName(role: Role): string {
    if role == Infrastructure then "infrastructure" else "ap"
  }

  /** What a production profile decodes to after it is rebuilt with a new autoconnect
      value; Settings.RebuildDecodesToRebuilt ties this to the settings themselves. */
  function Rebuilt(p: Profile, enabled: bool): Profile {
    p.(autoconnect := enabled, pending := false, kind := WIFI, mode := ModeName(p.role),
       id := if p.id == "" then DefaultId(p.role, p.ssid) else p.id)
  }

  datatype Write =
    | Add(profile: Profile)
    | SetAutoconnect(uuid: Uuid, enabled: bool)
    | Delete(uuid: Uuid)

  /** `Gone`: another process removed the object before the write reached it.
      `Refused`: any other failure that keeps the contents of the store.
      `Lost`: NetworkManager carried the write out, but the reply was lost or came too late,
      and the caller sees a failure. */
  datatype Outcome = Done | Gone | Refused | Lost

  /** What the caller takes for a failure. */
  predicate Failed(o: Outcome) {
    o == Refused || o == Lost
  }

  /** The write changed the store as it was meant to. */
  predicate TookEffect(o: Outcome) {
    o == Done || o == Lost
  }

  datatype Attempt = Attempt(write: Write, outcome: Outcome)

  function Target(w: Write): Uuid {
    if w.Add? then w.profile.uuid else w.uuid
  }

  function Effect(s: Store, a: Attempt): Store {
    match a.outcome
    case Refused => s
    case Gone => s - {Target(a.write)}
    case _ =>
      match a.write
      case Add(p) => s[p.uuid := p]
      case SetAutoconnect(u, enabled) => if u in s then s[u := Rebuilt(s[u], enabled)] else s
      case Delete(u) => s - {u}
  }

  /** Taking effect means to change the store as a write that is reported done would. */
  lemma {:induction false} TakesEffectLikeDone(o: Outcome)
    ensures TookEffect(o) <==> forall s, w :: Effect(s, Attempt(w, o)) == Effect(s, Attempt(w, Done))
  {
    if !TookEffect(o) {
      var p := Profile("", "", "", "", "", "", false, 0, false, Infrastructure, false, false);
      assert "" in Effect(map[], Attempt(Add(p), Done)) && "" !in Effect(map[], Attempt(Add(p), o));
    }
  }

  /** The store after a log of attempts. */
  function Replay(s: Store, log: seq<Attempt>): Store {
    if log == [] then s else Effect(Replay(s, log[..|log| - 1]), log[|log| - 1])
  }

  lemma {:induction false} ReplayStep(s: Store, log: seq<Attempt>, a: Attempt)
    ensures Replay(s, log + [a]) == Effect(Replay(s, log), a)
  {
    assert (log + [a])[..|log|] == log;
  }

  lemma {:induction false} ReplayAppend(s: Store, a: seq<Attempt>, b: seq<Attempt>)
    ensures Replay(s, a + b) == Replay(Replay(s, a), b)
  {
    if b == [] {
      assert a + b == a;
    } else {
      var last := |b| - 1;
      assert a + b == (a + b[..last]) + [b[last]];
      ReplayStep(s, a + b[..last], b[last]);
      ReplayAppend(s, a, b[..last]);
    }
  }

  /** A log whose every write is permitted in the store it is issued against. */
  ghost predicate Run(allowed: (Store, Write) -> bool, s: Store, log: seq<Attempt>) {
    log == [] ||
    var n := |log| - 1;
    Run(allowed, s, log[..n]) && allowed(Replay(s, log[..n]), log[n].write)
  }

  lemma {:induction false} RunStep(allowed: (Store, Write) -> bool, s: Store, log: seq<Attempt>, a: Attempt)
    requires Run(allowed, s, log) && allowed(Replay(s, log), a.write)
    ensures Run(allowed, s, log + [a])
  {
    assert (log + [a])[..|log|] == log;
  }

  lemma {:induction false} RunPrefix(allowed: (Store, Write) -> bool, s: Store, log: seq<Attempt>, k: nat)
    requires Run(allowed, s, log) && k <= |log|
    ensures Run(allowed, s, log[..k])
  {
    if k < |log| {
      RunPrefix(allowed, s, log[..|log| - 1], k);
      assert log[..|log| - 1][..k] == log[..k];
    } else {
      assert log[..k] == log;
    }
  }

  lemma {:induction false} RunAppend(allowed: (Store, Write) -> bool, s: Store, a: seq<Attempt>, b: seq<Attempt>)
    requires Run(allowed, s, a) && Run(allowed, Replay(s, a), b)
    ensures Run(allowed, s, a + b)
  {
    if b == [] {
      assert a + b == a;
    } else {
      var front, last := b[..|b| - 1], b[|b| - 1];
      RunAppend(allowed, s, a, front);
      ReplayAppend(s, a, front);
      RunStep(allowed, s, a + front, last);
      assert a + b == a + front + [last];
    }
  }

  /** The second part of a run is a run from where the first part ended. */
  lemma {:induction false} RunSplit(allowed: (Store, Write) -> bool, s: Store, a: seq<Attempt>, b: seq<Attempt>)
    requires Run(allowed, s, a + b)
    ensures Run(allowed, Replay(s, a), b)
  {
    if b != [] {
      var front, last := b[..|b| - 1], b[|b| - 1];
      assert (a + b)[..|a + b| - 1] == a + front;
      RunSplit(allowed, s, a, front);
      ReplayAppend(s, a, front);
      RunStep(allowed, Replay(s, a), front, last);
      assert b == front + [last];
    }
  }
}
