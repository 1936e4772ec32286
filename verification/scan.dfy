/** Scan results: one entry per network and security, strongest first. */
module Scan {
  import opened Sorting

  datatype Security = Open | Wep | Wpa | Wpa2

  datatype AccessPoint = AccessPoint(ssid: string, security: Security, strength: nat)

  datatype Network = Network(ssid: string, security: string, strength: nat)

  const OPEN_NAME := "open"
  const PROTECTED_NAME := "protected"

  function Offered(ap: AccessPoint): seq<Network> {
    match ap.security
    case Open => [Network(ap.ssid, OPEN_NAME, ap.strength)]
    case Wpa => [Network(ap.ssid, PROTECTED_NAME, ap.strength)]
    case Wpa2 => [Network(ap.ssid, PROTECTED_NAME, ap.strength)]
    case Wep => []
  }

  function Offers(aps: seq<AccessPoint>): seq<Network> {
    if aps == [] then [] else Offers(aps[..|aps| - 1]) + Offered(aps[|aps| - 1])
  }

  /** The backend's translation: access points this product cannot join are left out. */
  method Translate(aps: seq<AccessPoint>) returns (networks: seq<Network>)
    ensures networks == Offers(aps)
  {
    networks := [];
    for n := 0 to |aps|
      invariant networks == Offers(aps[..n])
    {
      assert aps[..n + 1][..n] == aps[..n];
      var security := PROTECTED_NAME;
      match aps[n].security {
        case Open => security := OPEN_NAME;
        case Wpa =>
        case Wpa2 =>
        case Wep => continue;
      }
      networks := networks + [Network(aps[n].ssid, security, aps[n].strength)];
    }
    assert aps[..|aps|] == aps;
  }

  /** The networks offered are those that can be joined: open ones and ones protected by a
      passphrase, each as strong as its access point. */
  lemma {:induction false} OffersAreJoinable(aps: seq<AccessPoint>, n: Network)
    ensures n in Offers(aps) <==>
            exists ap :: ap in aps && n.ssid == ap.ssid && n.strength == ap.strength &&
              ((ap.security == Open && n.security == "open") ||
               ((ap.security == Wpa || ap.security == Wpa2) && n.security == "protected"))
  {
    if aps != [] {
      var front, last := aps[..|aps| - 1], aps[|aps| - 1];
      OffersAreJoinable(front, n);
      assert aps == front + [last];
    }
  }

  const NUL := '\0'

  function Key(n: Network): string {
    n.ssid + [NUL] + n.security
  }

  predicate PlainSecurity(ns: seq<Network>) {
    forall n :: n in ns ==> NUL !in n.security
  }

  lemma {:induction false} OffersArePlain(aps: seq<AccessPoint>)
    ensures PlainSecurity(Offers(aps))
  {
    if aps != [] {
      OffersArePlain(aps[..|aps| - 1]);
    }
  }

  /** The key tells networks apart even when a name contains a zero byte, because a security
      never does. */
  lemma KeyTellsApart(a: Network, b: Network)
    requires NUL !in a.security && NUL !in b.security
    ensures Key(a) == Key(b) <==> a.ssid == b.ssid && a.security == b.security
  {
    if Key(a) == Key(b) {
      assert Key(a)[|a.ssid|] == NUL && Key(b)[|b.ssid|] == NUL;
      assert forall i :: |a.ssid| < i < |Key(a)| ==> Key(a)[i] == a.security[i - |a.ssid| - 1];
      assert forall i :: |b.ssid| < i < |Key(b)| ==> Key(b)[i] == b.security[i - |b.ssid| - 1];
      assert |a.ssid| == |b.ssid|;
      assert Key(a)[..|a.ssid|] == a.ssid && Key(b)[..|b.ssid|] == b.ssid;
      assert Key(a)[|a.ssid| + 1..] == a.security && Key(b)[|b.ssid| + 1..] == b.security;
    }
  }

  /** Without that, two different networks can share a key. */
  lemma KeyNeedsPlainSecurity()
    ensures exists a: Network, b: Network :: a.ssid != b.ssid && Key(a) == Key(b)
  {
    var a, b := Network(['x'], [NUL, 'y'], 0), Network(['x', NUL], ['y'], 0);
    assert Key(a) == ['x', NUL, NUL, 'y'] == Key(b);
    assert a.ssid != b.ssid;
  }

  predicate Lexicographic(a: string, b: string) {
    if b == [] then false
    else if a == [] then true
    else a[0] < b[0] || (a[0] == b[0] && Lexicographic(a[1..], b[1..]))
  }

  lemma {:induction false} LexicographicTotal(a: string, b: string)
    ensures !(Lexicographic(a, b) && Lexicographic(b, a))
    ensures Lexicographic(a, b) || Lexicographic(b, a) || a == b
    ensures !Lexicographic(a, a)
  {
    if a != [] && b != [] {
      LexicographicTotal(a[1..], b[1..]);
      assert a == [a[0]] + a[1..] && b == [b[0]] + b[1..];
    }
    if a != [] {
      LexicographicTotal(a[1..], a[1..]);
    }
  }

  lemma {:induction false} LexicographicTransitive(a: string, b: string, c: string)
    requires Lexicographic(a, b) && Lexicographic(b, c)
    ensures Lexicographic(a, c)
  {
    if a != [] && a[0] == b[0] == c[0] {
      LexicographicTransitive(a[1..], b[1..], c[1..]);
    }
  }

  predicate Before(a: Network, b: Network) {
    if a.strength == b.strength then Lexicographic(a.ssid, b.ssid) else a.strength > b.strength
  }

  const BEFORE := (a: Network, b: Network) => Before(a, b)

  lemma BeforeIsWeak()
    ensures WeakOrder(BEFORE)
  {
    forall a: Network, b: Network ensures BEFORE(a, b) ==> !BEFORE(b, a) {
      LexicographicTotal(a.ssid, b.ssid);
    }
    forall a: Network, b: Network, c: Network | !BEFORE(b, a) && !BEFORE(c, b) ensures !BEFORE(c, a) {
      BeforeComposes(a, b, c);
    }
  }

  lemma BeforeComposes(a: Network, b: Network, c: Network)
    requires !Before(b, a) && !Before(c, b)
    ensures !Before(c, a)
  {
    LexicographicTotal(a.ssid, b.ssid);
    LexicographicTotal(b.ssid, c.ssid);
    LexicographicTotal(a.ssid, c.ssid);
    if a.strength == b.strength == c.strength && a.ssid != b.ssid && b.ssid != c.ssid {
      LexicographicTransitive(a.ssid, b.ssid, c.ssid);
    }
  }

  predicate SameNetwork(a: Network, b: Network) {
    a.ssid == b.ssid && a.security == b.security
  }

  ghost predicate Listed(found: seq<Network>, f: Network) {
    f in found && f.ssid != ""
  }

  ghost predicate Covered(kept: seq<Network>, f: Network) {
    exists k :: k in kept && SameNetwork(k, f) && k.strength >= f.strength
  }

  /** Exactly one entry for each named network seen, with its greatest strength. */
  ghost predicate Deduplicates(found: seq<Network>, kept: seq<Network>) {
    && (forall k :: k in kept ==> k in found && k.ssid != "")
    && (forall f {:trigger Listed(found, f)} :: Listed(found, f) ==> Covered(kept, f))
    && (forall i, j :: 0 <= i < j < |kept| ==> !SameNetwork(kept[i], kept[j]))
  }

  /** The strongest entry for each key among the networks read so far. */
  ghost predicate Strongest(found: seq<Network>, unique: map<string, Network>) {
    && (forall k :: k in unique ==> unique[k] in found && unique[k].ssid != "" && Key(unique[k]) == k)
    && (forall f :: f in found && f.ssid != "" ==> Key(f) in unique && unique[Key(f)].strength >= f.strength)
  }

  lemma StrongestGrows(found: seq<Network>, unique: map<string, Network>, n: Network)
    requires Strongest(found, unique)
    ensures n.ssid == "" ==> Strongest(found + [n], unique)
    ensures n.ssid != "" && (Key(n) !in unique || n.strength > unique[Key(n)].strength) ==>
              Strongest(found + [n], unique[Key(n) := n])
    ensures n.ssid != "" && Key(n) in unique && n.strength <= unique[Key(n)].strength ==> Strongest(found + [n], unique)
  {
  }

  method Collect(found: seq<Network>) returns (unique: map<string, Network>)
    ensures Strongest(found, unique)
  {
    unique := map[];
    for n := 0 to |found|
      invariant Strongest(found[..n], unique)
    {
      assert found[..n + 1] == found[..n] + [found[n]];
      StrongestGrows(found[..n], unique, found[n]);
      if found[n].ssid == "" {
        continue;
      }
      var key := Key(found[n]);
      if key !in unique || found[n].strength > unique[key].strength {
        unique := unique[key := found[n]];
      }
    }
    assert found[..|found|] == found;
  }

  /** The entries of the map in whatever order the runtime walks it. */
  method Entries(unique: map<string, Network>) returns (networks: seq<Network>)
    requires forall k :: k in unique ==> Key(unique[k]) == k
    ensures forall n :: n in networks <==> Key(n) in unique && unique[Key(n)] == n
    ensures Distinct(networks)
  {
    networks := [];
    var rest := unique.Keys;
    while rest != {}
      invariant rest <= unique.Keys && Distinct(networks)
      invariant forall n :: n in networks <==> Key(n) in unique && Key(n) !in rest && unique[Key(n)] == n
    {
      var key :| key in rest;
      networks := networks + [unique[key]];
      rest := rest - {key};
    }
  }

  lemma EntriesDeduplicate(found: seq<Network>, unique: map<string, Network>, kept: seq<Network>)
    requires PlainSecurity(found) && Strongest(found, unique) && Distinct(kept)
    requires forall n :: n in kept <==> Key(n) in unique && unique[Key(n)] == n
    ensures Deduplicates(found, kept)
  {
    forall f | Listed(found, f) ensures Covered(kept, f) {
      var k := unique[Key(f)];
      KeyTellsApart(k, f);
      assert k in kept;
    }
    forall i, j | 0 <= i < j < |kept| ensures !SameNetwork(kept[i], kept[j]) {
      assert kept[i] in kept && kept[j] in kept;
    }
  }

  /** Service.Networks: keeps one entry per network and security, strongest first and then by
      name. Entries that tie on both may come in either order. */
  method Networks(found: seq<Network>) returns (networks: seq<Network>)
    requires PlainSecurity(found)
    ensures Deduplicates(found, networks) && Ordered(BEFORE, networks)
  {
    var unique := Collect(found);
    var entries := Entries(unique);
    networks := StableSort(BEFORE, entries);
    BeforeIsWeak();
    SortOrders(BEFORE, entries);
    SameMembers(networks, entries);
    DistinctRearranged(entries, networks);
    EntriesDeduplicate(found, unique, networks);
  }

  lemma OneEntry(kept: seq<Network>, a: Network, b: Network)
    requires forall i, j :: 0 <= i < j < |kept| ==> !SameNetwork(kept[i], kept[j])
    requires a in kept && b in kept && SameNetwork(a, b)
    ensures a == b
  {
    var i :| 0 <= i < |kept| && kept[i] == a;
    var j :| 0 <= j < |kept| && kept[j] == b;
  }

  lemma Match(found: seq<Network>, kept: seq<Network>, f: Network) returns (k: Network)
    requires Deduplicates(found, kept) && f in found && f.ssid != ""
    ensures k in kept && k in found && k.ssid != "" && SameNetwork(k, f) && k.strength >= f.strength
  {
    assert Listed(found, f);
    k :| k in kept && SameNetwork(k, f) && k.strength >= f.strength;
  }

  /** The specification leaves nothing open but ties: two answers hold the same entries. */
  lemma DeduplicationIsUnique(found: seq<Network>, a: seq<Network>, b: seq<Network>, n: Network)
    requires Deduplicates(found, a) && Deduplicates(found, b) && n in a
    ensures n in b
  {
    var k := Match(found, b, n);
    var m := Match(found, a, k);
    OneEntry(a, n, m);
  }

  /** From the scan to the page: every network that can be joined is listed exactly once. */
  method ListNetworks(aps: seq<AccessPoint>) returns (networks: seq<Network>)
    ensures Deduplicates(Offers(aps), networks) && Ordered(BEFORE, networks)
  {
    var found := Translate(aps);
    OffersArePlain(aps);
    networks := Networks(found);
  }
}
