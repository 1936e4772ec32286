/** An access point whose addition lost its reply: one entry into captive mode, in full. */
module LostReply {
  import opened Text
  import opened Profiles
  import opened NetworkManager
  import opened Recovery
  import opened Addresses
  import opened Captive
  import Accumulation
  import Settings

  /** NetworkManager stores the access point, but the call that adds it fails. The entry removes
      the DNS fragment, records no session and returns the error; the ledger is empty, leaving
      captive mode finds nothing to remove and succeeds, and the access point is still there. */
  ghost predicate StaysUnrecorded(o: ProvisioningOptions, generated: Uuid, s: Store, s': Store, err: string,
                                  added: seq<Attempt>, calls: seq<Call>) {
    && StartError(o, generated).None? && Canonical(generated) && generated !in s
    && added == [Attempt(Add(ProvisioningProfile(o, generated)), Lost)] && LostAdditions(added, o.iface) == 1
    && AddedAs(ProvisioningProfile(o, generated), s, s', NO_ACTIVATION, Some(err), added)
    && LostEntry(calls, NOTHING) && (forall r :: Removals(NOTHING, r) == [])
    && Covers(NOTHING, false, false, s, o.iface)
    && Strays(NOTHING, s', o.iface) == {generated} && !Covers(NOTHING, false, false, s', o.iface)
  }

  lemma {:induction false} LostAdditionIsMissed(p: Profile, s: Store, iface: string, err: string)
    requires Temporary(p, iface) && p.uuid !in s && Temporaries(s, iface) == {}
    ensures var a := Attempt(Add(p), Lost);
            && AddedAs(p, s, s[p.uuid := p], NO_ACTIVATION, Some(err), [a]) && LostAdditions([a], iface) == 1
            && Strays(NOTHING, s[p.uuid := p], iface) == {p.uuid}
  {
    var a := Attempt(Add(p), Lost);
    NotKnownAdded(p, s, Lost, err);
    AddedTemporary(s, p, iface);
    LostNext([], a, iface);
    assert [] + [a] == [a];
  }

  lemma {:induction false} LostAdditionStays(o: ProvisioningOptions, generated: Uuid, s: Store, err: string)
    requires StartError(o, generated).None? && Canonical(generated) && generated !in s
    requires Temporaries(s, o.iface) == {}
    ensures var p := ProvisioningProfile(o, generated);
            StaysUnrecorded(o, generated, s, s[generated := p], err, [Attempt(Add(p), Lost)],
                            [DnsInstalled(true), CandidateActivated(NO_ACTIVATION, false), DnsRemoved(true)])
  {
    ProvisioningProfileIsTemporary(o, generated);
    LostAdditionIsMissed(ProvisioningProfile(o, generated), s, o.iface, err);
    NothingCovers(s, s[generated := ProvisioningProfile(o, generated)], generated, o.iface);
    EntryCalls();
  }

  lemma {:induction false} NothingCovers(s: Store, s': Store, generated: Uuid, iface: string)
    requires Temporaries(s, iface) == {} && generated in Strays(NOTHING, s', iface)
    ensures forall r :: Removals(NOTHING, r) == []
    ensures Covers(NOTHING, false, false, s, iface) && !Covers(NOTHING, false, false, s', iface)
  {
  }

  lemma {:induction false} EntryCalls()
    ensures LostEntry([DnsInstalled(true), CandidateActivated(NO_ACTIVATION, false), DnsRemoved(true)], NOTHING)
  {
    var calls := [DnsInstalled(true), CandidateActivated(NO_ACTIVATION, false), DnsRemoved(true)];
    assert calls[1..] == [CandidateActivated(NO_ACTIVATION, false), DnsRemoved(true)];
  }

  lemma {:induction false} OptionsBuild(o: ProvisioningOptions, generated: Uuid)
    requires OptionsError(o).None? && Settings.AccessPointError(AccessPoint(o)).None? && o.address.value.bits <= 32
    ensures StartError(o, generated).None?
  {
    PrefixRoundTrip(o.address.value);
  }

  lemma {:induction false} PlainOptions() returns (o: ProvisioningOptions)
    ensures OptionsError(o).None? && Settings.AccessPointError(AccessPoint(o)).None? && o.address.value.bits <= 32
  {
    o := ProvisioningOptions("w", "s", "12345678", Some(Prefix([10, 42, 0, 1], 24)), "", 1);
  }

  /** Where the ledger's promise ends: such an entry, with options that are accepted. */
  lemma {:induction false} UnrecordedAccessPoint()
    returns (o: ProvisioningOptions, generated: Uuid, s: Store, s': Store, err: string, added: seq<Attempt>,
             calls: seq<Call>)
    ensures StaysUnrecorded(o, generated, s, s', err, added, calls)
  {
    o := PlainOptions();
    generated := Accumulation.CanonicalUuid('a');
    OptionsBuild(o, generated);
    s, err := map[], "deadline exceeded";
    var p := ProvisioningProfile(o, generated);
    s', added := s[generated := p], [Attempt(Add(p), Lost)];
    calls := [DnsInstalled(true), CandidateActivated(NO_ACTIVATION, false), DnsRemoved(true)];
    LostAdditionStays(o, generated, s, err);
  }
}
