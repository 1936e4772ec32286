/** IPv4 addresses and CIDR text, as the settings builder and the status checks read them. */
module Addresses {
  import opened Text

  predicate IsOctets(a: seq<nat>) {
    |a| == 4 && forall i :: 0 <= i < 4 ==> a[i] < 256
  }

  /** Four octets. */
  type IPv4 = a: seq<nat> | IsOctets(a) witness [0, 0, 0, 0]

  predicate OctetText(s: string) {
    |s| > 0 && AllDigits(s) && (|s| > 1 ==> s[0] != '0') && Number(s) < 256
  }

  /** netip.ParseAddr restricted to IPv4: four dotted octets without leading zeros. */
  function ParseIPv4(s: string): (r: Option<IPv4>)
  {
    var parts := Split(s, '.');
    if |parts| == 4 && forall i :: 0 <= i < 4 ==> OctetText(parts[i]) then
      Some([Number(parts[0]), Number(parts[1]), Number(parts[2]), Number(parts[3])])
    else None
  }

  /** The four octets as decimal texts. */
  function Printed(a: IPv4): (parts: seq<string>)
    ensures |parts| == 4 && forall i :: 0 <= i < 4 ==> parts[i] == Decimal(a[i])
    ensures forall p :: p in parts ==> '.' !in p
  {
    [Decimal(a[0]), Decimal(a[1]), Decimal(a[2]), Decimal(a[3])]
  }

  function AddressText(a: IPv4): string {
    Join(Printed(a), '.')
  }

  lemma DecimalHasOnlyDigits(n: nat)
    ensures '.' !in Decimal(n) && '/' !in Decimal(n)
  {
  }

  lemma ParsedIsPrinted(s: string, a: IPv4)
    requires ParseIPv4(s) == Some(a)
    ensures s == AddressText(a)
  {
    var parts := Split(s, '.');
    forall i | 0 <= i < 4 ensures parts[i] == Printed(a)[i] {
      assert OctetText(parts[i]);
      DecimalUnique(parts[i]);
    }
    assert parts == Printed(a);
    JoinSplit(s, '.');
  }

  lemma PrintedParses(a: IPv4)
    ensures ParseIPv4(AddressText(a)) == Some(a)
  {
    SplitJoin(Printed(a), '.');
    assert forall i :: 0 <= i < 4 ==> OctetText(Printed(a)[i]) && Number(Printed(a)[i]) == a[i];
    assert [a[0], a[1], a[2], a[3]] == a;
  }

  /** Dotted-quad text is canonical: a text parses to an address exactly when it is the
      text printed for that address. */
  lemma AddressCodec(s: string, a: IPv4)
    ensures ParseIPv4(s) == Some(a) <==> s == AddressText(a)
  {
    if ParseIPv4(s) == Some(a) {
      ParsedIsPrinted(s, a);
    }
    PrintedParses(a);
  }

  const DEFAULT_ADDRESS := "10.42.0.1/24"

  datatype Prefix = Prefix(address: IPv4, bits: nat)

  /** The address and mask texts on either side of the first slash. */
  function SlashParts(s: string): (r: Option<(string, string)>)
  {
    var i := Index(s, "/");
    if i < 0 then None else Some((s[..i], s[i + 1..]))
  }

  /** net.ParseCIDR, where only IPv4 is accepted: the mask may have leading zeros. */
  function ParseCidr(s: string): (r: Option<Prefix>)
  {
    match SlashParts(s)
    case None => None
    case Some((address, mask)) =>
      match ParseIPv4(address)
      case None => None
      case Some(a) =>
        if |mask| > 0 && AllDigits(mask) && Number(mask) <= 32
        then Some(Prefix(a, Number(mask)))
        else None
  }

  /** parseAddress: an empty option means the fixed provisioning address. */
  function ParseAddress(s: string): (r: Option<Prefix>) {
    ParseCidr(if s == "" then DEFAULT_ADDRESS else s)
  }

  function PrefixText(p: Prefix): string {
    AddressText(p.address) + "/" + Decimal(p.bits)
  }

  lemma AddressTextNonempty(a: IPv4)
    ensures AddressText(a) != ""
  {
    JoinFour(Decimal(a[0]), Decimal(a[1]), Decimal(a[2]), Decimal(a[3]), '.');
  }

  lemma AddressTextHasNoSlash(a: IPv4)
    ensures '/' !in AddressText(a)
  {
    DecimalHasOnlyDigits(a[0]);
    DecimalHasOnlyDigits(a[1]);
    DecimalHasOnlyDigits(a[2]);
    DecimalHasOnlyDigits(a[3]);
    JoinFour(Decimal(a[0]), Decimal(a[1]), Decimal(a[2]), Decimal(a[3]), '.');
  }

  lemma FirstSlash(head: string, tail: string)
    requires '/' !in head
    ensures SlashParts(head + "/" + tail) == Some((head, tail))
  {
    var s := head + "/" + tail;
    assert MatchAt(s, "/", |head|);
    var i := Index(s, "/");
    forall k | 0 <= k < |head| ensures !MatchAt(s, "/", k) {
      assert s[k..k + 1][0] == head[k];
    }
    assert s[..i] == head && s[i + 1..] == tail;
  }

  /** Printing and parsing a prefix recovers it. */
  lemma PrefixRoundTrip(p: Prefix)
    requires p.bits <= 32
    ensures PrefixText(p) != "" && ParseAddress(PrefixText(p)) == Some(p)
  {
    AddressTextHasNoSlash(p.address);
    FirstSlash(AddressText(p.address), Decimal(p.bits));
    AddressCodec(AddressText(p.address), p.address);
  }

  /** strings.LastIndexByte: the last occurrence, or -1. */
  function LastIndex(s: string, c: char): (r: int)
    ensures -1 <= r < |s| && (r >= 0 ==> s[r] == c)
    ensures forall k :: 0 <= k < |s| && k > r ==> s[k] != c
  {
    if s == [] then -1
    else if s[|s| - 1] == c then |s| - 1
    else LastIndex(s[..|s| - 1], c)
  }

  /** What netip.ParsePrefix takes for the number of bits: no sign and no leading zero. */
  predicate BitsText(s: string) {
    |s| > 0 && AllDigits(s) && (|s| > 1 ==> '1' <= s[0] <= '9') && Number(s) <= 32
  }

  /** netip.ParsePrefix for IPv4, which the configuration and the standalone transition apply
      to the option text itself: there is no default, and the last slash counts. */
  function ParseStrictPrefix(s: string): (r: Option<Prefix>)
  {
    var i := LastIndex(s, '/');
    if i < 0 then None
    else
      match ParseIPv4(s[..i])
      case None => None
      case Some(a) => if BitsText(s[i + 1..]) then Some(Prefix(a, Number(s[i + 1..]))) else None
  }

  predicate LeadingZeroMask(s: string) {
    var parts := SlashParts(s);
    parts.Some? && |parts.value.1| > 1 && parts.value.1[0] == '0'
  }

  lemma {:induction false} ParsedHasNoSlash(s: string)
    requires ParseIPv4(s).Some?
    ensures '/' !in s
  {
    AddressCodec(s, ParseIPv4(s).value);
    AddressTextHasNoSlash(ParseIPv4(s).value);
  }

  /** With one slash, the first and the last are the same. */
  lemma {:induction false} OneSlash(head: string, tail: string)
    requires '/' !in head && '/' !in tail
    ensures SlashParts(head + "/" + tail) == Some((head, tail)) && LastIndex(head + "/" + tail, '/') == |head|
  {
    FirstSlash(head, tail);
    var s := head + "/" + tail;
    assert s[|head|] == '/';
    assert forall k :: |head| < k < |s| ==> s[k] == tail[k - |head| - 1];
  }

  lemma {:induction false} StrictIsLax(s: string)
    requires ParseStrictPrefix(s).Some?
    ensures !LeadingZeroMask(s) && ParseCidr(s) == ParseStrictPrefix(s)
  {
    var i := LastIndex(s, '/');
    ParsedHasNoSlash(s[..i]);
    assert s == s[..i] + "/" + s[i + 1..];
    OneSlash(s[..i], s[i + 1..]);
  }

  lemma {:induction false} LaxIsStrict(s: string)
    requires ParseCidr(s).Some? && !LeadingZeroMask(s)
    ensures ParseStrictPrefix(s) == ParseCidr(s)
  {
    var (address, mask) := SlashParts(s).value;
    ParsedHasNoSlash(address);
    assert s == address + "/" + mask;
    OneSlash(address, mask);
    assert s[..|address|] == address && s[|address| + 1..] == mask;
  }

  /** The strict parser is the lax one without the masks that start with a zero. */
  lemma {:induction false} StrictParse(s: string)
    ensures ParseStrictPrefix(s) == if LeadingZeroMask(s) then None else ParseCidr(s)
  {
    if ParseStrictPrefix(s).Some? {
      StrictIsLax(s);
    } else if ParseCidr(s).Some? && !LeadingZeroMask(s) {
      LaxIsStrict(s);
    }
  }

  /** The settings builder and netip disagree on exactly two kinds of accepted option: the
      empty default, and a mask written with a leading zero. Otherwise both read the same
      prefix, and what the strict parser takes the settings builder takes as well. */
  lemma {:induction false} StrictParseGap(s: string)
    ensures ParseAddress(s).Some? && ParseStrictPrefix(s).None? <==>
            s == "" || (LeadingZeroMask(s) && ParseCidr(s).Some?)
    ensures ParseStrictPrefix(s).Some? ==> ParseAddress(s) == ParseStrictPrefix(s)
  {
    StrictParse(s);
    if s == "" {
      DefaultAddressParses();
    }
  }

  lemma {:induction false} DefaultAddressParses()
    ensures ParseAddress("") == Some(Prefix([10, 42, 0, 1], 24))
  {
    var p := Prefix([10, 42, 0, 1], 24);
    DefaultAddressText();
    PrefixRoundTrip(p);
  }

  lemma {:induction false} DefaultAddressText()
    ensures PrefixText(Prefix([10, 42, 0, 1], 24)) == DEFAULT_ADDRESS
  {
    DefaultOctets();
    JoinFour("10", "42", "0", "1", '.');
    TwoDigits(2, 4);
  }

  lemma {:induction false} DefaultOctets()
    ensures Printed([10, 42, 0, 1]) == ["10", "42", "0", "1"]
  {
    TwoDigits(1, 0);
    TwoDigits(4, 2);
    assert Decimal(0) == "0" && Decimal(1) == "1";
  }

  lemma {:induction false} TwoDigits(tens: nat, ones: nat)
    requires 0 < tens < 10 && ones < 10
    ensures Decimal(10 * tens + ones) == [DigitChar(tens), DigitChar(ones)]
  {
    assert Decimal(tens) == [DigitChar(tens)];
  }
}
