/** Profile UUID text. */
module Uuids {
  import opened Text

  predicate IsHex(c: char) {
    IsDigit(c) || 'a' <= c <= 'f' || 'A' <= c <= 'F'
  }

  function WithoutDashes(s: string): string {
    if s == [] then []
    else if s[0] == '-' then WithoutDashes(s[1..])
    else [s[0]] + WithoutDashes(s[1..])
  }

  /** hex.DecodeString accepts the text. */
  predicate HexText(s: string) {
    |s| % 2 == 0 && forall i :: 0 <= i < |s| ==> IsHex(s[i])
  }

  predicate ValidUuid(s: string) {
    && |s| == 36 && s[8] == '-' && s[13] == '-' && s[18] == '-' && s[23] == '-'
    && HexText(WithoutDashes(s))
  }

  lemma {:induction false} LowerCommutesWithDashes(s: string)
    ensures WithoutDashes(Lower(s)) == Lower(WithoutDashes(s))
  {
    if s != [] {
      LowerCommutesWithDashes(s[1..]);
      assert Lower(s) == [AsciiLower(s[0])] + Lower(s[1..]);
      assert s[0] == '-' <==> AsciiLower(s[0]) == '-';
      if s[0] != '-' {
        var rest := WithoutDashes(s[1..]);
        assert ([s[0]] + rest)[1..] == rest;
        assert Lower([s[0]] + rest) == [AsciiLower(s[0])] + Lower(rest);
      }
    }
  }

  lemma {:induction false} LowerKeepsHex(s: string)
    ensures HexText(Lower(s)) <==> HexText(s)
  {
    forall i | 0 <= i < |s| ensures IsHex(Lower(s)[i]) <==> IsHex(s[i]) {
    }
  }

  lemma {:induction false} LowerTwice(s: string)
    ensures Lower(Lower(s)) == Lower(s)
  {
  }

  /** The number a hexadecimal digit stands for. */
  function HexValue(c: char): int {
    if '0' <= c <= '9' then c as int - '0' as int
    else if c in "abcdef" then c as int - 'a' as int + 10
    else if c in "ABCDEF" then c as int - 'A' as int + 10
    else -1
  }

  /** Lower-casing leaves no capital and keeps every digit's value; the hexadecimal texts are
      those of an even number of digits. */
  lemma {:induction false} LowerKeepsValues(s: string)
    ensures forall i :: 0 <= i < |s| ==> !('A' <= Lower(s)[i] <= 'Z') && HexValue(Lower(s)[i]) == HexValue(s[i])
    ensures HexText(s) <==> |s| % 2 == 0 && forall i :: 0 <= i < |s| ==> HexValue(s[i]) >= 0
  {
    forall i | 0 <= i < |s| ensures IsHex(s[i]) <==> HexValue(s[i]) >= 0 {
    }
  }

  /** Lower-casing a UUID settles it: validity is unchanged and doing it again does nothing. */
  lemma {:induction false} LowerUuid(s: string)
    ensures ValidUuid(Lower(s)) <==> ValidUuid(s)
    ensures Lower(Lower(s)) == Lower(s)
  {
    LowerCommutesWithDashes(s);
    LowerKeepsHex(WithoutDashes(s));
    LowerTwice(s);
  }

  lemma {:induction false} WithoutDashesAppend(a: string, b: string)
    ensures WithoutDashes(a + b) == WithoutDashes(a) + WithoutDashes(b)
  {
    if a == [] {
      assert a + b == b;
    } else {
      assert (a + b)[1..] == a[1..] + b;
      WithoutDashesAppend(a[1..], b);
    }
  }

  lemma {:induction false} PlainText(s: string)
    requires '-' !in s
    ensures WithoutDashes(s) == s
  {
    if s != [] {
      PlainText(s[1..]);
    }
  }

  lemma {:induction false} HexHasNoDash(s: string)
    requires forall c :: c in s ==> IsHex(c)
    ensures WithoutDashes(s) == s && WithoutDashes(['-'] + s) == s
  {
    PlainText(s);
    assert (['-'] + s)[1..] == s;
  }

  /** Groups of 8, 4, 4, 4 and 12 hexadecimal digits make a UUID. */
  lemma {:induction false} GroupsMakeUuid(a: string, b: string, c: string, d: string, e: string)
    requires |a| == 8 && |b| == |c| == |d| == 4 && |e| == 12
    requires forall x :: x in a + b + c + d + e ==> IsHex(x)
    ensures ValidUuid(a + (['-'] + b) + (['-'] + c) + (['-'] + d) + (['-'] + e))
  {
    HexHasNoDash(a);
    HexHasNoDash(b);
    HexHasNoDash(c);
    HexHasNoDash(d);
    HexHasNoDash(e);
    WithoutDashesAppend(a, ['-'] + b);
    WithoutDashesAppend(a + (['-'] + b), ['-'] + c);
    WithoutDashesAppend(a + (['-'] + b) + (['-'] + c), ['-'] + d);
    WithoutDashesAppend(a + (['-'] + b) + (['-'] + c) + (['-'] + d), ['-'] + e);
  }
}
