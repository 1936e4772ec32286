/** Byte strings: searching, ASCII folding, splitting and decimal numbers. */
module Text {

  datatype Option<+T> = None | Some(value: T)

  datatype Result<+T> = Ok(value: T) | Err(error: string)

  ghost predicate MatchAt(s: string, m: string, i: int) {
    0 <= i && i + |m| <= |s| && s[i..i + |m|] == m
  }

  ghost predicate Contains(s: string, m: string) {
    exists i :: MatchAt(s, m, i)
  }

  /** strings.Index: the first match, or -1. */
  function Index(s: string, m: string): (r: int)
    ensures r == -1 || MatchAt(s, m, r)
    ensures forall i :: 0 <= i && (r == -1 || i < r) ==> !MatchAt(s, m, i)
  {
    if |m| <= |s| && s[..|m|] == m then 0
    else if s == [] then -1
    else
      var rest := Index(s[1..], m);
      assert forall i :: i > 0 && MatchAt(s, m, i) ==> MatchAt(s[1..], m, i - 1) by {
        forall i | i > 0 && MatchAt(s, m, i) ensures MatchAt(s[1..], m, i - 1) {
          assert s[1..][i - 1..i - 1 + |m|] == s[i..i + |m|];
        }
      }
      assert rest >= 0 ==> s[rest + 1..rest + 1 + |m|] == s[1..][rest..rest + |m|];
      if rest < 0 then -1 else rest + 1
  }

  lemma IndexFindsIffContained(s: string, m: string)
    ensures Index(s, m) >= 0 <==> Contains(s, m)
  {
    if Contains(s, m) {
      var i :| MatchAt(s, m, i);
    }
  }

  lemma MatchCovers(s: string, m: string, i: int, k: int)
    requires MatchAt(s, m, i) && i <= k < i + |m|
    ensures s[k] in m
  {
    assert s[k] == s[i..i + |m|][k - i];
  }

  lemma MatchInLeft(a: string, b: string, m: string, i: nat)
    requires i + |m| <= |a|
    ensures MatchAt(a + b, m, i) <==> MatchAt(a, m, i)
  {
    assert (a + b)[i..i + |m|] == a[i..i + |m|];
  }

  lemma MatchInRight(a: string, b: string, m: string, i: nat)
    requires i >= |a|
    ensures MatchAt(a + b, m, i) <==> MatchAt(b, m, i - |a|)
  {
    if i + |m| <= |a + b| {
      assert (a + b)[i..i + |m|] == b[i - |a|..i - |a| + |m|];
    }
  }

  /** A match avoids the characters its pattern lacks: joining two texts with one that the
      pattern does not contain adds no match. */
  lemma ContainsInJoin(a: string, sep: char, b: string, m: string)
    requires sep !in m
    ensures Contains(a + [sep] + b, m) <==> Contains(a, m) || Contains(b, m)
  {
    var left := a + [sep];
    if i :| MatchAt(left + b, m, i) {
      if i + |m| <= |a| {
        MatchInLeft(left, b, m, i);
        MatchInLeft(a, [sep], m, i);
      } else if i > |a| {
        MatchInRight(left, b, m, i);
      } else {
        MatchCovers(left + b, m, i, |a|);
      }
    }
    if i :| MatchAt(a, m, i) {
      MatchInLeft(a, [sep], m, i);
      MatchInLeft(left, b, m, i);
    }
    if i :| MatchAt(b, m, i) {
      MatchInRight(left, b, m, i + |left|);
    }
  }

  function AsciiLower(c: char): char {
    if 'A' <= c <= 'Z' then (c as int + 32) as char else c
  }

  function Lower(s: string): (r: string)
    ensures |r| == |s| && forall i :: 0 <= i < |s| ==> r[i] == AsciiLower(s[i])
  {
    if s == [] then [] else [AsciiLower(s[0])] + Lower(s[1..])
  }

  function Split(s: string, sep: char): (parts: seq<string>)
    ensures |parts| > 0
    ensures forall p :: p in parts ==> sep !in p
  {
    if s == [] then [[]]
    else
      var rest := Split(s[1..], sep);
      if s[0] == sep then [[]] + rest else [[s[0]] + rest[0]] + rest[1..]
  }

  function Join(parts: seq<string>, sep: char): string
    requires |parts| > 0
  {
    if |parts| == 1 then parts[0] else parts[0] + [sep] + Join(parts[1..], sep)
  }

  lemma JoinFour(a: string, b: string, c: string, d: string, sep: char)
    ensures Join([a, b, c, d], sep) == a + [sep] + (b + [sep] + (c + [sep] + d))
  {
    assert [a, b, c, d][1..] == [b, c, d];
    assert [b, c, d][1..] == [c, d];
    assert [c, d][1..] == [d];
    assert Join([c, d], sep) == c + [sep] + d;
    assert Join([b, c, d], sep) == b + [sep] + (c + [sep] + d);
  }

  lemma {:induction false} JoinSplit(s: string, sep: char)
    ensures Join(Split(s, sep), sep) == s
  {
    if s != [] {
      JoinSplit(s[1..], sep);
      var rest := Split(s[1..], sep);
      var parts := Split(s, sep);
      if s[0] == sep {
        assert parts[1..] == rest;
      } else {
        assert parts[1..] == rest[1..];
      }
    }
  }

  lemma {:induction false} SplitPrefix(head: string, tail: string, sep: char)
    requires sep !in head
    ensures Split(head + tail, sep) == [head + Split(tail, sep)[0]] + Split(tail, sep)[1..]
  {
    var parts := Split(tail, sep);
    if head == [] {
      assert head + tail == tail && head + parts[0] == parts[0];
      assert parts == [parts[0]] + parts[1..];
    } else {
      SplitPrefix(head[1..], tail, sep);
      assert (head + tail)[1..] == head[1..] + tail;
      assert [head[0]] + (head[1..] + Split(tail, sep)[0]) == head + Split(tail, sep)[0];
    }
  }

  lemma {:induction false} SplitJoin(parts: seq<string>, sep: char)
    requires |parts| > 0 && forall p :: p in parts ==> sep !in p
    ensures Split(Join(parts, sep), sep) == parts
  {
    if |parts| == 1 {
      SplitPrefix(parts[0], [], sep);
      assert parts[0] + [] == parts[0];
      assert parts == [parts[0]];
      assert Split([], sep) == [[]];
    } else {
      var rest := Join(parts[1..], sep);
      SplitJoin(parts[1..], sep);
      assert ([sep] + rest)[1..] == rest;
      assert Split([sep] + rest, sep) == [[]] + parts[1..];
      assert parts[0] + [] == parts[0];
      SplitPrefix(parts[0], [sep] + rest, sep);
      assert parts[0] + [sep] + rest == parts[0] + ([sep] + rest);
    }
  }

  predicate IsDigit(c: char) { '0' <= c <= '9' }

  predicate AllDigits(s: string) { forall i :: 0 <= i < |s| ==> IsDigit(s[i]) }

  function DigitValue(c: char): nat
    requires IsDigit(c)
  {
    c as int - '0' as int
  }

  function DigitChar(d: nat): (c: char)
    requires d < 10
    ensures IsDigit(c) && DigitValue(c) == d
  {
    ('0' as int + d) as char
  }

  /** The number a run of digits denotes. */
  function Number(s: string): nat
    requires AllDigits(s)
  {
    if s == [] then 0 else 10 * Number(s[..|s| - 1]) + DigitValue(s[|s| - 1])
  }

  /** Decimal text without leading zeros, as %d prints it. */
  function Decimal(n: nat): (s: string)
    ensures |s| > 0 && AllDigits(s) && Number(s) == n
    ensures n > 0 ==> s[0] != '0'
    ensures n < 10 <==> |s| == 1
  {
    if n < 10 then
      assert [DigitChar(n)][..0] == [];
      [DigitChar(n)]
    else
      var s := Decimal(n / 10) + [DigitChar(n % 10)];
      assert s[..|s| - 1] == Decimal(n / 10);
      s
  }

  lemma {:induction false} NumberGrows(s: string)
    requires AllDigits(s) && |s| > 1 && s[0] != '0'
    ensures Number(s) >= 10
  {
    var front := s[..|s| - 1];
    if |s| == 2 {
      assert front[..0] == [];
      assert Number(front) == DigitValue(s[0]);
    } else {
      NumberGrows(front);
    }
  }

  /** Digits without a leading zero are the only decimal text of their number. */
  lemma {:induction false} DecimalUnique(s: string)
    requires AllDigits(s) && |s| > 0 && (|s| > 1 ==> s[0] != '0')
    ensures Decimal(Number(s)) == s
  {
    var front, last := s[..|s| - 1], s[|s| - 1];
    assert s == front + [last];
    assert DigitChar(DigitValue(last)) == last;
    if |s| == 1 {
      assert Number(front) == 0;
    } else {
      NumberGrows(s);
      DecimalUnique(front);
      assert Number(s) / 10 == Number(front) && Number(s) % 10 == DigitValue(last);
    }
  }
}
