/** The template language of the configuration: literal text and four fields, rendered in one
    pass. */
module Template {
  import opened Text

  const OPEN := ['{', '{']
  const CLOSE := ['}', '}']

  datatype Name = ProductName | DeviceName | DeviceId | Hostname

  datatype Values = Values(productName: string, deviceName: string, deviceId: string, hostname: string)

  function ValueOf(v: Values, n: Name): string {
    match n
    case ProductName => v.productName
    case DeviceName => v.deviceName
    case DeviceId => v.deviceId
    case Hostname => v.hostname
  }

  function NameText(n: Name): string {
    match n
    case ProductName => "ProductName"
    case DeviceName => "DeviceName"
    case DeviceId => "DeviceID"
    case Hostname => "Hostname"
  }

  function Lookup(text: string): Option<Name> {
    if text == NameText(ProductName) then Some(ProductName)
    else if text == NameText(DeviceName) then Some(DeviceName)
    else if text == NameText(DeviceId) then Some(DeviceId)
    else if text == NameText(Hostname) then Some(Hostname)
    else None
  }

  lemma LookupInverts(text: string, n: Name)
    ensures Lookup(text) == Some(n) <==> text == NameText(n)
  {
    assert NameText(ProductName)[0] != NameText(Hostname)[0];
    assert |NameText(ProductName)| == 11 && |NameText(DeviceName)| == 10;
    assert |NameText(DeviceId)| == 8 && |NameText(Hostname)| == 8;
    assert NameText(DeviceId)[0] != NameText(Hostname)[0];
  }

  /** White_Space as Go's strings.TrimSpace sees it. */
  predicate IsSpace(c: char) {
    || '\t' <= c <= '\r' || c == ' ' || c == '\U{85}' || c == '\U{A0}' || c == '\U{1680}'
    || '\U{2000}' <= c <= '\U{200A}' || c == '\U{2028}' || c == '\U{2029}' || c == '\U{202F}'
    || c == '\U{205F}' || c == '\U{3000}'
  }

  predicate IsLetter(c: char) {
    'A' <= c <= 'Z' || 'a' <= c <= 'z'
  }

  /** The 25 characters of the White_Space property, and the 52 letters. */
  lemma CharacterClasses(c: char)
    ensures IsSpace(c) <==>
            c as int in {9, 10, 11, 12, 13, 32, 133, 160, 5760, 8192, 8193, 8194, 8195, 8196, 8197, 8198, 8199, 8200, 8201,
                         8202, 8232, 8233, 8239, 8287, 12288}
    ensures IsLetter(c) <==> c in "ABCDEFGHIJKLMNOPQRSTUVWXYZ" || c in "abcdefghijklmnopqrstuvwxyz"
  {
  }

  lemma NameIsLetters(n: Name)
    ensures |NameText(n)| > 0 && forall i :: 0 <= i < |NameText(n)| ==> IsLetter(NameText(n)[i])
  {
  }

  predicate Blank(s: string) {
    forall i :: 0 <= i < |s| ==> IsSpace(s[i])
  }

  function TrimLeft(s: string): string {
    if s != [] && IsSpace(s[0]) then TrimLeft(s[1..]) else s
  }

  function TrimRight(s: string): string {
    if s != [] && IsSpace(s[|s| - 1]) then TrimRight(s[..|s| - 1]) else s
  }

  function TrimSpace(s: string): string {
    TrimRight(TrimLeft(s))
  }

  lemma {:induction false} TrimLeftSplits(s: string) returns (left: string)
    ensures s == left + TrimLeft(s) && Blank(left)
  {
    if s != [] && IsSpace(s[0]) {
      left := TrimLeftSplits(s[1..]);
      left := [s[0]] + left;
    } else {
      left := [];
    }
  }

  lemma {:induction false} TrimRightSplits(s: string) returns (right: string)
    ensures s == TrimRight(s) + right && Blank(right)
  {
    if s != [] && IsSpace(s[|s| - 1]) {
      right := TrimRightSplits(s[..|s| - 1]);
      right := right + [s[|s| - 1]];
    } else {
      right := [];
    }
  }

  lemma {:induction false} TrimLeftExact(left: string, core: string)
    requires Blank(left) && (core == [] || !IsSpace(core[0]))
    ensures TrimLeft(left + core) == core
  {
    if left == [] {
      assert left + core == core;
    } else {
      assert (left + core)[1..] == left[1..] + core;
      TrimLeftExact(left[1..], core);
    }
  }

  lemma {:induction false} TrimRightExact(core: string, right: string)
    requires Blank(right) && (core == [] || !IsSpace(core[|core| - 1]))
    ensures TrimRight(core + right) == core
  {
    if right == [] {
      assert core + right == core;
    } else {
      assert (core + right)[..|core + right| - 1] == core + right[..|right| - 1];
      TrimRightExact(core, right[..|right| - 1]);
    }
  }

  datatype Rejection = StrayClose | Unclosed | Unsupported(expression: string) | UnknownField(name: string)

  datatype Outcome = Rendered(text: string) | Rejected(why: Rejection)

  datatype Parsed = Field(name: Name) | Bad(why: Rejection)

  /** A trimmed expression is a dot and the name of a field. */
  function ParseExpression(expression: string): Parsed {
    if |expression| < 2 || expression[0] != '.' then Bad(Unsupported(expression))
    else
      match Lookup(expression[1..])
      case None => Bad(UnknownField(expression[1..]))
      case Some(n) => Parsed.Field(n)
  }

  function Prepend(front: string, o: Outcome): Outcome {
    match o
    case Rendered(text) => Rendered(front + text)
    case Rejected(_) => o
  }

  function Render(input: string, v: Values): Outcome
    decreases |input|
  {
    var start, stray := Index(input, OPEN), Index(input, CLOSE);
    if stray >= 0 && (start < 0 || stray < start) then Rejected(StrayClose)
    else if start < 0 then Rendered(input)
    else
      var afterOpen := input[start + 2..];
      var end := Index(afterOpen, CLOSE);
      if end < 0 then Rejected(Unclosed)
      else
        match ParseExpression(TrimSpace(afterOpen[..end]))
        case Bad(why) => Rejected(why)
        case Field(n) => Prepend(input[..start] + ValueOf(v, n), Render(afterOpen[end + 2..], v))
  }

  lemma PrependTwice(a: string, b: string, o: Outcome)
    ensures Prepend(a, Prepend(b, o)) == Prepend(a + b, o)
  {
    if o.Rendered? {
      assert a + (b + o.text) == a + b + o.text;
    }
  }

  /** The loop: it appends to what is rendered and shortens what remains. */
  method RenderTemplate(input: string, v: Values) returns (o: Outcome)
    ensures o == Render(input, v)
  {
    var rendered, remaining := "", input;
    assert Prepend("", Render(input, v)) == Render(input, v) by {
      if Render(input, v).Rendered? {
        assert "" + Render(input, v).text == Render(input, v).text;
      }
    }
    while true
      invariant Render(input, v) == Prepend(rendered, Render(remaining, v))
      decreases |remaining|
    {
      var start := Index(remaining, OPEN);
      var stray := Index(remaining, CLOSE);
      if stray >= 0 && (start < 0 || stray < start) {
        return Rejected(StrayClose);
      }
      if start < 0 {
        return Rendered(rendered + remaining);
      }
      var afterOpen := remaining[start + 2..];
      var end := Index(afterOpen, CLOSE);
      if end < 0 {
        return Rejected(Unclosed);
      }
      var parsed := ParseExpression(TrimSpace(afterOpen[..end]));
      if parsed.Bad? {
        return Rejected(parsed.why);
      }
      var piece := remaining[..start] + ValueOf(v, parsed.name);
      PrependTwice(rendered, piece, Render(afterOpen[end + 2..], v));
      rendered := rendered + piece;
      remaining := afterOpen[end + 2..];
    }
  }

  /** The grammar: literal text, and fields with any white space inside the braces. */
  datatype Segment = Literal(text: string) | Reference(left: string, name: Name, right: string)

  predicate Pair(s: string, c: char, i: int) {
    0 <= i < |s| - 1 && s[i] == c && s[i + 1] == c
  }

  /** Literal text holds no delimiter, and does not run into one that follows. */
  predicate Safe(s: string) {
    forall i :: 0 <= i < |s| - 1 ==> !Pair(s, '{', i) && !Pair(s, '}', i)
  }

  predicate EndsOpen(s: string) {
    s != [] && s[|s| - 1] == '{'
  }

  predicate WellFormed(segments: seq<Segment>) {
    segments == [] ||
    (WellFormed(segments[1..]) &&
     match segments[0]
     case Reference(left, _, right) => Blank(left) && Blank(right)
     case Literal(text) =>
       && text != [] && Safe(text)
       && (|segments| > 1 ==> segments[1].Reference? && !EndsOpen(text)))
  }

  function Inner(s: Segment): string
    requires s.Reference?
  {
    s.left + ("." + NameText(s.name)) + s.right
  }

  function PrintOne(s: Segment): string {
    if s.Literal? then s.text else OPEN + Inner(s) + CLOSE
  }

  function Print(segments: seq<Segment>): string {
    if segments == [] then "" else PrintOne(segments[0]) + Print(segments[1..])
  }

  function Meaning(segments: seq<Segment>, v: Values): string {
    if segments == [] then ""
    else (if segments[0].Literal? then segments[0].text else ValueOf(v, segments[0].name)) + Meaning(segments[1..], v)
  }

  lemma IndexPair(s: string, c: char)
    ensures var r := Index(s, [c, c]);
            && (r >= 0 ==> Pair(s, c, r))
            && (r < 0 ==> forall i :: 0 <= i < |s| - 1 ==> !Pair(s, c, i))
            && (forall i :: 0 <= i < r ==> !Pair(s, c, i))
  {
    var r := Index(s, [c, c]);
    if r >= 0 {
      assert s[r..r + 2][0] == s[r] && s[r..r + 2][1] == s[r + 1];
    }
    forall i | 0 <= i < |s| - 1 && (r < 0 || i < r) ensures !Pair(s, c, i) {
      assert s[i..i + 2] == [s[i], s[i + 1]];
      assert !MatchAt(s, [c, c], i);
    }
  }

  lemma IndexIs(s: string, c: char, at: nat)
    requires Pair(s, c, at) && forall i :: 0 <= i < at ==> !Pair(s, c, i)
    ensures Index(s, [c, c]) == at
  {
    IndexPair(s, c);
  }

  lemma IndexNone(s: string, c: char)
    requires forall i :: 0 <= i < |s| - 1 ==> !Pair(s, c, i)
    ensures Index(s, [c, c]) < 0
  {
    IndexPair(s, c);
  }

  lemma InnerTrims(s: Segment)
    requires s.Reference? && Blank(s.left) && Blank(s.right)
    ensures ParseExpression(TrimSpace(Inner(s))) == Parsed.Field(s.name)
    ensures forall i :: 0 <= i < |Inner(s)| ==> Inner(s)[i] != '}'
  {
    var core := "." + NameText(s.name);
    NameIsLetters(s.name);
    assert core[|core| - 1] == NameText(s.name)[|NameText(s.name)| - 1];
    assert Inner(s) == s.left + (core + s.right);
    assert (core + s.right)[0] == '.';
    TrimLeftExact(s.left, core + s.right);
    TrimRightExact(core, s.right);
    assert core[1..] == NameText(s.name);
    LookupInverts(NameText(s.name), s.name);
  }

  lemma Three(a: string, b: string, c: string)
    ensures a + b + c == a + (b + c)
  {
  }

  lemma Five(a: string, b: string, c: string, d: string, e: string)
    ensures a + (b + c + d) + e == a + b + (c + d + e)
  {
  }

  /** The first opening delimiter is where the literal text ends. */
  lemma OpenFound(text: string, tail: string)
    requires Safe(text) && !EndsOpen(text)
    ensures var input := text + OPEN + tail;
            && Index(input, OPEN) == |text| && input[..|text|] == text && input[|text| + 2..] == tail
            && (Index(input, CLOSE) < 0 || Index(input, CLOSE) > |text|)
  {
    var input := text + OPEN + tail;
    assert forall i :: 0 <= i < |text| ==> input[i] == text[i];
    assert input[|text|] == '{' && input[|text| + 1] == '{';
    forall i | 0 <= i < |text| ensures !Pair(input, '{', i) && !Pair(input, '}', i) {
      if i < |text| - 1 {
        assert !Pair(text, '{', i) && !Pair(text, '}', i);
      }
    }
    IndexIs(input, '{', |text|);
    IndexPair(input, '}');
  }

  /** The first closing delimiter is where the expression ends. */
  lemma CloseFound(inner: string, rest: string)
    requires forall i :: 0 <= i < |inner| ==> inner[i] != '}'
    ensures var tail := inner + CLOSE + rest;
            Index(tail, CLOSE) == |inner| && tail[..|inner|] == inner && tail[|inner| + 2..] == rest
  {
    var tail := inner + CLOSE + rest;
    assert tail[|inner|] == '}' && tail[|inner| + 1] == '}';
    assert forall i :: 0 <= i < |inner| ==> tail[i] == inner[i];
    IndexIs(tail, '}', |inner|);
  }

  lemma RenderUnfolds(input: string, start: nat, afterOpen: string, end: nat, n: Name, v: Values)
    requires Index(input, OPEN) == start && (Index(input, CLOSE) < 0 || Index(input, CLOSE) > start)
    requires afterOpen == input[start + 2..] && Index(afterOpen, CLOSE) == end
    requires ParseExpression(TrimSpace(afterOpen[..end])) == Parsed.Field(n)
    ensures Render(input, v) == Prepend(input[..start] + ValueOf(v, n), Render(afterOpen[end + 2..], v))
  {
  }

  /** Rendering one stretch of literal text and the field after it. */
  lemma RenderChunk(text: string, s: Segment, rest: string, v: Values)
    requires Safe(text) && !EndsOpen(text)
    requires s.Reference? && Blank(s.left) && Blank(s.right)
    ensures Render(text + PrintOne(s) + rest, v) == Prepend(text + ValueOf(v, s.name), Render(rest, v))
  {
    var inner := Inner(s);
    var tail := inner + CLOSE + rest;
    Five(text, OPEN, inner, CLOSE, rest);
    OpenFound(text, tail);
    InnerTrims(s);
    CloseFound(inner, rest);
    RenderUnfolds(text + OPEN + tail, |text|, tail, |inner|, s.name, v);
  }

  lemma RenderLiteral(text: string, v: Values)
    requires Safe(text)
    ensures Render(text, v) == Rendered(text)
  {
    IndexNone(text, '{');
    IndexNone(text, '}');
  }

  lemma SafeEmpty()
    ensures Safe("") && !EndsOpen("")
  {
  }

  /** A field, with or without literal text before it, in front of a template that renders. */
  lemma FieldRenders(text: string, field: Segment, rest: seq<Segment>, v: Values)
    requires Safe(text) && !EndsOpen(text)
    requires field.Reference? && Blank(field.left) && Blank(field.right)
    requires Render(Print(rest), v) == Rendered(Meaning(rest, v))
    ensures Render(text + (PrintOne(field) + Print(rest)), v) ==
            Rendered(text + (ValueOf(v, field.name) + Meaning(rest, v)))
  {
    RenderChunk(text, field, Print(rest), v);
    Three(text, PrintOne(field), Print(rest));
    Three(text, ValueOf(v, field.name), Meaning(rest, v));
  }

  /** Every well-formed template renders to the concatenation of its pieces. */
  lemma {:induction false} WellFormedRenders(segments: seq<Segment>, v: Values)
    requires WellFormed(segments)
    ensures Render(Print(segments), v) == Rendered(Meaning(segments, v))
    decreases |segments|
  {
    if segments == [] {
      SafeEmpty();
      RenderLiteral("", v);
    } else {
      var first, tail := segments[0], segments[1..];
      if first.Reference? {
        WellFormedRenders(tail, v);
        SafeEmpty();
        FieldRenders("", first, tail, v);
        assert "" + Print(segments) == Print(segments) && "" + Meaning(segments, v) == Meaning(segments, v);
      } else if tail == [] {
        RenderLiteral(first.text, v);
        assert first.text + "" == first.text;
      } else {
        WellFormedRenders(tail[1..], v);
        FieldRenders(first.text, tail[0], tail[1..], v);
      }
    }
  }

  /** The inside of an accepted expression is a dot, a name and white space around them. */
  lemma ExpressionShape(inside: string, n: Name) returns (s: Segment)
    requires ParseExpression(TrimSpace(inside)) == Parsed.Field(n)
    ensures s.Reference? && s.name == n && Blank(s.left) && Blank(s.right) && Inner(s) == inside
  {
    var left := TrimLeftSplits(inside);
    var right := TrimRightSplits(TrimLeft(inside));
    var core := TrimSpace(inside);
    LookupInverts(core[1..], n);
    assert core == "." + core[1..];
    s := Reference(left, n, right);
    assert left + (core + right) == left + core + right;
  }

  lemma ChunkShape(input: string, start: nat)
    requires Pair(input, '{', start) && forall i :: 0 <= i < start ==> !Pair(input, '{', i)
    requires forall i :: 0 <= i < start ==> !Pair(input, '}', i)
    ensures Safe(input[..start]) && !EndsOpen(input[..start])
    ensures input == input[..start] + OPEN + input[start + 2..]
  {
    var text := input[..start];
    forall i | 0 <= i < |text| - 1 ensures !Pair(text, '{', i) && !Pair(text, '}', i) {
      assert !Pair(input, '{', i) && !Pair(input, '}', i);
    }
    assert start > 0 ==> !Pair(input, '{', start - 1);
  }

  /** What a successful step of the loop has read. */
  lemma StepShape(input: string, v: Values) returns (text: string, field: Segment, rest: string)
    requires Render(input, v).Rendered? && Index(input, OPEN) >= 0
    ensures Safe(text) && !EndsOpen(text) && field.Reference? && Blank(field.left) && Blank(field.right)
    ensures input == text + PrintOne(field) + rest && |rest| < |input| && Render(rest, v).Rendered?
  {
    var start := Index(input, OPEN);
    IndexPair(input, '{');
    IndexPair(input, '}');
    ChunkShape(input, start);
    var afterOpen := input[start + 2..];
    var end := Index(afterOpen, CLOSE);
    text, rest := input[..start], afterOpen[end + 2..];
    field := ExpressionShape(afterOpen[..end], ParseExpression(TrimSpace(afterOpen[..end])).name);
    CloseShape(afterOpen, end);
    Five(text, OPEN, Inner(field), CLOSE, rest);
  }

  lemma LiteralShape(input: string, v: Values) returns (segments: seq<Segment>)
    requires Render(input, v).Rendered? && Index(input, OPEN) < 0
    ensures WellFormed(segments) && Print(segments) == input
  {
    IndexPair(input, '{');
    IndexPair(input, '}');
    assert Safe(input);
    if input == "" {
      segments := [];
    } else {
      segments := [Literal(input)];
      assert segments[1..] == [] && input + "" == input;
    }
  }

  lemma CloseShape(afterOpen: string, end: nat)
    requires MatchAt(afterOpen, CLOSE, end)
    ensures afterOpen == afterOpen[..end] + CLOSE + afterOpen[end + 2..]
  {
  }

  /** Whatever renders is a well-formed template. */
  lemma {:induction false} RenderedIsWellFormed(input: string, v: Values) returns (segments: seq<Segment>)
    requires Render(input, v).Rendered?
    ensures WellFormed(segments) && Print(segments) == input
    decreases |input|
  {
    if Index(input, OPEN) < 0 {
      segments := LiteralShape(input, v);
    } else {
      var text, field, rest := StepShape(input, v);
      segments := RenderedIsWellFormed(rest, v);
      segments := WithChunk(text, field, segments);
    }
  }

  lemma WithChunk(text: string, field: Segment, rest: seq<Segment>) returns (segments: seq<Segment>)
    requires Safe(text) && !EndsOpen(text) && WellFormed(rest)
    requires field.Reference? && Blank(field.left) && Blank(field.right)
    ensures WellFormed(segments) && Print(segments) == text + PrintOne(field) + Print(rest)
  {
    var tail := [field] + rest;
    assert tail[1..] == rest;
    if text == "" {
      segments := tail;
      assert "" + PrintOne(field) == PrintOne(field);
    } else {
      segments := [Literal(text)] + tail;
      assert segments[1..] == tail;
      assert text + (PrintOne(field) + Print(rest)) == text + PrintOne(field) + Print(rest);
    }
  }

  ghost predicate Denotes(segments: seq<Segment>, input: string, v: Values, output: string) {
    WellFormed(segments) && Print(segments) == input && Meaning(segments, v) == output
  }

  /** Rendering is exactly segment substitution: a text renders to an output if and only if
      it is the print of a well-formed template whose pieces concatenate to that output. All
      other texts are rejected, and a substituted value is never looked at again. */
  lemma RenderingIsSubstitution(input: string, v: Values, output: string)
    ensures Render(input, v) == Rendered(output) <==> exists segments :: Denotes(segments, input, v, output)
  {
    if Render(input, v).Rendered? {
      var segments := RenderedIsWellFormed(input, v);
      WellFormedRenders(segments, v);
      assert Denotes(segments, input, v, Render(input, v).text);
    }
    forall segments | Denotes(segments, input, v, output) ensures Render(input, v) == Rendered(output) {
      WellFormedRenders(segments, v);
    }
  }
}
