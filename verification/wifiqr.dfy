/** The Wi-Fi QR payload of the setup page, and a reader of such payloads. */
module WifiQr {
  import opened Text

  predicate Special(c: char) {
    c == '\\' || c == ';' || c == ',' || c == '"' || c == ':'
  }

  function Escape(value: string): string {
    if value == "" then ""
    else (if Special(value[0]) then ['\\', value[0]] else [value[0]]) + Escape(value[1..])
  }

  const HEAD := "WIFI:"

  function FieldText(key: char, value: string): string {
    [key] + [':'] + value + [';']
  }

  function Payload(ssid: string, password: string): string {
    HEAD + (FieldText('T', "WPA") + (FieldText('S', Escape(ssid)) + (FieldText('P', Escape(password)) + [';'])))
  }

  /** Reads a value up to the first semicolon that no backslash protects; a comma, a colon or a
      quotation mark without one is an error. */
  function ReadValue(s: string): (r: Option<(string, string)>)
    ensures r.Some? ==> |r.value.1| < |s|
  {
    if s == "" then None
    else if s[0] == ';' then Some(("", s[1..]))
    else if s[0] == ',' || s[0] == ':' || s[0] == '"' then None
    else if s[0] == '\\' then
      if |s| == 1 then None
      else
        match ReadValue(s[2..])
        case None => None
        case Some((value, rest)) => Some(([s[1]] + value, rest))
    else
      match ReadValue(s[1..])
      case None => None
      case Some((value, rest)) => Some(([s[0]] + value, rest))
  }

  /** Reads `key:value;` fields until the closing semicolon, in any order and number. */
  function ReadFields(s: string): Option<seq<(char, string)>>
    decreases |s|
  {
    if s == ";" then Some([])
    else if |s| < 2 || s[1] != ':' then None
    else
      match ReadValue(s[2..])
      case None => None
      case Some((value, rest)) =>
        match ReadFields(rest)
        case None => None
        case Some(fields) => Some([(s[0], value)] + fields)
  }

  function Read(payload: string): Option<seq<(char, string)>> {
    if |payload| < |HEAD| || payload[..|HEAD|] != HEAD then None else ReadFields(payload[|HEAD|..])
  }

  lemma {:induction false} EscapedReadsBack(value: string, rest: string)
    ensures ReadValue(Escape(value) + [';'] + rest) == Some((value, rest))
  {
    var s := Escape(value) + [';'] + rest;
    if value == "" {
      assert s == [';'] + rest;
    } else {
      var tail := Escape(value[1..]) + [';'] + rest;
      EscapedReadsBack(value[1..], rest);
      if Special(value[0]) {
        assert s == ['\\', value[0]] + tail;
        assert s[2..] == tail;
      } else {
        assert s == [value[0]] + tail;
        assert s[1..] == tail;
      }
      assert value == [value[0]] + value[1..];
    }
  }

  lemma FieldReadsBack(key: char, value: string, rest: string, fields: seq<(char, string)>)
    requires ReadFields(rest) == Some(fields)
    ensures ReadFields(FieldText(key, Escape(value)) + rest) == Some([(key, value)] + fields)
  {
    var s := FieldText(key, Escape(value)) + rest;
    assert s[0] == key && s[1] == ':';
    assert s[2..] == Escape(value) + [';'] + rest;
    EscapedReadsBack(value, rest);
    assert |s| >= 3 && s != ";";
  }

  lemma PlainEscapes()
    ensures Escape("WPA") == "WPA"
  {
    assert Escape("A") == "A";
    assert "PA"[1..] == "A" && "WPA"[1..] == "PA";
    assert Escape("PA") == "PA";
  }

  /** A reader gets back exactly the network name and the password, whatever they contain. */
  lemma PayloadReadsBack(ssid: string, password: string)
    ensures Read(Payload(ssid, password)) == Some([('T', "WPA"), ('S', ssid), ('P', password)])
  {
    FieldReadsBack('P', password, [';'], []);
    assert [('P', password)] + [] == [('P', password)];
    var last := FieldText('P', Escape(password)) + [';'];
    FieldReadsBack('S', ssid, last, [('P', password)]);
    assert [('S', ssid)] + [('P', password)] == [('S', ssid), ('P', password)];
    var fields := FieldText('S', Escape(ssid)) + last;
    PlainEscapes();
    FieldReadsBack('T', "WPA", fields, [('S', ssid), ('P', password)]);
    assert [('T', "WPA")] + [('S', ssid), ('P', password)] == [('T', "WPA"), ('S', ssid), ('P', password)];
    assert Payload(ssid, password)[|HEAD|..] == FieldText('T', "WPA") + fields;
    assert Payload(ssid, password)[..|HEAD|] == HEAD;
  }

  /** So different credentials never share a payload. */
  lemma PayloadIsInjective(ssid: string, password: string, ssid': string, password': string)
    ensures Payload(ssid, password) == Payload(ssid', password') <==> ssid == ssid' && password == password'
  {
    PayloadReadsBack(ssid, password);
    PayloadReadsBack(ssid', password');
    if Payload(ssid, password) == Payload(ssid', password') {
      var read := Read(Payload(ssid, password)).value;
      assert read[1] == ('S', ssid) == ('S', ssid') && read[2] == ('P', password) == ('P', password');
    }
  }
}
