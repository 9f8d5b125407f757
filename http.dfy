/**
 * The HTTP control plane: `http_recv` picks a route by substring search,
 * validates and applies configuration updates, and composes one
 * `Connection: close` response; `http_sent` counts acknowledged bytes and
 * closes the exchange once the whole response has gone out.
 *
 * The float text conversions are parameters: `%.2f` formatting is a
 * function `fixed2`, and the `%f` / `%d` conversions of `sscanf` are
 * scanners that return a value and the number of characters consumed.
 * The literal parts of the `sscanf` formats are matched here.
 */
module Http {
  import opened Common
  import opened Text
  import opened Config

  // ---------------------------------------------------------------- routes

  const GetStateMarker := "GET /system_state"
  const SetLimitsMarker := "POST /set_limits"
  const SetOffsetsMarker := "POST /set_offsets"
  const BodySeparator := "\r\n\r\n"

  datatype Route = SystemState | SetLimits | SetOffsets | HtmlPage

  /**
   * First match over substring containment, in a fixed order; a request
   * that contains several markers, anywhere, takes the earliest route.
   */
  function SelectRoute(req: string): (route: Route)
    ensures route == SystemState <==> Contains(req, GetStateMarker)
    ensures route == SetLimits <==> !Contains(req, GetStateMarker) && Contains(req, SetLimitsMarker)
    ensures route == SetOffsets <==>
              !Contains(req, GetStateMarker) && !Contains(req, SetLimitsMarker) && Contains(req, SetOffsetsMarker)
    ensures route == HtmlPage <==>
              !Contains(req, GetStateMarker) && !Contains(req, SetLimitsMarker) && !Contains(req, SetOffsetsMarker)
  {
    if IndexOf(req, GetStateMarker).Some? then SystemState
    else if IndexOf(req, SetLimitsMarker).Some? then SetLimits
    else if IndexOf(req, SetOffsetsMarker).Some? then SetOffsets
    else HtmlPage
  }

  /** The body starts after the first blank line; None when the request has none. */
  function RequestBody(req: string): (body: Option<string>)
    ensures body.None? <==> !Contains(req, BodySeparator)
    ensures body.Some? ==>
              exists i: nat :: && OccursAt(req, BodySeparator, i)
                               && (forall j: nat :: j < i ==> !OccursAt(req, BodySeparator, j))
                               && body.value == req[i + |BodySeparator|..]
  {
    match IndexOf(req, BodySeparator)
    case Some(i) => Some(req[i + |BodySeparator|..])
    case None => None
  }

  // ------------------------------------------------------------------ sscanf

  /** A numeric conversion of `sscanf`: `%f` or `%d`. */
  datatype Conversion = FloatConv | IntConv

  /**
   * One step of a `sscanf` format: literal text that must appear next in
   * the input, then a conversion. Both formats the firmware uses are a
   * sequence of such steps.
   */
  datatype Step = Step(literal: string, conversion: Conversion)

  datatype Field = FloatField(x: real) | IntField(n: int)

  /**
   * The numeric conversions of `sscanf`: each returns the value it read and
   * how many characters it consumed, or None when no number starts there.
   */
  datatype NumberScanner = NumberScanner(float: string -> Option<(real, nat)>, integer: string -> Option<(int, nat)>)

  predicate FieldMatches(f: Field, c: Conversion) {
    (f.FloatField? && c == FloatConv) || (f.IntField? && c == IntConv)
  }

  /** One conversion at the start of `input`: the field and the characters it consumed. */
  function Convert(c: Conversion, input: string, num: NumberScanner): (r: Option<(Field, nat)>)
    ensures r.Some? ==> FieldMatches(r.value.0, c) && 0 < r.value.1 <= |input|
  {
    match c
    case FloatConv =>
      (match num.float(input)
       case Some((x, n)) => if 0 < n <= |input| then Some((FloatField(x), n)) else None
       case None => None)
    case IntConv =>
      (match num.integer(input)
       case Some((k, n)) => if 0 < n <= |input| then Some((IntField(k), n)) else None
       case None => None)
  }

  /**
   * `sscanf`: the fields converted before the first mismatch; its return
   * value is the number of fields. Every field has the type its step asks
   * for.
   */
  function Scan(format: seq<Step>, input: string, num: NumberScanner): (fields: seq<Field>)
    ensures |fields| <= |format|
    ensures forall i :: 0 <= i < |fields| ==> FieldMatches(fields[i], format[i].conversion)
    decreases format
  {
    if format == [] then []
    else
      var lit := format[0].literal;
      if !(lit <= input) then []
      else
        match Convert(format[0].conversion, input[|lit|..], num)
        case None => []
        case Some((f, n)) => [f] + Scan(format[1..], input[|lit| + n..], num)
  }

  /** Input laid out as a format expects: each step's literal, then the text of its number, then `rest`. */
  function Interleave(format: seq<Step>, texts: seq<string>, rest: string): string
    requires |texts| == |format|
    decreases format
  {
    if format == [] then rest
    else format[0].literal + texts[0] + Interleave(format[1..], texts[1..], rest)
  }

  /**
   * `sscanf` reads back, in order, the values written into the places the
   * format expects them: field i is the value converted from the text after
   * literal i.
   */
  lemma {:induction false} ScanRoundTrip(format: seq<Step>, texts: seq<string>, values: seq<Field>, rest: string, num: NumberScanner)
    requires |texts| == |format| == |values|
    requires forall i :: 0 <= i < |format| ==>
               Convert(format[i].conversion, texts[i] + Interleave(format[i + 1..], texts[i + 1..], rest), num)
                 == Some((values[i], |texts[i]|))
    ensures Scan(format, Interleave(format, texts, rest), num) == values
    decreases format
  {
    if format != [] {
      var lit, tail := format[0].literal, Interleave(format[1..], texts[1..], rest);
      var input := Interleave(format, texts, rest);
      assert input == lit + (texts[0] + tail);
      assert input[|lit|..] == texts[0] + tail;
      assert input[|lit| + |texts[0]|..] == tail;
      forall i | 0 <= i < |format[1..]|
        ensures Convert(format[1..][i].conversion, texts[1..][i] + Interleave(format[1..][i + 1..], texts[1..][i + 1..], rest), num)
                  == Some((values[1..][i], |texts[1..][i]|))
      {
        assert format[1..][i + 1..] == format[i + 2..] && texts[1..][i + 1..] == texts[i + 2..];
        assert format[1..][i] == format[i + 1] && texts[1..][i] == texts[i + 1];
      }
      ScanRoundTrip(format[1..], texts[1..], values[1..], rest, num);
    }
  }

  /** The literal text of a format before its first conversion must open the input, or nothing converts. */
  lemma ScanNeedsLeadingLiteral(format: seq<Step>, input: string, num: NumberScanner)
    requires format != [] && !(format[0].literal <= input)
    ensures Scan(format, input, num) == []
  {
  }

  const LimitsFormat: seq<Step> := [
    Step("{\"temp_min\":", FloatConv),
    Step(",\"temp_max\":", FloatConv),
    Step(",\"humidity_min\":", FloatConv),
    Step(",\"humidity_max\":", FloatConv),
    Step(",\"pressure_min\":", FloatConv),
    Step(",\"pressure_max\":", FloatConv),
    Step(",\"alerts_enabled\":", IntConv)]

  const OffsetsFormat: seq<Step> := [
    Step("{\"temp_offset\":", FloatConv),
    Step(",\"humidity_offset\":", FloatConv),
    Step(",\"pressure_offset\":", FloatConv)]

  /** Six `%f` conversions, then one `%d`. */
  lemma LimitsFormatConversions()
    ensures |LimitsFormat| == 7 && LimitsFormat[6].conversion == IntConv
    ensures forall i :: 0 <= i < 6 ==> LimitsFormat[i].conversion == FloatConv
  {
  }

  /** The `set_limits` scan: the six limits and the alerts integer when all 7 fields convert. */
  function ScanLimits(body: string, num: NumberScanner): (r: Option<(Limits, int)>)
    ensures r.Some? <==> |Scan(LimitsFormat, body, num)| == 7
  {
    var fields := Scan(LimitsFormat, body, num);
    if |fields| == 7 then
      LimitsFormatConversions();
      assert forall i :: 0 <= i < 6 ==> fields[i].FloatField?;
      Some((Limits(fields[0].x, fields[1].x, fields[2].x, fields[3].x, fields[4].x, fields[5].x), fields[6].n))
    else None
  }

  /** The fields the `set_limits` format converts, in the order its keys appear. */
  function LimitsFields(l: Limits, alertsOn: int): seq<Field> {
    [ FloatField(l.tempMin), FloatField(l.tempMax),
      FloatField(l.humidityMin), FloatField(l.humidityMax),
      FloatField(l.pressureMin), FloatField(l.pressureMax),
      IntField(alertsOn) ]
  }

  /**
   * A body that carries, after each key of the `set_limits` format, the text
   * of a number yields those numbers in the matching limits: the value after
   * `"humidity_min":` becomes the humidity minimum, and so on.
   */
  lemma ScanLimitsRoundTrip(l: Limits, alertsOn: int, texts: seq<string>, rest: string, num: NumberScanner)
    requires |texts| == |LimitsFormat|
    requires forall i :: 0 <= i < |LimitsFormat| ==>
               Convert(LimitsFormat[i].conversion, texts[i] + Interleave(LimitsFormat[i + 1..], texts[i + 1..], rest), num)
                 == Some((LimitsFields(l, alertsOn)[i], |texts[i]|))
    ensures ScanLimits(Interleave(LimitsFormat, texts, rest), num) == Some((l, alertsOn))
  {
    ScanRoundTrip(LimitsFormat, texts, LimitsFields(l, alertsOn), rest, num);
  }

  /** The `set_offsets` scan: the three offsets when all 3 fields convert. */
  function ScanOffsets(body: string, num: NumberScanner): (r: Option<Offsets>)
    ensures r.Some? <==> |Scan(OffsetsFormat, body, num)| == 3
  {
    var fields := Scan(OffsetsFormat, body, num);
    if |fields| == 3 then
      assert forall i :: 0 <= i < 3 ==> fields[i].FloatField?;
      Some(Offsets(fields[0].x, fields[1].x, fields[2].x))
    else None
  }

  /** The fields the `set_offsets` format converts, in the order its keys appear. */
  function OffsetsFields(o: Offsets): seq<Field> {
    [FloatField(o.temp), FloatField(o.humidity), FloatField(o.pressure)]
  }

  /** A body laid out as the `set_offsets` format expects yields its numbers in the matching offsets. */
  lemma ScanOffsetsRoundTrip(o: Offsets, texts: seq<string>, rest: string, num: NumberScanner)
    requires |texts| == |OffsetsFormat|
    requires forall i :: 0 <= i < |OffsetsFormat| ==>
               Convert(OffsetsFormat[i].conversion, texts[i] + Interleave(OffsetsFormat[i + 1..], texts[i + 1..], rest), num)
                 == Some((OffsetsFields(o)[i], |texts[i]|))
    ensures ScanOffsets(Interleave(OffsetsFormat, texts, rest), num) == Some(o)
  {
    ScanRoundTrip(OffsetsFormat, texts, OffsetsFields(o), rest, num);
  }

  // ---------------------------------------------------------------- responses

  datatype Status = Ok | BadRequest
  datatype MediaType = ApplicationJson | TextPlain | TextHtml

  /** A composed response; the status line and headers are derived from it by Render. */
  datatype Response = Response(status: Status, mediaType: MediaType, body: string)

  const LimitsUpdated := "Limites atualizados com sucesso."
  const InvalidLimits := "Valores de limite invalidos (min >= max)."
  const LimitsBadFormat := "Formato de dados invalido para set_limits."
  const LimitsEmptyBody := "Corpo da requisicao vazio para set_limits."
  const OffsetsUpdated := "Offsets atualizados com sucesso."
  const OffsetsBadFormat := "Formato de dados invalido para set_offsets."
  const OffsetsEmptyBody := "Corpo da requisicao vazio para set_offsets."

  function StatusText(s: Status): string {
    match s
    case Ok => "200 OK"
    case BadRequest => "400 Bad Request"
  }

  function MediaTypeText(m: MediaType): string {
    match m
    case ApplicationJson => "application/json"
    case TextPlain => "text/plain"
    case TextHtml => "text/html"
  }

  /** A header line: not empty, and no carriage return inside it. */
  predicate IsLine(s: string) {
    |s| > 0 && forall i :: 0 <= i < |s| ==> s[i] != '\r'
  }

  /** The status line and the three headers every response carries. */
  function HeaderLines(resp: Response): seq<string> {
    [ "HTTP/1.1 " + StatusText(resp.status),
      "Content-Type: " + MediaTypeText(resp.mediaType),
      "Content-Length: " + Decimal(|resp.body|),
      "Connection: close" ]
  }

  /** Each line followed by CRLF. */
  function CrlfLines(lines: seq<string>): string {
    if lines == [] then "" else lines[0] + "\r\n" + CrlfLines(lines[1..])
  }

  /**
   * The bytes written to the connection: status line, three headers, blank
   * line, body. They start with the protocol version and end with the blank
   * line and the body.
   */
  function Render(resp: Response): (out: string)
    ensures |out| >= 9 + |BodySeparator| + |resp.body|
    ensures out[..9] == "HTTP/1.1 "
    ensures out[|out| - |resp.body| - |BodySeparator|..] == BodySeparator + resp.body
  {
    var lines := HeaderLines(resp);
    CrlfLinesEnd(lines);
    assert CrlfLines(lines) == lines[0] + "\r\n" + CrlfLines(lines[1..]);
    CrlfLines(lines) + "\r\n" + resp.body
  }

  /** The Content-Length header reads back as the body length. */
  lemma ContentLengthIsBodyLength(resp: Response)
    ensures var line := HeaderLines(resp)[2];
            line[..16] == "Content-Length: " && DecimalValue(line[16..]) == |resp.body|
  {
    var line := HeaderLines(resp)[2];
    assert line[16..] == Decimal(|resp.body|);
    DecimalRoundTrip(|resp.body|);
  }

  lemma HeaderLinesAreLines(resp: Response)
    ensures forall i :: 0 <= i < |HeaderLines(resp)| ==> IsLine(HeaderLines(resp)[i])
  {
    var d := Decimal(|resp.body|);
    assert forall i :: 0 <= i < |d| ==> d[i] != '\r';
    ExtendLine("HTTP/1.1 ", StatusText(resp.status));
    ExtendLine("Content-Type: ", MediaTypeText(resp.mediaType));
    ExtendLine("Content-Length: ", d);
  }

  /** A line followed by text without carriage returns is still a line. */
  lemma ExtendLine(a: string, b: string)
    requires IsLine(a) && forall i :: 0 <= i < |b| ==> b[i] != '\r'
    ensures IsLine(a + b)
  {
  }

  /**
   * In lines joined by CRLF, no carriage return has another one two
   * characters later before the final CRLF: no blank line appears before
   * the end.
   */
  lemma {:induction false} NoBlankLineInside(lines: seq<string>)
    requires forall i :: 0 <= i < |lines| ==> IsLine(lines[i])
    ensures forall j :: 0 <= j < |CrlfLines(lines)| - 2 ==>
              !(CrlfLines(lines)[j] == '\r' && CrlfLines(lines)[j + 2] == '\r')
  {
    if lines != [] {
      var first, rest := lines[0], CrlfLines(lines[1..]);
      var joined := CrlfLines(lines);
      assert joined == first + "\r\n" + rest;
      assert IsLine(first);
      NoBlankLineInside(lines[1..]);
      forall j | 0 <= j < |joined| - 2
        ensures !(joined[j] == '\r' && joined[j + 2] == '\r')
      {
        if j < |first| {
          assert joined[j] == first[j] != '\r';
        } else if j == |first| + 1 {
          assert joined[j] == '\n';
        } else if j == |first| {
          var second := lines[1];
          assert IsLine(second);
          assert rest == second + "\r\n" + CrlfLines(lines[1..][1..]);
          assert joined[j + 2] == second[0] != '\r';
        } else {
          var j' := j - |first| - 2;
          assert 0 <= j' < |rest| - 2;
          assert !(rest[j'] == '\r' && rest[j' + 2] == '\r');
          assert joined[j] == rest[j'] && joined[j + 2] == rest[j' + 2];
        }
      }
    }
  }

  /** Lines joined by CRLF end with CRLF. */
  lemma {:induction false} CrlfLinesEnd(lines: seq<string>)
    requires lines != []
    ensures |CrlfLines(lines)| >= 2 && CrlfLines(lines)[|CrlfLines(lines)| - 2..] == "\r\n"
  {
    if lines[1..] != [] {
      CrlfLinesEnd(lines[1..]);
    }
  }

  /** After CRLF-terminated lines, a blank line and a body, the first blank line is the one before the body. */
  lemma FirstBlankLineEndsHead(lines: seq<string>, body: string)
    requires lines != []
    requires forall i :: 0 <= i < |lines| ==> IsLine(lines[i])
    ensures var joined := CrlfLines(lines);
            IndexOf(joined + "\r\n" + body, BodySeparator) == Some(|joined| - 2)
  {
    var joined := CrlfLines(lines);
    var full := joined + "\r\n" + body;
    CrlfLinesEnd(lines);
    NoBlankLineInside(lines);
    var k := |joined| - 2;
    assert OccursAt(full, BodySeparator, k) by {
      assert full[k..k + 4] == joined[k..] + "\r\n";
    }
    forall j: nat | j < k
      ensures !OccursAt(full, BodySeparator, j)
    {
      assert full[j] == joined[j] && full[j + 2] == joined[j + 2];
      NotSeparatorAt(full, j);
    }
    FirstOccurrence(full, BodySeparator, k);
  }

  /** Where no carriage return has another one two characters later, no blank line starts. */
  lemma NotSeparatorAt(s: string, j: nat)
    requires j + 2 < |s| && !(s[j] == '\r' && s[j + 2] == '\r')
    ensures !OccursAt(s, BodySeparator, j)
  {
    if j + 4 <= |s| {
      if s[j] != '\r' {
        assert s[j..j + 4][0] != BodySeparator[0];
      } else {
        assert s[j..j + 4][2] != BodySeparator[2];
      }
    }
  }

  /**
   * Splitting a composed response at its first blank line, the way the
   * firmware splits requests, gives back exactly the body.
   */
  lemma BodyAfterFirstBlankLine(resp: Response)
    ensures RequestBody(Render(resp)) == Some(resp.body)
  {
    var lines := HeaderLines(resp);
    HeaderLinesAreLines(resp);
    FirstBlankLineEndsHead(lines, resp.body);
    var joined := CrlfLines(lines);
    assert Render(resp)[|joined| - 2 + |BodySeparator|..] == resp.body;
  }

  /**
   * Up to its first blank line a composed response is the status line and the
   * three headers, each ended by CRLF: the content type of the response, its
   * body length in decimal, and `Connection: close`.
   */
  lemma HeadBeforeFirstBlankLine(resp: Response)
    ensures var out := Render(resp);
            IndexOf(out, BodySeparator).Some? &&
            out[..IndexOf(out, BodySeparator).value + 2] ==
              "HTTP/1.1 " + StatusText(resp.status) + "\r\n"
              + "Content-Type: " + MediaTypeText(resp.mediaType) + "\r\n"
              + "Content-Length: " + Decimal(|resp.body|) + "\r\n"
              + "Connection: close" + "\r\n"
  {
    var lines := HeaderLines(resp);
    HeaderLinesAreLines(resp);
    FirstBlankLineEndsHead(lines, resp.body);
    HeaderText(resp);
    var joined := CrlfLines(lines);
    assert Render(resp) == joined + "\r\n" + resp.body;
    assert Render(resp)[..|joined|] == joined;
  }

  /** The header lines joined by CRLF, written out. */
  lemma HeaderText(resp: Response)
    ensures CrlfLines(HeaderLines(resp)) ==
              "HTTP/1.1 " + StatusText(resp.status) + "\r\n"
              + "Content-Type: " + MediaTypeText(resp.mediaType) + "\r\n"
              + "Content-Length: " + Decimal(|resp.body|) + "\r\n"
              + "Connection: close" + "\r\n"
  {
    var lines := HeaderLines(resp);
    assert CrlfLines(lines[3..]) == lines[3] + "\r\n" by {
      assert lines[3..][1..] == [];
    }
    assert CrlfLines(lines[2..]) == lines[2] + "\r\n" + CrlfLines(lines[3..]) by {
      assert lines[2..][1..] == lines[3..];
    }
    assert CrlfLines(lines[1..]) == lines[1] + "\r\n" + CrlfLines(lines[2..]) by {
      assert lines[1..][1..] == lines[2..];
    }
  }

  // -------------------------------------------------------------- JSON state

  datatype JsonNumber = Fixed2(x: real) | Integer(n: nat)

  const SystemStateKeys: seq<string> := [
    "temperatura_aht", "umidade_aht", "temperatura_bmp", "pressao_bmp",
    "temp_offset", "humidity_offset", "pressure_offset",
    "temp_min", "temp_max", "humidity_min", "humidity_max", "pressure_min", "pressure_max",
    "alerts_enabled"]

  /** The members of the `/system_state` object, in the order they are written. */
  function StateFields(s: Settings, r: Readings): (fields: seq<(string, JsonNumber)>)
    ensures |fields| == |SystemStateKeys|
    ensures forall i :: 0 <= i < |fields| ==> fields[i].0 == SystemStateKeys[i]
    ensures forall i :: 0 <= i < |fields| - 1 ==> fields[i].1.Fixed2?
    ensures fields[13].1.Integer? && (fields[13].1.n == 1 <==> s.alertsEnabled) && (fields[13].1.n == 0 <==> !s.alertsEnabled)
  {
    [ ("temperatura_aht", Fixed2(r.ahtTemperature)),
      ("umidade_aht", Fixed2(r.ahtHumidity)),
      ("temperatura_bmp", Fixed2(r.bmpTemperature)),
      ("pressao_bmp", Fixed2(r.bmpPressure)),
      ("temp_offset", Fixed2(s.offsets.temp)),
      ("humidity_offset", Fixed2(s.offsets.humidity)),
      ("pressure_offset", Fixed2(s.offsets.pressure)),
      ("temp_min", Fixed2(s.limits.tempMin)),
      ("temp_max", Fixed2(s.limits.tempMax)),
      ("humidity_min", Fixed2(s.limits.humidityMin)),
      ("humidity_max", Fixed2(s.limits.humidityMax)),
      ("pressure_min", Fixed2(s.limits.pressureMin)),
      ("pressure_max", Fixed2(s.limits.pressureMax)),
      ("alerts_enabled", Integer(if s.alertsEnabled then 1 else 0)) ]
  }

  function NumberText(v: JsonNumber, fixed2: real -> string): string {
    match v
    case Fixed2(x) => fixed2(x)
    case Integer(n) => Decimal(n)
  }

  /** One `"key":value` member. */
  function Member(key: string, value: string): string {
    "\"" + key + "\":" + value
  }

  /** The `"key":value` text of each member, in order. */
  function MemberTexts(fields: seq<(string, JsonNumber)>, fixed2: real -> string): (texts: seq<string>)
    ensures |texts| == |fields|
    ensures forall i :: 0 <= i < |fields| ==> texts[i] == Member(fields[i].0, NumberText(fields[i].1, fixed2))
  {
    seq(|fields|, i requires 0 <= i < |fields| => Member(fields[i].0, NumberText(fields[i].1, fixed2)))
  }

  /**
   * The object written so far: `{`, then the member texts in order, separated
   * by commas, appended one after the other as the format string writes them.
   */
  function OpenObject(texts: seq<string>): (text: string)
    ensures |text| >= 1 && text[0] == '{'
  {
    if texts == [] then "{"
    else if |texts| == 1 then "{" + texts[0]
    else OpenObject(texts[..|texts| - 1]) + "," + texts[|texts| - 1]
  }

  /** The `/system_state` payload, including the trailing CRLF the firmware counts in its length. */
  function StateJson(s: Settings, r: Readings, fixed2: real -> string): (json: string)
    ensures |json| >= 3 && json[0] == '{' && json[|json| - 3..] == "}\r\n"
  {
    OpenObject(MemberTexts(StateFields(s, r), fixed2)) + "}\r\n"
  }

  /** The object up to member k is the object up to member k - 1, a comma and member k. */
  lemma OpenObjectStep(t: seq<string>, k: nat)
    requires 2 <= k <= |t|
    ensures OpenObject(t[..k]) == OpenObject(t[..k - 1]) + "," + t[k - 1]
  {
    assert t[..k][..k - 1] == t[..k - 1];
  }

  /** Fourteen members written one after the other, separated by commas. */
  lemma FourteenMembers(t: seq<string>)
    requires |t| == 14
    ensures OpenObject(t) ==
      "{" + t[0] + "," + t[1] + "," + t[2] + "," + t[3] + "," + t[4] + "," + t[5] + "," + t[6]
      + "," + t[7] + "," + t[8] + "," + t[9] + "," + t[10] + "," + t[11] + "," + t[12] + "," + t[13]
  {
    assert t[..14] == t;
    OpenObjectStep(t, 14);
    OpenObjectStep(t, 13);
    OpenObjectStep(t, 12);
    OpenObjectStep(t, 11);
    OpenObjectStep(t, 10);
    OpenObjectStep(t, 9);
    OpenObjectStep(t, 8);
    OpenObjectStep(t, 7);
    OpenObjectStep(t, 6);
    OpenObjectStep(t, 5);
    OpenObjectStep(t, 4);
    OpenObjectStep(t, 3);
    OpenObjectStep(t, 2);
    assert OpenObject(t[..1]) == "{" + t[0];
  }

  /**
   * The payload spelled out: the fourteen `"key":value` members in the order
   * of the format string, the thirteen float values each as their two-decimal
   * text and the alerts gate as the integer 1 or 0.
   */
  lemma StateJsonText(s: Settings, r: Readings, fixed2: real -> string)
    ensures StateJson(s, r, fixed2) ==
      "{"
      + Member("temperatura_aht", fixed2(r.ahtTemperature)) + ","
      + Member("umidade_aht", fixed2(r.ahtHumidity)) + ","
      + Member("temperatura_bmp", fixed2(r.bmpTemperature)) + ","
      + Member("pressao_bmp", fixed2(r.bmpPressure)) + ","
      + Member("temp_offset", fixed2(s.offsets.temp)) + ","
      + Member("humidity_offset", fixed2(s.offsets.humidity)) + ","
      + Member("pressure_offset", fixed2(s.offsets.pressure)) + ","
      + Member("temp_min", fixed2(s.limits.tempMin)) + ","
      + Member("temp_max", fixed2(s.limits.tempMax)) + ","
      + Member("humidity_min", fixed2(s.limits.humidityMin)) + ","
      + Member("humidity_max", fixed2(s.limits.humidityMax)) + ","
      + Member("pressure_min", fixed2(s.limits.pressureMin)) + ","
      + Member("pressure_max", fixed2(s.limits.pressureMax)) + ","
      + Member("alerts_enabled", if s.alertsEnabled then "1" else "0")
      + "}\r\n"
  {
    var t := MemberTexts(StateFields(s, r), fixed2);
    FourteenMembers(t);
    StateMemberTexts(s, r, fixed2);
  }

  /** Member i of the report is the key of index i and the value it names. */
  lemma StateMemberTexts(s: Settings, r: Readings, fixed2: real -> string)
    ensures var t := MemberTexts(StateFields(s, r), fixed2);
      t[0] == Member("temperatura_aht", fixed2(r.ahtTemperature)) &&
      t[1] == Member("umidade_aht", fixed2(r.ahtHumidity)) &&
      t[2] == Member("temperatura_bmp", fixed2(r.bmpTemperature)) &&
      t[3] == Member("pressao_bmp", fixed2(r.bmpPressure)) &&
      t[4] == Member("temp_offset", fixed2(s.offsets.temp)) &&
      t[5] == Member("humidity_offset", fixed2(s.offsets.humidity)) &&
      t[6] == Member("pressure_offset", fixed2(s.offsets.pressure)) &&
      t[7] == Member("temp_min", fixed2(s.limits.tempMin)) &&
      t[8] == Member("temp_max", fixed2(s.limits.tempMax)) &&
      t[9] == Member("humidity_min", fixed2(s.limits.humidityMin)) &&
      t[10] == Member("humidity_max", fixed2(s.limits.humidityMax)) &&
      t[11] == Member("pressure_min", fixed2(s.limits.pressureMin)) &&
      t[12] == Member("pressure_max", fixed2(s.limits.pressureMax)) &&
      t[13] == Member("alerts_enabled", if s.alertsEnabled then "1" else "0")
  {
    assert Decimal(1) == "1" && Decimal(0) == "0";
  }

  /**
   * The report is complete: two states that report the same members have
   * the same readings, offsets, limits and alerts gate. The page selector
   * is the only part of the state it leaves out.
   */
  lemma StateReportIsComplete(s: Settings, r: Readings, s': Settings, r': Readings)
    requires StateFields(s, r) == StateFields(s', r')
    ensures r == r' && s.limits == s'.limits && s.offsets == s'.offsets && s.alertsEnabled == s'.alertsEnabled
  {
    var f, f' := StateFields(s, r), StateFields(s', r');
    assert f[13] == f'[13];
  }

  /** The value a JSON reader finds under `key`: the first member with that key. */
  function Lookup(fields: seq<(string, JsonNumber)>, key: string): Option<JsonNumber> {
    if fields == [] then None
    else if fields[0].0 == key then Some(fields[0].1)
    else Lookup(fields[1..], key)
  }

  /** A member whose key no earlier member has is the one a reader finds. */
  lemma {:induction false} LookupFindsMember(fields: seq<(string, JsonNumber)>, i: nat)
    requires i < |fields|
    requires forall j :: 0 <= j < i ==> fields[j].0 != fields[i].0
    ensures Lookup(fields, fields[i].0) == Some(fields[i].1)
  {
    if i > 0 {
      LookupFindsMember(fields[1..], i - 1);
    }
  }

  /** No key of the report is written twice. */
  lemma StateKeysDistinct()
    ensures forall i, j :: 0 <= j < i < |SystemStateKeys| ==> SystemStateKeys[j] != SystemStateKeys[i]
  {
    forall i, j | 0 <= j < i < |SystemStateKeys|
      ensures SystemStateKeys[j] != SystemStateKeys[i]
    {
      var a, b := SystemStateKeys[j], SystemStateKeys[i];
      assert |a| != |b| || a[0] != b[0] || a[|a| - 1] != b[|b| - 1] by {
        assert i == 1 || i == 2 || i == 3 || i == 4 || i == 5 || i == 6 || i == 7
            || i == 8 || i == 9 || i == 10 || i == 11 || i == 12 || i == 13;
      }
    }
  }

  /** Every member of the report is what a reader finds under its key. */
  lemma ReportMember(s: Settings, r: Readings, i: nat)
    requires i < |SystemStateKeys|
    ensures Lookup(StateFields(s, r), SystemStateKeys[i]) == Some(StateFields(s, r)[i].1)
  {
    StateKeysDistinct();
    LookupFindsMember(StateFields(s, r), i);
  }

  /** The four reading keys carry the readings of the same names. */
  lemma ReportCarriesReadings(s: Settings, r: Readings)
    ensures var f := StateFields(s, r);
            && Lookup(f, "temperatura_aht") == Some(Fixed2(r.ahtTemperature))
            && Lookup(f, "umidade_aht") == Some(Fixed2(r.ahtHumidity))
            && Lookup(f, "temperatura_bmp") == Some(Fixed2(r.bmpTemperature))
            && Lookup(f, "pressao_bmp") == Some(Fixed2(r.bmpPressure))
  {
    ReportMember(s, r, 0);
    ReportMember(s, r, 1);
    ReportMember(s, r, 2);
    ReportMember(s, r, 3);
  }

  /** The three offset keys carry the stored offsets. */
  lemma ReportCarriesOffsets(s: Settings, r: Readings)
    ensures var f := StateFields(s, r);
            && Lookup(f, "temp_offset") == Some(Fixed2(s.offsets.temp))
            && Lookup(f, "humidity_offset") == Some(Fixed2(s.offsets.humidity))
            && Lookup(f, "pressure_offset") == Some(Fixed2(s.offsets.pressure))
  {
    ReportMember(s, r, 4);
    ReportMember(s, r, 5);
    ReportMember(s, r, 6);
  }

  /** The six limit keys carry the stored limits, and `alerts_enabled` is 1 exactly when alerts are on. */
  lemma ReportCarriesLimits(s: Settings, r: Readings)
    ensures var f := StateFields(s, r);
            && Lookup(f, "temp_min") == Some(Fixed2(s.limits.tempMin))
            && Lookup(f, "temp_max") == Some(Fixed2(s.limits.tempMax))
            && Lookup(f, "humidity_min") == Some(Fixed2(s.limits.humidityMin))
            && Lookup(f, "humidity_max") == Some(Fixed2(s.limits.humidityMax))
            && Lookup(f, "pressure_min") == Some(Fixed2(s.limits.pressureMin))
            && Lookup(f, "pressure_max") == Some(Fixed2(s.limits.pressureMax))
            && Lookup(f, "alerts_enabled") == Some(Integer(if s.alertsEnabled then 1 else 0))
  {
    ReportMember(s, r, 7);
    ReportMember(s, r, 8);
    ReportMember(s, r, 9);
    ReportMember(s, r, 10);
    ReportMember(s, r, 11);
    ReportMember(s, r, 12);
    ReportMember(s, r, 13);
  }

  /** After boot the state report carries zero offsets, the default limits and `alerts_enabled` 1. */
  lemma DefaultStateReport(r: Readings)
    ensures StateFields(DefaultSettings, r)[4..] == [
              ("temp_offset", Fixed2(0.0)), ("humidity_offset", Fixed2(0.0)), ("pressure_offset", Fixed2(0.0)),
              ("temp_min", Fixed2(18.0)), ("temp_max", Fixed2(30.0)),
              ("humidity_min", Fixed2(40.0)), ("humidity_max", Fixed2(85.0)),
              ("pressure_min", Fixed2(98000.0)), ("pressure_max", Fixed2(102000.0)),
              ("alerts_enabled", Integer(1))]
  {
  }

  // ------------------------------------------------------------- the handler

  /** The static pages and the float text conversions, which are outside the model. */
  datatype Env = Env(scanner: NumberScanner, fixed2: real -> string, graphsHtml: string, limitsHtml: string)

  function TextResponse(status: Status, message: string): Response {
    Response(status, TextPlain, message)
  }

  /** The `POST /set_limits` branch: body, then format, then the range check. */
  function SetLimitsBranch(s: Settings, req: string, env: Env): (out: (Settings, Response))
    ensures out.1.mediaType == TextPlain
    ensures out.0 != s ==> out.1.status == Ok && ValidRange(out.0.limits)
    ensures out.0.offsets == s.offsets && out.0.page == s.page
  {
    match RequestBody(req)
    case None => (s, TextResponse(BadRequest, LimitsEmptyBody))
    case Some(body) =>
      match ScanLimits(body, env.scanner)
      case None => (s, TextResponse(BadRequest, LimitsBadFormat))
      case Some((l, alertsOn)) =>
        if ValidRange(l) then (s.(limits := l, alertsEnabled := alertsOn != 0), TextResponse(Ok, LimitsUpdated))
        else (s, TextResponse(BadRequest, InvalidLimits))
  }

  /** The `POST /set_offsets` branch: body, then format; no range check. */
  function SetOffsetsBranch(s: Settings, req: string, env: Env): (out: (Settings, Response))
    ensures out.1.mediaType == TextPlain
    ensures out.0 != s ==> out.1.status == Ok
    ensures out.0.limits == s.limits && out.0.alertsEnabled == s.alertsEnabled && out.0.page == s.page
  {
    match RequestBody(req)
    case None => (s, TextResponse(BadRequest, OffsetsEmptyBody))
    case Some(body) =>
      match ScanOffsets(body, env.scanner)
      case None => (s, TextResponse(BadRequest, OffsetsBadFormat))
      case Some(o) => (s.(offsets := o), TextResponse(Ok, OffsetsUpdated))
  }

  /**
   * What `http_recv` does with one request: the new settings and the
   * response. Readings are never changed; the page selector is never
   * changed; only `set_limits` touches limits and the alerts gate, only
   * `set_offsets` touches offsets; a rejected request changes nothing; and
   * limits that pass the range check stay that way.
   */
  function Handle(s: Settings, r: Readings, req: string, env: Env): (out: (Settings, Response))
    ensures out.0.page == s.page
    ensures SelectRoute(req) != SetLimits ==> out.0.limits == s.limits && out.0.alertsEnabled == s.alertsEnabled
    ensures SelectRoute(req) != SetOffsets ==> out.0.offsets == s.offsets
    ensures out.1.status == BadRequest ==> out.0 == s
    ensures out.0.limits != s.limits ==> ValidRange(out.0.limits)
  {
    match SelectRoute(req)
    case SystemState =>
      (s, Response(Ok, ApplicationJson, StateJson(s, r, env.fixed2)))
    case SetLimits => SetLimitsBranch(s, req, env)
    case SetOffsets => SetOffsetsBranch(s, req, env)
    case HtmlPage =>
      (s, Response(Ok, TextHtml, if s.page == GraphsPage then env.graphsHtml else env.limitsHtml))
  }

  /** The route alone decides the content type: exactly one branch composes the response. */
  lemma MediaTypeFollowsRoute(s: Settings, r: Readings, req: string, env: Env)
    ensures var resp := Handle(s, r, req, env).1;
            (resp.mediaType == ApplicationJson <==> SelectRoute(req) == SystemState)
            && (resp.mediaType == TextHtml <==> SelectRoute(req) == HtmlPage)
            && (resp.mediaType == TextPlain <==> SelectRoute(req) == SetLimits || SelectRoute(req) == SetOffsets)
  {
    match SelectRoute(req)
    case SystemState =>
    case SetLimits => assert Handle(s, r, req, env) == SetLimitsBranch(s, req, env);
    case SetOffsets => assert Handle(s, r, req, env) == SetOffsetsBranch(s, req, env);
    case HtmlPage =>
  }

  /** `GET /system_state` reports the current state as JSON and changes nothing. */
  lemma SystemStateReport(s: Settings, r: Readings, req: string, env: Env)
    requires Contains(req, GetStateMarker)
    ensures Handle(s, r, req, env) == (s, Response(Ok, ApplicationJson, StateJson(s, r, env.fixed2)))
  {
  }

  /** Any other request gets the graphs page when the selector is 0 and the limits page otherwise. */
  lemma HtmlFallback(s: Settings, r: Readings, req: string, env: Env)
    requires !Contains(req, GetStateMarker) && !Contains(req, SetLimitsMarker) && !Contains(req, SetOffsetsMarker)
    ensures Handle(s, r, req, env).0 == s
    ensures Handle(s, r, req, env).1.status == Ok && Handle(s, r, req, env).1.mediaType == TextHtml
    ensures Handle(s, r, req, env).1.body == env.graphsHtml <== s.page == GraphsPage
    ensures Handle(s, r, req, env).1.body == env.limitsHtml <== s.page != GraphsPage
  {
  }

  /** Every outcome of `POST /set_limits`, with its message. */
  lemma SetLimitsOutcomes(s: Settings, r: Readings, req: string, env: Env)
    requires SelectRoute(req) == SetLimits
    ensures var (s', resp) := Handle(s, r, req, env);
            && resp.mediaType == TextPlain
            && (RequestBody(req).None? ==> s' == s && resp.status == BadRequest && resp.body == LimitsEmptyBody)
            && (RequestBody(req).Some? && ScanLimits(RequestBody(req).value, env.scanner).None? ==>
                  s' == s && resp.status == BadRequest && resp.body == LimitsBadFormat)
            && (RequestBody(req).Some? && ScanLimits(RequestBody(req).value, env.scanner).Some? ==>
                  var (l, alertsOn) := ScanLimits(RequestBody(req).value, env.scanner).value;
                  && (!ValidRange(l) ==> s' == s && resp.status == BadRequest && resp.body == InvalidLimits)
                  && (ValidRange(l) ==>
                        s' == Settings(l, s.offsets, alertsOn != 0, s.page)
                        && resp.status == Ok && resp.body == LimitsUpdated))
  {
  }

  /** Every outcome of `POST /set_offsets`: offsets are accepted without any range check. */
  lemma SetOffsetsOutcomes(s: Settings, r: Readings, req: string, env: Env)
    requires SelectRoute(req) == SetOffsets
    ensures var (s', resp) := Handle(s, r, req, env);
            && resp.mediaType == TextPlain
            && (RequestBody(req).None? ==> s' == s && resp.status == BadRequest && resp.body == OffsetsEmptyBody)
            && (RequestBody(req).Some? && ScanOffsets(RequestBody(req).value, env.scanner).None? ==>
                  s' == s && resp.status == BadRequest && resp.body == OffsetsBadFormat)
            && (RequestBody(req).Some? && ScanOffsets(RequestBody(req).value, env.scanner).Some? ==>
                  s' == s.(offsets := ScanOffsets(RequestBody(req).value, env.scanner).value)
                  && resp.status == Ok && resp.body == OffsetsUpdated)
  {
  }

  /** After an accepted `set_offsets`, the next report shows the offsets that were sent. */
  lemma SetOffsetsIsReported(s: Settings, r: Readings, req: string, env: Env, body: string, o: Offsets)
    requires SelectRoute(req) == SetOffsets
    requires RequestBody(req) == Some(body) && ScanOffsets(body, env.scanner) == Some(o)
    ensures var f := StateFields(Handle(s, r, req, env).0, r);
            && Lookup(f, "temp_offset") == Some(Fixed2(o.temp))
            && Lookup(f, "humidity_offset") == Some(Fixed2(o.humidity))
            && Lookup(f, "pressure_offset") == Some(Fixed2(o.pressure))
  {
    SetOffsetsOutcomes(s, r, req, env);
    ReportCarriesOffsets(Handle(s, r, req, env).0, r);
  }

  /** After an accepted `set_limits`, the next report shows the limits and the alerts gate that were sent. */
  lemma SetLimitsIsReported(s: Settings, r: Readings, req: string, env: Env, body: string, l: Limits, alertsOn: int)
    requires SelectRoute(req) == SetLimits
    requires RequestBody(req) == Some(body) && ScanLimits(body, env.scanner) == Some((l, alertsOn)) && ValidRange(l)
    ensures var f := StateFields(Handle(s, r, req, env).0, r);
            && Lookup(f, "temp_min") == Some(Fixed2(l.tempMin))
            && Lookup(f, "temp_max") == Some(Fixed2(l.tempMax))
            && Lookup(f, "humidity_min") == Some(Fixed2(l.humidityMin))
            && Lookup(f, "humidity_max") == Some(Fixed2(l.humidityMax))
            && Lookup(f, "pressure_min") == Some(Fixed2(l.pressureMin))
            && Lookup(f, "pressure_max") == Some(Fixed2(l.pressureMax))
            && Lookup(f, "alerts_enabled") == Some(Integer(if alertsOn != 0 then 1 else 0))
  {
    SetLimitsOutcomes(s, r, req, env);
    ReportCarriesLimits(Handle(s, r, req, env).0, r);
  }

  // ------------------------------------------------------------- the exchange

  /** A 16-bit byte count, as `http_sent` receives it. */
  newtype U16 = x: int | 0 <= x < 0x1_0000

  /** `struct http_state`: the composed response and how much of it the peer has acknowledged. */
  class Exchange {
    var response: string
    var len: nat
    var sent: nat
    /** False once the connection is closed and the state freed. */
    var open: bool

    constructor (response: string)
      ensures this.response == response && len == |response| && sent == 0 && open
    {
      this.response := response;
      len := |response|;
      sent := 0;
      open := true;
    }

    /**
     * `http_sent`: counts `n` more acknowledged bytes and closes the
     * exchange on the first callback that brings the count to the length.
     * A closed exchange has been freed, so no callback reaches it.
     */
    method Sent(n: U16)
      requires open
      modifies this
      ensures sent == old(sent) + n as int
      ensures open <==> sent < len
      ensures response == old(response) && len == old(len)
    {
      sent := sent + n as int;
      if sent >= len {
        open := false;
      }
    }
  }

  /** The `POST /set_limits` branch of `http_recv`. */
  method ServeSetLimits(store: Store, req: string, env: Env) returns (resp: Response)
    modifies store
    ensures (store.CurrentSettings(), resp) == SetLimitsBranch(old(store.CurrentSettings()), req, env)
    ensures store.CurrentReadings() == old(store.CurrentReadings())
  {
    var body := RequestBody(req);
    if body.Some? {
      var scanned := ScanLimits(body.value, env.scanner);
      if scanned.Some? {
        var l, alertsOn := scanned.value.0, scanned.value.1;
        if ValidRange(l) {
          store.WriteLimits(l, alertsOn != 0);
          resp := TextResponse(Ok, LimitsUpdated);
        } else {
          resp := TextResponse(BadRequest, InvalidLimits);
        }
      } else {
        resp := TextResponse(BadRequest, LimitsBadFormat);
      }
    } else {
      resp := TextResponse(BadRequest, LimitsEmptyBody);
    }
  }

  /** The `POST /set_offsets` branch of `http_recv`. */
  method ServeSetOffsets(store: Store, req: string, env: Env) returns (resp: Response)
    modifies store
    ensures (store.CurrentSettings(), resp) == SetOffsetsBranch(old(store.CurrentSettings()), req, env)
    ensures store.CurrentReadings() == old(store.CurrentReadings())
  {
    var body := RequestBody(req);
    if body.Some? {
      var scanned := ScanOffsets(body.value, env.scanner);
      if scanned.Some? {
        store.WriteOffsets(scanned.value);
        resp := TextResponse(Ok, OffsetsUpdated);
      } else {
        resp := TextResponse(BadRequest, OffsetsBadFormat);
      }
    } else {
      resp := TextResponse(BadRequest, OffsetsEmptyBody);
    }
  }

  /** What `http_recv` did with one transport event. */
  datatype RecvOutcome = PeerClosed | OutOfMemory | Queued(response: Response)

  /**
   * `http_recv`. `payload` is None when the peer closed the connection;
   * `allocOk` is whether the exchange state could be allocated.
   */
  method HttpRecv(store: Store, payload: Option<string>, allocOk: bool, env: Env)
      returns (outcome: RecvOutcome, ex: Exchange?)
    requires store.Valid()
    modifies store
    ensures store.Valid()
    ensures store.CurrentReadings() == old(store.CurrentReadings())
    ensures payload.None? ==> outcome == PeerClosed && ex == null && store.CurrentSettings() == old(store.CurrentSettings())
    ensures payload.Some? && !allocOk ==>
              outcome == OutOfMemory && ex == null && store.CurrentSettings() == old(store.CurrentSettings())
    ensures payload.Some? && allocOk ==>
              var (s', resp) := Handle(old(store.CurrentSettings()), old(store.CurrentReadings()), payload.value, env);
              && store.CurrentSettings() == s'
              && outcome == Queued(resp)
              && ex != null && fresh(ex)
              && ex.response == Render(resp) && ex.len == |ex.response| && ex.len > 0 && ex.sent == 0 && ex.open
  {
    if payload.None? {
      return PeerClosed, null;
    }
    if !allocOk {
      return OutOfMemory, null;
    }
    var req := payload.value;
    var resp: Response;
    var route := SelectRoute(req);
    if route == SystemState {
      resp := Response(Ok, ApplicationJson, StateJson(store.CurrentSettings(), store.CurrentReadings(), env.fixed2));
    } else if route == SetLimits {
      resp := ServeSetLimits(store, req, env);
    } else if route == SetOffsets {
      resp := ServeSetOffsets(store, req, env);
    } else if store.currentPage == GraphsPage {
      resp := Response(Ok, TextHtml, env.graphsHtml);
    } else {
      resp := Response(Ok, TextHtml, env.limitsHtml);
    }
    ex := new Exchange(Render(resp));
    outcome := Queued(resp);
  }
}
