/** The response printer of src/http/HttpResponse.cpp and a reference decoder for its framing
    (section 6.3 of RFC 9112). */
module ResponseSpec {
  import opened Text
  import opened HttpRequests
  import opened HttpSpec

  datatype StatusCode = UnknownStatus | Ok | MovedPermanently | BadRequest | NotFound

  function Code(c: StatusCode): nat {
    match c
    case UnknownStatus => 0
    case Ok => 200
    case MovedPermanently => 301
    case BadRequest => 400
    case NotFound => 404
  }

  datatype Response = Response(status: StatusCode, message: string, headers: map<string, string>,
                               closeConnection: bool, body: string)

  const SCRATCH_SIZE: nat := 32

  /** What `snprintf` leaves in the scratch buffer: at most 31 bytes of the text. */
  function Snprintf(text: string): string {
    if |text| < SCRATCH_SIZE then text else text[..SCRATCH_SIZE - 1]
  }

  function StatusLine(r: Response): string {
    Snprintf("HTTP/1.1 " + Decimal(Code(r.status)) + " ") + r.message
  }

  function LengthField(r: Response): string {
    Snprintf("Content-Length: " + Decimal(|r.body|) + CRLF)
  }

  function FramingFields(r: Response): string {
    if r.closeConnection then "Connection: close" + CRLF
    else LengthField(r) + "Connection: Keep-Alive" + CRLF
  }

  predicate Lists(r: Response, order: seq<string>) {
    forall k | k in order :: k in r.headers
  }

  function Encode(r: Response, order: seq<string>): string
    requires Lists(r, order)
  {
    StatusLine(r) + CRLF + FramingFields(r) + PrintHeaders(r.headers, order) + CRLF + r.body
  }

  // The decoder

  type Field = (string, string)

  datatype Decoded = Decoded(code: nat, message: string, fields: seq<Field>, body: string)

  function Lower(s: string): string {
    seq(|s|, i requires 0 <= i < |s| => if 'A' <= s[i] <= 'Z' then s[i] - 'A' + 'a' else s[i])
  }

  /** Field lines up to the blank line, and what follows it. */
  function DecodeFields(s: string): (r: Option<(seq<Field>, string)>)
    ensures r.Some? ==> |r.value.1| < |s|
    decreases |s|
  {
    match FindCrlf(s)
    case None => None
    case Some(i) =>
      if i == 0 then Some(([], s[2..]))
      else
        match Split(s[..i], ':')
        case None => None
        case Some((name, value)) =>
          match DecodeFields(s[i + 2..])
          case None => None
          case Some((fields, rest)) => Some(([(name, Trim(value))] + fields, rest))
  }

  function Lookup(fields: seq<Field>, name: string): Option<string> {
    if fields == [] then None
    else if Lower(fields[0].0) == name then Some(fields[0].1)
    else Lookup(fields[1..], name)
  }

  datatype Framing = Length(n: nat) | UntilClose | Unusable

  function BodyFraming(fields: seq<Field>): Framing {
    if Lookup(fields, "transfer-encoding").Some? then Unusable
    else
      match Lookup(fields, "content-length")
      case None => UntilClose
      case Some(v) =>
        match ParseDecimal(v)
        case None => Unusable
        case Some(n) => Length(n)
  }

  function DecodeBody(code: nat, message: string, fields: seq<Field>, s: string): Option<(Decoded, string)> {
    match BodyFraming(fields)
    case Unusable => None
    case UntilClose => Some((Decoded(code, message, fields, s), ""))
    case Length(n) => if n <= |s| then Some((Decoded(code, message, fields, s[..n]), s[n..])) else None
  }

  function DecodeStatusLine(line: string): Option<(nat, string)> {
    if |line| < 9 || line[..9] != "HTTP/1.1 " then None
    else
      match Split(line[9..], ' ')
      case None => None
      case Some((digits, message)) =>
        match ParseDecimal(digits)
        case None => None
        case Some(code) => Some((code, message))
  }

  /** Reads one response off the front of `s`, as a client does. */
  function Decode(s: string): (r: Option<(Decoded, string)>)
    ensures r.Some? ==> |r.value.1| < |s|
  {
    match FindCrlf(s)
    case None => None
    case Some(i) =>
      match DecodeStatusLine(s[..i])
      case None => None
      case Some((code, message)) =>
        match DecodeFields(s[i + 2..])
        case None => None
        case Some((fields, rest)) => DecodeBody(code, message, fields, rest)
  }

  function DecodeAll(s: string): Option<seq<Decoded>>
    decreases |s|
  {
    if s == "" then Some([])
    else
      match Decode(s)
      case None => None
      case Some((d, rest)) =>
        match DecodeAll(rest)
        case None => None
        case Some(ds) => Some([d] + ds)
  }

  // What a client should read

  function ListedFields(headers: map<string, string>, order: seq<string>): seq<Field>
    requires forall k | k in order :: k in headers
  {
    if order == [] then [] else [(order[0], Trim(headers[order[0]]))] + ListedFields(headers, order[1..])
  }

  function Fields(r: Response, order: seq<string>): seq<Field>
    requires Lists(r, order)
  {
    (if r.closeConnection then [("Connection", "close")]
     else [("Content-Length", Decimal(|r.body|)), ("Connection", "Keep-Alive")])
    + ListedFields(r.headers, order)
  }

  function Meaning(r: Response, order: seq<string>): Decoded
    requires Lists(r, order)
  {
    Decoded(Code(r.status), r.message, Fields(r, order), r.body)
  }

  /** Names and values that stay on their line, and no framing field set by the user. */
  ghost predicate CleanResponse(r: Response) {
    && NoCrlf(r.message)
    && forall k | k in r.headers ::
         && ':' !in k && NoCrlf(k) && NoCrlf(r.headers[k])
         && Lower(k) != "content-length" && Lower(k) != "transfer-encoding"
  }

  /** A field line is decoded to its name and trimmed value. */
  lemma FieldLineDecodes(name: string, value: string, more: string)
    requires ':' !in name && NoCrlf(name) && NoCrlf(value)
    ensures DecodeFields(name + ": " + value + CRLF + more)
         == match DecodeFields(more)
            case None => None
            case Some((fields, rest)) => Some(([(name, Trim(value))] + fields, rest))
  {
    var line := name + ": " + value;
    NoCrlfConcat(name, ": ");
    NoCrlfConcat(name + ": ", value);
    FindCrlfLine(line, more);
    var s := line + CRLF + more;
    assert s[..|line|] == line && s[|line| + 2..] == more;
    assert line == name + [':'] + (" " + value);
    SplitFirst(name, ':', " " + value);
    assert (" " + value)[1..] == value;
    assert TrimLeft(" " + value) == TrimLeft(value);
  }

  lemma {:induction false} ListedFieldsDecode(headers: map<string, string>, order: seq<string>, tail: string)
    requires forall k | k in order :: k in headers && ':' !in k && NoCrlf(k) && NoCrlf(headers[k])
    ensures DecodeFields(PrintHeaders(headers, order) + (CRLF + tail)) == Some((ListedFields(headers, order), tail))
    decreases |order|
  {
    if order == [] {
      assert PrintHeaders(headers, order) + (CRLF + tail) == "" + CRLF + tail;
      FindCrlfLine("", tail);
      assert (CRLF + tail)[2..] == tail;
    } else {
      PrintHeadersShape(headers, order, CRLF + tail);
      FieldLineDecodes(order[0], headers[order[0]], PrintHeaders(headers, order[1..]) + (CRLF + tail));
      ListedFieldsDecode(headers, order[1..], tail);
    }
  }

  lemma {:induction false} ListedFieldsDoNotFrame(headers: map<string, string>, order: seq<string>, name: string)
    requires forall k | k in order :: k in headers && Lower(k) != name
    ensures Lookup(ListedFields(headers, order), name) == None
    decreases |order|
  {
    if order == [] {
    } else {
      ListedFieldsDoNotFrame(headers, order[1..], name);
      assert ListedFields(headers, order)[1..] == ListedFields(headers, order[1..]);
    }
  }

  lemma FramingNames()
    ensures Lower("Content-Length") == "content-length"
    ensures Lower("Connection") == "connection"
  {
  }

  lemma LowerDiffers()
    ensures Lower("Content-Length") != "transfer-encoding"
    ensures Lower("Connection") != "transfer-encoding"
    ensures Lower("Connection") != "content-length"
  {
    assert |Lower("Content-Length")| == 14 && |Lower("Connection")| == 10;
  }

  lemma DecimalIsClean(n: nat)
    ensures NoCrlf(Decimal(n)) && ' ' !in Decimal(n) && Trim(Decimal(n)) == Decimal(n)
  {
    var d := Decimal(n);
    assert forall i | 0 <= i < |d| :: IsDigit(d[i]);
    forall i ensures !CrlfAt(d, i) {
      assert 0 <= i < |d| ==> d[i] != '\r';
    }
    assert TrimLeft(d) == d && TrimRight(d) == d;
  }

  lemma StatusLineDecodes(r: Response)
    requires CleanResponse(r)
    ensures NoCrlf(StatusLine(r))
    ensures DecodeStatusLine(StatusLine(r)) == Some((Code(r.status), r.message))
  {
    var d := Decimal(Code(r.status));
    DecimalIsClean(Code(r.status));
    DecimalLength(Code(r.status), 3);
    assert Pow10(3) == 10 * Pow10(2) == 100 * Pow10(1) == 1000 * Pow10(0);
    var prefix := "HTTP/1.1 ";
    NoCrlfConcat(prefix, d);
    NoCrlfConcat(prefix + d, " ");
    NoCrlfConcat(prefix + d + " ", r.message);
    var line := StatusLine(r);
    assert line == prefix + (d + [' '] + r.message);
    assert line[..9] == prefix && line[9..] == d + [' '] + r.message;
    SplitFirst(d, ' ', r.message);
    DecimalRoundTrip(Code(r.status));
  }

  lemma OneMoreDigit(n: nat, d: nat)
    requires n > 0 && d < 10
    ensures Decimal(10 * n + d) == Decimal(n) + [Digit(d)]
  {
  }

  /** The status lines, letter by letter. */
  lemma StatusLines(r: Response)
    ensures StatusLine(r) == (match r.status
                              case UnknownStatus => "HTTP/1.1 0 "
                              case Ok => "HTTP/1.1 200 "
                              case MovedPermanently => "HTTP/1.1 301 "
                              case BadRequest => "HTTP/1.1 400 "
                              case NotFound => "HTTP/1.1 404 ") + r.message
  {
    assert Decimal(0) == "0";
    OneMoreDigit(2, 0);
    OneMoreDigit(20, 0);
    OneMoreDigit(3, 0);
    OneMoreDigit(30, 1);
    OneMoreDigit(4, 0);
    OneMoreDigit(40, 0);
    OneMoreDigit(40, 4);
  }

  /** Two whole responses, letter by letter. */
  lemma ResponseExample()
    ensures Encode(Response(Ok, "OK", map["A" := "b"], false, "hi"), ["A"])
         == "HTTP/1.1 200 OK" + CRLF + ("Content-Length: 2" + CRLF + "Connection: Keep-Alive" + CRLF)
            + ("A" + ": " + "b" + CRLF + "") + CRLF + "hi"
    ensures Encode(Response(NotFound, "Not Found", map[], true, ""), [])
         == "HTTP/1.1 404 Not Found" + CRLF + ("Connection: close" + CRLF) + "" + CRLF + ""
  {
    hide StatusLine;
    var one, two := Response(Ok, "OK", map["A" := "b"], false, "hi"), Response(NotFound, "Not Found", map[], true, "");
    StatusLines(one);
    StatusLines(two);
    assert StatusLine(one) == "HTTP/1.1 200 OK" && StatusLine(two) == "HTTP/1.1 404 Not Found";
    assert Decimal(2) == "2";
    assert LengthField(one) == "Content-Length: 2" + CRLF;
  }

  /** A response is decoded line by line, down to the choice of framing. */
  lemma HeadDecodes(r: Response, framing: string)
    requires CleanResponse(r)
    ensures Decode(StatusLine(r) + CRLF + framing)
         == match DecodeFields(framing)
            case None => None
            case Some((fields, rest)) => DecodeBody(Code(r.status), r.message, fields, rest)
  {
    StatusLineDecodes(r);
    var line := StatusLine(r);
    FindCrlfLine(line, framing);
    var s := line + CRLF + framing;
    assert s[..|line|] == line && s[|line| + 2..] == framing;
  }

  lemma EncodeShape(r: Response, order: seq<string>, rest: string)
    requires Lists(r, order)
    ensures Encode(r, order) + rest
         == StatusLine(r) + CRLF + (FramingFields(r) + (PrintHeaders(r.headers, order) + (CRLF + (r.body + rest))))
  {
    hide StatusLine, FramingFields, PrintHeaders;
    var line, framing, headers := StatusLine(r) + CRLF, FramingFields(r), PrintHeaders(r.headers, order);
    Regroup(line + framing + headers + CRLF, r.body, rest);
    Regroup(line + framing + headers, CRLF, r.body + rest);
    Regroup(line + framing, headers, CRLF + (r.body + rest));
    Regroup(line, framing, headers + (CRLF + (r.body + rest)));
  }

  ghost predicate Prepared(r: Response, order: seq<string>) {
    CleanResponse(r) && Lists(r, order) && IsOrder(order, r.headers)
  }

  lemma UserFieldsDecode(r: Response, order: seq<string>, tail: string)
    requires Prepared(r, order)
    ensures DecodeFields(PrintHeaders(r.headers, order) + (CRLF + tail))
         == Some((ListedFields(r.headers, order), tail))
    ensures Lookup(ListedFields(r.headers, order), "content-length") == None
    ensures Lookup(ListedFields(r.headers, order), "transfer-encoding") == None
  {
    ListedFieldsDecode(r.headers, order, tail);
    ListedFieldsDoNotFrame(r.headers, order, "content-length");
    ListedFieldsDoNotFrame(r.headers, order, "transfer-encoding");
  }

  lemma ConnectionFieldDecodes(value: string, more: string)
    requires value == "close" || value == "Keep-Alive"
    ensures DecodeFields("Connection: " + value + CRLF + more)
         == match DecodeFields(more)
            case None => None
            case Some((fields, rest)) => Some(([("Connection", value)] + fields, rest))
  {
    assert "Connection" + ": " + value + CRLF + more == "Connection: " + value + CRLF + more;
    FieldLineDecodes("Connection", value, more);
    assert Trim(value) == value;
  }

  /** The longest body whose Content-Length line fits the scratch buffer. */
  const MAX_BODY: nat := 9_999_999_999_999

  lemma FitsScratch(r: Response)
    ensures |r.body| <= MAX_BODY <==> |Decimal(|r.body|)| <= 13
  {
    DecimalLength(|r.body|, 13);
    assert Pow10(13) == 10_000_000_000_000 by {
      assert Pow10(4) == 10_000;
      assert Pow10(8) == 100_000_000;
      assert Pow10(12) == 1_000_000_000_000;
    }
  }

  lemma KeepAliveFields(r: Response, order: seq<string>)
    requires !r.closeConnection && Lists(r, order)
    ensures Fields(r, order)
         == [("Content-Length", Decimal(|r.body|))] + ([("Connection", "Keep-Alive")] + ListedFields(r.headers, order))
  {
  }

  lemma FramingIsLength(r: Response, order: seq<string>)
    requires Prepared(r, order) && !r.closeConnection
    ensures BodyFraming(Fields(r, order)) == Length(|r.body|)
  {
    UserFieldsDecode(r, order, "");
    FramingNames();
    var fs := Fields(r, order);
    var user := ListedFields(r.headers, order);
    assert fs[0].0 == "Content-Length" && fs[1].0 == "Connection";
    assert fs[1..][1..] == user && fs[1..][0] == fs[1];
    LowerDiffers();
    assert Lookup(fs, "transfer-encoding") == Lookup(fs[1..], "transfer-encoding") == Lookup(user, "transfer-encoding");
    DecimalRoundTrip(|r.body|);
  }

  /** The framing fields, cut at the end of the first line. */
  lemma KeepAliveShape(r: Response, user: string, kept: string)
    requires !r.closeConnection && LengthField(r) == "Content-Length" + ": " + kept
    ensures FramingFields(r) + user
         == "Content-Length" + ": " + (kept + ("Connection: Keep-Alive" + CRLF + user))
  {
    var first := "Content-Length" + ": ";
    var second := "Connection: Keep-Alive" + CRLF;
    Regroup(first + kept, second, user);
    Regroup(first, kept, second + user);
  }

  lemma LengthFieldFits(r: Response)
    requires |r.body| <= MAX_BODY
    ensures LengthField(r) == "Content-Length" + ": " + (Decimal(|r.body|) + CRLF)
  {
    FitsScratch(r);
    var d := Decimal(|r.body|);
    assert "Content-Length: " + d + CRLF == "Content-Length" + ": " + (d + CRLF);
  }

  /** The fields of a keep-alive response whose length line fits the scratch buffer. */
  lemma KeepAliveHead(r: Response, order: seq<string>, tail: string)
    requires Prepared(r, order) && !r.closeConnection && |r.body| <= MAX_BODY
    ensures DecodeFields(FramingFields(r) + (PrintHeaders(r.headers, order) + (CRLF + tail)))
         == Some((Fields(r, order), tail))
  {
    hide Snprintf, DecodeFields, FindCrlf, LengthField, FramingFields, Split, Trim, Decimal;
    var d := Decimal(|r.body|);
    var user := PrintHeaders(r.headers, order) + (CRLF + tail);
    var second := "Connection: Keep-Alive" + CRLF + user;
    LengthFieldFits(r);
    KeepAliveShape(r, user, d + CRLF);
    Regroup("Content-Length" + ": ", d + CRLF, second);
    Regroup("Content-Length" + ": ", d, CRLF);
    DecimalIsClean(|r.body|);
    FieldLineDecodes("Content-Length", d, second);
    assert "Connection: " + "Keep-Alive" + CRLF + user == second;
    ConnectionFieldDecodes("Keep-Alive", user);
    UserFieldsDecode(r, order, tail);
    KeepAliveFields(r, order);
  }

  /** A keep-alive response with a body of at most 13 digits of length is read back whole, and
      the reader stops exactly at its end. */
  lemma KeepAliveDecodes(r: Response, order: seq<string>, rest: string)
    requires Prepared(r, order) && !r.closeConnection && |r.body| <= MAX_BODY
    ensures Decode(Encode(r, order) + rest) == Some((Meaning(r, order), rest))
  {
    EncodeShape(r, order, rest);
    var tail := r.body + rest;
    HeadDecodes(r, FramingFields(r) + (PrintHeaders(r.headers, order) + (CRLF + tail)));
    KeepAliveHead(r, order, tail);
    FramingIsLength(r, order);
    assert tail[..|r.body|] == r.body && tail[|r.body|..] == rest;
  }

  /** What is left of an over-long length line: its end, and so its CR LF, is lost. */
  lemma LostLineEnd(r: Response) returns (kept: string)
    requires |r.body| > MAX_BODY
    ensures LengthField(r) == "Content-Length" + ": " + kept
    ensures NoCrlf(kept) && kept != "" && IsDigit(kept[0])
  {
    FitsScratch(r);
    DecimalIsClean(|r.body|);
    var d := Decimal(|r.body|);
    var line := "Content-Length: " + d + CRLF;
    kept := (d + CRLF)[..15];
    assert line == "Content-Length: " + (d + CRLF);
    assert LengthField(r) == line[..31] == "Content-Length: " + kept;
    assert kept[0] == d[0];
    forall i ensures !CrlfAt(kept, i) {
      assert CrlfAt(kept, i) ==> IsDigit(d[i]);
    }
  }

  /** A value that starts with a digit but runs on into the next line is no length. */
  lemma RunOnLength(kept: string, user: seq<Field>)
    requires kept != "" && IsDigit(kept[0])
    ensures var value := kept + "Connection: Keep-Alive";
      Trim(value) == value && BodyFraming([("Content-Length", value)] + user) == Unusable
  {
    var value := kept + "Connection: Keep-Alive";
    assert value[|kept|] == 'C' && value[|value| - 1] == 'e';
    assert !IsDigit(value[|kept|]);
    assert TrimLeft(value) == value && TrimRight(value) == value;
    FramingNames();
    var fields := [("Content-Length", value)] + user;
    assert Lookup(fields, "content-length") == Some(value);
  }

  /** A longer body breaks the framing: the length and connection lines run together, and the
      reader finds no usable length. */
  lemma OverlongDoesNotDecode(r: Response, order: seq<string>, rest: string)
    requires Prepared(r, order) && !r.closeConnection && |r.body| > MAX_BODY
    ensures Decode(Encode(r, order) + rest) == None
  {
    hide Snprintf, DecodeFields, FindCrlf, LengthField, FramingFields, Split, BodyFraming, Encode, StatusLine, Trim;
    var kept := LostLineEnd(r);
    var tail := r.body + rest;
    var user := PrintHeaders(r.headers, order) + (CRLF + tail);
    var value := kept + "Connection: Keep-Alive";
    EncodeShape(r, order, rest);
    HeadDecodes(r, FramingFields(r) + user);
    KeepAliveShape(r, user, kept);
    assert "Content-Length" + ": " + (kept + ("Connection: Keep-Alive" + CRLF + user))
        == "Content-Length" + ": " + value + CRLF + user;
    NoCrlfConcat(kept, "Connection: Keep-Alive");
    FieldLineDecodes("Content-Length", value, user);
    UserFieldsDecode(r, order, tail);
    RunOnLength(kept, ListedFields(r.headers, order));
  }

  /** Framing holds exactly for bodies whose length has at most 13 digits. */
  lemma KeepAliveFramingExact(r: Response, order: seq<string>, rest: string)
    requires Prepared(r, order) && !r.closeConnection
    ensures Decode(Encode(r, order) + rest) == Some((Meaning(r, order), rest)) <==> |r.body| <= MAX_BODY
  {
    if |r.body| <= MAX_BODY {
      KeepAliveDecodes(r, order, rest);
    } else {
      OverlongDoesNotDecode(r, order, rest);
    }
  }

  /** The smallest failing response: 200 with a body of ten to the thirteenth bytes. */
  lemma OverlongExample(rest: string)
    ensures var r := Response(Ok, "OK", map[], false, seq(10_000_000_000_000, _ => 'x'));
      Decode(Encode(r, []) + rest) == None
  {
    var r := Response(Ok, "OK", map[], false, seq(10_000_000_000_000, _ => 'x'));
    assert NoCrlf(r.message) by {
      forall i ensures !CrlfAt("OK", i) { }
    }
    OverlongDoesNotDecode(r, [], rest);
  }

  /** A closing response is delimited by the end of the stream. */
  lemma CloseDecodes(r: Response, order: seq<string>)
    requires Prepared(r, order) && r.closeConnection
    ensures Decode(Encode(r, order)) == Some((Meaning(r, order), ""))
  {
    hide StatusLine, Encode, Decode, DecodeFields, FindCrlf, CleanResponse, IsOrder;
    assert Encode(r, order) + "" == Encode(r, order);
    EncodeShape(r, order, "");
    assert r.body + "" == r.body;
    var user := PrintHeaders(r.headers, order) + (CRLF + r.body);
    assert FramingFields(r) + user == "Connection: " + "close" + CRLF + user;
    HeadDecodes(r, FramingFields(r) + user);
    ConnectionFieldDecodes("close", user);
    UserFieldsDecode(r, order, r.body);
    LowerDiffers();
    assert Fields(r, order)[1..] == ListedFields(r.headers, order);
  }

  // Streams of responses

  function EncodeAll(rs: seq<(Response, seq<string>)>): string
    requires forall i | 0 <= i < |rs| :: Lists(rs[i].0, rs[i].1)
  {
    if rs == [] then "" else Encode(rs[0].0, rs[0].1) + EncodeAll(rs[1..])
  }

  function MeaningAll(rs: seq<(Response, seq<string>)>): seq<Decoded>
    requires forall i | 0 <= i < |rs| :: Lists(rs[i].0, rs[i].1)
  {
    if rs == [] then [] else [Meaning(rs[0].0, rs[0].1)] + MeaningAll(rs[1..])
  }

  lemma EncodeNonEmpty(r: Response, order: seq<string>)
    requires Lists(r, order)
    ensures Encode(r, order) != ""
  {
    EncodeShape(r, order, "");
    assert |Encode(r, order) + ""| >= |CRLF|;
  }

  /** Any number of responses sent on one connection, of which only the last may close it, are
      read back as the same responses in the same order. */
  lemma {:induction false} StreamDecodes(rs: seq<(Response, seq<string>)>)
    requires forall i | 0 <= i < |rs| :: Lists(rs[i].0, rs[i].1) && Prepared(rs[i].0, rs[i].1)
    requires forall i | 0 <= i < |rs| :: if rs[i].0.closeConnection then i == |rs| - 1 else |rs[i].0.body| <= MAX_BODY
    ensures DecodeAll(EncodeAll(rs)) == Some(MeaningAll(rs))
    decreases |rs|
  {
    hide Encode, Decode, Meaning, CleanResponse, IsOrder;
    if rs == [] {
    } else {
      var (r, order) := rs[0];
      var more := EncodeAll(rs[1..]);
      EncodeNonEmpty(r, order);
      if r.closeConnection {
        assert rs[1..] == [];
        assert Encode(r, order) + more == Encode(r, order);
        CloseDecodes(r, order);
      } else {
        KeepAliveDecodes(r, order, more);
        StreamDecodes(rs[1..]);
      }
    }
  }
}

module HttpResponses {
  import opened Text
  import opened Buffers
  import opened HttpSpec
  import opened ResponseSpec

  class HttpResponse {
    var headers: map<string, string>
    var statusCode: StatusCode
    var statusMessage: string
    var closeConnection: bool
    var body: string

    function View(): Response
      reads this
    {
      Response(statusCode, statusMessage, headers, closeConnection, body)
    }

    constructor (close: bool)
      ensures View() == Response(UnknownStatus, "", map[], close, "")
    {
      headers, statusCode, statusMessage, closeConnection, body := map[], UnknownStatus, "", close, "";
    }

    /** One `append` of a longer text, of which `before` is already there. */
    static method Put(output: Buffer, text: string, ghost base: string, ghost before: string)
      requires output.Valid() && output.Contents() == base + before
      modifies output, output.data
      ensures output.Valid() && (output.data == old(output.data) || fresh(output.data))
      ensures output.Contents() == base + (before + text)
    {
      output.Append(text);
      Regroup(base, before, text);
    }

    method AppendStatusLine(output: Buffer, ghost base: string)
      requires output.Valid() && output.Contents() == base
      modifies output, output.data
      ensures output.Valid() && (output.data == old(output.data) || fresh(output.data))
      ensures output.Contents() == base + (StatusLine(View()) + CRLF)
    {
      hide Snprintf, Decimal;
      var status := Snprintf("HTTP/1.1 " + Decimal(Code(statusCode)) + " ");
      assert base + "" == base && "" + status == status;
      Put(output, status, base, "");
      Put(output, statusMessage, base, status);
      Put(output, CRLF, base, status + statusMessage);
    }

    method AppendFraming(output: Buffer, ghost base: string, ghost line: string)
      requires output.Valid() && output.Contents() == base + line
      modifies output, output.data
      ensures output.Valid() && (output.data == old(output.data) || fresh(output.data))
      ensures output.Contents() == base + (line + FramingFields(View()))
    {
      hide Snprintf, Decimal;
      if closeConnection {
        Put(output, "Connection: close" + CRLF, base, line);
      } else {
        var length := Snprintf("Content-Length: " + Decimal(|body|) + CRLF);
        Put(output, length, base, line);
        Put(output, "Connection: Keep-Alive" + CRLF, base, line + length);
        KeepAliveAppended(line, length);
      }
    }

    method AppendHeader(output: Buffer, k: string, ghost base: string, ghost before: string)
      requires k in headers && output.Valid() && output.Contents() == base + before
      modifies output, output.data
      ensures output.Valid() && (output.data == old(output.data) || fresh(output.data))
      ensures output.Contents() == base + (before + (k + ": " + headers[k] + CRLF))
    {
      Put(output, k, base, before);
      Put(output, ": ", base, before + k);
      Put(output, headers[k], base, before + k + ": ");
      Put(output, CRLF, base, before + k + ": " + headers[k]);
      HeaderAppended(before, k, headers[k]);
    }

    method AppendHeaders(output: Buffer, ghost base: string, ghost head: string) returns (ghost order: seq<string>)
      requires output.Valid() && output.Contents() == base + head
      modifies output, output.data
      ensures output.Valid() && (output.data == old(output.data) || fresh(output.data))
      ensures Lists(View(), order) && IsOrder(order, headers)
      ensures output.Contents() == base + (head + PrintHeaders(headers, order))
    {
      var todo := headers.Keys;
      order := [];
      assert head + "" == head;
      while todo != {}
        invariant todo <= headers.Keys
        invariant output.Valid() && (output.data == old(output.data) || fresh(output.data))
        invariant forall k :: k in order <==> k in headers && k !in todo
        invariant forall i, j | 0 <= i < j < |order| :: order[i] != order[j]
        invariant output.Contents() == base + (head + PrintHeaders(headers, order))
        decreases todo
      {
        var k :| k in todo;
        AppendHeader(output, k, base, head + PrintHeaders(headers, order));
        PrintHeadersSnoc(headers, order, k);
        HeadersAppended(head, PrintHeaders(headers, order), k + ": " + headers[k] + CRLF);
        order := order + [k];
        todo := todo - {k};
      }
    }

    /** Prints the response at the end of `output`.  The map is walked in some order, which is
        returned for the specification. */
    method AppendToBuffer(output: Buffer) returns (ghost order: seq<string>)
      requires output.Valid()
      modifies output, output.data
      ensures output.Valid()
      ensures Lists(View(), order) && IsOrder(order, headers)
      ensures output.Contents() == old(output.Contents()) + Encode(View(), order)
    {
      hide StatusLine, FramingFields, PrintHeaders, IsOrder;
      ghost var base := output.Contents();
      ghost var line := StatusLine(View()) + CRLF;
      AppendStatusLine(output, base);
      AppendFraming(output, base, line);
      ghost var head := line + FramingFields(View());
      order := AppendHeaders(output, base, head);
      Put(output, CRLF, base, head + PrintHeaders(headers, order));
      Put(output, body, base, head + PrintHeaders(headers, order) + CRLF);
    }
  }

  lemma HeaderAppended(before: string, k: string, v: string)
    ensures before + k + ": " + v + CRLF == before + (k + ": " + v + CRLF)
  {
  }

  lemma HeadersAppended(head: string, printed: string, more: string)
    ensures head + printed + more == head + (printed + more)
  {
  }

  lemma KeepAliveAppended(line: string, length: string)
    ensures line + length + ("Connection: Keep-Alive" + CRLF)
         == line + (length + "Connection: Keep-Alive" + CRLF)
  {
  }

  lemma {:induction false} PrintHeadersSnoc(headers: map<string, string>, order: seq<string>, k: string)
    requires k in headers && forall x | x in order :: x in headers
    ensures PrintHeaders(headers, order + [k])
         == PrintHeaders(headers, order) + (k + ": " + headers[k] + CRLF)
    decreases |order|
  {
    if order == [] {
      assert PrintHeaders(headers, [k][1..]) == "";
    } else {
      PrintHeadersSnoc(headers, order[1..], k);
      assert (order + [k])[1..] == order[1..] + [k];
    }
  }
}
