/** The incremental request parser of src/http/HttpContext.cpp, its independence of how the
    bytes arrive, and the round trip with a printer. */
module HttpSpec {
  import opened Text
  import opened HttpRequests

  datatype ParseState = ExpectRequestLine | ExpectHeaders | ExpectBody | GotAll

  /** What a call leaves behind: its verdict, the parser and the unread bytes. */
  datatype Outcome = Outcome(ok: bool, state: ParseState, request: Request, rest: string) {
    /** The caller hands further bytes to the parser only in this case. */
    predicate WantsMore() { ok && (state.ExpectRequestLine? || state.ExpectHeaders?) }
  }

  function VersionString(v: Version): string {
    match v
    case Http11 => "HTTP/1.1"
    case Http10 => "HTTP/1.0"
    case UnknownVersion => ""
  }

  function VersionOf(s: string): (v: Version)
    ensures v != UnknownVersion ==> VersionString(v) == s
  {
    if s == "HTTP/1.1" then Http11 else if s == "HTTP/1.0" then Http10 else UnknownVersion
  }

  lemma VersionRoundTrip(v: Version)
    requires v != UnknownVersion
    ensures VersionOf(VersionString(v)) == v
  {
    assert VersionString(v)[7] == if v.Http11? then '1' else '0';
  }

  lemma VersionByLastByte(v: string)
    ensures VersionOf(v) == if |v| != 8 || v[..7] != "HTTP/1." then UnknownVersion
                            else if v[7] == '1' then Http11
                            else if v[7] == '0' then Http10
                            else UnknownVersion
  {
    if |v| == 8 && v[..7] == "HTTP/1." {
      assert v == v[..7] + [v[7]];
    }
  }

  /** The request with the path and query of a request target. */
  function WithTarget(r: Request, target: string): Request {
    match Split(target, '?')
    case Some((path, query)) => r.(path := path, query := ['?'] + query)
    case None => r.(path := target)
  }

  /** The request after a request line; a rejected line may still have changed it. */
  function RequestLine(r: Request, line: string): (bool, Request) {
    match Split(line, ' ')
    case None => (false, r)
    case Some((name, rest)) =>
      var r1 := r.(verb := MethodOf(name));
      var parts: Option<(string, string)> :=
        if r1.verb == InvalidMethod then None else Split(rest, ' ');
      match parts
      case None => (false, r1)
      case Some((target, v)) =>
        var r2 := WithTarget(r1, target);
        if VersionOf(v) == UnknownVersion then (false, r2) else (true, r2.(version := VersionOf(v)))
  }

  function HeaderLine(r: Request, line: string): Request
    requires ':' in line
  {
    var (field, value) := Split(line, ':').value;
    r.(headers := r.headers[field := Trim(value)])
  }

  /** What one round of the parsing loop does with the bytes it has. */
  datatype Step = Wait | Reject(request: Request) | Advance(request: Request, rest: string)
                | Finish(request: Request, rest: string)

  function LineStep(state: ParseState, r: Request, s: string): (t: Step)
    ensures t.Advance? || t.Finish? ==> |t.rest| < |s|
    ensures t.Finish? ==> !state.ExpectRequestLine?
  {
    match FindCrlf(s)
    case None => Wait
    case Some(i) =>
      var line, rest := s[..i], s[i + 2..];
      if state.ExpectRequestLine? then
        var (ok, r') := RequestLine(r, line);
        if ok then Advance(r', rest) else Reject(r')
      else if ':' in line then Advance(HeaderLine(r, line), rest)
      else Finish(r, rest)
  }

  function Parse(state: ParseState, r: Request, s: string): Outcome
    requires state.ExpectRequestLine? || state.ExpectHeaders?
    decreases |s|
  {
    match LineStep(state, r, s)
    case Wait => Outcome(true, state, r, s)
    case Reject(r') => Outcome(false, state, r', s)
    case Advance(r', rest) => Parse(ExpectHeaders, r', rest)
    case Finish(r', rest) => Outcome(true, GotAll, r', rest)
  }

  // Chunking

  /** More bytes arrive: a waiting parser continues, a finished or failed one leaves them. */
  function More(o: Outcome, chunk: string): Outcome {
    if o.WantsMore() then Parse(o.state, o.request, o.rest + chunk) else o.(rest := o.rest + chunk)
  }

  function Feed(o: Outcome, chunks: seq<string>): Outcome
    decreases |chunks|
  {
    if chunks == [] then o else Feed(More(o, chunks[0]), chunks[1..])
  }

  function Concat(chunks: seq<string>): string {
    if chunks == [] then "" else chunks[0] + Concat(chunks[1..])
  }

  /** Further bytes do not change what a round does with a complete line. */
  lemma LineStepExtends(state: ParseState, r: Request, a: string, b: string)
    requires !LineStep(state, r, a).Wait?
    ensures var t := LineStep(state, r, a);
      LineStep(state, r, a + b) == if t.Reject? then t else t.(rest := t.rest + b)
  {
    var i := FindCrlf(a).value;
    FindCrlfPrefix(a, b);
    assert (a + b)[..i] == a[..i] && (a + b)[i + 2..] == a[i + 2..] + b;
  }

  /** Stopping after `a` and resuming with `b` is parsing `a + b` in one go. */
  lemma {:induction false} ParseResumes(state: ParseState, r: Request, a: string, b: string)
    requires state.ExpectRequestLine? || state.ExpectHeaders?
    ensures More(Parse(state, r, a), b) == Parse(state, r, a + b)
    decreases |a|
  {
    match LineStep(state, r, a)
    case Wait =>
    case Reject(_) => LineStepExtends(state, r, a, b);
    case Finish(_, _) => LineStepExtends(state, r, a, b);
    case Advance(r', rest) =>
      LineStepExtends(state, r, a, b);
      ParseResumes(ExpectHeaders, r', rest, b);
  }

  lemma MoreTwice(o: Outcome, a: string, b: string)
    ensures More(More(o, a), b) == More(o, a + b)
  {
    hide Parse;
    Regroup(o.rest, a, b);
    if o.WantsMore() { ParseResumes(o.state, o.request, o.rest + a, b); }
  }

  /** Nothing more can be done without further bytes; true of a fresh parser and after every
      call (`MoreTwice`). */
  ghost predicate Settled(o: Outcome) { More(o, "") == o }

  lemma MoreSettles(o: Outcome, a: string)
    ensures Settled(More(o, a))
  {
    MoreTwice(o, a, "");
    assert a + "" == a;
  }

  /** The result does not depend on how the bytes are split into chunks: feeding the chunks
      one by one is feeding their concatenation. */
  lemma {:induction false} ChunkingIndependence(o: Outcome, chunks: seq<string>)
    requires Settled(o)
    ensures Feed(o, chunks) == More(o, Concat(chunks))
    decreases |chunks|
  {
    hide More;
    if chunks == [] {
    } else {
      var o' := More(o, chunks[0]);
      MoreSettles(o, chunks[0]);
      ChunkingIndependence(o', chunks[1..]);
      MoreTwice(o, chunks[0], Concat(chunks[1..]));
    }
  }

  const START: Outcome := Outcome(true, ExpectRequestLine, FRESH, "")

  /** Two ways of cutting the same bytes leave the same verdict, state, request and rest. */
  lemma SameBytesSameResult(xs: seq<string>, ys: seq<string>)
    requires Concat(xs) == Concat(ys)
    ensures Feed(START, xs) == Feed(START, ys) == Parse(ExpectRequestLine, FRESH, Concat(xs))
  {
    assert Settled(START);
    hide Feed, Parse;
    ChunkingIndependence(START, xs);
    ChunkingIndependence(START, ys);
    assert "" + Concat(xs) == Concat(xs);
  }

  // Printing

  /** A request line in the form of section 3 of RFC 9112. */
  function PrintRequestLine(m: Method, target: string, v: Version): string {
    MethodString(m) + " " + target + " " + VersionString(v)
  }

  function PrintHeaders(headers: map<string, string>, order: seq<string>): string
    requires forall k | k in order :: k in headers
  {
    if order == [] then ""
    else order[0] + ": " + headers[order[0]] + CRLF + PrintHeaders(headers, order[1..])
  }

  function Print(r: Request, order: seq<string>): string
    requires forall k | k in order :: k in r.headers
  {
    PrintRequestLine(r.verb, r.path + r.query, r.version) + CRLF
    + PrintHeaders(r.headers, order) + CRLF
  }

  ghost predicate CleanHeader(field: string, value: string) {
    ':' !in field && NoCrlf(field) && NoCrlf(value) && Trimmed(value)
  }

  ghost predicate CleanRequest(r: Request) {
    && r.verb != InvalidMethod && r.version != UnknownVersion
    && ' ' !in r.path && '?' !in r.path && NoCrlf(r.path)
    && ' ' !in r.query && NoCrlf(r.query) && (r.query == "" || r.query[0] == '?')
    && forall k | k in r.headers :: CleanHeader(k, r.headers[k])
  }

  /** `order` lists every header once. */
  ghost predicate IsOrder(order: seq<string>, headers: map<string, string>) {
    && (forall k :: k in order <==> k in headers)
    && forall i, j | 0 <= i < j < |order| :: order[i] != order[j]
  }

  /** A printed line splits at its two spaces. */
  lemma RequestLineSplits(m: Method, target: string, v: Version)
    requires m != InvalidMethod && ' ' !in target
    ensures Split(PrintRequestLine(m, target, v), ' ') == Some((MethodString(m), target + " " + VersionString(v)))
    ensures Split(target + " " + VersionString(v), ' ') == Some((target, VersionString(v)))
  {
    MethodRoundTrip(m);
    var rest := target + [' '] + VersionString(v);
    assert PrintRequestLine(m, target, v) == MethodString(m) + [' '] + rest;
    SplitFirst(MethodString(m), ' ', rest);
    SplitFirst(target, ' ', VersionString(v));
  }

  ghost predicate Prints(line: string, m: Method, target: string, v: Version) {
    m != InvalidMethod && v != UnknownVersion && ' ' !in target && line == PrintRequestLine(m, target, v)
  }

  lemma AcceptedIsPrinted(r: Request, line: string)
    requires RequestLine(r, line).0
    ensures var r' := RequestLine(r, line).1;
      exists target :: Prints(line, r'.verb, target, r'.version)
  {
    hide RequestLine, Split, MethodOf, VersionOf;
    var name, target, v := AcceptedParts(r, line);
    var r' := RequestLine(r, line).1;
    assert line == name + " " + target + " " + v == PrintRequestLine(r'.verb, target, r'.version);
    assert Prints(line, r'.verb, target, r'.version);
  }

  /** The three words of an accepted line. */
  lemma AcceptedParts(r: Request, line: string) returns (name: string, target: string, v: string)
    requires RequestLine(r, line).0
    ensures Split(line, ' ') == Some((name, target + [' '] + v)) && ' ' !in target
    ensures var r' := RequestLine(r, line).1;
      r'.verb == MethodOf(name) != InvalidMethod && r'.version == VersionOf(v) != UnknownVersion
  {
    hide Split, MethodOf, VersionOf;
    var (first, rest) := Split(line, ' ').value;
    name, target, v := first, Split(rest, ' ').value.0, Split(rest, ' ').value.1;
  }

  lemma PrintedIsAccepted(r: Request, line: string, m: Method, target: string, v: Version)
    requires Prints(line, m, target, v)
    ensures var (ok, r') := RequestLine(r, line);
      ok && r' == WithTarget(r.(verb := m), target).(version := v)
  {
    RequestLineSplits(m, target, v);
    MethodRoundTrip(m);
    VersionRoundTrip(v);
  }

  /** The accepted request lines are exactly the printed ones. */
  lemma RequestLineAccepts(r: Request, line: string)
    ensures RequestLine(r, line).0 <==> exists m, target, v :: Prints(line, m, target, v)
  {
    if RequestLine(r, line).0 { AcceptedIsPrinted(r, line); }
    forall m, target, v | Prints(line, m, target, v) ensures RequestLine(r, line).0 {
      PrintedIsAccepted(r, line, m, target, v);
    }
  }

  /** What a rejected request line leaves of the request: the words before the fault are taken. */
  lemma RejectedLeaves(r: Request, name: string, target: string, version: string)
    requires ' ' !in name && ' ' !in target && VersionOf(version) == UnknownVersion
    ensures RequestLine(r, name) == (false, r)
    ensures MethodOf(name) == InvalidMethod ==>
      RequestLine(r, name + [' '] + target) == (false, r.(verb := InvalidMethod))
    ensures MethodOf(name) != InvalidMethod ==>
      && RequestLine(r, name + [' '] + target) == (false, r.(verb := MethodOf(name)))
      && RequestLine(r, name + [' '] + (target + [' '] + version))
         == (false, WithTarget(r.(verb := MethodOf(name)), target))
  {
    hide WithTarget, MethodOf, VersionOf, Split;
    SplitFirst(name, ' ', target);
    SplitFirst(name, ' ', target + [' '] + version);
    SplitFirst(target, ' ', version);
    NoSplit(name);
    NoSplit(target);
  }

  lemma NoSplit(s: string)
    requires ' ' !in s
    ensures Split(s, ' ') == None
  {
    hide Split;
    assert Split(s, ' ').Some? ==> ' ' in s;
  }

  lemma RequestLineRoundTrip(r: Request)
    requires CleanRequest(r)
    ensures RequestLine(FRESH, PrintRequestLine(r.verb, r.path + r.query, r.version))
         == (true, r.(headers := map[]))
  {
    hide Split, VersionOf, MethodOf, WithTarget;
    TargetRoundTrip(r.(path := "", query := "", headers := map[], version := UnknownVersion), r);
    RequestLineSplits(r.verb, r.path + r.query, r.version);
    MethodRoundTrip(r.verb);
    VersionRoundTrip(r.version);
  }

  /** Path and query of a target: up to the first question mark, and from it on; without one the query stays. */
  lemma TargetExactly(r: Request, path: string, more: string)
    requires '?' !in path
    ensures WithTarget(r, path) == r.(path := path)
    ensures WithTarget(r, path + ['?'] + more) == r.(path := path, query := ['?'] + more)
  {
    SplitFirst(path, '?', more);
  }

  lemma TargetRoundTrip(r0: Request, r: Request)
    requires CleanRequest(r) && r0.query == ""
    ensures WithTarget(r0, r.path + r.query) == r0.(path := r.path, query := r.query)
  {
    var target := r.path + r.query;
    if r.query == "" {
      assert target == r.path;
    } else {
      assert r.query == ['?'] + r.query[1..];
      assert target == r.path + ['?'] + r.query[1..];
      SplitFirst(r.path, '?', r.query[1..]);
    }
  }

  lemma RequestLineNoCrlf(r: Request)
    requires CleanRequest(r)
    ensures NoCrlf(PrintRequestLine(r.verb, r.path + r.query, r.version))
  {
    var m, v := MethodString(r.verb), VersionString(r.version);
    NoCrlfConcat(r.path, r.query);
    NoCrlfConcat(m, " ");
    NoCrlfConcat(m + " ", r.path + r.query);
    NoCrlfConcat(m + " " + (r.path + r.query), " ");
    NoCrlfConcat(m + " " + (r.path + r.query) + " ", v);
  }

  lemma TrimOfPrinted(value: string)
    requires Trimmed(value)
    ensures Trim(" " + value) == value
  {
    assert (" " + value)[1..] == value;
    assert TrimLeft(value) == value && TrimRight(value) == value;
    assert TrimLeft(" " + value) == TrimLeft(value);
  }

  lemma HeaderLineRoundTrip(r: Request, field: string, value: string)
    requires CleanHeader(field, value)
    ensures var line := field + ": " + value;
      NoCrlf(line) && ':' in line && HeaderLine(r, line) == r.(headers := r.headers[field := value])
  {
    var line := field + ": " + value;
    NoCrlfConcat(field, ": ");
    NoCrlfConcat(field + ": ", value);
    assert line == field + [':'] + (" " + value);
    SplitFirst(field, ':', " " + value);
    assert line[|field|] == ':';
    TrimOfPrinted(value);
  }

  /** `headers` with the entries listed in `order` stored one by one. */
  function Stored(acc: map<string, string>, headers: map<string, string>, order: seq<string>): map<string, string>
    requires forall k | k in order :: k in headers
    decreases |order|
  {
    if order == [] then acc
    else Stored(acc[order[0] := headers[order[0]]], headers, order[1..])
  }

  lemma {:induction false} StoredGives(acc: map<string, string>, headers: map<string, string>, order: seq<string>)
    requires forall k | k in order :: k in headers
    ensures Stored(acc, headers, order).Keys == acc.Keys + set k | k in order
    ensures forall k | k in order :: Stored(acc, headers, order)[k] == headers[k]
    ensures forall k | k in acc && k !in order :: Stored(acc, headers, order)[k] == acc[k]
    decreases |order|
  {
    if order == [] {
    } else {
      StoredGives(acc[order[0] := headers[order[0]]], headers, order[1..]);
    }
  }

  /** A line without CR LF is what the next round takes. */
  lemma LineStepTakes(state: ParseState, r: Request, line: string, more: string)
    requires NoCrlf(line)
    ensures LineStep(state, r, line + CRLF + more)
         == if state.ExpectRequestLine? then
              var (ok, r') := RequestLine(r, line);
              if ok then Advance(r', more) else Reject(r')
            else if ':' in line then Advance(HeaderLine(r, line), more)
            else Finish(r, more)
  {
    var s := line + CRLF + more;
    FindCrlfLine(line, more);
    assert s[..|line|] == line && s[|line| + 2..] == more;
  }

  lemma PrintHeadersShape(headers: map<string, string>, order: seq<string>, tail: string)
    requires order != [] && forall k | k in order :: k in headers
    ensures PrintHeaders(headers, order) + tail
         == order[0] + ": " + headers[order[0]] + CRLF + (PrintHeaders(headers, order[1..]) + tail)
  {
  }

  lemma {:induction false} HeadersRoundTrip(r: Request, headers: map<string, string>, order: seq<string>, tail: string)
    requires forall k | k in order :: k in headers && CleanHeader(k, headers[k])
    ensures Parse(ExpectHeaders, r, PrintHeaders(headers, order) + CRLF + tail)
         == Outcome(true, GotAll, r.(headers := Stored(r.headers, headers, order)), tail)
    decreases |order|
  {
    hide Parse, HeaderLine;
    var s := PrintHeaders(headers, order) + CRLF + tail;
    if order == [] {
      assert s == "" + CRLF + tail;
      ParseTakes(r, "", tail);
    } else {
      var line := order[0] + ": " + headers[order[0]];
      var more := PrintHeaders(headers, order[1..]) + CRLF + tail;
      HeaderLineRoundTrip(r, order[0], headers[order[0]]);
      PrintHeadersShape(headers, order, CRLF + tail);
      assert s == PrintHeaders(headers, order) + (CRLF + tail);
      assert more == PrintHeaders(headers, order[1..]) + (CRLF + tail);
      ParseTakes(r, line, more);
      HeadersRoundTrip(HeaderLine(r, line), headers, order[1..], tail);
    }
  }

  lemma PrintShape(r: Request, order: seq<string>, tail: string)
    requires forall k | k in order :: k in r.headers
    ensures Print(r, order) + tail
         == PrintRequestLine(r.verb, r.path + r.query, r.version) + CRLF
            + (PrintHeaders(r.headers, order) + CRLF + tail)
  {
    var head := PrintRequestLine(r.verb, r.path + r.query, r.version) + CRLF;
    var headers := PrintHeaders(r.headers, order);
    Regroup(head + headers, CRLF, tail);
    Regroup(head, headers, CRLF + tail);
    Regroup(headers, CRLF, tail);
  }

  lemma FirstLineRoundTrip(r: Request, more: string)
    requires CleanRequest(r)
    ensures Parse(ExpectRequestLine, FRESH,
                  PrintRequestLine(r.verb, r.path + r.query, r.version) + CRLF + more)
         == Parse(ExpectHeaders, r.(headers := map[]), more)
  {
    RequestLineNoCrlf(r);
    RequestLineRoundTrip(r);
    LineStepTakes(ExpectRequestLine, FRESH, PrintRequestLine(r.verb, r.path + r.query, r.version), more);
  }

  lemma StoredAll(headers: map<string, string>, order: seq<string>)
    requires IsOrder(order, headers)
    ensures Stored(map[], headers, order) == headers
  {
    StoredGives(map[], headers, order);
  }

  /** A printed clean request, in any header order and followed by anything, is parsed back
      to itself and leaves exactly what followed. */
  lemma RequestRoundTrip(r: Request, order: seq<string>, tail: string)
    requires CleanRequest(r) && IsOrder(order, r.headers)
    ensures Parse(ExpectRequestLine, FRESH, Print(r, order) + tail) == Outcome(true, GotAll, r, tail)
  {
    var more := PrintHeaders(r.headers, order) + CRLF + tail;
    PrintShape(r, order, tail);
    FirstLineRoundTrip(r, more);
    StoredAll(r.headers, order);
    HeadersRoundTrip(r.(headers := map[]), r.headers, order, tail);
  }

  /** The same through any chunking of the printed bytes. */
  lemma RequestRoundTripInChunks(r: Request, order: seq<string>, tail: string, chunks: seq<string>)
    requires CleanRequest(r) && IsOrder(order, r.headers)
    requires Concat(chunks) == Print(r, order) + tail
    ensures Feed(START, chunks) == Outcome(true, GotAll, r, tail)
  {
    RequestRoundTrip(r, order, tail);
    SameBytesSameResult(chunks, chunks);
  }

  // Field lines as they may come: any white space around the value, and repeated fields

  datatype FieldLine = FieldLine(field: string, lead: string, value: string, trail: string) {
    function Line(): string { field + ":" + lead + value + trail }

    ghost predicate Valid() {
      ':' !in field && White(lead) && Bare(value) && White(trail) && NoCrlf(Line())
    }
  }

  /** A field line stores its value without the white space around it, under its field as it is, in place of any
      earlier value, and changes nothing else. */
  lemma HeaderLineStores(r: Request, f: FieldLine)
    requires f.Valid()
    ensures ':' in f.Line() && HeaderLine(r, f.Line()) == r.(headers := r.headers[f.field := f.value])
  {
    var after := f.lead + f.value + f.trail;
    assert f.Line() == f.field + [':'] + after;
    assert f.Line()[|f.field|] == ':';
    hide Split, Trim;
    SplitFirst(f.field, ':', after);
    TrimExactly(f.lead, f.value, f.trail);
  }

  /** Every line with a colon is such a line. */
  lemma EveryFieldLine(line: string) returns (f: FieldLine)
    requires NoCrlf(line) && ':' in line
    ensures f.Valid() && f.Line() == line
  {
    hide Split, Trim, NoCrlf;
    var (field, after) := Split(line, ':').value;
    var lead, trail := TrimSplits(after);
    f := FieldLine(field, lead, Trim(after), trail);
    Regroup(field + ":", lead + Trim(after), trail);
    Regroup(field + ":", lead, Trim(after));
    SpacesAreWhite(lead);
    SpacesAreWhite(trail);
    if Trim(after) != "" {
      SpaceExactly(Trim(after)[0]);
      SpaceExactly(Trim(after)[|Trim(after)| - 1]);
    }
  }

  lemma SpacesAreWhite(s: string)
    requires AllSpace(s)
    ensures White(s)
  {
    forall i | 0 <= i < |s| ensures s[i] in WHITE_SPACE { SpaceExactly(s[i]); }
  }

  function FieldLines(fs: seq<FieldLine>): string {
    if fs == [] then "" else fs[0].Line() + CRLF + FieldLines(fs[1..])
  }

  /** What a list of field lines stores: for a repeated field, the last one. */
  function Fields(acc: map<string, string>, fs: seq<FieldLine>): map<string, string>
    decreases |fs|
  {
    if fs == [] then acc else Fields(acc[fs[0].field := fs[0].value], fs[1..])
  }

  /** Any field lines, ended by a blank line and followed by anything, are stored one after another. */
  lemma {:induction false} FieldLinesParse(r: Request, fs: seq<FieldLine>, tail: string)
    requires forall f | f in fs :: f.Valid()
    ensures Parse(ExpectHeaders, r, FieldLines(fs) + CRLF + tail)
         == Outcome(true, GotAll, r.(headers := Fields(r.headers, fs)), tail)
    decreases |fs|
  {
    hide Parse, HeaderLine;
    if fs == [] {
      assert FieldLines(fs) + CRLF + tail == "" + CRLF + tail;
      ParseTakes(r, "", tail);
    } else {
      var line, more := fs[0].Line(), FieldLines(fs[1..]) + CRLF + tail;
      Regroup(line + CRLF, FieldLines(fs[1..]), CRLF);
      Regroup(line + CRLF, FieldLines(fs[1..]) + CRLF, tail);
      HeaderLineStores(r, fs[0]);
      ParseTakes(r, line, more);
      FieldLinesParse(HeaderLine(r, line), fs[1..], tail);
    }
  }

  /** A whole request, letter by letter. */
  lemma RequestExample()
    ensures Parse(ExpectRequestLine, FRESH, "GET /a?b HTTP/1.1" + CRLF + ("Host:x" + CRLF + CRLF))
         == Outcome(true, GotAll, Request(Get, Http11, "/a", "?b", map["Host" := "x"]), "")
  {
    hide Parse, NoCrlf, FieldLines, CleanRequest, PrintRequestLine;
    var r, host := Request(Get, Http11, "/a", "?b", map[]), FieldLine("Host", "", "x", "");
    ExampleLine(r);
    FirstLineRoundTrip(r, "Host:x" + CRLF + CRLF);
    ExampleField(host);
    FieldLinesParse(r, [host], "");
  }

  lemma ExampleLine(r: Request)
    requires r == Request(Get, Http11, "/a", "?b", map[])
    ensures CleanRequest(r) && PrintRequestLine(r.verb, r.path + r.query, r.version) == "GET /a?b HTTP/1.1"
  {
    hide NoCrlf;
    ShortLine("/a");
    ShortLine("?b");
  }

  lemma ExampleField(host: FieldLine)
    requires host == FieldLine("Host", "", "x", "")
    ensures host.Valid() && FieldLines([host]) + CRLF + "" == "Host:x" + CRLF + CRLF
    ensures Fields(map[], [host]) == map["Host" := "x"]
  {
    hide NoCrlf;
    ShortLine(host.Line());
    assert host.Line() == "Host:x" && FieldLines([host]) == "Host:x" + CRLF + "";
  }

  lemma VersionNames()
    ensures VersionOf("HTTP/1.1") == Http11 && VersionOf("HTTP/1.0") == Http10
  {
    VersionRoundTrip(Http11);
    VersionRoundTrip(Http10);
  }

  // Where the parser is laxer than section 5 of RFC 9112

  /** What a stricter parser asks of a field line: a colon, or also a token before it. */
  datatype Rule = ColonOnly | TokenName

  /** A token character of section 5.6.2 of RFC 9110. */
  predicate IsTokenChar(c: char) {
    'a' <= c <= 'z' || 'A' <= c <= 'Z' || '0' <= c <= '9' || c in "!#$%&'*+-.^_`|~"
  }

  predicate IsToken(s: string) { s != "" && forall i | 0 <= i < |s| :: IsTokenChar(s[i]) }

  predicate IsFieldLine(rule: Rule, line: string) {
    match Split(line, ':')
    case None => false
    case Some((name, _)) => rule.TokenName? ==> IsToken(name)
  }

  /** One round of a strict parser: only an empty line ends the headers, and a line that is neither empty
      nor a field line is an error. */
  function StrictStep(rule: Rule, state: ParseState, r: Request, s: string): (t: Step)
    ensures t.Advance? || t.Finish? ==> |t.rest| < |s|
  {
    match FindCrlf(s)
    case None => Wait
    case Some(i) =>
      if state.ExpectRequestLine? then LineStep(state, r, s)
      else if s[..i] == "" then Finish(r, s[i + 2..])
      else if IsFieldLine(rule, s[..i]) then Advance(HeaderLine(r, s[..i]), s[i + 2..])
      else Reject(r)
  }

  function ParseStrict(rule: Rule, state: ParseState, r: Request, s: string): Outcome
    requires state.ExpectRequestLine? || state.ExpectHeaders?
    decreases |s|
  {
    match StrictStep(rule, state, r, s)
    case Wait => Outcome(true, state, r, s)
    case Reject(r') => Outcome(false, state, r', s)
    case Advance(r', rest) => ParseStrict(rule, ExpectHeaders, r', rest)
    case Finish(r', rest) => Outcome(true, GotAll, r', rest)
  }

  /** The first complete line that is not a field line. */
  function FirstOther(rule: Rule, s: string): Option<string>
    decreases |s|
  {
    match FindCrlf(s)
    case None => None
    case Some(i) => if IsFieldLine(rule, s[..i]) then FirstOther(rule, s[i + 2..]) else Some(s[..i])
  }

  /** Headers are never rejected. */
  lemma {:induction false} HeadersAreAccepted(r: Request, s: string)
    ensures Parse(ExpectHeaders, r, s).ok
    decreases |s|
  {
    match LineStep(ExpectHeaders, r, s)
    case Advance(r', rest) => HeadersAreAccepted(r', rest);
    case _ =>
  }

  /** The parser reads headers as a strict one does exactly when the first complete line that is not a
      field line, if there is one, is empty. */
  lemma {:induction false} StrictHeadersExactly(rule: Rule, r: Request, s: string)
    ensures Parse(ExpectHeaders, r, s) == ParseStrict(rule, ExpectHeaders, r, s)
        <==> FirstOther(rule, s).None? || FirstOther(rule, s) == Some("")
    decreases |s|
  {
    hide FindCrlf, HeaderLine, IsFieldLine;
    match FindCrlf(s)
    case None =>
    case Some(i) =>
      FieldLineHasColon(rule, s[..i]);
      if s[..i] != "" && IsFieldLine(rule, s[..i]) {
        StrictHeadersExactly(rule, HeaderLine(r, s[..i]), s[i + 2..]);
      } else {
        HeadersAreAccepted(r, s);
      }
  }

  lemma FieldLineHasColon(rule: Rule, line: string)
    ensures IsFieldLine(rule, line) ==> ':' in line && line != ""
  {
  }

  /** The same for a whole request: nothing but its header lines matters. */
  lemma StrictRequestExactly(rule: Rule, r: Request, s: string)
    ensures Parse(ExpectRequestLine, r, s) == ParseStrict(rule, ExpectRequestLine, r, s)
        <==> var t := LineStep(ExpectRequestLine, r, s);
             t.Advance? ==> FirstOther(rule, t.rest).None? || FirstOther(rule, t.rest) == Some("")
  {
    var t := LineStep(ExpectRequestLine, r, s);
    hide FindCrlf, RequestLine;
    if t.Advance? { StrictHeadersExactly(rule, t.request, t.rest); }
  }

  lemma StrictRejects(rule: Rule, r: Request, line: string, more: string)
    requires NoCrlf(line) && line != "" && !IsFieldLine(rule, line)
    ensures !ParseStrict(rule, ExpectHeaders, r, line + CRLF + more).ok
  {
    FindCrlfLine(line, more);
    assert (line + CRLF + more)[..|line|] == line;
  }

  /** A header line without a colon ends the request, and what follows is read as the next one. */
  lemma ColonlessExample(r: Request)
    ensures var s := "Host x" + CRLF + ("A: b" + CRLF + CRLF);
      && Parse(ExpectHeaders, r, s) == Outcome(true, GotAll, r, "A: b" + CRLF + CRLF)
      && !ParseStrict(ColonOnly, ExpectHeaders, r, s).ok
  {
    var line, more := "Host x", "A: b" + CRLF + CRLF;
    ShortLine(line);
    assert ':' !in line;
    ParseTakes(r, line, more);
    StrictRejects(ColonOnly, r, line, more);
  }

  lemma ShortLine(line: string)
    requires '\r' !in line
    ensures NoCrlf(line)
  {
    forall i ensures !CrlfAt(line, i) { assert 0 <= i < |line| ==> line[i] != '\r'; }
  }

  /** A name that is no token, here one with a space before the colon, is stored as it is. */
  lemma SpacedNameExample(r: Request)
    ensures var s := "A : b" + CRLF + CRLF;
      && Parse(ExpectHeaders, r, s) == Outcome(true, GotAll, r.(headers := r.headers["A " := "b"]), "")
      && !ParseStrict(TokenName, ExpectHeaders, r, s).ok
  {
    hide Parse, HeaderLine, ParseStrict, IsFieldLine, FindCrlf;
    var line := "A : b";
    ShortLine(line);
    ShortLine("");
    SpacedName(r);
    ParseTakes(r, line, CRLF);
    ParseTakes(HeaderLine(r, line), "", "");
    StrictRejects(TokenName, r, line, CRLF);
    assert CRLF == "" + CRLF + "";
  }

  /** A header line is stored, and a line without a colon ends the headers. */
  lemma ParseTakes(r: Request, line: string, more: string)
    requires NoCrlf(line)
    ensures Parse(ExpectHeaders, r, line + CRLF + more)
         == if ':' in line then Parse(ExpectHeaders, HeaderLine(r, line), more) else Outcome(true, GotAll, r, more)
  {
    hide FindCrlf, HeaderLine;
    LineStepTakes(ExpectHeaders, r, line, more);
  }

  lemma SpacedName(r: Request)
    ensures ':' in "A : b" && HeaderLine(r, "A : b") == r.(headers := r.headers["A " := "b"])
    ensures !IsFieldLine(TokenName, "A : b")
  {
    hide Split, Trim;
    var line := "A : b";
    assert line[2] == ':' && line == "A " + [':'] + " b";
    SplitFirst("A ", ':', " b");
    TrimOfPrinted("b");
    assert " b" == " " + "b";
    assert "A "[1] == ' ' && !IsTokenChar(' ');
  }
}

module HttpContexts {
  import opened Text
  import opened Buffers
  import opened HttpRequests
  import opened HttpSpec

  class HttpContext {
    var state: ParseState
    const request: HttpRequest

    constructor ()
      ensures state == ExpectRequestLine && request.View() == FRESH && fresh(request)
    {
      state := ExpectRequestLine;
      request := new HttpRequest();
    }

    method Reset()
      modifies this, request
      ensures state == ExpectRequestLine && request.View() == FRESH && request.receiveTime == 0
    {
      state := ExpectRequestLine;
      var dummy := new HttpRequest();
      request.Swap(dummy);
    }

    method SetTarget(target: string)
      modifies request`path, request`query
      ensures request.View() == WithTarget(old(request.View()), target)
    {
      var question := Find(target, '?');
      if question != |target| {
        request.path := target[..question];
        request.query := target[question..];
        assert target[question..] == ['?'] + target[question + 1..];
      } else {
        request.path := target;
      }
    }

    method SetVersion(v: string) returns (succeed: bool)
      modifies request`version
      ensures succeed == (VersionOf(v) != UnknownVersion)
      ensures request.version == if succeed then VersionOf(v) else old(request.version)
    {
      VersionByLastByte(v);
      succeed := |v| == 8 && v[..7] == "HTTP/1.";
      if succeed {
        if v[7] == '1' {
          request.version := Http11;
        } else if v[7] == '0' {
          request.version := Http10;
        } else {
          succeed := false;
        }
      }
    }

    method ProcessRequestLine(line: string) returns (succeed: bool)
      modifies request
      ensures succeed == RequestLine(old(request.View()), line).0
      ensures request.View() == RequestLine(old(request.View()), line).1
      ensures request.receiveTime == old(request.receiveTime)
    {
      succeed := false;
      var parts := Split(line, ' ');
      if parts.Some? {
        var valid := request.SetMethod(parts.value.0);
        if valid {
          parts := Split(parts.value.1, ' ');
          if parts.Some? {
            SetTarget(parts.value.0);
            succeed := SetVersion(parts.value.1);
          }
        }
      }
    }

    /** Stores the header on a line with a colon; a line without one is no header. */
    method ProcessHeaderLine(line: string) returns (isHeader: bool)
      modifies request
      ensures isHeader <==> ':' in line
      ensures request.View() == if isHeader then HeaderLine(old(request.View()), line) else old(request.View())
      ensures request.receiveTime == old(request.receiveTime)
    {
      var colon := Find(line, ':');
      isHeader := colon != |line|;
      assert Split(line, ':').Some? <==> isHeader;
      if isHeader {
        request.AddHeader(line, colon);
      }
    }

    /** The object state after a round that did `t`. */
    ghost predicate After(t: Step, before: ParseState, s: string, ok: bool, hasMore: bool, buf: Buffer)
      reads this, request, buf, buf.data
    {
      && buf.Valid()
      && ok == !t.Reject? && hasMore == t.Advance?
      && state == (if t.Advance? then ExpectHeaders else if t.Finish? then GotAll else before)
      && (!t.Wait? ==> request.View() == t.request)
      && buf.Contents() == if t.Advance? || t.Finish? then t.rest else s
    }

    /** The branch of the loop that waits for the request line. */
    method TakeRequestLine(buf: Buffer, receiveTime: int) returns (ok: bool, hasMore: bool)
      requires buf.Valid() && state.ExpectRequestLine?
      modifies this, request, buf`readerIndex, buf`writerIndex
      ensures After(LineStep(ExpectRequestLine, old(request.View()), old(buf.Contents())),
                    ExpectRequestLine, old(buf.Contents()), ok, hasMore, buf)
      ensures state.ExpectRequestLine? && ok ==> request.View() == old(request.View())
      ensures request.receiveTime == if state.ExpectRequestLine? then old(request.receiveTime) else receiveTime
    {
      hide FindCrlf, RequestLine;
      ok, hasMore := true, false;
      var s := buf.Contents();
      var crlf := buf.FindCRLF();
      if crlf.Some? {
        ok := ProcessRequestLine(s[..crlf.value]);
        if ok {
          request.receiveTime := receiveTime;
          buf.Retrieve(crlf.value + 2);
          state := ExpectHeaders;
          hasMore := true;
        }
      }
    }

    /** The branch of the loop that waits for a header line. */
    method TakeHeaderLine(buf: Buffer) returns (hasMore: bool)
      requires buf.Valid() && state.ExpectHeaders?
      modifies this, request, buf`readerIndex, buf`writerIndex
      ensures After(LineStep(ExpectHeaders, old(request.View()), old(buf.Contents())),
                    ExpectHeaders, old(buf.Contents()), true, hasMore, buf)
      ensures state.ExpectHeaders? && !hasMore ==> request.View() == old(request.View())
      ensures request.receiveTime == old(request.receiveTime)
    {
      hide FindCrlf, HeaderLine;
      hasMore := false;
      var s := buf.Contents();
      var crlf := buf.FindCRLF();
      if crlf.Some? {
        hasMore := ProcessHeaderLine(s[..crlf.value]);
        if !hasMore {
          state := GotAll;
        }
        buf.Retrieve(crlf.value + 2);
      }
    }

    /** Consumes whole lines until the headers end, a request line is rejected or no whole
        line is left.  Calling it again after `GotAll` is not allowed: the loop has no branch
        for that state. */
    method ParseRequest(buf: Buffer, receiveTime: int) returns (ok: bool)
      requires buf.Valid()
      requires state.ExpectRequestLine? || state.ExpectHeaders?
      modifies this, request, buf`readerIndex, buf`writerIndex
      ensures buf.Valid()
      ensures Outcome(ok, state, request.View(), buf.Contents())
           == Parse(old(state), old(request.View()), old(buf.Contents()))
      ensures request.receiveTime
           == if old(state).ExpectRequestLine? && !state.ExpectRequestLine? then receiveTime
              else old(request.receiveTime)
    {
      ghost var goal := Parse(state, request.View(), buf.Contents());
      ok := true;
      var hasMore := true;
      while hasMore
        invariant buf.Valid()
        invariant hasMore ==> ok && (state.ExpectRequestLine? || state.ExpectHeaders?)
        invariant hasMore ==> Parse(state, request.View(), buf.Contents()) == goal
        invariant !hasMore ==> Outcome(ok, state, request.View(), buf.Contents()) == goal
        invariant old(state).ExpectHeaders? ==> !state.ExpectRequestLine?
        invariant request.receiveTime
               == if old(state).ExpectRequestLine? && !state.ExpectRequestLine? then receiveTime
                  else old(request.receiveTime)
        decreases hasMore, |buf.Contents()|
      {
        if state == ExpectRequestLine {
          ok, hasMore := TakeRequestLine(buf, receiveTime);
        } else {
          hasMore := TakeHeaderLine(buf);
        }
      }
    }
  }
}
