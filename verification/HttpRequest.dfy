/** The request record of src/http/HttpRequest.hpp. */
module HttpRequests {
  import opened Text

  datatype Method = InvalidMethod | Get | Post | Head | Put | Delete

  datatype Version = UnknownVersion | Http10 | Http11

  /** Everything a parsed request carries except the time it was received. */
  datatype Request = Request(verb: Method, version: Version, path: string, query: string,
                             headers: map<string, string>)

  const FRESH: Request := Request(InvalidMethod, UnknownVersion, "", "", map[])

  function MethodString(m: Method): string {
    match m
    case Get => "GET"
    case Post => "POST"
    case Head => "HEAD"
    case Put => "PUT"
    case Delete => "DELETE"
    case InvalidMethod => "UNKNOWN"
  }

  function MethodOf(s: string): (m: Method)
    ensures m != InvalidMethod ==> MethodString(m) == s
  {
    if s == "GET" then Get
    else if s == "POST" then Post
    else if s == "HEAD" then Head
    else if s == "PUT" then Put
    else if s == "DELETE" then Delete
    else InvalidMethod
  }

  lemma MethodRoundTrip(m: Method)
    requires m != InvalidMethod
    ensures MethodOf(MethodString(m)) == m && ' ' !in MethodString(m)
  {
    var s := MethodString(m);
    assert s[0] == (match m case Get => 'G' case Post => 'P' case Head => 'H' case Put => 'P' case Delete => 'D');
    assert m.Post? ==> s[1] == 'O';
    assert m.Put? ==> s[1] == 'U';
  }

  /** `isspace` in the "C" locale. */
  predicate IsSpace(c: char) { c == ' ' || '\t' <= c <= '\r' }

  function TrimLeft(s: string): string {
    if s != "" && IsSpace(s[0]) then TrimLeft(s[1..]) else s
  }

  function TrimRight(s: string): string {
    if s != "" && IsSpace(s[|s| - 1]) then TrimRight(s[..|s| - 1]) else s
  }

  function Trim(s: string): string { TrimRight(TrimLeft(s)) }

  predicate Trimmed(s: string) {
    s == "" || (!IsSpace(s[0]) && !IsSpace(s[|s| - 1]))
  }

  predicate AllSpace(s: string) { forall i | 0 <= i < |s| :: IsSpace(s[i]) }

  lemma {:induction false} TrimLeftSplits(s: string) returns (lead: string)
    ensures s == lead + TrimLeft(s) && AllSpace(lead)
    ensures TrimLeft(s) == "" || !IsSpace(TrimLeft(s)[0])
  {
    if s != "" && IsSpace(s[0]) {
      var l := TrimLeftSplits(s[1..]);
      lead := [s[0]] + l;
    } else {
      lead := "";
    }
  }

  lemma {:induction false} TrimRightSplits(s: string) returns (trail: string)
    ensures s == TrimRight(s) + trail && AllSpace(trail)
    ensures TrimRight(s) == "" || !IsSpace(TrimRight(s)[|TrimRight(s)| - 1])
  {
    if s != "" && IsSpace(s[|s| - 1]) {
      var t := TrimRightSplits(s[..|s| - 1]);
      trail := t + [s[|s| - 1]];
    } else {
      trail := "";
    }
  }

  /** Trimming removes white space only, and all of it from both ends. */
  lemma TrimSplits(s: string) returns (lead: string, trail: string)
    ensures s == lead + Trim(s) + trail
    ensures AllSpace(lead) && AllSpace(trail) && Trimmed(Trim(s))
  {
    lead := TrimLeftSplits(s);
    trail := TrimRightSplits(TrimLeft(s));
    assert Trim(s) != "" ==> Trim(s)[0] == TrimLeft(s)[0];
  }

  /** The white space of the "C" locale: space, tab, line feed, vertical tab, form feed and carriage return. */
  const WHITE_SPACE: string := " \t\n\U{B}\U{C}\r"

  predicate White(s: string) { forall i | 0 <= i < |s| :: s[i] in WHITE_SPACE }

  /** No white space at either end. */
  predicate Bare(s: string) { s == "" || (s[0] !in WHITE_SPACE && s[|s| - 1] !in WHITE_SPACE) }

  lemma SpaceExactly(c: char)
    ensures IsSpace(c) <==> c in WHITE_SPACE
  {
    assert WHITE_SPACE[0] == ' ' && WHITE_SPACE[1] == '\t' && WHITE_SPACE[2] == '\n' && WHITE_SPACE[3] == '\U{B}'
        && WHITE_SPACE[4] == '\U{C}' && WHITE_SPACE[5] == '\r';
  }

  lemma {:induction false} TrimLeftExactly(lead: string, s: string)
    requires White(lead) && (s == "" || s[0] !in WHITE_SPACE)
    ensures TrimLeft(lead + s) == s
  {
    if lead == "" {
      assert lead + s == s;
      if s != "" { SpaceExactly(s[0]); }
    } else {
      SpaceExactly(lead[0]);
      assert (lead + s)[1..] == lead[1..] + s;
      TrimLeftExactly(lead[1..], s);
    }
  }

  lemma {:induction false} TrimRightExactly(s: string, trail: string)
    requires White(trail) && (s == "" || s[|s| - 1] !in WHITE_SPACE)
    ensures TrimRight(s + trail) == s
    decreases |trail|
  {
    if trail == "" {
      assert s + trail == s;
      if s != "" { SpaceExactly(s[|s| - 1]); }
    } else {
      var n := |trail| - 1;
      SpaceExactly(trail[n]);
      assert (s + trail)[..|s + trail| - 1] == s + trail[..n];
      TrimRightExactly(s, trail[..n]);
    }
  }

  /** Trimming leaves just what the white space is around. */
  lemma TrimExactly(lead: string, value: string, trail: string)
    requires White(lead) && Bare(value) && White(trail)
    ensures Trim(lead + value + trail) == value
  {
    if value == "" {
      assert lead + value + trail == (lead + trail) + "";
      TrimLeftExactly(lead + trail, "");
    } else {
      Regroup(lead, value, trail);
      TrimLeftExactly(lead, value + trail);
      TrimRightExactly(value, trail);
    }
  }

  /** The names of the methods, letter by letter. */
  lemma MethodNames()
    ensures MethodOf("GET") == Get && MethodOf("POST") == Post && MethodOf("HEAD") == Head
    ensures MethodOf("PUT") == Put && MethodOf("DELETE") == Delete
  {
    MethodRoundTrip(Get);
    MethodRoundTrip(Post);
    MethodRoundTrip(Head);
    MethodRoundTrip(Put);
    MethodRoundTrip(Delete);
  }

  class HttpRequest {
    var verb: Method
    var version: Version
    var path: string
    var query: string
    var receiveTime: int
    var headers: map<string, string>

    function View(): Request reads this { Request(verb, version, path, query, headers) }

    constructor ()
      ensures View() == FRESH && receiveTime == 0
    {
      verb, version, path, query, receiveTime, headers := InvalidMethod, UnknownVersion, "", "", 0, map[];
    }

    method SetMethod(name: string) returns (valid: bool)
      modifies this`verb
      ensures verb == MethodOf(name)
      ensures valid <==> exists m: Method :: m != InvalidMethod && MethodString(m) == name
    {
      if name == "GET" { verb := Get; }
      else if name == "POST" { verb := Post; }
      else if name == "HEAD" { verb := Head; }
      else if name == "PUT" { verb := Put; }
      else if name == "DELETE" { verb := Delete; }
      else { verb := InvalidMethod; }
      valid := verb != InvalidMethod;
      if valid { assert MethodString(verb) == name; }
      forall m: Method | m != InvalidMethod && MethodString(m) == name ensures valid { MethodRoundTrip(m); }
    }

    /** Stores the header on `line`, whose first colon is at `colon`, without the white space
        around its value.  A repeated field replaces the earlier one. */
    method AddHeader(line: string, colon: nat)
      requires colon < |line|
      modifies this`headers
      ensures headers == old(headers)[line[..colon] := Trim(line[colon + 1..])]
    {
      var start := colon + 1;
      while start < |line| && IsSpace(line[start])
        invariant colon < start <= |line|
        invariant TrimLeft(line[start..]) == TrimLeft(line[colon + 1..])
      {
        start := start + 1;
      }
      var value := line[start..];
      while value != "" && IsSpace(value[|value| - 1])
        invariant TrimRight(value) == Trim(line[colon + 1..])
        decreases |value|
      {
        value := value[..|value| - 1];
      }
      headers := headers[line[..colon] := value];
    }

    /** The stored value, or the empty string for a field that was never stored. */
    method GetHeader(field: string) returns (value: string)
      ensures field in headers ==> value == headers[field]
      ensures field !in headers ==> value == ""
    {
      value := "";
      if field in headers { value := headers[field]; }
    }

    method Swap(rhs: HttpRequest)
      modifies this, rhs
      ensures View() == old(rhs.View()) && rhs.View() == old(View())
      ensures receiveTime == old(rhs.receiveTime) && rhs.receiveTime == old(receiveTime)
    {
      verb, rhs.verb := rhs.verb, verb;
      version, rhs.version := rhs.version, version;
      path, rhs.path := rhs.path, path;
      query, rhs.query := rhs.query, query;
      receiveTime, rhs.receiveTime := rhs.receiveTime, receiveTime;
      headers, rhs.headers := rhs.headers, headers;
    }
  }
}
