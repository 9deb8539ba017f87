/**
  The reserved route under which a version-gated delivery of Pulsar travels through the runtime,
  printed and parsed, and what re-publishing under it does. Text stands for its UTF-8 bytes, one
  character below 256 a byte; percent-encoding is that of section 2.1 of RFC 3986.
*/
module GateRoute {
  import opened Helpers

  type Properties = map<string, string>

  const PREFIX := "babelqueue:unsupported-schema-version:"
  const GATE_JOB := "?bq-job="

  // ---- Percent-encoding ----------------------------------------------------------------

  const HEX := "0123456789ABCDEF"

  predicate Unreserved(c: char) {
    'A' <= c <= 'Z' || 'a' <= c <= 'z' || '0' <= c <= '9' || c in "_.-~"
  }

  ghost predicate Bytes(s: string) {
    forall i :: 0 <= i < |s| ==> s[i] as int < 256
  }

  function HexValue(c: char): Option<nat> {
    if '0' <= c <= '9' then Some(c as int - '0' as int)
    else if 'A' <= c <= 'F' then Some(c as int - 'A' as int + 10)
    else if 'a' <= c <= 'f' then Some(c as int - 'a' as int + 10)
    else None
  }

  // `quote(s, safe="")`
  function Quote(s: string): string
    requires Bytes(s)
  {
    if s == "" then ""
    else if Unreserved(s[0]) then [s[0]] + Quote(s[1..])
    else Escape(s[0]) + Quote(s[1..])
  }

  function Escape(c: char): string
    requires c as int < 256
  {
    ['%', HEX[c as int / 16], HEX[c as int % 16]]
  }

  predicate Escaped(s: string) {
    |s| >= 3 && s[0] == '%' && HexValue(s[1]).Some? && HexValue(s[2]).Some?
  }

  // `unquote`: an escape that is not two hexadecimal digits stands for itself.
  function Unquote(s: string): string {
    if s == "" then ""
    else if Escaped(s) then [(HexValue(s[1]).value * 16 + HexValue(s[2]).value) as char] + Unquote(s[3..])
    else [s[0]] + Unquote(s[1..])
  }

  lemma HexRoundTrip(n: nat)
    requires n < 16
    ensures HexValue(HEX[n]) == Some(n) && HEX[n] != '?'
  {
  }

  lemma UnquotePlain(c: char, rest: string)
    requires c != '%'
    ensures Unquote([c] + rest) == [c] + Unquote(rest)
  {
    assert ([c] + rest)[1..] == rest;
  }

  lemma UnquoteEscape(h: char, l: char, rest: string)
    requires HexValue(h).Some? && HexValue(l).Some?
    ensures Unquote(['%', h, l] + rest) == [(HexValue(h).value * 16 + HexValue(l).value) as char] + Unquote(rest)
  {
    assert (['%', h, l] + rest)[3..] == rest;
  }

  lemma CharEscapes(c: char, rest: string)
    requires c as int < 256
    ensures Unquote(Escape(c) + rest) == [c] + Unquote(rest) && '?' !in Escape(c)
  {
    HexRoundTrip(c as int / 16);
    HexRoundTrip(c as int % 16);
    UnquoteEscape(HEX[c as int / 16], HEX[c as int % 16], rest);
  }

  // Unquoting undoes quoting, and what is quoted holds no question mark.
  lemma {:induction false} QuoteRoundTrip(s: string)
    requires Bytes(s)
    ensures Unquote(Quote(s)) == s && '?' !in Quote(s)
  {
    if s != "" {
      QuoteRoundTrip(s[1..]);
      assert [s[0]] + s[1..] == s;
      if Unreserved(s[0]) {
        UnquotePlain(s[0], Quote(s[1..]));
      } else {
        CharEscapes(s[0], Quote(s[1..]));
      }
    }
  }

  // Letters, digits and four marks stand for themselves, and any other byte is a percent sign with
  // its two digits in capitals.
  lemma QuoteIs(c: char)
    requires c as int < 256
    ensures Quote([c]) ==
      if 'A' <= c <= 'Z' || 'a' <= c <= 'z' || '0' <= c <= '9' || c in {'_', '.', '-', '~'} then [c]
      else ['%', "0123456789ABCDEF"[c as int / 16], "0123456789ABCDEF"[c as int % 16]]
  {
    assert [c][1..] == "" && Quote("") == "";
    assert Escape(c) + "" == Escape(c);
  }

  // ---- The route -------------------------------------------------------------------------

  // `_gate_route`
  function Print(version: string, job: Option<string>): string
    requires Bytes(version) && (job.Some? ==> Bytes(job.value))
  {
    PrintWith(PREFIX, GATE_JOB, Quote(version), match job case None => None case Some(j) => Some(Quote(j)))
  }

  function PrintWith(prefix: string, sep: string, version: string, job: Option<string>): string {
    prefix + version + match job case None => "" case Some(j) => sep + j
  }

  // `str.partition`: where the separator first occurs.
  function Find(s: string, sep: string): Option<nat> {
    if sep <= s then Some(0)
    else if s == "" then None
    else
      var i := Find(s[1..], sep);
      if i.None? then None else Some(i.value + 1)
  }

  // The two raw parts of a route with that prefix.
  function SplitWith(prefix: string, sep: string, route: string): Option<(string, Option<string>)> {
    if !(prefix <= route) then None
    else
      var rest := route[|prefix|..];
      var i := Find(rest, sep);
      if i.None? || i.value + |sep| > |rest| then Some((rest, None))
      else Some((rest[..i.value], Some(rest[i.value + |sep|..])))
  }

  // `_parse_gate_route`
  function Parse(route: string): Option<(string, Option<string>)> {
    match SplitWith(PREFIX, GATE_JOB, route)
    case None => None
    case Some(parts) =>
      Some((Unquote(parts.0), match parts.1 case None => None case Some(j) => Some(Unquote(j))))
  }

  lemma {:induction false} FindAfter(s: string, sep: string, tail: string)
    requires '?' !in s && sep != "" && sep[0] == '?'
    ensures Find(s, sep) == None
    ensures Find(s + sep + tail, sep) == Some(|s|)
  {
    var all := s + sep + tail;
    if s == "" {
      assert all[..|sep|] == sep;
    } else {
      assert s[0] != '?' && all[0] == s[0];
      assert all[1..] == s[1..] + sep + tail;
      FindAfter(s[1..], sep, tail);
    }
  }

  lemma SplitPrint(prefix: string, sep: string, version: string, job: Option<string>)
    requires '?' !in version && sep != "" && sep[0] == '?'
    ensures SplitWith(prefix, sep, PrintWith(prefix, sep, version, job)) == Some((version, job))
  {
    var route := PrintWith(prefix, sep, version, job);
    match job
    case None =>
      assert route == prefix + version;
      FindAfter(version, sep, "");
    case Some(j) =>
      var rest := version + sep + j;
      FindAfter(version, sep, j);
      assert route == prefix + rest && route[|prefix|..] == rest;
      assert rest[..|version|] == version && rest[|version| + |sep|..] == j;
  }

  // Parsing a printed route gives back the exact version and job.
  lemma ParsePrint(version: string, job: Option<string>)
    requires Bytes(version) && (job.Some? ==> Bytes(job.value))
    ensures Parse(Print(version, job)) == Some((version, job))
  {
    QuoteRoundTrip(version);
    if job.Some? { QuoteRoundTrip(job.value); }
    SplitPrint(PREFIX, GATE_JOB, Quote(version), match job case None => None case Some(j) => Some(Quote(j)));
  }

  // ---- Re-publication ---------------------------------------------------------------------

  // The body as far as its projection goes: the properties derived from it, none when it is no
  // envelope.
  type Projection = Properties

  // `_projection` under a route: a gate route is never written, what it stands for is restored.
  function Project(body: Projection, route: string): Properties {
    var gate := Parse(route);
    if gate.Some? then
      var props := body["bq-schema-version" := gate.value.0];
      if gate.value.1.Some? then props["bq-job" := gate.value.1.value] else props
    else if body == map[] || route == "" then body
    else body["bq-job" := route]
  }

  predicate Blank(s: string) {
    forall i :: 0 <= i < |s| ==> s[i] in " \t\n\U{0B}\U{0C}\r"
  }

  // `_unsupported_schema_version`: the version the gate rejects.
  function Unsupported(props: Properties): Option<string> {
    if "bq-schema-version" !in props || Blank(props["bq-schema-version"]) || props["bq-schema-version"] == "1" then None
    else Some(props["bq-schema-version"])
  }

  // A message is gated exactly when it declares a version that is neither blank nor the supported one.
  lemma GatedIff(props: Properties)
    ensures Unsupported(props).Some? <==>
      && "bq-schema-version" in props && props["bq-schema-version"] != "1"
      && exists c :: c in props["bq-schema-version"] && c !in " \t\n\r\U{0B}\U{0C}"
    ensures Unsupported(props).Some? ==> Unsupported(props).value == props["bq-schema-version"]
  {
    if "bq-schema-version" in props {
      var v := props["bq-schema-version"];
      if c :| c in v && c !in " \t\n\r\U{0B}\U{0C}" {
        var i :| 0 <= i < |v| && v[i] == c;
      }
      if !Blank(v) {
        var i :| 0 <= i < |v| && v[i] !in " \t\n\U{0B}\U{0C}\r";
        assert v[i] in v;
      }
    }
  }

  // A route that is no gate route is the job the message is published under, and changes nothing
  // else of the projection.
  lemma PlainRouteIsTheJob(body: Projection, route: string)
    requires !("babelqueue:unsupported-schema-version:" <= route) && body != map[]
    ensures Parse(route) == None
    ensures JobOf(Project(body, route)) == if route == "" then JobOf(body) else Some(route)
    ensures forall k :: k != "bq-job" ==>
      (k in Project(body, route) <==> k in body) && (k in body ==> Project(body, route)[k] == body[k])
  {
  }

  ghost predicate AllBytes(props: Properties) {
    forall k :: k in props ==> Bytes(props[k])
  }

  function JobOf(props: Properties): Option<string> {
    if "bq-job" in props then Some(props["bq-job"]) else None
  }

  // The route a delivery with these properties is handed over under, None when it is not gated.
  function RouteOf(props: Properties): Option<string>
    requires forall k :: k in props ==> forall i :: 0 <= i < |props[k]| ==> props[k][i] as int < 256
  {
    match Unsupported(props)
    case None => None
    case Some(v) => assert Bytes(v); Some(Print(v, JobOf(props)))
  }

  lemma ProjectIsBytes(body: Projection, version: string, job: Option<string>)
    requires AllBytes(body) && Bytes(version) && (job.Some? ==> Bytes(job.value))
    ensures AllBytes(Project(body, Print(version, job)))
    ensures var props := Project(body, Print(version, job));
      && "bq-schema-version" in props && props["bq-schema-version"] == version
      && JobOf(props) == if job.Some? then job else JobOf(body)
  {
    ParsePrint(version, job);
  }

  // Re-published under the route of a gated delivery, the message is gated again, with the same
  // version; its job is the one the delivery had or, when it had none, the one of the body.
  lemma GatedAgain(props: Properties, body: Projection)
    requires AllBytes(props) && AllBytes(body) && Unsupported(props).Some?
    ensures var version, job := Unsupported(props).value, if JobOf(props).Some? then JobOf(props) else JobOf(body);
      && Bytes(version) && (job.Some? ==> Bytes(job.value))
      && RouteOf(props).Some? && AllBytes(Project(body, RouteOf(props).value))
      && Unsupported(Project(body, RouteOf(props).value)) == Some(version)
      && RouteOf(Project(body, RouteOf(props).value)) == Some(Print(version, job))
  {
    ProjectIsBytes(body, Unsupported(props).value, JobOf(props));
  }

  // The properties after n re-publications.
  function Republished(props: Properties, body: Projection, n: nat): Properties
    requires AllBytes(props) && AllBytes(body) && Unsupported(props).Some?
    ensures AllBytes(Republished(props, body, n)) && Unsupported(Republished(props, body, n)) == Unsupported(props)
    decreases n
  {
    if n == 0 then props
    else
      GatedAgain(props, body);
      Republished(Project(body, RouteOf(props).value), body, n - 1)
  }

  // The first re-publication leaves the route as it was exactly when the delivery had a job or
  // the body names none.
  lemma RouteStaysIff(props: Properties, body: Projection)
    requires AllBytes(props) && AllBytes(body) && Unsupported(props).Some?
    ensures var next := Project(body, RouteOf(props).value);
      AllBytes(next) && (RouteOf(next) == RouteOf(props) <==> JobOf(props).Some? || JobOf(body).None?)
  {
    GatedAgain(props, body);
    ProjectIsBytes(body, Unsupported(props).value, JobOf(props));
    var job := if JobOf(props).Some? then JobOf(props) else JobOf(body);
    ParsePrint(Unsupported(props).value, JobOf(props));
    ParsePrint(Unsupported(props).value, job);
  }

  // However often it is re-published, the message stays gated with its version, and from the
  // first time on under one route.
  lemma {:induction false} RouteIsFixed(props: Properties, body: Projection, n: nat)
    requires AllBytes(props) && AllBytes(body) && Unsupported(props).Some? && n > 0
    ensures RouteOf(Republished(props, body, n)) == RouteOf(Republished(props, body, 1))
    decreases n
  {
    GatedAgain(props, body);
    var next := Project(body, RouteOf(props).value);
    ProjectIsBytes(body, Unsupported(props).value, JobOf(props));
    assert Republished(props, body, 1) == Republished(next, body, 0) == next;
    if n > 1 {
      RouteIsFixed(next, body, n - 1);
      RouteStaysIff(next, body);
      assert Republished(next, body, 1) == Republished(Project(body, RouteOf(next).value), body, 0);
    }
  }
}
