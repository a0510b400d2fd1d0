/** The URL generator's test scenarios, stated over the model. */
module UrlGeneratorCases {
  import opened Wrappers
  import opened UrlGenerator
  import PercentEncoding

  function FooRoute(): seq<Part> { [Lit("/foo")] }
  function BarRoute(): seq<Part> { [Lit("/foo/"), Param("bar", "[^/]+")] }
  function BazRoute(): seq<Part> { [Lit("/foo/"), Param("bar", "[^/]+"), Lit("/baz")] }

  /** The named routes the route test registers. */
  function TestRoutes(): RouteTable {
    map["foo" := FooRoute(), "bar" := BarRoute(), "baz" := BazRoute()]
  }

  /** The request every `to` test runs under. */
  function TestRequest(): Uri {
    Uri("http", "example.com", "/foo", "bar=baz", "boom")
  }

  /** Its root: http://example.com, without the path, query and fragment. */
  function TestRoot(): Uri {
    Uri("http", "example.com", "", "", "")
  }

  lemma TestRootIsRootOfRequest()
    ensures RootOf(TestRequest()) == TestRoot()
    ensures UriString(TestRoot()) == "http://example.com"
  {
  }

  lemma EncodeDigit(d: string)
    requires d == "1" || d == "2"
    ensures PercentEncoding.Encode(d) == d
  {
    PercentEncoding.EncodeUnreserved(d);
  }

  /** A pair of unreserved key and value is written as it is. */
  lemma PlainPair(kv: (string, string))
    requires kv == ("bar", "1") || kv == ("baz", "2")
    ensures QueryPair(kv) == kv.0 + "=" + kv.1
  {
    PercentEncoding.EncodeUnreserved(kv.0);
    EncodeDigit(kv.1);
  }

  lemma QuerySingle(vars: Vars)
    requires vars == [("bar", "1")] || vars == [("baz", "2")]
    ensures QuerySuffix(vars) == "?" + (vars[0].0 + "=" + vars[0].1)
  {
    PlainPair(vars[0]);
  }

  /** A route without placeholders renders its literal ... */
  lemma RouteFooPlain(parts: seq<Part>)
    requires parts == FooRoute()
    ensures RoutePath(parts, []) == "/foo"
  {
    assert Literal(parts) == "/foo";
    LiteralRoute(parts, []);
  }

  lemma FooShape(parts: seq<Part>, vars: Vars)
    requires parts == FooRoute()
    ensures RoutePath(parts, vars) == "/foo" + QuerySuffix(vars)
  {
    assert Literal(parts) == "/foo";
    LiteralRoute(parts, vars);
  }

  // The expected paths, each checked as a concatenation of plain strings in
  // a lemma of its own. These model nothing: they keep the literal text away
  // from the route definitions, which the solver would otherwise unfold
  // character by character inside the test lemmas below.

  lemma OneQueryText(path: string, k: string, v: string, expected: string)
    requires path == "/foo" && k == "bar" && v == "1" && expected == "/foo?bar=1"
    ensures path + ("?" + (k + "=" + v)) == expected
  {
  }

  lemma TwoQueryText(k1: string, v1: string, k2: string, v2: string)
    requires k1 == "bar" && v1 == "1" && k2 == "baz" && v2 == "2"
    ensures "?" + ((k1 + "=" + v1) + "&" + (k2 + "=" + v2)) == "?bar=1&baz=2"
  {
  }

  lemma TwoQueryPathText(path: string, q: string)
    requires path == "/foo" && q == "?bar=1&baz=2"
    ensures path + q == "/foo?bar=1&baz=2"
  {
  }

  lemma ExtraQueryText(fill: string, k: string, v: string, expected: string)
    requires k == "baz" && v == "2"
    requires (fill == "/foo/1" && expected == "/foo/1?baz=2") || (fill == "/foo/1/baz" && expected == "/foo/1/baz?baz=2")
    ensures fill + ("?" + (k + "=" + v)) == expected
  {
  }

  /** ... and passes every variable to the query string ... */
  lemma RouteFooOneQuery(parts: seq<Part>, vars: Vars)
    requires parts == FooRoute() && vars == [("bar", "1")]
    ensures RoutePath(parts, vars) == "/foo?bar=1"
  {
    FooShape(parts, vars);
    QuerySingle(vars);
    OneQueryText("/foo", vars[0].0, vars[0].1, "/foo?bar=1");
  }

  /** ... in insertion order, joined by '&'. */
  lemma RouteFooTwoQuery(parts: seq<Part>, vars: Vars)
    requires parts == FooRoute() && vars == [("bar", "1"), ("baz", "2")]
    ensures RoutePath(parts, vars) == "/foo?bar=1&baz=2"
  {
    FooShape(parts, vars);
    QueryTwo(vars);
    TwoQueryPathText("/foo", QuerySuffix(vars));
  }

  lemma QueryTwo(vars: Vars)
    requires vars == [("bar", "1"), ("baz", "2")]
    ensures QuerySuffix(vars) == "?bar=1&baz=2"
  {
    var rest := vars[1..];
    assert rest == [("baz", "2")];
    assert BuildQuery(vars) == QueryPair(vars[0]) + "&" + QueryPair(rest[0]);
    PlainPair(vars[0]);
    PlainPair(rest[0]);
    TwoQueryText(vars[0].0, vars[0].1, rest[0].0, rest[0].1);
  }

  /** A missing trailing placeholder collapses the route to '/foo'. */
  lemma RouteBarMissing(parts: seq<Part>)
    requires parts == BarRoute()
    ensures RoutePath(parts, []) == "/foo"
  {
    assert parts == [Lit("/foo/")] + [Param("bar", "[^/]+")] + [];
    RoutePathMissing([Lit("/foo/")], "bar", "[^/]+", [], []);
    assert Fill([Lit("/foo/")], []) == "/foo/";
    assert TrimTrailingSlash("/foo/") == "/foo";
  }

  /** `bar` is given the value 1. */
  lemma BarGiven(vars: Vars)
    requires vars == [("bar", "1")] || vars == [("bar", "1"), ("baz", "2")]
    ensures Has(vars, "bar") && Lookup(vars, "bar") == Some("1")
  {
    assert vars[0].0 == "bar";
  }

  /** The placeholder of route `bar` is filled with 1. */
  lemma BarFilled(parts: seq<Part>, vars: Vars)
    requires parts == BarRoute()
    requires vars == [("bar", "1")] || vars == [("bar", "1"), ("baz", "2")]
    ensures AllPresent(parts, vars) && ParamNames(parts) == ["bar"]
    ensures Fill(parts, vars) == "/foo/1"
  {
    BarGiven(vars);
    assert parts[1..][1..] == [];
    assert Fill(parts[1..], vars) == "1";
  }

  /** The placeholder of route `baz` is filled with 1, and its literal tail follows. */
  lemma BazFilled(parts: seq<Part>, vars: Vars)
    requires parts == BazRoute()
    requires vars == [("bar", "1")] || vars == [("bar", "1"), ("baz", "2")]
    ensures AllPresent(parts, vars) && ParamNames(parts) == ["bar"]
    ensures Fill(parts, vars) == "/foo/1/baz"
  {
    BarGiven(vars);
    BazNames(parts);
    BazTail(parts[1..], vars);
  }

  lemma BazNames(parts: seq<Part>)
    requires parts == BazRoute()
    ensures ParamNames(parts) == ["bar"]
  {
    assert parts[1..][1..][1..] == [];
  }

  lemma BazTail(tail: seq<Part>, vars: Vars)
    requires tail == [Param("bar", "[^/]+"), Lit("/baz")]
    requires Lookup(vars, "bar") == Some("1")
    ensures Fill(tail, vars) == "1/baz"
  {
    assert tail[1..][1..] == [];
    assert Fill(tail[1..], vars) == "/baz";
  }

  /** Of `bar=1&baz=2`, only `baz=2` is left once `bar` fills a placeholder. */
  lemma LeftoverBaz(vars: Vars, used: seq<string>)
    requires vars == [("bar", "1"), ("baz", "2")] && used == ["bar"]
    ensures Leftover(vars, used) == [("baz", "2")]
  {
    assert vars[1..] == [("baz", "2")];
    assert Leftover(vars[1..], used) == [("baz", "2")] by {
      assert vars[1..][1..] == [];
    }
  }

  /** A supplied placeholder is substituted and does not reach the query string. */
  lemma RouteBarGiven(parts: seq<Part>, vars: Vars)
    requires parts == BarRoute() && vars == [("bar", "1")]
    ensures RoutePath(parts, vars) == "/foo/1"
  {
    BarFilled(parts, vars);
    RoutePathAllPresent(parts, vars);
    assert Leftover(vars, ["bar"]) == [];
  }

  lemma RouteBarExtra(parts: seq<Part>, vars: Vars)
    requires parts == BarRoute() && vars == [("bar", "1"), ("baz", "2")]
    ensures RoutePath(parts, vars) == "/foo/1?baz=2"
  {
    BarFilled(parts, vars);
    RoutePathAllPresent(parts, vars);
    var rest := Leftover(vars, ["bar"]);
    LeftoverBaz(vars, ["bar"]);
    QuerySingle(rest);
    ExtraQueryText(Fill(parts, vars), rest[0].0, rest[0].1, "/foo/1?baz=2");
  }

  /** Literal text after a placeholder stays ... */
  lemma RouteBazGiven(parts: seq<Part>, vars: Vars)
    requires parts == BazRoute() && vars == [("bar", "1")]
    ensures RoutePath(parts, vars) == "/foo/1/baz"
  {
    BazFilled(parts, vars);
    RoutePathAllPresent(parts, vars);
    assert Leftover(vars, ["bar"]) == [];
  }

  /** ... and a variable named like that text still goes to the query string. */
  lemma RouteBazExtra(parts: seq<Part>, vars: Vars)
    requires parts == BazRoute() && vars == [("bar", "1"), ("baz", "2")]
    ensures RoutePath(parts, vars) == "/foo/1/baz?baz=2"
  {
    BazFilled(parts, vars);
    RoutePathAllPresent(parts, vars);
    var rest := Leftover(vars, ["bar"]);
    LeftoverBaz(vars, ["bar"]);
    QuerySingle(rest);
    ExtraQueryText(Fill(parts, vars), rest[0].0, rest[0].1, "/foo/1/baz?baz=2");
  }

  /** The test's table resolves each name to its parts. */
  lemma TestRoutesResolve(vars: Vars)
    ensures NamedRoute(TestRoutes(), "foo", vars) == Ok(RoutePath(FooRoute(), vars))
    ensures NamedRoute(TestRoutes(), "bar", vars) == Ok(RoutePath(BarRoute(), vars))
    ensures NamedRoute(TestRoutes(), "baz", vars) == Ok(RoutePath(BazRoute(), vars))
  {
  }

  /** An unknown route name is the not-defined error. */
  lemma RouteNotDefinedCase()
    ensures NamedRoute(map[], "foo", []).Err?
    ensures Message(NamedRoute(map[], "foo", []).error) == "Route [foo] not defined."
  {
  }

  /** The targets `to` must leave alone. */
  lemma ValidHttp()
    ensures IsValidUrl("http://example.com") && IsValidUrl("https://example.com")
  {
    assert "http://example.com"[..7] == "http://";
    assert "https://example.com"[..8] == "https://";
  }

  lemma ValidSchemeRelative()
    ensures IsValidUrl("//example.com") && IsValidUrl("#foo")
  {
    assert "//example.com"[..2] == "//";
    assert "#foo"[..1] == "#";
  }

  lemma ValidMailTelSms()
    ensures IsValidUrl("mailto:hello@example.com")
    ensures IsValidUrl("tel:1234567890") && IsValidUrl("sms:1234567890")
  {
    assert "mailto:hello@example.com"[..7] == "mailto:";
    assert "tel:1234567890"[..4] == "tel:";
    assert "sms:1234567890"[..4] == "sms:";
  }

  lemma ValidFtp()
    ensures IsValidUrl("ftp://example.com")
  {
    var u := "ftp://example.com";
    assert u[..|"ftp://example.com"|] == "ftp://example.com";
    AbsoluteByPrefix(u, "ftp", "example.com");
  }

  lemma RelativeFoo()
    ensures !IsValidUrl("foo")
  {
    var u := "foo";
    assert SchemeLength(u) == 3 by {
      assert u[1..] == "oo" && u[2..] == "o" && u[3..] == "";
    }
    assert u[3..] == "";
  }

  lemma ValidRootOfTest()
    ensures ValidRoot(TestRoot())
  {
  }

  /** `to('foo')` under the test root, with the scheme left symbolic. */
  lemma ToFooBare(root: Uri, path: string, secure: Option<bool>)
    requires root == TestRoot() && path == "foo"
    ensures ToUrl(root, path, [], secure) == SchemeFor(root, secure) + "://" + root.authority + "/" + path
  {
    RelativeFoo();
    ToRelative(root, path, [], secure);
  }

  /** `to('foo', extras)` under the test root, with the scheme and the encoded tail left symbolic. */
  lemma ToFooTail(root: Uri, path: string, extras: seq<Extra>, secure: Option<bool>)
    requires root == TestRoot() && path == "foo"
    requires extras != [] && NonEmptyExtras(extras)
    ensures ToUrl(root, path, extras, secure)
         == SchemeFor(root, secure) + "://" + root.authority + "/" + path + ("/" + Tail(extras))
  {
    RelativeFoo();
    ToRelative(root, path, extras, secure);
  }

  // The expected URLs, each checked as a concatenation of plain strings in a
  // lemma of its own, for the same reason as the expected paths above.

  lemma FooText(scheme: string, host: string, path: string)
    requires scheme == "http" && host == "example.com" && path == "foo"
    ensures scheme + "://" + host + "/" + path == "http://example.com/foo"
  {
  }

  lemma SecureFooText(scheme: string, host: string, path: string)
    requires scheme == "https" && host == "example.com" && path == "foo"
    ensures scheme + "://" + host + "/" + path == "https://example.com/foo"
  {
  }

  lemma SegmentsText(scheme: string, host: string, path: string, tail: string)
    requires scheme == "http" && host == "example.com" && path == "foo" && tail == "bar/baz"
    ensures scheme + "://" + host + "/" + path + ("/" + tail) == "http://example.com/foo/bar/baz"
  {
  }

  lemma SecureSegmentText(scheme: string, host: string, path: string, tail: string)
    requires scheme == "https" && host == "example.com" && path == "foo" && tail == "bar"
    ensures scheme + "://" + host + "/" + path + ("/" + tail) == "https://example.com/foo/bar"
  {
  }

  lemma ReservedText(scheme: string, host: string, path: string, tail: string)
    requires scheme == "http" && host == "example.com" && path == "foo" && tail == "%3F/%3D"
    ensures scheme + "://" + host + "/" + path + ("/" + tail) == "http://example.com/foo/%3F/%3D"
  {
  }

  lemma RoutableText(scheme: string, host: string, path: string, tail: string)
    requires scheme == "http" && host == "example.com" && path == "foo" && tail == "1"
    ensures scheme + "://" + host + "/" + path + ("/" + tail) == "http://example.com/foo/1"
  {
  }

  /** `to('foo')` is the root, '/', and the path. */
  lemma ToFoo(root: Uri, path: string)
    requires root == TestRoot() && path == "foo"
    ensures ToUrl(root, path, [], None) == "http://example.com/foo"
  {
    ToFooBare(root, path, None);
    FooText(SchemeFor(root, None), root.authority, path);
  }

  /** `to('foo', secure: true)` and `secure('foo')` switch to https. */
  lemma ToFooSecure(root: Uri, path: string)
    requires root == TestRoot() && path == "foo"
    ensures SecureUrl(root, path, []) == "https://example.com/foo"
  {
    ToFooBare(root, path, Some(true));
    SecureFooText(SchemeFor(root, Some(true)), root.authority, path);
  }

  lemma TailBarBaz(extras: seq<Extra>)
    requires extras == [Segment("bar"), Segment("baz")]
    ensures Tail(extras) == "bar/baz"
  {
    PercentEncoding.EncodeUnreserved("bar");
    PercentEncoding.EncodeUnreserved("baz");
    assert extras[1..] == [Segment("baz")];
  }

  /** Extras become '/'-separated segments. */
  lemma ToWithSegments(root: Uri, path: string, extras: seq<Extra>)
    requires root == TestRoot() && path == "foo"
    requires extras == [Segment("bar"), Segment("baz")]
    ensures ToUrl(root, path, extras, None) == "http://example.com/foo/bar/baz"
  {
    ToFooTail(root, path, extras, None);
    TailBarBaz(extras);
    SegmentsText(SchemeFor(root, None), root.authority, path, Tail(extras));
  }

  lemma TailBar(extras: seq<Extra>)
    requires extras == [Segment("bar")]
    ensures Tail(extras) == "bar"
  {
    PercentEncoding.EncodeUnreserved("bar");
  }

  lemma SecureWithSegment(root: Uri, path: string, extras: seq<Extra>)
    requires root == TestRoot() && path == "foo"
    requires extras == [Segment("bar")]
    ensures SecureUrl(root, path, extras) == "https://example.com/foo/bar"
  {
    ToFooTail(root, path, extras, Some(true));
    TailBar(extras);
    SecureSegmentText(SchemeFor(root, Some(true)), root.authority, path, Tail(extras));
  }

  lemma TailReserved(extras: seq<Extra>)
    requires extras == [Segment("?"), Segment("=")]
    ensures Tail(extras) == "%3F/%3D"
  {
    PercentEncoding.EncodeQuestionAndEquals();
    assert extras[1..] == [Segment("=")];
  }

  /** Reserved characters in extras are percent-encoded. */
  lemma ToWithReserved(root: Uri, path: string, extras: seq<Extra>)
    requires root == TestRoot() && path == "foo"
    requires extras == [Segment("?"), Segment("=")]
    ensures ToUrl(root, path, extras, None) == "http://example.com/foo/%3F/%3D"
  {
    ToFooTail(root, path, extras, None);
    TailReserved(extras);
    ReservedText(SchemeFor(root, None), root.authority, path, Tail(extras));
  }

  lemma TailRoutable(extras: seq<Extra>)
    requires extras == [Routable("1")]
    ensures Tail(extras) == "1"
  {
    EncodeDigit("1");
  }

  /** A routable object contributes its route key. */
  lemma ToWithRoutable(root: Uri, path: string, extras: seq<Extra>)
    requires root == TestRoot() && path == "foo"
    requires extras == [Routable("1")]
    ensures ToUrl(root, path, extras, None) == "http://example.com/foo/1"
  {
    ToFooTail(root, path, extras, None);
    TailRoutable(extras);
    RoutableText(SchemeFor(root, None), root.authority, path, Tail(extras));
  }

  /** The first `to` caches the root, scheme and host only, and uses it. */
  method RootCacheCase() returns (url: string, root: string)
    ensures url == "http://example.com/foo"
    ensures root == "http://example.com"
  {
    var g := new Generator(TestRoutes());
    RelativeFoo();
    url := g.To(TestRequest(), "foo", [], None);
    assert g.cachedRoot == Some(RootOf(TestRequest()));
    TestRootIsRootOfRequest();
    ToFoo(TestRoot(), "foo");
    root := UriString(g.cachedRoot.value);
  }
}
