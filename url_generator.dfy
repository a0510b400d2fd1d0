/**
 * The named-route URL generator: `route` renders a named route from its
 * FastRoute part list and a list of variables, `to` turns a path into an
 * absolute URL under the request root, and `secure` does the same over https.
 * The generator keeps the request root (scheme and authority only) in the
 * request context once it has been computed.
 */
module UrlGenerator {
  import opened Wrappers
  import PercentEncoding

  // ---------------------------------------------------------------------
  // Route table and variables
  // ---------------------------------------------------------------------

  /** One entry of a parsed route: literal text, or a `[name, regex]` placeholder. */
  datatype Part = Lit(text: string) | Param(name: string, pattern: string)

  /** Route name to parsed route, as the router's named-route collector returns it. */
  type RouteTable = map<string, seq<Part>>

  /** The variables of a call, in insertion order, each value already in its string form. */
  type Vars = seq<(string, string)>

  datatype UrlError = RouteNotDefined(name: string)

  /** The message of the InvalidArgumentException thrown for an unknown route. */
  function Message(e: UrlError): string {
    match e
    case RouteNotDefined(name) => "Route [" + name + "] not defined."
  }

  predicate Has(vars: Vars, key: string) {
    exists i :: 0 <= i < |vars| && vars[i].0 == key
  }

  /** The value stored under `key`, if any. */
  function Lookup(vars: Vars, key: string): (r: Option<string>)
    ensures r.Some? <==> Has(vars, key)
    ensures r.Some? ==> (key, r.value) in vars
  {
    if vars == [] then None
    else if vars[0].0 == key then Some(vars[0].1)
    else
      var r := Lookup(vars[1..], key);
      assert forall i :: 1 <= i < |vars| ==> vars[i] == vars[1..][i - 1];
      r
  }

  // ---------------------------------------------------------------------
  // Rendering a route
  // ---------------------------------------------------------------------

  /** What a walk over the parts produced: the text, the names it consumed, and whether it reached the end. */
  datatype Rendered = Rendered(path: string, used: seq<string>, complete: bool)

  /**
   * Walks the parts in order. A literal is copied; a placeholder takes the
   * variable of the same name. At the first placeholder without a variable
   * the walk stops and drops everything from there on.
   */
  function Render(parts: seq<Part>, vars: Vars): Rendered
  {
    if parts == [] then Rendered("", [], true)
    else
      var rest := Render(parts[1..], vars);
      match parts[0]
      case Lit(t) => Rendered(t + rest.path, rest.used, rest.complete)
      case Param(n, _) =>
        match Lookup(vars, n)
        case None => Rendered("", [], false)
        case Some(v) => Rendered(v + rest.path, [n] + rest.used, rest.complete)
  }

  /** The variables that no placeholder consumed, in their original order. */
  function Leftover(vars: Vars, used: seq<string>): (r: Vars)
    ensures |r| <= |vars|
    ensures forall kv :: kv in r <==> kv in vars && kv.0 !in used
  {
    if vars == [] then []
    else
      var rest := Leftover(vars[1..], used);
      assert forall kv :: kv in vars <==> kv == vars[0] || kv in vars[1..];
      if vars[0].0 in used then rest else [vars[0]] + rest
  }

  function TrimTrailingSlash(s: string): (r: string)
  {
    if s != [] && s[|s| - 1] == '/' then s[..|s| - 1] else s
  }

  /** `k=v` with both sides percent-encoded. */
  function QueryPair(kv: (string, string)): string {
    PercentEncoding.Encode(kv.0) + "=" + PercentEncoding.Encode(kv.1)
  }

  /** The pairs joined by `&`. */
  function BuildQuery(vars: Vars): string {
    if vars == [] then ""
    else if |vars| == 1 then QueryPair(vars[0])
    else QueryPair(vars[0]) + "&" + BuildQuery(vars[1..])
  }

  /** The query string appended to a path: nothing when no variable is left. */
  function QuerySuffix(vars: Vars): string {
    if vars == [] then "" else "?" + BuildQuery(vars)
  }

  /**
   * The path of a route: the rendered parts (one trailing '/' removed when
   * the walk stopped at a missing placeholder), then the unused variables
   * as a query string.
   */
  function RoutePath(parts: seq<Part>, vars: Vars): string {
    var r := Render(parts, vars);
    var path := if r.complete then r.path else TrimTrailingSlash(r.path);
    path + QuerySuffix(Leftover(vars, r.used))
  }

  /** `route(name, vars)`: the path of a registered route, or the not-defined error. */
  function NamedRoute(routes: RouteTable, name: string, vars: Vars): (r: Result<string, UrlError>)
    ensures r.Err? <==> name !in routes
    ensures r.Err? ==> Message(r.error) == "Route [" + name + "] not defined."
    ensures r.Ok? ==> r.value == RoutePath(routes[name], vars)
  {
    if name in routes then Ok(RoutePath(routes[name], vars)) else Err(RouteNotDefined(name))
  }

  // ---------------------------------------------------------------------
  // Reference definitions for rendering
  // ---------------------------------------------------------------------

  predicate AllPresent(parts: seq<Part>, vars: Vars) {
    forall i :: 0 <= i < |parts| && parts[i].Param? ==> Has(vars, parts[i].name)
  }

  predicate NoParams(parts: seq<Part>) {
    forall i :: 0 <= i < |parts| ==> parts[i].Lit?
  }

  function ParamNames(parts: seq<Part>): seq<string> {
    if parts == [] then []
    else (if parts[0].Param? then [parts[0].name] else []) + ParamNames(parts[1..])
  }

  /** The template filled in: each placeholder replaced by its variable (the empty text when there is none). */
  function Fill(parts: seq<Part>, vars: Vars): string {
    if parts == [] then ""
    else
      (match parts[0]
       case Lit(t) => t
       case Param(n, _) => Lookup(vars, n).GetOr(""))
      + Fill(parts[1..], vars)
  }

  lemma {:induction false} RenderAllPresent(parts: seq<Part>, vars: Vars)
    requires AllPresent(parts, vars)
    ensures Render(parts, vars) == Rendered(Fill(parts, vars), ParamNames(parts), true)
  {
    if parts != [] {
      assert AllPresent(parts[1..], vars) by {
        forall i | 0 <= i < |parts[1..]| && parts[1..][i].Param?
          ensures Has(vars, parts[1..][i].name)
        {
          assert parts[1..][i] == parts[i + 1];
        }
      }
      RenderAllPresent(parts[1..], vars);
      if parts[0].Param? {
        assert Has(vars, parts[0].name);
      }
    }
  }

  /** With every placeholder supplied, the route is the filled template followed by the unconsumed variables. */
  lemma RoutePathAllPresent(parts: seq<Part>, vars: Vars)
    requires AllPresent(parts, vars)
    ensures RoutePath(parts, vars) == Fill(parts, vars) + QuerySuffix(Leftover(vars, ParamNames(parts)))
  {
    RenderAllPresent(parts, vars);
  }

  /**
   * The rule for a missing placeholder: the route stops right before it,
   * loses one trailing '/', and only the variables consumed before it are
   * kept out of the query string.
   */
  lemma {:induction false} RenderStopsAtMissing(pre: seq<Part>, name: string, pattern: string, post: seq<Part>, vars: Vars)
    requires AllPresent(pre, vars) && !Has(vars, name)
    ensures Render(pre + [Param(name, pattern)] + post, vars) == Rendered(Fill(pre, vars), ParamNames(pre), false)
  {
    var parts := pre + [Param(name, pattern)] + post;
    if pre == [] {
      assert parts[0] == Param(name, pattern);
    } else {
      assert parts[0] == pre[0];
      assert parts[1..] == pre[1..] + [Param(name, pattern)] + post;
      assert AllPresent(pre[1..], vars) by {
        forall i | 0 <= i < |pre[1..]| && pre[1..][i].Param?
          ensures Has(vars, pre[1..][i].name)
        {
          assert pre[1..][i] == pre[i + 1];
        }
      }
      RenderStopsAtMissing(pre[1..], name, pattern, post, vars);
      if pre[0].Param? {
        assert Has(vars, pre[0].name);
      }
    }
  }

  lemma RoutePathMissing(pre: seq<Part>, name: string, pattern: string, post: seq<Part>, vars: Vars)
    requires AllPresent(pre, vars) && !Has(vars, name)
    ensures RoutePath(pre + [Param(name, pattern)] + post, vars)
         == TrimTrailingSlash(Fill(pre, vars)) + QuerySuffix(Leftover(vars, ParamNames(pre)))
  {
    RenderStopsAtMissing(pre, name, pattern, post, vars);
  }

  /** The literal text of a parameterless route. */
  function Literal(parts: seq<Part>): string
    requires NoParams(parts)
  {
    if parts == [] then "" else parts[0].text + Literal(parts[1..])
  }

  /** A parameterless route renders its literal text and passes every variable, in order, to the query string. */
  lemma {:induction false} LiteralRoute(parts: seq<Part>, vars: Vars)
    requires NoParams(parts)
    ensures RoutePath(parts, vars) == Literal(parts) + QuerySuffix(vars)
  {
    LiteralRender(parts, vars);
    LeftoverNoneUsed(vars, []);
  }

  lemma {:induction false} LiteralRender(parts: seq<Part>, vars: Vars)
    requires NoParams(parts)
    ensures Render(parts, vars) == Rendered(Literal(parts), [], true)
  {
    if parts != [] {
      assert NoParams(parts[1..]) by {
        forall i | 0 <= i < |parts[1..]| ensures parts[1..][i].Lit? {
          assert parts[1..][i] == parts[i + 1];
        }
      }
      LiteralRender(parts[1..], vars);
    }
  }

  /** No variable named in `used`: nothing is removed and the order is kept. */
  lemma {:induction false} LeftoverNoneUsed(vars: Vars, used: seq<string>)
    requires forall i :: 0 <= i < |vars| ==> vars[i].0 !in used
    ensures Leftover(vars, used) == vars
  {
    if vars != [] {
      LeftoverNoneUsed(vars[1..], used);
    }
  }

  /** The unconsumed variables keep their relative order. */
  lemma {:induction false} LeftoverAppend(a: Vars, b: Vars, used: seq<string>)
    ensures Leftover(a + b, used) == Leftover(a, used) + Leftover(b, used)
  {
    if a != [] {
      assert (a + b)[1..] == a[1..] + b;
      LeftoverAppend(a[1..], b, used);
    } else {
      assert a + b == b;
    }
  }

  // ---------------------------------------------------------------------
  // Reading a query string back
  // ---------------------------------------------------------------------

  /** `s` cut at every `d`. */
  function Split(s: string, d: char): (r: seq<string>)
    ensures |r| >= 1
  {
    if s == [] then [""]
    else
      var rest := Split(s[1..], d);
      if s[0] == d then [""] + rest else [[s[0]] + rest[0]] + rest[1..]
  }

  /** `pieces` joined with `d`. */
  function Join(pieces: seq<string>, d: char): string
    requires |pieces| >= 1
  {
    if |pieces| == 1 then pieces[0] else pieces[0] + [d] + Join(pieces[1..], d)
  }

  function IndexOf(s: string, c: char): (i: nat)
    ensures i <= |s|
    ensures i < |s| ==> s[i] == c
    ensures forall j :: 0 <= j < i ==> s[j] != c
  {
    if s == [] then 0
    else if s[0] == c then 0
    else 1 + IndexOf(s[1..], c)
  }

  /** One `k=v` pair decoded; a pair without '=' has the empty value. */
  function ParsePair(s: string): (string, string) {
    var i := IndexOf(s, '=');
    if i == |s| then (PercentEncoding.Decode(s), "")
    else (PercentEncoding.Decode(s[..i]), PercentEncoding.Decode(s[i + 1..]))
  }

  /** A query string read back into its variables. */
  function ParseQuery(q: string): Vars {
    if q == [] then []
    else
      var pieces := Split(q, '&');
      seq(|pieces|, i requires 0 <= i < |pieces| => ParsePair(pieces[i]))
  }

  lemma {:induction false} SplitNoDelimiter(s: string, d: char)
    requires d !in s
    ensures Split(s, d) == [s]
  {
    if s != [] {
      assert d !in s[1..] by {
        forall c | c in s[1..] ensures c != d { assert c in s; }
      }
      SplitNoDelimiter(s[1..], d);
      assert s[0] != d by { assert s[0] in s; }
      assert [s[0]] + s[1..] == s;
    }
  }

  lemma {:induction false} SplitAfterDelimiter(x: string, d: char, y: string)
    requires d !in x
    ensures Split(x + [d] + y, d) == [x] + Split(y, d)
  {
    if x == [] {
      assert x + [d] + y == [d] + y;
      assert ([d] + y)[1..] == y;
    } else {
      assert (x + [d] + y)[1..] == x[1..] + [d] + y;
      SplitAfterDelimiter(x[1..], d, y);
      assert [x[0]] + x[1..] == x;
    }
  }

  lemma {:induction false} SplitJoin(pieces: seq<string>, d: char)
    requires |pieces| >= 1
    requires forall i :: 0 <= i < |pieces| ==> d !in pieces[i]
    ensures Split(Join(pieces, d), d) == pieces
  {
    if |pieces| == 1 {
      SplitNoDelimiter(pieces[0], d);
    } else {
      SplitJoin(pieces[1..], d);
      SplitAfterDelimiter(pieces[0], d, Join(pieces[1..], d));
    }
  }

  /** The encoded pairs of the variables. */
  function Pairs(vars: Vars): (r: seq<string>)
    ensures |r| == |vars|
  {
    seq(|vars|, i requires 0 <= i < |vars| => QueryPair(vars[i]))
  }

  lemma {:induction false} BuildQueryIsJoin(vars: Vars)
    requires |vars| >= 1
    ensures BuildQuery(vars) == Join(Pairs(vars), '&')
  {
    if |vars| > 1 {
      BuildQueryIsJoin(vars[1..]);
      assert Pairs(vars)[1..] == Pairs(vars[1..]);
    }
  }

  lemma ParsePairInverse(kv: (string, string))
    ensures ParsePair(QueryPair(kv)) == kv
  {
    var k := PercentEncoding.Encode(kv.0);
    var v := PercentEncoding.Encode(kv.1);
    PercentEncoding.EncodedHasNo(kv.0, '=');
    var s := k + "=" + v;
    assert s[|k|] == '=';
    assert IndexOf(s, '=') == |k| by {
      forall j | 0 <= j < |k| ensures s[j] != '=' {
        assert s[j] == k[j];
      }
    }
    assert s[..|k|] == k;
    assert s[|k| + 1..] == v;
    PercentEncoding.DecodeEncode(kv.0);
    PercentEncoding.DecodeEncode(kv.1);
  }

  /** Reading the query string of a list of variables gives back that list. */
  lemma QueryRoundTrip(vars: Vars)
    ensures ParseQuery(BuildQuery(vars)) == vars
  {
    if vars != [] {
      var pieces := Pairs(vars);
      forall i | 0 <= i < |pieces| ensures '&' !in pieces[i] {
        PercentEncoding.EncodedHasNo(vars[i].0, '&');
        PercentEncoding.EncodedHasNo(vars[i].1, '&');
      }
      BuildQueryIsJoin(vars);
      SplitJoin(pieces, '&');
      assert BuildQuery(vars) != [] by {
        assert |pieces[0]| >= 1;
        JoinStartsWith(pieces, '&');
      }
      forall i | 0 <= i < |vars| ensures ParsePair(pieces[i]) == vars[i] {
        ParsePairInverse(vars[i]);
      }
    }
  }

  lemma JoinStartsWith(pieces: seq<string>, d: char)
    requires |pieces| >= 1
    ensures |Join(pieces, d)| >= |pieces[0]|
  {
  }

  // ---------------------------------------------------------------------
  // Absolute URLs
  // ---------------------------------------------------------------------

  /** A URI as the request carries it. */
  datatype Uri = Uri(scheme: string, authority: string, path: string, query: string, fragment: string)

  function UriString(u: Uri): string {
    u.scheme + "://" + u.authority + u.path
    + (if u.query == "" then "" else "?" + u.query)
    + (if u.fragment == "" then "" else "#" + u.fragment)
  }

  /** The root kept in the request context: scheme and authority, no path, query or fragment. */
  function RootOf(request: Uri): (r: Uri)
    ensures r.scheme == request.scheme && r.authority == request.authority
    ensures r.path == "" && r.query == "" && r.fragment == ""
    ensures UriString(r) == request.scheme + "://" + request.authority
  {
    Uri(request.scheme, request.authority, "", "", "")
  }

  /** An extra path segment: plain text, or an object that supplies its route key. */
  datatype Extra = Segment(text: string) | Routable(routeKey: string)

  function FormatExtra(e: Extra): string {
    match e
    case Segment(t) => t
    case Routable(k) => k
  }

  /** The extras percent-encoded and joined by '/'. */
  function Tail(extras: seq<Extra>): string {
    if extras == [] then ""
    else if |extras| == 1 then PercentEncoding.Encode(FormatExtra(extras[0]))
    else PercentEncoding.Encode(FormatExtra(extras[0])) + "/" + Tail(extras[1..])
  }

  predicate StartsWith(s: string, prefix: string) {
    |prefix| <= |s| && s[..|prefix|] == prefix
  }

  predicate IsSchemeChar(c: char) {
    ('a' <= c <= 'z') || ('A' <= c <= 'Z') || ('0' <= c <= '9') || c == '+' || c == '-' || c == '.'
  }

  predicate IsScheme(s: string) {
    |s| > 0 && (('a' <= s[0] <= 'z') || ('A' <= s[0] <= 'Z'))
    && forall i :: 0 <= i < |s| ==> IsSchemeChar(s[i])
  }

  /** The length of the run of scheme characters at the start of `s`. */
  function SchemeLength(s: string): (n: nat)
    ensures n <= |s|
    ensures forall i :: 0 <= i < n ==> IsSchemeChar(s[i])
    ensures n < |s| ==> !IsSchemeChar(s[n])
  {
    if s == [] || !IsSchemeChar(s[0]) then 0 else 1 + SchemeLength(s[1..])
  }

  /** `scheme://` followed by something: the URLs PHP's URL filter accepts, in outline. */
  predicate HasSchemeAndAuthority(s: string) {
    var n := SchemeLength(s);
    IsScheme(s[..n]) && StartsWith(s[n..], "://") && |s| > n + 3
  }

  /** Targets that `to` returns as they are. */
  predicate IsValidUrl(s: string) {
    StartsWith(s, "#") || StartsWith(s, "//") || StartsWith(s, "http://") || StartsWith(s, "https://")
    || StartsWith(s, "mailto:") || StartsWith(s, "tel:") || StartsWith(s, "sms:")
    || HasSchemeAndAuthority(s)
  }

  function TrimLeft(s: string): (r: string)
    ensures r == [] || r[0] != '/'
  {
    if s != [] && s[0] == '/' then TrimLeft(s[1..]) else s
  }

  function TrimRight(s: string): (r: string)
    ensures r == [] || r[|r| - 1] != '/'
    ensures |r| <= |s| && r == s[..|r|]
  {
    if s != [] && s[|s| - 1] == '/' then TrimRight(s[..|s| - 1]) else s
  }

  /** PHP's trim($s, '/'). */
  function TrimSlashes(s: string): (r: string)
    ensures r == [] || (r[0] != '/' && r[|r| - 1] != '/')
  {
    TrimRight(TrimLeft(s))
  }

  /** `ltrim($s, '/')` removes the leading run of `/` and nothing else. */
  lemma {:induction false} TrimLeftCutsSlashes(s: string)
    ensures TrimLeft(s) == [] || TrimLeft(s)[0] != '/'
    ensures |TrimLeft(s)| <= |s| && TrimLeft(s) == s[|s| - |TrimLeft(s)|..]
    ensures forall i :: 0 <= i < |s| - |TrimLeft(s)| ==> s[i] == '/'
  {
    if s != [] && s[0] == '/' {
      TrimLeftCutsSlashes(s[1..]);
    }
  }

  /** `rtrim($s, '/')` removes the trailing run of `/` and nothing else. */
  lemma {:induction false} TrimRightCutsSlashes(s: string)
    ensures TrimRight(s) == [] || TrimRight(s)[|TrimRight(s)| - 1] != '/'
    ensures |TrimRight(s)| <= |s| && TrimRight(s) == s[..|TrimRight(s)|]
    ensures forall i :: |TrimRight(s)| <= i < |s| ==> s[i] == '/'
  {
    if s != [] && s[|s| - 1] == '/' {
      TrimRightCutsSlashes(s[..|s| - 1]);
    }
  }

  /**
   * `trim($s, '/')` keeps one contiguous piece of `s`: everything before it
   * and everything after it is `/`.
   */
  lemma TrimSlashesCutsSlashes(s: string)
    ensures TrimSlashes(s) == [] || (TrimSlashes(s)[0] != '/' && TrimSlashes(s)[|TrimSlashes(s)| - 1] != '/')
    ensures var r := TrimSlashes(s);
      exists k {:trigger s[k..]} :: 0 <= k <= |s| - |r| && r == s[k..][..|r|]
        && (forall i :: 0 <= i < k ==> s[i] == '/')
        && (forall i :: k + |r| <= i < |s| ==> s[i] == '/')
  {
    var l := TrimLeft(s);
    var r := TrimSlashes(s);
    var k := |s| - |l|;
    TrimLeftCutsSlashes(s);
    TrimRightCutsSlashes(l);
    assert r == s[k..][..|r|];
    forall i | k + |r| <= i < |s| ensures s[i] == '/' {
      assert s[i] == l[i - k];
    }
  }

  /** The scheme of a generated URL: forced by `secure` when given, the root's own otherwise. */
  function SchemeFor(root: Uri, secure: Option<bool>): string {
    match secure
    case Some(true) => "https"
    case Some(false) => "http"
    case None => root.scheme
  }

  /** `to(path, extra, secure)` under a given root. */
  function ToUrl(root: Uri, path: string, extras: seq<Extra>, secure: Option<bool>): string {
    if IsValidUrl(path) then path
    else
      var base := SchemeFor(root, secure) + "://" + root.authority;
      TrimSlashes(base + "/" + TrimSlashes(path + "/" + Tail(extras)))
  }

  /** `secure(path, extra)` */
  function SecureUrl(root: Uri, path: string, extras: seq<Extra>): string {
    ToUrl(root, path, extras, Some(true))
  }

  /** Already-absolute targets come back unchanged. */
  lemma ToPassesThrough(root: Uri, path: string, extras: seq<Extra>, secure: Option<bool>)
    requires IsValidUrl(path)
    ensures ToUrl(root, path, extras, secure) == path
  {
  }

  /** A root that yields well-formed URLs: a scheme, and a non-empty authority not ending in '/'. */
  predicate ValidRoot(root: Uri) {
    IsScheme(root.scheme) && root.authority != "" && root.authority[|root.authority| - 1] != '/'
  }

  /** Extras whose text is not empty. */
  predicate NonEmptyExtras(extras: seq<Extra>) {
    forall i :: 0 <= i < |extras| ==> FormatExtra(extras[i]) != ""
  }

  lemma TrimNothing(s: string)
    requires s != [] && s[0] != '/' && s[|s| - 1] != '/'
    ensures TrimSlashes(s) == s
  {
  }

  lemma {:induction false} TrimRightSlash(p: string)
    requires p == [] || p[|p| - 1] != '/'
    ensures TrimRight(p + "/") == p
  {
    assert (p + "/")[..|p + "/"| - 1] == p;
  }

  lemma {:induction false} EncodeNonEmpty(s: string)
    requires s != []
    ensures PercentEncoding.Encode(s) != []
    ensures PercentEncoding.Encode(s)[0] != '/'
    ensures PercentEncoding.Encode(s)[|PercentEncoding.Encode(s)| - 1] != '/'
  {
    var e := PercentEncoding.Encode(s);
    PercentEncoding.EncodedHasNo(s, '/');
    assert PercentEncoding.Encode(s) == PercentEncoding.EncodeChar(s[0]) + PercentEncoding.Encode(s[1..]);
    assert e[0] in e && e[|e| - 1] in e;
  }

  lemma {:induction false} TailShape(extras: seq<Extra>)
    requires extras != [] && NonEmptyExtras(extras)
    ensures Tail(extras) != [] && Tail(extras)[0] != '/' && Tail(extras)[|Tail(extras)| - 1] != '/'
  {
    EncodeNonEmpty(FormatExtra(extras[0]));
    if |extras| > 1 {
      assert NonEmptyExtras(extras[1..]) by {
        forall i | 0 <= i < |extras[1..]| ensures FormatExtra(extras[1..][i]) != "" {
          assert extras[1..][i] == extras[i + 1];
        }
      }
      TailShape(extras[1..]);
    }
  }

  /**
   * A relative path with no slash at either end becomes root + '/' + path,
   * followed by '/' and the encoded extras when there are any.
   */
  lemma ToRelative(root: Uri, path: string, extras: seq<Extra>, secure: Option<bool>)
    requires ValidRoot(root) && !IsValidUrl(path)
    requires path != [] && path[0] != '/' && path[|path| - 1] != '/'
    requires NonEmptyExtras(extras)
    ensures ToUrl(root, path, extras, secure)
         == SchemeFor(root, secure) + "://" + root.authority + "/" + path
            + (if extras == [] then "" else "/" + Tail(extras))
  {
    var base := SchemeFor(root, secure) + "://" + root.authority;
    var inner := path + "/" + Tail(extras);
    TrimInner(path, extras);
    var whole := base + "/" + TrimSlashes(inner);
    assert whole[0] == base[0];
    assert SchemeFor(root, secure)[0] != '/';
    TrimNothing(whole);
  }

  /** Path and tail joined by '/' lose only the '/' left over when there is no tail. */
  lemma TrimInner(path: string, extras: seq<Extra>)
    requires path != [] && path[0] != '/' && path[|path| - 1] != '/'
    requires NonEmptyExtras(extras)
    ensures TrimSlashes(path + "/" + Tail(extras)) == path + (if extras == [] then "" else "/" + Tail(extras))
  {
    if extras == [] {
      TrimBare(path);
    } else {
      TrimWithTail(path, extras);
    }
  }

  lemma TrimWithTail(path: string, extras: seq<Extra>)
    requires path != [] && path[0] != '/' && path[|path| - 1] != '/'
    requires extras != [] && NonEmptyExtras(extras)
    ensures TrimSlashes(path + "/" + Tail(extras)) == path + "/" + Tail(extras)
  {
    var tail := Tail(extras);
    TailShape(extras);
    var inner := path + "/" + tail;
    assert inner[0] == path[0];
    assert inner[|inner| - 1] == tail[|tail| - 1];
    TrimNothing(inner);
  }

  lemma TrimBare(path: string)
    requires path != [] && path[0] != '/' && path[|path| - 1] != '/'
    ensures TrimSlashes(path + "/" + "") == path
  {
    var inner := path + "/";
    assert path + "/" + "" == inner;
    TrimRightSlash(path);
    assert TrimLeft(inner) == inner;
  }

  lemma {:induction false} SchemeLengthOfUrl(scheme: string, rest: string)
    requires forall i :: 0 <= i < |scheme| ==> IsSchemeChar(scheme[i])
    ensures SchemeLength(scheme + ":" + rest) == |scheme|
  {
    if scheme != [] {
      assert (scheme + ":" + rest)[1..] == scheme[1..] + ":" + rest;
      SchemeLengthOfUrl(scheme[1..], rest);
    }
  }

  /** A string that starts with `scheme://authority` is absolute. */
  lemma AbsoluteByPrefix(u: string, scheme: string, authority: string)
    requires IsScheme(scheme) && authority != []
    requires StartsWith(u, scheme + "://" + authority)
    ensures HasSchemeAndAuthority(u)
  {
    var n := |scheme|;
    assert u == scheme + ":" + u[n + 1..] by {
      assert u[..n + 1] == (scheme + "://" + authority)[..n + 1] == scheme + ":";
    }
    SchemeLengthOfUrl(scheme, u[n + 1..]);
    assert u[..n] == scheme;
    assert u[n..][..3] == (scheme + "://" + authority)[n..n + 3];
  }

  /** Every URL `to` builds starts with the scheme, "://" and the root's authority. */
  lemma GeneratedPrefix(root: Uri, path: string, extras: seq<Extra>, secure: Option<bool>)
    requires ValidRoot(root) && !IsValidUrl(path)
    requires SchemeFor(root, secure) != []
    ensures StartsWith(ToUrl(root, path, extras, secure), SchemeFor(root, secure) + "://" + root.authority)
  {
    var prefix := SchemeFor(root, secure) + "://" + root.authority;
    var whole := prefix + "/" + TrimSlashes(path + "/" + Tail(extras));
    assert whole[0] == prefix[0] == SchemeFor(root, secure)[0];
    assert TrimLeft(whole) == whole;
    assert whole[|prefix| - 1] == root.authority[|root.authority| - 1];
    TrimRightKeeps(whole, |prefix|);
    assert whole[..|prefix|] == prefix;
  }

  /** Under a valid root every generated URL is absolute, so `to` of it is the same URL. */
  lemma ToIdempotent(root: Uri, path: string, extras: seq<Extra>, secure: Option<bool>,
                     extras2: seq<Extra>, secure2: Option<bool>)
    requires ValidRoot(root)
    ensures IsValidUrl(ToUrl(root, path, extras, secure))
    ensures ToUrl(root, ToUrl(root, path, extras, secure), extras2, secure2) == ToUrl(root, path, extras, secure)
  {
    if !IsValidUrl(path) {
      var scheme := SchemeFor(root, secure);
      assert IsScheme(scheme) by {
        if secure.Some? {
          assert forall i :: 0 <= i < |scheme| ==> IsSchemeChar(scheme[i]);
        }
      }
      GeneratedPrefix(root, path, extras, secure);
      AbsoluteByPrefix(ToUrl(root, path, extras, secure), scheme, root.authority);
    }
  }

  /** Trailing slashes are never trimmed into a prefix that ends in something else. */
  lemma {:induction false} TrimRightKeeps(s: string, k: nat)
    requires 0 < k <= |s| && s[k - 1] != '/'
    ensures |TrimRight(s)| >= k && TrimRight(s)[..k] == s[..k]
    decreases |s|
  {
    if s[|s| - 1] == '/' {
      assert |s| - 1 >= k;
      var t := s[..|s| - 1];
      assert t[k - 1] == s[k - 1];
      TrimRightKeeps(t, k);
      assert t[..k] == s[..k];
    }
  }

  // ---------------------------------------------------------------------
  // The generator and its cached root
  // ---------------------------------------------------------------------

  class Generator {
    /** The named routes of the router the generator reads. */
    const routes: RouteTable
    /** `request.root` in the request context: set by the first `to` that needs it. */
    var cachedRoot: Option<Uri>

    constructor (routes: RouteTable)
      ensures this.routes == routes && cachedRoot == None
    {
      this.routes := routes;
      cachedRoot := None;
    }

    /** `route(name, vars)` on the generator's route table. */
    method Route(name: string, vars: Vars) returns (r: Result<string, UrlError>)
      ensures r == NamedRoute(routes, name, vars)
    {
      if name in routes {
        r := Ok(RoutePath(routes[name], vars));
      } else {
        r := Err(RouteNotDefined(name));
      }
    }

    /**
     * `to(path, extra, secure)` for the current request. The root is taken
     * from the cache, or computed from the request and cached.
     */
    method To(request: Uri, path: string, extras: seq<Extra>, secure: Option<bool>) returns (url: string)
      modifies this
      ensures IsValidUrl(path) ==> url == path && cachedRoot == old(cachedRoot)
      ensures !IsValidUrl(path) ==>
        cachedRoot == Some(old(cachedRoot).GetOr(RootOf(request)))
        && url == ToUrl(cachedRoot.value, path, extras, secure)
    {
      if IsValidUrl(path) {
        return path;
      }
      if cachedRoot.None? {
        cachedRoot := Some(RootOf(request));
      }
      url := ToUrl(cachedRoot.value, path, extras, secure);
    }

    /** `secure(path, extra)` */
    method Secure(request: Uri, path: string, extras: seq<Extra>) returns (url: string)
      modifies this
      ensures IsValidUrl(path) ==> url == path && cachedRoot == old(cachedRoot)
      ensures !IsValidUrl(path) ==>
        cachedRoot == Some(old(cachedRoot).GetOr(RootOf(request)))
        && url == SecureUrl(cachedRoot.value, path, extras)
    {
      url := To(request, path, extras, Some(true));
    }
  }
}
