/**
 * The parts of Rack that the filter leans on and that are not part of this
 * model's source: the request fields Rack parses out of the environment,
 * the response triple, the `DEFAULT_PORTS` table, `fullpath` and `url`.
 * They are written as small explicit functions. The repository's tests fix
 * that a default port is left out of a URL and any other port is kept. That
 * the query follows a `?` only when it is non-empty is Rack's `fullpath`,
 * taken as Rack defines it: the tests only show non-empty queries.
 * `ParseUrl` is the partner that shows the URL determines its parts.
 */
module Rack {
  import opened Wrappers
  import Decimal

  /** A value of the Rack environment hash: text, or the integer port the filter stores. */
  datatype EnvValue = Text(text: string) | Number(number: nat)

  type EnvMap = map<string, EnvValue>

  type Headers = map<string, string>

  /** `[status, headers, body]` as a Rack application returns it. */
  datatype RackResponse = RackResponse(status: int, headers: Headers, body: seq<string>)

  /** What `Rack::Request` reads out of the environment (and what a URL is made of). */
  datatype Fields = Fields(scheme: string, host: string, port: Option<nat>, path: string, query: string)

  /** `Rack::Request::DEFAULT_PORTS[scheme]`. */
  function DefaultPort(scheme: string): Option<nat> {
    if scheme == "http" then Some(80)
    else if scheme == "https" then Some(443)
    else None
  }

  /** `fullpath`: the path, then `?` and the query when the query is non-empty. */
  function FullPath(path: string, query: string): string {
    if query == "" then path else path + "?" + query
  }

  /** The port a URL shows: none when it is absent or the scheme's default. */
  function ShownPort(scheme: string, port: Option<nat>): Option<nat> {
    if port.None? || port == DefaultPort(scheme) then None else port
  }

  /** `host` or `host:port`, the authority part of a URL or a Host header. */
  function Authority(host: string, port: Option<nat>): string {
    match port
    case None => host
    case Some(p) => host + ":" + Decimal.Show(p)
  }

  /** `url`: `scheme://host[:port]` followed by `fullpath`. */
  function Url(f: Fields): string {
    f.scheme + "://" + Authority(f.host, ShownPort(f.scheme, f.port)) + FullPath(f.path, f.query)
  }

  /** Fields that a URL can carry without ambiguity. */
  predicate UrlSafe(f: Fields) {
    && ':' !in f.scheme
    && ':' !in f.host && '/' !in f.host && '?' !in f.host
    && '?' !in f.path
    && (f.path == "" || f.path[0] == '/')
  }

  /** Position of the first character of `s` in `stop`, or `|s|` when there is none. */
  function IndexOf(s: string, stop: set<char>): (k: nat)
    ensures k <= |s|
    ensures forall i :: 0 <= i < k ==> s[i] !in stop
    ensures k < |s| ==> s[k] in stop
  {
    if s == [] || s[0] in stop then 0 else 1 + IndexOf(s[1..], stop)
  }

  /** Splits `host[:port]`; a port that is not a numeral makes the authority unreadable. */
  function SplitAuthority(a: string): Option<(string, Option<nat>)> {
    var k := IndexOf(a, {':'});
    if k == |a| then Some((a, None))
    else
      match Decimal.Parse(a[k + 1..])
      case None => None
      case Some(p) => Some((a[..k], Some(p)))
  }

  /** Splits `fullpath` at its first `?` into the path and the query. */
  function SplitFullPath(full: string): (string, string) {
    var q := IndexOf(full, {'?'});
    (full[..q], if q < |full| then full[q + 1..] else "")
  }

  /** Reads `authority[path][?query]`, the part of a URL after `scheme://`. */
  function ParseHierarchy(scheme: string, rest: string): Option<Fields> {
    var j := IndexOf(rest, {'/', '?'});
    match SplitAuthority(rest[..j])
    case None => None
    case Some(hp) =>
      var pq := SplitFullPath(rest[j..]);
      Some(Fields(scheme, hp.0, hp.1, pq.0, pq.1))
  }

  /** Reads `scheme://authority[path][?query]` back into its parts. */
  function ParseUrl(u: string): Option<Fields> {
    var i := IndexOf(u, {':'});
    if i + 3 > |u| || u[i..i + 3] != "://" then None else ParseHierarchy(u[..i], u[i + 3..])
  }

  lemma IndexOfPrefix(a: string, b: string, stop: set<char>)
    requires forall i :: 0 <= i < |a| ==> a[i] !in stop
    requires b == [] || b[0] in stop
    ensures IndexOf(a + b, stop) == |a|
  {
    assert forall i :: 0 <= i < |a| ==> (a + b)[i] == a[i];
    if b != [] {
      assert (a + b)[|a|] == b[0];
    }
  }

  /** An authority splits back into the host and the port it was built from. */
  lemma SplitAuthorityRoundTrip(host: string, port: Option<nat>)
    requires ':' !in host
    ensures SplitAuthority(Authority(host, port)) == Some((host, port))
  {
    var a := Authority(host, port);
    if port.Some? {
      var digits := Decimal.Show(port.value);
      assert a == host + (":" + digits);
      IndexOfPrefix(host, ":" + digits, {':'});
      assert a[|host| + 1..] == digits;
      assert a[..|host|] == host;
      Decimal.ParseShow(port.value);
    } else {
      IndexOfPrefix(host, [], {':'});
    }
  }

  /** `fullpath` splits back into the path and the query. */
  lemma SplitFullPathRoundTrip(path: string, query: string)
    requires '?' !in path
    ensures SplitFullPath(FullPath(path, query)) == (path, query)
  {
    var full := FullPath(path, query);
    if query == "" {
      IndexOfPrefix(path, [], {'?'});
      assert full[..|path|] == path;
    } else {
      assert full == path + ("?" + query);
      IndexOfPrefix(path, "?" + query, {'?'});
      assert full[..|path|] == path;
      assert full[|path| + 1..] == query;
    }
  }

  lemma AuthorityStopsAtPath(host: string, port: Option<nat>)
    requires '/' !in host && '?' !in host
    ensures forall i :: 0 <= i < |Authority(host, port)| ==> Authority(host, port)[i] !in {'/', '?'}
  {
    if port.Some? {
      var digits := Decimal.Show(port.value);
      var a := host + ":" + digits;
      forall i | 0 <= i < |a| ensures a[i] != '/' && a[i] != '?' {
        if i < |host| {
          assert a[i] == host[i];
        } else if i > |host| {
          assert a[i] == digits[i - |host| - 1];
        }
      }
    }
  }

  lemma ParseHierarchyRoundTrip(scheme: string, host: string, port: Option<nat>, path: string, query: string)
    requires ':' !in host && '/' !in host && '?' !in host
    requires '?' !in path && (path == "" || path[0] == '/')
    ensures ParseHierarchy(scheme, Authority(host, port) + FullPath(path, query))
         == Some(Fields(scheme, host, port, path, query))
  {
    var auth := Authority(host, port);
    var full := FullPath(path, query);
    var rest := auth + full;
    AuthorityStopsAtPath(host, port);
    assert full == [] || full[0] in {'/', '?'};
    IndexOfPrefix(auth, full, {'/', '?'});
    assert rest[..|auth|] == auth;
    assert rest[|auth|..] == full;
    SplitAuthorityRoundTrip(host, port);
    SplitFullPathRoundTrip(path, query);
  }

  /**
   * A URL built from well-formed fields reads back as the same fields, with
   * the port the URL shows: the default port of the scheme is gone, any
   * other port is there.
   */
  lemma ParseUrlRoundTrip(f: Fields)
    requires UrlSafe(f)
    ensures ParseUrl(Url(f)) == Some(f.(port := ShownPort(f.scheme, f.port)))
  {
    var rest := Authority(f.host, ShownPort(f.scheme, f.port)) + FullPath(f.path, f.query);
    var u := Url(f);
    assert u == f.scheme + ("://" + rest);
    IndexOfPrefix(f.scheme, "://" + rest, {':'});
    assert u[..|f.scheme|] == f.scheme;
    assert u[|f.scheme|..|f.scheme| + 3] == "://";
    assert u[|f.scheme| + 3..] == rest;
    ParseHierarchyRoundTrip(f.scheme, f.host, ShownPort(f.scheme, f.port), f.path, f.query);
  }
}
