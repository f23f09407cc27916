/**
 * `Refraction::Request`: a view of one incoming request that layers optional
 * overrides (location, scheme, host, port, path, query) over what Rack parsed,
 * records the action a rule chose, and builds the response of a redirect or
 * of an explicit reply.
 *
 * The value type `View` is the specification: it holds exactly the instance
 * variables of the Ruby object, its getters are the Ruby getters, and
 * `Apply` is the effect of one call a rule makes. The class `Request` holds
 * the same instance variables as mutable fields, and each of its methods is
 * proved to move its state as `Apply` says.
 */
module RefractionRequest {
  import opened Wrappers
  import opened Rack
  import Decimal

  /** The request as Rack parsed it: what the getters fall back to (`super`). */
  datatype Original = Original(env: EnvMap, fields: Fields)

  /** The argument of `set`: a whole location string, or a hash of named fields (absent key = `None`). */
  datatype SetArg =
    | LocationString(location: string)
    | OptionHash(protocol: Option<string>, scheme: Option<string>, host: Option<string>,
                 port: Option<nat>, path: Option<string>, query: Option<string>)

  /** The `@re_*` slots; `None` is a slot that was never set. */
  datatype Overrides = Overrides(location: Option<string>, scheme: Option<string>, host: Option<string>,
                                 port: Option<nat>, path: Option<string>, query: Option<string>)

  const NO_OVERRIDES := Overrides(None, None, None, None, None, None)

  /** The symbols `:rewrite`, `:permanent`, `:found` and `:respond`; `@action` is nil before any of them. */
  datatype Action = Rewrite | Permanent | Found | Respond

  /** One call a rule makes on the view. */
  datatype Mark =
    | MarkSet(options: SetArg)
    | MarkRewrite(options: SetArg)
    | MarkPermanent(options: SetArg)
    | MarkFound(options: SetArg)
    | MarkRespond(status: int, headers: Option<Headers>, content: string)

  /** Every call but `set` records an action. */
  predicate IsAction(m: Mark) {
    !m.MarkSet?
  }

  function ActionOf(m: Mark): Action
    requires IsAction(m)
  {
    match m
    case MarkRewrite(_) => Rewrite
    case MarkPermanent(_) => Permanent
    case MarkFound(_) => Found
    case MarkRespond(_, _, _) => Respond
  }

  /**
   * The body `permanent!` and `found!` store: they interpolate `@uri`, which
   * nothing assigns, so the text after "moved to " is always empty.
   */
  const MOVED_MESSAGE := "moved to "

  /** `set(options)`: a string fills the location slot; a hash fills the slots of its keys. */
  function ApplySet(ov: Overrides, options: SetArg): Overrides {
    match options
    case LocationString(s) => ov.(location := Some(s))
    case OptionHash(protocol, scheme, host, port, path, query) =>
      // `:protocol` is assigned first, so a `:scheme` in the same hash wins
      var viaProtocol := if protocol.Some? then protocol else ov.scheme;
      ov.(scheme := if scheme.Some? then scheme else viaProtocol,
          host := if host.Some? then host else ov.host,
          port := if port.Some? then port else ov.port,
          path := if path.Some? then path else ov.path,
          query := if query.Some? then query else ov.query)
  }

  /** The instance variables of one `Refraction::Request`. */
  datatype View = View(original: Original, overrides: Overrides, action: Option<Action>,
                       status: Option<int>, headers: Option<Headers>, message: Option<string>)
  {
    function Scheme(): string {
      overrides.scheme.GetOr(original.fields.scheme)
    }

    function Host(): string {
      overrides.host.GetOr(original.fields.host)
    }

    function Path(): string {
      overrides.path.GetOr(original.fields.path)
    }

    function QueryString(): string {
      overrides.query.GetOr(original.fields.query)
    }

    /** A changed scheme or host replaces the original port by the scheme's default one. */
    function Port(): Option<nat> {
      if overrides.port.Some? then overrides.port
      else if (overrides.scheme.Some? || overrides.host.Some?) && DefaultPort(Scheme()).Some? then DefaultPort(Scheme())
      else original.fields.port
    }

    /** `http_host`: `host:port` when there is a port, the host alone otherwise. */
    function HttpHost(): string {
      Authority(Host(), Port())
    }

    function FullPath(): string {
      Rack.FullPath(Path(), QueryString())
    }

    /** The effective fields, as `url` reads them. */
    function Effective(): Fields {
      Fields(Scheme(), Host(), Port(), Path(), QueryString())
    }

    function Location(): string {
      overrides.location.GetOr(Url(Effective()))
    }

    predicate Terminal() {
      action == Some(Permanent) || action == Some(Found) || action == Some(Respond)
    }

    /** Every terminal action stored a status and a message. */
    predicate Valid() {
      Terminal() ==> status.Some? && message.Some?
    }

    /** `response`: `[status, headers, [message]]` with `Content-Length` written into the headers. */
    function Response(): (r: RackResponse)
      requires Valid() && Terminal()
      ensures r.status == status.value && r.body == [message.value]
      ensures "Content-Length" in r.headers
      ensures Decimal.Parse(r.headers["Content-Length"]) == Some(|message.value|)
      ensures headers.None? ==> r.headers.Keys == {"Location", "Content-Type", "Content-Length"}
      ensures headers.None? ==> r.headers["Location"] == Location() && r.headers["Content-Type"] == "text/plain"
      ensures headers.Some? ==> r.headers.Keys == headers.value.Keys + {"Content-Length"}
      ensures headers.Some? ==> forall k :: k in headers.value && k != "Content-Length" ==> r.headers[k] == headers.value[k]
    {
      var base := if headers.Some? then headers.value
                  else map["Location" := Location(), "Content-Type" := "text/plain"];
      Decimal.ParseShow(|message.value|);
      RackResponse(status.value, base["Content-Length" := Decimal.Show(|message.value|)], [message.value])
    }

    /** The effect of one call of a rule on the view. */
    function Apply(m: Mark): (r: View)
      ensures r.original == original
      ensures Valid() ==> r.Valid()
    {
      match m
      case MarkSet(o) => this.(overrides := ApplySet(overrides, o))
      case MarkRewrite(o) => this.(action := Some(Rewrite), overrides := ApplySet(overrides, o))
      case MarkPermanent(o) =>
        this.(action := Some(Permanent), status := Some(301), overrides := ApplySet(overrides, o),
              message := Some(MOVED_MESSAGE))
      case MarkFound(o) =>
        this.(action := Some(Found), status := Some(302), overrides := ApplySet(overrides, o),
              message := Some(MOVED_MESSAGE))
      case MarkRespond(s, h, c) =>
        this.(action := Some(Respond), status := Some(s), headers := h, message := Some(c))
    }
  }

  /** `Request.new(env)`: nothing overridden, no action. */
  function Initial(original: Original): View {
    View(original, NO_OVERRIDES, None, None, None, None)
  }

  /** The view after a rule made the calls `ms`, in order. */
  function Run(v: View, ms: seq<Mark>): (r: View)
    ensures r.original == v.original
    ensures v.Valid() ==> r.Valid()
    decreases |ms|
  {
    if ms == [] then v else Run(v, ms[..|ms| - 1]).Apply(ms[|ms| - 1])
  }

  // ---------------------------------------------------------------------
  // set

  /** `set` with a string changes the location slot and no other. */
  lemma SetStringTouchesOnlyLocation(ov: Overrides, s: string)
    ensures ApplySet(ov, LocationString(s)).location == Some(s)
    ensures ApplySet(ov, LocationString(s)).(location := ov.location) == ov
  {
  }

  /** `set` with a hash overwrites exactly the slots of its keys; `:scheme` beats `:protocol`. */
  lemma SetHashOverwritesPresentKeys(ov: Overrides, o: SetArg)
    requires o.OptionHash?
    ensures var r := ApplySet(ov, o);
      && r.location == ov.location
      && (o.scheme.Some? ==> r.scheme == o.scheme)
      && (o.scheme.None? && o.protocol.Some? ==> r.scheme == o.protocol)
      && (o.scheme.None? && o.protocol.None? ==> r.scheme == ov.scheme)
      && r.host == (if o.host.Some? then o.host else ov.host)
      && r.port == (if o.port.Some? then o.port else ov.port)
      && r.path == (if o.path.Some? then o.path else ov.path)
      && r.query == (if o.query.Some? then o.query else ov.query)
  {
  }

  /** Setting the same options twice is the same as setting them once. */
  lemma SetIdempotent(ov: Overrides, o: SetArg)
    ensures ApplySet(ApplySet(ov, o), o) == ApplySet(ov, o)
  {
  }

  // ---------------------------------------------------------------------
  // getters

  /** Identity law: an unset slot reads the original value, a set slot reads the override. */
  lemma GettersFallBack(v: View)
    ensures v.overrides.scheme.None? ==> v.Scheme() == v.original.fields.scheme
    ensures v.overrides.host.None? ==> v.Host() == v.original.fields.host
    ensures v.overrides.path.None? ==> v.Path() == v.original.fields.path
    ensures v.overrides.query.None? ==> v.QueryString() == v.original.fields.query
    ensures v.overrides.scheme.Some? ==> v.Scheme() == v.overrides.scheme.value
    ensures v.overrides.host.Some? ==> v.Host() == v.overrides.host.value
    ensures v.overrides.path.Some? ==> v.Path() == v.overrides.path.value
    ensures v.overrides.query.Some? ==> v.QueryString() == v.overrides.query.value
  {
  }

  /** A fresh view reads exactly what Rack parsed. */
  lemma InitialIsTransparent(original: Original)
    ensures Initial(original).Effective() == original.fields
    ensures Initial(original).Location() == Url(original.fields)
  {
  }

  /**
   * The port cascade: an explicit port wins; otherwise a changed scheme or
   * host falls back to the scheme's default port when it has one; with
   * neither, the original port stands whatever else was overridden.
   */
  lemma PortCascade(v: View)
    ensures v.overrides.port.Some? ==> v.Port() == v.overrides.port
    ensures v.overrides.port.None? && v.overrides.scheme.None? && v.overrides.host.None?
            ==> v.Port() == v.original.fields.port
    ensures v.overrides.port.None? && (v.overrides.scheme.Some? || v.overrides.host.Some?)
            ==> v.Port() == (if DefaultPort(v.Scheme()).Some? then DefaultPort(v.Scheme()) else v.original.fields.port)
  {
  }

  /** `http_host` splits back into the effective host and port. */
  lemma HttpHostReadsBack(v: View)
    requires ':' !in v.Host()
    ensures SplitAuthority(v.HttpHost()) == Some((v.Host(), v.Port()))
  {
    SplitAuthorityRoundTrip(v.Host(), v.Port());
  }

  /** A location override wins, and later field overrides do not move it. */
  lemma LocationOverrideWins(v: View, s: string)
    requires v.overrides.location == Some(s)
    ensures v.Location() == s
    ensures forall o: SetArg :: o.OptionHash? ==> v.Apply(MarkSet(o)).Location() == s
  {
  }

  /**
   * Without a location override the location is the URL of the effective
   * fields, and it reads back as them, the port included unless it is the
   * scheme's default.
   */
  lemma LocationReadsBack(v: View)
    requires v.overrides.location.None? && UrlSafe(v.Effective())
    ensures ParseUrl(v.Location()) == Some(v.Effective().(port := ShownPort(v.Scheme(), v.Port())))
  {
    ParseUrlRoundTrip(v.Effective());
  }

  /** A changed scheme or host drops an explicit original port from the location. */
  lemma AuthorityChangeDropsPort(v: View)
    requires v.overrides.location.None? && v.overrides.port.None? && UrlSafe(v.Effective())
    requires v.overrides.scheme.Some? || v.overrides.host.Some?
    requires v.Scheme() == "http" || v.Scheme() == "https"
    ensures ParseUrl(v.Location()).Some? && ParseUrl(v.Location()).value.port.None?
  {
    LocationReadsBack(v);
  }

  /** With scheme, host and port untouched, a non-default original port stays in the location. */
  lemma OtherChangesKeepPort(v: View, p: nat)
    requires v.overrides.location.None? && v.overrides.port.None? && UrlSafe(v.Effective())
    requires v.overrides.scheme.None? && v.overrides.host.None?
    requires v.original.fields.port == Some(p) && DefaultPort(v.Scheme()) != Some(p)
    ensures ParseUrl(v.Location()).Some? && ParseUrl(v.Location()).value.port == Some(p)
  {
    LocationReadsBack(v);
  }

  /**
   * Overriding the host with its own value keeps the host but still counts as
   * a change: when the scheme has a default port, that port replaces any
   * other original port.
   */
  lemma SameHostOverrideUsesDefaultPort(original: Original, d: nat)
    requires DefaultPort(original.fields.scheme) == Some(d) && original.fields.port != Some(d)
    ensures var before := Initial(original);
            var after := before.Apply(MarkSet(OptionHash(None, None, Some(original.fields.host), None, None, None)));
            && after.Host() == before.Host()
            && before.Port() == original.fields.port
            && after.Port() == Some(d)
            && after.Effective() == before.Effective().(port := Some(d))
  {
  }

  /**
   * The worked instance `http` on port 3000: no effective field changes but
   * the port, and the location then differs from the unmodified one.
   */
  lemma SameHostOverrideStillDropsPort(original: Original)
    requires original.fields.scheme == "http" && original.fields.port == Some(3000)
    requires UrlSafe(original.fields)
    ensures var before := Initial(original);
            var after := before.Apply(MarkSet(OptionHash(None, None, Some(original.fields.host), None, None, None)));
            && after.Effective() == before.Effective().(port := Some(80))
            && after.Location() != before.Location()
  {
    SameHostOverrideUsesDefaultPort(original, 80);
    var before := Initial(original);
    var after := before.Apply(MarkSet(OptionHash(None, None, Some(original.fields.host), None, None, None)));
    LocationReadsBack(before);
    LocationReadsBack(after);
  }

  // ---------------------------------------------------------------------
  // actions

  /** `set` calls leave the action, the status and the message as they were. */
  lemma {:induction false} SetsKeepAction(v: View, ms: seq<Mark>)
    requires forall j :: 0 <= j < |ms| ==> !IsAction(ms[j])
    ensures Run(v, ms).action == v.action
    ensures Run(v, ms).status == v.status && Run(v, ms).message == v.message
    decreases |ms|
  {
    if ms != [] {
      SetsKeepAction(v, ms[..|ms| - 1]);
    }
  }

  /**
   * Last call wins: the action, and for a terminal action the status and the
   * message, are those of the last action call of the rule.
   */
  lemma {:induction false} LastActionWins(v: View, ms: seq<Mark>, k: nat)
    requires k < |ms| && IsAction(ms[k])
    requires forall j :: k < j < |ms| ==> !IsAction(ms[j])
    ensures Run(v, ms).action == Some(ActionOf(ms[k]))
    ensures ms[k].MarkPermanent? ==> Run(v, ms).status == Some(301) && Run(v, ms).message == Some(MOVED_MESSAGE)
    ensures ms[k].MarkFound? ==> Run(v, ms).status == Some(302) && Run(v, ms).message == Some(MOVED_MESSAGE)
    ensures ms[k].MarkRespond? ==> Run(v, ms).status == Some(ms[k].status) && Run(v, ms).message == Some(ms[k].content)
    decreases |ms|
  {
    if k < |ms| - 1 {
      LastActionWins(v, ms[..|ms| - 1], k);
    }
  }

  /**
   * A redirect from a view without stored headers answers with its status,
   * a `Location` header holding the new location, and the fixed message.
   */
  lemma RedirectResponse(v: View, m: Mark)
    requires v.Valid() && v.headers.None?
    requires m.MarkPermanent? || m.MarkFound?
    ensures var w := v.Apply(m);
      w.Response() == RackResponse(if m.MarkPermanent? then 301 else 302,
                                   map["Location" := w.Location(), "Content-Type" := "text/plain",
                                       "Content-Length" := "9"],
                                   ["moved to "])
  {
    var w := v.Apply(m);
    assert |MOVED_MESSAGE| == 9;
    assert Decimal.Show(9) == "9";
  }

  /** `respond!` with headers answers with exactly its status, its headers plus `Content-Length`, and its content. */
  lemma RespondResponse(v: View, status: int, headers: Headers, content: string)
    requires v.Valid()
    ensures var length := |content|;
      v.Apply(MarkRespond(status, Some(headers), content)).Response()
         == RackResponse(status, headers["Content-Length" := Decimal.Show(length)], [content])
  {
  }

  /** The maintenance page of the repository's tests. */
  lemma MaintenanceResponse(v: View)
    requires v.Valid()
    ensures v.Apply(MarkRespond(503, Some(map["Content-Type" := "text/plain"]), "Site down for maintenance.")).Response()
         == RackResponse(503, map["Content-Type" := "text/plain", "Content-Length" := "26"],
                         ["Site down for maintenance."])
  {
    var content := "Site down for maintenance.";
    assert |content| == 26;
    assert Decimal.DigitChar(2) == '2' && Decimal.DigitChar(6) == '6';
    assert Decimal.Show(26) == "26";
    RespondResponse(v, 503, map["Content-Type" := "text/plain"], content);
  }

  // ---------------------------------------------------------------------
  // the object

  /**
   * `Refraction::Request` with its instance variables as fields. Every method
   * changes the fields as the corresponding call changes a `View`.
   */
  class Request {
    const original: Original
    var reLocation: Option<string>
    var reScheme: Option<string>
    var reHost: Option<string>
    var rePort: Option<nat>
    var rePath: Option<string>
    var reQuery: Option<string>
    var action: Option<Action>
    var status: Option<int>
    var headers: Option<Headers>
    var message: Option<string>

    /** The instance variables as a value. */
    function State(): View
      reads this
    {
      View(original, Overrides(reLocation, reScheme, reHost, rePort, rePath, reQuery),
           action, status, headers, message)
    }

    /** `Request.new(env)`. */
    constructor (original: Original)
      ensures State() == Initial(original)
    {
      this.original := original;
      reLocation, reScheme, reHost, rePort, rePath, reQuery := None, None, None, None, None, None;
      action, status, headers, message := None, None, None, None;
    }

    method Set(options: SetArg)
      modifies this
      ensures State() == old(State()).Apply(MarkSet(options))
    {
      match options
      case LocationString(s) =>
        reLocation := Some(s);
      case OptionHash(protocol, scheme, host, port, path, query) =>
        if protocol.Some? { reScheme := protocol; }
        if scheme.Some? { reScheme := scheme; }
        if host.Some? { reHost := host; }
        if port.Some? { rePort := port; }
        if path.Some? { rePath := path; }
        if query.Some? { reQuery := query; }
    }

    /** `rewrite!` */
    method Rewrite(options: SetArg)
      modifies this
      ensures State() == old(State()).Apply(MarkRewrite(options))
    {
      action := Some(Action.Rewrite);
      Set(options);
    }

    /** `permanent!` */
    method Permanent(options: SetArg)
      modifies this
      ensures State() == old(State()).Apply(MarkPermanent(options))
    {
      action := Some(Action.Permanent);
      status := Some(301);
      Set(options);
      message := Some(MOVED_MESSAGE);
    }

    /** `found!` */
    method Found(options: SetArg)
      modifies this
      ensures State() == old(State()).Apply(MarkFound(options))
    {
      action := Some(Action.Found);
      status := Some(302);
      Set(options);
      message := Some(MOVED_MESSAGE);
    }

    /** `respond!` */
    method Respond(status: int, headers: Option<Headers>, content: string)
      modifies this
      ensures State() == old(State()).Apply(MarkRespond(status, headers, content))
    {
      action := Some(Action.Respond);
      this.status := Some(status);
      this.headers := headers;
      message := Some(content);
    }

    /**
     * `response`. `Content-Length` is written into the stored headers when
     * `respond!` supplied them; the default headers are a new hash.
     */
    method Response() returns (r: RackResponse)
      requires State().Valid() && State().Terminal()
      modifies this
      ensures r == old(State()).Response()
      ensures State() == old(State()).(headers := if old(headers).Some? then Some(r.headers) else None)
    {
      var h: Headers;
      if headers.Some? {
        h := headers.value;
      } else {
        h := map["Location" := State().Location(), "Content-Type" := "text/plain"];
      }
      h := h["Content-Length" := Decimal.Show(|message.value|)];
      if headers.Some? {
        headers := Some(h);
      }
      r := RackResponse(status.value, h, [message.value]);
    }
  }
}
