/**
 * `Refraction`, the Rack middleware: it holds the configured rule, runs it on
 * a fresh `Request` view of every incoming request, and then either answers
 * with the view's response, rewrites the environment and forwards it, or
 * forwards the environment untouched.
 *
 * The downstream application is opaque: an `Outcome` says whether it is
 * called and with which environment (`Forward`), or that the filter answers
 * itself without calling it (`Reply`).
 */
module Refraction {
  import opened Wrappers
  import opened Rack
  import opened RefractionRequest

  /**
   * A configured rule, as the calls it makes on the view. A rule that only
   * reads the view and calls its methods decides every call from the
   * original request (and the calls it already made), so it is a function of
   * the original request.
   */
  type Rule = Original -> seq<Mark>

  /** What the middleware does with a request. */
  datatype Outcome =
    | Forward(env: EnvMap)        // `@app.call(env)` with this environment, whose result is returned
    | Reply(response: RackResponse) // the response is returned and the application is not called

  /** The Rack environment hash, shared with the server and the application and changed in place. */
  class Env {
    var entries: EnvMap

    constructor (entries: EnvMap)
      ensures this.entries == entries
    {
      this.entries := entries;
    }
  }

  /** The keys a rewrite always writes. */
  const REWRITTEN_KEYS := {"rack.url_scheme", "HTTP_HOST", "SERVER_NAME", "PATH_INFO", "QUERY_STRING", "REQUEST_URI"}

  /** The environment after the writes of the `:rewrite` branch of `call`. */
  function RewriteEnv(env: EnvMap, v: View): EnvMap {
    var e := env["rack.url_scheme" := Text(v.Scheme())]
                 ["HTTP_HOST" := Text(v.HttpHost())]
                 ["SERVER_NAME" := Text(v.Host())];
    var e := if v.Port().Some? then e["HTTP_PORT" := Number(v.Port().value)] else e;
    e["PATH_INFO" := Text(v.Path())]
     ["QUERY_STRING" := Text(v.QueryString())]
     ["REQUEST_URI" := Text(v.FullPath())]
  }

  /** `call(env)` on a value: what happens to a request with environment `env`. */
  function Handle(rules: Option<Rule>, env: EnvMap, parse: EnvMap -> Fields): Outcome {
    if rules.None? then Forward(env)
    else
      var original := Original(env, parse(env));
      var v := Run(Initial(original), rules.value(original));
      if v.Terminal() then Reply(v.Response())
      else if v.action == Some(Rewrite) then Forward(RewriteEnv(env, v))
      else Forward(env)
  }

  /** `rules.call(request)`: the rule makes its calls on the view, one after the other. */
  method RunRule(request: Request, marks: seq<Mark>)
    modifies request
    ensures request.State() == Run(old(request.State()), marks)
  {
    ghost var start := request.State();
    for i := 0 to |marks|
      invariant request.State() == Run(start, marks[..i])
    {
      assert marks[..i + 1][..i] == marks[..i];
      match marks[i]
      case MarkSet(o) => request.Set(o);
      case MarkRewrite(o) => request.Rewrite(o);
      case MarkPermanent(o) => request.Permanent(o);
      case MarkFound(o) => request.Found(o);
      case MarkRespond(s, h, c) => request.Respond(s, h, c);
    }
    assert marks[..|marks|] == marks;
  }

  /** An instance of the middleware; `rules` is the block given to `Refraction.configure`. */
  class Filter {
    var rules: Option<Rule>

    constructor ()
      ensures rules.None?
    {
      rules := None;
    }

    /** `Refraction.configure`: the last configured rule (or none) replaces any earlier one. */
    method Configure(rule: Option<Rule>)
      modifies this
      ensures rules == rule
    {
      rules := rule;
    }

    /** `call(env)`; Rack's reading of the environment into fields is the parameter `parse`. */
    method Call(env: Env, parse: EnvMap -> Fields) returns (out: Outcome)
      modifies env
      ensures out == Handle(rules, old(env.entries), parse)
      ensures env.entries == (if out.Forward? then out.env else old(env.entries))
    {
      if rules.None? {
        return Forward(env.entries);
      }
      var original := Original(env.entries, parse(env.entries));
      var request := new Request(original);
      RunRule(request, rules.value(original));
      var v := request.State();
      if v.Terminal() {
        var r := request.Response();
        out := Reply(r);
      } else if request.action == Some(Rewrite) {
        env.entries := env.entries["rack.url_scheme" := Text(v.Scheme())];
        env.entries := env.entries["HTTP_HOST" := Text(v.HttpHost())];
        env.entries := env.entries["SERVER_NAME" := Text(v.Host())];
        if v.Port().Some? {
          env.entries := env.entries["HTTP_PORT" := Number(v.Port().value)];
        }
        env.entries := env.entries["PATH_INFO" := Text(v.Path())];
        env.entries := env.entries["QUERY_STRING" := Text(v.QueryString())];
        env.entries := env.entries["REQUEST_URI" := Text(v.FullPath())];
        out := Forward(env.entries);
      } else {
        out := Forward(env.entries);
      }
    }
  }

  // ---------------------------------------------------------------------
  // properties of call

  /** The writes of a rewrite: the effective values under their keys, every other key as it was. */
  lemma RewriteEnvWrites(env: EnvMap, v: View)
    ensures var e := RewriteEnv(env, v);
      && e["rack.url_scheme"] == Text(v.Scheme())
      && e["HTTP_HOST"] == Text(v.HttpHost())
      && e["SERVER_NAME"] == Text(v.Host())
      && e["PATH_INFO"] == Text(v.Path())
      && e["QUERY_STRING"] == Text(v.QueryString())
      && e["REQUEST_URI"] == Text(v.FullPath())
      && (v.Port().Some? ==> e["HTTP_PORT"] == Number(v.Port().value))
      && e.Keys == env.Keys + REWRITTEN_KEYS + (if v.Port().Some? then {"HTTP_PORT"} else {})
      && (forall k :: k in env && k !in REWRITTEN_KEYS && (k != "HTTP_PORT" || v.Port().None?) ==> e[k] == env[k])
  {
  }

  /**
   * The forwarded environment reads back as the view's effective request:
   * `HTTP_HOST` splits into the host and port, `REQUEST_URI` into the path
   * and query.
   */
  lemma RewrittenEnvReadsBack(env: EnvMap, v: View)
    requires ':' !in v.Host() && '?' !in v.Path()
    ensures var e := RewriteEnv(env, v);
      && e["HTTP_HOST"].Text? && SplitAuthority(e["HTTP_HOST"].text) == Some((v.Host(), v.Port()))
      && e["REQUEST_URI"].Text? && SplitFullPath(e["REQUEST_URI"].text) == (v.Path(), v.QueryString())
  {
    HttpHostReadsBack(v);
    SplitFullPathRoundTrip(v.Path(), v.QueryString());
  }

  /** Without a configured rule the request goes to the application untouched. */
  lemma NoRulesPassThrough(env: EnvMap, parse: EnvMap -> Fields)
    ensures Handle(None, env, parse) == Forward(env)
  {
  }

  /** A rule that calls no action method behaves as no rule at all. */
  lemma UndecidedRulePassesThrough(rule: Rule, env: EnvMap, parse: EnvMap -> Fields)
    requires var marks := rule(Original(env, parse(env)));
             forall j :: 0 <= j < |marks| ==> !IsAction(marks[j])
    ensures Handle(Some(rule), env, parse) == Handle(None, env, parse)
  {
    var original := Original(env, parse(env));
    SetsKeepAction(Initial(original), rule(original));
  }

  /**
   * When the last action call of the rule is `permanent!`, `found!` or
   * `respond!`, the middleware answers with the view's response and the
   * application is not called; the status is that of the call.
   */
  lemma TerminalActionReplies(rule: Rule, env: EnvMap, parse: EnvMap -> Fields, k: nat)
    requires var marks := rule(Original(env, parse(env)));
             && k < |marks| && IsAction(marks[k]) && !marks[k].MarkRewrite?
             && forall j :: k < j < |marks| ==> !IsAction(marks[j])
    ensures var original := Original(env, parse(env));
            var v := Run(Initial(original), rule(original));
            && v.Terminal()
            && Handle(Some(rule), env, parse) == Reply(v.Response())
    ensures var marks := rule(Original(env, parse(env)));
            && Handle(Some(rule), env, parse).Reply?
            && Handle(Some(rule), env, parse).response.status
               == (match marks[k]
                   case MarkPermanent(_) => 301
                   case MarkFound(_) => 302
                   case MarkRespond(s, _, _) => s
                   case _ => 0)
  {
    var original := Original(env, parse(env));
    LastActionWins(Initial(original), rule(original), k);
  }

  /** When the last action call is `rewrite!`, the rewritten environment is forwarded. */
  lemma RewriteForwards(rule: Rule, env: EnvMap, parse: EnvMap -> Fields, k: nat)
    requires var marks := rule(Original(env, parse(env)));
             && k < |marks| && marks[k].MarkRewrite?
             && forall j :: k < j < |marks| ==> !IsAction(marks[j])
    ensures var original := Original(env, parse(env));
            Handle(Some(rule), env, parse) == Forward(RewriteEnv(env, Run(Initial(original), rule(original))))
  {
    var original := Original(env, parse(env));
    LastActionWins(Initial(original), rule(original), k);
  }

  // ---------------------------------------------------------------------
  // the scenarios of the repository's tests

  function Permanently(options: SetArg): Rule {
    _ => [MarkPermanent(options)]
  }

  function ParsedAs(f: Fields): EnvMap -> Fields {
    _ => f
  }

  /** A hash redirect that changes the host drops the original port 3000. */
  lemma HashRedirectClearsPort(env: EnvMap)
    ensures var rule := Permanently(OptionHash(None, None, Some("foo.com"), None, Some("/bar"), Some("baz")));
            var out := Handle(Some(rule), env, ParsedAs(Fields("http", "bar.com", Some(3000), "/", "")));
            && out.Reply? && out.response.status == 301
            && out.response.headers["Location"] == "http://foo.com/bar?baz"
  {
    var rule := Permanently(OptionHash(None, None, Some("foo.com"), None, Some("/bar"), Some("baz")));
    var original := Original(env, Fields("http", "bar.com", Some(3000), "/", ""));
    var v := Run(Initial(original), rule(original));
    assert rule(original) == [MarkPermanent(OptionHash(None, None, Some("foo.com"), None, Some("/bar"), Some("baz")))];
    assert v == Initial(original).Apply(rule(original)[0]);
    assert v.Effective() == Fields("http", "foo.com", Some(80), "/bar", "baz");
    assert ShownPort("http", Some(80)) == None;
    assert FullPath("/bar", "baz") == "/bar?baz";
    assert v.Location() == "http" + "://" + "foo.com" + "/bar?baz";
  }

  lemma ShowPort3000()
    ensures Decimal.Show(3000) == "3000"
  {
    assert Decimal.DigitChar(3) == '3' && Decimal.DigitChar(0) == '0';
    assert Decimal.Show(3) == "3";
    assert Decimal.Show(30) == Decimal.Show(3) + ['0'] == "30";
    assert Decimal.Show(300) == Decimal.Show(30) + ['0'] == "300";
    assert Decimal.Show(3000) == Decimal.Show(300) + ['0'] == "3000";
  }

  lemma UrlWithPort3000()
    ensures Url(Fields("http", "bar.com", Some(3000), "/bar", "baz")) == "http://bar.com:3000/bar?baz"
  {
    ShowPort3000();
    assert ShownPort("http", Some(3000)) == Some(3000);
    assert Authority("bar.com", Some(3000)) == "bar.com" + ":" + "3000";
    assert FullPath("/bar", "baz") == "/bar" + "?" + "baz";
  }

  /** A hash redirect that changes only the path and query keeps the original port 3000. */
  lemma PathRedirectKeepsPort(env: EnvMap)
    ensures var rule := Permanently(OptionHash(None, None, None, None, Some("/bar"), Some("baz")));
            var out := Handle(Some(rule), env, ParsedAs(Fields("http", "bar.com", Some(3000), "/", "")));
            && out.Reply? && out.response.status == 301
            && out.response.headers["Location"] == "http://bar.com:3000/bar?baz"
  {
    var rule := Permanently(OptionHash(None, None, None, None, Some("/bar"), Some("baz")));
    var original := Original(env, Fields("http", "bar.com", Some(3000), "/", ""));
    var v := Run(Initial(original), rule(original));
    assert rule(original) == [MarkPermanent(OptionHash(None, None, None, None, Some("/bar"), Some("baz")))];
    assert v == Initial(original).Apply(rule(original)[0]);
    assert v.Effective() == Fields("http", "bar.com", Some(3000), "/bar", "baz");
    UrlWithPort3000();
  }

  /** A string redirect sends every request to that location, whatever the request was. */
  lemma StringRedirectIgnoresRequest(env: EnvMap, f: Fields)
    ensures var out := Handle(Some(Permanently(LocationString("http://foo.com/bar?baz"))), env, ParsedAs(f));
            && out.Reply? && out.response.status == 301
            && out.response.headers["Location"] == "http://foo.com/bar?baz"
  {
    var rule := Permanently(LocationString("http://foo.com/bar?baz"));
    var original := Original(env, f);
    assert rule(original) == [MarkPermanent(LocationString("http://foo.com/bar?baz"))];
    assert Run(Initial(original), rule(original)) == Initial(original).Apply(rule(original)[0]);
  }

  /** A matching subdomain is rewritten into the path and forwarded. */
  lemma SubdomainRewrite(env: EnvMap)
    ensures var rule: Rule := (o: Original) => if o.fields.host == "tweed.example.com"
                                   then [MarkRewrite(OptionHash(None, None, Some("example.com"), None, Some("/tweed"), None))]
                                   else [];
            var out := Handle(Some(rule), env, ParsedAs(Fields("http", "tweed.example.com", Some(80), "/", "")));
            && out.Forward?
            && out.env["rack.url_scheme"] == Text("http")
            && out.env["SERVER_NAME"] == Text("example.com")
            && out.env["PATH_INFO"] == Text("/tweed")
  {
    var m := MarkRewrite(OptionHash(None, None, Some("example.com"), None, Some("/tweed"), None));
    var original := Original(env, Fields("http", "tweed.example.com", Some(80), "/", ""));
    assert Run(Initial(original), [m]) == Initial(original).Apply(m);
    RewriteEnvWrites(env, Initial(original).Apply(m));
  }

  /** An explicit reply comes back as given, with its `Content-Length`. */
  lemma MaintenanceReply(env: EnvMap, f: Fields)
    ensures var rule: Rule := _ => [MarkRespond(503, Some(map["Content-Type" := "text/plain"]), "Site down for maintenance.")];
            Handle(Some(rule), env, ParsedAs(f))
              == Reply(RackResponse(503, map["Content-Type" := "text/plain", "Content-Length" := "26"],
                                    ["Site down for maintenance."]))
  {
    var m := MarkRespond(503, Some(map["Content-Type" := "text/plain"]), "Site down for maintenance.");
    var original := Original(env, f);
    assert Run(Initial(original), [m]) == Initial(original).Apply(m);
    MaintenanceResponse(Initial(original));
  }
}
