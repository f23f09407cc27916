# Refraction, modelled in Dafny

Refraction is a Rack middleware that rewrites or redirects HTTP requests
according to one user-supplied rule. For every request it builds a
`Refraction::Request` view, lets the rule call methods on it, and then
acts on the action the rule recorded:

- `permanent!`, `found!` and `respond!` make the filter answer with the
  view's response, and the application is not called;
- `rewrite!` makes it write the view's effective scheme, host, port, path
  and query into the Rack environment and then call the application;
- no action (or no rule at all) passes the request through untouched.

The view keeps optional overrides for the location, scheme, host, port,
path and query. Its getters read an override when one is set and the
original request otherwise. The port is the exception: when the scheme or
the host is overridden and the (effective) scheme has a default port, the
original port gives way to that default port; a scheme without one keeps
the original port.

## Layout

- `wrappers.dfy` (`Wrappers`): `Option`, standing for Ruby's `nil`.
- `decimal.dfy` (`Decimal`): `Integer#to_s` for non-negative numbers
  (`Show`) and its inverse on digit strings (`Parse`).
- `rack.dfy` (`Rack`): the Rack pieces the filter uses and that this model
  does not have the source of: the parsed request fields, the response
  triple, `DEFAULT_PORTS`, `fullpath` and `url`. They are small explicit
  functions, fixed by what the repository's tests observe. `ParseUrl` is
  their partner: a URL reads back as the fields it was built from.
- `request.dfy` (`RefractionRequest`): `Refraction::Request`. The datatype
  `View` holds the instance variables as a value, and its functions are the
  getters, `location`, `response`, and (`Apply`) the effect of one method
  call. The class `Request` holds the same instance variables as mutable
  fields. Each of its methods is proved to change them exactly as `Apply`
  says.
- `refraction.dfy` (`Refraction`): the middleware. `Handle` says what
  `call` does with one request. The class `Filter` holds the configured
  rule, and its `Call` method, which changes the shared `Env` in place, is
  proved to agree with `Handle`.

A rule is modelled as a function from the original request to the list of
calls it makes on the view (`Mark`s). A rule that only reads the view and
calls its methods decides every call from the original request and the
calls it already made, so it is such a function. Repeated calls are kept:
the last action call wins.

Three details of the code behave otherwise than the code itself hints; the
model follows what the code does (lib/refraction.rb):

- The comment at line 18 calls `:protocol` an alias for `:scheme`, but `set`
  assigns `:protocol` first and `:scheme` second, so `:scheme` wins when a
  hash has both.
- `permanent!` and `found!` (lines 36 and 43) store the message
  `"moved to #{@uri}"`, which reads as if it named the target, and nothing
  assigns `@uri`. The body of a redirect is therefore `"moved to "`, with
  `Content-Length` 9, and not `"moved to "` followed by the location.
- `@headers` is written only by `respond!` (line 49), and no other action
  clears it. Headers it stored stay in place when a later `permanent!` or
  `found!` wins, and the response (line 56) then uses them instead of
  `Location`/`Content-Type`.

## Model

| member | source | states |
|---|---|---|
| `Decimal.Show` | lib/refraction.rb:57 | `to_s` of a non-negative integer is a non-empty string of digits with no leading zero |
| `Decimal.ParseShow` | lib/refraction.rb:57 | the `Content-Length` text `length.to_s` reads back as that very number |
| `Rack.SplitAuthorityRoundTrip` | lib/refraction.rb:76-78 | `host` or `host:port` splits back into the host and the port it was built from, when the host has no colon |
| `Rack.SplitFullPathRoundTrip` | lib/refraction.rb:113 | the full path (`path?query`, or the path alone for an empty query) splits back into path and query |
| `Rack.ParseUrlRoundTrip` | spec/refraction_spec.rb:117-153 | a URL built from well-formed fields reads back as those fields; its port is absent exactly when the port was absent or the scheme's default |
| `RefractionRequest.ApplySet` | lib/refraction.rb:14-25 | `set(options)` on the overrides: a string fills only the location slot; a hash fills the slot of each key present, `:protocol` before `:scheme`, and leaves the rest |
| `RefractionRequest.View.Scheme` | lib/refraction.rb:66 | the overriding scheme when one is set, the original request's scheme otherwise |
| `RefractionRequest.View.Host` | lib/refraction.rb:67 | the overriding host when one is set, the original host otherwise |
| `RefractionRequest.View.Path` | lib/refraction.rb:68 | the overriding path when one is set, the original path otherwise |
| `RefractionRequest.View.QueryString` | lib/refraction.rb:69 | the overriding query when one is set, the original query otherwise |
| `RefractionRequest.View.Port` | lib/refraction.rb:71-74 | the overriding port; else, after a scheme or host override, the effective scheme's default port when it has one; else the original port |
| `RefractionRequest.View.HttpHost` | lib/refraction.rb:76-78 | `host:port` when there is a port, the host alone otherwise |
| `RefractionRequest.View.Location` | lib/refraction.rb:61-63 | the string given to `set` when there is one, otherwise the URL of the effective fields |
| `RefractionRequest.Initial` | lib/refraction.rb:100 | a fresh view of the request: no override, no action, status, headers or message |
| `RefractionRequest.View.Response` | lib/refraction.rb:55-59 | the triple has the stored status and `[message]`; `Content-Length` is always present and reads back as the message length; without stored headers the headers are exactly `Location` (the location), `Content-Type: text/plain` and `Content-Length`; with stored headers every stored header is kept and only `Content-Length` is added or replaced |
| `RefractionRequest.View.Apply` | lib/refraction.rb:27-51 | a call never changes the original request, and keeps the invariant that a terminal action has a status and a message |
| `RefractionRequest.Run` | lib/refraction.rb:101 | the calls of a rule keep the original request and the same invariant |
| `RefractionRequest.SetStringTouchesOnlyLocation` | lib/refraction.rb:14-16 | `set` with a string fills the location slot and leaves every field slot as it was |
| `RefractionRequest.SetHashOverwritesPresentKeys` | lib/refraction.rb:18-23 | `set` with a hash overwrites exactly the slots of its present keys; `:scheme` beats `:protocol`; `:protocol` alone sets the scheme; the location slot is untouched |
| `RefractionRequest.SetIdempotent` | lib/refraction.rb:14-25 | setting the same options twice is the same as setting them once |
| `RefractionRequest.GettersFallBack` | lib/refraction.rb:66-69 | identity law: an unset scheme, host, path or query reads the original value, a set one reads the override |
| `RefractionRequest.InitialIsTransparent` | lib/refraction.rb:61-74 | a fresh view reads exactly the original fields (port included) and its location is the original URL |
| `RefractionRequest.PortCascade` | lib/refraction.rb:71-74 | an explicit port wins; without one, a scheme or host override yields the scheme's default port if it has one and the original port otherwise; with neither, the original port stands whatever else is overridden |
| `RefractionRequest.HttpHostReadsBack` | lib/refraction.rb:76-78 | `http_host` splits back into the effective host and the effective port (none when the port is nil) |
| `RefractionRequest.LocationOverrideWins` | lib/refraction.rb:61-63 | a location override is the location, and later field overrides do not change it |
| `RefractionRequest.LocationReadsBack` | lib/refraction.rb:61-63 | without a location override the location reads back as the effective scheme, host, path and query, and the effective port unless it is the scheme's default |
| `RefractionRequest.AuthorityChangeDropsPort` | lib/refraction.rb:71-74 | after a scheme or host override (and no port override) the location of an http or https request shows no port |
| `RefractionRequest.OtherChangesKeepPort` | lib/refraction.rb:72-74 | with scheme, host and port untouched, a non-default original port is still in the location, whatever path or query override is set |
| `RefractionRequest.SameHostOverrideUsesDefaultPort` | lib/refraction.rb:71-74 | for any scheme with a default port and any other original port, overriding the host with its own value keeps the host and every other field but makes the port the default one |
| `RefractionRequest.SameHostOverrideStillDropsPort` | lib/refraction.rb:72-74 | the worked instance `http` on port 3000: the port becomes 80, no other effective field changes, and the location changes |
| `RefractionRequest.SetsKeepAction` | lib/refraction.rb:14-25 | `set` calls leave the action, status and message as they were |
| `RefractionRequest.LastActionWins` | lib/refraction.rb:27-51 | after any sequence of calls the action is that of the last action call; for `permanent!`/`found!`/`respond!` the status and message are also that call's (301 or 302 with `"moved to "`, or the given ones) |
| `RefractionRequest.RedirectResponse` | lib/refraction.rb:32-59 | a redirect from a view without stored headers answers 301 or 302 with `Location` equal to the new location, `Content-Type: text/plain`, `Content-Length: 9` and the body `["moved to "]` |
| `RefractionRequest.RespondResponse` | lib/refraction.rb:46-59 | `respond!` with headers answers with its status, its headers plus `Content-Length` of its content, and `[content]` |
| `RefractionRequest.MaintenanceResponse` | spec/refraction_spec.rb:217-231 | `respond!(503, {Content-Type: text/plain}, "Site down for maintenance.")` gives that status, those headers with `Content-Length: 26`, and that body |
| `RefractionRequest.Request.constructor` | lib/refraction.rb:100 | a new view has no override, no action, no status, headers or message |
| `RefractionRequest.Request.Set` | lib/refraction.rb:14-25 | the fields change as `set` changes the view value |
| `RefractionRequest.Request.Rewrite` | lib/refraction.rb:27-30 | records `:rewrite`, then sets the options |
| `RefractionRequest.Request.Permanent` | lib/refraction.rb:32-37 | records `:permanent` and 301, sets the options and the fixed message |
| `RefractionRequest.Request.Found` | lib/refraction.rb:39-44 | records `:found` and 302, sets the options and the fixed message |
| `RefractionRequest.Request.Respond` | lib/refraction.rb:46-51 | records `:respond` and stores status, headers and content as given |
| `RefractionRequest.Request.Response` | lib/refraction.rb:55-59 | returns the view's response; writes `Content-Length` into the stored headers when there are any, and changes nothing else |
| `Refraction.RunRule` | lib/refraction.rb:101 | after the rule's calls the view is the one `Run` describes |
| `Refraction.Filter.constructor` | lib/refraction.rb:89-91 | a new filter has no rule configured |
| `Refraction.Filter.Configure` | lib/refraction.rb:81-83 | the given rule, or none, replaces any earlier one |
| `Refraction.Filter.Call` | lib/refraction.rb:97-118 | returns what `Handle` says; the environment is changed exactly when the request is forwarded after a rewrite, and then to the forwarded one |
| `Refraction.Handle` | lib/refraction.rb:97-118 | `call` on a value: no rule forwards the environment; otherwise the rule's calls run on a fresh view, a terminal action replies with the view's response, `:rewrite` forwards the rewritten environment, and anything else forwards the environment unchanged |
| `Refraction.RewriteEnv` | lib/refraction.rb:106-113 | the environment after the `:rewrite` branch's writes, `HTTP_PORT` only when there is a port |
| `Refraction.RewriteEnvWrites` | lib/refraction.rb:106-113 | a rewrite writes the effective scheme, `http_host`, host, path, query and full path under their keys, and the port under `HTTP_PORT` only when there is one; every other key keeps its value |
| `Refraction.RewrittenEnvReadsBack` | lib/refraction.rb:108-113 | the forwarded `HTTP_HOST` splits into the effective host and port, and `REQUEST_URI` into the effective path and query |
| `Refraction.NoRulesPassThrough` | lib/refraction.rb:98 | without a rule the application gets the environment unchanged |
| `Refraction.UndecidedRulePassesThrough` | lib/refraction.rb:103-117 | a rule that calls no action method behaves exactly as no rule |
| `Refraction.TerminalActionReplies` | lib/refraction.rb:103-105 | when the last action call is `permanent!`, `found!` or `respond!`, the filter replies with the view's response and never calls the application; the status is 301, 302 or the given one |
| `Refraction.RewriteForwards` | lib/refraction.rb:106-114 | when the last action call is `rewrite!`, the rewritten environment is forwarded |
| `Refraction.HashRedirectClearsPort` | spec/refraction_spec.rb:57-83 | a redirect to host `foo.com`, path `/bar`, query `baz` from `http://bar.com:3000/` answers 301 with `Location: http://foo.com/bar?baz` |
| `Refraction.PathRedirectKeepsPort` | spec/refraction_spec.rb:86-98 | a redirect to path `/bar` and query `baz` from `http://bar.com:3000/` answers 301 with `Location: http://bar.com:3000/bar?baz` |
| `Refraction.StringRedirectIgnoresRequest` | spec/refraction_spec.rb:41-54 | a string redirect answers 301 with that location for any request |
| `Refraction.SubdomainRewrite` | spec/refraction_spec.rb:185-203 | `http://tweed.example.com/` is forwarded with scheme `http`, server name `example.com` and path `/tweed` |
| `Refraction.MaintenanceReply` | spec/refraction_spec.rb:217-231 | the maintenance rule makes the filter answer with 503, `Content-Type` and `Content-Length: 26`, and the maintenance text |

## Left out

- Rack's reading of the environment into scheme, host, port, path and
  query is not part of this model; `Filter.Call` takes it as a parameter
  (`parse`). The rule sees the environment and these fields.
- Rack's `url`, `fullpath` and `DEFAULT_PORTS` are not part of this model
  either; they are replaced by `Rack.Url`, `Rack.FullPath` and
  `Rack.DefaultPort`. The URL leaves the port out when it is nil or the
  scheme's default, as the tests observe; only `http` (80) and `https`
  (443) have a default port.
- While `call` writes a rewrite into the environment, the view reads the
  same hash. The model takes every written value from the view as it was
  before the first write; how Rack would re-read the partly rewritten
  environment is not modelled.
- The application behind the filter is opaque: an `Outcome` says only
  whether it is called and with which environment. Its result is not
  modelled.
- Rules are modelled as the calls they make. Arbitrary Ruby code in a rule
  (regular expressions, a rule that raises) is not modelled.
- The class-level `@rules` of `Refraction.configure` is a field of
  `Filter`; concurrent reconfiguration is not modelled.
- The compatibility aliases `method` and `query` on the request are not
  modelled, since they only forward to Rack.
- `Request.Response`: `Content-Length` is written into the view's stored
  headers. That `respond!` stored the rule's own hash object, which the rule
  could still see, is not modelled: the model has no aliasing of hashes.
- `message.length` counts characters; the model counts the elements of the
  string.
- Ports are natural numbers. A `:port` option given as a string is not
  modelled.
- Header values are strings.
- `Decimal.Parse` reads a string of digits only. Ruby's lenient `to_i`,
  which the tests use, is not modelled.
