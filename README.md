# WebFilter of TubeMQ's simple MVC, in Dafny

This project models `WebFilter`, the servlet filter in front of the TubeMQ
master's small MVC web layer. It covers two things:

- **Startup (`init`).** `initLogSystem` picks a log4j configuration. Then a
  `WebConfig` is obtained: either the object given to the constructor, or
  a file parsed from a path. The path comes from the constructor, else the
  `configFile` init parameter, else `/WEB-INF/simple-mvc.xml`. `checkConfig`
  rewrites the config's resource, template and velocity paths in place to
  their resolved forms. Finally the `RequestDispatcher` is assigned and
  started.
- **Request handling (`doFilter`).** The response charset is set. A request
  whose type the config recognises goes to the dispatcher, with a 500 when
  there is no dispatcher or the dispatcher throws. Any other request goes to
  the filter chain. The response is then flushed.

The servlet container is plain data (module `Servlet`, file `servlet.dfy`):

- `FilterConfig` holds the init parameters (a map) and an optional
  `ServletContext`.
- A `ServletContext` resolves resources through a map from logical path to
  the path of the resolved URL.
- `FilterConfig.GetInitParameter` and `ServletContext.GetResource` are
  these map lookups, answering `None` where the container answers null.
  `IsEmpty` is `TStringUtils.isEmpty` (null or empty). All three are plain
  definitions with no contract of their own; the contracts of the members in
  the table below are stated through them.
- Java `null` is `Option`.
- Throwables are a `Thrown` datatype: a `ServletException` with a message,
  a `ServletException` wrapping a cause, a `NullPointerException`, or any
  other throwable.

Module `SimpleMvc` (`web_filter.dfy`) holds the filter itself:

- `WebFilter` is a class with the fields `configFilePath`, `configFile`,
  `config` and `dispatcher`.
- `WebConfig` is a class whose fields `checkConfig` rewrites in place. A
  config object given to the constructor is therefore shared, not copied.
- Each method is proved against a specification function over values:
  `InitLogSystem` against `LogStep`, `LoadConfig` against `LoadStep`,
  `CheckConfig` against `CheckConfigSpec`, `Init` against `InitSpec` and
  `DoFilter` against `HandleRequest`. `StartStep` specifies no method of its
  own: it is the tail of `InitSpec`, from `checkConfig` to the dispatcher's
  start.
- Init reports the collaborator calls it makes, in order, as a trace of
  `InitEvent`s: resource lookups, log configuration, parsing, dispatcher
  construction and dispatcher start.
- `doFilter` reports what it does to the response as a sequence of
  `FilterEvent`s.

Module `WebFilterProperties` (`properties.dfy`) proves the properties of
startup and request handling.

Collaborators whose code is not part of this model are inputs:

- The config parser is a function from the resolved config file to a parsed
  config or a throwable.
- The outcomes of `dispatcher.init()`, `dispatcher.processRequest()` and
  `chain.doFilter` are parameters: no throwable, or a given one. A throwable
  from the chain leaves `doFilter` before the flush.
- The request type that `RequestContext` derives is a field of the
  `Request`, and `WebConfig.containsType` is membership in the config's set
  of types.
- `TBaseConstants.META_DEFAULT_CHARSET_NAME` is taken to be `"UTF-8"`, its
  value in TubeMQ. `TBaseConstants` is not part of this model.

Two behaviours of the code are worth stating, because a reader might expect
otherwise:

- A filter whose init failed does not answer requests with a 500. The code
  has no such state and relies on the container not routing requests to it.
  The only 500 without dispatching goes to a recognised request when the
  dispatcher is null (line 115).
- The dispatcher field is assigned before `dispatcher.init()` runs
  (lines 88-89). So when that call throws, init fails with the dispatcher
  already set (`DispatcherAssignedOnlyAfterCheck`).

## Model

| member | source | states |
|---|---|---|
| `SimpleMvc.Caught` | tubemq-server/src/main/java/org/apache/tubemq/server/master/web/simplemvc/WebFilter.java:90-95 | init only ever throws a ServletException: one that reaches the catch is rethrown as it is, any other throwable is wrapped |
| `SimpleMvc.LogConfigPath` | tubemq-server/src/main/java/org/apache/tubemq/server/master/web/simplemvc/WebFilter.java:162-165 | a non-empty `logConfigFile` parameter wins; an empty one gives `/WEB-INF/log4j.xml` unless the config is standalone; with no config the dereference throws a NullPointerException |
| `SimpleMvc.LogStep` | tubemq-server/src/main/java/org/apache/tubemq/server/master/web/simplemvc/WebFilter.java:161-175 | initLogSystem throws exactly when the parameter is empty and there is no config; when `LogConfigPath` chooses a non-empty path and a servlet context exists, the calls are one lookup of exactly that path, then the log configurator with its resolution when it resolves; otherwise no call at all |
| `SimpleMvc.ConfigPath` | tubemq-server/src/main/java/org/apache/tubemq/server/master/web/simplemvc/WebFilter.java:56-75 | config path precedence: the constructor's path as-is (even empty), else a non-empty `configFile` parameter, else `/WEB-INF/simple-mvc.xml`; never empty when chosen from parameters |
| `SimpleMvc.LoadStep` | tubemq-server/src/main/java/org/apache/tubemq/server/master/web/simplemvc/WebFilter.java:68-86 | a supplied config skips loading; otherwise `configFilePath` becomes the chosen path, and loading succeeds exactly when a config results: then the chosen path resolved to a location, `configFile` is that location, the config is what the parser returns for it, and the calls are the lookup and the parse; no dispatcher is touched |
| `SimpleMvc.CheckConfigSpec` | tubemq-server/src/main/java/org/apache/tubemq/server/master/web/simplemvc/WebFilter.java:130-159 | checkConfig succeeds iff a context exists and both roots resolve; then both roots hold their resolved paths, an empty velocity path is kept and a non-empty one becomes its resolution or null; standalone flag and types never change |
| `SimpleMvc.StartStep` | tubemq-server/src/main/java/org/apache/tubemq/server/master/web/simplemvc/WebFilter.java:87-89 | after a config is in hand, the path fields stay and the config becomes checkConfig's rewrite of it; the dispatcher is started iff checkConfig passed, and then the calls are checkConfig's followed by construction and start, and the throwable is the dispatcher's; when checkConfig fails, its throwable is the result and the dispatcher field is unchanged |
| `SimpleMvc.InitSpec` | tubemq-server/src/main/java/org/apache/tubemq/server/master/web/simplemvc/WebFilter.java:64-96 | whatever init throws is a ServletException |
| `SimpleMvc.ResponseCharset` | tubemq-server/src/main/java/org/apache/tubemq/server/master/web/simplemvc/WebFilter.java:109-110 | the response charset is the request's encoding whenever it is not null (an empty one included), else the default charset |
| `SimpleMvc.HandleRequest` | tubemq-server/src/main/java/org/apache/tubemq/server/master/web/simplemvc/WebFilter.java:102-128 | the first thing done to the response is setting that charset; an exception escapes doFilter exactly when there is no config or an unrecognised request goes to a chain that throws, and for an unrecognised request what escapes is what the chain threw |
| `SimpleMvc.CheckConfig` | tubemq-server/src/main/java/org/apache/tubemq/server/master/web/simplemvc/WebFilter.java:130-159 | rewriting the config object in place leaves it equal to `CheckConfigSpec` of its old value, with the same lookups and the same throwable |
| `SimpleMvc.RequestDispatcher.constructor` | tubemq-server/src/main/java/org/apache/tubemq/server/master/web/simplemvc/WebFilter.java:88 | the dispatcher is built from the filter's own config object |
| `SimpleMvc.WebFilter.constructor` | tubemq-server/src/main/java/org/apache/tubemq/server/master/web/simplemvc/WebFilter.java:53-54 | a new filter holds no path, file, config or dispatcher |
| `SimpleMvc.WebFilter.WithPath` | tubemq-server/src/main/java/org/apache/tubemq/server/master/web/simplemvc/WebFilter.java:56-58 | the given path, null included, is stored and nothing else is set |
| `SimpleMvc.WebFilter.WithConfig` | tubemq-server/src/main/java/org/apache/tubemq/server/master/web/simplemvc/WebFilter.java:60-62 | the given config object itself is held (not a copy), with no path and no dispatcher |
| `SimpleMvc.WebFilter.InitLogSystem` | tubemq-server/src/main/java/org/apache/tubemq/server/master/web/simplemvc/WebFilter.java:161-175 | reading the filter's config, initLogSystem makes the calls and throws what `LogStep` says |
| `SimpleMvc.WebFilter.LoadConfig` | tubemq-server/src/main/java/org/apache/tubemq/server/master/web/simplemvc/WebFilter.java:68-86 | the fields after the load are those of `LoadStep`; a held config object is kept, a loaded one is fresh; the dispatcher is untouched |
| `SimpleMvc.WebFilter.Init` | tubemq-server/src/main/java/org/apache/tubemq/server/master/web/simplemvc/WebFilter.java:64-96 | the fields after init, its calls and its throwable are those of `InitSpec`; a supplied config is the object that gets rewritten; a newly assigned dispatcher is fresh and built from the held config |
| `SimpleMvc.WebFilter.DoFilter` | tubemq-server/src/main/java/org/apache/tubemq/server/master/web/simplemvc/WebFilter.java:102-128 | doFilter's effects on the response and what escapes are those of `HandleRequest` for the held config and dispatcher and the given dispatcher and chain outcomes |
| `WebFilterProperties.SuppliedConfigIsOnlyChecked` | tubemq-server/src/main/java/org/apache/tubemq/server/master/web/simplemvc/WebFilter.java:60-88 | with a supplied config, the path fields stay; the calls made are only the log step's, checkConfig's and the dispatcher's (no lookup of a config file); the config is still validated by checkConfig |
| `WebFilterProperties.SuppliedConfigNeverParsed` | tubemq-server/src/main/java/org/apache/tubemq/server/master/web/simplemvc/WebFilter.java:68-86 | init never parses a config file while it holds a config object |
| `WebFilterProperties.LoadedConfigPathIsChosen` | tubemq-server/src/main/java/org/apache/tubemq/server/master/web/simplemvc/WebFilter.java:69-77 | without a config object, `configFilePath` becomes the chosen path, and that path is the first lookup after the log step |
| `WebFilterProperties.UnresolvedConfigFileFails` | tubemq-server/src/main/java/org/apache/tubemq/server/master/web/simplemvc/WebFilter.java:76-91 | an unresolved config path makes init throw a ServletException naming the path; no config, and no dispatcher is assigned or started |
| `WebFilterProperties.ParserFailureRethrownOrWrapped` | tubemq-server/src/main/java/org/apache/tubemq/server/master/web/simplemvc/WebFilter.java:83-94 | a parser failure leaves the resolved file recorded, no config and no new dispatcher; a ServletException from it propagates unchanged, any other throwable is wrapped |
| `WebFilterProperties.CheckConfigFailsInOrder` | tubemq-server/src/main/java/org/apache/tubemq/server/master/web/simplemvc/WebFilter.java:131-145 | an unresolved resource root fails before any field changes; an unresolved template root fails after the resource path was rewritten; each message names the logical path |
| `WebFilterProperties.VelocityPathNeverFatal` | tubemq-server/src/main/java/org/apache/tubemq/server/master/web/simplemvc/WebFilter.java:147-158 | whatever the velocity path is, checkConfig fails or succeeds alike and rewrites the roots alike |
| `WebFilterProperties.UnresolvedVelocityPathCleared` | tubemq-server/src/main/java/org/apache/tubemq/server/master/web/simplemvc/WebFilter.java:150-157 | a non-empty unresolvable velocity path is set to null, with no failure |
| `WebFilterProperties.CheckConfigFailureRethrown` | tubemq-server/src/main/java/org/apache/tubemq/server/master/web/simplemvc/WebFilter.java:87-144 | with the config in hand, supplied or loaded, init's config becomes checkConfig's rewrite of it; checkConfig's ServletException reaches init's caller unchanged; a missing servlet context yields a wrapped NullPointerException; either way no dispatcher is assigned |
| `WebFilterProperties.LogStepWithoutConfigFailsInit` | tubemq-server/src/main/java/org/apache/tubemq/server/master/web/simplemvc/WebFilter.java:67-95 | an empty log parameter with no config object makes init fail with a wrapped NullPointerException, before any field changes or collaborator call |
| `WebFilterProperties.LogConfiguredOnlyWhenResolved` | tubemq-server/src/main/java/org/apache/tubemq/server/master/web/simplemvc/WebFilter.java:166-173 | init's first call is the lookup of the log path `LogConfigPath` chooses (when non-empty and a context exists); across all of init, the log configurator is called with a location exactly when that chosen path resolves to it |
| `WebFilterProperties.DispatcherInitFailureRethrownOrWrapped` | tubemq-server/src/main/java/org/apache/tubemq/server/master/web/simplemvc/WebFilter.java:89-94 | once the config in hand, supplied or loaded, passes checkConfig, a throwable from `dispatcher.init()` leaves the dispatcher field set and propagates unchanged when it is a ServletException and wrapped otherwise |
| `WebFilterProperties.DispatcherAssignedOnlyAfterCheck` | tubemq-server/src/main/java/org/apache/tubemq/server/master/web/simplemvc/WebFilter.java:87-95 | the dispatcher is constructed only when the log step and the load passed and checkConfig passed on the loaded or supplied config, and init's config is then checkConfig's rewrite; `init()` is the last call right after the assignment (so the field is set even if it throws), and an init without that assignment always throws and leaves the dispatcher field unchanged |
| `WebFilterProperties.NoDispatcherEventsBeforeStart` | tubemq-server/src/main/java/org/apache/tubemq/server/master/web/simplemvc/WebFilter.java:67-87 | the log step, the load and checkConfig never construct a dispatcher |
| `WebFilterProperties.InitSucceeds` | tubemq-server/src/main/java/org/apache/tubemq/server/master/web/simplemvc/WebFilter.java:87-145 | with the config in hand, supplied or loaded, a passing log step, resolvable roots and a quiet `dispatcher.init()`, init throws nothing, holds a dispatcher, and the roots hold their resolved paths |
| `WebFilterProperties.CharsetSetFirst` | tubemq-server/src/main/java/org/apache/tubemq/server/master/web/simplemvc/WebFilter.java:109-111 | the charset is set first, and only once, before any dispatch or chain call |
| `WebFilterProperties.RecognisedTypeDispatches` | tubemq-server/src/main/java/org/apache/tubemq/server/master/web/simplemvc/WebFilter.java:113-123 | a recognised type never reaches the chain; the dispatcher runs at most once, and only when present; a 500 is sent iff there is no dispatcher or it throws; nothing escapes |
| `WebFilterProperties.UnrecognisedTypePassesThrough` | tubemq-server/src/main/java/org/apache/tubemq/server/master/web/simplemvc/WebFilter.java:113-126 | an unrecognised type never reaches the dispatcher and sends no error; the chain gets exactly one call, with the original request, and what it throws is what escapes doFilter |
| `WebFilterProperties.FlushedOnceAtEnd` | tubemq-server/src/main/java/org/apache/tubemq/server/master/web/simplemvc/WebFilter.java:127 | when doFilter returns normally the response is flushed exactly once, as the last thing done; when something escapes (the chain threw, or there is no config) it is not flushed |
| `WebFilterProperties.ChainCallsOfOneRequest` | tubemq-server/src/main/java/org/apache/tubemq/server/master/web/simplemvc/WebFilter.java:113-126 | one request calls the chain once, with itself, when its type is unrecognised, and never otherwise |
| `WebFilterProperties.ServedRunFlushesEach` | tubemq-server/src/main/java/org/apache/tubemq/server/master/web/simplemvc/WebFilter.java:102-128 | doFilter writes no filter field, so across any run of requests, with any dispatcher and chain failures among them, the flushes number the requests minus those whose chain threw |
| `WebFilterProperties.ServedRunChainsUnrecognised` | tubemq-server/src/main/java/org/apache/tubemq/server/master/web/simplemvc/WebFilter.java:102-128 | across any run of requests, whatever earlier chain calls threw, each request reaches the chain exactly as often as it was sent with an unrecognised type, and never with a recognised one |
| `WebFilterProperties.SuppliedConfigScenario` | tubemq-server/src/main/java/org/apache/tubemq/server/master/web/simplemvc/WebFilter.java:60-127 | a supplied config recognising `action` with resolvable roots: init succeeds, an `action` request is dispatched once, a `static` request goes to the chain once with its own charset, and a chain that throws leaves that response unflushed |

## Left out

- Servlet container mechanics are reduced to a map from logical path to
  resolved path. This covers `ServletContext.getResource`, `URL.getPath` and
  `new File(url.toURI())`. What `new File(url.toURI())` can throw is not
  modelled: a `URISyntaxException`, or an `IllegalArgumentException` for a
  URL that is not a file (a resource inside a jar). Init would wrap either,
  with `configFile` still unset.
- Config parsing (`ConfigFileParser`) is a given function of the resolved
  file. A parser that returns null is not modelled.
- Dispatcher internals (`RequestDispatcher.init`, `processRequest`) are
  reduced to given outcomes. The code of `RequestDispatcher` is not part of
  this model.
- `RequestContext.requestType()` and `WebConfig.containsType` are reduced
  to a given type string and a set of types. `RequestContext` is taken not
  to throw and not to touch the response.
- Log4j's `PropertyConfigurator.configure` and every logger call are left
  out. The configure call only appears as a `ConfigureLog` event.
- Every throwable from `setCharacterEncoding`, `sendError` and
  `flushBuffer` is left out. This includes the `IOException`s they declare
  and the `IllegalStateException` that `sendError` throws once the response
  is committed. `HandleRequest`, `FlushedOnceAtEnd` and
  `ServedRunFlushesEach` therefore assume that these response calls return
  normally; only the chain's throwable is modelled.
- Concurrent request handling by the container is not modelled.
- `destroy` is a no-op and is not modelled.
- A null resource or template path in the config is not modelled. Both
  paths are non-null strings, because what `getResource(null)` does
  depends on the container.
