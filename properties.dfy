/** Properties of the web filter's startup and request handling, stated over
    the specification functions that the filter's methods are proved against. */
module WebFilterProperties {
  import opened Servlet
  import opened SimpleMvc

  /** The log step ends init only by throwing; otherwise init goes on. */
  predicate LogStepPasses(s: FilterState, fc: FilterConfig) {
    LogStep(fc, s.config).thrown.None?
  }

  // ---------------------------------------------------------------------
  // Config source precedence
  // ---------------------------------------------------------------------

  /** A config object supplied to the constructor is never looked up or parsed:
      init keeps the path fields, calls only the log step, checkConfig and the
      dispatcher, and still validates the supplied config. */
  lemma SuppliedConfigIsOnlyChecked(s: FilterState, fc: FilterConfig, parse: string -> Result<ConfigValue>,
                                    dispatcherInit: Option<Thrown>)
    requires s.config.Some?
    ensures var o := InitSpec(s, fc, parse, dispatcherInit);
      var checked := CheckConfigSpec(s.config.value, fc.servletContext);
      o.state.configFilePath == s.configFilePath && o.state.configFile == s.configFile &&
      o.state.config == Some(checked.config) &&
      o.trace == LogStep(fc, s.config).trace + checked.trace +
                 (if checked.thrown.None? then [NewDispatcher, StartDispatcher] else [])
  {
    assert LoadStep(s, fc, parse) == InitOutcome(s, [], None);
  }

  /** In particular, init never parses a config file when it holds a config
      object. */
  lemma SuppliedConfigNeverParsed(s: FilterState, fc: FilterConfig, parse: string -> Result<ConfigValue>,
                                  dispatcherInit: Option<Thrown>, loc: string)
    requires s.config.Some?
    ensures ParseConfig(loc) !in InitSpec(s, fc, parse, dispatcherInit).trace
  {
    SuppliedConfigIsOnlyChecked(s, fc, parse, dispatcherInit);
    var checked := CheckConfigSpec(s.config.value, fc.servletContext);
    assert forall e :: e in LogStep(fc, s.config).trace ==> e.LookupResource? || e.ConfigureLog?;
    assert forall e :: e in checked.trace ==> e.LookupResource?;
  }

  /** Without a config object, init looks up exactly the path ConfigPath
      chooses (constructor path, configFile parameter, default), right after
      the log step, and records it in configFilePath. */
  lemma LoadedConfigPathIsChosen(s: FilterState, fc: FilterConfig, parse: string -> Result<ConfigValue>,
                                 dispatcherInit: Option<Thrown>)
    requires s.config.None? && LogStepPasses(s, fc) && fc.servletContext.Some?
    ensures var o := InitSpec(s, fc, parse, dispatcherInit);
      var path := ConfigPath(s.configFilePath, fc);
      var n := |LogStep(fc, s.config).trace|;
      o.state.configFilePath == Some(path) &&
      |o.trace| > n && o.trace[n] == LookupResource(path)
  {
  }

  /** If the chosen config path does not resolve, init throws a
      ServletException naming the path and assigns no dispatcher. */
  lemma UnresolvedConfigFileFails(s: FilterState, fc: FilterConfig, parse: string -> Result<ConfigValue>,
                                  dispatcherInit: Option<Thrown>)
    requires s.config.None? && LogStepPasses(s, fc) && fc.servletContext.Some?
    requires ConfigPath(s.configFilePath, fc) !in fc.servletContext.value.resources
    ensures var o := InitSpec(s, fc, parse, dispatcherInit);
      o.thrown == Some(ServletException(ConfigNotFoundMessage + ConfigPath(s.configFilePath, fc))) &&
      o.state.hasDispatcher == s.hasDispatcher && o.state.config.None? &&
      NewDispatcher !in o.trace && StartDispatcher !in o.trace
  {
  }

  // ---------------------------------------------------------------------
  // checkConfig
  // ---------------------------------------------------------------------

  /** checkConfig fails on the resource root before changing anything, and on
      the template root after the resource path was already rewritten. */
  lemma CheckConfigFailsInOrder(c: ConfigValue, ctx: ServletContext)
    ensures var r := CheckConfigSpec(c, Some(ctx));
      (c.resourcePath !in ctx.resources ==>
        r.config == c && r.thrown == Some(ServletException(InvalidResourcesMessage + c.resourcePath))) &&
      (c.resourcePath in ctx.resources && c.templatePath !in ctx.resources ==>
        r.config == c.(resourcePath := ctx.resources[c.resourcePath]) &&
        r.thrown == Some(ServletException(InvalidTemplatesMessage + c.templatePath)))
  {
  }

  /** The velocity config path never decides whether checkConfig fails, nor
      what it does to the two roots. */
  lemma VelocityPathNeverFatal(c: ConfigValue, ctx: Option<ServletContext>, velocity: Option<string>)
    ensures var r := CheckConfigSpec(c, ctx);
      var r' := CheckConfigSpec(c.(velocityConfigFilePath := velocity), ctx);
      r.thrown == r'.thrown &&
      r.config.resourcePath == r'.config.resourcePath && r.config.templatePath == r'.config.templatePath
  {
  }

  /** A non-empty velocity path that does not resolve is cleared to null. */
  lemma UnresolvedVelocityPathCleared(c: ConfigValue, ctx: ServletContext)
    requires c.resourcePath in ctx.resources && c.templatePath in ctx.resources
    requires !IsEmpty(c.velocityConfigFilePath) && c.velocityConfigFilePath.value !in ctx.resources
    ensures var r := CheckConfigSpec(c, Some(ctx));
      r.thrown.None? && r.config.velocityConfigFilePath.None?
  {
  }

  // ---------------------------------------------------------------------
  // Log system
  // ---------------------------------------------------------------------

  /** With an empty logConfigFile parameter and no config object yet, the
      dereference of the config makes init fail with a wrapped exception,
      before any field changes or any collaborator is called. */
  lemma LogStepWithoutConfigFailsInit(s: FilterState, fc: FilterConfig, parse: string -> Result<ConfigValue>,
                                      dispatcherInit: Option<Thrown>)
    requires s.config.None? && IsEmpty(fc.GetInitParameter(LogConfigFileParameter))
    ensures InitSpec(s, fc, parse, dispatcherInit) ==
      InitOutcome(s, [], Some(WrappedServletException(NullPointerException)))
  {
  }

  /** Init's first collaborator call is the lookup of the log config path
      LogConfigPath chooses; over the whole of init, the log configurator is
      called with a location exactly when that path resolves to it. */
  lemma LogConfiguredOnlyWhenResolved(s: FilterState, fc: FilterConfig, parse: string -> Result<ConfigValue>,
                                      dispatcherInit: Option<Thrown>, loc: string)
    ensures var chosen := LogConfigPath(fc.GetInitParameter(LogConfigFileParameter), s.config);
      var o := InitSpec(s, fc, parse, dispatcherInit);
      var looked := chosen.Success? && !IsEmpty(chosen.value) && fc.servletContext.Some?;
      (looked ==> |o.trace| > 0 && o.trace[0] == LookupResource(chosen.value.value)) &&
      (ConfigureLog(loc) in o.trace <==>
         looked && chosen.value.value in fc.servletContext.value.resources &&
         loc == fc.servletContext.value.resources[chosen.value.value])
  {
    var log := LogStep(fc, s.config);
    var o := InitSpec(s, fc, parse, dispatcherInit);
    NoLogEventsAfterLogStep(s, fc, parse, dispatcherInit, loc);
    if log.thrown.None? {
      var load := LoadStep(s, fc, parse);
      if load.thrown.None? {
        var start := StartStep(load.state, fc, dispatcherInit);
        assert o.trace == log.trace + (load.trace + start.trace);
      } else {
        assert o.trace == log.trace + load.trace;
      }
    }
  }

  /** No step after the log step records a call to the log configurator. */
  lemma NoLogEventsAfterLogStep(s: FilterState, fc: FilterConfig, parse: string -> Result<ConfigValue>,
                                dispatcherInit: Option<Thrown>, loc: string)
    ensures ConfigureLog(loc) !in LoadStep(s, fc, parse).trace
    ensures forall c :: ConfigureLog(loc) !in CheckConfigSpec(c, fc.servletContext).trace
    ensures var load := LoadStep(s, fc, parse);
      load.state.config.Some? ==> ConfigureLog(loc) !in StartStep(load.state, fc, dispatcherInit).trace
  {
  }

  // ---------------------------------------------------------------------
  // init outcomes
  // ---------------------------------------------------------------------

  /** A throwable from the config parser leaves init unchanged when it is a
      ServletException and wrapped otherwise; the resolved file is recorded
      and no dispatcher is assigned. */
  lemma ParserFailureRethrownOrWrapped(s: FilterState, fc: FilterConfig, parse: string -> Result<ConfigValue>,
                                       dispatcherInit: Option<Thrown>, ctx: ServletContext)
    requires s.config.None? && LogStepPasses(s, fc) && fc.servletContext == Some(ctx)
    requires ConfigPath(s.configFilePath, fc) in ctx.resources
    requires parse(ctx.resources[ConfigPath(s.configFilePath, fc)]).Failure?
    ensures var location := ctx.resources[ConfigPath(s.configFilePath, fc)];
      var e := parse(location).error;
      var o := InitSpec(s, fc, parse, dispatcherInit);
      o.state.configFile == Some(location) && o.state.config.None? &&
      o.state.hasDispatcher == s.hasDispatcher &&
      (e.IsServletException() ==> o.thrown == Some(e)) &&
      (!e.IsServletException() ==> o.thrown == Some(WrappedServletException(e)))
  {
  }

  /** checkConfig runs on the config in hand, supplied or loaded: its own
      ServletException reaches init's caller unchanged, and with a servlet
      context missing the failure is a wrapped null dereference. */
  lemma CheckConfigFailureRethrown(s: FilterState, fc: FilterConfig, parse: string -> Result<ConfigValue>,
                                   dispatcherInit: Option<Thrown>)
    requires LogStepPasses(s, fc) && LoadStep(s, fc, parse).thrown.None?
    ensures var o := InitSpec(s, fc, parse, dispatcherInit);
      var checked := CheckConfigSpec(LoadStep(s, fc, parse).state.config.value, fc.servletContext);
      o.state.config == Some(checked.config) &&
      (fc.servletContext.None? ==>
        o.thrown == Some(WrappedServletException(NullPointerException)) && o.state.hasDispatcher == s.hasDispatcher) &&
      (fc.servletContext.Some? && checked.thrown.Some? ==>
        o.thrown == checked.thrown && o.state.hasDispatcher == s.hasDispatcher)
  {
  }

  /** A throwable from the dispatcher's init() leaves init unchanged when it is
      a ServletException and wrapped otherwise. */
  lemma DispatcherInitFailureRethrownOrWrapped(s: FilterState, fc: FilterConfig, parse: string -> Result<ConfigValue>,
                                      dispatcherInit: Option<Thrown>)
    requires LogStepPasses(s, fc) && LoadStep(s, fc, parse).thrown.None?
    requires CheckConfigSpec(LoadStep(s, fc, parse).state.config.value, fc.servletContext).thrown.None?
    requires dispatcherInit.Some?
    ensures var o := InitSpec(s, fc, parse, dispatcherInit);
      o.state.hasDispatcher &&
      (dispatcherInit.value.IsServletException() ==> o.thrown == dispatcherInit) &&
      (!dispatcherInit.value.IsServletException() ==> o.thrown == Some(WrappedServletException(dispatcherInit.value)))
  {
  }

  /** The dispatcher is assigned only once checkConfig has succeeded, and its
      init() runs right after the assignment: when it throws, the field is set. */
  lemma {:induction false} DispatcherAssignedOnlyAfterCheck(s: FilterState, fc: FilterConfig,
                                                            parse: string -> Result<ConfigValue>,
                                                            dispatcherInit: Option<Thrown>)
    ensures var o := InitSpec(s, fc, parse, dispatcherInit);
      var load := LoadStep(s, fc, parse);
      (NewDispatcher in o.trace ==>
        LogStepPasses(s, fc) && load.thrown.None? &&
        CheckConfigSpec(load.state.config.value, fc.servletContext).thrown.None? &&
        o.state.config == Some(CheckConfigSpec(load.state.config.value, fc.servletContext).config) &&
        o.state.hasDispatcher && fc.servletContext.Some? &&
        o.trace[|o.trace| - 2..] == [NewDispatcher, StartDispatcher] &&
        o.thrown == (if dispatcherInit.Some? then Some(Caught(dispatcherInit.value)) else None)) &&
      (NewDispatcher !in o.trace ==> o.state.hasDispatcher == s.hasDispatcher && o.thrown.Some?)
  {
    var log := LogStep(fc, s.config);
    NoDispatcherEventsBeforeStart(s, fc, parse);
    if log.thrown.None? {
      var load := LoadStep(s, fc, parse);
      if load.thrown.None? {
        var checked := CheckConfigSpec(load.state.config.value, fc.servletContext);
        var prefix := log.trace + load.trace + checked.trace;
        assert NewDispatcher !in prefix;
        if checked.thrown.None? {
          assert InitSpec(s, fc, parse, dispatcherInit).trace == prefix + [NewDispatcher, StartDispatcher];
        }
      }
    }
  }

  /** No step before the dispatcher's assignment records a dispatcher call. */
  lemma NoDispatcherEventsBeforeStart(s: FilterState, fc: FilterConfig, parse: string -> Result<ConfigValue>)
    ensures NewDispatcher !in LogStep(fc, s.config).trace
    ensures NewDispatcher !in LoadStep(s, fc, parse).trace
    ensures forall c :: NewDispatcher !in CheckConfigSpec(c, fc.servletContext).trace
  {
  }

  /** Startup reaches the ready state exactly when every step passes: with
      the config in hand (supplied or loaded) and both its roots resolvable,
      init throws nothing, the dispatcher is set and the roots hold their
      resolved paths. */
  lemma InitSucceeds(s: FilterState, fc: FilterConfig, parse: string -> Result<ConfigValue>)
    requires LogStepPasses(s, fc) && LoadStep(s, fc, parse).thrown.None? && fc.servletContext.Some?
    requires LoadStep(s, fc, parse).state.config.value.resourcePath in fc.servletContext.value.resources
    requires LoadStep(s, fc, parse).state.config.value.templatePath in fc.servletContext.value.resources
    ensures var o := InitSpec(s, fc, parse, None);
      var c := LoadStep(s, fc, parse).state.config.value;
      o.thrown.None? && o.state.hasDispatcher && o.state.config.Some? &&
      o.state.config.value.resourcePath == fc.servletContext.value.resources[c.resourcePath] &&
      o.state.config.value.templatePath == fc.servletContext.value.resources[c.templatePath]
  {
  }

  // ---------------------------------------------------------------------
  // Request handling
  // ---------------------------------------------------------------------

  /** The charset is set once, before anything else happens to the response. */
  lemma CharsetSetFirst(request: Request, types: Option<set<string>>, hasDispatcher: bool,
                        dispatchOutcome: Option<Thrown>, chainOutcome: Option<Thrown>)
    ensures var r := HandleRequest(request, types, hasDispatcher, dispatchOutcome, chainOutcome);
      r.events[0] == SetCharacterEncoding(ResponseCharset(request)) &&
      forall i :: 0 < i < |r.events| ==> !r.events[i].SetCharacterEncoding?
  {
  }

  /** A recognised request type never reaches the chain; the response gets a
      500 exactly when there is no dispatcher or it throws, and nothing escapes. */
  lemma RecognisedTypeDispatches(request: Request, types: set<string>, hasDispatcher: bool,
                                 dispatchOutcome: Option<Thrown>, chainOutcome: Option<Thrown>)
    requires request.requestType in types
    ensures var r := HandleRequest(request, Some(types), hasDispatcher, dispatchOutcome, chainOutcome);
      r.escaped.None? &&
      (forall e :: e in r.events ==> !e.ChainDoFilter?) &&
      (ProcessRequest in r.events <==> hasDispatcher) &&
      multiset(r.events)[ProcessRequest] <= 1 &&
      (SendError(InternalServerError) in r.events <==> !hasDispatcher || dispatchOutcome.Some?)
  {
  }

  /** An unrecognised request type never reaches the dispatcher and goes to
      the chain exactly once, with the original request; what the chain
      throws is what leaves doFilter. */
  lemma UnrecognisedTypePassesThrough(request: Request, types: set<string>, hasDispatcher: bool,
                                      dispatchOutcome: Option<Thrown>, chainOutcome: Option<Thrown>)
    requires request.requestType !in types
    ensures var r := HandleRequest(request, Some(types), hasDispatcher, dispatchOutcome, chainOutcome);
      r.escaped == chainOutcome && ProcessRequest !in r.events &&
      (forall e :: e in r.events ==> !e.SendError?) &&
      multiset(r.events)[ChainDoFilter(request)] == 1 &&
      (forall e :: e in r.events && e.ChainDoFilter? ==> e.request == request)
  {
  }

  /** When doFilter returns normally the response is flushed once, at the
      end; when something leaves it (the chain throws, or there is no config)
      the response is not flushed. */
  lemma FlushedOnceAtEnd(request: Request, types: Option<set<string>>, hasDispatcher: bool,
                         dispatchOutcome: Option<Thrown>, chainOutcome: Option<Thrown>)
    ensures var r := HandleRequest(request, types, hasDispatcher, dispatchOutcome, chainOutcome);
      (r.escaped.None? ==> r.events[|r.events| - 1] == FlushBuffer && multiset(r.events)[FlushBuffer] == 1) &&
      (r.escaped.Some? ==> FlushBuffer !in r.events)
  {
  }

  /** The response events of a run of requests served one after another by
      a filter whose fields, as doFilter leaves them, stay as they are; each
      request comes with its own dispatcher and chain outcomes. */
  function ServeAll(requests: seq<Request>, outcomes: seq<Option<Thrown>>, chainOutcomes: seq<Option<Thrown>>,
                    types: set<string>, hasDispatcher: bool): seq<FilterEvent>
    requires |outcomes| == |requests| && |chainOutcomes| == |requests|
  {
    if requests == [] then []
    else HandleRequest(requests[0], Some(types), hasDispatcher, outcomes[0], chainOutcomes[0]).events
         + ServeAll(requests[1..], outcomes[1..], chainOutcomes[1..], types, hasDispatcher)
  }

  /** How many requests of a run go to a chain that throws. */
  function ChainFailures(requests: seq<Request>, chainOutcomes: seq<Option<Thrown>>, types: set<string>): nat
    requires |chainOutcomes| == |requests|
  {
    if requests == [] then 0
    else (if requests[0].requestType !in types && chainOutcomes[0].Some? then 1 else 0)
         + ChainFailures(requests[1..], chainOutcomes[1..], types)
  }

  /** The chain calls one request makes: one with itself when its type is
      unrecognised, none otherwise. */
  lemma ChainCallsOfOneRequest(request: Request, types: set<string>, hasDispatcher: bool,
                               dispatchOutcome: Option<Thrown>, chainOutcome: Option<Thrown>, r: Request)
    ensures multiset(HandleRequest(request, Some(types), hasDispatcher, dispatchOutcome, chainOutcome).events)[ChainDoFilter(r)]
      == if r == request && r.requestType !in types then 1 else 0
  {
    if request.requestType in types {
      RecognisedTypeDispatches(request, types, hasDispatcher, dispatchOutcome, chainOutcome);
    } else {
      UnrecognisedTypePassesThrough(request, types, hasDispatcher, dispatchOutcome, chainOutcome);
    }
  }

  /** A failing request never affects the ones after it: over any run, every
      request is flushed exactly once except those whose chain throws, which
      are not flushed at all. */
  lemma {:induction false} ServedRunFlushesEach(requests: seq<Request>, outcomes: seq<Option<Thrown>>,
                                                chainOutcomes: seq<Option<Thrown>>, types: set<string>,
                                                hasDispatcher: bool)
    requires |outcomes| == |requests| && |chainOutcomes| == |requests|
    ensures multiset(ServeAll(requests, outcomes, chainOutcomes, types, hasDispatcher))[FlushBuffer]
      == |requests| - ChainFailures(requests, chainOutcomes, types)
  {
    if requests != [] {
      ServedRunFlushesEach(requests[1..], outcomes[1..], chainOutcomes[1..], types, hasDispatcher);
      FlushedOnceAtEnd(requests[0], Some(types), hasDispatcher, outcomes[0], chainOutcomes[0]);
      ServeAllCount(requests, outcomes, chainOutcomes, types, hasDispatcher, FlushBuffer);
    }
  }

  /** The events of a run are those of its first request followed by those of
      the rest, so their counts add up. */
  lemma ServeAllCount(requests: seq<Request>, outcomes: seq<Option<Thrown>>, chainOutcomes: seq<Option<Thrown>>,
                      types: set<string>, hasDispatcher: bool, e: FilterEvent)
    requires |outcomes| == |requests| && |chainOutcomes| == |requests| && requests != []
    ensures multiset(ServeAll(requests, outcomes, chainOutcomes, types, hasDispatcher))[e]
      == multiset(HandleRequest(requests[0], Some(types), hasDispatcher, outcomes[0], chainOutcomes[0]).events)[e]
         + multiset(ServeAll(requests[1..], outcomes[1..], chainOutcomes[1..], types, hasDispatcher))[e]
  {
    var head := HandleRequest(requests[0], Some(types), hasDispatcher, outcomes[0], chainOutcomes[0]).events;
    var tail := ServeAll(requests[1..], outcomes[1..], chainOutcomes[1..], types, hasDispatcher);
    assert multiset(head + tail) == multiset(head) + multiset(tail);
  }

  /** Over any run, each request reaches the chain exactly as many times as it
      was sent with an unrecognised type, and never with a recognised one,
      whatever earlier chain calls threw. */
  lemma {:induction false} ServedRunChainsUnrecognised(requests: seq<Request>, outcomes: seq<Option<Thrown>>,
                                                       chainOutcomes: seq<Option<Thrown>>, types: set<string>,
                                                       hasDispatcher: bool, r: Request)
    requires |outcomes| == |requests| && |chainOutcomes| == |requests|
    ensures multiset(ServeAll(requests, outcomes, chainOutcomes, types, hasDispatcher))[ChainDoFilter(r)]
      == if r.requestType in types then 0 else multiset(requests)[r]
  {
    if requests != [] {
      ServedRunChainsUnrecognised(requests[1..], outcomes[1..], chainOutcomes[1..], types, hasDispatcher, r);
      ServeAllChainStep(requests, outcomes, chainOutcomes, types, hasDispatcher, r);
      MultisetStep(requests, r);
    }
  }

  /** The chain calls of a run: the first request's own, then the rest's. */
  lemma ServeAllChainStep(requests: seq<Request>, outcomes: seq<Option<Thrown>>, chainOutcomes: seq<Option<Thrown>>,
                          types: set<string>, hasDispatcher: bool, r: Request)
    requires |outcomes| == |requests| && |chainOutcomes| == |requests| && requests != []
    ensures multiset(ServeAll(requests, outcomes, chainOutcomes, types, hasDispatcher))[ChainDoFilter(r)]
      == (if r == requests[0] && r.requestType !in types then 1 else 0)
         + multiset(ServeAll(requests[1..], outcomes[1..], chainOutcomes[1..], types, hasDispatcher))[ChainDoFilter(r)]
  {
    ChainCallsOfOneRequest(requests[0], types, hasDispatcher, outcomes[0], chainOutcomes[0], r);
    ServeAllCount(requests, outcomes, chainOutcomes, types, hasDispatcher, ChainDoFilter(r));
  }

  /** How often a request occurs in a run: at its head, then in the rest. */
  lemma MultisetStep(requests: seq<Request>, r: Request)
    requires requests != []
    ensures multiset(requests)[r] == (if r == requests[0] then 1 else 0) + multiset(requests[1..])[r]
  {
    assert requests == [requests[0]] + requests[1..];
    assert multiset(requests) == multiset([requests[0]]) + multiset(requests[1..]);
  }

  // ---------------------------------------------------------------------
  // A whole run: a supplied config, then two requests
  // ---------------------------------------------------------------------

  /** A supplied config recognising "action", with both roots resolvable:
      init succeeds, an "action" request is dispatched once and a "static"
      request is passed to the chain once without reaching the dispatcher;
      had the chain thrown, the "static" response would not be flushed. */
  lemma SuppliedConfigScenario(parse: string -> Result<ConfigValue>)
    ensures var c := ConfigValue("/res", "/tpl", None, true, {"action"});
      var fc := FilterConfig(map[], Some(ServletContext(map["/res" := "/r", "/tpl" := "/t"])));
      var o := InitSpec(FilterState(None, None, Some(c), false), fc, parse, None);
      var action := Request(None, "action");
      var other := Request(Some("GBK"), "static");
      o.thrown.None? && o.state.hasDispatcher && o.state.config.Some? &&
      HandleRequest(action, Some(o.state.config.value.types), true, None, None).events
        == [SetCharacterEncoding(DefaultCharset), ProcessRequest, FlushBuffer] &&
      HandleRequest(other, Some(o.state.config.value.types), true, None, None).events
        == [SetCharacterEncoding("GBK"), ChainDoFilter(other), FlushBuffer] &&
      HandleRequest(other, Some(o.state.config.value.types), true, None, Some(OtherThrowable("IOException")))
        == Handled([SetCharacterEncoding("GBK"), ChainDoFilter(other)], Some(OtherThrowable("IOException")))
  {
  }
}
