/** The simple-MVC web filter: its startup sequence (log system, config
    source, config validation, dispatcher) and its per-request decision
    between the internal dispatcher and the rest of the filter chain. */
module SimpleMvc {
  import opened Servlet

  const DefaultConfigPath := "/WEB-INF/simple-mvc.xml"
  const DefaultLogConfigPath := "/WEB-INF/log4j.xml"
  /** TBaseConstants.META_DEFAULT_CHARSET_NAME */
  const DefaultCharset := "UTF-8"

  const ConfigFileParameter := "configFile"
  const LogConfigFileParameter := "logConfigFile"

  const ConfigNotFoundMessage := "can not found config file:"
  const InvalidResourcesMessage := "Invalid resources path:"
  const InvalidTemplatesMessage := "Invalid templates path:"

  /** The fields of a WebConfig that the filter reads or rewrites. */
  datatype ConfigValue = ConfigValue(
    resourcePath: string,
    templatePath: string,
    velocityConfigFilePath: Option<string>,
    standalone: bool,
    types: set<string>)

  /** A WebConfig object: checkConfig rewrites its paths in place, so a
      config handed to the filter's constructor is changed for its owner too. */
  class WebConfig {
    var resourcePath: string
    var templatePath: string
    var velocityConfigFilePath: Option<string>
    var standalone: bool
    var types: set<string>

    constructor (v: ConfigValue)
      ensures Value() == v
    {
      resourcePath := v.resourcePath;
      templatePath := v.templatePath;
      velocityConfigFilePath := v.velocityConfigFilePath;
      standalone := v.standalone;
      types := v.types;
    }

    function Value(): ConfigValue
      reads this
    {
      ConfigValue(resourcePath, templatePath, velocityConfigFilePath, standalone, types)
    }
  }

  /** The dispatcher built from a validated config; its routing is not part of
      this model, only the config it was built from. */
  class RequestDispatcher {
    const config: WebConfig

    constructor (config: WebConfig)
      ensures this.config == config
    {
      this.config := config;
    }
  }

  /** Collaborator calls made during init, in order. */
  datatype InitEvent =
    | LookupResource(path: string)      // servletContext.getResource(path)
    | ConfigureLog(location: string)    // PropertyConfigurator.configure(url)
    | ParseConfig(location: string)     // new ConfigFileParser(file).parse()
    | NewDispatcher                     // this.dispatcher = new RequestDispatcher(config)
    | StartDispatcher                   // this.dispatcher.init()

  /** The calls one startup step made and what it threw, if anything. */
  datatype Step = Step(trace: seq<InitEvent>, thrown: Option<Thrown>)

  /** checkConfig's effect: the config after its in-place rewrites (partial
      when it throws half-way), the lookups it made and what it threw. */
  datatype Checked = Checked(config: ConfigValue, trace: seq<InitEvent>, thrown: Option<Thrown>)

  /** The filter's fields, as values. */
  datatype FilterState = FilterState(
    configFilePath: Option<string>,
    configFile: Option<string>,
    config: Option<ConfigValue>,
    hasDispatcher: bool)

  /** What init leaves behind: the new fields, the calls made, what it threw. */
  datatype InitOutcome = InitOutcome(state: FilterState, trace: seq<InitEvent>, thrown: Option<Thrown>)

  /** What doFilter did to the response and what escaped from it. */
  datatype Handled = Handled(events: seq<FilterEvent>, escaped: Option<Thrown>)

  // ---------------------------------------------------------------------
  // Startup, as functions of the filter's fields and the container
  // ---------------------------------------------------------------------

  /** init's catch clauses: a ServletException is rethrown as it is, any other
      throwable is wrapped in a new ServletException. */
  function Caught(t: Thrown): (e: Thrown)
    ensures e.IsServletException()
    ensures t.IsServletException() ==> e == t
    ensures !t.IsServletException() ==> e == WrappedServletException(t)
  {
    if t.IsServletException() then t else WrappedServletException(t)
  }

  /** The path initLogSystem settles on: the logConfigFile parameter, else the
      default unless the config is standalone. With an empty parameter it
      reads `config.isStandalone()`, which throws when there is no config yet. */
  function LogConfigPath(param: Option<string>, config: Option<ConfigValue>): (r: Result<Option<string>>)
    ensures !IsEmpty(param) ==> r == Success(param)
    ensures IsEmpty(param) ==> (r.Failure? <==> config.None?)
    ensures r.Failure? ==> r.error == NullPointerException
    ensures r.Success? ==> (IsEmpty(r.value) <==> IsEmpty(param) && config.value.standalone)
    ensures r.Success? && IsEmpty(param) && !config.value.standalone ==> r.value == Some(DefaultLogConfigPath)
  {
    if IsEmpty(param) then
      if config.None? then Failure(NullPointerException)
      else if !config.value.standalone then Success(Some(DefaultLogConfigPath))
      else Success(param)
    else Success(param)
  }

  /** initLogSystem: a non-empty path is looked up in the servlet context and,
      when it resolves, handed to the log configurator; a missing context or an
      unresolved path skips configuration silently. */
  function LogStep(fc: FilterConfig, config: Option<ConfigValue>): (r: Step)
    ensures r.thrown.Some? <==> IsEmpty(fc.GetInitParameter(LogConfigFileParameter)) && config.None?
    ensures r.thrown.Some? ==> r.thrown.value == NullPointerException && r.trace == []
    ensures var chosen := LogConfigPath(fc.GetInitParameter(LogConfigFileParameter), config);
      chosen.Success? && !IsEmpty(chosen.value) && fc.servletContext.Some? ==>
        var path := chosen.value.value;
        var resources := fc.servletContext.value.resources;
        r.trace == [LookupResource(path)] + (if path in resources then [ConfigureLog(resources[path])] else [])
    ensures var chosen := LogConfigPath(fc.GetInitParameter(LogConfigFileParameter), config);
      !(chosen.Success? && !IsEmpty(chosen.value) && fc.servletContext.Some?) ==> r.trace == []
  {
    match LogConfigPath(fc.GetInitParameter(LogConfigFileParameter), config)
    case Failure(e) => Step([], Some(e))
    case Success(filePath) =>
      if IsEmpty(filePath) || fc.servletContext.None? then Step([], None)
      else
        var url := fc.servletContext.value.GetResource(filePath.value);
        var lookup := [LookupResource(filePath.value)];
        if url.Some? then Step(lookup + [ConfigureLog(url.value)], None)
        else Step(lookup, None)
  }

  /** The config file path init uses when no config object was supplied: the
      path given to the constructor (even an empty one), else the configFile
      init parameter, else the default. */
  function ConfigPath(configFilePath: Option<string>, fc: FilterConfig): (p: string)
    ensures configFilePath.Some? ==> p == configFilePath.value
    ensures configFilePath.None? && !IsEmpty(fc.GetInitParameter(ConfigFileParameter))
      ==> p == fc.GetInitParameter(ConfigFileParameter).value
    ensures configFilePath.None? && IsEmpty(fc.GetInitParameter(ConfigFileParameter))
      ==> p == DefaultConfigPath
    ensures configFilePath.None? ==> p != ""
  {
    if configFilePath.Some? then configFilePath.value
    else
      var filePath := fc.GetInitParameter(ConfigFileParameter);
      if IsEmpty(filePath) then DefaultConfigPath else filePath.value
  }

  /** The part of init that obtains a config when none was supplied: choose
      the path, resolve it, remember the resolved file, parse it. */
  function LoadStep(s: FilterState, fc: FilterConfig, parse: string -> Result<ConfigValue>): (r: InitOutcome)
    ensures s.config.Some? ==> r == InitOutcome(s, [], None)
    ensures r.state.hasDispatcher == s.hasDispatcher
    ensures r.thrown.None? <==> r.state.config.Some?
    ensures s.config.None? ==> r.state.configFilePath == Some(ConfigPath(s.configFilePath, fc))
    ensures s.config.None? && r.thrown.None? ==>
      var path := ConfigPath(s.configFilePath, fc);
      fc.servletContext.Some? && path in fc.servletContext.value.resources &&
      var location := fc.servletContext.value.resources[path];
      r.state.configFile == Some(location) && parse(location) == Success(r.state.config.value) &&
      r.trace == [LookupResource(path), ParseConfig(location)]
  {
    if s.config.Some? then InitOutcome(s, [], None)
    else
      var path := ConfigPath(s.configFilePath, fc);
      var s1 := s.(configFilePath := Some(path));
      if fc.servletContext.None? then InitOutcome(s1, [], Some(NullPointerException))
      else
        var url := fc.servletContext.value.GetResource(path);
        if url.None? then
          InitOutcome(s1, [LookupResource(path)], Some(ServletException(ConfigNotFoundMessage + path)))
        else
          var s2 := s1.(configFile := url);
          var trace := [LookupResource(path), ParseConfig(url.value)];
          match parse(url.value)
          case Failure(e) => InitOutcome(s2, trace, Some(e))
          case Success(c) => InitOutcome(s2.(config := Some(c)), trace, None)
  }

  /** checkConfig: the resource and template roots must resolve and are
      rewritten to their resolved paths; a non-empty velocity config path is
      rewritten when it resolves and cleared to null when it does not. */
  function CheckConfigSpec(c: ConfigValue, ctx: Option<ServletContext>): (r: Checked)
    ensures r.config.standalone == c.standalone && r.config.types == c.types
    ensures r.thrown.None? <==>
      ctx.Some? && c.resourcePath in ctx.value.resources && c.templatePath in ctx.value.resources
    ensures r.thrown.None? ==>
      r.config.resourcePath == ctx.value.resources[c.resourcePath] &&
      r.config.templatePath == ctx.value.resources[c.templatePath]
    ensures r.thrown.None? && IsEmpty(c.velocityConfigFilePath) ==>
      r.config.velocityConfigFilePath == c.velocityConfigFilePath
    ensures r.thrown.None? && !IsEmpty(c.velocityConfigFilePath) ==>
      r.config.velocityConfigFilePath == ctx.value.GetResource(c.velocityConfigFilePath.value)
    ensures r.thrown.Some? ==> r.config.velocityConfigFilePath == c.velocityConfigFilePath
  {
    if ctx.None? then Checked(c, [], Some(NullPointerException))
    else
      var resources := ctx.value.GetResource(c.resourcePath);
      var trace1 := [LookupResource(c.resourcePath)];
      if resources.None? then
        Checked(c, trace1, Some(ServletException(InvalidResourcesMessage + c.resourcePath)))
      else
        var c1 := c.(resourcePath := resources.value);
        var templates := ctx.value.GetResource(c1.templatePath);
        var trace2 := trace1 + [LookupResource(c1.templatePath)];
        if templates.None? then
          Checked(c1, trace2, Some(ServletException(InvalidTemplatesMessage + c1.templatePath)))
        else
          var c2 := c1.(templatePath := templates.value);
          if IsEmpty(c2.velocityConfigFilePath) then Checked(c2, trace2, None)
          else
            var velocity := ctx.value.GetResource(c2.velocityConfigFilePath.value);
            var trace3 := trace2 + [LookupResource(c2.velocityConfigFilePath.value)];
            if velocity.Some? then Checked(c2.(velocityConfigFilePath := velocity), trace3, None)
            else Checked(c2.(velocityConfigFilePath := None), trace3, None)
  }

  /** The part of init after a config is in hand: checkConfig on it, then the
      dispatcher is assigned and its init() runs. */
  function StartStep(s: FilterState, fc: FilterConfig, dispatcherInit: Option<Thrown>): (r: InitOutcome)
    requires s.config.Some?
    ensures r.state.configFilePath == s.configFilePath && r.state.configFile == s.configFile
    ensures r.state.config.Some?
    ensures r.state.hasDispatcher <==> s.hasDispatcher || StartDispatcher in r.trace
    ensures var checked := CheckConfigSpec(s.config.value, fc.servletContext);
      r.state.config == Some(checked.config) &&
      (StartDispatcher in r.trace <==> checked.thrown.None?) &&
      (checked.thrown.Some? ==> r.thrown == checked.thrown && r.state.hasDispatcher == s.hasDispatcher) &&
      (checked.thrown.None? ==>
         r.thrown == dispatcherInit && r.trace == checked.trace + [NewDispatcher, StartDispatcher])
  {
    var checked := CheckConfigSpec(s.config.value, fc.servletContext);
    var s1 := s.(config := Some(checked.config));
    if checked.thrown.Some? then InitOutcome(s1, checked.trace, checked.thrown)
    else
      InitOutcome(s1.(hasDispatcher := true), checked.trace + [NewDispatcher, StartDispatcher], dispatcherInit)
  }

  /** init as a whole: log system, then the config (supplied or loaded), then
      checkConfig and the dispatcher; the first throwable ends the sequence and
      leaves through Caught. */
  function InitSpec(s: FilterState, fc: FilterConfig, parse: string -> Result<ConfigValue>,
                    dispatcherInit: Option<Thrown>): (r: InitOutcome)
    ensures r.thrown.Some? ==> r.thrown.value.IsServletException()
  {
    var log := LogStep(fc, s.config);
    if log.thrown.Some? then InitOutcome(s, log.trace, Some(Caught(log.thrown.value)))
    else
      var load := LoadStep(s, fc, parse);
      if load.thrown.Some? then InitOutcome(load.state, log.trace + load.trace, Some(Caught(load.thrown.value)))
      else
        var start := StartStep(load.state, fc, dispatcherInit);
        InitOutcome(start.state, log.trace + load.trace + start.trace,
                    if start.thrown.Some? then Some(Caught(start.thrown.value)) else None)
  }

  // ---------------------------------------------------------------------
  // Request handling, as a function of the request and the filter's fields
  // ---------------------------------------------------------------------

  /** The response charset: the request's own encoding whenever it is not null
      (an empty one included), else the default charset. */
  function ResponseCharset(request: Request): (charset: string)
    ensures request.characterEncoding.Some? ==> charset == request.characterEncoding.value
    ensures request.characterEncoding.None? ==> charset == DefaultCharset
  {
    if request.characterEncoding.None? then DefaultCharset else request.characterEncoding.value
  }

  /** doFilter: set the charset; a recognised request type goes to the
      dispatcher (500 when there is none or it throws), any other type to the
      chain; then flush. What the dispatcher throws is caught; what the chain
      throws leaves doFilter before the flush. With no config the type check
      dereferences null. */
  function HandleRequest(request: Request, types: Option<set<string>>, hasDispatcher: bool,
                         dispatchOutcome: Option<Thrown>, chainOutcome: Option<Thrown>): (r: Handled)
    ensures |r.events| > 0 && r.events[0] == SetCharacterEncoding(ResponseCharset(request))
    ensures r.escaped.Some? <==> types.None? || (request.requestType !in types.value && chainOutcome.Some?)
    ensures types.Some? && request.requestType !in types.value ==> r.escaped == chainOutcome
  {
    var start := [SetCharacterEncoding(ResponseCharset(request))];
    if types.None? then Handled(start, Some(NullPointerException))
    else if request.requestType in types.value then
      if !hasDispatcher then Handled(start + [SendError(InternalServerError), FlushBuffer], None)
      else if dispatchOutcome.None? then Handled(start + [ProcessRequest, FlushBuffer], None)
      else Handled(start + [ProcessRequest, SendError(InternalServerError), FlushBuffer], None)
    else if chainOutcome.Some? then Handled(start + [ChainDoFilter(request)], chainOutcome)
    else Handled(start + [ChainDoFilter(request), FlushBuffer], None)
  }

  /** checkConfig, rewriting the config object's fields in place. */
  method CheckConfig(config: WebConfig, servletContext: Option<ServletContext>)
    returns (trace: seq<InitEvent>, thrown: Option<Thrown>)
    modifies config
    ensures var r := CheckConfigSpec(old(config.Value()), servletContext);
      config.Value() == r.config && trace == r.trace && thrown == r.thrown
  {
    trace := [];
    if servletContext.None? {
      return [], Some(NullPointerException);
    }
    var ctx := servletContext.value;
    var resourcesUrl := ctx.GetResource(config.resourcePath);
    trace := trace + [LookupResource(config.resourcePath)];
    if resourcesUrl.None? {
      return trace, Some(ServletException(InvalidResourcesMessage + config.resourcePath));
    }
    config.resourcePath := resourcesUrl.value;
    var templatesUrl := ctx.GetResource(config.templatePath);
    trace := trace + [LookupResource(config.templatePath)];
    if templatesUrl.None? {
      return trace, Some(ServletException(InvalidTemplatesMessage + config.templatePath));
    }
    config.templatePath := templatesUrl.value;
    if !IsEmpty(config.velocityConfigFilePath) {
      var velocityUrl := ctx.GetResource(config.velocityConfigFilePath.value);
      trace := trace + [LookupResource(config.velocityConfigFilePath.value)];
      if velocityUrl.Some? {
        config.velocityConfigFilePath := velocityUrl;
      } else {
        config.velocityConfigFilePath := None;
      }
    }
    thrown := None;
  }

  /** The servlet filter. Its fields are written by the constructors and by init
      only; doFilter reads them. */
  class WebFilter {
    var configFilePath: Option<string>
    var configFile: Option<string>
    var config: WebConfig?
    var dispatcher: RequestDispatcher?

    /** The filter's fields as values. */
    function State(): FilterState
      reads this, config
    {
      FilterState(configFilePath, configFile,
                  if config == null then None else Some(config.Value()),
                  dispatcher != null)
    }

    /** WebFilter() */
    constructor ()
      ensures State() == FilterState(None, None, None, false)
    {
      configFilePath := None;
      configFile := None;
      config := null;
      dispatcher := null;
    }

    /** WebFilter(String configFilePath) */
    constructor WithPath(configFilePath: Option<string>)
      ensures State() == FilterState(configFilePath, None, None, false)
    {
      this.configFilePath := configFilePath;
      configFile := None;
      config := null;
      dispatcher := null;
    }

    /** WebFilter(WebConfig config): the object itself is kept, not a copy. */
    constructor WithConfig(config: WebConfig?)
      ensures this.config == config && configFilePath.None? && configFile.None? && dispatcher == null
    {
      configFilePath := None;
      configFile := None;
      this.config := config;
      dispatcher := null;
    }

    /** initLogSystem: reads the filter's config and changes nothing in it. */
    method InitLogSystem(fc: FilterConfig) returns (trace: seq<InitEvent>, thrown: Option<Thrown>)
      ensures Step(trace, thrown) == LogStep(fc, State().config)
    {
      trace := [];
      var filePath := fc.GetInitParameter(LogConfigFileParameter);
      if IsEmpty(filePath) {
        if config == null {
          return [], Some(NullPointerException);
        }
        if !config.standalone {
          filePath := Some(DefaultLogConfigPath);
        }
      }
      if !IsEmpty(filePath) {
        if fc.servletContext.Some? {
          var url := fc.servletContext.value.GetResource(filePath.value);
          trace := [LookupResource(filePath.value)];
          if url.Some? {
            trace := trace + [ConfigureLog(url.value)];
          }
        }
      }
      thrown := None;
    }

    /** The config-loading part of init: runs only when no config object
        is held, and then picks the path, resolves it and parses the file. */
    method LoadConfig(fc: FilterConfig, parse: string -> Result<ConfigValue>)
      returns (trace: seq<InitEvent>, thrown: Option<Thrown>)
      modifies this
      ensures var o := LoadStep(old(State()), fc, parse);
        State() == o.state && trace == o.trace && thrown == o.thrown
      ensures dispatcher == old(dispatcher)
      ensures old(config) != null ==> config == old(config)
      ensures old(config) == null && config != null ==> fresh(config)
    {
      if config != null {
        return [], None;
      }
      if configFilePath.None? {
        var filePath := fc.GetInitParameter(ConfigFileParameter);
        if IsEmpty(filePath) {
          filePath := Some(DefaultConfigPath);
        }
        configFilePath := filePath;
      }
      if fc.servletContext.None? {
        return [], Some(NullPointerException);
      }
      var url := fc.servletContext.value.GetResource(configFilePath.value);
      trace := [LookupResource(configFilePath.value)];
      if url.None? {
        return trace, Some(ServletException(ConfigNotFoundMessage + configFilePath.value));
      }
      configFile := url;
      trace := trace + [ParseConfig(url.value)];
      match parse(url.value)
      case Failure(e) =>
        thrown := Some(e);
      case Success(v) =>
        config := new WebConfig(v);
        thrown := None;
    }

    /** init(FilterConfig): the parser is given as a function from the resolved
        config file to its outcome, dispatcher.init() as its outcome. */
    method Init(fc: FilterConfig, parse: string -> Result<ConfigValue>, dispatcherInit: Option<Thrown>)
      returns (trace: seq<InitEvent>, thrown: Option<Thrown>)
      modifies this, config
      ensures var o := InitSpec(old(State()), fc, parse, dispatcherInit);
        State() == o.state && trace == o.trace && thrown == o.thrown
      ensures old(config) != null ==> config == old(config)
      ensures old(config) == null && config != null ==> fresh(config)
      ensures dispatcher != old(dispatcher) ==> dispatcher != null && fresh(dispatcher) && dispatcher.config == config
    {
      var logThrown, loadTrace, loadThrown, checkTrace, checkThrown;
      trace, logThrown := InitLogSystem(fc);
      if logThrown.Some? {
        return trace, Some(Caught(logThrown.value));
      }
      loadTrace, loadThrown := LoadConfig(fc, parse);
      trace := trace + loadTrace;
      if loadThrown.Some? {
        return trace, Some(Caught(loadThrown.value));
      }
      checkTrace, checkThrown := CheckConfig(config, fc.servletContext);
      trace := trace + checkTrace;
      if checkThrown.Some? {
        return trace, Some(Caught(checkThrown.value));
      }
      dispatcher := new RequestDispatcher(config);
      trace := trace + [NewDispatcher, StartDispatcher];
      thrown := if dispatcherInit.Some? then Some(Caught(dispatcherInit.value)) else None;
    }

    /** doFilter: the dispatcher's and the chain's outcomes for this request
        are given; the filter's fields are only read. */
    method DoFilter(request: Request, dispatchOutcome: Option<Thrown>, chainOutcome: Option<Thrown>)
      returns (events: seq<FilterEvent>, escaped: Option<Thrown>)
      ensures Handled(events, escaped)
        == HandleRequest(request, if config == null then None else Some(config.types),
                         dispatcher != null, dispatchOutcome, chainOutcome)
    {
      var charset := if request.characterEncoding.None? then DefaultCharset
                     else request.characterEncoding.value;
      events := [SetCharacterEncoding(charset)];
      if config == null {
        return events, Some(NullPointerException);
      }
      if request.requestType in config.types {
        if dispatcher == null {
          events := events + [SendError(InternalServerError)];
        } else {
          events := events + [ProcessRequest];
          if dispatchOutcome.Some? {
            events := events + [SendError(InternalServerError)];
          }
        }
      } else {
        events := events + [ChainDoFilter(request)];
        if chainOutcome.Some? {
          return events, chainOutcome;
        }
      }
      events := events + [FlushBuffer];
      escaped := None;
    }
  }
}
