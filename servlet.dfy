/** The servlet container, as far as the web filter sees it: Java's null as
    Option, the throwables that can surface, the filter configuration with its
    init parameters and resource lookup, and the incoming request. */
module Servlet {

  /** A Java reference that may be null. */
  datatype Option<+T> = None | Some(value: T)

  /** The outcome of a collaborator call that yields a value or throws. */
  datatype Result<+T> = Success(value: T) | Failure(error: Thrown)

  /** The throwables the startup sequence and the request handling can see. */
  datatype Thrown =
    | ServletException(message: string)
    | WrappedServletException(rootCause: Thrown)
    | NullPointerException
    | OtherThrowable(name: string)
  {
    /** True for both forms of javax.servlet.ServletException. */
    predicate IsServletException() {
      ServletException? || WrappedServletException?
    }
  }

  /** HttpServletResponse.SC_INTERNAL_SERVER_ERROR */
  const InternalServerError: int := 500

  /** TStringUtils.isEmpty: null or of length zero. */
  predicate IsEmpty(s: Option<string>) {
    s.None? || s.value == ""
  }

  /** The servlet context, reduced to its resource lookup: a logical path
      that resolves maps to the path of the URL it resolves to. */
  datatype ServletContext = ServletContext(resources: map<string, string>)
  {
    /** getResource(path).getPath(), or None where getResource answers null. */
    function GetResource(path: string): Option<string> {
      if path in resources then Some(resources[path]) else None
    }
  }

  /** The FilterConfig handed to init: its init parameters and its servlet
      context, which a container may leave null. */
  datatype FilterConfig = FilterConfig(
    initParameters: map<string, string>,
    servletContext: Option<ServletContext>)
  {
    /** getInitParameter(name): null when the parameter is not set. */
    function GetInitParameter(name: string): Option<string> {
      if name in initParameters then Some(initParameters[name]) else None
    }
  }

  /** An incoming HTTP request: its declared character encoding (null when
      the client sent none) and the request type its RequestContext derives. */
  datatype Request = Request(characterEncoding: Option<string>, requestType: string)

  /** What the filter does, in order, while handling one request. */
  datatype FilterEvent =
    | SetCharacterEncoding(charset: string)   // resp.setCharacterEncoding
    | ProcessRequest                          // dispatcher.processRequest
    | SendError(status: int)                  // resp.sendError
    | ChainDoFilter(request: Request)         // chain.doFilter(request, response)
    | FlushBuffer                             // resp.flushBuffer
}
