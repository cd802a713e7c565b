/**
 * `BaseHandler.__do` (src/httpsvr/httpsvr.py): resolve the path, check that the
 * controller has the named method, call it, and turn every failure into status
 * 404 with the traceback as the reason and `None` as the result.
 *
 * Calling the controller method is a parameter (`Invoker`): it says what the
 * method named `m` of a fresh instance of class `c` returns or raises for the
 * request. Running it on a worker thread is not modelled; dispatch is one
 * sequential function.
 */
module Dispatch {
  import opened Wrappers
  import opened Envelope
  import opened Routing

  /** The two verbs the handler implements (`get` and `post`); Tornado answers any other with 405 before `__do`. */
  datatype Verb = Get | Post

  /** What the controller instance is built from: the HTTP verb and the path. */
  datatype Request = Request(verb: Verb, path: string)

  /** A controller method either returns a value or raises an exception with the given text. */
  datatype HandlerResult = Returned(response: Response) | Raised(error: string)

  type Invoker = (ControllerClass, string, Request) -> HandlerResult

  /** The handler's `__status_code`, `__reason` and returned value after `__do`. */
  datatype Dispatched = Dispatched(status: int, reason: string, result: Response)

  /**
   * `traceback.format_exc()` for an exception whose last line is `error`; the
   * stack frame lines in between are not modelled.
   */
  function Traceback(error: string): (text: string)
    ensures |text| > |error|
    ensures text[|text| - |error| - 1..|text| - 1] == error
  {
    "Traceback (most recent call last):\n" + error + "\n"
  }

  function NoRouteError(path: string): string
  {
    "Exception: no ctrl match " + path
  }

  function NoMethodError(path: string): string
  {
    "Exception: no class.method match " + path
  }

  /** The `except` branch of `__do`. */
  function Failed(error: string): (d: Dispatched)
    ensures d.status == 404 && d.reason != "" && d.result == NoResult
  {
    Dispatched(404, Traceback(error), NoResult)
  }

  /**
   * `__do`: status 200 with an empty reason exactly when the method ran and
   * returned, and then its value is passed on unchanged; otherwise status 404,
   * a non-empty reason and no result.
   */
  function Do(table: RouteTable, req: Request, invoke: Invoker): (d: Dispatched)
    ensures d.status == 200 || d.status == 404
    ensures d.status == 200 <==> d.reason == ""
    ensures d.status == 404 ==> d.result == NoResult
    ensures d.status == 200 <==>
              && Resolve(table, req.path).Some?
              && var t := Resolve(table, req.path).value;
              && t.methodName in t.controller.attributes
              && invoke(t.controller, t.methodName, req).Returned?
    ensures d.status == 200 ==>
              var t := Resolve(table, req.path).value;
              d.result == invoke(t.controller, t.methodName, req).response
  {
    match Resolve(table, req.path)
    case None => Failed(NoRouteError(req.path))
    case Some(t) =>
      if t.methodName !in t.controller.attributes then
        Failed(NoMethodError(req.path))
      else
        match invoke(t.controller, t.methodName, req)
        case Returned(v) => Dispatched(200, "", v)
        case Raised(e) => Failed(e)
  }

  /**
   * An unregistered path, or a class without the named method, never reaches
   * the controller: the outcome is the same whatever the method would do.
   */
  lemma MissNeverInvokes(table: RouteTable, req: Request, invoke1: Invoker, invoke2: Invoker)
    requires Resolve(table, req.path).None?
          || Resolve(table, req.path).value.methodName !in Resolve(table, req.path).value.controller.attributes
    ensures Do(table, req, invoke1) == Do(table, req, invoke2)
    ensures Do(table, req, invoke1).status == 404
  {
  }

  /** An exception raised by the method ends up, as its traceback, in the reason. */
  lemma RaisedBecomesReason(table: RouteTable, req: Request, invoke: Invoker)
    requires Resolve(table, req.path).Some?
    requires var t := Resolve(table, req.path).value;
             t.methodName in t.controller.attributes && invoke(t.controller, t.methodName, req).Raised?
    ensures var t := Resolve(table, req.path).value;
            Do(table, req, invoke) == Failed(invoke(t.controller, t.methodName, req).error)
  {
  }

  /** Dispatch over a registration list calls the controller method of the path's last registration. */
  lemma {:induction false} DoUsesLastRegistration(routes: seq<Route>, req: Request, invoke: Invoker)
    ensures LastRegistration(routes, req.path).None? ==>
              Do(SetCtrlInfo(routes), req, invoke) == Failed(NoRouteError(req.path))
    ensures LastRegistration(routes, req.path).Some? ==>
              var t := LastRegistration(routes, req.path).value;
              var d := Do(SetCtrlInfo(routes), req, invoke);
              && (t.methodName !in t.controller.attributes ==> d == Failed(NoMethodError(req.path)))
              && (t.methodName in t.controller.attributes && invoke(t.controller, t.methodName, req).Returned? ==>
                    d == Dispatched(200, "", invoke(t.controller, t.methodName, req).response))
              && (t.methodName in t.controller.attributes && invoke(t.controller, t.methodName, req).Raised? ==>
                    d == Failed(invoke(t.controller, t.methodName, req).error))
  {
    ResolveIsLastRegistration(routes, req.path);
  }
}
