/**
 The fetch entry point: exact (method, path) dispatch onto the three handlers,
 with the router's default for everything else.
 */
module Router {
  import opened Wrappers
  import opened Http
  import Form
  import Upload
  import Preflight

  datatype Route = UploadRoute | PreflightRoute | VersionRoute

  /** The routes registered on the router, in registration order. */
  const Table: seq<(Method, string, Route)> := [
    (Post, "/form", UploadRoute),
    (Options, "/", PreflightRoute),
    (Get, "/worker-version", VersionRoute)
  ]

  /** The first route registered for exactly this method and path. */
  function Match(table: seq<(Method, string, Route)>, httpMethod: Method, path: string): (r: Option<Route>)
    ensures r.None? <==> forall i :: 0 <= i < |table| ==> table[i].0 != httpMethod || table[i].1 != path
    ensures r.Some? ==>
              exists i :: (0 <= i < |table| && table[i] == (httpMethod, path, r.value) &&
                           forall j :: 0 <= j < i ==> !(table[j].0 == httpMethod && table[j].1 == path))
  {
    if |table| == 0 then None
    else if table[0].0 == httpMethod && table[0].1 == path then Some(table[0].2)
    else
      var r := Match(table[1..], httpMethod, path);
      assert forall i :: 1 <= i < |table| ==> table[i] == table[1..][i - 1];
      r
  }

  /** The route a request reaches, if any. */
  function Dispatch(httpMethod: Method, path: string): Option<Route>
  {
    Match(Table, httpMethod, path)
  }

  /** Each handler is reached by exactly one (method, path) pair, and nothing else is routed. */
  lemma DispatchIsExact(httpMethod: Method, path: string)
    ensures Dispatch(httpMethod, path) == Some(UploadRoute) <==> httpMethod == Post && path == "/form"
    ensures Dispatch(httpMethod, path) == Some(PreflightRoute) <==> httpMethod == Options && path == "/"
    ensures Dispatch(httpMethod, path) == Some(VersionRoute) <==> httpMethod == Get && path == "/worker-version"
    ensures Dispatch(httpMethod, path).None? <==>
              !(httpMethod == Post && path == "/form")
              && !(httpMethod == Options && path == "/")
              && !(httpMethod == Get && path == "/worker-version")
  {
  }

  /** An incoming request: httpMethod, path, what parsing its body as a form gives, and its headers. */
  datatype Request = Request(httpMethod: Method, path: string, form: Form.FormParse, headers: Preflight.Headers)

  /**
   What the router does with a request: a handler's outcome, the version
   lookup (an environment read outside this model), or the router's default.
   */
  datatype Served = Handled(outcome: Outcome) | VersionLookup | RouterDefault

  /** The router's dispatch, with the upload handler given as a parameter. */
  function Answer(req: Request, handleUpload: Form.FormParse -> Outcome): Served
  {
    match Dispatch(req.httpMethod, req.path)
    case Some(UploadRoute) => Handled(handleUpload(req.form))
    case Some(PreflightRoute) => Handled(Preflight.Handle(req.headers))
    case Some(VersionRoute) => VersionLookup
    case None => RouterDefault
  }

  /** The entry point as written: `POST /form` goes to the handler that panics on a short file. */
  function Serve(req: Request, engine: Upload.Engine): (s: Served)
    ensures req.httpMethod == Post && req.path == "/form" ==> s == Handled(Upload.HandleAsWritten(req.form, engine))
    ensures req.httpMethod == Options && req.path == "/" ==> s == Handled(Preflight.Handle(req.headers))
    ensures req.httpMethod == Get && req.path == "/worker-version" ==> s == VersionLookup
    ensures s == RouterDefault <==> Dispatch(req.httpMethod, req.path).None?
  {
    DispatchIsExact(req.httpMethod, req.path);
    Answer(req, form => Upload.HandleAsWritten(form, engine))
  }

  /**
   The entry point with the short-file guard of `Upload.Handle`: it answers
   like `Serve` on every request the code as written does not panic on, and
   never panics itself.
   */
  function ServeGuarded(req: Request, engine: Upload.Engine): (s: Served)
    ensures req.httpMethod == Post && req.path == "/form" ==> s == Handled(Upload.Handle(req.form, engine))
    ensures !Upload.PlanAsWritten(req.form).Abort? ==> s == Serve(req, engine)
    ensures s != Handled(Panic)
  {
    DispatchIsExact(req.httpMethod, req.path);
    assert !Upload.PlanAsWritten(req.form).Abort? ==>
             Upload.Handle(req.form, engine) == Upload.HandleAsWritten(req.form, engine) by {
      if !Upload.PlanAsWritten(req.form).Abort? {
        Upload.GuardAgreesWhereDefined(req.form, engine);
      }
    }
    Answer(req, form => Upload.Handle(form, engine))
  }

  /** The optimizer can only influence `POST /form`. */
  lemma OptimizerOnlyOnUploadRoute(req: Request, e1: Upload.Engine, e2: Upload.Engine)
    requires !(req.httpMethod == Post && req.path == "/form")
    ensures Serve(req, e1) == Serve(req, e2)
  {
  }

  /** CORS headers appear on no response but the preflight's. */
  lemma CorsOnlyOnPreflight(req: Request, engine: Upload.Engine)
    requires !(req.httpMethod == Options && req.path == "/")
    ensures var s := Serve(req, engine);
            s.Handled? && s.outcome.Respond? ==> s.outcome.response.cors.None?
  {
  }
}
