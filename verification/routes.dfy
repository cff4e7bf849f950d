/** The operating modes and the endpoints each exposes: `GetRESTHandlers`,
    `registrarHandlers` and `resolverHandlers`
    (pkg/restapi/didmethod/operation/operations.go, lines 30-41 and 299-324). */
module Routes {
  import opened Results

  const RegisterBasePath: string := "/1.0"
  const RegisterPath: string := RegisterBasePath + "/register"
  const ResolveDidEndpoint: string := "/resolveDID"

  const RegistrarMode: string := "registrar"
  const ResolverMode: string := "resolver"
  const CombinedMode: string := "combined"

  const MethodPost: string := "POST"
  const MethodGet: string := "GET"

  /** Which handler serves a route. */
  datatype Endpoint = RegisterDid | ResolveDid

  datatype Route = Route(path: string, httpMethod: string, handler: Endpoint)

  /** The registrar mode serves registration only, by POST. */
  function RegistrarHandlers(): (r: seq<Route>)
    ensures |r| == 1 && r[0].handler == RegisterDid
    ensures r[0].path == "/1.0/register" && r[0].httpMethod == "POST"
  {
    assert RegisterPath == "/1.0/register" by {
      assert forall i :: 0 <= i < |RegisterPath| ==> RegisterPath[i] == "/1.0/register"[i];
    }
    [Route(RegisterPath, MethodPost, RegisterDid)]
  }

  /** The resolver mode serves resolution only, by GET. */
  function ResolverHandlers(): (r: seq<Route>)
    ensures |r| == 1 && r[0].handler == ResolveDid
    ensures r[0].path == "/resolveDID" && r[0].httpMethod == "GET"
  {
    [Route(ResolveDidEndpoint, MethodGet, ResolveDid)]
  }

  function InvalidMode(mode: string): string
  {
    "invalid operation mode: " + mode
  }

  /** The routes served in `mode`, or why the mode is refused. */
  function GetRestHandlers(mode: string): (r: Result<seq<Route>>)
    ensures r.Ok? <==> mode == "registrar" || mode == "resolver" || mode == "combined"
    ensures mode == "registrar" ==> r == Ok([Route("/1.0/register", "POST", RegisterDid)])
    ensures mode == "resolver" ==> r == Ok([Route("/resolveDID", "GET", ResolveDid)])
    ensures mode == "combined" ==> r == Ok([Route("/1.0/register", "POST", RegisterDid), Route("/resolveDID", "GET", ResolveDid)])
    ensures r.Err? ==> r.reason == InvalidMode(mode)
  {
    assert RegisterPath == "/1.0/register" by {
      assert forall i :: 0 <= i < |RegisterPath| ==> RegisterPath[i] == "/1.0/register"[i];
    }
    if mode == RegistrarMode then Ok(RegistrarHandlers())
    else if mode == ResolverMode then Ok(ResolverHandlers())
    else if mode == CombinedMode then
      assert RegistrarHandlers() + ResolverHandlers() == [RegistrarHandlers()[0], ResolverHandlers()[0]];
      Ok(RegistrarHandlers() + ResolverHandlers())
    else Err(InvalidMode(mode))
  }

  /** The combined mode serves what the two single modes serve, registration
      first, and no path twice. */
  lemma CombinedIsUnion()
    ensures GetRestHandlers(CombinedMode).value == GetRestHandlers(RegistrarMode).value + GetRestHandlers(ResolverMode).value
    ensures forall i, j :: 0 <= i < j < |GetRestHandlers(CombinedMode).value| ==>
      GetRestHandlers(CombinedMode).value[i].path != GetRestHandlers(CombinedMode).value[j].path
  {
  }

  /** Each route's handler is fixed by its path, in every mode. */
  lemma {:induction false} HandlerFollowsPath(mode: string, i: nat)
    requires GetRestHandlers(mode).Ok?
    requires i < |GetRestHandlers(mode).value|
    ensures var rt := GetRestHandlers(mode).value[i];
      && (rt.handler == RegisterDid <==> rt.path == "/1.0/register")
      && (rt.handler == RegisterDid ==> rt.httpMethod == "POST")
      && (rt.handler == ResolveDid ==> rt.path == "/resolveDID" && rt.httpMethod == "GET")
  {
  }

  /** The refusal names the mode that was asked for. */
  lemma InvalidModeInjective(a: string, b: string)
    requires InvalidMode(a) == InvalidMode(b)
    ensures a == b
  {
    assert a == InvalidMode(a)[|"invalid operation mode: "|..];
  }
}
