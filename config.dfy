/** Application settings: the two route paths and their normalisation. */
module Config {
  import opened Wrappers
  import opened Text

  const DefaultAgentRoute: string := "/api/agent"
  const DefaultAuthorizeRoute: string := "/api/authorize"

  const RouteError: string := "Route paths must start with '/'"

  /**
   * `validate_route`: a route must start with `/`; trailing slashes are
   * removed, and a route made only of slashes becomes `/`.
   */
  function ValidateRoute(value: string): (r: Result<string, string>)
    ensures r.Failure? <==> !StartsWith(value, "/")
    ensures r.Failure? ==> r.error == RouteError
  {
    if !StartsWith(value, "/") then Failure(RouteError)
    else
      var stripped := RStripChar(value, '/');
      Success(if stripped == "" then "/" else stripped)
  }

  /** A route that is `/` or starts with `/` and does not end with `/`. */
  predicate NormalRoute(route: string) {
    route == "/" || (StartsWith(route, "/") && route[|route| - 1] != '/')
  }

  /** Every accepted route is normal. */
  lemma AcceptedIsNormal(value: string)
    requires ValidateRoute(value).Success?
    ensures NormalRoute(ValidateRoute(value).value)
    ensures StartsWith(ValidateRoute(value).value, "/")
  {
    var stripped := RStripChar(value, '/');
    if stripped != "" {
      assert value[0] == '/';
      assert stripped[0] == value[0];
    }
  }

  /** Only trailing slashes are removed: the input is the result followed by slashes. */
  lemma AcceptedDropsOnlyTrailingSlashes(value: string)
    requires ValidateRoute(value).Success?
    ensures var r := ValidateRoute(value).value;
            var kept := if r == "/" then "" else r;
            && |kept| <= |value| && value[..|kept|] == kept
            && forall i | |kept| <= i < |value| :: value[i] == '/'
  {
  }

  /** A normal route is accepted unchanged. */
  lemma NormalRouteIsFixed(route: string)
    requires NormalRoute(route)
    ensures ValidateRoute(route) == Success(route)
  {
    assert StartsWith(route, "/");
  }

  /** Normalising twice gives the same result as normalising once. */
  lemma ValidateRouteIdempotent(value: string)
    requires ValidateRoute(value).Success?
    ensures ValidateRoute(ValidateRoute(value).value) == ValidateRoute(value)
  {
    AcceptedIsNormal(value);
    NormalRouteIsFixed(ValidateRoute(value).value);
  }

  /** The defaults pass validation unchanged. */
  lemma DefaultRoutesValid()
    ensures ValidateRoute(DefaultAgentRoute) == Success("/api/agent")
    ensures ValidateRoute(DefaultAuthorizeRoute) == Success("/api/authorize")
  {
    NormalRouteIsFixed(DefaultAgentRoute);
    NormalRouteIsFixed(DefaultAuthorizeRoute);
  }

  /** A sample: `"/hooks//"` becomes `"/hooks"`, `"///"` becomes `"/"`, `"api"` is refused. */
  lemma ValidateRouteSamples()
    ensures ValidateRoute("/hooks//") == Success("/hooks")
    ensures ValidateRoute("///") == Success("/")
    ensures ValidateRoute("api") == Failure(RouteError)
  {
    assert RStripChar("/hooks", '/') == "/hooks";
    assert "/hooks/"[..6] == "/hooks";
    assert RStripChar("/hooks/", '/') == "/hooks";
    assert "/hooks//"[..7] == "/hooks/";
    assert RStripChar("/hooks//", '/') == "/hooks";
    assert RStripChar("", '/') == "";
    assert "/"[..0] == "";
    assert RStripChar("/", '/') == "";
    assert "//"[..1] == "/";
    assert RStripChar("//", '/') == "";
    assert "///"[..2] == "//";
    assert RStripChar("///", '/') == "";
  }
}
