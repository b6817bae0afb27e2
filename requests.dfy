/** What the guards see of an incoming HTTP request and of the route it
    targets, and what they attach to it. */
module Requests {
  import opened Wrappers

  /** A header or query value as Express hands it over: absent, a string, or
      something that is not a string (repeated values, a nested query). */
  datatype Param = Missing | Text(value: string) | NonText

  /** The parts of a request the guards read: `headers['x-api-key']`,
      `headers.authorization`, `request.cookies` (absent unless a cookie
      parser filled it) and the parsed query string. */
  datatype HttpRequest = HttpRequest(
    xApiKey: Param,
    authorization: Option<string>,
    cookies: Option<map<string, string>>,
    query: map<string, Param>)

  /** `request.query[name]`. */
  function QueryParam(req: HttpRequest, name: string): Param {
    if name in req.query then req.query[name] else Missing
  }

  /** A string value JavaScript treats as true: present and non-empty. */
  predicate Present(s: Option<string>) {
    s.Some? && s.value != ""
  }

  /** `@Public()` metadata: on the route handler and on its controller class. */
  datatype Route = Route(handlerPublic: Option<bool>, controllerPublic: Option<bool>)

  /** `Reflector.getAllAndOverride`: the first target that defines the
      metadata decides; none defining it gives `undefined`. */
  function GetAllAndOverride(targets: seq<Option<bool>>): (r: Option<bool>)
    ensures r.None? <==> forall i :: 0 <= i < |targets| ==> targets[i].None?
    ensures forall i :: (0 <= i < |targets| && targets[i].Some? &&
      (forall j :: 0 <= j < i ==> targets[j].None?)) ==> r == targets[i]
  {
    if targets == [] then None
    else if targets[0].Some? then targets[0]
    else
      var r := GetAllAndOverride(targets[1..]);
      assert forall i :: 1 <= i < |targets| ==> targets[i] == targets[1..][i - 1];
      r
  }

  /** Whether the route skips authentication: the handler's declaration
      overrides the controller's, and a route with neither is not public. */
  function IsPublic(route: Route): (public: bool)
    ensures route.handlerPublic.Some? ==> public == route.handlerPublic.value
    ensures route.handlerPublic.None? ==> public == (route.controllerPublic == Some(true))
  {
    var targets := [route.handlerPublic, route.controllerPublic];
    assert targets[0] == route.handlerPublic && targets[1] == route.controllerPublic;
    GetAllAndOverride(targets) == Some(true)
  }

  /** The principal attached as `request.user`. A principal built from a
      token has no `isApiKey` property; it reads as false. */
  datatype Identity = Identity(sub: string, email: string, roles: seq<string>, isApiKey: bool)

  /** `UnauthorizedException` (HTTP 401) with its message. */
  datatype AuthError = Unauthorized(message: string)
}
