/** The request interceptor: it adds the bearer token (RFC 6750, section 2.1)
    to every request except the sign-in and sign-up calls, and reacts to a 401
    answer by signing out and going to the login page. The application
    declares it twice, as a function and as a class, with the same decisions;
    one definition models both. */
module Interceptor {
  import opened Wrappers
  import opened Strings
  import opened Models
  import opened Http
  import opened Effects
  import Auth

  const LoginPath := "/auth/login"
  const RegisterPath := "/auth/register"

  /** The URL mentions the sign-in or the sign-up path anywhere. */
  predicate IsAuthEndpoint(url: string)
    ensures IsAuthEndpoint(url) <==> exists k: nat :: OccursAt(url, LoginPath, k) || OccursAt(url, RegisterPath, k)
  {
    Contains(url, LoginPath) || Contains(url, RegisterPath)
  }

  /** The token is attached when it is truthy and the call is not an
      authentication call. */
  predicate AttachesToken(token: Option<string>, url: string)
    ensures AttachesToken(token, url) <==>
              && token.Some? && token.value != ""
              && forall k: nat :: !OccursAt(url, LoginPath, k) && !OccursAt(url, RegisterPath, k)
  {
    Truthy(token) && !IsAuthEndpoint(url)
  }

  const AuthorizationHeader := "Authorization"

  /** The request handed on. With a token to attach: the same request with
      `Authorization: Bearer <token>`, the token inserted verbatim, and every
      other header kept. Otherwise the very same request. */
  function Intercept(req: Request, token: Option<string>): (r: Request)
    ensures r.verb == req.verb && r.url == req.url && r.body == req.body
    ensures AttachesToken(token, req.url) ==>
              AuthorizationHeader in r.headers && r.headers[AuthorizationHeader] == "Bearer " + token.value
    ensures !AttachesToken(token, req.url) ==> r == req
    ensures forall h :: h != AuthorizationHeader ==>
              (h in r.headers <==> h in req.headers) && (h in req.headers ==> r.headers[h] == req.headers[h])
  {
    if AttachesToken(token, req.url)
    then req.(headers := req.headers[AuthorizationHeader := "Bearer " + token.value])
    else req
  }

  /** What the interceptor does with an error answer to `req`: the effects
      and the error it rethrows. */
  datatype ErrorHandling = ErrorHandling(effects: seq<Effect>, rethrown: HttpError)

  /** A 401 on a non-authentication call signs out and then navigates to the
      login page, once each and nothing else; every other error has no effect. The error is always
      rethrown as it is. */
  function OnError(req: Request, error: HttpError): (r: ErrorHandling)
    ensures r.rethrown == error
    ensures (LoggedOut in r.effects) <==> error.status == 401 && !IsAuthEndpoint(req.url)
    ensures (Navigated(["/login"], None) in r.effects) <==> error.status == 401 && !IsAuthEndpoint(req.url)
    ensures |r.effects| <= 2
    ensures error.status == 401 && !IsAuthEndpoint(req.url) ==> r.effects == [LoggedOut, Navigated(["/login"], None)]
    ensures !(error.status == 401 && !IsAuthEndpoint(req.url)) ==> r.effects == []
  {
    if error.status == 401 && !IsAuthEndpoint(req.url)
    then ErrorHandling([LoggedOut, Navigated(["/login"], None)], error)
    else ErrorHandling([], error)
  }

  /** A URL that ends with a path contains it. */
  lemma {:induction false} ContainsSuffix(base: string, path: string)
    ensures Contains(base + path, path)
  {
    assert (base + path)[|base|..|base| + |path|] == path;
    assert OccursAt(base + path, path, |base|);
  }

  /** The sign-in request never carries a bearer token, and a 401 answer to
      it never triggers the interceptor's sign-out: that is left to the
      authentication service's own error handler. */
  lemma {:induction false} LoginIsNeverDecorated(api: string, email: string, token: Option<string>, error: HttpError)
    ensures Intercept(Auth.LoginRequest(api, email), token) == Auth.LoginRequest(api, email)
    ensures OnError(Auth.LoginRequest(api, email), error).effects == []
  {
    ContainsSuffix(api, LoginPath);
  }

  /** Any other request with a truthy token gets it, whatever headers it
      already had. */
  lemma {:induction false} NonAuthRequestIsDecorated(req: Request, token: string)
    requires token != "" && !IsAuthEndpoint(req.url)
    ensures Intercept(req, Some(token)).headers == req.headers[AuthorizationHeader := "Bearer " + token]
  {
  }
}
