/** The edge middleware in front of /admin/manage-users. It compares the token's
    role with the literal 'superadmin', while the store and the login routes use
    'SUPER_ADMIN'; the model keeps that comparison as it is. */
module Middleware {
  import opened Common
  import opened Auth

  datatype Url = Url(origin: string, pathname: string, search: string)

  /** `NextResponse.next()` or `NextResponse.redirect(url)`. */
  datatype Decision = Next | Redirect(url: Url)

  const GUARDED_PREFIX := "/admin/manage-users"
  const LOGIN_PATH := "/admin/login"
  const UNAUTHORIZED_PATH := "/admin/unauthorized"

  /** The role the middleware lets through. */
  const MIDDLEWARE_ROLE := "superadmin"

  /** A redirect is the request's URL cloned with only the pathname replaced. */
  function RedirectTo(url: Url, pathname: string): (d: Decision)
    ensures d.Redirect? && d.url.pathname == pathname
    ensures d.url.origin == url.origin && d.url.search == url.search
  {
    Redirect(url.(pathname := pathname))
  }

  function Decide(url: Url, token: Option<string>, decode: Decoder): (d: Decision)
    ensures d.Next? <==>
              !StartsWith(url.pathname, GUARDED_PREFIX) ||
              (Truthy(token) && decode(token.value).Some? && decode(token.value).value.role == MIDDLEWARE_ROLE)
    ensures d == RedirectTo(url, LOGIN_PATH) <==>
              StartsWith(url.pathname, GUARDED_PREFIX) && (!Truthy(token) || decode(token.value).None?)
    ensures d == RedirectTo(url, UNAUTHORIZED_PATH) <==>
              StartsWith(url.pathname, GUARDED_PREFIX) && Truthy(token) && decode(token.value).Some? &&
              decode(token.value).value.role != MIDDLEWARE_ROLE
    ensures d.Redirect? ==> d.url == url.(pathname := d.url.pathname)
  {
    if StartsWith(url.pathname, GUARDED_PREFIX) then
      if !Truthy(token) then RedirectTo(url, LOGIN_PATH)
      else match decode(token.value)
        case None => RedirectTo(url, LOGIN_PATH)
        case Some(claims) =>
          if claims.role != MIDDLEWARE_ROLE then RedirectTo(url, UNAUTHORIZED_PATH) else Next
    else Next
  }

  /** A token minted by login carries the stored role, and the store writes
      'SUPER_ADMIN'; such a token never reaches the page behind the middleware,
      while the same token is admitted by the create-user gate. */
  lemma StoredSuperAdminIsTurnedAway(url: Url, token: string, decode: Decoder, id: Id)
    requires StartsWith(url.pathname, GUARDED_PREFIX)
    requires token != "" && decode(token) == Some(Claims(id, SUPER_ADMIN))
    ensures Decide(url, Some(token), decode) == RedirectTo(url, UNAUTHORIZED_PATH)
    ensures Gate(Some(token), decode, SUPER_ADMIN_ONLY).Admitted?
  {
  }
}
