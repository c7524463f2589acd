/**
 * The slice of an H3 request event that the authentication core touches:
 * the request headers and cookie it reads, the request-scoped context user it
 * writes, and the `refresh_token` cookie it sets or deletes on the response.
 */
module Http {
  import opened Wrappers

  /** A thrown `createError({ statusCode, message })`. */
  datatype HttpError = HttpError(status: nat, message: string)

  /** A `Set-Cookie` the response carries. */
  datatype Cookie = Cookie(
    name: string, value: string, httpOnly: bool, secure: bool,
    sameSite: string, maxAge: nat, path: string)

  /** What the handler did to the response's `refresh_token` cookie. */
  datatype CookieWrite =
    | Untouched
    | Written(cookie: Cookie)
    | Deleted(name: string, httpOnly: bool, secure: bool, sameSite: string, path: string)

  /**
   * `event.context.user`. `isSuperAdmin` and `tenantId` are `None` when the
   * property is not set on the object at all (JavaScript `undefined`).
   */
  datatype ContextUser = ContextUser(
    id: string, email: string, name: Option<string>,
    isSuperAdmin: Option<bool>, tenantId: Option<string>)

  class HttpEvent {
    /** The `Authorization` request header. */
    const authorization: Option<string>
    /** The `x-tenant-id` request header. */
    const tenantHeader: Option<string>
    /** The `refresh_token` request cookie. */
    const refreshCookie: Option<string>

    var contextUser: Option<ContextUser>
    var refreshCookieWrite: CookieWrite

    constructor (authorization: Option<string>, tenantHeader: Option<string>, refreshCookie: Option<string>)
      ensures this.authorization == authorization && this.tenantHeader == tenantHeader
      ensures this.refreshCookie == refreshCookie
      ensures contextUser == None && refreshCookieWrite == Untouched
    {
      this.authorization := authorization;
      this.tenantHeader := tenantHeader;
      this.refreshCookie := refreshCookie;
      contextUser := None;
      refreshCookieWrite := Untouched;
    }
  }
}
