/** What the authentication middleware attaches to a request as `req.user`. */
module Request {
  import opened JsValue

  /** The decoded token payload fields the controllers read. */
  datatype User = User(username: Value, isAdmin: Value)
}
