/** Stand-in for the cookie types the session configuration borrows from the
    web framework. Only the `SameSite` attribute value is needed: its three
    settings come from the RFC 6265bis draft ("Cookies: HTTP State Management
    Mechanism", section 4.1.2.7). */
module Cookie {

  /** The value of a cookie's `SameSite` attribute. */
  datatype SameSite = Strict | Lax | None
}
