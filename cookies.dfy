/**
 * The older cookie type (valar/src/http/cookies.rs): one record with
 * by-value setters and a `Display` that writes the `Set-Cookie` form. It
 * carries the same fields as the newer `Cookie`, and its serialiser is
 * proved to write exactly the newer response form.
 */
module LegacyCookies {
  import opened Wrappers
  import opened Strings
  import opened Fmt
  import HttpCookie

  datatype Cookie = Cookie(
    name: string,
    value: string,
    path: Option<string>,
    domain: Option<string>,
    maxAge: Option<HttpCookie.u64>,
    secure: bool,
    httpOnly: bool,
    sameSite: Option<HttpCookie.SameSite>)
  {
    /** The same fields as a cookie of the newer generation. */
    function Upgraded(): (c: HttpCookie.Cookie)
      ensures c.name == name && c.value == value && c.path == path && c.domain == domain
      ensures c.maxAge == maxAge && c.secure == secure && c.httpOnly == httpOnly && c.sameSite == sameSite
    {
      HttpCookie.Cookie(name, value, path, domain, maxAge, secure, httpOnly, sameSite)
    }

    function WithPath(p: Option<string>): Cookie { this.(path := p) }
    function WithDomain(d: Option<string>): Cookie { this.(domain := d) }
    function WithMaxAge(m: Option<HttpCookie.u64>): Cookie { this.(maxAge := m) }
    function WithSecure(s: bool): Cookie { this.(secure := s) }
    function WithHttpOnly(h: bool): Cookie { this.(httpOnly := h) }
    function WithSameSite(s: Option<HttpCookie.SameSite>): Cookie { this.(sameSite := s) }
    function WithName(n: string): Cookie { this.(name := n) }
    function WithValue(v: string): Cookie { this.(value := v) }
  }

  /** `Cookie::new`: the name and value, every attribute at its default. */
  function NewCookie(name: string, value: string): (c: Cookie)
    ensures c.name == name && c.value == value
    ensures HttpCookie.Bare(c.Upgraded())
  {
    Cookie(name, value, None, None, None, false, false, None)
  }

  /** Each setter replaces its own field and keeps every other one. */
  lemma SettersReplaceOneField(c: Cookie, s: string, o: Option<string>, b: bool,
                                m: Option<HttpCookie.u64>, ss: Option<HttpCookie.SameSite>)
    ensures c.WithPath(o).Upgraded() == c.Upgraded().(path := o)
    ensures c.WithDomain(o).Upgraded() == c.Upgraded().(domain := o)
    ensures c.WithSecure(b).Upgraded() == c.Upgraded().(secure := b)
    ensures c.WithHttpOnly(b).Upgraded() == c.Upgraded().(httpOnly := b)
    ensures c.WithName(s).Upgraded() == c.Upgraded().(name := s)
    ensures c.WithValue(s).Upgraded() == c.Upgraded().(value := s)
    ensures c.WithMaxAge(m).Upgraded() == c.Upgraded().(maxAge := m)
    ensures c.WithSameSite(ss).Upgraded() == c.Upgraded().(sameSite := ss)
  {
    LocationSettersReplaceOneField(c, o, m);
    FlagSettersReplaceOneField(c, b, ss);
    PairSettersReplaceOneField(c, s);
  }

  /** The Path, Domain and Max-Age setters. */
  lemma LocationSettersReplaceOneField(c: Cookie, o: Option<string>, m: Option<HttpCookie.u64>)
    ensures c.WithPath(o).Upgraded() == c.Upgraded().(path := o)
    ensures c.WithDomain(o).Upgraded() == c.Upgraded().(domain := o)
    ensures c.WithMaxAge(m).Upgraded() == c.Upgraded().(maxAge := m)
  {
  }

  /** The Secure, HttpOnly and SameSite setters. */
  lemma FlagSettersReplaceOneField(c: Cookie, b: bool, ss: Option<HttpCookie.SameSite>)
    ensures c.WithSecure(b).Upgraded() == c.Upgraded().(secure := b)
    ensures c.WithHttpOnly(b).Upgraded() == c.Upgraded().(httpOnly := b)
    ensures c.WithSameSite(ss).Upgraded() == c.Upgraded().(sameSite := ss)
  {
  }

  /** The name and value setters. */
  lemma PairSettersReplaceOneField(c: Cookie, s: string)
    ensures c.WithName(s).Upgraded() == c.Upgraded().(name := s)
    ensures c.WithValue(s).Upgraded() == c.Upgraded().(value := s)
  {
  }

  /**
   * `Display for Cookie`: the pair, then each attribute that is set, in
   * order; the same writes as the response cookie of the newer generation
   * with the same fields.
   */
  method WriteCookie(c: Cookie, f: Formatter)
    modifies f
    ensures f.written == old(f.written) + HttpCookie.ResponseCookieString(c.Upgraded())
  {
    HttpCookie.WriteResponseCookie(c.Upgraded(), f);
  }

  /** The example with every attribute set. */
  lemma LegacyCookieExample(c: Cookie)
    requires c == NewCookie("foo", "bar")
      .WithPath(Some("/"))
      .WithDomain(Some("example.com"))
      .WithMaxAge(Some(3600))
      .WithSecure(true)
      .WithHttpOnly(true)
      .WithSameSite(Some(HttpCookie.Strict))
    ensures HttpCookie.ResponseCookieString(c.Upgraded())
      == "foo=bar" + "; Path=/" + "; Domain=example.com" + "; Max-Age=3600"
        + "; Secure" + "; HttpOnly" + "; SameSite=Strict"
  {
    HttpCookie.ComplexCookieExample(c.Upgraded());
  }
}
