/**
 * Cookies (valar/src/http/cookie.rs): the builder, the two serialised forms
 * (the `name=value` pair a request carries in `Cookie`, and the
 * `Set-Cookie` form with the attributes of RFC 6265 section 4.1 plus
 * SameSite) and the two parsers.
 */
module HttpCookie {
  import opened Wrappers
  import opened Strings
  import opened Fmt

  /** Rust's `u64`. */
  newtype u64 = x: int | 0 <= x < 0x1_0000_0000_0000_0000

  datatype SameSite = Strict | Lax | SameSiteNone

  /** `SameSite`'s Display: exactly `Strict`, `Lax` or `None`. */
  function SameSiteName(s: SameSite): (r: string)
    ensures r == "Strict" || r == "Lax" || r == "None"
    ensures (r == "Strict") == s.Strict? && (r == "Lax") == s.Lax?
  {
    match s
    case Strict => "Strict"
    case Lax => "Lax"
    case SameSiteNone => "None"
  }

  datatype Cookie = Cookie(
    name: string,
    value: string,
    path: Option<string>,
    domain: Option<string>,
    maxAge: Option<u64>,
    secure: bool,
    httpOnly: bool,
    sameSite: Option<SameSite>)

  /** A cookie that carries no attribute. */
  predicate Bare(c: Cookie) {
    c.path.None? && c.domain.None? && c.maxAge.None? && !c.secure && !c.httpOnly && c.sameSite.None?
  }

  datatype CookieBuilder = CookieBuilder(
    name: string,
    value: string,
    path: Option<string>,
    domain: Option<string>,
    maxAge: Option<u64>,
    secure: bool,
    httpOnly: bool,
    sameSite: Option<SameSite>)
  {
    function WithName(n: string): (b: CookieBuilder)
      ensures b == this.(name := n) && b.value == value
    {
      this.(name := n)
    }

    function WithValue(v: string): (b: CookieBuilder)
      ensures b == this.(value := v) && b.name == name
    {
      this.(value := v)
    }

    function WithPath(p: Option<string>): (b: CookieBuilder)
      ensures b == this.(path := p) && b.name == name
    {
      this.(path := p)
    }

    function WithDomain(d: Option<string>): (b: CookieBuilder)
      ensures b == this.(domain := d) && b.name == name
    {
      this.(domain := d)
    }

    function WithMaxAge(m: Option<u64>): (b: CookieBuilder)
      ensures b == this.(maxAge := m) && b.name == name
    {
      this.(maxAge := m)
    }

    function WithSecure(s: bool): (b: CookieBuilder)
      ensures b == this.(secure := s) && b.name == name
    {
      this.(secure := s)
    }

    function WithHttpOnly(h: bool): (b: CookieBuilder)
      ensures b == this.(httpOnly := h) && b.name == name
    {
      this.(httpOnly := h)
    }

    function WithSameSite(s: Option<SameSite>): (b: CookieBuilder)
      ensures b == this.(sameSite := s) && b.name == name
    {
      this.(sameSite := s)
    }

    /** `build`: every field carried over. */
    function Build(): (c: Cookie)
      ensures c.name == name && c.value == value && c.path == path && c.domain == domain
      ensures c.maxAge == maxAge && c.secure == secure && c.httpOnly == httpOnly && c.sameSite == sameSite
    {
      Cookie(name, value, path, domain, maxAge, secure, httpOnly, sameSite)
    }
  }

  /** `Cookie::builder(name, value)`: no attributes, both flags off. */
  function NewCookieBuilder(name: string, value: string): (b: CookieBuilder)
    ensures b.name == name && b.value == value
    ensures Bare(b.Build())
  {
    CookieBuilder(name, value, None, None, None, false, false, None)
  }

  /** The request form: `name=value`. */
  function RequestCookieString(c: Cookie): string {
    c.name + "=" + c.value
  }

  function PathAttribute(c: Cookie): string {
    if c.path.Some? then "; Path=" + c.path.value else ""
  }

  function DomainAttribute(c: Cookie): string {
    if c.domain.Some? then "; Domain=" + c.domain.value else ""
  }

  function MaxAgeAttribute(c: Cookie): string {
    if c.maxAge.Some? then "; Max-Age=" + NatToString(c.maxAge.value as nat) else ""
  }

  function SecureAttribute(c: Cookie): string {
    if c.secure then "; Secure" else ""
  }

  function HttpOnlyAttribute(c: Cookie): string {
    if c.httpOnly then "; HttpOnly" else ""
  }

  function SameSiteAttribute(c: Cookie): string {
    if c.sameSite.Some? then "; SameSite=" + SameSiteName(c.sameSite.value) else ""
  }

  /** The attributes, in the fixed order Path, Domain, Max-Age, Secure, HttpOnly, SameSite. */
  function Attributes(c: Cookie): (r: string)
    ensures r == "" <==> Bare(c)
    ensures r != "" ==> r[0] == ';'
  {
    LocationAttributes(c) + FlagAttributes(c)
  }

  /** Path, Domain and Max-Age, the attributes that carry a value. */
  function LocationAttributes(c: Cookie): string {
    PathAttribute(c) + DomainAttribute(c) + MaxAgeAttribute(c)
  }

  /** Secure, HttpOnly and SameSite. */
  function FlagAttributes(c: Cookie): string {
    SecureAttribute(c) + HttpOnlyAttribute(c) + SameSiteAttribute(c)
  }

  /** The response form: the request form followed by the attributes. */
  function ResponseCookieString(c: Cookie): (r: string)
    ensures IsPrefix(RequestCookieString(c), r)
    ensures Bare(c) <==> r == RequestCookieString(c)
  {
    RequestCookieString(c) + Attributes(c)
  }

  /** `Display for Cookie<Request>`. */
  method WriteRequestCookie(c: Cookie, f: Formatter)
    modifies f
    ensures f.written == old(f.written) + RequestCookieString(c)
  {
    f.Write(c.name + "=" + c.value);
  }

  /** `Display for Cookie<Response>`: the pair, then one write per attribute that is set. */
  method WriteResponseCookie(c: Cookie, f: Formatter)
    modifies f
    ensures f.written == old(f.written) + ResponseCookieString(c)
  {
    f.Write(c.name + "=" + c.value);
    ghost var afterPair := f.written;
    assert afterPair == old(f.written) + RequestCookieString(c);
    WriteAttributes(c, f);
    assert f.written == afterPair + Attributes(c);
    Regrouped(old(f.written), RequestCookieString(c), Attributes(c));
  }

  /** The attribute writes of `Display for Cookie<Response>`, in order. */
  method WriteAttributes(c: Cookie, f: Formatter)
    modifies f
    ensures f.written == old(f.written) + Attributes(c)
  {
    WriteLocation(c, f);
    WriteFlags(c, f);
    Regrouped(old(f.written), LocationAttributes(c), FlagAttributes(c));
  }

  /** The Path, Domain and Max-Age writes. */
  method WriteLocation(c: Cookie, f: Formatter)
    modifies f
    ensures f.written == old(f.written) + LocationAttributes(c)
  {
    ghost var w := f.written;
    if c.path.Some? {
      f.Write("; Path=" + c.path.value);
    }
    ghost var afterPath := f.written;
    assert afterPath == w + PathAttribute(c);
    if c.domain.Some? {
      f.Write("; Domain=" + c.domain.value);
    }
    ghost var afterDomain := f.written;
    assert afterDomain == afterPath + DomainAttribute(c);
    if c.maxAge.Some? {
      f.Write("; Max-Age=" + NatToString(c.maxAge.value as nat));
    }
    assert f.written == afterDomain + MaxAgeAttribute(c);
    Regrouped3(w, PathAttribute(c), DomainAttribute(c), MaxAgeAttribute(c));
  }

  /** The Secure, HttpOnly and SameSite writes. */
  method WriteFlags(c: Cookie, f: Formatter)
    modifies f
    ensures f.written == old(f.written) + FlagAttributes(c)
  {
    ghost var w := f.written;
    if c.secure {
      f.Write("; Secure");
    }
    ghost var afterSecure := f.written;
    assert afterSecure == w + SecureAttribute(c);
    if c.httpOnly {
      f.Write("; HttpOnly");
    }
    ghost var afterHttpOnly := f.written;
    assert afterHttpOnly == afterSecure + HttpOnlyAttribute(c);
    if c.sameSite.Some? {
      f.Write("; SameSite=" + SameSiteName(c.sameSite.value));
    }
    assert f.written == afterHttpOnly + SameSiteAttribute(c);
    Regrouped3(w, SecureAttribute(c), HttpOnlyAttribute(c), SameSiteAttribute(c));
  }

  /** The response form, regrouped as one write after another. */
  lemma ResponseCookieParts(w: string, c: Cookie)
    ensures w + ResponseCookieString(c)
      == w + RequestCookieString(c) + PathAttribute(c) + DomainAttribute(c) + MaxAgeAttribute(c)
        + SecureAttribute(c) + HttpOnlyAttribute(c) + SameSiteAttribute(c)
  {
    var head := w + RequestCookieString(c);
    Regrouped(w, RequestCookieString(c), Attributes(c));
    Regrouped(head, LocationAttributes(c), FlagAttributes(c));
    Regrouped3(head, PathAttribute(c), DomainAttribute(c), MaxAgeAttribute(c));
    Regrouped3(head + LocationAttributes(c), SecureAttribute(c), HttpOnlyAttribute(c), SameSiteAttribute(c));
  }

  const ParseErrorMessage: string := "There was an error parsing the cookie"

  /**
   * The shared first step of both parsers: trim, split on `=`, and take the
   * trimmed first and second pieces; there is no second piece without `=`.
   */
  function CookiePair(s: string): (r: Result<(string, string), string>)
    ensures r.Err? <==> '=' !in Trim(s)
    ensures r.Ok? ==> '=' !in r.value.0 && '=' !in r.value.1
  {
    var parts := Split(Trim(s), '=');
    SplitPiecesFree(Trim(s), '=');
    CookiePairSplit(Trim(s));
    if |parts| < 2 then Err(ParseErrorMessage)
    else
      TrimSubset(parts[0], '=');
      TrimSubset(parts[1], '=');
      Result.Ok((Trim(parts[0]), Trim(parts[1])))
  }

  lemma CookiePairSplit(t: string)
    ensures |Split(t, '=')| < 2 <==> '=' !in t
  {
    if '=' !in t {
      SplitFree(t, '=');
    } else {
      var i :| 0 <= i < |t| && t[i] == '=';
      var a, b := t[..i], t[i + 1..];
      SplitFreePrefix(t, i, '=');
    }
  }

  lemma SplitFreePrefix(t: string, i: nat, c: char)
    requires i < |t| && t[i] == c
    ensures |Split(t, c)| >= 2
    decreases i
  {
    if i > 0 {
      SplitFreePrefix(t[1..], i - 1, c);
    }
  }

  lemma TrimSubset(s: string, c: char)
    requires c !in s
    ensures c !in Trim(s)
  {
    var t := TrimStartWhitespace(s);
    assert forall k :: 0 <= k < |t| ==> t[k] == s[|s| - |t| + k];
  }

  /** `Cookie::<Request>::from_str`. */
  function ParseRequestCookie(s: string): (r: Result<Cookie, string>)
    ensures r.Ok? <==> '=' in Trim(s)
    ensures r.Ok? ==> Bare(r.value)
  {
    match CookiePair(s)
    case Err(e) => Err(e)
    case Ok((n, v)) => Result.Ok(NewCookieBuilder(n, v).Build())
  }

  /** `Cookie::<Response>::from_str`: the value stops at the first `;`; attributes are not read. */
  function ParseResponseCookie(s: string): (r: Result<Cookie, string>)
    ensures r.Ok? <==> '=' in Trim(s)
    ensures r.Ok? ==> Bare(r.value) && ';' !in r.value.value
  {
    match CookiePair(s)
    case Err(e) => Err(e)
    case Ok((n, v)) =>
      SplitPiecesFree(Trim(v), ';');
      Result.Ok(NewCookieBuilder(n, Split(Trim(v), ';')[0]).Build())
  }

  /** A name or value that survives both serialised forms unchanged. */
  predicate PlainToken(s: string) {
    '=' !in s && ';' !in s && Trimmed(s)
  }

  lemma TrimEndNoop(s: string)
    requires Trimmed(s)
    ensures TrimEndWhitespace(s) == s
  {
  }

  /** Parsing `name=value` with nothing after it. */
  lemma CookiePairOfPair(name: string, value: string)
    requires PlainToken(name) && PlainToken(value)
    ensures CookiePair(name + "=" + value) == Result.Ok((name, value))
    ensures Split(Trim(value), ';')[0] == value
  {
    TrimAround(name, '=', value);
    TrimEndNoop(value);
    SplitAround(name, '=', value);
    SplitFree(value, '=');
    TrimTrimmed(name);
    TrimTrimmed(value);
    SplitFree(value, ';');
  }

  /** Parsing `name=value;...`: the value piece starts with `value;`. */
  lemma CookiePairOfAttributes(name: string, value: string, rest: string)
    requires PlainToken(name) && PlainToken(value)
    ensures CookiePair(name + "=" + value + ";" + rest).Ok?
    ensures CookiePair(name + "=" + value + ";" + rest).value.0 == name
    ensures Split(Trim(CookiePair(name + "=" + value + ";" + rest).value.1), ';')[0] == value
  {
    var s := name + "=" + value + ";" + rest;
    var t := value + [';'] + TrimEndWhitespace(rest);
    PairTrimmed(name, value, rest);
    SplitAround(name, '=', t);
    assert Split(Trim(s), '=') == [name] + Split(t, '=');
    TrimTrimmed(name);
    SplitPrefix(value + [';'], TrimEndWhitespace(rest), '=');
    var p := Split(TrimEndWhitespace(rest), '=')[0];
    assert Split(Trim(s), '=')[1] == value + [';'] + p;
    assert CookiePair(s).value.1 == Trim(value + [';'] + p);
    ValuePieceHead(value, p);
  }

  /** Trimming `name=value;rest` only trims the end of `rest`. */
  lemma PairTrimmed(name: string, value: string, rest: string)
    requires PlainToken(name) && PlainToken(value)
    ensures Trim(name + "=" + value + ";" + rest) == name + ['='] + (value + [';'] + TrimEndWhitespace(rest))
  {
    TrimAround(name, '=', value + ";" + rest);
    Regrouped3(name + "=", value, ";", rest);
    TrimEndAfter(value, ';', rest);
  }

  /** The trimmed value piece `value;p` still starts with `value` followed by `;`. */
  lemma ValuePieceHead(value: string, p: string)
    requires PlainToken(value)
    ensures Split(Trim(Trim(value + [';'] + p)), ';')[0] == value
  {
    TrimAround(value, ';', p);
    var q := TrimEndWhitespace(p);
    TrimAround(value, ';', q);
    SplitAround(value, ';', TrimEndWhitespace(q));
  }

  /** The request form parses back to the same name and value. */
  lemma RequestCookieRoundTrip(c: Cookie)
    requires PlainToken(c.name) && PlainToken(c.value)
    ensures ParseRequestCookie(RequestCookieString(c)) == Result.Ok(NewCookieBuilder(c.name, c.value).Build())
  {
    CookiePairOfPair(c.name, c.value);
  }

  /**
   * Leading whitespace in the Unicode sense, a no-break space or an ideographic
   * space as much as a blank, is trimmed before the pair is read.
   */
  lemma LeadingWhitespaceIgnored(w: char, name: string, value: string)
    requires IsWhitespace(w) && PlainToken(name) && PlainToken(value)
    ensures ParseRequestCookie([w] + (name + "=" + value)) == Result.Ok(NewCookieBuilder(name, value).Build())
  {
    var s := name + "=" + value;
    assert ([w] + s)[1..] == s;
    assert Trim([w] + s) == Trim(s);
    CookiePairOfPair(name, value);
  }

  /** `\u{a0}foo=bar` reads as the cookie `foo` with value `bar`. */
  lemma NoBreakSpaceExample()
    ensures ParseRequestCookie("\U{00A0}foo=bar") == Result.Ok(NewCookieBuilder("foo", "bar").Build())
  {
    assert "\U{00A0}foo=bar" == ['\U{00A0}'] + ("foo" + "=" + "bar");
    LeadingWhitespaceIgnored('\U{00A0}', "foo", "bar");
  }

  /** The response form parses back to its name and value; the attributes are dropped. */
  lemma ResponseCookieRoundTrip(c: Cookie)
    requires PlainToken(c.name) && PlainToken(c.value)
    ensures ParseResponseCookie(ResponseCookieString(c)) == Result.Ok(NewCookieBuilder(c.name, c.value).Build())
  {
    PairThenAttributes(c.name, c.value, Attributes(c));
  }

  /** A pair followed by any attribute list (empty, or starting with `;`) parses back to the pair. */
  lemma PairThenAttributes(name: string, value: string, a: string)
    requires PlainToken(name) && PlainToken(value)
    requires a == "" || a[0] == ';'
    ensures ParseResponseCookie(name + "=" + value + a) == Result.Ok(NewCookieBuilder(name, value).Build())
  {
    var s := name + "=" + value + a;
    if a == "" {
      CookiePairOfPair(name, value);
      assert s == name + "=" + value;
    } else {
      var rest := a[1..];
      assert a == ";" + rest;
      Regrouped(name + "=" + value, ";", rest);
      CookiePairOfAttributes(name, value, rest);
    }
    ParseResponseOfPair(s, name, value);
  }

  lemma ParseResponseOfPair(s: string, name: string, value: string)
    requires CookiePair(s).Ok? && CookiePair(s).value.0 == name
    requires Split(Trim(CookiePair(s).value.1), ';')[0] == value
    ensures ParseResponseCookie(s) == Result.Ok(NewCookieBuilder(name, value).Build())
  {
  }

  /** A bare request cookie `foo`/`bar` serialises as `foo=bar`. */
  lemma SimpleCookieExample()
    ensures RequestCookieString(NewCookieBuilder("foo", "bar").Build()) == "foo=bar"
  {
  }

  /** The full example, every attribute set. */
  lemma ComplexCookieExample(c: Cookie)
    requires c == NewCookieBuilder("foo", "bar")
      .WithPath(Some("/"))
      .WithDomain(Some("example.com"))
      .WithMaxAge(Some(3600))
      .WithSecure(true)
      .WithHttpOnly(true)
      .WithSameSite(Some(Strict))
      .Build()
    ensures ResponseCookieString(c)
      == "foo=bar" + "; Path=/" + "; Domain=example.com" + "; Max-Age=3600"
        + "; Secure" + "; HttpOnly" + "; SameSite=Strict"
  {
    ExampleSpelled(c);
  }

  /** The example's serialisation, from its fields. */
  lemma ExampleSpelled(c: Cookie)
    requires c == Cookie("foo", "bar", Some("/"), Some("example.com"), Some(3600), true, true, Some(Strict))
    ensures ResponseCookieString(c)
      == "foo=bar" + "; Path=/" + "; Domain=example.com" + "; Max-Age=3600"
        + "; Secure" + "; HttpOnly" + "; SameSite=Strict"
  {
    var location := "; Path=/" + "; Domain=example.com" + "; Max-Age=3600";
    var flags := "; Secure" + "; HttpOnly" + "; SameSite=Strict";
    ExampleLocation(c);
    ExampleFlags(c);
    assert RequestCookieString(c) == "foo=bar";
    Regrouped("foo=bar", location, flags);
    Regrouped3("foo=bar", "; Path=/", "; Domain=example.com", "; Max-Age=3600");
    Regrouped3("foo=bar" + location, "; Secure", "; HttpOnly", "; SameSite=Strict");
  }

  lemma ExampleLocation(c: Cookie)
    requires c.path == Some("/") && c.domain == Some("example.com") && c.maxAge == Some(3600)
    ensures LocationAttributes(c) == "; Path=/" + "; Domain=example.com" + "; Max-Age=3600"
  {
    HourInDigits();
    assert MaxAgeAttribute(c) == "; Max-Age=" + "3600";
  }

  /** An hour, in seconds, spelled in decimal. */
  lemma HourInDigits()
    ensures NatToString(3600) == "3600"
  {
    assert NatToString(3) == "3";
    assert NatToString(36) == "36";
    assert NatToString(360) == "360";
  }

  lemma ExampleFlags(c: Cookie)
    requires c.secure && c.httpOnly && c.sameSite == Some(Strict)
    ensures FlagAttributes(c) == "; Secure" + "; HttpOnly" + "; SameSite=Strict"
  {
  }
}
