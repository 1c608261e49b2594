/**
 * The header multimap (valar/src/http/headers.rs): a map from header name
 * to the list of its values. Every operation that takes a name lower-cases
 * it first (ASCII only), which makes names case-insensitive as RFC 9110
 * section 5.1 requires. `Headers::new` is the exception: it keeps the map it
 * is given as is.
 *
 * The lookups are pure functions of the map; the in-place updates are the
 * methods of the class `Headers`, each proved to leave the map equal to the
 * pure function of the old map that describes it.
 */
module HttpHeaders {
  import opened Wrappers
  import opened Strings
  import opened Fmt
  import opened HttpCookie

  type HeaderMap = map<string, seq<string>>

  /** The key a header name is stored under. */
  function Name(h: string): (r: string)
    ensures |r| == |h|
    ensures ToLower(r) == r
  {
    ToLowerIdempotent(h);
    ToLower(h)
  }

  /** `get`: all the values of a header. */
  function Get(m: HeaderMap, h: string): (r: Option<seq<string>>)
    ensures r.Some? <==> Name(h) in m
    ensures r.Some? ==> r.value == m[Name(h)]
  {
    if Name(h) in m then Some(m[Name(h)]) else None
  }

  /** `has` */
  predicate Has(m: HeaderMap, h: string) {
    Name(h) in m
  }

  /** `len`: the number of distinct names (not of values). */
  function Len(m: HeaderMap): nat {
    |m|
  }

  /** `is_empty` */
  predicate IsEmpty(m: HeaderMap) {
    |m| == 0
  }

  /** `len_of`: how many values the header has; 0 when it is absent. */
  function LenOf(m: HeaderMap, h: string): (n: nat)
    ensures !Has(m, h) ==> n == 0
    ensures Has(m, h) ==> n == |m[Name(h)]|
  {
    match Get(m, h)
    case Some(values) => |values|
    case None => 0
  }

  /** `first`: the first value of a header, if it has one. */
  function First(m: HeaderMap, h: string): (r: Option<string>)
    ensures r.Some? <==> LenOf(m, h) > 0
    ensures r.Some? ==> r.value == m[Name(h)][0]
  {
    match Get(m, h)
    case Some(values) => if |values| > 0 then Some(values[0]) else None
    case None => None
  }

  /** `is`: the first value equals `value`; the other values are ignored. */
  predicate Is(m: HeaderMap, h: string, value: string) {
    match First(m, h)
    case Some(current) => current == value
    case None => false
  }

  /** `contains`: the first value contains `value`; the other values are ignored. */
  predicate HeaderContains(m: HeaderMap, h: string, value: string) {
    match First(m, h)
    case Some(current) => Contains(current, value)
    case None => false
  }

  /** The map after `insert` (one value) or `insert_many`: the list is replaced. */
  function Inserted(m: HeaderMap, h: string, values: seq<string>): (r: HeaderMap)
    ensures r.Keys == m.Keys + {Name(h)}
    ensures Get(r, h) == Some(values)
    ensures forall k :: k in m && k != Name(h) ==> r[k] == m[k]
  {
    m[Name(h) := values]
  }

  /** The map after `append` (one value) or `append_many`: the list is extended, or created. */
  function Appended(m: HeaderMap, h: string, values: seq<string>): (r: HeaderMap)
    ensures r.Keys == m.Keys + {Name(h)}
    ensures Get(r, h) == Some((if Has(m, h) then m[Name(h)] else []) + values)
    ensures forall k :: k in m && k != Name(h) ==> r[k] == m[k]
  {
    match Get(m, h)
    case Some(current) => m[Name(h) := current + values]
    case None =>
      assert [] + values == values;
      m[Name(h) := values]
  }

  /** The map after `remove`. */
  function Removed(m: HeaderMap, h: string): (r: HeaderMap)
    ensures r.Keys == m.Keys - {Name(h)}
    ensures Get(r, h).None?
    ensures forall k :: k in r ==> r[k] == m[k]
  {
    m - {Name(h)}
  }

  /** Any spelling of a name reaches the same entry as its lower-case form. */
  lemma CaseInsensitive(m: HeaderMap, h: string, values: seq<string>)
    ensures Get(m, h) == Get(m, ToLower(h))
    ensures Inserted(m, h, values) == Inserted(m, ToLower(h), values)
    ensures Appended(m, h, values) == Appended(m, ToLower(h), values)
    ensures Removed(m, h) == Removed(m, ToLower(h))
  {
    ToLowerIdempotent(h);
  }

  /** After `insert`, the header has exactly the one value, which `first` and `is` see. */
  lemma InsertedOne(m: HeaderMap, h: string, v: string)
    ensures LenOf(Inserted(m, h, [v]), h) == 1
    ensures First(Inserted(m, h, [v]), h) == Some(v)
    ensures Is(Inserted(m, h, [v]), h, v)
    ensures Len(Inserted(m, h, [v])) == Len(m) + (if Has(m, h) then 0 else 1)
  {
    var r := Inserted(m, h, [v]);
    if Has(m, h) {
      assert r.Keys == m.Keys;
    } else {
      assert r.Keys == m.Keys + {Name(h)};
    }
  }

  /**
   * After `append`, the count of values grows by the number appended, and an
   * existing first value stays first.
   */
  lemma AppendedCount(m: HeaderMap, h: string, values: seq<string>)
    ensures LenOf(Appended(m, h, values), h) == LenOf(m, h) + |values|
    ensures LenOf(m, h) > 0 ==> First(Appended(m, h, values), h) == First(m, h)
    ensures LenOf(m, h) == 0 && |values| > 0 ==> First(Appended(m, h, values), h) == Some(values[0])
    ensures Len(Appended(m, h, values)) == Len(m) + (if Has(m, h) then 0 else 1)
  {
    var r := Appended(m, h, values);
    if Has(m, h) {
      assert r.Keys == m.Keys;
    } else {
      assert r.Keys == m.Keys + {Name(h)};
    }
  }

  /** `remove` drops every value of the header, and is a no-op when it is absent. */
  lemma RemovedAll(m: HeaderMap, h: string)
    ensures LenOf(Removed(m, h), h) == 0 && !Has(Removed(m, h), h)
    ensures !Has(m, h) ==> Removed(m, h) == m
    ensures Len(Removed(m, h)) == Len(m) - (if Has(m, h) then 1 else 0)
  {
    KeyRemoved(m, Name(h));
  }

  /** Taking one key out of a map shrinks it by one exactly when the key was there. */
  lemma KeyRemoved(m: HeaderMap, key: string)
    ensures |m - {key}| == |m| - (if key in m then 1 else 0)
    ensures key !in m ==> m - {key} == m
  {
    var r := m - {key};
    if key in m {
      assert m.Keys == r.Keys + {key};
      assert |m.Keys| == |r.Keys| + 1;
    } else {
      assert r.Keys == m.Keys;
    }
  }

  /** `is` and `contains` are false for an absent header; `is` implies `contains`. */
  lemma FirstValuePredicates(m: HeaderMap, h: string, value: string)
    ensures !Has(m, h) ==> !Is(m, h, value) && !HeaderContains(m, h, value)
    ensures Is(m, h, value) ==> HeaderContains(m, h, value)
  {
    if Is(m, h, value) {
      ContainsSelf(value);
    }
  }

  // ----- Iteration -----

  /** The values paired with `k`, in order. */
  function ValuesFor(pairs: seq<(string, string)>, k: string): seq<string> {
    if |pairs| == 0 then []
    else
      var last := pairs[|pairs| - 1];
      ValuesFor(pairs[..|pairs| - 1], k) + (if last.0 == k then [last.1] else [])
  }

  /** The values paired with any spelling of `k`, in order. */
  function ValuesForName(pairs: seq<(string, string)>, k: string): seq<string> {
    if |pairs| == 0 then []
    else
      var last := pairs[|pairs| - 1];
      ValuesForName(pairs[..|pairs| - 1], k) + (if Name(last.0) == k then [last.1] else [])
  }

  lemma ValuesForSnoc(pairs: seq<(string, string)>, p: (string, string), k: string)
    ensures ValuesFor(pairs + [p], k) == ValuesFor(pairs, k) + (if p.0 == k then [p.1] else [])
  {
    assert (pairs + [p])[..|pairs|] == pairs;
  }

  /** A name that no pair carries has no values. */
  lemma {:induction false} ValuesForAbsent(pairs: seq<(string, string)>, k: string)
    requires forall i :: 0 <= i < |pairs| ==> pairs[i].0 != k
    ensures ValuesFor(pairs, k) == []
  {
    if |pairs| > 0 {
      ValuesForAbsent(pairs[..|pairs| - 1], k);
    }
  }

  /** When every name is already lower-case, the two ways of collecting agree. */
  lemma {:induction false} ValuesForLowerNames(pairs: seq<(string, string)>, k: string)
    requires forall i :: 0 <= i < |pairs| ==> Name(pairs[i].0) == pairs[i].0
    ensures ValuesForName(pairs, k) == ValuesFor(pairs, k)
  {
    if |pairs| > 0 {
      ValuesForLowerNames(pairs[..|pairs| - 1], k);
    }
  }

  /**
   * `into_iter` produced `pairs` from `m`: one pair per value, every name is
   * a name of `m`, and each name's values come out in their stored order.
   * The order of the names is the hash map's and is left open.
   */
  /** `pairs` followed by one pair per value of `key`, in order. */
  method AppendValues(pairs: seq<(string, string)>, key: string, values: seq<string>) returns (r: seq<(string, string)>)
    ensures forall i :: 0 <= i < |r| ==> r[i].0 == key || (i < |pairs| && r[i] == pairs[i])
    ensures ValuesFor(r, key) == ValuesFor(pairs, key) + values
    ensures forall k :: k != key ==> ValuesFor(r, k) == ValuesFor(pairs, k)
  {
    r := pairs;
    var j := 0;
    while j < |values|
      invariant 0 <= j <= |values|
      invariant |r| == |pairs| + j
      invariant forall i :: 0 <= i < |r| ==> r[i].0 == key || (i < |pairs| && r[i] == pairs[i])
      invariant ValuesFor(r, key) == ValuesFor(pairs, key) + values[..j]
      invariant forall k :: k != key ==> ValuesFor(r, k) == ValuesFor(pairs, k)
    {
      forall k
        ensures ValuesFor(r + [(key, values[j])], k) == ValuesFor(r, k) + (if key == k then [values[j]] else [])
      {
        ValuesForSnoc(r, (key, values[j]), k);
      }
      assert values[..j + 1] == values[..j] + [values[j]];
      r := r + [(key, values[j])];
      j := j + 1;
    }
    assert values[..j] == values;
  }

  ghost predicate Flattens(m: HeaderMap, pairs: seq<(string, string)>) {
    && (forall i :: 0 <= i < |pairs| ==> pairs[i].0 in m)
    && (forall k :: k in m ==> ValuesFor(pairs, k) == m[k])
  }

  /** The map after appending every pair in order (`extend`, `from_iter`). */
  function AppendAll(m: HeaderMap, pairs: seq<(string, string)>): HeaderMap {
    if |pairs| == 0 then m
    else
      var last := pairs[|pairs| - 1];
      Appended(AppendAll(m, pairs[..|pairs| - 1]), last.0, [last.1])
  }

  /**
   * Appending pairs in order accumulates repeated names: a name ends up with
   * its old values followed by the value of every pair that spells it, in
   * order, and it is present iff it was, or some pair spells it.
   */
  lemma {:induction false} AppendAllAt(m: HeaderMap, pairs: seq<(string, string)>, k: string)
    ensures k in AppendAll(m, pairs) <==> k in m || ValuesForName(pairs, k) != []
    ensures k in AppendAll(m, pairs) ==>
      AppendAll(m, pairs)[k] == (if k in m then m[k] else []) + ValuesForName(pairs, k)
  {
    if |pairs| > 0 {
      AppendAllAt(m, pairs[..|pairs| - 1], k);
    }
  }

  /** Rebuilding a lower-cased multimap from its own pairs gives it back. */
  lemma FromIterIntoIter(m: HeaderMap, pairs: seq<(string, string)>)
    requires forall k :: k in m ==> Name(k) == k && |m[k]| > 0
    requires Flattens(m, pairs)
    ensures AppendAll(map[], pairs) == m
  {
    var r := AppendAll(map[], pairs);
    forall k
      ensures k in r <==> k in m
      ensures k in m ==> r[k] == m[k]
    {
      AppendAllAt(map[], pairs, k);
      ValuesForLowerNames(pairs, k);
      if k !in m {
        ValuesForAbsent(pairs, k);
      }
    }
  }

  // ----- Cookies -----

  /** The cookies among `values`; values that do not parse are skipped. */
  function ParsedCookies(values: seq<string>, parse: string -> Result<Cookie, string>): (r: seq<Cookie>)
    ensures |r| <= |values|
  {
    if |values| == 0 then []
    else
      var last := parse(values[|values| - 1]);
      ParsedCookies(values[..|values| - 1], parse) + (if last.Ok? then [last.value] else [])
  }

  /** The first cookie called `name` (`find`). */
  function FindCookie(cookies: seq<Cookie>, name: string): (r: Option<Cookie>)
    ensures r.Some? ==> r.value in cookies && r.value.name == name
    ensures r.None? <==> forall i :: 0 <= i < |cookies| ==> cookies[i].name != name
  {
    if |cookies| == 0 then None
    else if cookies[0].name == name then Some(cookies[0])
    else FindCookie(cookies[1..], name)
  }

  lemma {:induction false} FindCookieAppend(cookies: seq<Cookie>, c: Cookie)
    ensures FindCookie(cookies + [c], c.name).Some?
    ensures FindCookie(cookies, c.name).None? ==> FindCookie(cookies + [c], c.name) == Some(c)
    ensures FindCookie(cookies, c.name).Some? ==> FindCookie(cookies + [c], c.name) == FindCookie(cookies, c.name)
  {
    if |cookies| > 0 {
      assert (cookies + [c])[1..] == cookies[1..] + [c];
      FindCookieAppend(cookies[1..], c);
    }
  }

  /** The cookies of the values of header `h`, read with `parse`. */
  function CookiesOf(m: HeaderMap, h: string, parse: string -> Result<Cookie, string>): seq<Cookie> {
    match Get(m, h)
    case Some(values) => ParsedCookies(values, parse)
    case None => []
  }

  /** `Headers<Request>::cookies`: the `Cookie` header, read as request cookies. */
  function RequestCookies(m: HeaderMap): (r: seq<Cookie>)
    ensures forall i :: 0 <= i < |r| ==> Bare(r[i])
  {
    CookiesOfBare(m, "Cookie", ParseRequestCookie);
    CookiesOf(m, "Cookie", ParseRequestCookie)
  }

  /**
   * `Headers<Response>::cookies` as written: the `Set-Cookie` header, but
   * read with the request-cookie parser, so the attributes end up in the
   * value.
   */
  function ResponseCookiesAsWritten(m: HeaderMap): (r: seq<Cookie>)
    ensures forall i :: 0 <= i < |r| ==> Bare(r[i])
  {
    CookiesOfBare(m, "Set-Cookie", ParseRequestCookie);
    CookiesOf(m, "Set-Cookie", ParseRequestCookie)
  }

  /** `Headers<Response>::cookies`, read with the response-cookie parser. */
  function ResponseCookies(m: HeaderMap): (r: seq<Cookie>)
    ensures forall i :: 0 <= i < |r| ==> Bare(r[i]) && ';' !in r[i].value
  {
    CookiesOfResponse(m);
    CookiesOf(m, "Set-Cookie", ParseResponseCookie)
  }

  lemma {:induction false} ParsedCookiesBare(values: seq<string>, parse: string -> Result<Cookie, string>)
    requires forall s :: parse(s).Ok? ==> Bare(parse(s).value)
    ensures forall i :: 0 <= i < |ParsedCookies(values, parse)| ==> Bare(ParsedCookies(values, parse)[i])
  {
    if |values| > 0 {
      ParsedCookiesBare(values[..|values| - 1], parse);
    }
  }

  lemma CookiesOfBare(m: HeaderMap, h: string, parse: string -> Result<Cookie, string>)
    requires forall s :: parse(s).Ok? ==> Bare(parse(s).value)
    ensures forall i :: 0 <= i < |CookiesOf(m, h, parse)| ==> Bare(CookiesOf(m, h, parse)[i])
  {
    if Has(m, h) {
      ParsedCookiesBare(m[Name(h)], parse);
    }
  }

  lemma {:induction false} ParsedResponseCookies(values: seq<string>)
    ensures forall i :: 0 <= i < |ParsedCookies(values, ParseResponseCookie)| ==>
      var c := ParsedCookies(values, ParseResponseCookie)[i];
      Bare(c) && ';' !in c.value
  {
    if |values| > 0 {
      ParsedResponseCookies(values[..|values| - 1]);
    }
  }

  lemma CookiesOfResponse(m: HeaderMap)
    ensures forall i :: 0 <= i < |CookiesOf(m, "Set-Cookie", ParseResponseCookie)| ==>
      var c := CookiesOf(m, "Set-Cookie", ParseResponseCookie)[i];
      Bare(c) && ';' !in c.value
  {
    if Has(m, "Set-Cookie") {
      ParsedResponseCookies(m[Name("Set-Cookie")]);
    }
  }

  /** `cookie` and `has_cookie` on request headers. */
  function RequestCookie(m: HeaderMap, name: string): (r: Option<Cookie>)
    ensures r.Some? ==> r.value.name == name && Bare(r.value)
  {
    FindCookie(RequestCookies(m), name)
  }

  predicate HasRequestCookie(m: HeaderMap, name: string) {
    RequestCookie(m, name).Some?
  }

  /**
   * `cookie` and `has_cookie` on response headers as written: they search
   * the cookies that `cookies` reads with the request-cookie parser.
   */
  function ResponseCookie(m: HeaderMap, name: string): (r: Option<Cookie>)
    ensures r.Some? ==> r.value.name == name && Bare(r.value)
    ensures r.Some? ==> r.value in ResponseCookiesAsWritten(m)
  {
    FindCookie(ResponseCookiesAsWritten(m), name)
  }

  predicate HasResponseCookie(m: HeaderMap, name: string) {
    ResponseCookie(m, name).Some?
  }

  /** `cookie` and `has_cookie` on response headers, read with the response-cookie parser. */
  function ResponseCookieIntended(m: HeaderMap, name: string): (r: Option<Cookie>)
    ensures r.Some? ==> r.value.name == name && Bare(r.value) && ';' !in r.value.value
    ensures r.Some? ==> r.value in ResponseCookies(m)
  {
    FindCookie(ResponseCookies(m), name)
  }

  predicate HasResponseCookieIntended(m: HeaderMap, name: string) {
    ResponseCookieIntended(m, name).Some?
  }

  lemma ParsedCookiesSnoc(values: seq<string>, v: string, parse: string -> Result<Cookie, string>)
    ensures ParsedCookies(values + [v], parse)
      == ParsedCookies(values, parse) + (if parse(v).Ok? then [parse(v).value] else [])
  {
    assert (values + [v])[..|values|] == values;
  }

  /** Appending one value to header `h` adds at most its one cookie at the end. */
  lemma CookiesOfAppended(m: HeaderMap, h: string, v: string, parse: string -> Result<Cookie, string>)
    ensures CookiesOf(Appended(m, h, [v]), h, parse)
      == CookiesOf(m, h, parse) + (if parse(v).Ok? then [parse(v).value] else [])
  {
    if Has(m, h) {
      ParsedCookiesSnoc(m[Name(h)], v, parse);
    } else {
      ParsedCookiesSnoc([], v, parse);
    }
  }

  /**
   * A request cookie set on the headers is read back: it comes last among
   * the cookies, `has_cookie` holds, and `cookie` returns it unless an
   * earlier cookie has the same name.
   */
  lemma SetRequestCookieReadBack(m: HeaderMap, c: Cookie)
    requires PlainToken(c.name) && PlainToken(c.value)
    ensures RequestCookies(Appended(m, "Cookie", [RequestCookieString(c)]))
      == RequestCookies(m) + [NewCookieBuilder(c.name, c.value).Build()]
    ensures HasRequestCookie(Appended(m, "Cookie", [RequestCookieString(c)]), c.name)
    ensures !HasRequestCookie(m, c.name) ==>
      RequestCookie(Appended(m, "Cookie", [RequestCookieString(c)]), c.name)
        == Some(NewCookieBuilder(c.name, c.value).Build())
  {
    RequestCookieRoundTrip(c);
    CookiesOfAppended(m, "Cookie", RequestCookieString(c), ParseRequestCookie);
    FindCookieAppend(RequestCookies(m), NewCookieBuilder(c.name, c.value).Build());
  }

  /**
   * The same for a response cookie and `Set-Cookie` read with the
   * response-cookie parser, whatever the cookie's attributes.
   */
  lemma SetResponseCookieReadBack(m: HeaderMap, c: Cookie)
    requires PlainToken(c.name) && PlainToken(c.value)
    ensures ResponseCookies(Appended(m, "Set-Cookie", [ResponseCookieString(c)]))
      == ResponseCookies(m) + [NewCookieBuilder(c.name, c.value).Build()]
    ensures HasResponseCookieIntended(Appended(m, "Set-Cookie", [ResponseCookieString(c)]), c.name)
    ensures !HasResponseCookieIntended(m, c.name) ==>
      ResponseCookieIntended(Appended(m, "Set-Cookie", [ResponseCookieString(c)]), c.name)
        == Some(NewCookieBuilder(c.name, c.value).Build())
  {
    ResponseCookieRoundTrip(c);
    CookiesOfAppended(m, "Set-Cookie", ResponseCookieString(c), ParseResponseCookie);
    FindCookieAppend(ResponseCookies(m), NewCookieBuilder(c.name, c.value).Build());
  }

  /**
   * As written, a response cookie with a path reads back from `Set-Cookie`
   * with `; Path` glued to its value: `foo=bar; Path=/` gives `bar; Path`.
   */
  lemma ResponseCookiesAsWrittenGlue(m: HeaderMap, c: Cookie)
    requires c.path.Some? && c.domain.None? && c.maxAge.None? && !c.secure && !c.httpOnly && c.sameSite.None?
    requires PlainToken(c.name) && PlainToken(c.value) && PlainToken(c.path.value)
    ensures ResponseCookiesAsWritten(Appended(m, "Set-Cookie", [ResponseCookieString(c)]))
      == ResponseCookiesAsWritten(m) + [NewCookieBuilder(c.name, c.value + "; Path").Build()]
  {
    GluedPath(c.name, c.value, c.path.value);
    PathOnlyString(c);
    CookiesOfAppended(m, "Set-Cookie", ResponseCookieString(c), ParseRequestCookie);
  }

  /**
   * As written, `has_cookie` on response headers still finds a cookie set
   * with a path, but `cookie` returns it with `; Path` in its value.
   */
  lemma SetResponseCookieAsWrittenReadBack(m: HeaderMap, c: Cookie)
    requires c.path.Some? && c.domain.None? && c.maxAge.None? && !c.secure && !c.httpOnly && c.sameSite.None?
    requires PlainToken(c.name) && PlainToken(c.value) && PlainToken(c.path.value)
    ensures HasResponseCookie(Appended(m, "Set-Cookie", [ResponseCookieString(c)]), c.name)
    ensures !HasResponseCookie(m, c.name) ==>
      ResponseCookie(Appended(m, "Set-Cookie", [ResponseCookieString(c)]), c.name)
        == Some(NewCookieBuilder(c.name, c.value + "; Path").Build())
  {
    ResponseCookiesAsWrittenGlue(m, c);
    FindCookieAppend(ResponseCookiesAsWritten(m), NewCookieBuilder(c.name, c.value + "; Path").Build());
  }

  lemma PathOnlyString(c: Cookie)
    requires c.path.Some? && c.domain.None? && c.maxAge.None? && !c.secure && !c.httpOnly && c.sameSite.None?
    ensures ResponseCookieString(c) == c.name + "=" + (c.value + "; Path") + "=" + c.path.value
  {
    assert Attributes(c) == "; Path=" + c.path.value;
    assert "; Path=" == "; Path" + "=";
  }

  /** The request parser on `name=value; Path=p`. */
  lemma GluedPath(name: string, value: string, p: string)
    requires PlainToken(name) && PlainToken(value) && PlainToken(p)
    ensures ParseRequestCookie(name + "=" + (value + "; Path") + "=" + p)
      == Result.Ok(NewCookieBuilder(name, value + "; Path").Build())
  {
    var v := value + "; Path";
    GluedValue(value);
    var s := name + "=" + v + "=" + p;
    GluedPair(name, v, p);
    assert CookiePair(s) == Result.Ok((name, v));
  }

  /** `value; Path` is trimmed and has no `=`. */
  lemma GluedValue(value: string)
    requires PlainToken(value)
    ensures Trimmed(value + "; Path") && '=' !in value + "; Path"
  {
    var v := value + "; Path";
    assert v[|v| - 1] == 'h';
    if |value| > 0 {
      assert v[0] == value[0];
    } else {
      assert v[0] == ';';
    }
    assert forall i :: |value| <= i < |v| ==> v[i] in "; Path";
  }

  /** The cookie pair of `name=v=p` with trimmed, `=`-free parts. */
  lemma GluedPair(name: string, v: string, p: string)
    requires PlainToken(name) && Trimmed(v) && '=' !in v && PlainToken(p)
    ensures CookiePair(name + "=" + v + "=" + p) == Result.Ok((name, v))
  {
    var s := name + "=" + v + "=" + p;
    GluedTrimmed(name, v, p);
    GluedSplit(name, v, p);
    TrimTrimmed(name);
    TrimTrimmed(v);
    CookiePairOfParts(s, name, v, p);
  }

  lemma CookiePairOfParts(s: string, a: string, b: string, rest: string)
    requires Split(Trim(s), '=') == [a, b, rest]
    ensures CookiePair(s) == Result.Ok((Trim(a), Trim(b)))
  {
  }

  lemma GluedTrimmed(name: string, v: string, p: string)
    requires Trimmed(name) && Trimmed(p)
    ensures Trim(name + "=" + v + "=" + p) == name + "=" + v + "=" + p
  {
    var s := name + "=" + v + "=" + p;
    assert s[|s| - 1] == (if |p| > 0 then p[|p| - 1] else '=');
    assert s[0] == (if |name| > 0 then name[0] else '=');
    TrimTrimmed(s);
  }

  lemma GluedSplit(name: string, v: string, p: string)
    requires '=' !in name && '=' !in v && '=' !in p
    ensures Split(name + "=" + v + "=" + p, '=') == [name, v, p]
  {
    assert name + "=" + v + "=" + p == name + ['='] + (v + ['='] + p);
    SplitAround(name, '=', v + ['='] + p);
    SplitAround(v, '=', p);
    SplitFree(p, '=');
  }

  /** A header map together with its in-place updates. */
  class Headers {
    var entries: HeaderMap

    /** `Headers::default()` */
    constructor ()
      ensures entries == map[]
    {
      entries := map[];
    }

    /** `Headers::new`: the map is kept as given; its names are not lower-cased. */
    constructor New(m: HeaderMap)
      ensures entries == m
    {
      entries := m;
    }

    /** `insert`: the header's values become exactly `[value]`. */
    method Insert(h: string, value: string)
      modifies this
      ensures entries == Inserted(old(entries), h, [value])
    {
      entries := entries[Name(h) := [value]];
    }

    /** `insert_many`: the header's values become exactly `values`. */
    method InsertMany(h: string, values: seq<string>)
      modifies this
      ensures entries == Inserted(old(entries), h, values)
    {
      entries := entries[Name(h) := values];
    }

    /** `append`: push onto the existing values, or insert a single value. */
    method Append(h: string, value: string)
      modifies this
      ensures entries == Appended(old(entries), h, [value])
    {
      match Get(entries, h)
      case Some(values) =>
        entries := entries[Name(h) := values + [value]];
      case None =>
        Insert(h, value);
    }

    /** `append_many`: extend the existing values, or `insert_many`. */
    method AppendMany(h: string, values: seq<string>)
      modifies this
      ensures entries == Appended(old(entries), h, values)
    {
      if Has(entries, h) {
        var current := entries[Name(h)];
        entries := entries[Name(h) := current + values];
        return;
      }
      InsertMany(h, values);
    }

    /** `remove` */
    method Remove(h: string)
      modifies this
      ensures entries == Removed(old(entries), h)
    {
      entries := entries - {Name(h)};
    }

    /** `clear` */
    method Clear()
      modifies this
      ensures entries == map[] && Len(entries) == 0
    {
      entries := map[];
    }

    /** `into_iter`: every name, and for each name every value in order. */
    method IntoIter() returns (pairs: seq<(string, string)>)
      ensures Flattens(entries, pairs)
    {
      pairs := [];
      var rest := entries.Keys;
      ghost var done: set<string> := {};
      while rest != {}
        invariant rest + done == entries.Keys && rest !! done
        invariant forall i :: 0 <= i < |pairs| ==> pairs[i].0 in done
        invariant forall k :: k in done ==> ValuesFor(pairs, k) == entries[k]
        decreases rest
      {
        var key :| key in rest;
        ValuesForAbsent(pairs, key);
        pairs := AppendValues(pairs, key, entries[key]);
        rest := rest - {key};
        done := done + {key};
      }
    }

    /** `extend`: one `append` per pair, in order. */
    method Extend(pairs: seq<(string, string)>)
      modifies this
      ensures entries == AppendAll(old(entries), pairs)
    {
      var i := 0;
      while i < |pairs|
        invariant 0 <= i <= |pairs|
        invariant entries == AppendAll(old(entries), pairs[..i])
      {
        assert pairs[..i + 1][..i] == pairs[..i];
        Append(pairs[i].0, pairs[i].1);
        i := i + 1;
      }
      assert pairs[..i] == pairs;
    }

    /** `set_cookie` on request headers: appends the cookie's request form to `Cookie`. */
    method SetRequestCookie(c: Cookie)
      modifies this
      ensures entries == Appended(old(entries), "Cookie", [RequestCookieString(c)])
    {
      var f := new Formatter();
      WriteRequestCookie(c, f);
      assert f.written == RequestCookieString(c);
      Append("Cookie", f.written);
    }

    /** `set_cookie` on response headers: appends the cookie's response form to `Set-Cookie`. */
    method SetResponseCookie(c: Cookie)
      modifies this
      ensures entries == Appended(old(entries), "Set-Cookie", [ResponseCookieString(c)])
    {
      var f := new Formatter();
      WriteResponseCookie(c, f);
      assert f.written == ResponseCookieString(c);
      Append("Set-Cookie", f.written);
    }
  }

  /** `from_iter` (and `From<[(H, V); N]>`): start empty, `append` each pair. */
  method FromIter(pairs: seq<(string, string)>) returns (h: Headers)
    ensures fresh(h)
    ensures h.entries == AppendAll(map[], pairs)
  {
    h := new Headers();
    h.Extend(pairs);
  }
}
