# Valar, modelled in Dafny

This project models the core of Valar, a small Rust web framework. Valar's
behaviour lives mostly in string, list and map handling behind the HTTP
layer. The repository holds two generations of code: the older one under
`src/` and the newer one under `valar/src/`. Each file is modelled as it is
written. The two generations are not reconciled, but where they overlap,
lemmas show that they agree.

## What is modelled

- **Routing** (`valar/src/routing/*.rs`, `src/routing/*.rs`):
  - Path templates compile to the exact pattern string `^/$` or `^/…/?$`.
    A `:name` segment becomes the leaf's own constraint or the default class
    `[a-zA-Z0-9-_]+` (`RoutePattern`, `LegacyRouting`).
  - Route parameters come from aligned `:` segments.
  - The route tree compiler (`Routing`):
    - it merges configurations;
    - it flattens groups, and the first error aborts the whole group;
    - it emits one route per method, in method order.
  - The middleware onion `wrap` (`Middleware`):
    - it is a fold over the reversed list;
    - each middleware records when it is entered and left, so laws about
      the execution trace can be stated.
  - The matchers (`RouteMatcher`, `LegacyMatcher`):
    - compilation is all or nothing;
    - lookup is a first-match scan;
    - the not-found and error-rendering paths.
  - The routers' route lists (`HttpRouter`, `LegacyRouter`): classes whose
    `routes` field grows in place.
- **HTTP data** (`valar/src/http/*.rs`, `src/http/*.rs`):
  - The header multimap, with ASCII lower-cased names as RFC 9110
    section 5.1 allows (`HttpHeaders`). The pure lookups are functions of
    the map. The in-place updates are methods of the class `Headers`, each
    proved equal to a function of the old map.
  - Cookies in the request and `Set-Cookie` forms of RFC 6265 section 4.1,
    plus SameSite, with their parsers (`HttpCookie`, `LegacyCookies`).
    `Display` is modelled as writes to a `Fmt.Formatter` class.
  - Query-string parsing and request header predicates (`HttpRequest`,
    `LegacyRequest`).
  - The response and error-response builders (`HttpResponse`,
    `LegacyResponse`, `HttpError`).
  - The JSON error body, with its serde_json string escaping and a decoder
    that inverts it (`JsonText`).
- **SQL builder** (`valar/src/database/**`):
  - WHERE conditions and their `$n` placeholders (`SqlWheres`). Their text
    is a sequence of fixed pieces and placeholder slots, so the numbering
    can be stated on its own.
  - The shared parameter counter (`SqlParameters.Parameters`, a class).
  - The SELECT builder (`SqlSelect.SelectQueryBuilder`, a class). It is
    proved to number placeholders `$1..$k` in writing order and to bind the
    `j`-th value of each condition to that condition's `j`-th placeholder.
  - The pending query (`PendingQueries`) and the entry point (`SqlBuilder`).
- **Caches** (`valar/src/services/cache*`, `valar/src/drivers/cache*`):
  - Both memory caches are classes with `state` and `expirations` maps.
  - Every method is proved equal to a function of the old memory.
  - The background purge loop is one `PurgeStep(now)`.
  - The older services cache never writes an expiration at all, so no
    lookup can ever report `Expired` (`ServiceCache.NeverExpires`).
  - In the drivers cache, `delete` leaves a key's deadline behind, and the
    deadline then cuts off a later insert without a lifetime
    (`DriverMemory.DeadlineOutlivesDelete`).
  - The fallback combinators `get_or*`, `map*` and `has` (`DriverCache`).
- **`truncate_to_fit`** (`Utils`).

### How the model departs from the code

Everything outside the framework is a parameter, except the middleware
implementations, which are user code that three fixed shapes stand for
(see `Middleware.Mw` under "Left out"):

- **The clock.** Each operation that reads `Instant::now()` takes `now`.
  Instants are integers.
- **The regex engine** is an `Engine`:
  - it may refuse a pattern string;
  - it decides custom constraint fragments;
  - matching is proved only for literal and default-class segments.
- **serde_json** is replaced by decoder and encoder functions. The unit
  type's decoder accepts exactly `null`.

Where the code disagrees with its own documentation or calls, the model
follows the code:

- `Matcher::find` scans front to back and returns the first hit.
- `ErrorResponse::to_json_response` sets `Content-Type: application/json`
  first and layers the custom headers over it. `json_or` then inserts
  `Content-Type: application/json` again, so the JSON form always carries
  that Content-Type, whatever the custom headers say.
- `valar/src/routing/matcher.rs` calls `into_json_response` and
  `into_response`. `valar/src/http/error.rs` defines them as
  `to_json_response` and `to_response`, and those definitions are the ones
  used.
- `valar/src/routing/router.rs:55-59` calls `Route::new`, which exists only
  in commented-out code. It is modelled as `Routing.NewRoute`: the
  template's regex with no constraints, for the given method and handler.
- `not_found_handler` (`valar/src/routing/route.rs:89-97`) calls
  `ResponseBuilder::message` and `as_ok`, which the response builder does
  not define. It is modelled as a 404 builder whose body is the message
  text, returned as `Ok` (`Routing.NotFoundHandler`).
- `Route::handle` (`valar/src/routing/route.rs:294-299`) calls
  `Router::<App>::error_response`, which does not exist. It is declared to
  return a `Response`, yet `Matcher::handle`
  (`valar/src/routing/matcher.rs:100-105`) matches its result as `Ok` or
  `Err`. The model follows the matcher: the route hands back the wrapped
  handler's result unchanged. `Matcher::error_response` renders an `Err`
  (`RouteMatcher.Handle`).
- The in-memory cache driver (`valar/src/drivers/cache/memory.rs`) does
  not match the cache trait it implements (`valar/src/drivers/cache.rs`):
  - its `insert` returns `Result<&Self, Error>` (memory.rs:91), where the
    trait's `insert` returns `Result<(), Error>` (cache.rs:75-78);
  - its `insert_expirable` (memory.rs:104-121) is not a trait method;
  - the trait's `insert_for` and `insert_until` (cache.rs:80-90) are never
    implemented.

  The model follows the trait's signature, so `insert` yields `()`. It
  models `insert_expirable` as an extra method of the driver
  (`DriverMemory.MemoryCache.InsertExpirable`). `insert_for` and
  `insert_until` have no body to model.

## Model

| member | source | states |
|---|---|---|
| HttpResponse.AbsentHeaderPredicates | valar/src/http/response.rs:69-89 | without the key, `has_header`, `header_is` and `header_contains` are all false, and without Content-Type `is_json` is false |
| HttpResponse.ResponseBuilder.Status | valar/src/http/response.rs:130-135 | the status becomes the given one; version, headers and body are kept |
| HttpResponse.ResponseBuilder.Header | valar/src/http/response.rs:137-142 | one key is inserted or replaced; every other key and field is kept |
| HttpResponse.ResponseBuilder.Headers | valar/src/http/response.rs:144-149 | the header map is replaced wholesale; status, version and body are kept |
| HttpResponse.ResponseBuilder.Body | valar/src/http/response.rs:151-158 | the body is replaced; status, version and headers are kept |
| HttpResponse.ResponseBuilder.Ok | valar/src/http/response.rs:160-162 | the same as setting status 200 |
| HttpResponse.ResponseBuilder.Created | valar/src/http/response.rs:164-166 | the same as setting status 201 |
| HttpResponse.ResponseBuilder.NoContent | valar/src/http/response.rs:168-170 | the same as setting status 204 |
| HttpResponse.ResponseBuilder.Unauthorized | valar/src/http/response.rs:172-178 | status 401 and the challenges stored under `WWW-Authenticate`, other headers kept |
| HttpResponse.ResponseBuilder.NotFound | valar/src/http/response.rs:180-184 | the same as setting status 404 |
| HttpResponse.ResponseBuilder.MethodNotAllowed | valar/src/http/response.rs:186-190 | the same as setting status 405 |
| HttpResponse.ResponseBuilder.InternalServerError | valar/src/http/response.rs:192-196 | the same as setting status 500 |
| HttpResponse.ResponseBuilder.Html | valar/src/http/response.rs:199-209 | Content-Type becomes `text/html` and the body the given text; status and version kept |
| HttpResponse.ResponseBuilder.Text | valar/src/http/response.rs:211-221 | Content-Type becomes `text/plain` and the body the given text; status and version kept |
| HttpResponse.ResponseBuilder.Json | valar/src/http/response.rs:224-234 | fails exactly when serialisation fails; on success Content-Type is `application/json` and the body is the serialised value |
| HttpResponse.ResponseBuilder.JsonOr | valar/src/http/response.rs:236-246 | Content-Type is `application/json` either way; the body is the serialised value, or the default when serialisation failed |
| HttpResponse.ResponseBuilder.JsonOrElse | valar/src/http/response.rs:248-259 | as `json_or`, with the fallback body computed from the serialisation error |
| HttpResponse.ResponseBuilder.Build | valar/src/http/response.rs:261-269 | the response carries exactly the builder's status, version, headers and body |
| HttpResponse.ResponseBuilder.Produce | valar/src/http/response.rs:271-273 | never fails, and yields the built response |
| HttpResponse.NewBuilder | valar/src/http/response.rs:283-291 | a fresh builder is 200, HTTP/1.1, no headers, empty body |
| HttpResponse.OkBuilder | valar/src/http/response.rs:38-41 | `Response::ok()` is a fresh builder with status 200 |
| HttpResponse.CreatedBuilder | valar/src/http/response.rs:43-46 | `Response::created()` is a fresh builder with status 201 |
| HttpResponse.NoContentBuilder | valar/src/http/response.rs:48-51 | `Response::no_content()` is a fresh builder with status 204 |
| HttpResponse.NotFoundBuilder | valar/src/http/response.rs:53-55 | `Response::not_found()` is a fresh builder with status 404 |
| HttpResponse.LastStatusWins | valar/src/http/response.rs:130-196 | status setters overwrite each other: of two applied in sequence, only the last one is visible |
| HttpResponse.HtmlTextContentType | valar/src/http/response.rs:199-246 | a response built by `html` or `text` reports that Content-Type, a `text` response is not JSON, and a `json_or` response is |
| HttpResponse.JsonOrIsJson | valar/src/http/response.rs:87-89 | a response built with `json_or` satisfies `is_json` even when serialisation failed |
| HttpResponse.Response.IsJson | valar/src/http/response.rs:87-89 | a response without Content-Type is never JSON, and one whose Content-Type is exactly `application/json` always is |
| HttpTypes.HeaderIsImpliesContains | valar/src/http/response.rs:73-85 | a header that equals a value also contains it |
| HttpError.ErrorResponse.WithStatus | valar/src/http/error.rs:31-35 | sets the status, keeps message and headers |
| HttpError.ErrorResponse.WithMessage | valar/src/http/error.rs:37-44 | sets the message, keeps status and headers |
| HttpError.ErrorResponse.WithHeaders | valar/src/http/error.rs:46-50 | sets the custom headers, keeps status and message |
| HttpError.ErrorResponse.Message | valar/src/http/error.rs:54-57 | the message sent is the one set, else "Internal Server Error" |
| HttpError.ErrorResponse.ToJsonResponse | valar/src/http/error.rs:52-71 | the error status, HTTP/1.1, exactly the custom header keys plus Content-Type, Content-Type `application/json` even if a custom header set it, the other custom headers unchanged, and a body that decodes back to the message |
| HttpError.ErrorResponse.ToResponse | valar/src/http/error.rs:73-84 | the error status, exactly the custom headers, and the message as the body |
| HttpError.NewErrorResponse | valar/src/http/error.rs:87-95 | the default error is 500 with neither message nor headers |
| HttpError.JsonErrorIsJson | valar/src/http/error.rs:59-70 | every JSON error response is JSON by `is_json` and by `header_is` |
| HttpError.DefaultErrorRendering | valar/src/http/error.rs:87-95 | the default error reads "Internal Server Error", as plain body and inside the JSON body |
| JsonText.HexDigitValue | valar/src/http/error.rs:8-11 | the digit written for a value below 16 reads back as that value |
| JsonText.EscapeHasNoControl | valar/src/http/error.rs:8-11 | every character of an encoded message is printable |
| JsonText.DecodeEscapeChar | valar/src/http/error.rs:8-11 | decoding the start of an encoded character gives the character back and consumes exactly its encoding |
| JsonText.UnescapeChar | valar/src/http/error.rs:8-11 | decoding an encoded character followed by more text gives the character followed by the rest decoded |
| JsonText.UnescapeEscape | valar/src/http/error.rs:64-69 | decoding an encoded message gives the message back |
| JsonText.MessageBody | valar/src/http/error.rs:64-69 | the JSON body of an error starts with `{"message":"` and is as long as that prefix, the encoded message and the closing `"}` |
| JsonText.ParseMessageBodyRoundTrip | valar/src/http/error.rs:64-69 | reading the JSON error body back gives the message |
| JsonText.MessageBodyInjective | valar/src/http/error.rs:64-69 | different messages give different JSON bodies |
| HttpHeaders.Name | valar/src/http/headers.rs:189-191 | the key a name is stored under is its lower-case form, of the same length |
| HttpHeaders.Get | valar/src/http/headers.rs:189-191 | `get` finds a header under any spelling of its name, and returns all of its values |
| HttpHeaders.LenOf | valar/src/http/headers.rs:109-114 | the number of values of a header, 0 when it is absent |
| HttpHeaders.First | valar/src/http/headers.rs:216-218 | the first value exists exactly when the header has at least one value, and is the first one stored |
| HttpHeaders.Inserted | valar/src/http/headers.rs:238-277 | after `insert` or `insert_many` the header has exactly the given values; every other header is kept |
| HttpHeaders.Appended | valar/src/http/headers.rs:302-352 | after `append` or `append_many` the header has its old values (none if absent) followed by the given ones; every other header is kept |
| HttpHeaders.Removed | valar/src/http/headers.rs:372-378 | after `remove` the header is gone and every other header is kept |
| HttpHeaders.CaseInsensitive | valar/src/http/headers.rs:189-378 | every lookup and update treats a name and its lower-case form alike |
| HttpHeaders.InsertedOne | valar/src/http/headers.rs:238-246 | after `insert`, `len_of` is 1, `first` and `is` see the value, and `len` grows only for a new name |
| HttpHeaders.AppendedCount | valar/src/http/headers.rs:302-352 | `append` adds exactly the appended count to `len_of`, keeps an existing first value first, and grows `len` only for a new name |
| HttpHeaders.RemovedAll | valar/src/http/headers.rs:372-378 | `remove` drops every value, is a no-op on an absent header, and shrinks `len` by one only for a present one |
| HttpHeaders.FirstValuePredicates | valar/src/http/headers.rs:146-171 | `is` and `contains` are false for an absent header, and `is` implies `contains` |
| HttpHeaders.AppendValues | valar/src/http/headers.rs:477-479 | pushing one pair per value adds exactly those values, in order, to that name and changes no other name's values |
| HttpHeaders.AppendAllAt | valar/src/http/headers.rs:488-492 | after `extend`, a name is present iff it was or some pair spells it, and its values are the old ones followed by each pair's value in order |
| HttpHeaders.FromIterIntoIter | valar/src/http/headers.rs:473-519 | rebuilding headers with `from_iter` from the pairs of `into_iter` gives back the same map |
| HttpHeaders.ParsedCookies | valar/src/http/headers.rs:404-408 | values that do not parse are skipped, so there are at most as many cookies as values |
| HttpHeaders.FindCookie | valar/src/http/headers.rs:413-417 | `find` returns a cookie of the list with that name, and nothing exactly when no cookie has it |
| HttpHeaders.FindCookieAppend | valar/src/http/headers.rs:413-417 | after adding a cookie at the end, a search for its name succeeds, and returns it unless an earlier cookie has that name |
| HttpHeaders.RequestCookies | valar/src/http/headers.rs:403-411 | cookies read from the `Cookie` header carry no attributes |
| HttpHeaders.ResponseCookies | valar/src/http/headers.rs:437-445 | cookies read from `Set-Cookie` with the response-cookie parser carry no attributes and no `;` in their value |
| HttpHeaders.ParsedCookiesBare | valar/src/http/headers.rs:404-408 | a parser that yields attribute-free cookies yields a list of attribute-free cookies |
| HttpHeaders.CookiesOfBare | valar/src/http/headers.rs:403-411 | the same for the cookies of a whole header |
| HttpHeaders.ParsedResponseCookies | valar/src/http/headers.rs:437-445 | the response-cookie parser never leaves a `;` in a value |
| HttpHeaders.CookiesOfResponse | valar/src/http/headers.rs:437-445 | no cookie read from `Set-Cookie` with the response parser has a `;` in its value |
| HttpHeaders.RequestCookie | valar/src/http/headers.rs:413-417 | `cookie` on request headers returns an attribute-free cookie with the asked name |
| HttpHeaders.ResponseCookiesAsWritten | valar/src/http/headers.rs:437-445 | `cookies` on response headers reads each `Set-Cookie` value with the request-cookie parser; every cookie it yields is attribute-free |
| HttpHeaders.ResponseCookie | valar/src/http/headers.rs:447-451 | `cookie` on response headers returns an attribute-free cookie with the asked name, taken from the cookies `cookies` yields as written |
| HttpHeaders.ResponseCookieIntended | valar/src/http/headers.rs:447-451 | the same lookup over cookies read with the response-cookie parser: an attribute-free cookie with the asked name and no `;` in its value |
| HttpHeaders.CookiesOfAppended | valar/src/http/headers.rs:302-313 | appending one value to a header adds at most that value's cookie, at the end of the list |
| HttpHeaders.SetRequestCookieReadBack | valar/src/http/headers.rs:424-431 | a request cookie set on the headers is read back last, `has_cookie` holds, and `cookie` returns it unless an earlier one has the same name |
| HttpHeaders.SetResponseCookieReadBack | valar/src/http/headers.rs:458-465 | with the response-cookie parser, a response cookie set on the headers is read back with its name and value, whatever its attributes, `has_cookie` holds, and `cookie` finds it unless an earlier one has the same name |
| HttpHeaders.SetResponseCookieAsWrittenReadBack | valar/src/http/headers.rs:447-465 | as written, a response cookie set with a path is still found by `has_cookie`, but `cookie` returns it with `; Path` glued to its value |
| HttpHeaders.ResponseCookiesAsWrittenGlue | valar/src/http/headers.rs:437-445 | as written, `foo=bar; Path=/` in `Set-Cookie` reads back as cookie `foo` with value `bar; Path` |
| HttpHeaders.Headers.constructor | valar/src/http/headers.rs:32-39 | default headers are empty |
| HttpHeaders.Headers.New | valar/src/http/headers.rs:56-61 | `new` keeps the given map as it is, names not lower-cased |
| HttpHeaders.Headers.Insert | valar/src/http/headers.rs:238-246 | the map becomes the inserted map with the one value |
| HttpHeaders.Headers.InsertMany | valar/src/http/headers.rs:267-277 | the map becomes the inserted map with the given values |
| HttpHeaders.Headers.Append | valar/src/http/headers.rs:302-313 | the map becomes the appended map with the one value |
| HttpHeaders.Headers.AppendMany | valar/src/http/headers.rs:339-352 | the map becomes the appended map with the given values |
| HttpHeaders.Headers.Remove | valar/src/http/headers.rs:372-378 | the map becomes the map without the header |
| HttpHeaders.Headers.Clear | valar/src/http/headers.rs:395-397 | the map becomes empty |
| HttpHeaders.Headers.IntoIter | valar/src/http/headers.rs:473-483 | the pairs hold one pair per stored value, under names of the map, each name's values in stored order |
| HttpHeaders.Headers.Extend | valar/src/http/headers.rs:488-492 | the map becomes the old map with every pair appended in order |
| HttpHeaders.Headers.SetRequestCookie | valar/src/http/headers.rs:424-431 | the cookie's request form is appended to `Cookie` |
| HttpHeaders.Headers.SetResponseCookie | valar/src/http/headers.rs:458-465 | the cookie's response form is appended to `Set-Cookie` |
| HttpHeaders.FromIter | valar/src/http/headers.rs:500-519 | new headers holding the empty map with every pair appended in order |
| HttpCookie.SameSiteName | valar/src/http/cookie.rs:42-56 | SameSite is written as exactly `Strict`, `Lax` or `None`, one name per variant |
| HttpCookie.CookieBuilder.WithName | valar/src/http/cookie.rs:294-301 | replaces the name and keeps every other field |
| HttpCookie.CookieBuilder.WithValue | valar/src/http/cookie.rs:317-324 | replaces the value and keeps every other field |
| HttpCookie.CookieBuilder.WithPath | valar/src/http/cookie.rs:359-366 | replaces the path and keeps every other field |
| HttpCookie.CookieBuilder.WithDomain | valar/src/http/cookie.rs:380-387 | replaces the domain and keeps every other field |
| HttpCookie.CookieBuilder.WithMaxAge | valar/src/http/cookie.rs:403-407 | replaces Max-Age and keeps every other field |
| HttpCookie.CookieBuilder.WithSecure | valar/src/http/cookie.rs:421-425 | replaces the Secure flag and keeps every other field |
| HttpCookie.CookieBuilder.WithHttpOnly | valar/src/http/cookie.rs:439-443 | replaces the HttpOnly flag and keeps every other field |
| HttpCookie.CookieBuilder.WithSameSite | valar/src/http/cookie.rs:463-470 | replaces SameSite and keeps every other field |
| HttpCookie.CookieBuilder.Build | valar/src/http/cookie.rs:338-343 | the cookie carries every field of the builder |
| HttpCookie.NewCookieBuilder | valar/src/http/cookie.rs:84-90 | a new builder has the name and value and no attribute |
| HttpCookie.Attributes | valar/src/http/cookie.rs:558-580 | the attribute text is empty exactly for a cookie without attributes, and otherwise starts with `;` |
| HttpCookie.ResponseCookieString | valar/src/http/cookie.rs:554-584 | the `Set-Cookie` form starts with the `name=value` pair, and is just that pair exactly when no attribute is set |
| HttpCookie.WriteRequestCookie | valar/src/http/cookie.rs:548-552 | writes `name=value` after what was already written |
| HttpCookie.WriteResponseCookie | valar/src/http/cookie.rs:554-584 | writes the pair, then Path, Domain, Max-Age, Secure, HttpOnly and SameSite when set, in that order |
| HttpCookie.WriteAttributes | valar/src/http/cookie.rs:558-580 | writes exactly the attribute text |
| HttpCookie.WriteLocation | valar/src/http/cookie.rs:558-568 | writes the Path, Domain and Max-Age attributes that are set |
| HttpCookie.WriteFlags | valar/src/http/cookie.rs:570-580 | writes the Secure, HttpOnly and SameSite attributes that are set |
| HttpCookie.CookiePair | valar/src/http/cookie.rs:513-518 | the first step of both parsers fails exactly when the text trimmed of Unicode whitespace has no `=`, and the name and value it takes contain no `=` |
| HttpCookie.ParseRequestCookie | valar/src/http/cookie.rs:534-545 | parsing succeeds exactly when the text trimmed of Unicode whitespace has an `=`, and gives a cookie without attributes |
| HttpCookie.ParseResponseCookie | valar/src/http/cookie.rs:512-526 | parsing succeeds exactly when the text trimmed of Unicode whitespace has an `=`, gives a cookie without attributes, and its value stops before the first `;` |
| HttpCookie.RequestCookieRoundTrip | valar/src/http/cookie.rs:534-552 | the `name=value` form of a cookie parses back to its name and value |
| HttpCookie.LeadingWhitespaceIgnored | valar/src/http/cookie.rs:534-545 | any leading Unicode whitespace character, not only an ASCII blank, is trimmed before the pair is read |
| HttpCookie.NoBreakSpaceExample | valar/src/http/cookie.rs:534-545 | a no-break space before `foo=bar` is trimmed, giving the cookie `foo` with value `bar` |
| HttpCookie.ResponseCookieRoundTrip | valar/src/http/cookie.rs:512-584 | the `Set-Cookie` form of a cookie parses back to its name and value; the attributes are dropped |
| HttpCookie.PairThenAttributes | valar/src/http/cookie.rs:512-526 | `name=value` followed by any attribute text (empty, or starting with `;`) parses to that name and value |
| HttpCookie.SimpleCookieExample | valar/src/http/cookie.rs:658-664 | the bare cookie `foo`/`bar` is written `foo=bar` |
| HttpCookie.ComplexCookieExample | valar/src/http/cookie.rs:666-681 | the cookie with every attribute set is written `foo=bar; Path=/; Domain=example.com; Max-Age=3600; Secure; HttpOnly; SameSite=Strict` |
| LegacyCookies.Cookie.Upgraded | valar/src/http/cookies.rs:22-33 | the older cookie carries exactly the fields of the newer one |
| LegacyCookies.NewCookie | valar/src/http/cookies.rs:38-48 | `Cookie::new` sets the name and value and leaves every attribute unset |
| LegacyCookies.SettersReplaceOneField | valar/src/http/cookies.rs:50-108 | each by-value setter replaces its own field with any argument, any `Option` for Max-Age and SameSite, and keeps every other one |
| LegacyCookies.LocationSettersReplaceOneField | valar/src/http/cookies.rs:50-72 | the Path, Domain and Max-Age setters replace only their own field, for any `Option` argument |
| LegacyCookies.FlagSettersReplaceOneField | valar/src/http/cookies.rs:74-90 | the Secure, HttpOnly and SameSite setters replace only their own field, for any flag and any `Option<SameSite>` |
| LegacyCookies.PairSettersReplaceOneField | valar/src/http/cookies.rs:92-108 | the name and value setters replace only their own field |
| LegacyCookies.WriteCookie | valar/src/http/cookies.rs:119-149 | the older `Display` writes exactly the newer `Set-Cookie` form of the same fields |
| LegacyCookies.LegacyCookieExample | valar/src/http/cookies.rs:156-171 | the older cookie with every attribute set is written `foo=bar; Path=/; Domain=example.com; Max-Age=3600; Secure; HttpOnly; SameSite=Strict` |
| HttpRequest.QueryPair | valar/src/http/request.rs:431-437 | a key and value never contain `=`; a piece without `=` is a key with an empty value |
| HttpRequest.QueryPairOfPair | valar/src/http/request.rs:431-437 | `key=value` reads back as that key and value |
| HttpRequest.QueryPairs | valar/src/http/request.rs:430-437 | one pair per `&`-separated piece, so never fewer than one |
| HttpRequest.PairsToMap | valar/src/http/request.rs:438 | the collected map has exactly the keys of the pairs |
| HttpRequest.PairsToMapLastWins | valar/src/http/request.rs:438 | for a repeated key the map keeps the value of its last occurrence |
| HttpRequest.QueryParametersFromAsWritten | valar/src/http/request.rs:424-441 | as written: the map is read from `path_and_query()`, and is empty when there is none |
| HttpRequest.QueryParametersFrom | valar/src/http/request.rs:424-441 | as intended: the map is read from the query string alone, and is empty when the URI has no query |
| HttpRequest.QueryParametersIgnorePath | valar/src/http/request.rs:424-441 | the intended query map does not depend on the path |
| HttpRequest.QueryPairsOfJoin | valar/src/http/request.rs:430-437 | a query written as `k1=v1&k2=v2&...` from `=`- and `&`-free parts reads back as exactly those pairs, in order |
| HttpRequest.QueryAsWrittenAgreesAtRoot | valar/src/http/request.rs:424-441 | at path `/`, with a query not starting with `?` or `/`, the code as written and the intended reading give the same map |
| HttpRequest.SinglePairQuery | valar/src/http/request.rs:430-438 | a one-pair query gives the one-entry map |
| HttpRequest.QueryPathLeakGeneral | valar/src/http/request.rs:424-441 | for path `/p` and query `k=v` the code as written files the value under `p?k`, the intended reading under `k` |
| HttpRequest.QueryPathLeak | valar/src/http/request.rs:424-441 | `/users?id=1` as written has a key `users?id` and no key `id`; intended, it is `{id: 1}` |
| HttpRequest.TwoPairQuery | valar/src/http/request.rs:424-441 | a query `k1=v1&k2=v2` at `/` gives the map of both pairs |
| HttpRequest.QueryDocExample | valar/src/http/request.rs:404-416 | `/?id=1&name=John` gives id 1 and name John, and no other key such as `age` |
| HttpRequest.Request.IsJson | valar/src/http/request.rs:269-271 | a request without Content-Type is never JSON, and one whose Content-Type is exactly `application/json` always is |
| HttpRequest.Request.WantsJson | valar/src/http/request.rs:293-295 | a request without Accept never wants JSON, and one whose Accept is exactly `application/json` always does |
| HttpRequest.Request.MaybeParameter | valar/src/http/request.rs:337-339 | a route parameter is returned exactly when present |
| HttpRequest.Request.RouteParameter | valar/src/http/request.rs:360-366 | the parameter's value when present, else a 500 error whose message names the parameter |
| HttpRequest.Request.Parameter | valar/src/http/request.rs:391-399 | a missing parameter fails with the route-parameter error, a present one is parsed and a parse failure is reported |
| HttpRequest.Request.MaybeQuery | valar/src/http/request.rs:482-484 | a query value is returned exactly when present |
| HttpRequest.Request.QueryParameter | valar/src/http/request.rs:504-510 | the query value when present, else a 500 error whose message names the key |
| HttpRequest.Request.Query | valar/src/http/request.rs:535-543 | a missing key fails with the query-parameter error, a present value is parsed and a parse failure is reported |
| HttpRequest.HeaderPredicates | valar/src/http/request.rs:195-270 | a header equal to a value contains it, and an absent header neither equals nor contains anything |
| HttpRequest.RequestBuilder.WithMethod | valar/src/http/request.rs:591-595 | replaces the method and keeps the rest |
| HttpRequest.RequestBuilder.WithUri | valar/src/http/request.rs:597-601 | replaces the URI and keeps the rest |
| HttpRequest.RequestBuilder.WithUriStr | valar/src/http/request.rs:603-607 | succeeds exactly when the URI parses, and then replaces the URI |
| HttpRequest.RequestBuilder.WithVersion | valar/src/http/request.rs:609-613 | replaces the version and keeps the rest |
| HttpRequest.RequestBuilder.WithHeader | valar/src/http/request.rs:615-619 | inserts or replaces one header and keeps the rest |
| HttpRequest.RequestBuilder.WithHeaders | valar/src/http/request.rs:621-625 | replaces the header map and keeps the rest |
| HttpRequest.RequestBuilder.WithBody | valar/src/http/request.rs:627-634 | replaces the body and keeps the rest |
| HttpRequest.RequestBuilder.WithRouteParameters | valar/src/http/request.rs:636-640 | replaces the route parameters and keeps the rest |
| HttpRequest.RequestBuilder.Build | valar/src/http/request.rs:642-652 | every field is copied and the query map is the one `query_parameters_from` computes as written from `path_and_query()`, empty only when the URI has neither path nor query |
| HttpRequest.RequestBuilder.BuildAsIntended | valar/src/http/request.rs:642-652 | the same request as `build` except that the query map is read from the query string alone, empty when there is none |
| HttpRequest.DefaultBuildQuery | valar/src/http/request.rs:642-652 | a request built from the default builder (URI `/`) carries the single query parameter `""` with an empty value as written, and none as intended |
| HttpRequest.NewRequestBuilder | valar/src/http/request.rs:586-589 | a fresh builder is GET `/` over HTTP/1.1 with no headers, body or route parameters |
| RoutePattern.PathSegments | valar/src/routing/route.rs:228 | trimming `/` and splitting on `/` gives at least one segment, none containing `/` |
| RoutePattern.SegmentPatterns | valar/src/routing/route.rs:228-238 | one pattern piece per template segment |
| RoutePattern.Sources | valar/src/routing/route.rs:230-240 | one regex text per pattern piece |
| RoutePattern.ToRegexString | valar/src/routing/route.rs:227-246 | the pattern string is the path pattern between `^/` and `/?$`, and is `^/$` alone exactly when the path pattern is empty |
| RoutePattern.RegexStringAnchored | valar/src/routing/route.rs:227-246 | every compiled template starts with `^/` and ends with `$` |
| RoutePattern.TemplateSourceAgrees | valar/src/routing/route.rs:227-252 | the text handed to the regex engine is exactly the text of the pattern the template stands for |
| RoutePattern.NewRegex | valar/src/routing/route.rs:250-252 | compiling yields the template's regex or fails with that text; a pattern of plain literals and default classes never fails |
| RoutePattern.RootTemplate | valar/src/routing/route.rs:242-243 | a template that is empty once `/` is trimmed compiles to `^/$`, which matches `/` and nothing else |
| RoutePattern.LiteralSources | valar/src/routing/route.rs:231-237 | a template without `:` segments is copied segment by segment into the pattern |
| RoutePattern.LiteralTemplate | valar/src/routing/route.rs:227-246 | a literal template compiles to `^/` + the trimmed template + `/?$`, with no escaping |
| RoutePattern.SegmentsMatchPath | valar/src/routing/route.rs:244 | a path whose segments satisfy their pieces is matched both with and without a trailing `/` |
| RoutePattern.TrailingSlashOptional | valar/src/routing/route.rs:244 | whatever a segment-wise pattern matches, it also matches with one more `/` |
| RoutePattern.LiteralTemplateMatchesItself | valar/src/routing/route.rs:227-252 | a template of plain literal segments matches its own path, with and without a trailing `/` |
| RoutePattern.LiteralSegmentsMatch | valar/src/routing/route.rs:231-237 | each literal piece matches the segment it was made from |
| RoutePattern.TwoSegmentTemplate | valar/src/routing/route.rs:228 | `/a/b` has the segments `a` and `b` |
| RoutePattern.ParameterTemplate | valar/src/routing/route.rs:227-246 | `/a/:b` compiles to `^/a/<piece>/?$`, the piece being the constraint registered for `b`, else `[a-zA-Z0-9-_]+` |
| RoutePattern.NamedSegment | valar/src/routing/route.rs:231-236 | a `:name` segment becomes the constraint registered for `name`, else the default class |
| RoutePattern.MatchRootPath | valar/src/routing/route.rs:242-245 | `/` is matched by exactly the patterns that accept one empty segment |
| RoutePattern.MatchOnePath | valar/src/routing/route.rs:244 | `/a` is matched by exactly the patterns that accept the one segment `a` |
| RoutePattern.MatchOnePathSlash | valar/src/routing/route.rs:244 | `/a/` is matched by the patterns that accept `a` alone or `a` followed by an empty segment |
| RoutePattern.MatchTwoPath | valar/src/routing/route.rs:244 | `/a/b` is matched by exactly the patterns that accept the segments `a` and `b` |
| RoutePattern.MatchTwoPathSlash | valar/src/routing/route.rs:244 | `/a/b/` is matched by the patterns that accept `a`,`b` or `a`,`b` and an empty segment |
| RoutePattern.DefaultClassSegment | valar/src/routing/route.rs:236 | the default class matches exactly the nonempty segments of letters, digits, `-` and `_` |
| RoutePattern.ParameterPairs | valar/src/routing/route.rs:304-315 | zipping stops at the shorter list, so there are no more pairs than segments on either side (its contents: `RoutePattern.ParameterPairAt`) |
| RoutePattern.AlignedColonAt | valar/src/routing/route.rs:304-309 | each listed index is a template segment starting with `:` that has a path segment beside it |
| RoutePattern.AlignedColonsIncreasing | valar/src/routing/route.rs:304-309 | the aligned `:` indices are listed in strictly increasing order |
| RoutePattern.AlignedColonsComplete | valar/src/routing/route.rs:304-309 | every aligned `:` segment is listed |
| RoutePattern.ParameterPairsCount | valar/src/routing/route.rs:304-315 | there are exactly as many pairs as aligned `:` segments |
| RoutePattern.ParameterPairAt | valar/src/routing/route.rs:304-315 | the `j`-th pair is the `:`-stripped name of the `j`-th aligned `:` segment and the path segment beside it, so nothing is dropped, added or reordered |
| RoutePattern.ParameterPairsNames | valar/src/routing/route.rs:304-315 | a name gets a pair exactly when an aligned template segment is `:name` |
| RoutePattern.ParametersDomain | valar/src/routing/route.rs:303-317 | a route parameter is present exactly when an aligned template segment names it |
| RoutePattern.Parameters | valar/src/routing/route.rs:303-317 | every key of the map is the name of an aligned `:` segment |
| RoutePattern.ParametersValue | valar/src/routing/route.rs:303-317 | a parameter's value is the path segment beside the last aligned `:` segment naming it; a later `:name` overwrites an earlier one |
| RoutePattern.ParametersValueAt | valar/src/routing/route.rs:303-317 | conversely, the last aligned `:` segment naming a parameter puts it in the map with the path segment beside it as its value |
| RoutePattern.SingleNamedSegment | valar/src/routing/route.rs:303-317 | a template with exactly one aligned `:` segment yields exactly that one parameter, bound to the path segment beside it |
| RoutePattern.TwoSegmentParameters | valar/src/routing/route.rs:303-317 | template `/a/:n` against path `/a2/v` gives exactly `{n: v}`, whatever the literal segment of the path |
| RoutePattern.TwoPairs | valar/src/routing/route.rs:304-315 | pairing a literal and a `:n` segment with two path segments names only the second |
| RoutePattern.ParametersExample | valar/src/routing/route.rs:303-317 | `/foo/:bar` against `/foo/asd123` gives exactly `{bar: asd123}` |
| RouteMatcher.RouteRegex | valar/src/routing/matcher.rs:28 | compiling a route again gives the route's own regex, and never fails for a pattern decided segment by segment |
| RouteMatcher.NewMatcherAllOrNothing | valar/src/routing/matcher.rs:22-32 | `new` succeeds iff every route's regex compiles, then keeps one entry per route in route order; otherwise it returns the error of the first route that fails |
| RouteMatcher.FindFirst | valar/src/routing/matcher.rs:36-43 | `find` returns nothing iff no entry matches both path and method, and otherwise the route of the first entry that does |
| RouteMatcher.Find | valar/src/routing/matcher.rs:36-43 | `find` returns nothing exactly when no entry matches both path and method, and otherwise the route of the first entry that does |
| RouteMatcher.MatchesIff | valar/src/routing/matcher.rs:47-49 | `matches` holds iff some entry answers the method on the path |
| RouteMatcher.FirstHitUnique | valar/src/routing/matcher.rs:36-43 | `find` returns the route of the first entry that answers |
| RouteMatcher.AsErrorResponse | valar/src/routing/matcher.rs:61-65 | a structured error is kept as it is; any other error becomes a 500 whose message is its text, with no headers |
| RouteMatcher.ErrorResponseFor | valar/src/routing/matcher.rs:60-71 | the status is the structured error's, else 500; JSON carries the message as `{"message": ...}`, plain text as the body |
| RouteMatcher.NotFound | valar/src/routing/matcher.rs:51-58 | a 404 whose message is the default `Internal Server Error`, as JSON or as plain text with no headers |
| RouteMatcher.BareRendering | valar/src/routing/matcher.rs:51-71 | an error with no message and no headers renders with its status, the default message and only the headers its form needs |
| RouteMatcher.InvalidAcceptIsPlain | valar/src/routing/matcher.rs:73-81 | an Accept header that is not valid header text never asks for JSON, whatever it contains |
| RouteMatcher.WantsJson | valar/src/routing/matcher.rs:73-81 | wanting JSON needs an Accept header that contains `application/json`, and an Accept of exactly `application/json` is enough |
| RouteMatcher.Handle | valar/src/routing/matcher.rs:83-106 | an unmatched request gets a 404 and runs nothing; a matched one that cannot be built gets its rendered error and runs nothing; otherwise the found route's handler runs and its response, or its rendered error, is the answer |
| RouteMatcher.HandleUnmatched | valar/src/routing/matcher.rs:83-93 | a request no route answers gets a 404 and runs no handler |
| RouteMatcher.HandleBadRequest | valar/src/routing/matcher.rs:95-98 | a request that cannot be built is answered with its rendered error, and the route is not run |
| RouteMatcher.HandleMatched | valar/src/routing/matcher.rs:83-106 | the first matching route runs; its response is the answer, or its error rendered as the client prefers |
| RouteMatcher.GetRoutes | valar/src/routing/router.rs:49-62 | one route per template added with `get` |
| RouteMatcher.GetRoutesRegex | valar/src/routing/router.rs:49-62 | the `i`-th route is a GET route on the `i`-th template with the given handler |
| RouteMatcher.RootRoutePattern | valar/src/routing/matcher.rs:161 | the route `/` compiles to the root pattern |
| RouteMatcher.LiteralRoutePattern | valar/src/routing/matcher.rs:162 | the route `/foo` compiles to the one literal segment `foo` |
| RouteMatcher.ParameterRoutePattern | valar/src/routing/matcher.rs:163 | the route `/foo/:bar` compiles to the literal `foo` followed by the default class |
| RouteMatcher.SlashRoutePattern | valar/src/routing/matcher.rs:164 | the route `/foo/bar/` compiles to the literals `foo` and `bar` |
| RouteMatcher.FourRouteRegexes | valar/src/routing/matcher.rs:159-166 | the four routes carry the regexes of their four templates |
| RouteMatcher.FourPatterns | valar/src/routing/matcher.rs:159-166 | the four regexes have the four shapes, each decided segment by segment |
| RouteMatcher.RootPathHits | valar/src/routing/matcher.rs:168 | `/` is matched by the root route only |
| RouteMatcher.OneSegmentHits | valar/src/routing/matcher.rs:169-173 | `/x` is matched only by `/foo`, and only when `x` is `foo` |
| RouteMatcher.OneSegmentSlashHits | valar/src/routing/matcher.rs:174 | `/x/` is matched only by `/foo`, and only when `x` is `foo` |
| RouteMatcher.TwoSegmentHits | valar/src/routing/matcher.rs:170-175 | `/x/y` is matched by `/foo/:bar` when `x` is `foo`, and also by `/foo/bar/` when `y` is `bar` |
| RouteMatcher.TwoSegmentSlashHits | valar/src/routing/matcher.rs:171-176 | `/x/y/` is matched like `/x/y` |
| RouteMatcher.GetMatcherMatches | valar/src/routing/matcher.rs:36-49 | over GET routes, a GET request matches iff some route's regex matches the path |
| RouteMatcher.FourRoutesMatcher | valar/src/routing/matcher.rs:166 | the matcher over the four routes is built, and matches a path iff one of the four regexes does |
| RouteMatcher.FourRoutesExample | valar/src/routing/matcher.rs:158-177 | for any two distinct words in place of `foo` and `bar`, the root, `/foo`, `/foo/bar`, `/foo/bar/` and `/foo/<word>` match and nothing under another first segment does |
| RouteMatcher.MatcherExample | valar/src/routing/matcher.rs:158-177 | the matcher test: `/`, `/foo`, `/foo/bar`, `/foo/bar/` and `/foo/asd123` match, `/bar`, `/bar/`, `/bar/baz` and `/bar/baz/` do not |
| Middleware.Run | valar/src/routing/middleware.rs:19-22 | a middleware is entered first and left last; one that halts answers with its response without calling the next handler |
| Middleware.Reverse | valar/src/routing/middleware.rs:105 | the reversed list has element `i` at position `n-1-i` |
| Middleware.FoldSnoc | valar/src/routing/middleware.rs:103-112 | folding one more middleware puts it around everything folded so far |
| Middleware.WrapEmpty | valar/src/routing/middleware.rs:96-116 | wrapping with no middleware runs the bare handler |
| Middleware.WrapOutermost | valar/src/routing/middleware.rs:96-116 | the first middleware of the list is outermost: it gets the request first, with the rest wrapped inside it |
| Middleware.WrapOnion | valar/src/routing/middleware.rs:96-116 | with no halting middleware, each is entered in list order, the handler runs, each is left in reverse order, and their stamps reach the result innermost first |
| Middleware.RunAround | valar/src/routing/middleware.rs:19-22 | a middleware that does not halt runs around its next handler and passes on (or stamps) its result |
| Middleware.WrapHalt | valar/src/routing/middleware.rs:96-116 | a halting middleware keeps the handler and every middleware inside it from running; those outside still run around it and see its response |
| Middleware.Middlewares.constructor | valar/src/routing/middleware.rs:88-90 | a new list is empty |
| Middleware.Middlewares.Push | valar/src/routing/middleware.rs:92-94 | the middleware goes at the end; earlier entries are untouched |
| Middleware.Middlewares.Extend | valar/src/routing/middleware.rs:58-65 | the middlewares are appended in order at the end |
| Middleware.Concat | valar/src/routing/middleware.rs:76-85 | collecting one list gives that list |
| Middleware.ConcatTwo | valar/src/routing/middleware.rs:76-85 | collecting two lists puts every middleware of the first before those of the second |
| Routing.FromMiddlewares | valar/src/routing/route.rs:55-60 | the config holds the middleware and no parameter constraints |
| Routing.MergeConfigs | valar/src/routing/route.rs:72-87 | the loop computes the merge of the configs |
| Routing.MiddlewareLists | valar/src/routing/route.rs:77-80 | one middleware list per config |
| Routing.ConcatSnoc | valar/src/routing/route.rs:77-80 | collecting one more list appends it at the end |
| Routing.MergedMiddlewares | valar/src/routing/route.rs:72-87 | merging concatenates the middleware lists in iteration order |
| Routing.MergedParameters | valar/src/routing/route.rs:72-87 | a constraint is present after merging iff some config has it, with the value of the last config that has it |
| Routing.MergeTwo | valar/src/routing/route.rs:213-215 | what a group hands a child is the inherited middleware then its own, and its own constraints override inherited ones |
| Routing.Builder.WithMiddleware | valar/src/routing/route.rs:172-184 | the middleware is pushed onto the leaf's, or the group's, own list; nothing else changes |
| Routing.Builder.WhereParameter | valar/src/routing/route.rs:186-199 | the constraint is inserted into the leaf's, or the group's, own map; nothing else changes |
| Routing.GetRoute | valar/src/routing/route.rs:120-137 | a leaf answering GET only, with no constraints and no middleware |
| Routing.AnyRoute | valar/src/routing/route.rs:141-170 | a leaf answering the nine methods, with no constraints and no middleware |
| Routing.GroupRoute | valar/src/routing/route.rs:104-117 | a group of the routes under an empty config |
| Routing.Fallback | valar/src/routing/route.rs:100-102 | `fallback` is `any(".*", not_found_handler)` |
| Routing.NotFoundHandler | valar/src/routing/route.rs:89-97 | every request is answered `Ok` with a 404 whose body names its method and URI, and nothing is traced |
| Routing.FallbackAnswers | valar/src/routing/route.rs:89-97 | the fallback answers every request with a 404 whose message names its method and URI |
| Routing.NewRoute | valar/src/routing/router.rs:55-59 | a route with the given path, method and handler |
| Routing.LeafRoutes | valar/src/routing/route.rs:262-271 | one route per method of the leaf |
| Routing.CompileData | valar/src/routing/route.rs:254-274 | `Data::compile` computes the leaf's compiled routes, or the regex error |
| Routing.PushRoutes | valar/src/routing/route.rs:262-271 | the loop pushes one route per method, in method order, all sharing regex, path and handler |
| Routing.Compile | valar/src/routing/route.rs:201-206 | `Builder::compile` compiles a leaf or a group |
| Routing.CompileGroup | valar/src/routing/route.rs:210-221 | the loop compiles each child under the merged config, in order, returning the first error |
| Routing.CompiledChildrenAbort | valar/src/routing/route.rs:213-218 | once a child fails, compiling more children returns that same error |
| Routing.LeafCompilation | valar/src/routing/route.rs:254-274 | a leaf emits one route per method, in order, each with the leaf's path, its own template regex and the handler wrapped in inherited then own middleware |
| Routing.RegexIgnoresInherited | valar/src/routing/route.rs:250-259 | whether a leaf compiles, and to which regex, does not depend on the inherited config |
| Routing.GroupCompilation | valar/src/routing/route.rs:210-221 | a group emits its children's routes in child order, each compiled under the merged config |
| Routing.SingletonGroup | valar/src/routing/route.rs:210-221 | an empty group compiles to no routes; a group of one child to that child's routes under the merged config |
| Routing.GetCompilesToOne | valar/src/routing/route.rs:120-137 | `get` compiles to exactly one GET route on its path |
| Routing.AnyCompilesToNine | valar/src/routing/route.rs:141-170 | `any` compiles to nine routes, one per method, in the listed order |
| HttpRouter.Router.constructor | valar/src/routing/router.rs:21-28 | the router holds the given routes in order |
| HttpRouter.Router.Default | valar/src/routing/router.rs:88-93 | a default router has no routes |
| HttpRouter.Router.AddRoute | valar/src/routing/router.rs:36-38 | the route goes at the end; earlier routes are untouched |
| HttpRouter.Router.HasRoute | valar/src/routing/router.rs:42-46 | true iff some route has that method and exactly that path |
| HttpRouter.Router.Get | valar/src/routing/router.rs:49-62 | one GET route for the path is added at the end, after which `has_route` holds for it |
| HttpRouter.Router.Through | valar/src/routing/router.rs:64-71 | the callback runs once on the router, which is returned |
| HttpRouter.Router.IntoIter | valar/src/routing/router.rs:83-85 | the routes, front to back |
| HttpRouter.Router.IntoMatcher | valar/src/routing/router.rs:74-76 | a matcher exists iff every route's regex compiles, and then holds the routes in order |
| HttpRouter.GetRegisters | valar/src/routing/router.rs:49-62 | after `get`, `has_route` holds for the new path and for every route already there |
| HttpRouter.GetRoutesSnoc | valar/src/routing/router.rs:49-62 | one `get` more is one route more, at the end |
| HttpRouter.TestRouter | valar/src/routing/matcher.rs:159-164 | a default router given a GET route per template holds exactly those routes in order, and iterates them in that order |
| HttpRouter.TestMatcher | valar/src/routing/matcher.rs:159-166 | the test router turned into a matcher is the matcher over the four routes |
| SqlParameters.Parameters.constructor | valar/src/database/builder/parameters.rs:9-11 | a new parameter list is empty |
| SqlParameters.Parameters.Add | valar/src/database/builder/parameters.rs:13-17 | the value goes at the end and its 1-based position, the new count, is returned |
| SqlParameters.Parameters.IntoVec | valar/src/database/builder/parameters.rs:20-24 | the vector holds the values in the order they were added |
| SqlParameters.AddAll | valar/src/database/builder/parameters.rs:13-17 | successive `add`s answer consecutive positions after the values already there, and keep the values in order |
| PendingQueries.PendingQuery.ParametersFrom | valar/src/database/query.rs:22-29 | the parameter list is replaced wholesale; the statement is kept |
| PendingQueries.PendingQuery.Parameters | valar/src/database/query.rs:32-39 | the parameter list becomes the array's values in order; the statement is kept |
| PendingQueries.PendingQuery.With | valar/src/database/query.rs:42-46 | exactly one parameter more, at the end; earlier parameters keep their positions |
| PendingQueries.PendingQuery.ToString | valar/src/database/query.rs:55-59 | the statement, unchanged |
| PendingQueries.PendingQuery.ExecutorParameters | valar/src/database/query.rs:49-53 | the statement and the parameters, unchanged |
| PendingQueries.NewQuery | valar/src/database/query.rs:11-19 | a new query has the statement and no parameters |
| PendingQueries.WithAllAppends | valar/src/database/query.rs:42-46 | chaining `with` is the same as replacing the list with the old list extended by the values |
| PendingQueries.NewWithAll | valar/src/database/query.rs:11-53 | a new query given its values by `with` executes with the statement and exactly those values |
| SqlWheres.Range | valar/src/database/builder/wheres.rs:49-54 | `count` consecutive positions starting at `first` |
| SqlWheres.Placeholders | valar/src/database/builder/wheres.rs:50-53 | the placeholders `$first`, `$first+1`, ... one per value |
| SqlWheres.RenderAppend | valar/src/database/builder/wheres.rs:22-87 | the text of two piece lists side by side is the two texts concatenated |
| SqlWheres.SlotsAppend | valar/src/database/builder/wheres.rs:22-87 | the placeholders of two piece lists side by side are the two lists' placeholders in order |
| SqlWheres.SlotListSpells | valar/src/database/builder/wheres.rs:50-54 | the IN list spells the placeholders joined by `, `, and its positions are consecutive |
| SqlWheres.ComparisonSlots | valar/src/database/builder/wheres.rs:25-48 | a comparison writes one placeholder, the next position |
| SqlWheres.ListSlots | valar/src/database/builder/wheres.rs:49-66 | IN and NOT IN write consecutive placeholders, one per value |
| SqlWheres.RangeSlots | valar/src/database/builder/wheres.rs:67-78 | BETWEEN and NOT BETWEEN write the next two positions, min first |
| SqlWheres.OperationSlots | valar/src/database/builder/wheres.rs:22-87 | every operation's placeholders are exactly the next positions after the values already bound, one per value it binds, in order |
| SqlWheres.OperationArity | valar/src/database/builder/wheres.rs:5-20 | a comparison binds its value, IN and NOT IN their list, BETWEEN and NOT BETWEEN min then max, and the null checks nothing |
| SqlWheres.OperationSql | valar/src/database/builder/wheres.rs:22-87 | the operation's values are pushed in order, and the text is its pieces placed after the values already bound |
| SqlWheres.ComparisonSql | valar/src/database/builder/wheres.rs:25-48 | one value pushed, and the text `column OP $n` with `n` the new count |
| SqlWheres.ComparisonText | valar/src/database/builder/wheres.rs:25-48 | a comparison reads `column OP $n` |
| SqlWheres.ListSql | valar/src/database/builder/wheres.rs:49-66 | each value pushed in order, and the text `column IN (...)` or `NOT IN (...)` over their placeholders |
| SqlWheres.InPositions | valar/src/database/builder/wheres.rs:50-53 | each value pushed in order, each written as the placeholder of its new position |
| SqlWheres.RangeSql | valar/src/database/builder/wheres.rs:67-78 | min then max pushed, the text naming both positions |
| SqlWheres.RangeText | valar/src/database/builder/wheres.rs:67-78 | a range reads `column BETWEEN $n AND $n+1` (or `NOT BETWEEN`) |
| SqlWheres.Where.IntoNop | valar/src/database/builder/wheres.rs:96-102 | the operation is kept and the connector dropped |
| SqlWheres.IntoNopIdempotent | valar/src/database/builder/wheres.rs:96-102 | dropping the connector twice is dropping it once, and a Nop is left as it is |
| SqlWheres.WhereSpelled | valar/src/database/builder/wheres.rs:105-113 | a condition is written `AND (op)`, `OR (op)` or `(op)` |
| SqlWheres.WhereSlots | valar/src/database/builder/wheres.rs:105-113 | a condition's placeholders are its operation's; the connector adds none |
| SqlWheres.WhereSql | valar/src/database/builder/wheres.rs:105-113 | the operation's values are pushed and the text is the condition's pieces after the values already bound |
| SqlSelect.PieceLists | valar/src/database/builder/selects.rs:49-53 | one piece list per condition |
| SqlSelect.Renders | valar/src/database/builder/selects.rs:49-53 | one text per piece list, each the text of its list |
| SqlSelect.SpacedSpelled | valar/src/database/builder/selects.rs:54 | the conditions side by side with spaces spell their texts joined by a space |
| SqlSelect.SpacedSlots | valar/src/database/builder/selects.rs:54 | the spaces between conditions add no placeholder |
| SqlSelect.SlotsOfSnoc | valar/src/database/builder/selects.rs:49-53 | one condition more adds its placeholders at the end |
| SqlSelect.RendersSnoc | valar/src/database/builder/selects.rs:49-53 | one condition more adds its text at the end |
| SqlSelect.WheresSlots | valar/src/database/builder/selects.rs:43-57 | the placeholders of all conditions are `$1` to `$k`, in order, `k` being the number of values they bind |
| SqlSelect.WithWhereSpelled | valar/src/database/builder/selects.rs:46-57 | the statement pieces spell the head, then ` WHERE (` + the conditions + `)` when there are conditions, and hold exactly the conditions' placeholders |
| SqlSelect.PlaceholderNumbering | valar/src/database/builder/selects.rs:41-60 | the statement's placeholders are exactly `$1`, ..., `$k` in the order they are written, `k` being the number of values bound |
| SqlSelect.WheresValuesPrefix | valar/src/database/builder/selects.rs:49-53 | the values of the first conditions are a prefix of the values of all |
| SqlSelect.ConditionBinding | valar/src/database/builder/selects.rs:41-60 | the parameter at condition `i`'s `j`-th placeholder is that condition's `j`-th value |
| SqlSelect.Stored | valar/src/database/builder/selects.rs:17-23 | the first condition is stored without its connector, later ones as given |
| SqlSelect.SelectQueryBuilder.constructor | valar/src/database/builder/selects.rs:28-38 | the table and the columns in order, no conditions |
| SqlSelect.SelectQueryBuilder.AddWhere | valar/src/database/builder/selects.rs:17-23 | one condition more, at the end, the first without a connector; table and columns kept |
| SqlSelect.SelectQueryBuilder.AndWhere | valar/src/database/builder/wheres.rs:118-126 | each `where_*` adder adds one And condition holding its operation |
| SqlSelect.SelectQueryBuilder.OrWhere | valar/src/database/builder/wheres.rs:128-136 | each `or_where_*` adder adds one Or condition holding its operation |
| SqlSelect.SelectQueryBuilder.Assemble | valar/src/database/builder/selects.rs:43-57 | the statement is the SELECT over the columns and table with the conditions, and the values are those the conditions bind, in order |
| SqlSelect.SelectQueryBuilder.ToPendingQuery | valar/src/database/builder/selects.rs:41-60 | the pending query has that statement and exactly the bound values as parameters |
| SqlSelect.SelectQueryBuilder.ExecutorParameters | valar/src/database/builder/selects.rs:63-82 | the same statement and values as `to_pending_query` |
| SqlBuilder.QueryBuilder.Select | valar/src/database/builder.rs:25-32 | a builder over the table selecting the columns in order, with no conditions |
| SqlBuilder.QueryBuilder.SelectAll | valar/src/database/builder.rs:34-37 | a builder over the table selecting `*`, with no conditions |
| SqlBuilder.Table | valar/src/database/builder.rs:16-23 | the table name is kept unchanged |
| SqlBuilder.ComparisonRendered | valar/src/database/builder/wheres.rs:105-113 | a comparison condition is written as its opening, `column OP $n` and `)` |
| SqlBuilder.OneConditionText | valar/src/database/builder/selects.rs:101-110 | one equality is written without a connector, binds `$1`, and binds its value |
| SqlBuilder.TwoConditionsText | valar/src/database/builder/selects.rs:112-125 | a second equality is written with `AND` and binds `$2`, the values bound in order |
| SqlBuilder.ThreeConditionsText | valar/src/database/builder/selects.rs:127-141 | an equality, an inequality and a range number `$1` to `$4` across them, the first without a connector, the values bound in order |
| SqlBuilder.WhereSelectStatement | valar/src/database/builder/selects.rs:101-110 | the first test's statement and its one value |
| SqlBuilder.WhereSelect2Statement | valar/src/database/builder/selects.rs:112-125 | the second test's statement and its two values |
| SqlBuilder.WhereSelect3Statement | valar/src/database/builder/selects.rs:127-141 | the third test's statement and its four values |
| SqlBuilder.SimpleSelect | valar/src/database/builder/selects.rs:91-99 | `SELECT id FROM users` with no parameters |
| SqlBuilder.WhereSelect | valar/src/database/builder/selects.rs:101-110 | `SELECT id FROM users WHERE ((name = $1))` bound to `Erik` |
| SqlBuilder.WhereSelect2 | valar/src/database/builder/selects.rs:112-125 | `SELECT id FROM users WHERE ((name = $1) AND (email = $2))` bound to `Erik`, `soc@erik.cat` |
| SqlBuilder.WhereSelect3 | valar/src/database/builder/selects.rs:127-141 | `... WHERE ((name = $1) AND (email != $2) AND (age BETWEEN $3 AND $4))` bound to the four values in order |
| Utils.TruncateToFit | valar/src/utils.rs:5-31 | a text that fits is returned unchanged; a longer one becomes exactly `width` characters: its first `width - 3` followed by `...` |
| Utils.TruncateIdempotent | valar/src/utils.rs:5-31 | truncating a truncated text changes nothing |
| Utils.TruncateKeepsPrefix | valar/src/utils.rs:11 | the characters before the ellipsis are the text's own |
| Utils.TruncateExamples | valar/src/utils.rs:37-50 | `/foo/bar/baz` fits 100 unchanged and becomes `/foo/ba...` at 10 |
| CacheStore.Forget | valar/src/services/cache/memory.rs:76-81 | the key is gone from both maps and every other key keeps its entry and its deadline |
| CacheStore.Store | valar/src/services/cache/memory.rs:87-92 | the key maps to the text, every other key keeps its text, and the deadlines are untouched |
| CacheStore.Delete | valar/src/services/cache/memory.rs:94-100 | the key is gone from the entries, the others keep their text, and the deadlines are untouched |
| CacheStore.Clear | valar/src/services/cache/memory.rs:102-108 | no entry is left and the deadlines are untouched |
| CacheStore.Purged | valar/src/services/cache/memory.rs:40-53 | an entry or deadline survives exactly when its deadline is not before `now`, with its own text and deadline |
| CacheStore.PurgeIdempotent | valar/src/services/cache/memory.rs:40-53 | after a purge no key is expired at that instant, and purging again changes nothing |
| ServiceCache.Value.ExpiresAt | valar/src/services/cache.rs:66-70 | the same text with the given deadline |
| ServiceCache.Value.ExpiresIn | valar/src/services/cache.rs:60-64 | the deadline is `duration` after `now`, later than `now` unless the duration is zero |
| ServiceCache.NewValue | valar/src/services/cache.rs:42-48 | the text with no deadline |
| ServiceCache.ValueRoundTrip | valar/src/services/cache.rs:50-77 | reading or converting a value gives back the text it was made from, whatever deadline was set |
| ServiceCache.Fetch | valar/src/services/cache/memory.rs:66-85 | found exactly when the key is stored and not expired, with its text and the memory unchanged; `NotFound` for an absent key; `Expired` for an expired one, which is then forgotten |
| ServiceCache.PutIgnoresExpiry | valar/src/services/cache/memory.rs:87-92 | inserting stores only the text: the value's deadline is dropped and the deadlines are unchanged |
| ServiceCache.ExpiredThenNotFound | valar/src/services/cache/memory.rs:76-81 | an expired key reads `Expired` once and `NotFound` afterwards |
| ServiceCache.PutThenFetch | valar/src/services/cache/memory.rs:66-92 | reading back an insertion gives its text, unless an old deadline for the key has passed, in which case it reads `Expired` |
| ServiceCache.NeverExpires | valar/src/services/cache/memory.rs:19-108 | from an empty deadline map, no sequence of gets, inserts, deletes, clears and purges ever writes a deadline, so no read ever reports `Expired` |
| ServiceCache.MemoryCache.constructor | valar/src/services/cache/memory.rs:25-31 | an empty cache with no deadlines |
| ServiceCache.MemoryCache.Get | valar/src/services/cache/memory.rs:66-85 | the result and the new memory are those of `Fetch` |
| ServiceCache.MemoryCache.Insert | valar/src/services/cache/memory.rs:87-92 | succeeds, and the new memory stores the text only |
| ServiceCache.MemoryCache.Delete | valar/src/services/cache/memory.rs:94-100 | succeeds, removes the entry and keeps its deadline |
| ServiceCache.MemoryCache.Clear | valar/src/services/cache/memory.rs:102-108 | succeeds, removes every entry and keeps the deadlines |
| ServiceCache.MemoryCache.PurgeStep | valar/src/services/cache/memory.rs:38-56 | one tick of the purge loop: the memory becomes its purge at `now` |
| DriverMemory.Decoded | valar/src/drivers/cache/memory.rs:88 | the decoder's value, or its failure wrapped as `Deserialize` |
| DriverMemory.Fetch | valar/src/drivers/cache/memory.rs:64-89 | `NotFound` exactly when the key is absent or past its deadline, the expired key being forgotten; otherwise the decoded text with the memory unchanged |
| DriverMemory.Put | valar/src/drivers/cache/memory.rs:91-102 | an encoding failure is reported as `Serialize` with nothing stored; otherwise the encoded text is stored |
| DriverMemory.PutExpirable | valar/src/drivers/cache/memory.rs:104-121 | the outcome of `insert`; on success the key's deadline is `duration` after `now` and nothing else of the deadlines changes |
| DriverMemory.InsertThenGet | valar/src/drivers/cache/memory.rs:64-102 | an insertion reads back decoded, unless an old deadline has passed, in which case the fresh value is removed and reported missing |
| DriverMemory.InsertExpirableThenGet | valar/src/drivers/cache/memory.rs:64-121 | an expirable insertion reads back unchanged up to its deadline and is missing and removed after it |
| DriverMemory.DeadlineOutlivesDelete | valar/src/drivers/cache/memory.rs:104-127 | a key with a lifetime that is deleted and inserted again without one is still missing after the old deadline |
| DriverMemory.PurgeThenGet | valar/src/drivers/cache/memory.rs:38-89 | after a purge every key expired at that instant reads as missing, removing nothing more |
| DriverMemory.MemoryCache.WithPurgeInterval | valar/src/drivers/cache/memory.rs:23-29 | an empty cache with no deadlines |
| DriverMemory.MemoryCache.Get | valar/src/drivers/cache/memory.rs:64-89 | the result and the new memory are those of `Fetch` |
| DriverMemory.MemoryCache.Insert | valar/src/drivers/cache/memory.rs:91-102 | the result and the new memory are those of `Put` |
| DriverMemory.MemoryCache.InsertExpirable | valar/src/drivers/cache/memory.rs:104-121 | the result and the new memory are those of `PutExpirable` |
| DriverMemory.MemoryCache.Delete | valar/src/drivers/cache/memory.rs:123-127 | removes the entry and keeps its deadline |
| DriverMemory.MemoryCache.Clear | valar/src/drivers/cache/memory.rs:129-133 | removes every entry and keeps the deadlines |
| DriverMemory.MemoryCache.PurgeStep | valar/src/drivers/cache/memory.rs:36-54 | one tick of the purge loop: the memory becomes its purge at `now` |
| DriverCache.Recover | valar/src/drivers/cache.rs:40-44 | a value is kept, `NotFound` becomes the fallback, any other error is kept |
| DriverCache.GetOr | valar/src/drivers/cache.rs:34-45 | the default when the key is missing, the decoded text otherwise, with the memory of `get` |
| DriverCache.GetOrElse | valar/src/drivers/cache.rs:47-59 | the callback's value when the key is missing, the decoded text otherwise, with the memory of `get` |
| DriverCache.GetOrElseCallbackOnlyWhenMissing | valar/src/drivers/cache.rs:47-59 | the callback matters only when the key is missing, and `get_or_else` is `get_or` with the callback's value |
| DriverCache.GetOrDefault | valar/src/drivers/cache.rs:61-73 | `get_or` with the type's default |
| DriverCache.HasAsWritten | valar/src/drivers/cache.rs:30-32 | as written, true exactly when the key is present and its text decodes as the unit value, i.e. is `null` |
| DriverCache.HasAsWrittenMissesNumbers | valar/src/drivers/cache.rs:30-32 | a stored `42` is present, yet `has` as written answers false |
| DriverCache.Has | valar/src/drivers/cache.rs:30-32 | true exactly when the key is present and not expired, with the memory of `get` |
| DriverCache.HasAgreesWithFetch | valar/src/drivers/cache.rs:30-32 | `has` is true exactly when `get` at any type does not report `NotFound`, and leaves the same memory |
| DriverCache.WriteBack | valar/src/drivers/cache.rs:100-105 | a failed read is passed on with its memory; a value is transformed and inserted |
| DriverCache.Map | valar/src/drivers/cache.rs:92-106 | `NotFound` for a missing key, `Deserialize` with nothing changed for a bad text, otherwise the callback's result inserted under the key |
| DriverCache.MapOr | valar/src/drivers/cache.rs:108-122 | a missing key has the callback applied to the default and inserted; a present one behaves as `map` |
| DriverCache.MapOrElse | valar/src/drivers/cache.rs:124-144 | `map_or` with the default computed by the callback |
| DriverCache.MapOrDefault | valar/src/drivers/cache.rs:146-161 | `map_or` with the type's default |
| DriverCache.MapOrThenGet | valar/src/drivers/cache.rs:108-122 | after a successful `map_or` the key is stored and reads back decoded, unless it was absent with a passed deadline left behind |
| LegacyRequest.Request.MaybeParameter | src/http/request.rs:77-79 | present exactly when the name is a route parameter, with its value |
| LegacyRequest.Request.Parameter | src/http/request.rs:83-89 | the parameter's value, or a 500 error without headers whose message names the missing parameter |
| LegacyRequest.ExactImpliesContains | src/http/request.rs:91-105 | a request that is JSON (or wants it) by the exact comparison also contains `application/json` in that header |
| LegacyRequest.Request.IsJson | src/http/request.rs:92-97 | a JSON request has a Content-Type, and it contains `application/json` |
| LegacyRequest.Request.WantsJson | src/http/request.rs:100-105 | a request that wants JSON has an Accept header, and it contains `application/json` |
| LegacyRequest.ParameterizedMediaType | src/http/request.rs:91-97 | a Content-Type with anything after `application/json` contains the media type yet is not JSON here |
| LegacyResponse.ResponseBuilder.Status | src/http/response.rs:92-96 | the status is replaced and nothing else changes |
| LegacyResponse.ResponseBuilder.Header | src/http/response.rs:99-103 | the key maps to the value, every other header is kept, and status, version and body are unchanged |
| LegacyResponse.ResponseBuilder.Headers | src/http/response.rs:106-110 | the header map is replaced whole, the rest unchanged |
| LegacyResponse.ResponseBuilder.Body | src/http/response.rs:113-117 | the body is replaced, the rest unchanged |
| LegacyResponse.ResponseBuilder.Ok | src/http/response.rs:119-121 | status 200, nothing else changed |
| LegacyResponse.ResponseBuilder.Created | src/http/response.rs:123-125 | status 201, nothing else changed |
| LegacyResponse.ResponseBuilder.NoContent | src/http/response.rs:127-129 | status 204, nothing else changed |
| LegacyResponse.ResponseBuilder.Unauthorized | src/http/response.rs:131-137 | status 401 with the challenges under `WWW-Authenticate`, version and body unchanged |
| LegacyResponse.ResponseBuilder.NotFound | src/http/response.rs:139-143 | status 404, nothing else changed |
| LegacyResponse.ResponseBuilder.MethodNotAllowed | src/http/response.rs:145-149 | status 405, nothing else changed |
| LegacyResponse.ResponseBuilder.InternalServerError | src/http/response.rs:151-155 | status 500, nothing else changed |
| LegacyResponse.ResponseBuilder.Html | src/http/response.rs:158-164 | Content-Type `text/html` and the given body, status and version unchanged |
| LegacyResponse.ResponseBuilder.Text | src/http/response.rs:167-173 | Content-Type `text/plain` and the given body, status and version unchanged |
| LegacyResponse.ResponseBuilder.Json | src/http/response.rs:176-183 | fails exactly when serialisation fails, with its error; otherwise Content-Type `application/json` and the serialised body |
| LegacyResponse.ResponseBuilder.JsonOr | src/http/response.rs:185-192 | Content-Type `application/json`; the serialised body, or the default when serialisation fails |
| LegacyResponse.ResponseBuilder.JsonOrElse | src/http/response.rs:194-205 | Content-Type `application/json`; the serialised body, or the fallback computed from the error |
| LegacyResponse.ResponseBuilder.Build | src/http/response.rs:208-215 | the response carries status, version, headers and body unchanged |
| LegacyResponse.ResponseBuilder.Produce | src/http/response.rs:218-220 | never fails, and yields the built response |
| LegacyResponse.NewBuilder | src/http/response.rs:230-239 | status 200, HTTP/1.1, no headers, an empty body |
| LegacyResponse.ShortcutBuilder | src/http/response.rs:37-55 | a fresh builder with the given status |
| LegacyResponse.Shortcuts | src/http/response.rs:37-55 | `Response::ok()` and its siblings are the builder helpers applied to a fresh builder |
| LegacyResponse.LastSettingWins | src/http/response.rs:92-173 | of several status helpers the last wins; `html` and `text` replace each other |
| LegacyResponse.UnauthorizedSplits | src/http/response.rs:131-137 | `unauthorized` is the header then status 401, in either order |
| LegacyRouting.SegmentSources | src/routing/route.rs:42-45 | one pattern piece per template segment, the default class for each `:` segment |
| LegacyRouting.SameAsUnconstrained | src/routing/route.rs:37-53 | a template compiles to the pattern the newer compiler gives it with no constraints |
| LegacyRouting.ToRegexString | src/routing/route.rs:37-53 | the pattern string is anchored: it starts with `^/` and ends with `$` |
| LegacyRouting.ToRegexStringShape | src/routing/route.rs:37-53 | an empty template gives `^/$`; any other `^/`, its segments joined by `/` with `:` segments as the default class, and `/?$` |
| LegacyRouting.ParameterTemplateLegacy | src/routing/route.rs:37-53 | `/a/:b` compiles to `^/a/[a-zA-Z0-9-_]+/?$` whatever the parameter's name |
| LegacyRouting.ToRegex | src/routing/route.rs:56-58 | the engine's regex of that pattern string, or its refusal naming the pattern |
| LegacyRouting.Parameters | src/routing/route.rs:61-74 | a name is present exactly when some aligned template segment starting with `:` names it, and its value is the path segment beside the last such segment |
| LegacyRouting.ToRequest | src/routing/route.rs:76-94 | method, URI and version copied, parameters from the path, no headers and an empty body, so never JSON |
| LegacyMatcher.CollectAllOrNothing | src/routing/matcher.rs:12-19 | collecting succeeds exactly when every route compiles, keeping one entry per route in order, and otherwise returns the first route's error |
| LegacyMatcher.NewMatcherAllOrNothing | src/routing/matcher.rs:12-19 | `new` succeeds exactly when every route's regex compiles, with one entry per route in order, else the first failing route's error |
| LegacyMatcher.FindFirst | src/routing/matcher.rs:22-27 | nothing is found exactly when no entry answers; otherwise the route of the first that does |
| LegacyMatcher.Find | src/routing/matcher.rs:22-27 | `find` returns nothing exactly when no entry answers, and otherwise the route of the first entry that does |
| LegacyMatcher.MatchesIff | src/routing/matcher.rs:30-32 | matches exactly when some entry answers the method on the path |
| LegacyMatcher.TryFrom | src/routing/matcher.rs:35-41 | built exactly when every route compiles, then with the router's routes in order |
| LegacyMatcher.RegexAgrees | src/routing/matcher.rs:12-19 | a route and its newer counterpart compile alike, to the same regex |
| LegacyMatcher.GenerationsAgree | src/routing/matcher.rs:12-32 | over corresponding routes both generations of matcher are built or not together and match the same requests |
| LegacyMatcher.GetRoutes | src/routing/router.rs:40-51 | one GET route per template, in order |
| LegacyMatcher.GetRoutesCorrespond | src/routing/router.rs:40-51 | the same templates registered with `get` in either generation give corresponding routes |
| LegacyMatcher.MatcherExample | src/routing/matcher.rs:57-77 | the matcher is built, and `/`, `/foo`, `/foo/bar`, `/foo/bar/` and `/foo/asd123` match while `/bar`, `/bar/`, `/bar/baz` and `/bar/baz/` do not |
| LegacyMatcher.ParameterRouteRegex | src/routing/route.rs:37-58 | the regex of `/foo/:bar` compiles to a literal segment and a default-class segment |
| LegacyMatcher.ParameterPathMatches | src/routing/route.rs:37-53 | `/foo/<v>` is matched by that regex |
| LegacyMatcher.OneParameterRoute | src/routing/route.rs:111-130 | with the single route `/foo/:bar`, `GET /foo/<v>` matches, `find` returns the route, and its parameters are exactly `{bar: v}` |
| LegacyMatcher.ParameterExample | src/routing/route.rs:111-130 | `/foo/asd123` matches, `find` returns the route, and the parameters are exactly `{bar: asd123}` |
| LegacyRouter.Router.constructor | src/routing/router.rs:18-20 | the given routes in the given order |
| LegacyRouter.Router.Default | src/routing/router.rs:66-71 | no routes |
| LegacyRouter.Router.AddRoute | src/routing/router.rs:28-30 | the route goes at the end and earlier routes are untouched |
| LegacyRouter.Router.HasRoute | src/routing/router.rs:33-37 | true exactly when some route has that method and exactly that path |
| LegacyRouter.Router.Get | src/routing/router.rs:40-51 | one GET route for the path added at the end, after which `has_route(path, GET)` holds |
| LegacyRouter.Router.IntoMatcher | src/routing/router.rs:61-63 | a matcher over the routes in order exactly when every route compiles |
| LegacyRouter.AddKeepsRegistered | src/routing/router.rs:28-37 | adding a route keeps every earlier registration and registers the new one |
| LegacyRouter.GetAll | src/routing/router.rs:40-51 | registering templates one by one with `get` yields exactly their GET routes in order, each registered |
| LegacyRouter.MatcherTest | src/routing/matcher.rs:59-66 | the matcher test's router becomes the matcher of its four GET routes |
| LegacyRouter.ParameterTest | src/routing/route.rs:113-117 | the parameter test's router becomes the matcher of the single route `/foo/:bar` |

## Left out

- Regex engine: not modelled. `Regex::new` acceptance and the meaning of custom constraint fragments (or literal segments holding metacharacters) are the `Engine` parameter's.
- Middleware.Mw: middleware implementations are user code, and the model does not take them as parameters. Three fixed shapes stand for them: `Pass`, `Stamp` (add one response header) and `Halt` (answer without calling `next`). So the model cannot express a middleware that rewrites the request, returns `Err` itself, calls `next` only under some condition, or calls it more than once. `WrapOnion` and `WrapHalt` are stated for these three shapes only.
- Route handlers: they are opaque functions from request to outcome. `Route::handle` is not a member of its own: the matcher applies the wrapped handler and renders its error itself, as described above, because the error renderer `Route::handle` names does not exist.
- Request construction inside the route: the 2 MiB body cap and the rest exist only as commented-out code in `valar/src/routing/route.rs`.
- Async runtime: `tokio::spawn`, the interval timer and the `State` mutex are not modelled. Each purge tick is one `PurgeStep(now)` call made by the caller, and operations are atomic.
- Clock: `Instant::now()` becomes a `now` parameter. Instants are unbounded integers, so `Instant` overflow is not modelled.
- serde / serde_json: every decoder and encoder is a parameter. The error body is the one JSON document the model writes itself. The `Value<T>` phantom type parameter carries no data and is dropped.
- Utils.TruncateToFit: lengths are counted in characters, not UTF-8 bytes as Rust's `len` and `truncate` do. A width below 3 that needs a cut makes Rust's `width - 3` underflow; the model requires `3 <= width` there.
- hyper `Body`: bodies are text. `into_base_response` and the conversion of `Headers` into a hyper `HeaderMap` are not modelled.
- Legacy request `json`, and the `FromStr` of the older cookie type: both are `todo!()` in the code and have no behaviour to model.
- Legacy `Router::routes()` and the `application()`/`context()` accessors: plain field reads.
- `Headers::get_mut`, `Headers::iter`, the fake request and response test helpers, and the session, cookie and logger middleware are not part of this model.
- Header names: lower-casing is ASCII only. Unicode `to_lowercase` is not modelled.
- The 28 `where_*` / `or_where_*` adders of `valar/src/database/builder/wheres.rs`: each only builds one operation and calls `add_where`, so they are modelled once, by `SqlSelect.SelectQueryBuilder.AndWhere` and `SqlSelect.SelectQueryBuilder.OrWhere`, which take the operation as an argument.
- SQL values: `ToSql` values are kept as their text. Running a query (`Executor`, the PostgreSQL client) is not modelled.
- `HashMap` iteration order: maps are Dafny maps. Where the code's output follows iteration order (`Headers::into_iter`, the purge loop's removal order), the model fixes one order or states only the resulting set.
- HttpRouter.TestRouter: it stands for the router test's routes, generalised to any list of templates registered with `get`.
- `FromStr` parsing in `parameter<T>` / `query<T>`: the parse is a parameter, and only the missing-parameter path is fixed.

## Findings

| source | as written | input that shows it | evidently intended | confidence | as-written member | corrected member |
|---|---|---|---|---|---|---|
| valar/src/http/headers.rs:437-445 | `Headers<Response>::cookies` parses each `Set-Cookie` value with the request-cookie parser, which splits the whole value on `=` | `Set-Cookie: foo=bar; Path=/` reads back as a cookie named `foo` with value `bar; Path` | parse with the response-cookie parser, which keeps only the pair before the first `;` | not executed | HttpHeaders.SetResponseCookieAsWrittenReadBack | HttpHeaders.SetResponseCookieReadBack |
| valar/src/drivers/cache.rs:30-32 | `has` is `get::<()>(key).is_ok()`, so it succeeds only when the stored JSON decodes as the unit value | a key holding `42` is present, yet `has` answers false | true exactly when the key is present and not expired, whatever its value decodes to | not executed | DriverCache.HasAsWrittenMissesNumbers | DriverCache.HasAgreesWithFetch |
| valar/src/http/request.rs:424-441 | `query_parameters_from` strips the leading `/` and then `?` from `path_and_query()`, so a non-root path stays glued to the first key | `/users?id=1` yields the key `users?id`, and `id` is absent | read the query component alone | not executed | HttpRequest.QueryPathLeak | HttpRequest.QueryParametersFrom |
