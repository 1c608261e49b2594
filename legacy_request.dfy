/**
 * The request of the first generation of the framework
 * (src/http/request.rs): the route parameters of the matched route, a
 * missing-parameter error, and header predicates that compare the whole
 * header value. Unlike the newer request, `is_json` and `wants_json` ask for
 * the value to be exactly `application/json`, and header names are looked up
 * exactly as written (`Content-Type`, `Accept`).
 */
module LegacyRequest {
  import opened Wrappers
  import opened Strings
  import opened HttpTypes
  import opened HttpError

  const ContentTypeName: string := "Content-Type"
  const AcceptName: string := "Accept"
  const JsonMediaType: string := "application/json"

  datatype Request = Request(
    httpMethod: Method,
    uri: Uri,
    version: Version,
    headers: map<string, string>,
    body: string,
    routeParameters: map<string, string>)
  {
    /** `maybe_parameter`: a plain lookup in the route parameters. */
    function MaybeParameter(name: string): (r: Option<string>)
      ensures r.Some? <==> name in routeParameters
      ensures r.Some? ==> r.value == routeParameters[name]
    {
      if name in routeParameters then Some(routeParameters[name]) else None
    }

    /** `parameter`: the value, or a 500 whose message names the missing parameter. */
    function Parameter(name: string): (r: Result<string, ErrorResponse>)
      ensures r.Ok? <==> MaybeParameter(name).Some?
      ensures r.Ok? ==> r.value == routeParameters[name]
      ensures r.Err? ==>
        && r.error.status == 500 && r.error.headers.None?
        && r.error.Message() == "Unknown route parameter: `" + name + "`"
    {
      match MaybeParameter(name)
      case Some(v) => Result.Ok(v)
      case None =>
        Err(NewErrorResponse().WithMessage("Unknown route parameter: `" + name + "`").WithStatus(INTERNAL_SERVER_ERROR))
    }

    /**
     * `is_json`: Content-Type is present and equal to `application/json`,
     * so it also contains it.
     */
    predicate IsJson()
      ensures IsJson() ==> ContentTypeName in headers && Contains(headers[ContentTypeName], JsonMediaType)
    {
      ContainsSelf(JsonMediaType);
      HeaderIs(headers, ContentTypeName, JsonMediaType)
    }

    /** `wants_json`: Accept is present and equal to `application/json`, so it also contains it. */
    predicate WantsJson()
      ensures WantsJson() ==> AcceptName in headers && Contains(headers[AcceptName], JsonMediaType)
    {
      ContainsSelf(JsonMediaType);
      HeaderIs(headers, AcceptName, JsonMediaType)
    }
  }

  /**
   * The exact comparison is stricter than the containment the newer request
   * uses: whatever passes it also contains `application/json`.
   */
  lemma ExactImpliesContains(r: Request)
    ensures r.IsJson() ==> HeaderContains(r.headers, ContentTypeName, JsonMediaType)
    ensures r.WantsJson() ==> HeaderContains(r.headers, AcceptName, JsonMediaType)
  {
    if r.IsJson() {
      HeaderIsImpliesContains(r.headers, ContentTypeName, JsonMediaType);
    }
    if r.WantsJson() {
      HeaderIsImpliesContains(r.headers, AcceptName, JsonMediaType);
    }
  }

  /**
   * The converse fails: a value with anything after `application/json`
   * (a `; charset=...` parameter, say) contains it but is not JSON here.
   */
  lemma ParameterizedMediaType(r: Request, extra: string)
    requires extra != ""
    requires ContentTypeName in r.headers && r.headers[ContentTypeName] == JsonMediaType + extra
    ensures HeaderContains(r.headers, ContentTypeName, JsonMediaType)
    ensures !r.IsJson()
  {
    var v := r.headers[ContentTypeName];
    assert v[0..|JsonMediaType|] == JsonMediaType;
    ContainsAt(v, JsonMediaType, 0);
    assert |v| != |JsonMediaType|;
  }
}
