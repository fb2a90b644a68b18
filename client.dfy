/**
 * The tracking client (src/dashgram/client.py): its configuration, fixed at
 * construction, and `track_event`, which normalises one event, posts it to
 * the collector's "track" endpoint and classifies the reply.
 *
 * The HTTP round trip is a parameter: `post` gives the reply the collector
 * sends for a request, so `TrackEvent` is a function of the client's fields,
 * the event and the collector's behaviour.
 */
module Client {

  import opened Wrappers
  import opened Json
  import opened Utils
  import opened Integrations
  import opened Exceptions
  import Decimal

  const DefaultApiUrl: string := "https://api.dashgram.io/v1"
  const DefaultOrigin: string := "Python + Dashgram SDK"
  const TrackPath: string := "track"

  /** `project_id: Union[int, str]`. */
  datatype ProjectId = IntId(n: int) | StrId(s: string)

  /** `str(project_id)`, as the f-string renders it. */
  function ProjectIdText(p: ProjectId): (t: string)
    ensures p.StrId? ==> t == p.s
    ensures p.IntId? ==> Decimal.ParseInt(t) == Some(p.n)
  {
    match p
    case IntId(n) => Decimal.IntToStringRoundTrip(n); Decimal.IntToString(n)
    case StrId(s) => s
  }

  /** The configuration of the underlying HTTP client: its base URL and its default headers. */
  datatype HttpClient = HttpClient(baseUrl: string, headers: map<string, string>)

  /** A request as posted: the client it goes through, the relative path and the JSON body. */
  datatype Request = Request(client: HttpClient, path: string, body: Dict)

  /**
   * The collector's reply: the HTTP status code and the `status` and
   * `details` fields of the decoded body, each absent when the body lacks it.
   */
  datatype Response = Response(statusCode: int, status: Option<string>, details: Option<string>)

  /** What `track_event` does once it returns: nothing on success, else it raises. */
  datatype Outcome =
    | Tracked
    | Raised(error: DashgramError)
    | ConversionRaised(cause: ObjectError)

  /** An event as `track_event` receives it: a `dict`, or any other object. */
  datatype Event = DictEvent(fields: Dict) | ObjectEvent(obj: PyObject)

  /** `f"{api_url}/{project_id}"`, with the public collector when no URL is given. */
  function ProjectUrl(apiUrl: Option<string>, projectId: ProjectId): (url: string)
    ensures apiUrl.None? ==> url == "https://api.dashgram.io/v1/" + ProjectIdText(projectId)
    ensures apiUrl.Some? ==> url == apiUrl.value + "/" + ProjectIdText(projectId)
  {
    (if apiUrl.None? then DefaultApiUrl else apiUrl.value) + "/" + ProjectIdText(projectId)
  }

  /** The project URL of an integer project id ends with the id's digits, which read back as the id. */
  lemma ProjectUrlEndsWithId(apiUrl: Option<string>, n: int)
    ensures var url := ProjectUrl(apiUrl, IntId(n));
            var base := if apiUrl.None? then DefaultApiUrl else apiUrl.value;
            |url| > |base| + 1 && url[..|base| + 1] == base + "/"
            && Decimal.ParseInt(url[|base| + 1..]) == Some(n)
  {
    var url := ProjectUrl(apiUrl, IntId(n));
    var base := if apiUrl.None? then DefaultApiUrl else apiUrl.value;
    assert url == base + "/" + Decimal.IntToString(n);
    assert url[|base| + 1..] == Decimal.IntToString(n);
    Decimal.IntToStringRoundTrip(n);
  }

  /** The origin sent with every request: the one given, verbatim, or the SDK's default label. */
  function ResolveOrigin(origin: Option<string>): (o: string)
    ensures origin.Some? ==> o == origin.value
    ensures origin.None? ==> o == "Python + Dashgram SDK"
  {
    if origin.None? then DefaultOrigin else origin.value
  }

  /** The bearer-style authorization header carried by every request. */
  function AuthHeaders(accessKey: string): (h: map<string, string>)
    ensures h.Keys == {"Authorization"} && h["Authorization"] == "Bearer " + accessKey
  {
    map["Authorization" := "Bearer " + accessKey]
  }

  /** `track_event`'s normalisation: `wrap_event` for a `dict`, `object_to_dict` for anything else. */
  function Normalize(event: Event, hint: Option<HandlerKind>, convert: ConverterFn): (r: Result<Dict, ObjectError>)
    ensures event.DictEvent? ==> r == Success(WrapEvent(event.fields, hint))
    ensures event.ObjectEvent? ==> r == ObjectToDict(event.obj, hint, convert)
  {
    match event
    case DictEvent(fields) => Success(WrapEvent(fields, hint))
    case ObjectEvent(obj) => ObjectToDict(obj, hint, convert)
  }

  /** The body posted to "track": the origin and a one-element list of updates. */
  function TrackBody(origin: string, update: Dict): (body: Dict)
    ensures body.Keys == {"origin", "updates"}
    ensures body["origin"] == Str(origin)
    ensures body["updates"].List? && |body["updates"].items| == 1
    ensures body["updates"].items[0] == Object(update)
  {
    map["origin" := Str(origin), "updates" := List([Object(update)])]
  }

  /**
   * How `track_event` reads the reply: 403 is a credentials failure whatever
   * the body says; otherwise the body's `status` must be "success".
   */
  function Classify(resp: Response): (r: Option<DashgramError>)
    ensures resp.statusCode == 403 ==> r == Some(DefaultInvalidCredentials())
    ensures resp.statusCode != 403 ==> (r.None? <==> resp.status == Some("success"))
    ensures resp.statusCode != 403 && r.Some? ==> r.value == DashgramApiError(resp.statusCode, resp.details)
  {
    if resp.statusCode == 403 then Some(DefaultInvalidCredentials())
    else if resp.status != Some("success") then Some(DashgramApiError(resp.statusCode, resp.details))
    else None
  }

  /** A 403 reply is rejected before its body is looked at. */
  lemma ForbiddenIgnoresBody(status: Option<string>, details: Option<string>)
    ensures Classify(Response(403, status, details)) == Some(InvalidCredentials("Invalid project_id or access_key"))
  {
  }

  /** Any non-403 reply that says "success" is accepted, whatever its status code. */
  lemma SuccessBodyAccepted(code: int, details: Option<string>)
    requires code != 403
    ensures Classify(Response(code, Some("success"), details)).None?
  {
  }

  /** A rejected non-403 reply raises the API error with the reply's code and details. */
  lemma RejectedReplyError(code: int, status: Option<string>, details: string)
    requires code != 403 && status != Some("success")
    ensures Classify(Response(code, status, Some(details))) == Some(DashgramApiError(code, Some(details)))
    ensures Classify(Response(code, status, Some(details))).value.Message()
              == details + " - Status Code: " + Decimal.IntToString(code)
  {
  }

  class Dashgram {
    var projectId: ProjectId
    var accessKey: string
    var apiUrl: string
    var origin: string
    var client: HttpClient

    constructor (projectId: ProjectId, accessKey: string, apiUrl: Option<string>, origin: Option<string>)
      ensures this.projectId == projectId && this.accessKey == accessKey
      ensures this.apiUrl == ProjectUrl(apiUrl, projectId)
      ensures this.origin == ResolveOrigin(origin)
      ensures this.client == HttpClient(this.apiUrl, map["Authorization" := "Bearer " + accessKey])
    {
      this.projectId := projectId;
      this.accessKey := accessKey;
      this.apiUrl := ProjectUrl(apiUrl, projectId);
      this.origin := ResolveOrigin(origin);
      this.client := HttpClient(this.apiUrl, AuthHeaders(accessKey));
    }

    /**
     * Normalises `event`, posts `{"origin": origin, "updates": [event]}` to
     * "track" and classifies the reply. `request` is what was posted; it is
     * `None` when normalisation raised before anything was sent. The method
     * has no `modifies` clause: the client's fields are never changed.
     */
    method TrackEvent(event: Event, hint: Option<HandlerKind>, convert: ConverterFn, post: Request -> Response)
      returns (request: Option<Request>, outcome: Outcome)
      ensures Normalize(event, hint, convert).Failure? ==>
                request.None? && outcome == ConversionRaised(Normalize(event, hint, convert).error)
      ensures Normalize(event, hint, convert).Success? ==>
                && request == Some(Request(client, TrackPath, TrackBody(origin, Normalize(event, hint, convert).value)))
                && outcome == (match Classify(post(request.value))
                               case None => Tracked
                               case Some(e) => Raised(e))
    {
      var normalized := Normalize(event, hint, convert);
      if normalized.Failure? {
        return None, ConversionRaised(normalized.error);
      }
      var reqData := TrackBody(origin, normalized.value);
      var req := Request(client, TrackPath, reqData);
      var resp := post(req);
      if resp.statusCode == 403 {
        return Some(req), Raised(DefaultInvalidCredentials());
      }
      if resp.status != Some("success") {
        return Some(req), Raised(DashgramApiError(resp.statusCode, resp.details));
      }
      return Some(req), Tracked;
    }
  }

  /** A `dict` event that is already an envelope is posted exactly as given. */
  lemma EnvelopePostedUnchanged(origin: string, fields: Dict, hint: Option<HandlerKind>, convert: ConverterFn)
    requires HasUpdateId(fields)
    ensures Normalize(DictEvent(fields), hint, convert) == Success(fields)
    ensures TrackBody(origin, Normalize(DictEvent(fields), hint, convert).value)["updates"].items[0] == Object(fields)
  {
  }

  /** A bare `dict` with a hint is posted inside a synthetic envelope under the hint's key. */
  lemma BarePayloadPostedWrapped(origin: string, fields: Dict, kind: HandlerKind, convert: ConverterFn)
    requires !HasUpdateId(fields)
    ensures var body := TrackBody(origin, Normalize(DictEvent(fields), Some(kind), convert).value);
            Unwrap(body["updates"].items[0].fields, kind) == Some(fields)
  {
    UnwrapWrap(fields, kind);
  }
}
