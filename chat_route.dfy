/** The chat forwarding edge: the `POST /api/chat` handler of the web app.
    It gates on the declared body size, reads the multipart form, checks
    that the agent's address is configured, forwards the form to the
    agent's `/chat/multimodal` endpoint under a 55 s abort deadline and maps
    every outcome to one JSON response.

    The handler is modelled as the total function `Handle` over abstract
    inputs (the header, the result of reading the form, the environment
    variable and the outcome of the one upstream call) and, step by step, as
    the method `Post`, which is proved to produce exactly `Handle`'s
    exchange. An exchange is the response together with the trace of the
    handler's effects: reading the form, arming the abort timer, the upstream
    request, clearing the timer. */
module ChatRoute {

  import opened Wrappers
  import Decimal

  /** `100 * 1024 * 1024`: a declared length above this is refused. */
  const MAX_BODY_BYTES: int := 100 * 1024 * 1024
  /** The abort deadline of the upstream call, in milliseconds. */
  const DEADLINE_MS: nat := 55000
  /** The platform's limit on the route's duration (`maxDuration = 60` s). */
  const MAX_DURATION_MS: nat := 60 * 1000
  const AGENT_PATH: string := "/chat/multimodal"

  // The five messages the route ever puts in an error body.
  const TOO_LARGE: string := "Request too large. Maximum 100MB."
  const NOT_CONFIGURED: string := "AI agent service is not configured."
  const UPSTREAM_FAILED: string := "Failed to get response from AI agent"
  const TIMED_OUT: string := "Request timeout. Please try again."
  const INTERNAL: string := "Internal server error. Please try again later."

  /** A JSON value, as decoded from the agent's body and re-encoded by
      `NextResponse.json`. Numbers are kept abstract as integers. */
  datatype Json =
    | JNull
    | JBool(b: bool)
    | JNumber(n: int)
    | JString(s: string)
    | JArray(items: seq<Json>)
    | JObject(members: seq<(string, Json)>)

  /** An uploaded file: its name, declared media type and opaque bytes. */
  datatype File = File(name: string, mediaType: string, bytes: seq<bv8>)

  /** A value of a multipart form entry: a string or a file. */
  datatype FormValue = Text(text: string) | Upload(file: File)

  datatype Entry = Entry(name: string, value: FormValue)

  /** What `request.formData()` gives: the entries in the order received, or
      a failure (a malformed body, a broken stream). */
  datatype FormParse = Parsed(entries: seq<Entry>) | ParseFailed

  /** `fetch` only surfaces final statuses. */
  type HttpStatus = s: int | 200 <= s <= 599 witness 200

  /** The outcome of the upstream call. `Responded` carries the status, the
      body as text (what `text()` reads) and the body as JSON (what `json()`
      decodes); either is `None` when reading it that way would throw.
      `Aborted` is the deadline firing while `fetch` is pending; `Failed` is
      any other rejection of `fetch` (DNS, connection, TLS). */
  datatype UpstreamOutcome =
    | Responded(status: HttpStatus, text: Option<string>, json: Option<Json>)
    | Aborted
    | Failed

  datatype Header = Header(name: string, value: string)

  /** A response of the route. `headers` lists the headers the route sets
      itself, besides the JSON content type that `NextResponse.json` adds to
      every response. */
  datatype Response = Response(status: int, body: Json, headers: seq<Header>)

  /** The outbound request: a POST of `form` to `url`. */
  datatype Request = Request(url: string, form: seq<Entry>)

  datatype Effect = ReadForm | ArmTimer(ms: nat) | Fetch(request: Request) | ClearTimer

  datatype Exchange = Exchange(response: Response, effects: seq<Effect>)

  /** Entry `i` is the first one named `name`. */
  predicate FirstNamed(entries: seq<Entry>, name: string, i: int) {
    0 <= i < |entries| && entries[i].name == name &&
    forall j :: 0 <= j < i ==> entries[j].name != name
  }

  /** `formData.get(name)`: the value of the first entry with that name;
      `GetFirst` states it in terms of `FirstNamed`. */
  function Get(entries: seq<Entry>, name: string): Option<FormValue> {
    if entries == [] then None
    else if entries[0].name == name then Some(entries[0].value)
    else Get(entries[1..], name)
  }

  /** JavaScript truthiness of a `get` result: `null` and the empty string
      are falsy; a non-empty string and every file are truthy. */
  predicate Truthy(v: Option<FormValue>) {
    match v
    case None => false
    case Some(Text(s)) => s != ""
    case Some(Upload(_)) => true
  }

  /** What `append(name, v)` stores for a `get` result `v` that the route
      casts `as string` without checking: `null` is stringified to "null". */
  function Appended(v: Option<FormValue>): FormValue {
    match v
    case None => Text("null")
    case Some(x) => x
  }

  /** The form the route builds for the agent from the five `get` results. */
  function OutboundForm(userPrompt: Option<FormValue>, brandContext: Option<FormValue>,
                        audienceSummary: Option<FormValue>, image: Option<FormValue>,
                        video: Option<FormValue>): seq<Entry> {
    [Entry("user_prompt", Appended(userPrompt)),
     Entry("brand_context", Appended(brandContext)),
     Entry("audience_summary", Appended(audienceSummary))]
    + (if Truthy(image) then [Entry("image", image.value)] else [])
    + (if Truthy(video) then [Entry("video", video.value)] else [])
  }

  /** The form the route builds for the agent from the received entries. */
  function AgentForm(entries: seq<Entry>): seq<Entry> {
    OutboundForm(Get(entries, "user_prompt"), Get(entries, "brand_context"),
                 Get(entries, "audience_summary"), Get(entries, "image"), Get(entries, "video"))
  }

  /** The outbound form built by successive appends. */
  method BuildForm(userPrompt: Option<FormValue>, brandContext: Option<FormValue>,
                   audienceSummary: Option<FormValue>, image: Option<FormValue>,
                   video: Option<FormValue>) returns (form: seq<Entry>)
    ensures form == OutboundForm(userPrompt, brandContext, audienceSummary, image, video)
  {
    form := [];
    form := form + [Entry("user_prompt", Appended(userPrompt))];
    form := form + [Entry("brand_context", Appended(brandContext))];
    form := form + [Entry("audience_summary", Appended(audienceSummary))];
    assert form == [Entry("user_prompt", Appended(userPrompt)), Entry("brand_context", Appended(brandContext)),
                    Entry("audience_summary", Appended(audienceSummary))];
    if Truthy(image) {
      form := form + [Entry("image", image.value)];
    }
    if Truthy(video) {
      form := form + [Entry("video", video.value)];
    }
  }

  function Names(form: seq<Entry>): (names: seq<string>)
    ensures |names| == |form|
    ensures forall i :: 0 <= i < |form| ==> names[i] == form[i].name
  {
    if form == [] then [] else [form[0].name] + Names(form[1..])
  }

  /** The size gate: the header is present and non-empty and `parseInt`
      reads a number above the limit from it. */
  predicate TooLarge(contentLength: Option<string>) {
    contentLength.Some? && contentLength.value != "" &&
    var n := Decimal.ParseInt(contentLength.value);
    n.Some? && n.value > MAX_BODY_BYTES
  }

  /** `process.env.AI_AGENT_URL` is truthy: set and not empty. */
  predicate Configured(agentUrl: Option<string>) {
    agentUrl.Some? && agentUrl.value != ""
  }

  function ErrorResponse(status: int, message: string): Response {
    Response(status, JObject([("error", JString(message))]), [])
  }

  const NO_STORE: Header := Header("Cache-Control", "no-store")

  predicate IsOk(status: int) {
    200 <= status <= 299
  }

  /** The one final non-2xx status whose response must have no body:
      `NextResponse.json` throws when asked to answer with it. */
  predicate NullBodyStatus(status: int) {
    status == 304
  }

  /** The response for the outcome of the upstream call. The body of a
      non-2xx reply is read as text (for the log); a 2xx body is decoded as
      JSON. A read that throws is rethrown to the outer handler, which
      answers with the generic 500. */
  function Settle(outcome: UpstreamOutcome): (r: Response)
    // The agent's JSON is passed through exactly for a 2xx reply that decodes.
    ensures r.headers != [] <==> outcome.Responded? && IsOk(outcome.status) && outcome.json.Some?
    ensures r.headers != [] ==> r == Response(200, outcome.json.value, [NO_STORE])
    // A non-2xx reply keeps its status once its body could be read, unless
    // that status cannot carry the JSON error body.
    ensures outcome.Responded? && !IsOk(outcome.status) && outcome.text.Some? && !NullBodyStatus(outcome.status) ==>
      r == ErrorResponse(outcome.status, UPSTREAM_FAILED)
    // A body that cannot be read, a 304 whose error response cannot be
    // built, or a rejected `fetch` is the generic 500; the deadline firing
    // is the 504.
    ensures outcome.Failed? || (outcome.Responded? && (if IsOk(outcome.status) then outcome.json.None?
                                                     else outcome.text.None? || NullBodyStatus(outcome.status))) ==>
      r == ErrorResponse(500, INTERNAL)
    ensures outcome.Aborted? ==> r == ErrorResponse(504, TIMED_OUT)
  {
    match outcome
    case Responded(status, text, json) =>
      if !IsOk(status) then
        if text.None? || NullBodyStatus(status) then ErrorResponse(500, INTERNAL)
        else ErrorResponse(status, UPSTREAM_FAILED)
      else if json.None? then ErrorResponse(500, INTERNAL)
      else Response(200, json.value, [NO_STORE])
    case Aborted => ErrorResponse(504, TIMED_OUT)
    case Failed => ErrorResponse(500, INTERNAL)
  }

  /** Whether the exchange contains an upstream request. */
  predicate Contacted(ex: Exchange) {
    exists i :: 0 <= i < |ex.effects| && ex.effects[i].Fetch?
  }

  /** The handler as a function of its inputs; the checks run in the order
      size, form, configuration. */
  function Handle(contentLength: Option<string>, form: FormParse, agentUrl: Option<string>,
                  outcome: UpstreamOutcome): (ex: Exchange)
    // The size gate fires exactly when nothing else happens.
    ensures TooLarge(contentLength) <==> ex.effects == []
    ensures TooLarge(contentLength) ==> ex.response == ErrorResponse(413, TOO_LARGE)
    // Past the gate the form is read first.
    ensures !TooLarge(contentLength) ==> ex.effects[0] == ReadForm
    // The agent is contacted exactly when the gate, the form and the
    // configuration all pass, at the agent's multimodal endpoint, with the
    // outbound form, under the deadline, and the timer is cleared last.
    ensures Contacted(ex) <==> !TooLarge(contentLength) && form.Parsed? && Configured(agentUrl)
    ensures Contacted(ex) ==>
      ex.effects == [ReadForm, ArmTimer(DEADLINE_MS),
                     Fetch(Request(agentUrl.value + AGENT_PATH, AgentForm(form.entries))),
                     ClearTimer]
    // The response is decided by the outcome only once the agent was contacted.
    ensures Contacted(ex) ==> ex.response == Settle(outcome)
    ensures !TooLarge(contentLength) && !Contacted(ex) ==>
      ex.response == ErrorResponse(500, if form.ParseFailed? then INTERNAL else NOT_CONFIGURED)
    ensures !TooLarge(contentLength) && !Contacted(ex) ==> ex.effects == [ReadForm]
  {
    if TooLarge(contentLength) then
      Exchange(ErrorResponse(413, TOO_LARGE), [])
    else match form
      case ParseFailed => Exchange(ErrorResponse(500, INTERNAL), [ReadForm])
      case Parsed(entries) =>
        if !Configured(agentUrl) then
          Exchange(ErrorResponse(500, NOT_CONFIGURED), [ReadForm])
        else
          var request := Request(agentUrl.value + AGENT_PATH, AgentForm(entries));
          var ex := Exchange(Settle(outcome), [ReadForm, ArmTimer(DEADLINE_MS), Fetch(request), ClearTimer]);
          assert ex.effects[2].Fetch?;
          ex
  }

  /** The upstream call under the deadline: the timer is armed, the request
      sent, and the timer cleared whether `fetch` resolves or rejects; only
      then is the reply's body read. */
  method CallAgent(request: Request, outcome: UpstreamOutcome) returns (response: Response, trace: seq<Effect>)
    ensures response == Settle(outcome)
    ensures trace == [ArmTimer(DEADLINE_MS), Fetch(request), ClearTimer]
  {
    trace := [ArmTimer(DEADLINE_MS)];
    trace := trace + [Fetch(request)];
    match outcome {
      case Responded(status, text, json) =>
        trace := trace + [ClearTimer];
        if !IsOk(status) {
          if text.None? || NullBodyStatus(status) {
            return ErrorResponse(500, INTERNAL), trace;
          }
          return ErrorResponse(status, UPSTREAM_FAILED), trace;
        }
        if json.None? {
          return ErrorResponse(500, INTERNAL), trace;
        }
        return Response(200, json.value, [NO_STORE]), trace;
      case Aborted =>
        trace := trace + [ClearTimer];
        return ErrorResponse(504, TIMED_OUT), trace;
      case Failed =>
        trace := trace + [ClearTimer];
        return ErrorResponse(500, INTERNAL), trace;
    }
  }

  /** The handler, step by step as the route runs it: early returns, the
      outbound form built by successive appends, then the upstream call. */
  method Post(contentLength: Option<string>, form: FormParse, agentUrl: Option<string>,
              outcome: UpstreamOutcome) returns (ex: Exchange)
    ensures ex == Handle(contentLength, form, agentUrl, outcome)
  {
    var effects: seq<Effect> := [];
    if contentLength.Some? && contentLength.value != "" {
      var n := Decimal.ParseInt(contentLength.value);
      if n.Some? && n.value > MAX_BODY_BYTES {
        return Exchange(ErrorResponse(413, TOO_LARGE), effects);
      }
    }

    effects := effects + [ReadForm];
    if form.ParseFailed? {
      return Exchange(ErrorResponse(500, INTERNAL), effects);
    }
    var userPrompt := Get(form.entries, "user_prompt");
    var brandContext := Get(form.entries, "brand_context");
    var audienceSummary := Get(form.entries, "audience_summary");
    var image := Get(form.entries, "image");
    var video := Get(form.entries, "video");

    if agentUrl.None? || agentUrl.value == "" {
      return Exchange(ErrorResponse(500, NOT_CONFIGURED), effects);
    }

    var agentForm := BuildForm(userPrompt, brandContext, audienceSummary, image, video);
    var request := Request(agentUrl.value + AGENT_PATH, agentForm);
    var response, trace := CallAgent(request, outcome);
    effects := effects + trace;
    return Exchange(response, effects);
  }
}
