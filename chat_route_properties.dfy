/** What the chat forwarding edge promises, proved about `ChatRoute.Handle`:
    the size gate on rendered lengths, the order of the checks, the shape and
    fidelity of the outbound form, the outcome mapping and the closed set of
    responses. */
module ChatRouteProperties {

  import opened Wrappers
  import Decimal
  import opened ChatRoute

  /** The messages of every error body the route can produce. */
  const ERROR_MESSAGES: set<string> := {TOO_LARGE, NOT_CONFIGURED, UPSTREAM_FAILED, TIMED_OUT, INTERNAL}

  /** A client declaring length `n` (with an optional sign, any leading
      zeros and any non-digit suffix) is refused with 413, before the form is
      read, exactly when `n` exceeds 100 MiB and is not negated. */
  lemma DeclaredLengthGate(sign: string, zeros: string, n: nat, rest: string, form: FormParse,
                           agentUrl: Option<string>, outcome: UpstreamOutcome)
    requires sign == "" || sign == "+" || sign == "-"
    requires Decimal.AllZeros(zeros)
    requires rest == [] || !Decimal.IsDigit(rest[0])
    ensures var ex := Handle(Some(sign + zeros + Decimal.Render(n) + rest), form, agentUrl, outcome);
      var refused := sign != "-" && n > MAX_BODY_BYTES;
      (refused <==> ex.effects == []) &&
      (refused ==> ex.response == ErrorResponse(413, TOO_LARGE)) &&
      (!refused ==> ex.effects[0] == ReadForm)
  {
    Decimal.ParseRender(sign, zeros, n, rest);
  }

  /** The rendering of one more than the limit, digit by digit. */
  lemma RenderLimitPlusOne()
    ensures Decimal.Render(104857601) == "104857601"
  {
    assert Decimal.Render(1) == "1";
    assert Decimal.Render(10) == "10";
    assert Decimal.Render(104) == "104";
    assert Decimal.Render(1048) == "1048";
    assert Decimal.Render(10485) == "10485";
    assert Decimal.Render(104857) == "104857";
    assert Decimal.Render(1048576) == "1048576";
    assert Decimal.Render(10485760) == "10485760";
  }

  /** `Content-Length: 104857601` is one byte too many. */
  lemma OneByteTooMany(form: FormParse, agentUrl: Option<string>, outcome: UpstreamOutcome)
    ensures Handle(Some("104857601"), form, agentUrl, outcome) ==
      Exchange(ErrorResponse(413, TOO_LARGE), [])
  {
    RenderLimitPlusOne();
    assert "" + "" + Decimal.Render(104857601) + "" == "104857601";
    DeclaredLengthGate("", "", 104857601, "", form, agentUrl, outcome);
  }

  /** An absent, empty or non-numeric header skips the gate. */
  lemma NoNumberNoGate(contentLength: Option<string>, form: FormParse, agentUrl: Option<string>,
                       outcome: UpstreamOutcome)
    requires contentLength.None? || contentLength.value == "" ||
             Decimal.ParseInt(contentLength.value).None?
    ensures Handle(contentLength, form, agentUrl, outcome).effects[0] == ReadForm
  {
  }

  /** A form that cannot be read gives the generic 500, whether or not the
      agent's address is configured: the form is checked first. */
  lemma ParseFailureBeforeConfiguration(contentLength: Option<string>, agentUrl: Option<string>,
                                        outcome: UpstreamOutcome)
    requires !TooLarge(contentLength)
    ensures Handle(contentLength, ParseFailed, agentUrl, outcome) ==
      Exchange(ErrorResponse(500, INTERNAL), [ReadForm])
  {
  }

  /** Without a configured address every readable request gets the same
      500, whatever its fields, and the agent is never called. */
  lemma MisconfigurationIgnoresRequest(contentLength: Option<string>, agentUrl: Option<string>,
                                       entries1: seq<Entry>, entries2: seq<Entry>,
                                       outcome1: UpstreamOutcome, outcome2: UpstreamOutcome)
    requires !TooLarge(contentLength) && !Configured(agentUrl)
    ensures Handle(contentLength, Parsed(entries1), agentUrl, outcome1) ==
      Handle(contentLength, Parsed(entries2), agentUrl, outcome2)
    ensures Handle(contentLength, Parsed(entries1), agentUrl, outcome1) ==
      Exchange(ErrorResponse(500, NOT_CONFIGURED), [ReadForm])
  {
  }

  /** `get` finds a value exactly when some entry has the name, and the
      value it finds is that of the first such entry. */
  lemma {:induction false} GetFirst(entries: seq<Entry>, name: string)
    ensures Get(entries, name).None? <==> forall i :: 0 <= i < |entries| ==> entries[i].name != name
    ensures Get(entries, name).Some? ==>
      exists i :: FirstNamed(entries, name, i) && entries[i].value == Get(entries, name).value
  {
    if entries == [] {
    } else if entries[0].name == name {
      assert FirstNamed(entries, name, 0);
    } else {
      var rest := entries[1..];
      GetFirst(rest, name);
      assert forall i :: 0 < i < |entries| ==> entries[i] == rest[i - 1];
      if Get(entries, name).Some? {
        var k :| FirstNamed(rest, name, k) && rest[k].value == Get(rest, name).value;
        assert FirstNamed(entries, name, k + 1) by {
          forall j | 0 <= j < k + 1 ensures entries[j].name != name {
            if j > 0 { assert entries[j] == rest[j - 1]; }
          }
        }
      }
    }
  }

  /** `get` on a concatenation looks in the first part, then in the second. */
  lemma {:induction false} GetConcat(a: seq<Entry>, b: seq<Entry>, name: string)
    ensures Get(a + b, name) == if Get(a, name).Some? then Get(a, name) else Get(b, name)
  {
    if a == [] {
      assert a + b == b;
    } else {
      assert (a + b)[0] == a[0];
      if a[0].name != name {
        assert (a + b)[1..] == a[1..] + b;
        GetConcat(a[1..], b, name);
      }
    }
  }

  /** The outbound form holds the three text fields in order, then `image`
      if it was truthy, then `video` if it was truthy, and nothing else. */
  lemma OutboundFormNames(entries: seq<Entry>)
    ensures Names(AgentForm(entries)) ==
      ["user_prompt", "brand_context", "audience_summary"]
      + (if Truthy(Get(entries, "image")) then ["image"] else [])
      + (if Truthy(Get(entries, "video")) then ["video"] else [])
  {
  }

  /** `get` on a form that starts with entry `e`. */
  lemma GetCons(e: Entry, rest: seq<Entry>, name: string)
    ensures Get([e] + rest, name) == if e.name == name then Some(e.value) else Get(rest, name)
  {
    assert ([e] + rest)[1..] == rest;
  }

  /** `get` on a form of three entries. */
  lemma GetThree(e1: Entry, e2: Entry, e3: Entry, name: string)
    ensures Get([e1, e2, e3], name) ==
      if e1.name == name then Some(e1.value)
      else if e2.name == name then Some(e2.value)
      else if e3.name == name then Some(e3.value)
      else None
  {
    assert [e1, e2, e3] == [e1] + ([e2] + ([e3] + []));
    GetCons(e1, [e2] + ([e3] + []), name);
    GetCons(e2, [e3] + [], name);
    GetCons(e3, [], name);
  }

  /** `get` on the outbound form built from five values. */
  lemma OutboundGet(userPrompt: Option<FormValue>, brandContext: Option<FormValue>,
                    audienceSummary: Option<FormValue>, image: Option<FormValue>,
                    video: Option<FormValue>, name: string)
    ensures var sent := Get(OutboundForm(userPrompt, brandContext, audienceSummary, image, video), name);
      if name == "user_prompt" then sent == Some(Appended(userPrompt))
      else if name == "brand_context" then sent == Some(Appended(brandContext))
      else if name == "audience_summary" then sent == Some(Appended(audienceSummary))
      else if name == "image" then sent == (if Truthy(image) then image else None)
      else if name == "video" then sent == (if Truthy(video) then video else None)
      else sent.None?
  {
    var texts := [Entry("user_prompt", Appended(userPrompt)),
                  Entry("brand_context", Appended(brandContext)),
                  Entry("audience_summary", Appended(audienceSummary))];
    var files := if Truthy(image) then [Entry("image", image.value)] else [];
    var last := if Truthy(video) then [Entry("video", video.value)] else [];
    GetConcat(texts + files, last, name);
    GetConcat(texts, files, name);
    GetThree(texts[0], texts[1], texts[2], name);
    GetConcat(files, [], name);
    GetConcat(last, [], name);
  }

  /** Each field the agent reads is forwarded with the value the route read:
      the text fields always (a missing one as "null"), the files only when
      truthy; no other name reaches the agent. */
  lemma ForwardingFidelity(entries: seq<Entry>, name: string)
    ensures var sent := Get(AgentForm(entries), name);
      if name == "user_prompt" || name == "brand_context" || name == "audience_summary" then
        sent == Some(Appended(Get(entries, name)))
      else if name == "image" || name == "video" then
        sent == (if Truthy(Get(entries, name)) then Get(entries, name) else None)
      else sent.None?
  {
    OutboundGet(Get(entries, "user_prompt"), Get(entries, "brand_context"), Get(entries, "audience_summary"),
                Get(entries, "image"), Get(entries, "video"), name);
  }

  /** The text of the agent's body never reaches the response: a non-2xx
      reply whose body can be read is answered with its own status and the
      fixed message, whatever the body says. */
  lemma UpstreamBodyContained(status: HttpStatus, text1: string, text2: string,
                              json1: Option<Json>, json2: Option<Json>)
    requires !IsOk(status) && !NullBodyStatus(status)
    ensures Settle(Responded(status, Some(text1), json1)) == Settle(Responded(status, Some(text2), json2))
    ensures Settle(Responded(status, Some(text1), json1)) == ErrorResponse(status, UPSTREAM_FAILED)
  {
  }

  /** A 304 reply cannot be echoed: building the JSON error response with
      that status throws, and the outer handler answers with the generic 500
      after the request was made and the timer cleared. */
  lemma NotModifiedIsInternal(contentLength: Option<string>, entries: seq<Entry>, agentUrl: string,
                              text: Option<string>, json: Option<Json>)
    requires !TooLarge(contentLength) && agentUrl != ""
    ensures Handle(contentLength, Parsed(entries), Some(agentUrl), Responded(304, text, json)) ==
      Exchange(ErrorResponse(500, INTERNAL),
               [ReadForm, ArmTimer(DEADLINE_MS), Fetch(Request(agentUrl + AGENT_PATH, AgentForm(entries))), ClearTimer])
  {
  }

  /** A 2xx body that decodes is answered verbatim with status 200 (whatever
      2xx the agent used) and `Cache-Control: no-store`; one that does not
      decode is the generic 500. */
  lemma SuccessPassthrough(status: HttpStatus, text: Option<string>, json: Option<Json>)
    requires IsOk(status)
    ensures Settle(Responded(status, text, json)) ==
      if json.Some? then Response(200, json.value, [NO_STORE]) else ErrorResponse(500, INTERNAL)
  {
  }

  /** A request the agent does not answer: the deadline firing is the 504,
      any other rejection of `fetch` the generic 500, and in both cases the
      timer armed for the call is cleared. */
  lemma UnansweredUpstream(contentLength: Option<string>, entries: seq<Entry>, agentUrl: string)
    requires !TooLarge(contentLength) && agentUrl != ""
    ensures var effects := [ReadForm, ArmTimer(DEADLINE_MS),
                            Fetch(Request(agentUrl + AGENT_PATH, AgentForm(entries))), ClearTimer];
      && Handle(contentLength, Parsed(entries), Some(agentUrl), Aborted) ==
         Exchange(ErrorResponse(504, TIMED_OUT), effects)
      && Handle(contentLength, Parsed(entries), Some(agentUrl), Failed) ==
         Exchange(ErrorResponse(500, INTERNAL), effects)
  {
  }

  /** Every request gets exactly one response, and it is either the agent's
      JSON passed through or one of the five fixed error bodies with no
      header of the route's own. */
  lemma ClosedResponseSurface(contentLength: Option<string>, form: FormParse,
                              agentUrl: Option<string>, outcome: UpstreamOutcome)
    ensures var r := Handle(contentLength, form, agentUrl, outcome).response;
      if r.headers == [] then
        exists m :: m in ERROR_MESSAGES && r == ErrorResponse(r.status, m)
      else
        r.headers == [NO_STORE] && r.status == 200 &&
        outcome.Responded? && IsOk(outcome.status) && outcome.json == Some(r.body)
    ensures var r := Handle(contentLength, form, agentUrl, outcome).response;
      r.status in {200, 413, 500, 504} ||
      (outcome.Responded? && outcome.text.Some? && r.status == outcome.status && !IsOk(r.status) &&
       !NullBodyStatus(r.status))
  {
    var ex := Handle(contentLength, form, agentUrl, outcome);
    if !TooLarge(contentLength) && !Contacted(ex) {
      assert ex.response == ErrorResponse(500, if form.ParseFailed? then INTERNAL else NOT_CONFIGURED);
    }
  }

  /** The deadline on the upstream call fits inside the platform's limit. */
  lemma DeadlineWithinPlatformLimit(contentLength: Option<string>, form: FormParse,
                                    agentUrl: Option<string>, outcome: UpstreamOutcome)
    ensures forall e :: e in Handle(contentLength, form, agentUrl, outcome).effects && e.ArmTimer? ==>
      e.ms == 55000 && e.ms < MAX_DURATION_MS
  {
    var ex := Handle(contentLength, form, agentUrl, outcome);
    if Contacted(ex) {
      assert ex.effects == [ReadForm, ArmTimer(DEADLINE_MS),
                            Fetch(Request(agentUrl.value + AGENT_PATH, AgentForm(form.entries))),
                            ClearTimer];
    } else {
      assert ex.effects == [] || ex.effects == [ReadForm];
    }
  }

  /** The text-only happy path: a well-formed form, the agent answers 200. */
  lemma TextOnlyHappyPath(agentUrl: string)
    requires agentUrl != ""
    ensures var entries := [Entry("user_prompt", Text("Hello")), Entry("brand_context", Text("")),
                            Entry("audience_summary", Text("A general consumer."))];
      var reply := JObject([("agent_response", JString("Hi."))]);
      Handle(None, Parsed(entries), Some(agentUrl), Responded(200, Some("{\"agent_response\":\"Hi.\"}"), Some(reply))) ==
      Exchange(Response(200, reply, [NO_STORE]),
               [ReadForm, ArmTimer(55000), Fetch(Request(agentUrl + "/chat/multimodal", entries)), ClearTimer])
  {
    var entries := [Entry("user_prompt", Text("Hello")), Entry("brand_context", Text("")),
                    Entry("audience_summary", Text("A general consumer."))];
    assert AgentForm(entries) == entries;
  }
}
