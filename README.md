# Synthetic Persona: the chat forwarding edge and the persona agent

This project models the two pieces of the Synthetic Persona system that make decisions, and proves what they promise.

- **The chat forwarding edge** is the web app's `POST /api/chat` handler. It runs five steps in a fixed order:
  1. a size gate on the declared `content-length`;
  2. reading the multipart form;
  3. a check that `AI_AGENT_URL` is configured;
  4. building the outbound form;
  5. one call to the agent's `/chat/multimodal` endpoint under a 55 s abort deadline.

  It maps every outcome to exactly one JSON response.
- **The persona agent** is the Python server behind that endpoint. It fills a fixed prompt template with:
  - the audience persona;
  - the brand context;
  - the user's question.

  It then builds the ordered content list for the generative model: the prompt, then an image, then a video. Every failure becomes HTTP 500. Its detail is fixed, or a fixed prefix followed by the error's message.

Modules:

- `Wrappers`: `Option` and `Result`.
- `Decimal`: the reading of the `content-length` header the way `parseInt` reads it. This is an optional sign followed by the leading decimal digits; no digits is NaN. It also has the decimal rendering a client writes, and proves that the parser reads a rendering back.
- `ChatRoute` has two forms of the handler:
  - `Handle` is a total function from abstract inputs to an *exchange*. The inputs are the header, the result of reading the form, the environment variable and the outcome of the upstream call. An exchange is the response plus the trace of effects: read form, arm timer, fetch, clear timer.
  - `Post` is the handler step by step. It has early returns, and it builds the outbound form by successive appends in `BuildForm`. The upstream call with its timer is in `CallAgent`. `Post` is proved to produce exactly `Handle`'s exchange.
- `ChatRouteProperties`: lemmas about `Handle`.
- `PersonaAgent`:
  - the prompt template as a `Template` value, with `Fill` (the `str.format` call) and its reader `Split`;
  - `ConstructPrompt`;
  - the content assembly, as the function `ContentParts` and as the method `AssembleContent`, which appends;
  - the two endpoints, `Chat` and `MultimodalChat`.
- `PersonaAgentProperties`: the layout of the prompt, the round trip `Split`/`Fill`, and the agreement of the two endpoints.

Environment and I/O become parameters:

- the `content-length` header, the parsed form and `AI_AGENT_URL` are inputs of `Handle`;
- the `fetch` result is an `UpstreamOutcome`:
  - `Responded` carries the status, the body as text, and the body decoded as JSON; either body is absent when reading it that way throws;
  - `Aborted` stands for the deadline firing;
  - `Failed` stands for any other rejection;
- whether `model` is configured is a boolean;
- the generative model is an oracle from content parts to text or a failure message;
- reading an upload gives its bytes or a failure message.

Where the code does less than one might expect of such an edge, the model follows the code:

- it has no 400 path and no empty-prompt check;
- the size gate trusts the declared header, and nothing limits the body while it streams;
- any 2xx reply from the agent is answered with status 200, not with the agent's own 2xx;
- the timer is cleared as soon as `fetch` resolves, so the deadline does not cover reading the reply's body;
- a 304 reply is not echoed: building a JSON error response with status 304 throws, and the outer handler answers with the generic 500.

## Model

| member | source | states |
|---|---|---|
| Decimal.ParseInt | apps/webapp/app/api/chat/route.ts:11 | `parseInt` of the header gives no number exactly when no digit follows the optional sign; a leading `-` gives a value ≤ 0, otherwise ≥ 0 |
| Decimal.ParseRender | apps/webapp/app/api/chat/route.ts:11 | a header made of an optional sign, any leading zeros, the rendering of `n` and a suffix that does not start with a digit (such as `.5`) is read as `n`, negated after a `-` |
| ChatRoute.Handle | apps/webapp/app/api/chat/route.ts:7-99 | gate ⇔ no effect at all, and then 413; past the gate the form is read first; the agent is contacted ⇔ gate passed, form read and URL configured; the effects are then read form, arm 55000 ms, fetch `url + "/chat/multimodal"` with the outbound form, clear timer, and the response is the outcome's mapping; otherwise the effects are the form read alone, and the response is 500 "Internal server error" for an unreadable form and 500 "not configured" for a missing URL |
| ChatRoute.BuildForm | apps/webapp/app/api/chat/route.ts:35-47 | the successive appends produce the outbound form: the three text fields in order, then `image` if truthy, then `video` if truthy |
| ChatRoute.CallAgent | apps/webapp/app/api/chat/route.ts:49-91 | the trace is arm timer (55000 ms), fetch, clear timer on every outcome, and the response is the outcome's mapping |
| ChatRoute.Settle | apps/webapp/app/api/chat/route.ts:61-98 | the agent's JSON is passed through, with status 200 and `no-store`, exactly for a 2xx reply (`ChatRoute.IsOk`: `Response.ok`, status 200 to 299) that decodes; a non-2xx reply whose body is read keeps its status with "Failed to get response from AI agent", except a 304 (`ChatRoute.NullBodyStatus`); a body that cannot be read, a 304, or a rejected `fetch` gives the generic 500; the deadline firing gives 504 "Request timeout. Please try again." |
| ChatRoute.Post | apps/webapp/app/api/chat/route.ts:7-99 | the step-by-step handler produces exactly `Handle`'s response and effect trace |
| ChatRouteProperties.DeclaredLengthGate | apps/webapp/app/api/chat/route.ts:10-16 | the size gate (`ChatRoute.TooLarge`) on a header declaring `n`, with an optional sign, leading zeros and a non-digit suffix: 413 "Request too large. Maximum 100MB." with the form never read ⇔ `n > 104857600` and the sign is not `-`; otherwise the form is read |
| ChatRouteProperties.OneByteTooMany | apps/webapp/app/api/chat/route.ts:10-16 | `content-length: 104857601` gives exactly the 413 response and no effect |
| ChatRouteProperties.NoNumberNoGate | apps/webapp/app/api/chat/route.ts:10-11 | an absent, empty or non-numeric header skips the gate and the form is read |
| ChatRouteProperties.ParseFailureBeforeConfiguration | apps/webapp/app/api/chat/route.ts:18-98 | a form that cannot be read gives 500 "Internal server error. Please try again later." after only the read, configured URL or not |
| ChatRouteProperties.MisconfigurationIgnoresRequest | apps/webapp/app/api/chat/route.ts:26-33 | without a configured URL (`ChatRoute.Configured`: `AI_AGENT_URL` set and not empty) every readable form gets 500 "AI agent service is not configured." whatever its fields and the upstream outcome, and no request is made |
| ChatRouteProperties.GetFirst | apps/webapp/app/api/chat/route.ts:20-24 | `formData.get` (`ChatRoute.Get`) finds a value ⇔ some entry has the name, and the value is the first such entry's |
| ChatRouteProperties.OutboundGet | apps/webapp/app/api/chat/route.ts:36-47 | `get` on the outbound form yields the appended text values (`ChatRoute.Appended`: a missing one as "null"), `image` and `video` only when truthy (`ChatRoute.Truthy`: present, and not the empty string), and nothing for any other name |
| ChatRouteProperties.OutboundFormNames | apps/webapp/app/api/chat/route.ts:36-47 | the outbound form's names are `user_prompt`, `brand_context`, `audience_summary`, then `image` if truthy, then `video` if truthy, and nothing else |
| ChatRouteProperties.ForwardingFidelity | apps/webapp/app/api/chat/route.ts:20-47 | the agent reads from the outbound form, for each field, the value the route read (a missing text field as "null"), the files only when truthy, and no other field |
| ChatRouteProperties.UpstreamBodyContained | apps/webapp/app/api/chat/route.ts:63-70 | a non-2xx reply other than 304 is answered with its own status and "Failed to get response from AI agent", whatever its body says |
| ChatRouteProperties.NotModifiedIsInternal | apps/webapp/app/api/chat/route.ts:63-97 | a 304 reply, whatever its body, gives the generic 500 "Internal server error. Please try again later." after the request was sent and the timer cleared |
| ChatRouteProperties.SuccessPassthrough | apps/webapp/app/api/chat/route.ts:72-79 | a 2xx reply (`ChatRoute.IsOk`) whose body decodes is answered with that JSON unchanged, status 200 and `Cache-Control: no-store`; one that does not decode gives the generic 500 |
| ChatRouteProperties.UnansweredUpstream | apps/webapp/app/api/chat/route.ts:80-98 | once the request is sent, the deadline firing gives 504 "Request timeout. Please try again." and any other rejection of `fetch` the generic 500, after arming the timer, sending and clearing the timer |
| ChatRouteProperties.ClosedResponseSurface | apps/webapp/app/api/chat/route.ts:7-99 | every response either passes the agent's 2xx JSON through with `no-store`, or is one of the five fixed error bodies with no header; its status is 200, 413, 500 or 504, or the non-2xx status, other than 304, of an agent reply whose body was read |
| ChatRouteProperties.DeadlineWithinPlatformLimit | apps/webapp/app/api/chat/route.ts:4-51 | every timer the handler arms is 55000 ms, below the 60 s platform limit |
| ChatRouteProperties.TextOnlyHappyPath | apps/webapp/app/api/chat/route.ts:36-79 | a text-only form with a configured URL and a 200 reply: the form is forwarded as it is and the reply's JSON is returned with `no-store` |
| PersonaAgent.Template.Fill | apps/ai-agent/main.py:106-110 | a filled template is as long as its fixed text plus the three values |
| PersonaAgent.ConstructPrompt | apps/ai-agent/main.py:76-110 | the prompt is the fixed template filled with the three values: its length is the template's plus the values', it opens with the persona heading and ends with the closing quote and newline |
| PersonaAgentProperties.PromptOrder | apps/ai-agent/main.py:88-103 | the audience summary stands at its place first, then the brand context at its place, and both come before where the user prompt starts, separated by fixed text |
| PersonaAgentProperties.QuestionQuoted | apps/ai-agent/main.py:101-104 | the user prompt stands right after `**User's Question:** "` and is followed by the closing `"` and a newline, at the end of the prompt |
| PersonaAgentProperties.SplitFill | apps/ai-agent/main.py:106-110 | for any template, reading a filled template at the values' places gives the values back |
| PersonaAgentProperties.SplitConstruct | apps/ai-agent/main.py:88-110 | the three values are read back out of `construct_prompt`'s result |
| PersonaAgentProperties.ConstructInjective | apps/ai-agent/main.py:88-110 | only the values vary: equal prompts from values of equal lengths come from equal values |
| PersonaAgent.MimeType | apps/ai-agent/main.py:221-230 | the MIME type is the upload's own content type when that is set and non-empty, otherwise the default, so it is never empty when the default is not |
| PersonaAgent.ContentParts | apps/ai-agent/main.py:213-232 | the content list is built ⇔ every upload can be read, and a failure carries the first failing read's message; its length is 1 + [image] + [video]; it starts with the prompt text, the image part comes second and the video part last; the image's MIME type is its content type when set and non-empty, otherwise "image/jpeg", and the video's likewise with "video/mp4" |
| PersonaAgent.AssembleContent | apps/ai-agent/main.py:213-232 | the conditional appends with their early failures produce exactly `ContentParts` |
| PersonaAgent.Chat | apps/ai-agent/main.py:139-173 | an unconfigured model gives 500 "Model not configured. Set GCLOUD_PROJECT environment variable."; every error is 500; the reply is the model's text ⇔ the model is configured and answers the one prompt part; a generation failure's detail is "Generation failed: " followed by its message |
| PersonaAgent.MultimodalChat | apps/ai-agent/main.py:176-243 | an unconfigured model gives the same fixed 500; every error is 500; the reply is the model's text ⇔ the model is configured, the content list of `ContentParts` is built and the model answers it; with a configured model a failure's detail is "Multimodal generation failed: " followed by the failing read's message, or else the generation's |
| PersonaAgentProperties.TextOnlyEndpointsAgree | apps/ai-agent/main.py:139-243 | without uploads both endpoints ask the model the same thing and succeed or fail together with the same answer; their failure details differ only in the prefix |

## Left out

- Real `fetch`, `AbortController`/`setTimeout` timing, the streaming of `request.formData()` and the bytes of files: these are asynchronous I/O. They become the inputs `FormParse` and `UpstreamOutcome`, and files are opaque values.
- `parseInt` beyond the leading decimal integer: leading whitespace, the `0x` prefix and the precision of very large numbers are not modelled. `Decimal.ParseInt` reads an optional sign and the digits that follow it.
- The second `clearTimeout` in the inner `catch` (route.ts:81), after the first one already ran for a body-read failure: clearing a cleared timer has no effect, so the trace records one `ClearTimer`.
- The `console.error` logging: it has no effect on the response.
- JSON bodies are kept abstract, with integer numbers only: the route never inspects them.
- The header that `NextResponse.json` adds implicitly (`content-type`) is not modelled: `headers` lists only the headers the route sets itself.
- FastAPI's request validation and the rendering of `HTTPException` as JSON: this is framework behaviour around the handlers. Validation answers 422 for a missing text field, and FastAPI may treat an empty text field (such as an empty `brand_context`) as missing too. `PersonaAgent.Chat` and `PersonaAgent.MultimodalChat` take the three text fields as given, so they build a prompt from an empty field where FastAPI may refuse the request first.
- Vertex AI (`vertexai.init`, `GenerativeModel`), the CORS middleware, the health endpoints and the uvicorn startup: these are foreign library calls and server plumbing. The model's configuration is a boolean and the model itself is an oracle.
- `PersonaAgent.Template.Split` accepts a prompt only when refilling the template with the values it read gives the prompt back. So the converse of the round trip (every accepted prompt is a filled template) holds by definition and is not a separate lemma.
- `apps/webapp/app/page.tsx`, `apps/webapp/components/AudienceSelector.tsx`, `apps/webapp/lib/database.types.ts` and `apps/webapp/next.config.js` are not part of this model. They hold UI state, a persona query with no ordering, generated types and build configuration.
