/** The persona agent server: the prompt template that turns a question, a
    brand context and a persona summary into the model's instructions, the
    ordered content parts of a multimodal request, and the error mapping of
    the two chat endpoints (`POST /chat` and `POST /chat/multimodal`).

    The generative model is an oracle: a function from the content parts to
    either the generated text or a failure message. */
module PersonaAgent {

  import opened Wrappers

  // The fixed text of the prompt template around its three substitutions.
  const PERSONA_HEADING: string :=
    "You are a creative testing and surveying chatbot acting as a specific consumer persona.\n" +
    "Your persona is defined by the following summary:\n" +
    "---\n" +
    "**Audience Persona:**\n"
  const SECTION_BREAK: string := "\n---\n\n"
  const BRAND_HEADING: string :=
    SECTION_BREAK +
    "You are being asked for feedback on a brand. Here is the context for the brand:\n" +
    "---\n" +
    "**Brand Context:**\n"
  const INSTRUCTIONS: string :=
    SECTION_BREAK +
    "Now, please respond to the following question or statement from the user, keeping your persona " +
    "and the brand context in mind at all times. Be authentic, detailed, and stay in character.\n\n"
  const QUESTION_MARKER: string := "**User's Question:** \""
  const CLOSING: string := "\"\n"

  /** The template of `construct_prompt`. */
  const PROMPT_TEMPLATE: Template := Template(PERSONA_HEADING, BRAND_HEADING, INSTRUCTIONS, QUESTION_MARKER, CLOSING)

  const MODEL_NOT_CONFIGURED: string := "Model not configured. Set GCLOUD_PROJECT environment variable."
  const GENERATION_FAILED: string := "Generation failed: "
  const MULTIMODAL_FAILED: string := "Multimodal generation failed: "
  const DEFAULT_IMAGE_TYPE: string := "image/jpeg"
  const DEFAULT_VIDEO_TYPE: string := "video/mp4"

  /** The body of `POST /chat`. */
  datatype ChatRequest = ChatRequest(userPrompt: string, brandContext: string, audienceSummary: string)

  /** An uploaded file: reading it gives its bytes or raises an error with a
      message; its declared content type may be missing. */
  datatype UploadFile = UploadFile(content: Result<seq<bv8>>, contentType: Option<string>)

  /** One element of the content list given to the model. */
  datatype Part = PromptPart(text: string) | DataPart(data: seq<bv8>, mimeType: string)

  /** A reply of either endpoint: the persona's answer, or an HTTP error with
      its status and detail. */
  datatype Reply = ChatResponse(agentResponse: string) | HttpError(status: int, detail: string)

  /** A prompt template: the fixed text before, between and after its three
      substitutions, which are the audience summary, the brand context and
      the user prompt in that order. The question heading is the
      instructions followed by the marker that opens the quoted user prompt. */
  datatype Template = Template(personaHeading: string, brandHeading: string, instructions: string,
                               questionMarker: string, closing: string)
  {
    function QuestionHeading(): string { instructions + questionMarker }

    /** The number of characters the template contributes itself. */
    function Length(): nat { |personaHeading| + |brandHeading| + |QuestionHeading()| + |closing| }

    // Where the three values start in a filled template.
    function AudienceStart(): nat { |personaHeading| }
    function BrandStart(audienceLength: nat): nat { AudienceStart() + audienceLength + |brandHeading| }
    function QuestionStart(audienceLength: nat, brandLength: nat): nat {
      BrandStart(audienceLength) + brandLength + |QuestionHeading()|
    }

    /** `str.format` on the template: each value is substituted verbatim
        (braces inside a value are not interpreted). */
    function Fill(userPrompt: string, brandContext: string, audienceSummary: string): (p: string)
      ensures |p| == Length() + |audienceSummary| + |brandContext| + |userPrompt|
    {
      personaHeading + (audienceSummary + (brandHeading + (brandContext + (QuestionHeading() + (userPrompt + closing)))))
    }

    /** Reads the three values back out of a prompt, given the lengths of the
        audience summary and the brand context: they are the text at their
        places, and the prompt is accepted only when the template filled
        with them gives the prompt back (so every accepted prompt is a
        filled template); `None` otherwise. */
    function Split(p: string, audienceLength: nat, brandLength: nat): Option<ChatRequest> {
      var a := AudienceStart();
      var b := BrandStart(audienceLength);
      var u := QuestionStart(audienceLength, brandLength);
      if |p| < u + |closing| then None
      else
        var read := ChatRequest(p[u..|p| - |closing|], p[b..b + brandLength], p[a..a + audienceLength]);
        if Fill(read.userPrompt, read.brandContext, read.audienceSummary) == p then Some(read) else None
    }
  }

  /** `construct_prompt`: the fixed template filled with the three values,
      and nothing else varies. */
  function ConstructPrompt(userPrompt: string, brandContext: string, audienceSummary: string): (p: string)
    ensures |p| == PROMPT_TEMPLATE.Length() + |audienceSummary| + |brandContext| + |userPrompt|
    ensures p[..|PERSONA_HEADING|] == PERSONA_HEADING
    ensures p[|p| - |CLOSING|..] == CLOSING
  {
    PROMPT_TEMPLATE.Fill(userPrompt, brandContext, audienceSummary)
  }

  /** A content type that is missing or empty falls back to the default, so
      a part never goes out with an empty MIME type. */
  function MimeType(contentType: Option<string>, fallback: string): (m: string)
    ensures contentType.Some? && contentType.value != "" ==> m == contentType.value
    ensures (contentType.None? || contentType.value == "") ==> m == fallback
    ensures fallback != "" ==> m != ""
  {
    if contentType.Some? && contentType.value != "" then contentType.value else fallback
  }

  /** The part for an upload that was read, if there is one. */
  function UploadParts(upload: Option<UploadFile>, fallback: string): seq<Part>
    requires upload.Some? ==> upload.value.content.Ok?
  {
    if upload.Some? then [DataPart(upload.value.content.value, MimeType(upload.value.contentType, fallback))] else []
  }

  /** The content list of a multimodal request: the prompt text, then the
      image if one was uploaded, then the video if one was uploaded. Reading
      an upload may raise; the image is read before the video. */
  function ContentParts(prompt: string, image: Option<UploadFile>, video: Option<UploadFile>): (r: Result<seq<Part>>)
    ensures r.Ok? <==> (image.None? || image.value.content.Ok?) && (video.None? || video.value.content.Ok?)
    ensures r.Err? ==>
      (r.message == if image.Some? && image.value.content.Err? then image.value.content.message
                    else video.value.content.message)
    ensures r.Ok? ==>
      && |r.value| == 1 + (if image.Some? then 1 else 0) + (if video.Some? then 1 else 0)
      && r.value[0] == PromptPart(prompt)
      && (image.Some? ==> r.value[1] == DataPart(image.value.content.value,
            if image.value.contentType.Some? && image.value.contentType.value != ""
            then image.value.contentType.value else "image/jpeg"))
      && (video.Some? ==> r.value[|r.value| - 1] == DataPart(video.value.content.value,
            if video.value.contentType.Some? && video.value.contentType.value != ""
            then video.value.contentType.value else "video/mp4"))
  {
    if image.Some? && image.value.content.Err? then Err(image.value.content.message)
    else if video.Some? && video.value.content.Err? then Err(video.value.content.message)
    else Ok([PromptPart(prompt)] + UploadParts(image, DEFAULT_IMAGE_TYPE) + UploadParts(video, DEFAULT_VIDEO_TYPE))
  }

  /** The content list built by successive appends, stopping at the first
      upload that cannot be read. */
  method AssembleContent(prompt: string, image: Option<UploadFile>, video: Option<UploadFile>)
    returns (r: Result<seq<Part>>)
    ensures r == ContentParts(prompt, image, video)
  {
    var parts := [PromptPart(prompt)];
    if image.Some? {
      if image.value.content.Err? {
        return Err(image.value.content.message);
      }
      parts := parts + [DataPart(image.value.content.value, MimeType(image.value.contentType, DEFAULT_IMAGE_TYPE))];
    }
    if video.Some? {
      if video.value.content.Err? {
        return Err(video.value.content.message);
      }
      parts := parts + [DataPart(video.value.content.value, MimeType(video.value.contentType, DEFAULT_VIDEO_TYPE))];
    }
    assert parts == [PromptPart(prompt)] + UploadParts(image, DEFAULT_IMAGE_TYPE) + UploadParts(video, DEFAULT_VIDEO_TYPE);
    return Ok(parts);
  }

  /** `chat_handler`: the text-only endpoint. */
  function Chat(modelConfigured: bool, generate: seq<Part> -> Result<string>, request: ChatRequest): (r: Reply)
    ensures !modelConfigured ==> r == HttpError(500, MODEL_NOT_CONFIGURED)
    ensures r.HttpError? ==> r.status == 500
    // The model is asked with the one prompt part; its text is the answer,
    // and its failure message follows the fixed prefix.
    ensures var answer := generate([PromptPart(ConstructPrompt(request.userPrompt, request.brandContext,
                                                                request.audienceSummary))]);
      && (r.ChatResponse? <==> modelConfigured && answer.Ok?)
      && (r.ChatResponse? ==> r.agentResponse == answer.value)
      && (modelConfigured && r.HttpError? ==>
            |GENERATION_FAILED| <= |r.detail| && r.detail[..|GENERATION_FAILED|] == GENERATION_FAILED &&
            r.detail[|GENERATION_FAILED|..] == answer.message)
  {
    if !modelConfigured then HttpError(500, MODEL_NOT_CONFIGURED)
    else
      var prompt := ConstructPrompt(request.userPrompt, request.brandContext, request.audienceSummary);
      match generate([PromptPart(prompt)])
      case Ok(text) => ChatResponse(text)
      case Err(message) => HttpError(500, GENERATION_FAILED + message)
  }

  /** `multimodal_chat_handler`: the endpoint the web app calls. */
  function MultimodalChat(modelConfigured: bool, generate: seq<Part> -> Result<string>,
                          userPrompt: string, brandContext: string, audienceSummary: string,
                          image: Option<UploadFile>, video: Option<UploadFile>): (r: Reply)
    ensures !modelConfigured ==> r == HttpError(500, MODEL_NOT_CONFIGURED)
    ensures r.HttpError? ==> r.status == 500
    // The model is asked with the content list; its text is the answer, and
    // the message of the failing read or generation follows the fixed prefix.
    ensures var parts := ContentParts(ConstructPrompt(userPrompt, brandContext, audienceSummary), image, video);
      && (r.ChatResponse? <==> modelConfigured && parts.Ok? && generate(parts.value).Ok?)
      && (r.ChatResponse? ==> r.agentResponse == generate(parts.value).value)
      && (modelConfigured && r.HttpError? ==>
            |MULTIMODAL_FAILED| <= |r.detail| && r.detail[..|MULTIMODAL_FAILED|] == MULTIMODAL_FAILED &&
            r.detail[|MULTIMODAL_FAILED|..] == if parts.Err? then parts.message else generate(parts.value).message)
  {
    if !modelConfigured then HttpError(500, MODEL_NOT_CONFIGURED)
    else
      var prompt := ConstructPrompt(userPrompt, brandContext, audienceSummary);
      match ContentParts(prompt, image, video)
      case Err(message) => HttpError(500, MULTIMODAL_FAILED + message)
      case Ok(parts) =>
        match generate(parts)
        case Ok(text) => ChatResponse(text)
        case Err(message) => HttpError(500, MULTIMODAL_FAILED + message)
  }
}
