/** What the persona agent promises, proved about `PersonaAgent`: the layout
    of the prompt, reading the three values back out of it, and the
    agreement of the two chat endpoints on text-only requests. */
module PersonaAgentProperties {

  import opened Wrappers
  import opened PersonaAgent

  /** Cutting `x` off the front of the suffix of `p` that starts at `i`. */
  lemma Cut(p: string, i: nat, x: string, rest: string)
    requires i <= |p| && p[i..] == x + rest
    ensures p[i..i + |x|] == x && p[i + |x|..] == rest
  {
    assert p[i..i + |x|] == p[i..][..|x|];
    assert p[i + |x|..] == p[i..][|x|..];
  }

  /** The slices of `p == s0 + (x + (s1 + (y + (s2 + (z + s3)))))`: the
      three values, the piece before the last one and the end. */
  lemma Slices(p: string, s0: string, x: string, s1: string, y: string, s2: string, z: string, s3: string)
    requires p == s0 + (x + (s1 + (y + (s2 + (z + s3)))))
    ensures var a := |s0|;
      var b := a + |x| + |s1|;
      var u := b + |y| + |s2|;
      && |p| == u + |z| + |s3|
      && p[a..a + |x|] == x
      && p[b..b + |y|] == y && p[b + |y|..u] == s2
      && p[u..u + |z|] == z && p[u + |z|..] == s3 && p[u..] == z + s3
  {
    var r3 := z + s3;
    var r2 := s2 + r3;
    var r1 := y + r2;
    var r0 := s1 + r1;
    var a := |s0|;
    var b := a + |x| + |s1|;
    var u := b + |y| + |s2|;
    assert p[a..] == x + r0;
    assert p[a..a + |x|] == x && p[a + |x|..] == r0 by { Cut(p, a, x, r0); }
    assert p[b..] == r1 by { Cut(p, a + |x|, s1, r1); }
    assert p[b..b + |y|] == y && p[b + |y|..] == r2 by { Cut(p, b, y, r2); }
    assert p[b + |y|..u] == s2 && p[u..] == r3 by { Cut(p, b + |y|, s2, r3); }
    assert p[u..u + |z|] == z && p[u + |z|..] == s3 by { Cut(p, u, z, s3); }
  }

  /** The three values of `p == s0 + (x + (s1 + (y + (s2 + (z + s3)))))`. */
  lemma ValueSlices(p: string, s0: string, x: string, s1: string, y: string, s2: string, z: string, s3: string)
    requires p == s0 + (x + (s1 + (y + (s2 + (z + s3)))))
    ensures var a := |s0|;
      var b := a + |x| + |s1|;
      var u := b + |y| + |s2|;
      && |p| == u + |z| + |s3|
      && p[a..a + |x|] == x && p[b..b + |y|] == y && p[u..u + |z|] == z
  {
    Slices(p, s0, x, s1, y, s2, z, s3);
  }

  /** In a filled template the audience summary comes first, then the brand
      context, then the user prompt, and the closing text ends it. */
  lemma FillOrder(t: Template, userPrompt: string, brandContext: string, audienceSummary: string)
    requires t.brandHeading != [] && t.instructions != []
    ensures var p := t.Fill(userPrompt, brandContext, audienceSummary);
      var a := t.AudienceStart();
      var b := t.BrandStart(|audienceSummary|);
      var u := t.QuestionStart(|audienceSummary|, |brandContext|);
      && a + |audienceSummary| < b && b + |brandContext| < u
      && u + |userPrompt| + |t.closing| == |p|
      && p[a..a + |audienceSummary|] == audienceSummary
      && p[b..b + |brandContext|] == brandContext
      && p[u..u + |userPrompt|] == userPrompt
      && p[u + |userPrompt|..] == t.closing
      && p[u..] == userPrompt + t.closing
  {
    Slices(t.Fill(userPrompt, brandContext, audienceSummary), t.personaHeading, audienceSummary, t.brandHeading, brandContext, t.QuestionHeading(), userPrompt, t.closing);
  }

  /** In a filled template the user prompt stands right after the question
      marker. */
  lemma FillMarker(t: Template, userPrompt: string, brandContext: string, audienceSummary: string)
    ensures var p := t.Fill(userPrompt, brandContext, audienceSummary);
      var u := t.QuestionStart(|audienceSummary|, |brandContext|);
      |t.questionMarker| <= u && p[u - |t.questionMarker|..u] == t.questionMarker
  {
    var p := t.Fill(userPrompt, brandContext, audienceSummary);
    var h := t.BrandStart(|audienceSummary|) + |brandContext|;
    var u := t.QuestionStart(|audienceSummary|, |brandContext|);
    Slices(t.Fill(userPrompt, brandContext, audienceSummary), t.personaHeading, audienceSummary, t.brandHeading, brandContext, t.QuestionHeading(), userPrompt, t.closing);
    assert p[h..u] == t.instructions + t.questionMarker;
    assert p[u - |t.questionMarker|..u] == p[h..u][|t.instructions|..];
  }

  /** The values a template was filled with are read back out of it. */
  lemma SplitFill(t: Template, userPrompt: string, brandContext: string, audienceSummary: string)
    ensures t.Split(t.Fill(userPrompt, brandContext, audienceSummary), |audienceSummary|, |brandContext|) ==
      Some(ChatRequest(userPrompt, brandContext, audienceSummary))
  {
    var p := t.Fill(userPrompt, brandContext, audienceSummary);
    var a := t.AudienceStart();
    var b := t.BrandStart(|audienceSummary|);
    var u := t.QuestionStart(|audienceSummary|, |brandContext|);
    ValueSlices(p, t.personaHeading, audienceSummary, t.brandHeading, brandContext, t.QuestionHeading(), userPrompt, t.closing);
    assert ChatRequest(p[u..|p| - |t.closing|], p[b..b + |brandContext|], p[a..a + |audienceSummary|]) ==
      ChatRequest(userPrompt, brandContext, audienceSummary);
  }

  /** `construct_prompt` puts the audience summary first, then the brand
      context, then the user prompt, each separated from the next by fixed
      text. */
  lemma PromptOrder(userPrompt: string, brandContext: string, audienceSummary: string)
    ensures var p := ConstructPrompt(userPrompt, brandContext, audienceSummary);
      var a := PROMPT_TEMPLATE.AudienceStart();
      var b := PROMPT_TEMPLATE.BrandStart(|audienceSummary|);
      var u := PROMPT_TEMPLATE.QuestionStart(|audienceSummary|, |brandContext|);
      && a + |audienceSummary| < b && b + |brandContext| < u
      && p[a..a + |audienceSummary|] == audienceSummary
      && p[b..b + |brandContext|] == brandContext
  {
    assert |SECTION_BREAK| == 6;
    FillOrder(PROMPT_TEMPLATE, userPrompt, brandContext, audienceSummary);
  }

  /** The prompt ends with the user prompt wrapped in double quotes, right
      after `**User's Question:** ` (the marker ends with the opening quote),
      and a final newline. */
  lemma QuestionQuoted(userPrompt: string, brandContext: string, audienceSummary: string)
    ensures var p := ConstructPrompt(userPrompt, brandContext, audienceSummary);
      var u := PROMPT_TEMPLATE.QuestionStart(|audienceSummary|, |brandContext|);
      && p[u - |QUESTION_MARKER|..u] == QUESTION_MARKER
      && p[u..] == userPrompt + CLOSING
  {
    assert |SECTION_BREAK| == 6;
    FillOrder(PROMPT_TEMPLATE, userPrompt, brandContext, audienceSummary);
    FillMarker(PROMPT_TEMPLATE, userPrompt, brandContext, audienceSummary);
  }

  /** The values given to `construct_prompt` are read back out of its
      result. */
  lemma SplitConstruct(userPrompt: string, brandContext: string, audienceSummary: string)
    ensures PROMPT_TEMPLATE.Split(ConstructPrompt(userPrompt, brandContext, audienceSummary),
                                  |audienceSummary|, |brandContext|) ==
      Some(ChatRequest(userPrompt, brandContext, audienceSummary))
  {
    SplitFill(PROMPT_TEMPLATE, userPrompt, brandContext, audienceSummary);
  }

  /** Only the three values vary: two prompts built from values of the same
      lengths are equal only when the values are. */
  lemma ConstructInjective(userPrompt1: string, brandContext1: string, audienceSummary1: string,
                           userPrompt2: string, brandContext2: string, audienceSummary2: string)
    requires |brandContext1| == |brandContext2| && |audienceSummary1| == |audienceSummary2|
    requires ConstructPrompt(userPrompt1, brandContext1, audienceSummary1) ==
             ConstructPrompt(userPrompt2, brandContext2, audienceSummary2)
    ensures userPrompt1 == userPrompt2 && brandContext1 == brandContext2 && audienceSummary1 == audienceSummary2
  {
    SplitConstruct(userPrompt1, brandContext1, audienceSummary1);
    SplitConstruct(userPrompt2, brandContext2, audienceSummary2);
  }

  /** Without uploads the multimodal endpoint asks the model exactly what the
      text-only endpoint asks and returns the same answer; the two differ
      only in the prefix of a failure's detail. */
  lemma TextOnlyEndpointsAgree(modelConfigured: bool, generate: seq<Part> -> Result<string>,
                               request: ChatRequest)
    ensures var text := Chat(modelConfigured, generate, request);
      var multi := MultimodalChat(modelConfigured, generate, request.userPrompt,
                                  request.brandContext, request.audienceSummary, None, None);
      && (text.ChatResponse? <==> multi.ChatResponse?)
      && (text.ChatResponse? ==> text == multi)
      && (modelConfigured && text.HttpError? ==>
            text.detail[|GENERATION_FAILED|..] == multi.detail[|MULTIMODAL_FAILED|..])
  {
    var prompt := ConstructPrompt(request.userPrompt, request.brandContext, request.audienceSummary);
    assert UploadParts(None, DEFAULT_IMAGE_TYPE) == [] && UploadParts(None, DEFAULT_VIDEO_TYPE) == [];
    assert [PromptPart(prompt)] + [] + [] == [PromptPart(prompt)];
  }
}
