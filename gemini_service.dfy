/** The two calls into the generative-AI provider (services/geminiService.ts):
    the API-key guard, the request each call builds, the defensive removal of a
    markdown fence around the reply, and the error each failure surfaces as.
    The provider call and `JSON.parse` are parameters of the operations. */
module GeminiService {
  import opened Wrappers
  import opened Strings
  import opened Types

  const MissingApiKeyMessage := "API_KEY environment variable is not set."
  const ScrapeParseFailureMessage := "The AI failed to analyze the website URL correctly."
  const CritiqueParseFailureMessage := "The AI returned an invalid response format."

  const FlashModel := "gemini-2.5-flash"
  const ProModel := "gemini-2.5-pro"

  const JsonFence := "```json"
  const Fence := "```"

  /** The variable part of a request: an inline media part or a text part. */
  datatype Part = InlineData(mimeType: string, data: Option<string>) | Text(text: string)

  /** A content-generation request. Every request enables the search tool; only
      the critique request carries the fixed rubric as its system instruction. */
  datatype Request = Request(
    model: string,
    contents: seq<Part>,
    googleSearch: bool,
    rubricAsSystemInstruction: bool)

  /** What an operation did: the request it sent, if any, and how it settled. */
  datatype Call<T> = Call(sent: Option<Request>, result: Result<T, Thrown>)

  /** `process.env.API_KEY` is truthy: present and not empty. */
  predicate HasApiKey(apiKey: Option<string>) {
    apiKey.Some? && apiKey.value != ""
  }

  // ---------------------------------------------------------------------------
  // Fence stripping

  /** Drops a leading "```json" and then a trailing "```" from already trimmed
      text. The result is the slice of `t` that starts after the opener if there
      was one. */
  function DropFences(t: string): (r: string)
    ensures var i := if StartsWith(t, JsonFence) then |JsonFence| else 0;
      i + |r| <= |t| && r == t[i..i + |r|]
  {
    var afterOpener := if StartsWith(t, JsonFence) then t[|JsonFence|..] else t;
    if EndsWith(afterOpener, Fence) then afterOpener[..|afterOpener| - |Fence|] else afterOpener
  }

  /** The cleanup applied to every reply: trim surrounding whitespace, then drop the fences. */
  function StripFences(text: string): (r: string)
    ensures |r| <= |Trim(text)|
  {
    DropFences(Trim(text))
  }

  /** The cleanup as the source writes it: one local reassigned in three steps. */
  method CleanResponseText(responseText: string) returns (jsonString: string)
    ensures jsonString == StripFences(responseText)
  {
    jsonString := Trim(responseText);
    ghost var trimmed := jsonString;
    if StartsWith(jsonString, JsonFence) {
      jsonString := jsonString[7..];
    }
    if EndsWith(jsonString, Fence) {
      jsonString := jsonString[..|jsonString| - 3];
    }
    assert jsonString == DropFences(trimmed);
  }

  lemma BacktickNotWhitespace()
    ensures !IsJsWhitespace('`')
  {
  }

  /** A body fenced as "```json" ... "```" loses exactly its fences. */
  lemma DropFencesRoundTrip(body: string)
    ensures DropFences(JsonFence + body + Fence) == body
  {
    var s := JsonFence + body + Fence;
    assert s[..|JsonFence|] == JsonFence;
    var afterOpener := s[|JsonFence|..];
    assert afterOpener == body + Fence;
    assert afterOpener[|afterOpener| - |Fence|..] == Fence;
    assert afterOpener[..|afterOpener| - |Fence|] == body;
  }

  /** A body fenced as "```json" ... "```" comes back exactly, whatever it holds. */
  lemma FencedRoundTrip(body: string)
    ensures StripFences(JsonFence + body + Fence) == body
  {
    var s := JsonFence + body + Fence;
    BacktickNotWhitespace();
    assert s[0] == '`' && s[|s| - 1] == '`';
    TrimUnchanged(s);
    DropFencesRoundTrip(body);
  }

  /** Without either fence the trimmed text is passed on unchanged. */
  lemma UnfencedUnchanged(text: string)
    requires !StartsWith(Trim(text), JsonFence) && !EndsWith(Trim(text), Fence)
    ensures StripFences(text) == Trim(text)
  {
  }

  /** A fenced and an unfenced reply reach the parser as the same text. */
  lemma FencedLikeBare(body: string)
    requires Trim(body) == body && !StartsWith(body, JsonFence) && !EndsWith(body, Fence)
    ensures StripFences(JsonFence + body + Fence) == StripFences(body)
  {
    FencedRoundTrip(body);
    UnfencedUnchanged(body);
  }

  /** The whitespace JSON allows around a value: space, tab, line feed, carriage return. */
  predicate IsJsonWhitespace(c: char) {
    c == ' ' || c == '\t' || c == '\n' || c == '\r'
  }

  predicate AllJsonWhitespace(w: string) {
    forall i :: 0 <= i < |w| ==> IsJsonWhitespace(w[i])
  }

  /** What `JSON.parse` does with whitespace around its text: it ignores it. */
  ghost predicate IgnoresSurroundingWhitespace<T>(parse: string -> Option<T>) {
    forall w1: string, t: string, w2: string {:trigger parse(w1 + t + w2)} ::
      AllJsonWhitespace(w1) && AllJsonWhitespace(w2) ==> parse(w1 + t + w2) == parse(t)
  }

  /** Whitespace inside the fences survives the cleanup. */
  lemma FencedPaddedStrips(w1: string, body: string, w2: string)
    ensures StripFences(JsonFence + w1 + body + w2 + Fence) == w1 + body + w2
  {
    assert JsonFence + w1 + body + w2 + Fence == JsonFence + (w1 + body + w2) + Fence;
    FencedRoundTrip(w1 + body + w2);
  }

  lemma PaddingIgnored<T>(parse: string -> Option<T>, w1: string, body: string, w2: string)
    requires IgnoresSurroundingWhitespace(parse)
    requires AllJsonWhitespace(w1) && AllJsonWhitespace(w2)
    ensures parse(w1 + body + w2) == parse(body)
  {
  }

  /** A padded fenced reply reaches the parser as the padded body. */
  lemma PaddedReplyLikeBare<T>(parse: string -> Option<T>, w1: string, body: string, w2: string,
                               failureMessage: string)
    requires parse(w1 + body + w2) == parse(body)
    requires Trim(body) == body && !StartsWith(body, JsonFence) && !EndsWith(body, Fence)
    ensures ParseReply(parse, JsonFence + w1 + body + w2 + Fence, failureMessage)
         == ParseReply(parse, body, failureMessage)
  {
    FencedPaddedStrips(w1, body, w2);
    UnfencedUnchanged(body);
  }

  /** The usual fenced reply "```json\n{...}\n```", with any JSON whitespace inside
      the fences, parses exactly like the bare JSON text. */
  lemma FencedReplyParsesLikeBare<T>(parse: string -> Option<T>, w1: string, body: string, w2: string,
                                     failureMessage: string)
    requires IgnoresSurroundingWhitespace(parse)
    requires AllJsonWhitespace(w1) && AllJsonWhitespace(w2)
    requires Trim(body) == body && !StartsWith(body, JsonFence) && !EndsWith(body, Fence)
    ensures ParseReply(parse, JsonFence + w1 + body + w2 + Fence, failureMessage)
         == ParseReply(parse, body, failureMessage)
  {
    PaddingIgnored(parse, w1, body, w2);
    PaddedReplyLikeBare(parse, w1, body, w2, failureMessage);
  }

  lemma DropFencesBareOpener(body: string)
    requires !StartsWith(body, "json")
    ensures DropFences(Fence + body + Fence) == Fence + body
  {
    var s := Fence + body + Fence;
    if |s| >= |JsonFence| {
      if |body| >= 4 {
        assert s[..7][3..7] == body[..4];
      } else {
        var i := 3 + |body|;
        assert s[..7][i] == '`' != JsonFence[i];
      }
    }
    assert !StartsWith(s, JsonFence);
    assert s[|s| - |Fence|..] == Fence;
    assert s[..|s| - |Fence|] == Fence + body;
  }

  /** Only the "```json" opener is recognised: a bare "```" opener survives and
      only the closing fence is dropped. */
  lemma BareOpenerKept(body: string)
    requires !StartsWith(body, "json")
    ensures StripFences(Fence + body + Fence) == Fence + body
  {
    var s := Fence + body + Fence;
    BacktickNotWhitespace();
    assert s[0] == '`' && s[|s| - 1] == '`';
    TrimUnchanged(s);
    DropFencesBareOpener(body);
  }

  /** Stripping once is not the same as stripping twice: "``````" becomes "```" and then "". */
  lemma StripNotIdempotent()
    ensures StripFences(Fence + Fence) == Fence
    ensures StripFences(Fence) == []
  {
    BareOpenerKept([]);
    assert Fence + [] + Fence == Fence + Fence;
    assert Fence + [] == Fence;
    BacktickNotWhitespace();
    TrimUnchanged(Fence);
  }

  /** `JSON.parse` of the stripped reply, mapped to the operation's fixed message on failure. */
  function ParseReply<T>(parse: string -> Option<T>, replyText: string, failureMessage: string): (r: Result<T, Thrown>)
    ensures r.Success? <==> parse(StripFences(replyText)).Some?
    ensures r.Success? ==> r.value == parse(StripFences(replyText)).value
    ensures r.Failure? ==> r.error == ErrorValue(failureMessage)
  {
    match parse(StripFences(replyText))
    case Some(v) => Success(v)
    case None => Failure(ErrorValue(failureMessage))
  }

  // ---------------------------------------------------------------------------
  // Request building

  /** The model variant: the larger model for video, the faster one otherwise. */
  function ModelFor(mimeType: string): (m: string)
    ensures m == ProModel <==> StartsWith(mimeType, "video/")
    ensures m == FlashModel <==> !StartsWith(mimeType, "video/")
  {
    if StartsWith(mimeType, "video/") then ProModel else FlashModel
  }

  /** The base64 payload of a data URL: the second piece of `split(',')`, or
      `undefined` when the text holds no comma. */
  function DataUrlPayload(dataUrl: string): (payload: Option<string>)
    ensures payload.Some? ==> ',' !in payload.value
    ensures payload.Some? <==> ',' in dataUrl
  {
    var pieces := Split(dataUrl, ',');
    if |pieces| >= 2 then Some(pieces[1]) else None
  }

  /** For a "data:<type>;base64," header and a base64 body (neither holds a comma)
      the payload is exactly the body. */
  lemma PayloadOfDataUrl(header: string, body: string)
    requires ',' !in header && ',' !in body
    ensures DataUrlPayload(header + "," + body) == Some(body)
  {
    SplitJoin([header, body], ',');
    assert JoinWith([header, body], [',']) == header + "," + body;
  }

  /** Text without a comma has no payload. */
  lemma NoCommaNoPayload(text: string)
    requires ',' !in text
    ensures DataUrlPayload(text) == None
  {
    SplitWithoutSeparator(text, ',');
  }

  /** The label that immediately precedes each value in the prompt. */
  function PromptLabel(k: nat): string
    requires k < 6
  {
    ["[Name: ", "Personality: ", "Colors: ", "PLATFORM: [", "CONTENT DESCRIPTION: [", "COMPETITORS: ["][k]
  }

  /** The delimiter that immediately follows each value: a comma inside the BRAND bracket, else the closing bracket. */
  function PromptCloser(k: nat): string
    requires k < 6
  {
    if k < 2 then "," else "]"
  }

  /** What separates a delimiter from the next label: a space inside the BRAND bracket, else a new indented line. */
  function PromptGap(k: nat): string
    requires k < 6
  {
    if k < 2 then " " else "\n  "
  }

  const PromptIntro := "\n  Critique the following content based on these details:\n  BRAND: "

  /** The `k`-th literal chunk of the critique prompt template: the previous
      value's delimiter and gap (or the introduction), then the next value's label. */
  function PromptChunk(k: nat): string
    requires k < 7
  {
    var lead := if k == 0 then PromptIntro else PromptCloser(k - 1) + PromptGap(k - 1);
    lead + if k < 6 then PromptLabel(k) else ""
  }

  /** The literal chunks of the critique prompt template, around its six substitutions. */
  const PromptChunks: seq<string> := [
    PromptChunk(0), PromptChunk(1), PromptChunk(2), PromptChunk(3), PromptChunk(4), PromptChunk(5), PromptChunk(6)]

  /** The chunks spelled out: the template text of the source, with its line breaks
      and two-space indentation. */
  lemma PromptChunksText()
    ensures PromptChunks == [
      "\n  Critique the following content based on these details:\n  BRAND: [Name: ",
      ", Personality: ",
      ", Colors: ",
      "]\n  PLATFORM: [",
      "]\n  CONTENT DESCRIPTION: [",
      "]\n  COMPETITORS: [",
      "]\n  "]
  {
    assert PromptChunk(0) == "\n  Critique the following content based on these details:\n  BRAND: [Name: ";
    assert PromptChunk(1) == ", Personality: ";
    assert PromptChunk(2) == ", Colors: ";
    assert PromptChunk(3) == "]\n  PLATFORM: [";
    assert PromptChunk(4) == "]\n  CONTENT DESCRIPTION: [";
    assert PromptChunk(5) == "]\n  COMPETITORS: [";
    assert PromptChunk(6) == "]\n  ";
  }

  /** The six substituted values, in template order. */
  function PromptValues(brandInfo: BrandInfo, contentDescription: string): (vals: seq<string>)
  {
    [brandInfo.name, brandInfo.personality, brandInfo.colors, brandInfo.platform,
     contentDescription, brandInfo.competitors]
  }

  /** buildFullPrompt: the prompt opens with the first chunk (the critique
      instruction and "BRAND: [Name: ") and closes with the last one (the
      COMPETITORS bracket and the trailing indentation). */
  function BuildFullPrompt(brandInfo: BrandInfo, contentDescription: string): (prompt: string)
    ensures StartsWith(prompt, PromptChunk(0)) && EndsWith(prompt, PromptChunk(6))
  {
    FillStartsWithFirstChunk(PromptChunks, PromptValues(brandInfo, contentDescription));
    FillEndsWithLastChunk(PromptChunks, PromptValues(brandInfo, contentDescription));
    Fill(PromptChunks, PromptValues(brandInfo, contentDescription))
  }

  lemma PromptChunksFrameFields(k: nat)
    requires k < 6
    ensures |PromptLabel(k)| <= |PromptChunks[k]|
    ensures PromptChunks[k][|PromptChunks[k]| - |PromptLabel(k)|..] == PromptLabel(k)
    ensures |PromptCloser(k)| <= |PromptChunks[k + 1]|
    ensures PromptChunks[k + 1][..|PromptCloser(k)|] == PromptCloser(k)
  {
    var lead := if k == 0 then PromptIntro else PromptCloser(k - 1) + PromptGap(k - 1);
    assert PromptChunks[k] == lead + PromptLabel(k);
    var nextLabel := if k + 1 < 6 then PromptLabel(k + 1) else "";
    assert PromptChunks[k + 1] == PromptCloser(k) + PromptGap(k) + nextLabel;
    assert (PromptCloser(k) + PromptGap(k) + nextLabel)[..|PromptCloser(k)|] == PromptCloser(k);
  }

  /** Each of name, personality, colors, platform, description and competitors
      appears verbatim in the prompt, right after its label and right before its
      delimiter, and each one after the previous. */
  lemma PromptShowsField(brandInfo: BrandInfo, contentDescription: string, k: nat)
    requires k < 6
    ensures var p, vals := BuildFullPrompt(brandInfo, contentDescription), PromptValues(brandInfo, contentDescription);
      var i := SlotStart(PromptChunks, vals, k);
      && |PromptLabel(k)| <= i && i + |vals[k]| + |PromptCloser(k)| <= |p|
      && p[i - |PromptLabel(k)|..i] == PromptLabel(k)
      && p[i..i + |vals[k]|] == vals[k]
      && p[i + |vals[k]|..i + |vals[k]| + |PromptCloser(k)|] == PromptCloser(k)
      && (k < 5 ==> i + |vals[k]| < SlotStart(PromptChunks, vals, k + 1))
  {
    var vals := PromptValues(brandInfo, contentDescription);
    PromptChunksFrameFields(k);
    FillSlotFramed(PromptChunks, vals, k, PromptLabel(k), PromptCloser(k));
    if k < 5 {
      SlotStartNext(PromptChunks, vals, k);
    }
  }

  // ---------------------------------------------------------------------------
  // The two operations

  const ScrapePromptHead := "You are an expert brand strategist AI. Your task is to perform a deep analysis of the website at the following URL: "
  const ScrapePromptTail := " and synthesize its core brand DNA into a structured JSON object. Go beyond simple text extraction. Analyze the language, tone, visuals, and messaging to derive the brand's identity.\n\n1.  **Brand Name:** Find the official brand name.\n2.  **Personality/Motto:** Scour the homepage, \"About Us\" section, and headlines. Identify taglines, mission statements, and the overall tone of voice (e.g., \"Playful,\" \"Authoritative,\" \"Minimalist,\" \"Disruptive\"). Synthesize this into a concise personality description.\n3.  **Brand Colors:** Identify the 2-3 most dominant colors used in the design. Prioritize colors used for logos, buttons, and headlines.\n4.  **Competitors:** Based on the products, services, and industry, infer 2-3 of the brand's most likely direct competitors.\n5.  **Platform:** Default this to 'TikTok' as it's the primary target for this app's critique.\n\nYou MUST return ONLY the raw, valid JSON object. Do not include any other text or markdown formatting. The JSON schema should be:\n{\n  \"name\": \"string\",\n  \"personality\": \"string\",\n  \"colors\": \"string\",\n  \"platform\": \"string\",\n  \"competitors\": \"string\"\n}"

  /** The URL-analysis request: the faster model with search and no rubric, and a
      single text part holding the instruction with the URL spliced in. */
  function ScrapeRequest(url: string): (r: Request)
    ensures r.model == FlashModel && r.googleSearch && !r.rubricAsSystemInstruction
    ensures |r.contents| == 1 && r.contents[0].Text?
    ensures var t, h := r.contents[0].text, |ScrapePromptHead|;
      && StartsWith(t, ScrapePromptHead) && EndsWith(t, ScrapePromptTail)
      && h + |url| <= |t| && t[h..h + |url|] == url
  {
    var lits, vals := [ScrapePromptHead, ScrapePromptTail], [url];
    FillSlot(lits, vals, 0);
    FillEndsWithLastChunk(lits, vals);
    Request(FlashModel, [Text(Fill(lits, vals))], true, false)
  }

  /** The critique request: the larger model exactly for video, search on, the rubric
      as system instruction, and two parts: the media first, then the prompt. */
  function CritiqueRequest(file: File, payload: Option<string>, brandInfo: BrandInfo, contentDescription: string): (r: Request)
    ensures r.model == ProModel <==> StartsWith(file.mimeType, "video/")
    ensures r.model == FlashModel <==> !StartsWith(file.mimeType, "video/")
    ensures r.googleSearch && r.rubricAsSystemInstruction
    ensures |r.contents| == 2 && r.contents[0] == InlineData(file.mimeType, payload)
    ensures r.contents[1] == Text(BuildFullPrompt(brandInfo, contentDescription))
  {
    Request(ModelFor(file.mimeType),
            [InlineData(file.mimeType, payload), Text(BuildFullPrompt(brandInfo, contentDescription))],
            true, true)
  }

  /** scrapeBrandInfo: with no key it fails before any request; otherwise it sends the
      URL-analysis request, passes a transport failure through, and parses the
      stripped reply, a parse failure surfacing as the fixed scrape message. */
  function ScrapeBrandInfo(apiKey: Option<string>, url: string,
                           generate: Request -> Result<string, Thrown>,
                           parse: string -> Option<BrandInfo>): (c: Call<BrandInfo>)
    ensures !HasApiKey(apiKey) ==> c == Call(None, Failure(ErrorValue(MissingApiKeyMessage)))
    ensures HasApiKey(apiKey) ==> c.sent == Some(ScrapeRequest(url))
    ensures HasApiKey(apiKey) && generate(ScrapeRequest(url)).Failure? ==>
              c.result == Failure(generate(ScrapeRequest(url)).error)
    ensures HasApiKey(apiKey) && generate(ScrapeRequest(url)).Success? ==>
              c.result == ParseReply(parse, generate(ScrapeRequest(url)).value, ScrapeParseFailureMessage)
  {
    if !HasApiKey(apiKey) then Call(None, Failure(ErrorValue(MissingApiKeyMessage)))
    else
      var request := ScrapeRequest(url);
      match generate(request)
      case Failure(e) => Call(Some(request), Failure(e))
      case Success(text) => Call(Some(request), ParseReply(parse, text, ScrapeParseFailureMessage))
  }

  /** getCritique: with no key it fails before any request; otherwise it reads the
      file (a read failure rejects with a non-Error value and sends nothing), sends
      the critique request built from the file, the payload and the prompt, passes
      a transport failure through, and parses the stripped reply, a parse failure
      surfacing as the fixed critique message. */
  function GetCritique(apiKey: Option<string>, file: File, readAsDataUrl: Option<string>,
                       brandInfo: BrandInfo, contentDescription: string,
                       generate: Request -> Result<string, Thrown>,
                       parse: string -> Option<CritiqueResult>): (c: Call<CritiqueResult>)
    ensures !HasApiKey(apiKey) ==> c == Call(None, Failure(ErrorValue(MissingApiKeyMessage)))
    ensures HasApiKey(apiKey) && readAsDataUrl.None? ==> c == Call(None, Failure(OtherValue))
    ensures HasApiKey(apiKey) && readAsDataUrl.Some? ==>
              var request := CritiqueRequest(file, DataUrlPayload(readAsDataUrl.value), brandInfo, contentDescription);
              && c.sent == Some(request)
              && (generate(request).Failure? ==> c.result == Failure(generate(request).error))
              && (generate(request).Success? ==>
                    c.result == ParseReply(parse, generate(request).value, CritiqueParseFailureMessage))
  {
    if !HasApiKey(apiKey) then Call(None, Failure(ErrorValue(MissingApiKeyMessage)))
    else
      match readAsDataUrl
      case None => Call(None, Failure(OtherValue))
      case Some(dataUrl) =>
        var request := CritiqueRequest(file, DataUrlPayload(dataUrl), brandInfo, contentDescription);
        match generate(request)
        case Failure(e) => Call(Some(request), Failure(e))
        case Success(text) => Call(Some(request), ParseReply(parse, text, CritiqueParseFailureMessage))
  }

  /** Without a key neither operation consults the provider: its answers make no difference. */
  lemma NoKeyIgnoresProvider(apiKey: Option<string>, url: string, file: File, read: Option<string>,
                             brandInfo: BrandInfo, contentDescription: string,
                             g1: Request -> Result<string, Thrown>, g2: Request -> Result<string, Thrown>,
                             parseBrand: string -> Option<BrandInfo>, parseCritique: string -> Option<CritiqueResult>)
    requires !HasApiKey(apiKey)
    ensures ScrapeBrandInfo(apiKey, url, g1, parseBrand) == ScrapeBrandInfo(apiKey, url, g2, parseBrand)
    ensures GetCritique(apiKey, file, read, brandInfo, contentDescription, g1, parseCritique)
         == GetCritique(apiKey, file, read, brandInfo, contentDescription, g2, parseCritique)
  {
  }
}
