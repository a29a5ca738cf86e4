/**
 * The image-generation service: the prompt it derives from the music's tempo,
 * theme and mood transitions, the checks it applies to the image API's
 * answers, and the two calls that use them (one scene image, then its
 * variations). The image proxy and the image API are oracles.
 */
module ImageGeneratorService {
  import opened JsValues
  import opened FormDataModel

  const DynamicTempo := "dynamic and energetic"
  const BalancedTempo := "balanced and flowing"
  const CalmTempo := "calm and measured"
  const VibrantStyle := "vibrant colors, dynamic composition, strong contrast"
  const SoftStyle := "soft colors, gentle transitions, subtle harmony"
  const TransitionsLead := "The scene should smoothly transition between moods: "
  const NoImagesMessage := "No images returned from the API"
  const NoVariationsMessage := "No variations returned from the API"
  const ApiErrorLead := "OpenAI API Error: "
  const ProxyErrorLead := "Failed to fetch image through proxy: "

  datatype Quality = Standard | Hd
  datatype Resolution = Square | Landscape | Portrait

  /** The `size` string the API expects for a resolution. */
  function ResolutionText(r: Resolution): (size: string)
    ensures |size| == 9 && size[4] == 'x'
  {
    match r
    case Square => "1024x1024"
    case Landscape => "1792x1024"
    case Portrait => "1024x1792"
  }

  datatype MoodTransition = MoodTransition(from: string, to: string, time: real)

  /** `GenerateSceneImageOptions`; `tempo` and `moodTransitions` may be absent. */
  datatype SceneImageOptions = SceneImageOptions(
    quality: Quality,
    resolution: Resolution,
    theme: string,
    tempo: Option<real>,
    moodTransitions: Option<seq<MoodTransition>>)

  /** The pacing phrase: none for a missing or zero (falsy) tempo, else by the 120 and 90 thresholds. */
  function TempoDescription(tempo: Option<real>): (d: string)
    ensures d == "" <==> tempo.None? || tempo.value == 0.0
    ensures tempo.Some? && tempo.value > 120.0 ==> d == DynamicTempo
    ensures tempo.Some? && 90.0 < tempo.value <= 120.0 ==> d == BalancedTempo
    ensures tempo.Some? && tempo.value <= 90.0 && tempo.value != 0.0 ==> d == CalmTempo
  {
    if tempo.None? || tempo.value == 0.0 then ""
    else if tempo.value > 120.0 then DynamicTempo
    else if tempo.value > 90.0 then BalancedTempo
    else CalmTempo
  }

  /** How lively a pacing phrase is, calm lowest. */
  function Liveliness(d: string): nat {
    if d == DynamicTempo then 2 else if d == BalancedTempo then 1 else 0
  }

  /** A faster (non-zero) tempo never gets a calmer phrase. */
  lemma TempoDescriptionMonotone(t1: real, t2: real)
    requires t1 != 0.0 && t2 != 0.0 && t1 <= t2
    ensures Liveliness(TempoDescription(Some(t1))) <= Liveliness(TempoDescription(Some(t2)))
  {
  }

  /** The style phrase: the vibrant one exactly for the theme `energetic`, compared without normalisation. */
  function MoodStyle(theme: string): (s: string)
    ensures s == VibrantStyle <==> theme == "energetic"
    ensures s == VibrantStyle || s == SoftStyle
  {
    if theme == "energetic" then VibrantStyle else SoftStyle
  }

  /** `from ${t.from} to ${t.to}`: both moods verbatim, the time left out. */
  function RenderTransition(t: MoodTransition): (s: string)
    ensures |s| == |t.from| + |t.to| + 9
    ensures s[..5] == "from " && s[5..5 + |t.from|] == t.from && s[|s| - |t.to|..] == t.to
  {
    "from " + t.from + " to " + t.to
  }

  /** `transitions.map(render).join(', ')`. */
  function JoinTransitions(ts: seq<MoodTransition>): (s: string)
    ensures s == "" <==> |ts| == 0
    ensures |ts| > 0 ==> |RenderTransition(ts[0])| <= |s| && s[..|RenderTransition(ts[0])|] == RenderTransition(ts[0])
  {
    if |ts| == 0 then ""
    else if |ts| == 1 then RenderTransition(ts[0])
    else RenderTransition(ts[0]) + ", " + JoinTransitions(ts[1..])
  }

  /** Joining keeps list order: the join of a concatenation is the two joins separated by ", ". */
  lemma {:induction false} JoinTransitionsAppend(a: seq<MoodTransition>, b: seq<MoodTransition>)
    requires |a| > 0 && |b| > 0
    ensures JoinTransitions(a + b) == JoinTransitions(a) + ", " + JoinTransitions(b)
  {
    var head := RenderTransition(a[0]);
    assert (a + b)[0] == a[0];
    if |a| == 1 {
      assert (a + b)[1..] == b;
      assert JoinTransitions(a + b) == head + ", " + JoinTransitions(b);
    } else {
      assert (a + b)[1..] == a[1..] + b;
      JoinTransitionsAppend(a[1..], b);
      var ja, jb := JoinTransitions(a[1..]), JoinTransitions(b);
      assert JoinTransitions(a + b) == head + ", " + (ja + ", " + jb);
      assert JoinTransitions(a) == head + ", " + ja;
      assert head + ", " + (ja + ", " + jb) == (head + ", " + ja) + ", " + jb;
    }
  }

  /** The transitions sentence: empty for a missing or empty list, else the lead and the join. */
  function TransitionsDescription(ts: Option<seq<MoodTransition>>): (d: string)
    ensures d == "" <==> ts.None? || |ts.value| == 0
    ensures ts.Some? && |ts.value| > 0 ==> d == TransitionsLead + JoinTransitions(ts.value)
  {
    if ts.None? || |ts.value| == 0 then "" else TransitionsLead + JoinTransitions(ts.value)
  }

  const Opening := "Create a visually striking scene with "
  const MoodLead := ". \n    The overall mood is "

  /** The prompt text from the tempo phrase to where the base description goes. */
  function Atmosphere(options: SceneImageOptions): string {
    ", with a " + TempoDescription(options.tempo) + " atmosphere.\n    "
    + TransitionsDescription(options.moodTransitions) + "\n    \n    Scene details: "
  }

  /** The prompt text up to where the base description goes. */
  function PromptHead(options: SceneImageOptions): string {
    Opening + MoodStyle(options.theme) + MoodLead + options.theme + Atmosphere(options)
  }

  /** The prompt text after the base description. */
  function PromptTail(theme: string): string {
    "\n    \n    Important artistic elements:\n    - Use color palette that reflects the " + theme
    + " mood\n    - Create visual flow that matches the musical rhythm"
    + "\n    - Include subtle visual metaphors for mood transitions"
    + "\n    - Maintain surrealist artistic style"
    + "\n    - Ensure high visual coherence and professional quality"
  }

  /** `createEnhancedPrompt`. */
  function EnhancedPrompt(baseDescription: string, options: SceneImageOptions): (p: string)
    ensures |p| == |PromptHead(options)| + |baseDescription| + |PromptTail(options.theme)|
  {
    PromptHead(options) + baseDescription + PromptTail(options.theme)
  }

  /** `sub` appears in `s` starting at index `k`. */
  predicate OccursAt(s: string, sub: string, k: nat) {
    k + |sub| <= |s| && s[k..k + |sub|] == sub
  }

  /** Reads the base description back out of a prompt built with `options`. */
  function SceneDetails(prompt: string, options: SceneImageOptions): string
    requires |PromptHead(options)| + |PromptTail(options.theme)| <= |prompt|
  {
    prompt[|PromptHead(options)|..|prompt| - |PromptTail(options.theme)|]
  }

  /** The base description is carried verbatim: it can be read back from the prompt. */
  lemma SceneDetailsRoundTrip(baseDescription: string, options: SceneImageOptions)
    ensures SceneDetails(EnhancedPrompt(baseDescription, options), options) == baseDescription
  {
    var head, tail := PromptHead(options), PromptTail(options.theme);
    var p := head + baseDescription + tail;
    assert p[|head|..|p| - |tail|] == baseDescription;
  }

  lemma OccursAtEnd(a: string, b: string)
    ensures OccursAt(a + b, b, |a|)
  {
    assert (a + b)[|a|..|a| + |b|] == b;
  }

  lemma OccursInPrefix(x: string, y: string, sub: string, k: nat)
    requires OccursAt(x, sub, k)
    ensures OccursAt(x + y, sub, k)
  {
    assert (x + y)[k..k + |sub|] == x[k..k + |sub|];
  }

  /** The prompt opens with the style phrase. */
  lemma PromptStatesStyle(baseDescription: string, options: SceneImageOptions)
    ensures OccursAt(EnhancedPrompt(baseDescription, options), MoodStyle(options.theme), |Opening|)
  {
    var style := MoodStyle(options.theme);
    var rest := MoodLead + options.theme + Atmosphere(options) + baseDescription + PromptTail(options.theme);
    assert EnhancedPrompt(baseDescription, options) == Opening + style + rest;
    OccursAtEnd(Opening, style);
    OccursInPrefix(Opening + style, rest, style, |Opening|);
  }

  /** The prompt states the theme verbatim, right after the style phrase. */
  lemma PromptStatesTheme(baseDescription: string, options: SceneImageOptions)
    ensures OccursAt(EnhancedPrompt(baseDescription, options), options.theme,
                     |Opening| + |MoodStyle(options.theme)| + |MoodLead|)
  {
    var lead := Opening + MoodStyle(options.theme) + MoodLead;
    var rest := Atmosphere(options) + baseDescription + PromptTail(options.theme);
    assert EnhancedPrompt(baseDescription, options) == lead + options.theme + rest;
    OccursAtEnd(lead, options.theme);
    OccursInPrefix(lead + options.theme, rest, options.theme, |lead|);
  }

  /** The base description appears verbatim right after the head of the prompt. */
  lemma PromptStatesBase(baseDescription: string, options: SceneImageOptions)
    ensures OccursAt(EnhancedPrompt(baseDescription, options), baseDescription, |PromptHead(options)|)
  {
    OccursAtEnd(PromptHead(options), baseDescription);
    OccursInPrefix(PromptHead(options) + baseDescription, PromptTail(options.theme), baseDescription, |PromptHead(options)|);
  }

  datatype DalleImage = DalleImage(url: string)

  /** The image API's answer: HTTP status, the error body as `JSON.stringify` renders it, and `data`. */
  datatype ApiReply = ApiReply(status: nat, errorJson: string, data: Option<seq<DalleImage>>)

  function ApiError(reply: ApiReply): Fault {
    Error(ApiErrorLead + NatToDecimal(reply.status) + " - " + reply.errorJson)
  }

  /** An error status never reads as one of the empty-answer messages. */
  lemma ApiErrorIsDistinct(reply: ApiReply)
    ensures ApiError(reply) != Error(NoImagesMessage) && ApiError(reply) != Error(NoVariationsMessage)
  {
    assert ApiError(reply).message[0] == 'O';
  }

  predicate NoData(reply: ApiReply) {
    reply.data.None? || |reply.data.value| == 0
  }

  /** The image URLs of the returned items, one per item, in order. */
  function Urls(items: seq<DalleImage>): (urls: seq<string>)
    ensures |urls| == |items|
    ensures forall i :: 0 <= i < |items| ==> urls[i] == items[i].url
  {
    if items == [] then [] else [items[0].url] + Urls(items[1..])
  }

  /** The scene-image answer check: an error status, no images, or the first image's URL. */
  function FirstImageUrl(reply: ApiReply): (r: Result<string, Fault>)
    ensures r == Err(Error(NoImagesMessage)) <==> StatusOk(reply.status) && NoData(reply)
    ensures !StatusOk(reply.status) ==> r == Err(ApiError(reply))
    ensures r.Ok? <==> StatusOk(reply.status) && !NoData(reply)
    ensures r.Ok? ==> r.value == reply.data.value[0].url
  {
    if !StatusOk(reply.status) then ApiErrorIsDistinct(reply); Err(ApiError(reply))
    else if NoData(reply) then Err(Error(NoImagesMessage))
    else Ok(reply.data.value[0].url)
  }

  /** The variations answer check: an error status, no variations, or every URL in order. */
  function VariationUrls(reply: ApiReply): (r: Result<seq<string>, Fault>)
    ensures r == Err(Error(NoVariationsMessage)) <==> StatusOk(reply.status) && NoData(reply)
    ensures !StatusOk(reply.status) ==> r == Err(ApiError(reply))
    ensures r.Ok? <==> StatusOk(reply.status) && !NoData(reply)
    ensures r.Ok? ==> |r.value| == |reply.data.value| > 0
    ensures r.Ok? ==> forall i :: 0 <= i < |r.value| ==> r.value[i] == reply.data.value[i].url
  {
    if !StatusOk(reply.status) then ApiErrorIsDistinct(reply); Err(ApiError(reply))
    else if NoData(reply) then Err(Error(NoVariationsMessage))
    else Ok(Urls(reply.data.value))
  }

  /** The proxy's answer: HTTP status and the image bytes. */
  datatype ProxyReply = ProxyReply(status: nat, bytes: seq<bv8>)

  /** The form posted for variations: the image as PNG, four of them, 1024x1024. */
  function VariationsForm(bytes: seq<bv8>): (form: seq<Entry>)
    ensures |form| == 3 && form[0].name == "image" && form[0].value == Blob(bytes, "image/png")
  {
    [Entry("image", Blob(bytes, "image/png")), Entry("n", Text("4")), Entry("size", Text("1024x1024"))]
  }

  /** The whole of `generateImageVariations` as a function of the two answers. */
  function Variations(imageUrl: string, proxy: string -> Result<ProxyReply, Fault>,
                      api: seq<Entry> -> Result<ApiReply, Fault>): (r: Result<seq<string>, Fault>)
    ensures proxy(imageUrl).Err? ==> r == Err(proxy(imageUrl).error)
    ensures proxy(imageUrl).Ok? && !StatusOk(proxy(imageUrl).value.status) ==>
              r == Err(Error(ProxyErrorLead + NatToDecimal(proxy(imageUrl).value.status)))
    ensures proxy(imageUrl).Ok? && StatusOk(proxy(imageUrl).value.status) ==>
              var answer := api(VariationsForm(proxy(imageUrl).value.bytes));
              && (answer.Err? ==> r == Err(answer.error))
              && (answer.Ok? ==> r == VariationUrls(answer.value))
    ensures r.Ok? ==> (&& proxy(imageUrl).Ok? && StatusOk(proxy(imageUrl).value.status)
                       && api(VariationsForm(proxy(imageUrl).value.bytes)).Ok?
                       && r == VariationUrls(api(VariationsForm(proxy(imageUrl).value.bytes)).value))
  {
    match proxy(imageUrl)
    case Err(f) => Err(f)
    case Ok(image) =>
      if !StatusOk(image.status) then Err(Error(ProxyErrorLead + NatToDecimal(image.status)))
      else
        match api(VariationsForm(image.bytes))
        case Err(f) => Err(f)
        case Ok(reply) => VariationUrls(reply)
  }

  /** `generateImageVariations`: fetch through the proxy, fill a form in place, post it, check the answer. */
  method GenerateImageVariations(imageUrl: string, proxy: string -> Result<ProxyReply, Fault>,
                                 api: seq<Entry> -> Result<ApiReply, Fault>)
    returns (r: Result<seq<string>, Fault>, posted: Option<seq<Entry>>)
    ensures r == Variations(imageUrl, proxy, api)
    ensures posted.Some? <==> proxy(imageUrl).Ok? && StatusOk(proxy(imageUrl).value.status)
    ensures posted.Some? ==> posted.value == VariationsForm(proxy(imageUrl).value.bytes)
  {
    var image := proxy(imageUrl);
    if image.Err? {
      return Err(image.error), None;
    }
    if !StatusOk(image.value.status) {
      return Err(Error(ProxyErrorLead + NatToDecimal(image.value.status))), None;
    }
    var formData := new FormData();
    formData.Append("image", Blob(image.value.bytes, "image/png"));
    formData.Append("n", Text("4"));
    formData.Append("size", Text("1024x1024"));
    assert formData.entries == VariationsForm(image.value.bytes);
    posted := Some(formData.entries);
    var response := api(formData.entries);
    if response.Err? {
      return Err(response.error), posted;
    }
    r := VariationUrls(response.value);
  }

  /** The JSON body posted to the generation endpoint. */
  datatype ImageRequest = ImageRequest(model: string, prompt: string, n: nat, size: string,
                                       quality: Quality, style: string)

  datatype SceneImages = SceneImages(imageUrl: string, prompt: string, variations: seq<string>)

  /** The generation request for a scene: DALL-E 3, one image, the enhanced prompt, vivid style. */
  function SceneRequest(sceneDescription: string, options: SceneImageOptions): (req: ImageRequest)
    ensures req.model == "dall-e-3" && req.n == 1 && req.style == "vivid"
    ensures req.prompt == EnhancedPrompt(sceneDescription, options)
    ensures req.size == ResolutionText(options.resolution) && req.quality == options.quality
  {
    ImageRequest("dall-e-3", EnhancedPrompt(sceneDescription, options), 1, ResolutionText(options.resolution), options.quality, "vivid")
  }

  /** The whole of `generateSceneImages` as a function of the three answers; errors pass through unchanged. */
  function SceneOutcome(sceneDescription: string, options: SceneImageOptions,
                        generate: ImageRequest -> Result<ApiReply, Fault>,
                        proxy: string -> Result<ProxyReply, Fault>,
                        api: seq<Entry> -> Result<ApiReply, Fault>): (r: Result<SceneImages, Fault>)
    ensures var answer := generate(SceneRequest(sceneDescription, options));
            && (answer.Err? ==> r == Err(answer.error))
            && (answer.Ok? && !StatusOk(answer.value.status) ==> r == Err(ApiError(answer.value)))
            && (answer.Ok? && StatusOk(answer.value.status) && NoData(answer.value) ==> r == Err(Error(NoImagesMessage)))
            && (answer.Ok? && FirstImageUrl(answer.value).Ok? ==>
                  var url := FirstImageUrl(answer.value).value;
                  var variations := Variations(url, proxy, api);
                  r == if variations.Err? then Err(variations.error)
                       else Ok(SceneImages(url, EnhancedPrompt(sceneDescription, options), variations.value)))
            && (r.Ok? ==> answer.Ok? && FirstImageUrl(answer.value).Ok?
                          && r.value.imageUrl == answer.value.data.value[0].url
                          && r.value.prompt == EnhancedPrompt(sceneDescription, options)
                          && Variations(r.value.imageUrl, proxy, api) == Ok(r.value.variations))
  {
    match generate(SceneRequest(sceneDescription, options))
    case Err(f) => Err(f)
    case Ok(reply) =>
      match FirstImageUrl(reply)
      case Err(f) => Err(f)
      case Ok(imageUrl) =>
        match Variations(imageUrl, proxy, api)
        case Err(f) => Err(f)
        case Ok(variations) => Ok(SceneImages(imageUrl, EnhancedPrompt(sceneDescription, options), variations))
  }

  /** `generateSceneImages`: one image for the enhanced prompt, then its variations. */
  method GenerateSceneImages(sceneDescription: string, options: SceneImageOptions,
                             generate: ImageRequest -> Result<ApiReply, Fault>,
                             proxy: string -> Result<ProxyReply, Fault>,
                             api: seq<Entry> -> Result<ApiReply, Fault>)
    returns (r: Result<SceneImages, Fault>, request: ImageRequest)
    ensures request == SceneRequest(sceneDescription, options)
    ensures r == SceneOutcome(sceneDescription, options, generate, proxy, api)
  {
    var enhancedPrompt := EnhancedPrompt(sceneDescription, options);
    request := ImageRequest("dall-e-3", enhancedPrompt, 1, ResolutionText(options.resolution), options.quality, "vivid");
    var response := generate(request);
    if response.Err? {
      return Err(response.error), request;
    }
    var first := FirstImageUrl(response.value);
    if first.Err? {
      return Err(first.error), request;
    }
    var imageUrl := first.value;
    var variations, _ := GenerateImageVariations(imageUrl, proxy, api);
    if variations.Err? {
      return Err(variations.error), request;
    }
    r := Ok(SceneImages(imageUrl, enhancedPrompt, variations.value));
  }
}
