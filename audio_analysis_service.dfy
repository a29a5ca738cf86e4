/**
 * `analyzeAudio`: fetch the audio, post it in a form to the analysis server,
 * and shape the server's JSON into the analysis result. The audio fetch and the
 * analysis server are oracles.
 */
module AudioAnalysisService {
  import opened JsValues
  import opened FormDataModel

  const NeutralMood := "neutral"
  const AnalyzeFailed := "Failed to analyze audio file"
  /** The `TypeError` V8 throws for `results.segments[0]` when `segments` is missing. */
  const SegmentsMissing := "Cannot read properties of undefined (reading '0')"

  datatype Segment = Segment(start: real, end: real, mood: Option<string>, description: string)

  /** The server's JSON body; a field it leaves out is absent. */
  datatype AnalysisJson = AnalysisJson(beats: Option<seq<real>>, tempo: Option<real>, segments: Option<seq<Segment>>)

  /** The fetched audio as `response.blob()` gives it: the bytes and the response's content type. */
  datatype AudioBlob = AudioBlob(bytes: seq<bv8>, contentType: string)

  function FileEntry(audio: AudioBlob): Entry {
    Entry("file", Blob(audio.bytes, audio.contentType))
  }

  datatype AnalysisReply = AnalysisReply(status: nat, body: AnalysisJson)

  /** `AudioAnalysisResult`. */
  datatype AnalysisResult = AnalysisResult(beats: Option<seq<real>>, tempo: Option<real>, mood: string, segments: seq<Segment>)

  /** `segments[0]?.mood || 'neutral'`. */
  function OverallMood(segments: seq<Segment>): (mood: string)
    ensures mood != ""
    ensures |segments| > 0 && Truthy(segments[0].mood) ==> mood == segments[0].mood.value
    ensures |segments| == 0 || !Truthy(segments[0].mood) ==> mood == NeutralMood
  {
    if |segments| > 0 then Interpolate(Or(segments[0].mood, Some(NeutralMood))) else NeutralMood
  }

  /** Only the first segment decides the mood: what follows it never matters. */
  lemma OverallMoodIgnoresLaterSegments(first: Segment, rest1: seq<Segment>, rest2: seq<Segment>)
    ensures OverallMood([first] + rest1) == OverallMood([first] + rest2)
  {
    assert ([first] + rest1)[0] == first == ([first] + rest2)[0];
  }

  /** The result built from the server's body; reading `segments[0]` of a missing list throws. */
  function Shape(body: AnalysisJson): (r: Result<AnalysisResult, Fault>)
    ensures r.Ok? <==> body.segments.Some?
    ensures r.Err? ==> r.error == Error(SegmentsMissing)
    ensures r.Ok? ==> r.value.beats == body.beats && r.value.tempo == body.tempo
                      && r.value.segments == body.segments.value
                      && r.value.mood == OverallMood(body.segments.value)
  {
    match body.segments
    case None => Err(Error(SegmentsMissing))
    case Some(segments) => Ok(AnalysisResult(body.beats, body.tempo, OverallMood(segments), segments))
  }

  /** The whole of `analyzeAudio` as a function of the two answers. */
  function Analysis(audioUrl: string, fetchAudio: string -> Result<AudioBlob, Fault>,
                    analyze: seq<Entry> -> Result<AnalysisReply, Fault>): (r: Result<AnalysisResult, Fault>)
    ensures r.Err? ==> r.error == Error(AnalyzeFailed)
    ensures r.Ok? <==> fetchAudio(audioUrl).Ok?
                       && analyze([FileEntry(fetchAudio(audioUrl).value)]).Ok?
                       && StatusOk(analyze([FileEntry(fetchAudio(audioUrl).value)]).value.status)
                       && analyze([FileEntry(fetchAudio(audioUrl).value)]).value.body.segments.Some?
  {
    match fetchAudio(audioUrl)
    case Err(_) => Err(Error(AnalyzeFailed))
    case Ok(audio) =>
      match analyze([FileEntry(audio)])
      case Err(_) => Err(Error(AnalyzeFailed))
      case Ok(reply) =>
        if !StatusOk(reply.status) then Err(Error(AnalyzeFailed))
        else match Shape(reply.body)
          case Err(_) => Err(Error(AnalyzeFailed))
          case Ok(result) => Ok(result)
  }

  /** `analyzeAudio`: the downloaded audio goes into a fresh form under `file`. */
  method AnalyzeAudio(audioUrl: string, fetchAudio: string -> Result<AudioBlob, Fault>,
                      analyze: seq<Entry> -> Result<AnalysisReply, Fault>)
    returns (r: Result<AnalysisResult, Fault>)
    ensures r == Analysis(audioUrl, fetchAudio, analyze)
    ensures r.Ok? ==> var body := analyze([FileEntry(fetchAudio(audioUrl).value)]).value.body;
                      && r.value.beats == body.beats && r.value.tempo == body.tempo
                      && r.value.segments == body.segments.value
                      && r.value.mood == OverallMood(body.segments.value)
  {
    var formData := new FormData();
    var audio := fetchAudio(audioUrl);
    if audio.Err? {
      return Err(Error(AnalyzeFailed));
    }
    formData.Append("file", Blob(audio.value.bytes, audio.value.contentType));
    assert formData.entries == [FileEntry(audio.value)];
    var response := analyze(formData.entries);
    if response.Err? || !StatusOk(response.value.status) {
      return Err(Error(AnalyzeFailed));
    }
    var shaped := Shape(response.value.body);
    if shaped.Err? {
      return Err(Error(AnalyzeFailed));
    }
    r := shaped;
  }
}
