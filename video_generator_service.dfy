/**
 * `assembleVideoSequences`: for each scene image in order, submit one
 * image-to-video job, poll it with no attempt bound until it succeeds or fails,
 * abort the whole call on a failure, and store every output through the
 * download helper, collecting the stored paths.
 *
 * The provider and the download endpoint are oracles (`Provider`, `Storage`).
 * The source calls the download helper without an analysis identifier; the
 * model takes that argument as `analysisId`, with `None` standing for the call
 * as written.
 */
module VideoGeneratorService {
  import opened JsValues
  import opened RunwayTasks
  import opened FileUtils

  datatype AssemblyOptions = AssemblyOptions(motionIntensity: real, durationPerBeat: real)

  /**
   * The job's prompt text, `Motion intensity: …, Duration: …`, kept as the
   * values it is rendered from; `beat` is `beats[i]`, absent past the end of `beats`.
   */
  datatype MotionPrompt = MotionPrompt(motionIntensity: real, durationPerBeat: real, beat: Option<real>)

  /** The parameters of one image's image-to-video job. */
  datatype SceneJob = SceneJob(model: string, promptImage: string, promptText: MotionPrompt)

  /** The arguments of one call. */
  datatype Call = Call(sceneImages: seq<string>, beats: seq<real>, options: AssemblyOptions,
                       analysisId: Option<string>)

  /**
   * `create(i, job)` answers the submission for image `i`; `retrieve(i, k)` is
   * the answer to the (k+1)-th status retrieval of image `i`'s job.
   */
  datatype Provider = Provider(create: (nat, SceneJob) -> Result<string, Fault>,
                               retrieve: (nat, nat) -> Result<Task, Fault>)

  /** `clock(i, j)` is `Date.now()` and `reply(i, j)` the endpoint's answer when storing output `j` of image `i`. */
  datatype Storage = Storage(clock: (nat, nat) -> nat, reply: (nat, nat) -> Result<DownloadReply, Fault>)

  /** The job for image `i`: it pairs the image with `beats[i]` and nothing else of the call. */
  function SceneJobFor(call: Call, i: nat): (job: SceneJob)
    requires i < |call.sceneImages|
    ensures job.model == GenerationModel && job.promptImage == call.sceneImages[i]
    ensures job.promptText.motionIntensity == call.options.motionIntensity
    ensures job.promptText.durationPerBeat == call.options.durationPerBeat
    ensures i < |call.beats| ==> job.promptText.beat == Some(call.beats[i])
    ensures i >= |call.beats| ==> job.promptText.beat == None
  {
    var beat := if i < |call.beats| then Some(call.beats[i]) else None;
    SceneJob(GenerationModel, call.sceneImages[i], MotionPrompt(call.options.motionIntensity, call.options.durationPerBeat, beat))
  }

  /** `video-${i}-${Date.now()}.mp4`: never empty, so it never trips the helper's argument check. */
  function VideoFileName(i: nat, now: nat): (name: string)
    ensures name != ""
  {
    "video-" + NatToDecimal(i) + "-" + NatToDecimal(now) + ".mp4"
  }

  /**
   * Two stores never ask for the same file name unless they share the image
   * index and the clock reading: the dash between the two numbers is the
   * first dash after `video-`.
   */
  lemma VideoFileNameInjective(i1: nat, now1: nat, i2: nat, now2: nat)
    requires VideoFileName(i1, now1) == VideoFileName(i2, now2)
    ensures i1 == i2 && now1 == now2
  {
    var a1, b1, a2, b2 := NatToDecimal(i1), NatToDecimal(now1), NatToDecimal(i2), NatToDecimal(now2);
    var m1, m2 := a1 + "-" + b1, a2 + "-" + b2;
    var s := VideoFileName(i1, now1);
    assert s == "video-" + m1 + ".mp4" && s == "video-" + m2 + ".mp4";
    assert m1 == s[6..|s| - 4] == m2;
    assert m1[|a1|] == '-' && forall k :: 0 <= k < |a1| ==> m1[k] == a1[k] != '-';
    assert m2[|a2|] == '-' && forall k :: 0 <= k < |a2| ==> m2[k] == a2[k] != '-';
    assert |a1| == |a2|;
    assert a1 == m1[..|a1|] == a2;
    assert b1 == m1[|a1| + 1..] == b2;
    NatToDecimalInjective(i1, i2);
    NatToDecimalInjective(now1, now2);
  }

  /** An answer that ends the poll: a throw, or status exactly `SUCCEEDED` or `FAILED`. */
  predicate EndsPoll(answer: Result<Task, Fault>) {
    answer.Err? || answer.value.status == Succeeded || answer.value.status == Failed
  }

  /** Image `i`'s job is eventually answered with a status that ends its unbounded poll. */
  ghost predicate EventuallyEnds(retrieve: (nat, nat) -> Result<Task, Fault>, i: nat) {
    exists k :: EndsPoll(retrieve(i, k))
  }

  ghost predicate AllEventuallyEnd(retrieve: (nat, nat) -> Result<Task, Fault>, n: nat) {
    forall i :: 0 <= i < n ==> EventuallyEnds(retrieve, i)
  }

  /** Some answer ends the poll, so a first one does. */
  lemma {:induction false} FirstEndExists(retrieve: (nat, nat) -> Result<Task, Fault>, i: nat, k: nat)
    requires EndsPoll(retrieve(i, k))
    ensures exists m: nat :: EndsPoll(retrieve(i, m)) && forall j :: 0 <= j < m ==> !EndsPoll(retrieve(i, j))
    decreases k
  {
    if exists j :: 0 <= j < k && EndsPoll(retrieve(i, j)) {
      var j :| 0 <= j < k && EndsPoll(retrieve(i, j));
      FirstEndExists(retrieve, i, j);
    } else {
      assert forall j :: 0 <= j < k ==> !EndsPoll(retrieve(i, j));
    }
  }

  /** How many status retrievals image `i`'s poll makes: up to and including the first answer that ends it. */
  ghost function PollLength(retrieve: (nat, nat) -> Result<Task, Fault>, i: nat): (n: nat)
    requires EventuallyEnds(retrieve, i)
    ensures n > 0 && EndsPoll(retrieve(i, n - 1))
    ensures forall j :: 0 <= j < n - 1 ==> !EndsPoll(retrieve(i, j))
  {
    var k :| EndsPoll(retrieve(i, k));
    FirstEndExists(retrieve, i, k);
    var m: nat :| EndsPoll(retrieve(i, m)) && forall j :: 0 <= j < m ==> !EndsPoll(retrieve(i, j));
    m + 1
  }

  /** The answer image `i`'s poll ends on. */
  ghost function Settle(retrieve: (nat, nat) -> Result<Task, Fault>, i: nat): Result<Task, Fault>
    requires EventuallyEnds(retrieve, i)
  {
    retrieve(i, PollLength(retrieve, i) - 1)
  }

  /** Puts `paths` in front of a successful result. */
  function Prepend(paths: seq<string>, r: Result<seq<string>, Fault>): Result<seq<string>, Fault> {
    match r
    case Ok(rest) => Ok(paths + rest)
    case Err(f) => Err(f)
  }

  lemma PrependTwice(a: seq<string>, b: seq<string>, r: Result<seq<string>, Fault>)
    ensures Prepend(a, Prepend(b, r)) == Prepend(a + b, r)
  {
    if r.Ok? {
      assert a + (b + r.value) == (a + b) + r.value;
    }
  }

  lemma PrependNothing(r: Result<seq<string>, Fault>)
    ensures Prepend([], r) == r
  {
    if r.Ok? {
      assert [] + r.value == r.value;
    }
  }

  /** Storing outputs `urls[j..]` of image `i` one at a time; the first fault ends it. */
  function StoreOutputs(urls: seq<string>, i: nat, j: nat, storage: Storage, analysisId: Option<string>): (r: Result<seq<string>, Fault>)
    requires j <= |urls|
    ensures r.Ok? ==> |r.value| == |urls| - j
    ensures j < |urls| && !Truthy(analysisId) ==> r == Err(Error(MissingParameters))
    decreases |urls| - j
  {
    if j == |urls| then Ok([])
    else
      match DownloadFile(urls[j], VideoFileName(i, storage.clock(i, j)), analysisId, storage.reply(i, j))
      case Err(f) => Err(f)
      case Ok(path) => Prepend([path], StoreOutputs(urls, i, j + 1, storage, analysisId))
  }

  /** Number of outputs a settled answer carries (0 for a throw or a missing list). */
  function OutputCount(answer: Result<Task, Fault>): nat {
    if answer.Ok? && answer.value.output.Some? then |answer.value.output.value| else 0
  }

  /** What image `i` adds once its poll has ended on `answer`. */
  function Contribution(answer: Result<Task, Fault>, i: nat, storage: Storage, analysisId: Option<string>): (r: Result<seq<string>, Fault>)
    ensures answer.Err? ==> r == Err(answer.error)
    ensures answer.Ok? && answer.value.status == Failed ==> r == Err(Error(FailureMessage(answer.value)))
    ensures answer.Ok? && answer.value.status != Failed && OutputCount(answer) == 0 ==> r == Ok([])
    ensures r.Ok? ==> |r.value| == OutputCount(answer)
  {
    match answer
    case Err(f) => Err(f)
    case Ok(task) =>
      if task.status == Failed then Err(Error(FailureMessage(task)))
      else if task.output.Some? && |task.output.value| > 0 then StoreOutputs(task.output.value, i, 0, storage, analysisId)
      else Ok([])
  }

  /** Image `i`'s create, poll and store. */
  ghost function ImageOutcome(call: Call, provider: Provider, storage: Storage, i: nat): (r: Result<seq<string>, Fault>)
    requires i < |call.sceneImages| && EventuallyEnds(provider.retrieve, i)
    ensures provider.create(i, SceneJobFor(call, i)).Err? ==> r == Err(provider.create(i, SceneJobFor(call, i)).error)
    ensures r.Ok? ==> provider.create(i, SceneJobFor(call, i)).Ok? && |r.value| == OutputCount(Settle(provider.retrieve, i))
  {
    match provider.create(i, SceneJobFor(call, i))
    case Err(f) => Err(f)
    case Ok(_) => Contribution(Settle(provider.retrieve, i), i, storage, call.analysisId)
  }

  /** Images `i..` processed in order; the first fault is the result. */
  ghost function AssembleFrom(call: Call, provider: Provider, storage: Storage, i: nat): (r: Result<seq<string>, Fault>)
    requires i <= |call.sceneImages| && AllEventuallyEnd(provider.retrieve, |call.sceneImages|)
    ensures r.Ok? ==> forall k :: i <= k < |call.sceneImages| ==> ImageOutcome(call, provider, storage, k).Ok?
    decreases |call.sceneImages| - i
  {
    if i == |call.sceneImages| then Ok([])
    else
      match ImageOutcome(call, provider, storage, i)
      case Err(f) => Err(f)
      case Ok(paths) => Prepend(paths, AssembleFrom(call, provider, storage, i + 1))
  }

  /**
   * A failed call fails with the fault of the first image whose create, poll or
   * store failed; every image before it went through.
   */
  lemma {:induction false} AssembleFailsAtFirstFailingImage(call: Call, provider: Provider, storage: Storage, i: nat)
    requires i <= |call.sceneImages| && AllEventuallyEnd(provider.retrieve, |call.sceneImages|)
    requires AssembleFrom(call, provider, storage, i).Err?
    ensures exists k :: i <= k < |call.sceneImages|
              && ImageOutcome(call, provider, storage, k) == Err(AssembleFrom(call, provider, storage, i).error)
              && forall m :: i <= m < k ==> ImageOutcome(call, provider, storage, m).Ok?
    decreases |call.sceneImages| - i
  {
    if ImageOutcome(call, provider, storage, i).Ok? {
      AssembleFailsAtFirstFailingImage(call, provider, storage, i + 1);
      var k :| i + 1 <= k < |call.sceneImages|
               && ImageOutcome(call, provider, storage, k) == Err(AssembleFrom(call, provider, storage, i + 1).error)
               && forall m :: i + 1 <= m < k ==> ImageOutcome(call, provider, storage, m).Ok?;
      assert forall m :: i <= m < k ==> ImageOutcome(call, provider, storage, m).Ok?;
    }
  }

  /** Storing succeeds with exactly one path per URL, in URL order: the path each reply named. */
  lemma {:induction false} StoreOutputsShape(urls: seq<string>, i: nat, j: nat, storage: Storage, analysisId: Option<string>)
    requires j <= |urls| && StoreOutputs(urls, i, j, storage, analysisId).Ok?
    ensures var paths := StoreOutputs(urls, i, j, storage, analysisId).value;
            && |paths| == |urls| - j
            && forall t :: 0 <= t < |paths| ==> storage.reply(i, j + t) == Ok(Stored(paths[t]))
    decreases |urls| - j
  {
    if j < |urls| {
      StoreOutputsShape(urls, i, j + 1, storage, analysisId);
      var rest := StoreOutputs(urls, i, j + 1, storage, analysisId).value;
      var paths := StoreOutputs(urls, i, j, storage, analysisId).value;
      forall t | 0 <= t < |paths|
        ensures storage.reply(i, j + t) == Ok(Stored(paths[t]))
      {
        if t > 0 {
          assert paths[t] == rest[t - 1];
        }
      }
    }
  }

  /** Without a truthy analysis identifier, storing a non-empty list of outputs fails on the first one. */
  lemma StoreOutputsWithoutId(urls: seq<string>, i: nat, storage: Storage, analysisId: Option<string>)
    requires !Truthy(analysisId) && |urls| > 0
    ensures StoreOutputs(urls, i, 0, storage, analysisId) == Err(Error(MissingParameters))
  {
  }

  /** Without a truthy analysis identifier, an image contributes nothing or fails. */
  lemma ContributionWithoutId(answer: Result<Task, Fault>, i: nat, storage: Storage, analysisId: Option<string>)
    requires !Truthy(analysisId)
    ensures Contribution(answer, i, storage, analysisId).Ok? ==>
              OutputCount(answer) == 0 && Contribution(answer, i, storage, analysisId).value == []
  {
    if answer.Ok? && answer.value.output.Some? && |answer.value.output.value| > 0 {
      StoreOutputsWithoutId(answer.value.output.value, i, storage, analysisId);
    }
  }

  /** The number of outputs the jobs of images `i..` end with. */
  ghost function TotalOutputs(call: Call, provider: Provider, i: nat): nat
    requires i <= |call.sceneImages| && AllEventuallyEnd(provider.retrieve, |call.sceneImages|)
    decreases |call.sceneImages| - i
  {
    if i == |call.sceneImages| then 0
    else OutputCount(Settle(provider.retrieve, i)) + TotalOutputs(call, provider, i + 1)
  }

  /**
   * A successful call stored one path per output of every image, and every
   * image's job was created and ended other than `FAILED`.
   */
  lemma {:induction false} AssembleAccountsForEveryOutput(call: Call, provider: Provider, storage: Storage, i: nat)
    requires i <= |call.sceneImages| && AllEventuallyEnd(provider.retrieve, |call.sceneImages|)
    requires AssembleFrom(call, provider, storage, i).Ok?
    ensures |AssembleFrom(call, provider, storage, i).value| == TotalOutputs(call, provider, i)
    ensures forall k :: i <= k < |call.sceneImages| ==>
              provider.create(k, SceneJobFor(call, k)).Ok? &&
              Settle(provider.retrieve, k).Ok? && Settle(provider.retrieve, k).value.status != Failed
    decreases |call.sceneImages| - i
  {
    if i < |call.sceneImages| {
      AssembleAccountsForEveryOutput(call, provider, storage, i + 1);
      var answer := Settle(provider.retrieve, i);
      if answer.Ok? && answer.value.output.Some? && |answer.value.output.value| > 0 {
        StoreOutputsShape(answer.value.output.value, i, 0, storage, call.analysisId);
      }
    }
  }

  /**
   * The call as written passes no analysis identifier: it can only succeed
   * when no image's job produced any output, and then it returns no paths.
   */
  lemma {:induction false} AsWrittenStoresNothing(call: Call, provider: Provider, storage: Storage, i: nat)
    requires i <= |call.sceneImages| && AllEventuallyEnd(provider.retrieve, |call.sceneImages|)
    requires !Truthy(call.analysisId)
    requires AssembleFrom(call, provider, storage, i).Ok?
    ensures AssembleFrom(call, provider, storage, i).value == []
    ensures TotalOutputs(call, provider, i) == 0
    decreases |call.sceneImages| - i
  {
    if i < |call.sceneImages| {
      AsWrittenStoresNothing(call, provider, storage, i + 1);
      ContributionWithoutId(Settle(provider.retrieve, i), i, storage, call.analysisId);
    }
  }

  /**
   * As written, the first image whose job succeeds with an output makes the
   * whole call reject with the helper's missing-parameter error.
   */
  lemma AsWrittenRejectsFirstOutput(call: Call, provider: Provider, storage: Storage)
    requires 0 < |call.sceneImages| && AllEventuallyEnd(provider.retrieve, |call.sceneImages|)
    requires !Truthy(call.analysisId)
    requires provider.create(0, SceneJobFor(call, 0)).Ok?
    requires Settle(provider.retrieve, 0).Ok? && Settle(provider.retrieve, 0).value.status == Succeeded
    requires OutputCount(Settle(provider.retrieve, 0)) > 0
    ensures AssembleFrom(call, provider, storage, 0) == Err(Error(MissingParameters))
  {
    StoreOutputsWithoutId(Settle(provider.retrieve, 0).value.output.value, 0, storage, call.analysisId);
  }

  /** Image `k`'s job is created, ends other than `FAILED`, and each of its outputs is stored. */
  ghost predicate ImageCooperates(call: Call, provider: Provider, storage: Storage, k: nat) {
    && k < |call.sceneImages|
    && EventuallyEnds(provider.retrieve, k)
    && provider.create(k, SceneJobFor(call, k)).Ok?
    && Settle(provider.retrieve, k).Ok?
    && Settle(provider.retrieve, k).value.status != Failed
    && forall j :: 0 <= j < OutputCount(Settle(provider.retrieve, k)) ==>
         Settle(provider.retrieve, k).value.output.value[j] != "" &&
         storage.reply(k, j).Ok? && storage.reply(k, j).value.Stored?
  }

  lemma {:induction false} StoreOutputsAllStored(urls: seq<string>, i: nat, j: nat, storage: Storage, analysisId: Option<string>)
    requires j <= |urls| && Truthy(analysisId)
    requires forall t :: j <= t < |urls| ==> urls[t] != "" && storage.reply(i, t).Ok? && storage.reply(i, t).value.Stored?
    ensures StoreOutputs(urls, i, j, storage, analysisId).Ok?
    decreases |urls| - j
  {
    if j < |urls| {
      StoreOutputsAllStored(urls, i, j + 1, storage, analysisId);
    }
  }

  /**
   * With an analysis identifier passed through, a call whose jobs all end
   * other than `FAILED` and whose stores all succeed returns one path per output.
   */
  lemma {:induction false} WithAnalysisIdStoresEveryOutput(call: Call, provider: Provider, storage: Storage, i: nat)
    requires i <= |call.sceneImages| && AllEventuallyEnd(provider.retrieve, |call.sceneImages|)
    requires Truthy(call.analysisId)
    requires forall k :: i <= k < |call.sceneImages| ==> ImageCooperates(call, provider, storage, k)
    ensures AssembleFrom(call, provider, storage, i).Ok?
    ensures |AssembleFrom(call, provider, storage, i).value| == TotalOutputs(call, provider, i)
    decreases |call.sceneImages| - i
  {
    if i < |call.sceneImages| {
      WithAnalysisIdStoresEveryOutput(call, provider, storage, i + 1);
      assert ImageCooperates(call, provider, storage, i);
      var answer := Settle(provider.retrieve, i);
      if answer.value.output.Some? && |answer.value.output.value| > 0 {
        StoreOutputsAllStored(answer.value.output.value, i, 0, storage, call.analysisId);
      }
      AssembleAccountsForEveryOutput(call, provider, storage, i);
    }
  }

  /** The do/while poll of image `i`'s job: retrieve until the answer ends the poll. */
  method PollJob(retrieve: (nat, nat) -> Result<Task, Fault>, i: nat) returns (answer: Result<Task, Fault>, count: nat)
    requires EventuallyEnds(retrieve, i)
    ensures answer == Settle(retrieve, i) && EndsPoll(answer)
    ensures count == PollLength(retrieve, i)
  {
    ghost var bound: nat :| EndsPoll(retrieve(i, bound));
    var k := 0;
    answer := retrieve(i, k);
    while !EndsPoll(answer)
      invariant answer == retrieve(i, k)
      invariant forall j :: 0 <= j < k ==> !EndsPoll(retrieve(i, j))
      invariant k <= bound
      decreases bound - k
    {
      k := k + 1;
      answer := retrieve(i, k);
    }
    count := k + 1;
  }

  /** The `for (const url of videoUrls)` loop: store each output in order, pushing its path onto `stored`. */
  method StoreEach(stored: seq<string>, urls: seq<string>, i: nat, storage: Storage, analysisId: Option<string>)
    returns (r: Result<seq<string>, Fault>)
    ensures r == Prepend(stored, StoreOutputs(urls, i, 0, storage, analysisId))
  {
    var storedVideoPaths := stored;
    ghost var added: seq<string> := [];
    var j := 0;
    PrependNothing(StoreOutputs(urls, i, 0, storage, analysisId));
    while j < |urls|
      invariant 0 <= j <= |urls|
      invariant storedVideoPaths == stored + added
      invariant Prepend(added, StoreOutputs(urls, i, j, storage, analysisId)) == StoreOutputs(urls, i, 0, storage, analysisId)
    {
      var path := DownloadFile(urls[j], VideoFileName(i, storage.clock(i, j)), analysisId, storage.reply(i, j));
      if path.Err? {
        return Err(path.error);
      }
      PrependTwice(added, [path.value], StoreOutputs(urls, i, j + 1, storage, analysisId));
      storedVideoPaths := storedVideoPaths + [path.value];
      added := added + [path.value];
      j := j + 1;
    }
    assert added + [] == added;
    r := Ok(storedVideoPaths);
  }

  /**
   * One pass of the `for` loop's body: create image `i`'s job, poll it, and
   * store its outputs after the paths already in `stored`. `count` is the
   * number of status retrievals, absent when the create threw.
   */
  method ProcessScene(call: Call, provider: Provider, storage: Storage, i: nat, stored: seq<string>)
    returns (job: SceneJob, next: Result<seq<string>, Fault>, count: Option<nat>)
    requires i < |call.sceneImages| && EventuallyEnds(provider.retrieve, i)
    ensures job == SceneJobFor(call, i)
    ensures next == Prepend(stored, ImageOutcome(call, provider, storage, i))
    ensures count.None? <==> provider.create(i, job).Err?
    ensures count.Some? ==> count.value == PollLength(provider.retrieve, i)
  {
    job := SceneJobFor(call, i);
    var created := provider.create(i, job);
    if created.Err? {
      return job, Err(created.error), None;
    }
    var answer, polled := PollJob(provider.retrieve, i);
    count := Some(polled);
    if answer.Err? {
      return job, Err(answer.error), count;
    }
    var task := answer.value;
    if task.status == Failed {
      return job, Err(Error(FailureMessage(task))), count;
    }
    if task.output.Some? && |task.output.value| > 0 {
      next := StoreEach(stored, task.output.value, i, storage, call.analysisId);
    } else {
      assert stored + [] == stored;
      next := Ok(stored);
    }
  }

  /** Image `m`'s create, poll and store went through. */
  ghost predicate WentThrough(call: Call, provider: Provider, storage: Storage, m: nat) {
    m < |call.sceneImages| && EventuallyEnds(provider.retrieve, m) && ImageOutcome(call, provider, storage, m).Ok?
  }

  /** The first `n` images were submitted: the last of them failed and every one before it went through. */
  ghost predicate StoppedAtFirstFailure(call: Call, provider: Provider, storage: Storage, n: nat) {
    && 0 < n <= |call.sceneImages|
    && AllEventuallyEnd(provider.retrieve, |call.sceneImages|)
    && ImageOutcome(call, provider, storage, n - 1).Err?
    && forall m :: 0 <= m < n - 1 ==> WentThrough(call, provider, storage, m)
  }

  /**
   * The service function. `submitted` lists the jobs created, `polls` how many
   * status retrievals each image's poll made.
   */
  method AssembleVideoSequences(sceneImages: seq<string>, beats: seq<real>, options: AssemblyOptions,
                                analysisId: Option<string>, provider: Provider, storage: Storage)
    returns (r: Result<seq<string>, Fault>, submitted: seq<SceneJob>, polls: seq<nat>)
    requires AllEventuallyEnd(provider.retrieve, |sceneImages|)
    ensures r == AssembleFrom(Call(sceneImages, beats, options, analysisId), provider, storage, 0)
    ensures |polls| <= |submitted| <= |sceneImages|
    ensures forall i :: 0 <= i < |submitted| ==> submitted[i] == SceneJobFor(Call(sceneImages, beats, options, analysisId), i)
    ensures forall i :: 0 <= i < |polls| ==> polls[i] == PollLength(provider.retrieve, i)
    ensures r.Ok? ==> |polls| == |sceneImages|
    ensures r.Err? ==> StoppedAtFirstFailure(Call(sceneImages, beats, options, analysisId), provider, storage, |submitted|)
    ensures r.Err? ==> |submitted| - 1 <= |polls|
    ensures r.Err? ==> (|polls| == |submitted| <==>
                          provider.create(|submitted| - 1, SceneJobFor(Call(sceneImages, beats, options, analysisId), |submitted| - 1)).Ok?)
  {
    var call := Call(sceneImages, beats, options, analysisId);
    var storedVideoPaths: seq<string> := [];
    submitted, polls := [], [];
    var i := 0;
    PrependNothing(AssembleFrom(call, provider, storage, 0));
    while i < |sceneImages|
      invariant 0 <= i <= |sceneImages|
      invariant |submitted| == |polls| == i
      invariant forall k :: 0 <= k < i ==> submitted[k] == SceneJobFor(call, k)
      invariant forall k :: 0 <= k < i ==> polls[k] == PollLength(provider.retrieve, k)
      invariant Prepend(storedVideoPaths, AssembleFrom(call, provider, storage, i)) == AssembleFrom(call, provider, storage, 0)
      invariant forall m :: 0 <= m < i ==> WentThrough(call, provider, storage, m)
    {
      var job, next, count := ProcessScene(call, provider, storage, i, storedVideoPaths);
      submitted := submitted + [job];
      if count.Some? {
        polls := polls + [count.value];
      }
      if next.Err? {
        assert StoppedAtFirstFailure(call, provider, storage, i + 1);
        return Err(next.error), submitted, polls;
      }
      assert WentThrough(call, provider, storage, i);
      ghost var added := ImageOutcome(call, provider, storage, i).value;
      PrependTwice(storedVideoPaths, added, AssembleFrom(call, provider, storage, i + 1));
      storedVideoPaths := next.value;
      i := i + 1;
    }
    assert storedVideoPaths + [] == storedVideoPaths;
    r := Ok(storedVideoPaths);
  }

}
