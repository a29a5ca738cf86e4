/**
 * The `POST` handler of the generate-video API route: it picks a clip duration,
 * submits one image-to-video job, polls the job's status at most 30 times and
 * answers with the first output URL or with a 500 error.
 *
 * The provider is two oracles: `create` answers the job submission, and
 * `retrieve(k)` is the answer to the (k+1)-th status retrieval of that job.
 */
module GenerateVideoRoute {
  import opened JsValues
  import opened RunwayTasks

  const MaxAttempts: nat := 30
  const DefaultRatio := "16:9"
  const TimedOutMessage := "Video generation timed out"
  const NoOutputMessage := "No video output received"
  const GenericErrorMessage := "Failed to generate video"

  /** The `options` object of the request body; any field may be missing. */
  datatype Options = Options(tempo: Option<real>, promptText: Option<string>, aspectRatio: Option<string>)

  /** The parsed request body. */
  datatype VideoRequest = VideoRequest(mainImage: string, beats: seq<real>, options: Options)

  /** The parameters the handler submits to the image-to-video endpoint. */
  datatype VideoJob = VideoJob(
    model: string,
    promptImage: string,
    duration: nat,
    promptText: Option<string>,
    ratio: string,
    watermark: bool)

  /** The JSON answer: `{ videoUrl }` with status 200, or `{ error }` with status 500. */
  datatype Response = VideoUrl(videoUrl: string) | ServerError(error: string)

  /** `options.tempo > 120`; a missing tempo compares false. */
  predicate FastTempo(tempo: Option<real>) {
    tempo.Some? && tempo.value > 120.0
  }

  /** Clip length in seconds: short clips for fast or busy tracks. */
  function ClipDuration(tempo: Option<real>, beatCount: nat): (d: nat)
    ensures d == 5 || d == 10
    ensures d == 5 <==> FastTempo(tempo) || beatCount > 16
  {
    if FastTempo(tempo) || beatCount > 16 then 5 else 10
  }

  /** More beats or a faster tempo never give a longer clip. */
  lemma ClipDurationMonotone(t1: Option<real>, b1: nat, t2: Option<real>, b2: nat)
    requires b1 <= b2
    requires t1.Some? ==> t2.Some? && t1.value <= t2.value
    ensures ClipDuration(t2, b2) <= ClipDuration(t1, b1)
  {
    if FastTempo(t1) {
      assert FastTempo(t2);
    }
  }

  /** The job submitted for a request: fixed model, no watermark, 16:9 unless another ratio is given. */
  function BuildJob(req: VideoRequest): (job: VideoJob)
    ensures job.model == GenerationModel && !job.watermark
    ensures job.promptImage == req.mainImage && job.promptText == req.options.promptText
    ensures job.duration == ClipDuration(req.options.tempo, |req.beats|)
    ensures job.ratio != ""
    ensures Truthy(req.options.aspectRatio) ==> job.ratio == req.options.aspectRatio.value
    ensures !Truthy(req.options.aspectRatio) ==> job.ratio == DefaultRatio
  {
    VideoJob(
      GenerationModel,
      req.mainImage,
      ClipDuration(req.options.tempo, |req.beats|),
      req.options.promptText,
      Interpolate(Or(req.options.aspectRatio, Some(DefaultRatio))),
      false)
  }

  /** The message the catch block puts in `error`. */
  function ErrorText(f: Fault): (text: string)
    ensures f.Error? ==> text == f.message
    ensures f.NonError? ==> text == GenericErrorMessage
  {
    match f
    case Error(m) => m
    case NonError => GenericErrorMessage
  }

  /** How the do/while poll ends; `attempts` is the value of the source's counter at that point. */
  datatype PollEnd =
    | TimedOut
    | RetrieveThrew(fault: Fault, attempts: nat)
    | Settled(task: Task, attempts: nat)

  /** A retrieval that keeps the loop going: it returned, with status exactly `RUNNING`. */
  predicate KeepsPolling(answer: Result<Task, Fault>) {
    answer.Ok? && answer.value.status == Running
  }

  /**
   * The poll from the point where `attempts` retrievals have completed. The
   * counter is compared with the cap before the loop condition, so the 30th
   * answer never reaches the status test.
   */
  function PollFrom(retrieve: nat -> Result<Task, Fault>, attempts: nat): (e: PollEnd)
    requires attempts < MaxAttempts
    ensures e.RetrieveThrew? ==> attempts <= e.attempts < MaxAttempts
    ensures e.Settled? ==> attempts < e.attempts < MaxAttempts && e.task.status != Running
    decreases MaxAttempts - attempts
  {
    match retrieve(attempts)
    case Err(f) => RetrieveThrew(f, attempts)
    case Ok(task) =>
      if attempts + 1 >= MaxAttempts then TimedOut
      else if task.status == Running then PollFrom(retrieve, attempts + 1)
      else Settled(task, attempts + 1)
  }

  /** The number of status retrievals a poll made. */
  function Retrievals(e: PollEnd): nat {
    match e
    case TimedOut => MaxAttempts
    case RetrieveThrew(_, a) => a + 1
    case Settled(_, a) => a
  }

  /** The value of the source's `attempts` counter when the poll ends. */
  function Counter(e: PollEnd): nat {
    match e
    case TimedOut => MaxAttempts
    case RetrieveThrew(_, a) => a
    case Settled(_, a) => a
  }

  /** After a task stops polling: a failure, a missing first output, or its URL. */
  function TaskResponse(task: Task): (r: Response)
    ensures r.VideoUrl? <==> task.status != Failed && task.output.Some? && |task.output.value| > 0 && task.output.value[0] != ""
    ensures r.VideoUrl? ==> r.videoUrl == task.output.value[0]
    ensures task.status == Failed ==> r == ServerError(FailureMessage(task))
    ensures r.ServerError? && task.status != Failed ==> r.error == NoOutputMessage
  {
    if task.status == Failed then ServerError(FailureMessage(task))
    else if task.output.None? || |task.output.value| == 0 || task.output.value[0] == "" then ServerError(NoOutputMessage)
    else VideoUrl(task.output.value[0])
  }

  /** The whole handler as a function of the request and the provider's answers. */
  function RouteResponse(req: VideoRequest, create: VideoJob -> Result<string, Fault>,
                         retrieve: nat -> Result<Task, Fault>): (r: Response)
    ensures create(BuildJob(req)).Err? ==> r == ServerError(ErrorText(create(BuildJob(req)).error))
    ensures create(BuildJob(req)).Ok? && PollFrom(retrieve, 0).TimedOut? ==> r == ServerError(TimedOutMessage)
    ensures create(BuildJob(req)).Ok? && PollFrom(retrieve, 0).RetrieveThrew? ==>
              r == ServerError(ErrorText(PollFrom(retrieve, 0).fault))
    ensures create(BuildJob(req)).Ok? && PollFrom(retrieve, 0).Settled? ==> r == TaskResponse(PollFrom(retrieve, 0).task)
    ensures r.VideoUrl? <==> create(BuildJob(req)).Ok? && PollFrom(retrieve, 0).Settled?
                             && TaskResponse(PollFrom(retrieve, 0).task).VideoUrl?
  {
    match create(BuildJob(req))
    case Err(f) => ServerError(ErrorText(f))
    case Ok(_) =>
      match PollFrom(retrieve, 0)
      case TimedOut => ServerError(TimedOutMessage)
      case RetrieveThrew(f, _) => ServerError(ErrorText(f))
      case Settled(task, _) => TaskResponse(task)
  }

  /** The route handler, with its do/while poll. */
  method Post(req: VideoRequest, create: VideoJob -> Result<string, Fault>, retrieve: nat -> Result<Task, Fault>)
    returns (resp: Response, submitted: VideoJob, attempts: nat)
    ensures submitted == BuildJob(req)
    ensures resp == RouteResponse(req, create, retrieve)
    ensures create(submitted).Err? ==> attempts == 0
    ensures create(submitted).Ok? ==> attempts == Counter(PollFrom(retrieve, 0))
    ensures attempts <= MaxAttempts
  {
    submitted := BuildJob(req);
    attempts := 0;
    var created := create(submitted);
    if created.Err? {
      return ServerError(ErrorText(created.error)), submitted, attempts;
    }
    while true
      invariant attempts < MaxAttempts
      invariant PollFrom(retrieve, attempts) == PollFrom(retrieve, 0)
      decreases MaxAttempts - attempts
    {
      var answer := retrieve(attempts);
      if answer.Err? {
        return ServerError(ErrorText(answer.error)), submitted, attempts;
      }
      var task := answer.value;
      attempts := attempts + 1;
      if attempts >= MaxAttempts {
        return ServerError(TimedOutMessage), submitted, attempts;
      }
      if task.status != Running {
        return TaskResponse(task), submitted, attempts;
      }
    }
  }

  /** While every answer in [from, k) says `RUNNING`, the poll from `from` is the poll from `k`. */
  lemma {:induction false} PollSkipsRunning(retrieve: nat -> Result<Task, Fault>, from: nat, k: nat)
    requires from <= k < MaxAttempts
    requires forall j :: from <= j < k ==> KeepsPolling(retrieve(j))
    ensures PollFrom(retrieve, from) == PollFrom(retrieve, k)
    decreases k - from
  {
    if from < k {
      PollSkipsRunning(retrieve, from + 1, k);
    }
  }

  /**
   * The poll stops at the first answer that is not `RUNNING`: a throw ends it
   * there, a returned task on retrievals 1-29 is kept whatever its status.
   */
  lemma PollStopsAtFirstNonRunning(retrieve: nat -> Result<Task, Fault>, k: nat)
    requires k < MaxAttempts - 1
    requires forall j :: 0 <= j < k ==> KeepsPolling(retrieve(j))
    requires !KeepsPolling(retrieve(k))
    ensures retrieve(k).Err? ==> PollFrom(retrieve, 0) == RetrieveThrew(retrieve(k).error, k)
    ensures retrieve(k).Ok? ==> PollFrom(retrieve, 0) == Settled(retrieve(k).value, k + 1)
    ensures Retrievals(PollFrom(retrieve, 0)) == k + 1
  {
    PollSkipsRunning(retrieve, 0, k);
  }

  /**
   * What a finished poll has seen: every retrieval but the last answered
   * `RUNNING`, and the last one is the answer the poll ended on.
   */
  lemma {:induction false} PollTrace(retrieve: nat -> Result<Task, Fault>, from: nat)
    requires from < MaxAttempts
    ensures var e := PollFrom(retrieve, from);
            && from < Retrievals(e) <= MaxAttempts
            && (forall j :: from <= j < Retrievals(e) - 1 ==> KeepsPolling(retrieve(j)))
            && (e.RetrieveThrew? ==> retrieve(e.attempts) == Err(e.fault))
            && (e.Settled? ==> retrieve(e.attempts - 1) == Ok(e.task))
            && (e.TimedOut? ==> retrieve(MaxAttempts - 1).Ok?)
    decreases MaxAttempts - from
  {
    if retrieve(from).Ok? && from + 1 < MaxAttempts && retrieve(from).value.status == Running {
      PollTrace(retrieve, from + 1);
    }
  }

  /**
   * The poll times out exactly when the first 29 answers say `RUNNING` and the
   * 30th returns at all, whatever status that 30th answer carries.
   */
  lemma PollTimesOutIff(retrieve: nat -> Result<Task, Fault>)
    ensures PollFrom(retrieve, 0) == TimedOut <==>
              (forall j :: 0 <= j < MaxAttempts - 1 ==> KeepsPolling(retrieve(j))) && retrieve(MaxAttempts - 1).Ok?
  {
    PollTrace(retrieve, 0);
    if forall j :: 0 <= j < MaxAttempts - 1 ==> KeepsPolling(retrieve(j)) {
      PollSkipsRunning(retrieve, 0, MaxAttempts - 1);
    }
  }

  /** The poll's outcome depends only on the answers to the retrievals it made. */
  lemma {:induction false} PollReadsOnlyItsRetrievals(r1: nat -> Result<Task, Fault>, r2: nat -> Result<Task, Fault>, from: nat)
    requires from < MaxAttempts
    requires forall j :: from <= j < Retrievals(PollFrom(r1, from)) ==> r1(j) == r2(j)
    ensures PollFrom(r1, from) == PollFrom(r2, from)
    decreases MaxAttempts - from
  {
    assert r1(from) == r2(from) by {
      match PollFrom(r1, from)
      case TimedOut =>
      case RetrieveThrew(_, a) =>
      case Settled(_, a) =>
    }
    if r1(from).Ok? && from + 1 < MaxAttempts && r1(from).value.status == Running {
      PollReadsOnlyItsRetrievals(r1, r2, from + 1);
    }
  }

  /**
   * The handler answers with a URL only for a task kept on retrievals 1-29 that
   * neither failed nor kept `RUNNING`, and the URL is that task's first output.
   */
  lemma RouteSuccessIsFirstOutput(req: VideoRequest, create: VideoJob -> Result<string, Fault>,
                                  retrieve: nat -> Result<Task, Fault>)
    requires RouteResponse(req, create, retrieve).VideoUrl?
    ensures create(BuildJob(req)).Ok?
    ensures PollFrom(retrieve, 0).Settled?
    ensures var e := PollFrom(retrieve, 0);
            && 1 <= e.attempts < MaxAttempts
            && retrieve(e.attempts - 1) == Ok(e.task)
            && e.task.status != Running && e.task.status != Failed
            && RouteResponse(req, create, retrieve).videoUrl == e.task.output.value[0]
  {
    PollTrace(retrieve, 0);
  }

  /**
   * With the first `k` answers `RUNNING` and the (k+1)-th not, the handler's
   * response is decided by that answer alone; on the 30th retrieval it is the
   * timeout, even for a succeeded task.
   */
  lemma RouteDecidedByFirstNonRunning(req: VideoRequest, create: VideoJob -> Result<string, Fault>,
                                      retrieve: nat -> Result<Task, Fault>, k: nat)
    requires create(BuildJob(req)).Ok?
    requires k < MaxAttempts
    requires forall j :: 0 <= j < k ==> KeepsPolling(retrieve(j))
    requires k == MaxAttempts - 1 || !KeepsPolling(retrieve(k))
    ensures retrieve(k).Err? ==> RouteResponse(req, create, retrieve) == ServerError(ErrorText(retrieve(k).error))
    ensures retrieve(k).Ok? && k == MaxAttempts - 1 ==> RouteResponse(req, create, retrieve) == ServerError(TimedOutMessage)
    ensures retrieve(k).Ok? && k < MaxAttempts - 1 ==> RouteResponse(req, create, retrieve) == TaskResponse(retrieve(k).value)
  {
    PollSkipsRunning(retrieve, 0, k);
  }
}
