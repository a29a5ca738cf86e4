/**
 * The task record the image-to-video provider returns when a job's status is
 * retrieved, shared by the API route and the sequence assembler.
 */
module RunwayTasks {
  import opened JsValues

  const GenerationModel := "gen3a_turbo"
  const Running := "RUNNING"
  const Succeeded := "SUCCEEDED"
  const Failed := "FAILED"
  const FailedPrefix := "Video generation failed: "

  /**
   * `status` is kept as the provider's raw string: the callers compare it with
   * string literals, so an unexpected status is a value like any other.
   */
  datatype Task = Task(
    status: string,
    output: Option<seq<string>>,
    failure: Option<string>,
    failureCode: Option<string>)

  /** The message both callers throw for a `FAILED` task: the failure, else the failure code. */
  function FailureMessage(task: Task): (m: string)
    ensures Truthy(task.failure) ==> m == FailedPrefix + task.failure.value
    ensures !Truthy(task.failure) && task.failureCode.Some? ==> m == FailedPrefix + task.failureCode.value
    ensures !Truthy(task.failure) && task.failureCode.None? ==> m == FailedPrefix + "undefined"
  {
    FailedPrefix + Interpolate(Or(task.failure, task.failureCode))
  }
}
