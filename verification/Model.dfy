/** The API objects the operator reads and writes (operator/api/v1alpha1). */
module Model {
  import opened Int32

  datatype Option<+T> = None | Some(value: T)

  /** `Unset` is the empty phase of a TrainingJob that no reconcile has touched yet. */
  datatype Phase = Unset | Pending | Queued | Running | Succeeded | Failed

  datatype ConditionType = QuotaGranted | WorkflowSubmitted | Complete

  datatype Reason =
    | QuotaAvailable
    | QuotaExceeded
    | Submitted
    | TrainingSucceeded
    | BackoffLimitExceeded

  datatype Condition = Condition(status: bool, reason: Reason)

  datatype JobSpec = JobSpec(
    model: string,
    dataset: string,
    hyperparameters: map<string, string>,
    gpus: nat32,
    backoffLimit: nat32,
    ttlSeconds: Option<nat32>,
    bucket: string)
  {
    /** The CRD's remaining validation rules; the API server refuses a job that breaks one. */
    predicate Valid() {
      && model in {"mnist-cnn", "cifar10-cnn"}
      && dataset != ""
      && bucket != ""
    }
  }

  /** Times are stored with one-second resolution, as the API serializes them. */
  datatype JobStatus = JobStatus(
    phase: Phase,
    attempts: int32,
    workflowName: string,
    modelURI: string,
    startTime: Option<int>,
    completionTime: Option<int>,
    conditions: map<ConditionType, Condition>)

  const NEW_STATUS := JobStatus(Unset, 0, "", "", None, None, map[])

  datatype Job = Job(
    namespace: string,
    name: string,
    spec: JobSpec,
    status: JobStatus,
    finalizer: bool,
    deleting: bool)
  {
    predicate IsTerminal() {
      status.phase == Succeeded || status.phase == Failed
    }

    /** Has not started its current attempt: these jobs go through the quota gate. */
    predicate IsWaiting() {
      status.phase == Unset || status.phase == Pending || status.phase == Queued
    }

    predicate IsRunning() {
      status.phase == Running
    }

    function WithCondition(t: ConditionType, status: bool, reason: Reason): Job {
      this.(status := this.status.(conditions := this.status.conditions[t := Condition(status, reason)]))
    }
  }

  datatype Parameter = Parameter(name: string, value: string)

  /** An Argo Workflow; `owner` is the TrainingJob in its controller reference. */
  datatype Workflow = Workflow(
    name: string,
    labels: map<string, string>,
    owner: string,
    templateName: string,
    parameters: seq<Parameter>,
    phase: string)

  datatype Quota = Quota(hardGPUs: nat32, usedGPUs: int32, queuedJobs: int32)

  /** What a reconcile asks the work queue to do with the job's key. */
  datatype Result = Done | Requeue | RequeueAfter(delay: int)

  /** Argo never leaves one of these phases. */
  predicate IsFinalPhase(workflowPhase: string) {
    workflowPhase in {"Succeeded", "Failed", "Error"}
  }

  /** The TrainingJob phase a Workflow phase stands for, and whether the Workflow is finished. */
  function MapWorkflowPhase(workflowPhase: string): (r: (Phase, bool))
    ensures r.1 <==> IsFinalPhase(workflowPhase)
    ensures !r.1 ==> r.0 == Running
    ensures r.1 ==> r.0 in {Succeeded, Failed} && (r.0 == Succeeded <==> workflowPhase == "Succeeded")
  {
    match workflowPhase
    case "Succeeded" => (Succeeded, true)
    case "Failed" => (Failed, true)
    case "Error" => (Failed, true)
    case _ => (Running, false)
  }
}
