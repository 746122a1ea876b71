/** Rendering a Workflow for one attempt (operator/internal/controller/workflow_builder.go). */
module WorkflowBuilder {
  import opened Model
  import opened Int32
  import opened Naming

  const LABEL_TRAINING_JOB := "mlplatform.fyp.io/trainingjob"
  const LABEL_MANAGED_BY := "app.kubernetes.io/managed-by"
  const MANAGER_NAME := "ml-operator"
  const DEFAULT_TEMPLATE := "training-pipeline"

  /** A spec key, the pipeline parameter it feeds, and the value used when the key is missing. */
  datatype HyperParameter = HyperParameter(specKey: string, paramName: string, defaultValue: string)

  const HYPER_PARAMETERS: seq<HyperParameter> := [
    HyperParameter("epochs", "epochs", "2"),
    HyperParameter("batchSize", "batch-size", "128"),
    HyperParameter("learningRate", "lr", "0.001")
  ]

  /** A missing or empty hyperparameter falls back to its default. */
  function HyperValue(job: Job, hp: HyperParameter): string {
    var given := job.spec.hyperparameters;
    if hp.specKey in given && given[hp.specKey] != "" then given[hp.specKey] else hp.defaultValue
  }

  function HyperList(job: Job, n: nat): (r: seq<Parameter>)
    requires n <= |HYPER_PARAMETERS|
    ensures |r| == n
  {
    seq(n, i requires 0 <= i < n => Parameter(HYPER_PARAMETERS[i].paramName, HyperValue(job, HYPER_PARAMETERS[i])))
  }

  function Parameters(job: Job): seq<Parameter> {
    [ Parameter("job-name", job.name),
      Parameter("model", job.spec.model),
      Parameter("dataset", job.spec.dataset)
    ] + HyperList(job, 3) + [Parameter("s3-path", S3Path(job))]
  }

  function Labels(job: Job): map<string, string> {
    map[LABEL_TRAINING_JOB := job.name, LABEL_MANAGED_BY := MANAGER_NAME]
  }

  function WorkflowFor(job: Job, attempt: int32, templateName: string): Workflow {
    Workflow(
      WorkflowName(job.name, attempt),
      Labels(job),
      job.name,
      if templateName == "" then DEFAULT_TEMPLATE else templateName,
      Parameters(job),
      "")
  }

  /** Build the Workflow and set the controller reference. */
  method BuildWorkflow(job: Job, attempt: int32, templateName: string) returns (wf: Workflow)
    ensures wf == WorkflowFor(job, attempt, templateName)
  {
    var template := templateName;
    if template == "" {
      template := DEFAULT_TEMPLATE;
    }
    var params := [
      Parameter("job-name", job.name),
      Parameter("model", job.spec.model),
      Parameter("dataset", job.spec.dataset)
    ];
    ghost var fixed := params;
    for i := 0 to |HYPER_PARAMETERS|
      invariant params == fixed + HyperList(job, i)
    {
      var hp := HYPER_PARAMETERS[i];
      var v := hp.defaultValue;
      if hp.specKey in job.spec.hyperparameters && job.spec.hyperparameters[hp.specKey] != "" {
        v := job.spec.hyperparameters[hp.specKey];
      }
      params := params + [Parameter(hp.paramName, v)];
      assert HyperList(job, i + 1) == HyperList(job, i) + [Parameter(hp.paramName, v)];
    }
    params := params + [Parameter("s3-path", S3Path(job))];
    wf := Workflow(WorkflowName(job.name, attempt), Labels(job), job.name, template, params, "");
  }

  /**
   The Workflow is named after the attempt, carries the label its cleanup looks for and its owner, and
   refers to the given template or the default one. The pipeline gets exactly its seven parameters, in
   order; an unset or empty hyperparameter arrives as its default; and `s3-path` is the path inside the
   recorded ModelURI.
   */
  lemma PipelineContract(job: Job, attempt: int32, templateName: string)
    ensures var wf := WorkflowFor(job, attempt, templateName);
            && wf.name == job.name + "-attempt-" + Decimal(attempt) && wf.owner == job.name && wf.phase == ""
            && wf.templateName == (if templateName != "" then templateName else "training-pipeline")
            && wf.labels == map["mlplatform.fyp.io/trainingjob" := job.name,
                                "app.kubernetes.io/managed-by" := "ml-operator"]
    ensures var given := job.spec.hyperparameters;
            WorkflowFor(job, attempt, templateName).parameters == [
              Parameter("job-name", job.name),
              Parameter("model", job.spec.model),
              Parameter("dataset", job.spec.dataset),
              Parameter("epochs",
                if "epochs" in given && given["epochs"] != "" then given["epochs"] else "2"),
              Parameter("batch-size",
                if "batchSize" in given && given["batchSize"] != "" then given["batchSize"] else "128"),
              Parameter("lr",
                if "learningRate" in given && given["learningRate"] != "" then given["learningRate"] else "0.001"),
              Parameter("s3-path", job.spec.bucket + "/" + job.namespace + "/" + job.name)]
    ensures ModelURI(job) == "s3://" + WorkflowFor(job, attempt, templateName).parameters[6].value + "/"
    ensures WorkflowFor(job, attempt, templateName).labels[LABEL_TRAINING_JOB] == job.name
  {
    var params := Parameters(job);
    assert params[3..6] == HyperList(job, 3);
    forall i | 0 <= i < 3
      ensures params[3 + i] == HyperList(job, 3)[i]
    {
    }
    assert params[6] == Parameter("s3-path", S3Path(job));
  }
}
