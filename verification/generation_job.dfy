/**
 * GenerationJob: a mutable bean. Its status, serviceName, generatedFiles and
 * error are set one by one by the orchestration service.
 */
module GenerationJobs {
  import opened Wrappers

  /** The four documented values of the job's status string. */
  datatype JobStatus = Pending | Completed | Failed | FailedGovernance {
    /** The string the job record carries for this status. */
    function Name(): string {
      match this
      case Pending => "PENDING"
      case Completed => "COMPLETED"
      case Failed => "FAILED"
      case FailedGovernance => "FAILED_GOVERNANCE"
    }

    /** A status other than PENDING ends the job. */
    predicate IsTerminal() {
      !Pending?
    }
  }

  /** The fields `processJob` writes, taken together as a value. */
  datatype JobRecord = JobRecord(
    serviceName: Option<string>,
    status: Option<JobStatus>,
    generatedFiles: Option<map<string, string>>,
    error: Option<string>)

  class GenerationJob {
    var id: string
    var prompt: Option<string>
    var serviceName: Option<string>
    var status: Option<JobStatus>
    var generatedFiles: Option<map<string, string>>
    var error: Option<string>

    /** `new GenerationJob()`: a random UUID (given here as `uuid`) and every other field null. */
    constructor (uuid: string)
      ensures id == uuid && prompt == None && serviceName == None
      ensures status == None && generatedFiles == None && error == None
    {
      id := uuid;
      prompt := None;
      serviceName := None;
      status := None;
      generatedFiles := None;
      error := None;
    }

    /** `new GenerationJob(prompt)`: status PENDING, no files, no error. */
    constructor WithPrompt(uuid: string, prompt: string)
      ensures id == uuid && this.prompt == Some(prompt) && serviceName == None
      ensures status == Some(Pending) && generatedFiles == None && error == None
    {
      id := uuid;
      this.prompt := Some(prompt);
      serviceName := None;
      status := Some(Pending);
      generatedFiles := None;
      error := None;
    }

    /** The fields `processJob` writes. */
    function Record(): JobRecord
      reads this
    {
      JobRecord(serviceName, status, generatedFiles, error)
    }
  }
}
