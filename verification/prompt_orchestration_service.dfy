/**
 * PromptOrchestrationService: the in-memory job registry and the job
 * pipeline. `processJob` parses the prompt into an intent, asks the model
 * for business code, runs the generation engine and the governance scan,
 * and records the outcome on the job.
 */
module PromptOrchestrationService {
  import opened Wrappers
  import opened JavaString
  import opened IntentModels
  import opened ExternalLibraries
  import opened GenerationJobs
  import opened LlmClient
  import CE = CodeGenerationEngine
  import PPS = PromptParsingService
  import GS = GovernanceService
  import P = EngineParser

  /**
   * How a `processJob` call ends: it returns the job; or a null intent is
   * dereferenced; or the engine throws (a null field it dereferences, or a
   * package rewrite with an illegal replacement).
   */
  datatype Outcome = Returned | IntentThrew | EngineThrew

  /** Some generated file holds a secret, whatever order the scan visits them in. */
  ghost predicate HasSecret(files: map<string, string>) {
    exists n :: n in files && GS.SecretMatch(files[n])
  }

  /** The intent's service name is missing or an error message. */
  predicate NameRejected(intent: IntentModel) {
    intent.serviceName.None? || StartsWith(intent.serviceName.value, "ERROR")
  }

  /**
   * What `processJob` does to a job whose written fields were `before`, given
   * the intent parsed from its prompt and the model's reply to the
   * business-logic prompt: the new fields and how the call ends.
   */
  ghost function Processed(tpl: CE.Templates, intent: IntentModel, output: string, before: JobRecord): (JobRecord, Outcome) {
    if NameRejected(intent) then
      (before.(status := Some(Failed), error := intent.serviceName), Returned)
    else
      var named := before.(serviceName := intent.serviceName);
      if StartsWith(output, "ERROR") then
        (named.(status := Some(Failed), error := Some(output)), Returned)
      else
        Generated(tpl, intent, output, named)
  }

  /** The same, starting from what `parse` returned: a null intent throws at its first use. */
  ghost function ProcessedParse(tpl: CE.Templates, parsed: Option<IntentModel>, output: string, before: JobRecord): (JobRecord, Outcome) {
    if parsed.None? then (before, IntentThrew) else Processed(tpl, parsed.value, output, before)
  }

  /**
   * The end of `processJob`, once the reply is in: the engine's files are
   * attached, and the scan decides between FAILED_GOVERNANCE and COMPLETED.
   */
  ghost function Generated(tpl: CE.Templates, intent: IntentModel, output: string, before: JobRecord): (JobRecord, Outcome) {
    if !CE.EngineReady(intent) || CE.LlmFilesThrow(tpl, intent, output) then
      (before, EngineThrew)
    else
      var files := CE.Project(tpl, intent, output);
      (before.(generatedFiles := Some(files), status := Some(if HasSecret(files) then FailedGovernance else Completed)), Returned)
  }

  class OrchestrationService {
    /** The registry, from job id to job. */
    var jobs: map<string, GenerationJob>
    /** The language-model client. */
    const llm: Client
    /** Jackson's readers and the regex clean-up. */
    const libs: Libraries
    /** The generation engine's templates. */
    const templates: CE.Templates

    /** Every job is filed under its own id and carries a prompt. */
    ghost predicate Valid()
      reads this, jobs.Values
    {
      forall id :: id in jobs ==> jobs[id].id == id && jobs[id].prompt.Some?
    }

    /** A service with an empty registry. */
    constructor (llm: Client, libs: Libraries, templates: CE.Templates)
      ensures this.llm == llm && this.libs == libs && this.templates == templates
      ensures jobs == map[] && Valid()
    {
      this.llm := llm;
      this.libs := libs;
      this.templates := templates;
      jobs := map[];
    }

    /** Since ids are keys, no job object is filed twice. */
    lemma JobsDistinct()
      requires Valid()
      ensures forall a, b :: a in jobs && b in jobs && a != b ==> jobs[a] != jobs[b]
    {
    }

    /** `createJob(userPrompt)`, with `uuid` the random id. */
    method CreateJob(userPrompt: string, uuid: string) returns (job: GenerationJob)
      requires Valid()
      modifies this
      ensures Valid() && fresh(job)
      ensures jobs == old(jobs)[uuid := job]
      ensures job.id == uuid && job.prompt == Some(userPrompt)
      ensures job.Record() == JobRecord(None, Some(Pending), None, None)
    {
      job := new GenerationJob(uuid);
      job.id := uuid;
      job.prompt := Some(userPrompt);
      job.status := Some(Pending);
      jobs := jobs[uuid := job];
    }

    /** `getJob(jobId)`: the registered job, or None (Java's null) for an unknown id. */
    method GetJob(id: string) returns (job: Option<GenerationJob>)
      ensures job.Some? <==> id in jobs
      ensures job.Some? ==> job.value == jobs[id]
      ensures Valid() && job.Some? ==> job.value.id == id
    {
      if id in jobs {
        job := Some(jobs[id]);
      } else {
        job := None;
      }
    }

    /**
     * `processJob(jobId)`. The registry lookup is not guarded, so the id must be
     * registered. Only the job's written fields change.
     */
    method ProcessJob(id: string) returns (job: GenerationJob, outcome: Outcome)
      requires Valid() && id in jobs
      modifies jobs[id]
      ensures Valid() && jobs == old(jobs) && job == jobs[id]
      ensures job.id == id && job.prompt == old(job.prompt)
      ensures (job.Record(), outcome)
        == ProcessedParse(templates, PPS.Parse(llm, libs, job.prompt.value), llm(BusinessLogic, job.prompt.value), old(job.Record()))
    {
      job := jobs[id];
      outcome := RunJob(job, job.prompt.value);
      RegistryKept(job);
    }

    /** Changing one job, but not its id or prompt, keeps the registry valid. */
    twostate lemma RegistryKept(job: GenerationJob)
      requires old(Valid()) && jobs == old(jobs)
      requires unchanged(old(jobs.Values) - {job})
      requires job.id == old(job.id) && job.prompt == old(job.prompt)
      ensures Valid()
    {
      forall k | k in jobs
        ensures jobs[k].id == k && jobs[k].prompt.Some?
      {
        if jobs[k] != job {
          assert jobs[k] in old(jobs.Values) - {job};
        }
      }
    }

    /** Lines 38-131 of `processJob`, on the job found. */
    method RunJob(job: GenerationJob, prompt: string) returns (outcome: Outcome)
      modifies job
      ensures job.id == old(job.id) && job.prompt == old(job.prompt)
      ensures (job.Record(), outcome)
        == ProcessedParse(templates, PPS.Parse(llm, libs, prompt), llm(BusinessLogic, prompt), old(job.Record()))
    {
      var parsed := PPS.Parse(llm, libs, prompt);
      if parsed.None? {
        // intent.getServiceName() on a null intent
        return IntentThrew;
      }
      outcome := RunIntent(job, parsed.value, prompt);
    }

    /** Lines 41-131 of `processJob`: check the service name, then ask for the business code. */
    method RunIntent(job: GenerationJob, intent: IntentModel, prompt: string) returns (outcome: Outcome)
      modifies job
      ensures job.id == old(job.id) && job.prompt == old(job.prompt)
      ensures (job.Record(), outcome) == Processed(templates, intent, llm(BusinessLogic, prompt), old(job.Record()))
    {
      if intent.serviceName.None? || StartsWith(intent.serviceName.value, "ERROR") {
        job.status := Some(Failed);
        job.error := intent.serviceName;
        return Returned;
      }
      job.serviceName := intent.serviceName;
      var llmOutput := llm(BusinessLogic, prompt);
      if StartsWith(llmOutput, "ERROR") {
        job.status := Some(Failed);
        job.error := Some(llmOutput);
        return Returned;
      }
      outcome := GenerateAndScan(job, intent, llmOutput);
    }

    /** Lines 119-131 of `processJob`: generate, attach the files, scan, set the status. */
    method GenerateAndScan(job: GenerationJob, intent: IntentModel, llmOutput: string) returns (outcome: Outcome)
      modifies job
      ensures job.id == old(job.id) && job.prompt == old(job.prompt)
      ensures (job.Record(), outcome) == Generated(templates, intent, llmOutput, old(job.Record()))
    {
      if !CE.EngineReady(intent) {
        // generateProject dereferences a null field; the exception leaves the job as it is
        return EngineThrew;
      }
      var generated := CE.GenerateProject(templates, intent, llmOutput);
      if generated.None? {
        // the package rewrite threw; the job is left as it is
        return EngineThrew;
      }
      var files := generated.value;
      job.generatedFiles := Some(files);
      var order := GS.EntrySetOrder(files);
      var violations := GS.Scan(files, order);
      GS.ScanEmptyIff(files, order);
      if |violations| > 0 {
        job.status := Some(FailedGovernance);
      } else {
        job.status := Some(Completed);
      }
      return Returned;
    }
  }

  // ---------------------------------------------------------------------
  // properties of processJob

  /**
   * Every return leaves the job FAILED, FAILED_GOVERNANCE or COMPLETED; an
   * escaping exception leaves the status and files alone, and a null intent
   * is the only way to the first dereference failing, which then changes nothing.
   */
  lemma ProcessedEndsJob(tpl: CE.Templates, parsed: Option<IntentModel>, output: string, before: JobRecord)
    ensures var (after, outcome) := ProcessedParse(tpl, parsed, output, before);
      && (outcome == Returned ==> after.status.Some? && after.status.value.IsTerminal())
      && (outcome != Returned ==> after.status == before.status && after.generatedFiles == before.generatedFiles)
      && (outcome == IntentThrew <==> parsed.None?)
      && (outcome == IntentThrew ==> after == before)
  {
  }

  /** A reply Jackson reads as null makes `processJob` throw before it touches the job. */
  lemma NullIntentThrows(tpl: CE.Templates, llm: Client, libs: Libraries, prompt: string, json: string, output: string, before: JobRecord)
    requires !StartsWith(llm(IntentExtraction, prompt), "ERROR")
    requires PPS.ExtractJson(llm(IntentExtraction, prompt)) == Some(json)
    requires libs.readIntent(json) == ReadNull
    ensures ProcessedParse(tpl, PPS.Parse(llm, libs, prompt), output, before) == (before, IntentThrew)
  {
    PPS.ParseReadsExtractedJson(llm, libs, prompt, json);
  }

  /**
   * A job this call marks FAILED keeps its files as they were, and its error
   * is the rejected service name (null or an ERROR text) or the ERROR reply.
   */
  lemma FailedJobsExplainThemselves(tpl: CE.Templates, intent: IntentModel, output: string, before: JobRecord)
    ensures var (after, outcome) := Processed(tpl, intent, output, before);
      outcome == Returned && after.status == Some(Failed) ==>
        && after.generatedFiles == before.generatedFiles
        && (after.error.None? || StartsWith(after.error.value, "ERROR"))
  {
  }

  /** When the model's reply is not an error, a FAILED job was rejected for its service name, which is its error. */
  lemma FailedOnlyOnNameAfterGoodReply(tpl: CE.Templates, intent: IntentModel, output: string, before: JobRecord)
    requires !StartsWith(output, "ERROR")
    ensures var (after, outcome) := Processed(tpl, intent, output, before);
      outcome == Returned && after.status == Some(Failed) ==> NameRejected(intent) && after.error == intent.serviceName
  {
  }

  /** The service name is written only when the intent's name is accepted, and then it is that name. */
  lemma NameWrittenOnlyWhenAccepted(tpl: CE.Templates, intent: IntentModel, output: string, before: JobRecord)
    ensures var after := Processed(tpl, intent, output, before).0;
      after.serviceName != before.serviceName ==> !NameRejected(intent) && after.serviceName == intent.serviceName
  {
  }

  /** A job that gets past both ERROR checks carries the engine's project for the intent and the reply. */
  lemma ScannedJobsCarryProject(tpl: CE.Templates, intent: IntentModel, output: string, before: JobRecord)
    ensures var (after, outcome) := Processed(tpl, intent, output, before);
      outcome == Returned && after.status != Some(Failed) ==>
        && CE.EngineReady(intent) && !CE.LlmFilesThrow(tpl, intent, output)
        && after.generatedFiles == Some(CE.Project(tpl, intent, output))
  {
  }

  /** Such a job is FAILED_GOVERNANCE exactly when the scan, in any entry order, reports something. */
  lemma GovernanceVerdictIsScan(tpl: CE.Templates, intent: IntentModel, output: string, before: JobRecord, order: seq<string>)
    requires !NameRejected(intent) && !StartsWith(output, "ERROR") && CE.EngineReady(intent)
    requires !CE.LlmFilesThrow(tpl, intent, output)
    requires GS.IsEnumeration(order, CE.Project(tpl, intent, output))
    ensures var after := Processed(tpl, intent, output, before).0;
      after.status == Some(FailedGovernance) <==> GS.Violations(CE.Project(tpl, intent, output), order) != []
  {
    GS.ScanEmptyIff(CE.Project(tpl, intent, output), order);
  }

  /** The minimal intent is ready for the engine and asks for no conditional files. */
  lemma MinimalIntentAddsOnlyDeployment(tpl: CE.Templates, output: string)
    ensures !NameRejected(PPS.MinimalIntent()) && CE.EngineReady(PPS.MinimalIntent())
    ensures CE.ConditionalKeys(PPS.MinimalIntent()) == {}
    ensures CE.Project(tpl, PPS.MinimalIntent(), output).Keys
      == CE.ParsedFiles(tpl, PPS.MinimalIntent(), output).Keys + CE.DeployKeys
  {
    var intent := PPS.MinimalIntent();
    assert !StartsWith("microservice", "ERROR") by {
      assert "microservice"[..5][0] != "ERROR"[0];
    }
    assert intent.auth == DefaultIntent().auth && intent.persistence == DefaultIntent().persistence;
    assert intent.database == DefaultIntent().database && intent.entities == None;
    assert |ToLowerAscii("NONE")| == 4 && |ToLowerAscii("JWT")| == 3 && |ToLowerAscii("OAUTH2")| == 6;
    assert |ToLowerAscii("JPA")| == 3 && |ToLowerAscii("MYBATIS")| == 7;
    CE.PlainIntentAddsOnlyDeployment(tpl, intent, output);
  }

  /** Its package name is plain, so the engine never throws on it, whatever the reply. */
  lemma MinimalIntentParses(tpl: CE.Templates, output: string)
    ensures CE.EngineReady(PPS.MinimalIntent()) && !CE.LlmFilesThrow(tpl, PPS.MinimalIntent(), output)
  {
    assert P.IsPlainPackage("com.example.service");
    CE.PlainPackageParses(tpl, PPS.MinimalIntent(), output);
  }

  /**
   * When `parse` falls back and the model's reply is not an error, the job is
   * generated: its files are the LLM's files, the root files and the
   * deployment files, and nothing conditional.
   */
  lemma FallbackJobIsGenerated(tpl: CE.Templates, output: string, before: JobRecord)
    requires !StartsWith(output, "ERROR")
    ensures var (after, outcome) := Processed(tpl, PPS.MinimalIntent(), output, before);
      && outcome == Returned && after.serviceName == Some("microservice")
      && after.generatedFiles.Some?
      && after.generatedFiles.value.Keys == CE.ParsedFiles(tpl, PPS.MinimalIntent(), output).Keys + CE.DeployKeys
  {
    MinimalIntentAddsOnlyDeployment(tpl, output);
    MinimalIntentParses(tpl, output);
  }
}
