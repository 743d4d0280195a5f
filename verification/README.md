# microgen backend pipeline: a Dafny model

microgen turns a plain-language request into a Spring Boot service. Its
backend does this in four steps:

- **PromptParsingService** asks a language model (LLM) for a JSON intent and reads it with Jackson.
  - On any failure it falls back to a fixed minimal intent.
- **CodeGenerationEngine** builds a path-to-content map of the project. The map holds:
  - the root files;
  - the files the LLM wrote between `/// START FILE: ` markers, filed under a package "bucket";
  - the auth and persistence files;
  - the deployment files.
- **GovernanceService** scans every generated file for a secret-looking pattern.
- **PromptOrchestrationService** keeps an in-memory registry of `GenerationJob`s.
  - It drives each job from PENDING to FAILED, FAILED_GOVERNANCE or COMPLETED.

This project models that pipeline in Dafny and proves what each step promises.

## Modules

| module | file | models |
|---|---|---|
| `Wrappers` | `wrappers.dfy` | an `Option` type, used for Java null |
| `JavaString` | `java_string.dfy` | the `java.lang.String` operations the core uses: `trim`, `indexOf`, `lastIndexOf`, `contains`, `split`, `replace`, `replaceFirst` on `package .*`, `toLowerCase`, `equalsIgnoreCase` |
| `Json` | `json.dfy` | the part of Jackson's `JsonNode` the dependency miner reads |
| `ExternalLibraries` | `libraries.dfy` | Jackson's readers and the regular-expression clean-up, as function parameters |
| `SourceText` | `source_text.dfy` | how `%s`/`%d` format null values, and `replace("-", "_")` |
| `EntityModels`, `IntentModels` | `entity_model.dfy`, `intent_model.dfy` | the records, with nullable fields and the no-args defaults |
| `GenerationJobs` | `generation_job.dfy` | the mutable job bean (a class) and its status values |
| `MockLlmClient`, `LlmClient` | `mock_llm_client.dfy`, `llm_client.dfy` | the keyword-driven mock provider, and an LLM client as a function of (system prompt, user prompt) |
| `DynamicCodeGenerator` | `dynamic_code_generator.dfy` | the static template generators |
| `EngineTemplates` | `engine_templates.dfy` | the engine's own private copies of the templates that differ |
| `EngineDependencies` | `engine_dependencies.dfy` | `findMatchingBracket`, `extractJsonBlock`, `cleanLlmOutput`, `buildDependenciesFromLlm`, `generatePomDynamic` |
| `EngineParser` | `engine_parser.dfy` | `parseAndWriteLlmOutput` |
| `CodeGenerationEngine` | `code_generation_engine.dfy` | `generateProject`, stage by stage |
| `GovernanceService` | `governance_service.dfy` | `SECRET_PATTERNS` and `scan` |
| `PromptParsingService` | `prompt_parsing_service.dfy` | `extractJson`, `createMinimalIntent`, `parse` |
| `PromptOrchestrationService` | `prompt_orchestration_service.dfy` | the job registry (a class), `createJob`, `getJob`, `processJob` |

## How the model is built

- **Imperative code becomes methods proved against specification functions.**
  - `parseAndWriteLlmOutput` is a `while` loop over the split parts. It carries the map and the bucket and is proved equal to the fold `Walk` of the pure `Step`.
  - `findMatchingBracket` has a depth counter.
  - `buildDependenciesFromLlm`, `generateJpaEntity` and `scan` append in loops.
  - `generateProject` puts entries into a map.
  - The job registry is a class with a `jobs` map, and a job is a class whose fields `processJob` assigns.
- **Templates enter the engine as a `Templates` record of functions.** The key-level laws of `generateProject` therefore hold for any template text. `EngineBundle` supplies the engine's own templates, and the template lemmas state their package lines and the fragments they must contain.
- **An LLM client is a function from (which system prompt, user prompt) to the reply.** The services only ever send two fixed system prompts (`LlmClient.Text` gives their wording). A reply starting with `ERROR` is a failure.
- **Jackson and the regex clean-up are `Libraries` parameters.**
  - `readTree` returns `None` where it would throw.
  - `readValue` has three results: it throws, it returns null (for the JSON text `null`), or it returns an intent.
- **The order `HashMap.entrySet()` iterates in is a parameter.** It is any duplicate-free enumeration of the keys. `EntrySetOrder` chooses one, and the scan's multiset of violations is proved not to depend on it.
- **Java null is `None`.**
  - Where the engine dereferences a field without a check (package name, database, service name, each JPA entity's name and fields), `EngineReady` names the requirement.
  - `processJob` ends with the outcome `IntentThrew` when `parse` returned null, and `EngineThrew` when a field `EngineReady` requires is null or the package rewrite throws. A null element inside the entity list or a field list is not representable (see "## Left out").
- **Exceptions are results.** An operation that can throw returns `None` in that case, and the functions that specify it come with a predicate that says when it throws (`StepThrows`, `WalkThrows`, `ParseThrows`, `LlmFilesThrow`).
- **`replaceFirst` follows Java's replacement syntax.** `ExpandReplacement` models it for a pattern without groups:
  - a backslash writes the next character as it is, and a trailing backslash throws;
  - `$0` writes the matched text;
  - a `$` followed by anything else, or by nothing, throws.
- **Case-insensitive comparisons (`equalsIgnoreCase`, `toLowerCase`, `(?i)`) are modelled for ASCII letters.**

## Behaviour of the code worth knowing

- **An LLM file never replaces a root file.** The parser files every LLM file under `packagePath + bucket + filename`, allow-listed names included. So an LLM `pom.xml`, `application.yml` or `Dockerfile` sits in a source directory, and the root files keep the engine's text (`EngineParser.ParsedSpec`, `CodeGenerationEngine.ProjectRootFiles`).
- **The duplicate check can let a later file overwrite an earlier one.** The check looks under the bucket left by the *previous* segment, so a repeated file can overwrite the first copy instead of being skipped (`EngineParser.StaleBucketOverwrites`).
- **Without any start marker the stub is always added.** The raw text is still parsed as one segment, and `GeneratedService.java` is added on top of it.
  - Java's `split` drops trailing empty strings, so a text that ends in its only marker also gives one part, and the stub too.
- **The mock's AKIA reply is not a violation.** The single shipped pattern needs the word "secret" before the alphanumeric run, and the mock's AKIA line has none.
- **The minimal intent keeps persistence JPA.** It comes from the constructor and has a null entity list, so it yields no persistence files (`PromptOrchestrationService.MinimalIntentAddsOnlyDeployment`).
- **A `$` in the package name breaks generation.** The package rewrite passes `package <name>.<bucket>;` to `replaceFirst` as a replacement. So a legal Java package such as `com.my$app` makes it throw for every LLM file with a foreign package line, and `processJob` throws with it (`EngineParser.DollarPackageExample`). A backslash in the name silently drops out (`EngineParser.EscapedPackageLine`).
- **A JSON `null` reply crashes `processJob`.** Jackson reads the text `null` as a null intent without throwing, so `parse` does not fall back, and `processJob` dereferences it (`PromptOrchestrationService.NullIntentThrows`).
- **`extractJson` does not always fall back.**
  - On `}{` it returns the empty string rather than throwing.
  - Only a last `}` more than one position before the first `{` makes `substring` throw, and `parse` fall back (`PromptParsingService.BracesFailIff`).

## Model

| member | source | states |
|---|---|---|
| CodeGenerationEngine.GenerateProject | backend/src/main/java/com/microgen/orchestrator/engine/CodeGenerationEngine.java:19-71 | Returns None (the call throws) exactly when the parser's package rewrite throws on the LLM's files. Otherwise it returns exactly `Project(tpl, intent, llm)`: the root files, then the parser's files, then the JWT, persistence, OAuth2 and deployment puts, with each later put replacing an earlier one at the same path. |
| CodeGenerationEngine.PutRootFiles | backend/src/main/java/com/microgen/orchestrator/engine/CodeGenerationEngine.java:21-30 | The map holds exactly pom.xml, `<packagePath>Application.java` and application.yml, each with its template. |
| CodeGenerationEngine.PutJwtFiles | backend/src/main/java/com/microgen/orchestrator/engine/CodeGenerationEngine.java:36-41 | The map after the JWT branch is `WithJwt` of the map before it. |
| CodeGenerationEngine.PutEntityFiles | backend/src/main/java/com/microgen/orchestrator/engine/CodeGenerationEngine.java:44-49 | The loop over the entities leaves `WithEntities` over all of them, in list order. |
| CodeGenerationEngine.PutPersistenceFiles | backend/src/main/java/com/microgen/orchestrator/engine/CodeGenerationEngine.java:43-54 | The map after the JPA/MyBatis branch is `WithPersistence` of the map before it. |
| CodeGenerationEngine.PutOAuth2File | backend/src/main/java/com/microgen/orchestrator/engine/CodeGenerationEngine.java:56-59 | The map after the OAuth2 branch is `WithOAuth2` of the map before it. |
| CodeGenerationEngine.PutDeploymentFiles | backend/src/main/java/com/microgen/orchestrator/engine/CodeGenerationEngine.java:61-68 | The map after the Dockerfile, compose and CI puts is `WithDeployment` of the map before it. |
| CodeGenerationEngine.SourceKeysDiffer | backend/src/main/java/com/microgen/orchestrator/engine/CodeGenerationEngine.java:21 | Two relative paths that differ at some position give two different `packagePath` keys. |
| CodeGenerationEngine.SourceKeyUnderJava | backend/src/main/java/com/microgen/orchestrator/engine/CodeGenerationEngine.java:21 | Every `packagePath + relative` key starts with `src/main/java/`. |
| CodeGenerationEngine.RootPathsOutsideJava | backend/src/main/java/com/microgen/orchestrator/engine/CodeGenerationEngine.java:24-68 | pom.xml, application.yml, schema.sql, Dockerfile, docker-compose.yml and the CI file all lie outside `src/main/java/`. |
| CodeGenerationEngine.NotASourceKey | backend/src/main/java/com/microgen/orchestrator/engine/CodeGenerationEngine.java:21 | A path outside `src/main/java/` is never a `packagePath` key. |
| CodeGenerationEngine.EntityKeysByName | backend/src/main/java/com/microgen/orchestrator/engine/CodeGenerationEngine.java:46-47 | Entities with different names get different entity paths and different repository paths. |
| CodeGenerationEngine.JwtKeysDistinct | backend/src/main/java/com/microgen/orchestrator/engine/CodeGenerationEngine.java:37-40 | The four JWT paths are pairwise distinct. |
| CodeGenerationEngine.MyBatisKeysDistinct | backend/src/main/java/com/microgen/orchestrator/engine/CodeGenerationEngine.java:51-53 | The three MyBatis paths are pairwise distinct. |
| CodeGenerationEngine.EntityAndRepositoryDiffer | backend/src/main/java/com/microgen/orchestrator/engine/CodeGenerationEngine.java:46-47 | An entity path is never a repository path. |
| CodeGenerationEngine.BucketKeyUnderJava | backend/src/main/java/com/microgen/orchestrator/engine/CodeGenerationEngine.java:351 | Every key the parser can write lies under `src/main/java/`. |
| CodeGenerationEngine.AppKeyNotBucketKey | backend/src/main/java/com/microgen/orchestrator/engine/CodeGenerationEngine.java:27 | The main class path is never a key the parser can write. |
| CodeGenerationEngine.StubKeyIsSourceKey | backend/src/main/java/com/microgen/orchestrator/engine/CodeGenerationEngine.java:356 | The fallback stub sits at `<packagePath>service/GeneratedService.java`. |
| CodeGenerationEngine.NotPersistenceKey | backend/src/main/java/com/microgen/orchestrator/engine/CodeGenerationEngine.java:46-53 | A relative path that starts with neither `m` nor `r` never collides with a persistence file. |
| CodeGenerationEngine.NotDeployKey | backend/src/main/java/com/microgen/orchestrator/engine/CodeGenerationEngine.java:62-68 | No `packagePath` key is a deployment path. |
| CodeGenerationEngine.AuthModesExclusive | backend/src/main/java/com/microgen/orchestrator/engine/CodeGenerationEngine.java:36-58 | The JWT and OAUTH2 branches never both fire. |
| CodeGenerationEngine.PersistenceModesExclusive | backend/src/main/java/com/microgen/orchestrator/engine/CodeGenerationEngine.java:44-54 | The JPA and MYBATIS branches never both fire. |
| CodeGenerationEngine.WithJwtSpec | backend/src/main/java/com/microgen/orchestrator/engine/CodeGenerationEngine.java:36-41 | Auth equal to JWT, ignoring case, adds exactly the four security/controller/model keys, each with its template, and leaves every other key unchanged. Otherwise the map is unchanged. |
| CodeGenerationEngine.WithEntitiesSpec | backend/src/main/java/com/microgen/orchestrator/engine/CodeGenerationEngine.java:44-49 | After n entities, the keys are the old keys plus the entity and repository keys of the first n entities. Every other key is unchanged. |
| CodeGenerationEngine.WithEntitiesLastWins | backend/src/main/java/com/microgen/orchestrator/engine/CodeGenerationEngine.java:45-49 | An entity's two files hold the templates of the last entity in the list with that name. |
| CodeGenerationEngine.WithPersistenceSpec | backend/src/main/java/com/microgen/orchestrator/engine/CodeGenerationEngine.java:43-54 | JPA with entities adds exactly the entity keys. MYBATIS, ignoring case, adds exactly User, UserMapper and schema.sql with their templates, whatever the entities. Any other setting adds nothing, and no other key changes. |
| CodeGenerationEngine.WithOAuth2Spec | backend/src/main/java/com/microgen/orchestrator/engine/CodeGenerationEngine.java:56-59 | OAUTH2 adds exactly security/OAuth2SecurityConfig.java with its template. Otherwise the map is unchanged. |
| CodeGenerationEngine.WithDeploymentSpec | backend/src/main/java/com/microgen/orchestrator/engine/CodeGenerationEngine.java:61-68 | Adds exactly the Dockerfile, docker-compose.yml and CI keys with their templates, and leaves every other key unchanged. |
| CodeGenerationEngine.LaterStepsKeys | backend/src/main/java/com/microgen/orchestrator/engine/CodeGenerationEngine.java:36-68 | The steps after the parser add exactly the conditional keys and the deployment keys. |
| CodeGenerationEngine.LaterStepsKeep | backend/src/main/java/com/microgen/orchestrator/engine/CodeGenerationEngine.java:36-68 | A key that no later step writes keeps the parser's value. |
| CodeGenerationEngine.AfterPersistenceKeeps | backend/src/main/java/com/microgen/orchestrator/engine/CodeGenerationEngine.java:56-68 | Neither the OAuth2 step nor the deployment step touches a key that they do not write. |
| CodeGenerationEngine.AfterJwtKeeps | backend/src/main/java/com/microgen/orchestrator/engine/CodeGenerationEngine.java:43-68 | The persistence, OAuth2 and deployment steps leave alone every key that they do not write. |
| CodeGenerationEngine.ConditionalKeysShape | backend/src/main/java/com/microgen/orchestrator/engine/CodeGenerationEngine.java:36-58 | Every conditional key is schema.sql or lies under `src/main/java/`. |
| CodeGenerationEngine.AppKeyNotConditional | backend/src/main/java/com/microgen/orchestrator/engine/CodeGenerationEngine.java:27-68 | No later step writes the main class path. |
| CodeGenerationEngine.ProjectKeys | backend/src/main/java/com/microgen/orchestrator/engine/CodeGenerationEngine.java:19-71 | The output keys are exactly the parser's keys, plus the conditional keys, plus the deployment keys. So pom.xml, Application.java, application.yml, Dockerfile, docker-compose.yml and the CI file are always present. |
| CodeGenerationEngine.RootFileKept | backend/src/main/java/com/microgen/orchestrator/engine/CodeGenerationEngine.java:24-33 | A root file that neither the parser nor a later step writes reaches the output unchanged. |
| CodeGenerationEngine.RootFilesDistinct | backend/src/main/java/com/microgen/orchestrator/engine/CodeGenerationEngine.java:24-30 | The three root files lie at three distinct paths, each holding its own template. |
| CodeGenerationEngine.RootKeysNotLater | backend/src/main/java/com/microgen/orchestrator/engine/CodeGenerationEngine.java:24-30 | Neither the parser nor any later step writes pom.xml or application.yml. |
| CodeGenerationEngine.ProjectRootFiles | backend/src/main/java/com/microgen/orchestrator/engine/CodeGenerationEngine.java:24-30 | The output's pom.xml, Application.java and application.yml are the engine's own templates: an LLM file never replaces them. |
| CodeGenerationEngine.JwtFileKept | backend/src/main/java/com/microgen/orchestrator/engine/CodeGenerationEngine.java:36-54 | A JWT file that persistence does not write survives the later steps. |
| CodeGenerationEngine.ProjectJwtFiles | backend/src/main/java/com/microgen/orchestrator/engine/CodeGenerationEngine.java:36-41 | Under JWT, the output holds SecurityConfig, JwtUtils and AuthController with their templates, overriding any LLM file at those paths. |
| CodeGenerationEngine.AuthRequestIsEntityKey | backend/src/main/java/com/microgen/orchestrator/engine/CodeGenerationEngine.java:40-46 | An entity's path equals the AuthRequest path exactly when the entity is named AuthRequest. |
| CodeGenerationEngine.AuthRequestNotEntityKey | backend/src/main/java/com/microgen/orchestrator/engine/CodeGenerationEngine.java:40-47 | Without an entity named AuthRequest, no entity key is the AuthRequest path. |
| CodeGenerationEngine.AuthRequestNotMyBatisKey | backend/src/main/java/com/microgen/orchestrator/engine/CodeGenerationEngine.java:40-52 | No MyBatis key is the AuthRequest path. |
| CodeGenerationEngine.AuthRequestNotPersistence | backend/src/main/java/com/microgen/orchestrator/engine/CodeGenerationEngine.java:40-54 | Unless a JPA entity is named AuthRequest, no persistence key is the AuthRequest path. |
| CodeGenerationEngine.ProjectAuthRequest | backend/src/main/java/com/microgen/orchestrator/engine/CodeGenerationEngine.java:40 | Under JWT, with no JPA entity named AuthRequest, the output's model/AuthRequest.java is the JWT template. |
| CodeGenerationEngine.ProjectEntityFiles | backend/src/main/java/com/microgen/orchestrator/engine/CodeGenerationEngine.java:44-49 | Under JPA with entities, an entity's two files in the output are its templates, unless a later entity has the same name. |
| CodeGenerationEngine.ProjectAuthRequestReplaced | backend/src/main/java/com/microgen/orchestrator/engine/CodeGenerationEngine.java:40-47 | Under JWT plus JPA, a JPA entity named AuthRequest overwrites the JWT AuthRequest file. |
| CodeGenerationEngine.MyBatisKeysNotLater | backend/src/main/java/com/microgen/orchestrator/engine/CodeGenerationEngine.java:50-68 | Neither the OAuth2 step nor the deployment step writes a MyBatis key. |
| CodeGenerationEngine.ProjectMyBatisFiles | backend/src/main/java/com/microgen/orchestrator/engine/CodeGenerationEngine.java:50-54 | Under MYBATIS, the output holds User, UserMapper and schema.sql with their templates. |
| CodeGenerationEngine.ProjectOAuth2File | backend/src/main/java/com/microgen/orchestrator/engine/CodeGenerationEngine.java:56-59 | Under OAUTH2, the output holds OAuth2SecurityConfig with its template. |
| CodeGenerationEngine.ProjectDeploymentFiles | backend/src/main/java/com/microgen/orchestrator/engine/CodeGenerationEngine.java:61-68 | The output always holds the engine's Dockerfile, compose and CI templates, overriding any LLM file at those paths. |
| CodeGenerationEngine.ParsedHasStub | backend/src/main/java/com/microgen/orchestrator/engine/CodeGenerationEngine.java:355-367 | LLM text without a start marker leaves the stub, which contains the whole raw text. |
| CodeGenerationEngine.StubKeyNotLater | backend/src/main/java/com/microgen/orchestrator/engine/CodeGenerationEngine.java:356 | No later step writes the stub's path. |
| CodeGenerationEngine.ProjectKeepsStub | backend/src/main/java/com/microgen/orchestrator/engine/CodeGenerationEngine.java:355-367 | LLM text without a start marker yields an output whose GeneratedService.java stub contains the whole raw text. |
| CodeGenerationEngine.PlainIntentAddsOnlyDeployment | backend/src/main/java/com/microgen/orchestrator/engine/CodeGenerationEngine.java:36-68 | An intent with none of JWT, OAUTH2, MYBATIS, or JPA-with-entities adds only the three deployment keys to the parser's map. |
| CodeGenerationEngine.PlainIntentSwitchesNothing | backend/src/main/java/com/microgen/orchestrator/engine/CodeGenerationEngine.java:36-58 | Such an intent selects no conditional key. |
| CodeGenerationEngine.DefaultIntentAddsOnlyDeployment | backend/src/main/java/com/microgen/orchestrator/engine/CodeGenerationEngine.java:44 | The constructor-default intent says JPA but has null entities. It is accepted, selects no conditional key, and adds only the deployment keys. |
| CodeGenerationEngine.PlainPackageParses | backend/src/main/java/com/microgen/orchestrator/engine/CodeGenerationEngine.java:31-33 | An intent whose package name has no `$` and no backslash never makes the parser throw, whatever the LLM wrote. |
| EngineParser.PackagePath | backend/src/main/java/com/microgen/orchestrator/engine/CodeGenerationEngine.java:301 | The package path starts with `src/main/java/` and ends with `/`. |
| EngineParser.ParseSegmentSkips | backend/src/main/java/com/microgen/orchestrator/engine/CodeGenerationEngine.java:305-310 | A part is skipped exactly when it is blank or has no newline. |
| EngineParser.FilenameIsOneLine | backend/src/main/java/com/microgen/orchestrator/engine/CodeGenerationEngine.java:312 | The text before the first newline, and its trimmed form, hold no newline. |
| EngineParser.ParseSegmentSpec | backend/src/main/java/com/microgen/orchestrator/engine/CodeGenerationEngine.java:308-317 | The file name is the trimmed first line and holds no newline. The content holds no END marker. When the part has no END marker, the first line, a newline and the content rebuild it. |
| EngineParser.ParseSegmentText | backend/src/main/java/com/microgen/orchestrator/engine/CodeGenerationEngine.java:308-317 | Round trip: a segment whose name is clean and whose content has no END marker is read back from its marker text unchanged. |
| EngineParser.ClassifySpec | backend/src/main/java/com/microgen/orchestrator/engine/CodeGenerationEngine.java:331-343 | A matching suffix or content rule decides the bucket whatever the previous bucket was. Without a match the previous bucket is kept. Classifying twice is the same as once, and a `Controller.java` name always gives controller/. |
| EngineParser.PackageLine | backend/src/main/java/com/microgen/orchestrator/engine/CodeGenerationEngine.java:347-348 | The replacement line starts with `package <pkg>`. |
| EngineParser.FixPackage | backend/src/main/java/com/microgen/orchestrator/engine/CodeGenerationEngine.java:346-349 | For a package name without `$` or backslash the package fix always succeeds. |
| EngineParser.FixPackageSpec | backend/src/main/java/com/microgen/orchestrator/engine/CodeGenerationEngine.java:346-349 | The fix fails (`replaceFirst` throws) only on content that has a `package ` text but does not name the package. Content that already names the package is unchanged. For a package name without `$` or backslash the fix never fails: the result names the package, or it is the unchanged content when the content holds no `package ` text, and fixing twice is the same as once. |
| EngineParser.PlainRewriteNamesPackage | backend/src/main/java/com/microgen/orchestrator/engine/CodeGenerationEngine.java:346-349 | With such a package name, content with a `package ` line that does not name the package gets a line that does. |
| EngineParser.DollarPackageThrows | backend/src/main/java/com/microgen/orchestrator/engine/CodeGenerationEngine.java:347-348 | A package name with a `$` not followed by `0` makes the rewrite throw ("Illegal group reference") on every file that has a `package ` text and does not already name the package. |
| EngineParser.DollarPackageExample | backend/src/main/java/com/microgen/orchestrator/engine/CodeGenerationEngine.java:347-348 | So the legal Java package `com.my$app` and a file holding `package x;` make the rewrite throw. |
| EngineParser.EscapedPackageLine | backend/src/main/java/com/microgen/orchestrator/engine/CodeGenerationEngine.java:347-348 | A backslash in the package name drops out: the file gets the package line of the name without it. |
| EngineParser.StubSpec | backend/src/main/java/com/microgen/orchestrator/engine/CodeGenerationEngine.java:356-366 | The stub starts with `package <pkg>.service;` and contains the raw LLM text inside its comment. |
| EngineParser.ParseAndWriteLlmOutput | backend/src/main/java/com/microgen/orchestrator/engine/CodeGenerationEngine.java:300-368 | Returns None (the call throws) exactly when some segment's package rewrite throws (`ParseThrows`). Otherwise the updated map is `Parsed(pkg, llm, files)`: the walk over the split parts, plus the stub when the map is empty or there is at most one part. |
| EngineParser.HandleParts | backend/src/main/java/com/microgen/orchestrator/engine/CodeGenerationEngine.java:304-352 | None exactly when the walk over all parts throws. Otherwise the loop's map and carried bucket are the walk over all parts, starting from the service/ bucket. |
| EngineParser.HandlePart | backend/src/main/java/com/microgen/orchestrator/engine/CodeGenerationEngine.java:305-351 | None exactly when this part's package rewrite throws. Otherwise one iteration is exactly one `Step`, covering the skip, the duplicate check on the previous bucket, classification, the package fix and the put. |
| EngineParser.ReadSegment | backend/src/main/java/com/microgen/orchestrator/engine/CodeGenerationEngine.java:305-317 | Reads a segment exactly when `ParseSegment` finds one, with the same file name and content. |
| EngineParser.StepSpec | backend/src/main/java/com/microgen/orchestrator/engine/CodeGenerationEngine.java:319-351 | A skipped or duplicate segment changes nothing and never throws. Otherwise the step throws exactly when the package fix does. When it does not throw, the new bucket is the classified one and exactly one key is added or replaced: `packagePath + bucket + filename`, holding the package-fixed content. |
| EngineParser.StepIdempotent | backend/src/main/java/com/microgen/orchestrator/engine/CodeGenerationEngine.java:323-351 | Feeding the same part twice in a row is the same as feeding it once. |
| EngineParser.WalkSpec | backend/src/main/java/com/microgen/orchestrator/engine/CodeGenerationEngine.java:304-352 | The walk never removes a key and never changes a key that is not a parser key. |
| EngineParser.ParsedSpec | backend/src/main/java/com/microgen/orchestrator/engine/CodeGenerationEngine.java:300-368 | Parsing keeps every earlier key, and changes no key outside the parser's `packagePath + bucket + name` keys. So allow-listed names such as pom.xml never replace the root files. |
| EngineParser.StubKeyIsBucketKey | backend/src/main/java/com/microgen/orchestrator/engine/CodeGenerationEngine.java:356 | The stub's path is a parser key (bucket service/). |
| EngineParser.NoMarkerAddsStub | backend/src/main/java/com/microgen/orchestrator/engine/CodeGenerationEngine.java:355-367 | Without a start marker, the whole text is processed as one segment and the stub is put on top. The stub contains the raw text. |
| EngineParser.StepStoresText | backend/src/main/java/com/microgen/orchestrator/engine/CodeGenerationEngine.java:312-351 | For a package name without `$` or backslash, a non-duplicate segment's marker text stores its package-fixed content under its classified bucket. |
| EngineParser.StaleBucketOverwrites | backend/src/main/java/com/microgen/orchestrator/engine/CodeGenerationEngine.java:326 | The duplicate check uses the previous segment's bucket. So, for a package name without `$` or backslash, a Controller file, then an entity, then the same Controller file again replaces the first controller's content instead of skipping the repeat. |
| EngineParser.StaleBucketExample | backend/src/main/java/com/microgen/orchestrator/engine/CodeGenerationEngine.java:333-339 | Concrete names meet the previous lemma's preconditions: `UserController.java`, and `Order.java` with `@Entity`. |
| EngineParser.WalkThrowsLater | backend/src/main/java/com/microgen/orchestrator/engine/CodeGenerationEngine.java:304-352 | Once the walk over the first parts throws, the walk over all of them throws. |
| EngineParser.PlainPackageNeverThrows | backend/src/main/java/com/microgen/orchestrator/engine/CodeGenerationEngine.java:304-352 | For a package name without `$` or backslash the walk over any parts never throws. |
| EngineDependencies.MatchFrom | backend/src/main/java/com/microgen/orchestrator/engine/CodeGenerationEngine.java:122-131 | The scan returns -1 or an index at or after where it starts. |
| EngineDependencies.MatchingBracket | backend/src/main/java/com/microgen/orchestrator/engine/CodeGenerationEngine.java:120-132 | The result is -1 or an index after `start`. |
| EngineDependencies.MatchFromSpec | backend/src/main/java/com/microgen/orchestrator/engine/CodeGenerationEngine.java:122-131 | A found index holds `close`, and the depth first returns to 0 there. On -1 the depth stays positive to the end of the text. |
| EngineDependencies.MatchingBracketSpec | backend/src/main/java/com/microgen/orchestrator/engine/CodeGenerationEngine.java:120-132 | The result is the first index after `start` where the open/close counter reaches 0, or -1 if the counter never does. |
| EngineDependencies.FindMatchingBracket | backend/src/main/java/com/microgen/orchestrator/engine/CodeGenerationEngine.java:120-132 | The loop with its depth counter returns `MatchingBracket`. |
| EngineDependencies.BracketBlockSpec | backend/src/main/java/com/microgen/orchestrator/engine/CodeGenerationEngine.java:98-106 | A non-empty block is a substring of the text, opens with `open`, closes with `close`, and stays balanced with positive depth until its end. |
| EngineDependencies.JsonBlockSpec | backend/src/main/java/com/microgen/orchestrator/engine/CodeGenerationEngine.java:98-118 | A non-empty result is a balanced `[...]` or `{...}` substring of the text. The `[` span wins whenever it exists. |
| EngineDependencies.ExtractJsonBlock | backend/src/main/java/com/microgen/orchestrator/engine/CodeGenerationEngine.java:98-118 | Returns `JsonBlock(text)`. |
| EngineDependencies.CleanedOutputSpec | backend/src/main/java/com/microgen/orchestrator/engine/CodeGenerationEngine.java:76-96 | The cleaned output is `[]` or a balanced JSON block. Blank input gives `[]`. |
| EngineDependencies.CleanLlmOutput | backend/src/main/java/com/microgen/orchestrator/engine/CodeGenerationEngine.java:76-96 | Returns `CleanedOutput` for the given clean-up function. |
| EngineDependencies.DependencyXmlSpec | backend/src/main/java/com/microgen/orchestrator/engine/CodeGenerationEngine.java:196-204 | An entry opens with `<dependency>` and holds the groupId and artifactId elements. It has a version element whenever the node has a version. Without a version it is exactly the opening tag, the groupId and artifactId elements and the closing tag. |
| EngineDependencies.DependencyEntriesOpen | backend/src/main/java/com/microgen/orchestrator/engine/CodeGenerationEngine.java:179-182 | Appending one or more entries starts with `<dependency>`. |
| EngineDependencies.DependencyEntriesContainEach | backend/src/main/java/com/microgen/orchestrator/engine/CodeGenerationEngine.java:179-183 | The appended text contains each array element's entry. |
| EngineDependencies.DependencyEntriesContainOne | backend/src/main/java/com/microgen/orchestrator/engine/CodeGenerationEngine.java:179-183 | The appended text contains the k-th element's entry. |
| EngineDependencies.DependenciesXmlSpec | backend/src/main/java/com/microgen/orchestrator/engine/CodeGenerationEngine.java:168-194 | The result is the Kafka default exactly when no element was appended. Otherwise it contains every mined element's entry. |
| EngineDependencies.EntriesAreNotKafka | backend/src/main/java/com/microgen/orchestrator/engine/CodeGenerationEngine.java:189-191 | A non-empty entry text is neither empty nor the Kafka default. |
| EngineDependencies.BuildDependenciesFromLlm | backend/src/main/java/com/microgen/orchestrator/engine/CodeGenerationEngine.java:168-194 | The StringBuilder loop returns `DependenciesXml(llm, libs)`. |
| EngineDependencies.PomTextSpec | backend/src/main/java/com/microgen/orchestrator/engine/CodeGenerationEngine.java:219-244 | The pom starts with the XML head and contains the groupId (package name), the artifactId (service name) and the dependencies block. |
| EngineDependencies.PomBodySpec | backend/src/main/java/com/microgen/orchestrator/engine/CodeGenerationEngine.java:222-243 | The pom after its head contains the groupId, artifactId and dependencies elements. |
| EngineDependencies.GeneratePomDynamic | backend/src/main/java/com/microgen/orchestrator/engine/CodeGenerationEngine.java:219-244 | Returns `Pom(intent, llm, libs)`. |
| EngineTemplates.DataSourceNamesDatabase | backend/src/main/java/com/microgen/orchestrator/engine/CodeGenerationEngine.java:262-281 | The JDBC URL ends with the service name with `-` replaced by `_`. Its prefix is the MySQL, PostgreSQL or H2 one, in that order of precedence. |
| EngineTemplates.ApplicationYmlSpec | backend/src/main/java/com/microgen/orchestrator/engine/CodeGenerationEngine.java:262-298 | application.yml holds the port, the name, and the datasource url, driver, username and password lines for the chosen database. |
| EngineTemplates.DbServiceBlockSpec | backend/src/main/java/com/microgen/orchestrator/engine/CodeGenerationEngine.java:516-527 | The db block mentions depends_on, the image and the database environment line. |
| EngineTemplates.DockerComposeSpec | backend/src/main/java/com/microgen/orchestrator/engine/CodeGenerationEngine.java:511-555 | The engine's compose file mentions depends_on exactly when the database is MYSQL or POSTGRESQL. In that case it names that image and database. |
| EngineTemplates.MainSpec | backend/src/main/java/com/microgen/orchestrator/engine/CodeGenerationEngine.java:246-260 | The main class starts with `package <pkg>;`. |
| EngineTemplates.JwtUtilsSpec | backend/src/main/java/com/microgen/orchestrator/engine/CodeGenerationEngine.java:402-425 | The engine's JwtUtils starts with `package <pkg>.security;`. |
| EngineTemplates.OAuth2SecurityConfigSpec | backend/src/main/java/com/microgen/orchestrator/engine/CodeGenerationEngine.java:616-638 | The engine's OAuth2 config starts with `package <pkg>.security;`. |
| EngineTemplates.DockerfileSpec | backend/src/main/java/com/microgen/orchestrator/engine/CodeGenerationEngine.java:370-377 | The engine's Dockerfile copies `target/*.jar`. |
| EngineTemplates.FieldLinesAppend | backend/src/main/java/com/microgen/orchestrator/engine/CodeGenerationEngine.java:578-581 | The field lines of a concatenation are the concatenation of the field lines. |
| EngineTemplates.FieldLinesInOrder | backend/src/main/java/com/microgen/orchestrator/engine/CodeGenerationEngine.java:579-581 | Each field's line sits between the lines of the fields before it and those after it, in list order. |
| EngineTemplates.JpaEntitySpec | backend/src/main/java/com/microgen/orchestrator/engine/CodeGenerationEngine.java:577-599 | The entity starts with `package <pkg>.model;` and holds `@Table(name = "<lowercased name>s")`, the class line and the field lines. |
| EngineTemplates.GenerateJpaEntity | backend/src/main/java/com/microgen/orchestrator/engine/CodeGenerationEngine.java:577-599 | The StringBuilder loop over the fields returns `JpaEntity(intent, entity)`. |
| EngineTemplates.JpaRepositorySpec | backend/src/main/java/com/microgen/orchestrator/engine/CodeGenerationEngine.java:601-614 | The repository starts with `package <pkg>.repository;`, imports the entity and declares `<Name>Repository`. |
| DynamicCodeGenerator.AuthControllerImports | backend/src/main/java/com/microgen/orchestrator/engine/DynamicCodeGenerator.java:62-85 | The AuthController body imports AuthRequest and JwtUtils from the intent's package. |
| DynamicCodeGenerator.SecurityConfigSpec | backend/src/main/java/com/microgen/orchestrator/engine/DynamicCodeGenerator.java:12-33 | Starts with `package <pkg>.security;`. |
| DynamicCodeGenerator.JwtUtilsSpec | backend/src/main/java/com/microgen/orchestrator/engine/DynamicCodeGenerator.java:36-59 | Starts with `package <pkg>.security;`. |
| DynamicCodeGenerator.AuthControllerSpec | backend/src/main/java/com/microgen/orchestrator/engine/DynamicCodeGenerator.java:62-85 | Starts with `package <pkg>.controller;` and imports AuthRequest and JwtUtils. |
| DynamicCodeGenerator.AuthRequestSpec | backend/src/main/java/com/microgen/orchestrator/engine/DynamicCodeGenerator.java:88-100 | Starts with `package <pkg>.model;`. |
| DynamicCodeGenerator.OAuth2SecurityConfigSpec | backend/src/main/java/com/microgen/orchestrator/engine/DynamicCodeGenerator.java:103-124 | Starts with `package <pkg>.security;`. |
| DynamicCodeGenerator.Declarations | backend/src/main/java/com/microgen/orchestrator/engine/DynamicCodeGenerator.java:128-129 | One `private <type> <name>;` declaration per field, in list order. |
| DynamicCodeGenerator.JoinedFieldsIsJoin | backend/src/main/java/com/microgen/orchestrator/engine/DynamicCodeGenerator.java:128-129 | The StringJoiner fold equals the declarations joined by a newline and four spaces. |
| DynamicCodeGenerator.JoinedFieldsDeclaresEach | backend/src/main/java/com/microgen/orchestrator/engine/DynamicCodeGenerator.java:128-129 | The joined text contains every field's declaration. |
| DynamicCodeGenerator.EntityBodySpec | backend/src/main/java/com/microgen/orchestrator/engine/DynamicCodeGenerator.java:131-147 | The entity body holds the table annotation, the class line and the members. |
| DynamicCodeGenerator.JpaEntitySpec | backend/src/main/java/com/microgen/orchestrator/engine/DynamicCodeGenerator.java:127-148 | Starts with `package <pkg>.model;`, has table `<lowercased name>s`, and declares every field. |
| DynamicCodeGenerator.RepositoryBodySpec | backend/src/main/java/com/microgen/orchestrator/engine/DynamicCodeGenerator.java:152-162 | The repository body imports the entity and declares `<Name>Repository`. |
| DynamicCodeGenerator.JpaRepositorySpec | backend/src/main/java/com/microgen/orchestrator/engine/DynamicCodeGenerator.java:151-163 | Starts with `package <pkg>.repository;`, imports the entity and declares its repository. |
| DynamicCodeGenerator.MyBatisTemplatesSpec | backend/src/main/java/com/microgen/orchestrator/engine/DynamicCodeGenerator.java:166-200 | User starts with `package <pkg>.model;`. UserMapper starts with `package <pkg>.mapper;` and imports User. |
| DynamicCodeGenerator.DockerfileCopyingSpec | backend/src/main/java/com/microgen/orchestrator/engine/DynamicCodeGenerator.java:218 | The Dockerfile copies the named jar. |
| DynamicCodeGenerator.Dockerfile | backend/src/main/java/com/microgen/orchestrator/engine/DynamicCodeGenerator.java:214-221 | Copies `target/<serviceName>.jar`. |
| DynamicCodeGenerator.DbService | backend/src/main/java/com/microgen/orchestrator/engine/DynamicCodeGenerator.java:226-241 | The db service block names its image and its database variable. |
| DynamicCodeGenerator.ComposeShape | backend/src/main/java/com/microgen/orchestrator/engine/DynamicCodeGenerator.java:244-254 | The compose text always has `depends_on: - db`. When there is a db block it names the image and the database variable. Otherwise it has no `image:` line. |
| DynamicCodeGenerator.DockerCompose | backend/src/main/java/com/microgen/orchestrator/engine/DynamicCodeGenerator.java:224-255 | depends_on db is always emitted. MYSQL gives the mysql:8.0 image and `MYSQL_DATABASE=` the service name with `-` replaced by `_`. POSTGRESQL gives postgres:15-alpine and `POSTGRES_DB=` that same name. Both are matched ignoring case, and any other database gives no image. |
| GovernanceService.DotStarThenRunIff | backend/src/main/java/com/microgen/orchestrator/service/GovernanceService.java:13 | The `.*[a-zA-Z0-9]{20,}` tail matches at j exactly when a 20-character alphanumeric run starts later on the same line. |
| GovernanceService.FindFromIff | backend/src/main/java/com/microgen/orchestrator/service/GovernanceService.java:24 | The search from i succeeds exactly when the pattern matches at some position from i on. |
| GovernanceService.FindIsSecretMatch | backend/src/main/java/com/microgen/orchestrator/service/GovernanceService.java:12-13 | `find()` succeeds exactly when a line holds a case-insensitive "secret" followed by 20 or more ASCII letters and digits. |
| GovernanceService.NoSecretWordNoMatch | backend/src/main/java/com/microgen/orchestrator/service/GovernanceService.java:12-13 | Text that nowhere holds the word "secret" (in any ASCII case) never matches the pattern. |
| GovernanceService.SecretAtHasRe | backend/src/main/java/com/microgen/orchestrator/service/GovernanceService.java:12-13 | Every "secret" holds an `re` at its fourth place. |
| GovernanceService.NoReNoMatch | backend/src/main/java/com/microgen/orchestrator/service/GovernanceService.java:12-13 | So text with no `re` anywhere never matches the pattern. |
| GovernanceService.EntrySetOrder | backend/src/main/java/com/microgen/orchestrator/service/GovernanceService.java:19 | The entry-set iteration visits every file exactly once. |
| GovernanceService.EnumerationMembers | backend/src/main/java/com/microgen/orchestrator/service/GovernanceService.java:19 | Such an enumeration lists each file once and has as many entries as the map. |
| GovernanceService.Scan | backend/src/main/java/com/microgen/orchestrator/service/GovernanceService.java:15-32 | The nested loops return `Violations(files, order)`, without changing the map. |
| GovernanceService.MessageInjective | backend/src/main/java/com/microgen/orchestrator/service/GovernanceService.java:26 | Different file names give different violation messages. |
| GovernanceService.SingleFileViolations | backend/src/main/java/com/microgen/orchestrator/service/GovernanceService.java:23-28 | With the one shipped pattern, a file gives one message if it matches and none otherwise. |
| GovernanceService.ViolationCount | backend/src/main/java/com/microgen/orchestrator/service/GovernanceService.java:19-29 | A file's message occurs as often as the file is visited if the file matches, and never otherwise. |
| GovernanceService.ViolationsAreMessages | backend/src/main/java/com/microgen/orchestrator/service/GovernanceService.java:19-29 | Every violation is the message of a visited, matching file. |
| GovernanceService.ScanReportsMatchingFiles | backend/src/main/java/com/microgen/orchestrator/service/GovernanceService.java:15-32 | Each matching file is reported exactly once, non-matching files never, and nothing else is reported. |
| GovernanceService.ScanOrderIndependent | backend/src/main/java/com/microgen/orchestrator/service/GovernanceService.java:19-29 | Any two iteration orders give the same multiset of violations. |
| GovernanceService.ScanEmptyIff | backend/src/main/java/com/microgen/orchestrator/service/GovernanceService.java:15-32 | The scan is empty exactly when no file matches. In particular an empty map gives no violations. |
| GovernanceService.ScanBounded | backend/src/main/java/com/microgen/orchestrator/service/GovernanceService.java:12-28 | There are at most as many violations as files visited. |
| IntentModels.DefaultIntent | backend/src/main/java/com/microgen/orchestrator/model/IntentModel.java:19-30 | The no-args intent leaves the entity list null and sets port 8082. Its other defaults (persistence JPA among them) feed DefaultIntentAddsOnlyDeployment. |
| PromptParsingService.Narrow | backend/src/main/java/com/microgen/orchestrator/service/PromptParsingService.java:64-67 | Narrowing between a fence opener and the last fence gives a substring. |
| PromptParsingService.Unfence | backend/src/main/java/com/microgen/orchestrator/service/PromptParsingService.java:63-75 | Fence stripping gives a substring of its input. |
| PromptParsingService.Braces | backend/src/main/java/com/microgen/orchestrator/service/PromptParsingService.java:78-82 | A successful brace cut is a substring. |
| PromptParsingService.ExtractJson | backend/src/main/java/com/microgen/orchestrator/service/PromptParsingService.java:59-85 | When it does not throw, `extractJson` returns a contiguous substring of the reply. |
| PromptParsingService.BracesFailIff | backend/src/main/java/com/microgen/orchestrator/service/PromptParsingService.java:78-82 | The cut throws exactly when both braces occur and every `}` lies more than one position before every `{`. |
| PromptParsingService.FirstAndLastBrace | backend/src/main/java/com/microgen/orchestrator/service/PromptParsingService.java:78-82 | Given a `{` at or before a `}`, the cut runs from the first `{` to the last `}` inclusive. |
| PromptParsingService.OutsideBraces | backend/src/main/java/com/microgen/orchestrator/service/PromptParsingService.java:79-80 | No `{` lies before the cut and no `}` after it. |
| PromptParsingService.BracesSpan | backend/src/main/java/com/microgen/orchestrator/service/PromptParsingService.java:78-82 | The cut starts with `{`, ends with `}`, and leaves no `{` before it and no `}` after it. |
| PromptParsingService.BracesKeepUnpaired | backend/src/main/java/com/microgen/orchestrator/service/PromptParsingService.java:78 | Without both brace kinds, the text is kept as it is. |
| PromptParsingService.JsonFencedReply | backend/src/main/java/com/microgen/orchestrator/service/PromptParsingService.java:63-68 | A json-fenced reply is narrowed to its trimmed body. |
| PromptParsingService.BareFencedReply | backend/src/main/java/com/microgen/orchestrator/service/PromptParsingService.java:69-74 | A bare-fenced reply, with no json opener, is narrowed to its trimmed body. |
| PromptParsingService.NarrowFenced | backend/src/main/java/com/microgen/orchestrator/service/PromptParsingService.java:64-67 | Narrowing `open + body + fence` from the end of `open` gives the trimmed body. |
| PromptParsingService.MinimalIntent | backend/src/main/java/com/microgen/orchestrator/service/PromptParsingService.java:87-95 | serviceName is "microservice" and packageName is "com.example.service". Every other field equals the IntentModel constructor default. |
| PromptParsingService.ParseReadsReply | backend/src/main/java/com/microgen/orchestrator/service/PromptParsingService.java:41-57 | `parse` never throws. It returns the minimal intent, or what Jackson reads from a substring of the LLM reply: an intent, or null (None) when that text reads as `null`. |
| PromptParsingService.ParseFallsBack | backend/src/main/java/com/microgen/orchestrator/service/PromptParsingService.java:41-56 | An ERROR reply, an extraction that throws, or an unreadable JSON text each give the minimal intent. |
| PromptParsingService.ParseReadsExtractedJson | backend/src/main/java/com/microgen/orchestrator/service/PromptParsingService.java:49-51 | A good reply whose extracted JSON Jackson reads gives exactly that intent. JSON that Jackson reads as `null` gives None (Java's null). |
| GenerationJobs.GenerationJob.constructor | backend/src/main/java/com/microgen/orchestrator/model/GenerationJob.java:10-18 | The no-args job has the given id and every other field null, including a null status. |
| GenerationJobs.GenerationJob.WithPrompt | backend/src/main/java/com/microgen/orchestrator/model/GenerationJob.java:20-23 | The prompt constructor sets the prompt and status PENDING, and leaves serviceName, files and error null. |
| PromptOrchestrationService.OrchestrationService.constructor | backend/src/main/java/com/microgen/orchestrator/service/PromptOrchestrationService.java:24 | The registry starts empty. |
| PromptOrchestrationService.OrchestrationService.JobsDistinct | backend/src/main/java/com/microgen/orchestrator/service/PromptOrchestrationService.java:24-32 | Two registered ids name two distinct job objects. |
| PromptOrchestrationService.OrchestrationService.CreateJob | backend/src/main/java/com/microgen/orchestrator/service/PromptOrchestrationService.java:26-33 | Registers a fresh job under the given id, with the prompt and status PENDING. Every other entry is unchanged. |
| PromptOrchestrationService.OrchestrationService.GetJob | backend/src/main/java/com/microgen/orchestrator/service/PromptOrchestrationService.java:134-136 | Returns the registered job, or nothing (null) for an unknown id. |
| PromptOrchestrationService.OrchestrationService.ProcessJob | backend/src/main/java/com/microgen/orchestrator/service/PromptOrchestrationService.java:35-132 | The registry is unchanged and stays valid. The job's new fields and outcome are `ProcessedParse(...)` of what `parse` returned for its prompt and of the LLM's business-logic reply. A null intent throws at its first use (IntentThrew) and leaves the job as it was. |
| PromptOrchestrationService.OrchestrationService.RunJob | backend/src/main/java/com/microgen/orchestrator/service/PromptOrchestrationService.java:38-131 | The same `ProcessedParse` result, stated for a job object and its prompt. |
| PromptOrchestrationService.OrchestrationService.RunIntent | backend/src/main/java/com/microgen/orchestrator/service/PromptOrchestrationService.java:41-131 | From an intent that is not null, the job's new fields and outcome are `Processed(...)`: the name check, the ERROR check on the reply, then generation and the scan. |
| PromptOrchestrationService.OrchestrationService.GenerateAndScan | backend/src/main/java/com/microgen/orchestrator/service/PromptOrchestrationService.java:119-129 | Attaches the engine's files and sets COMPLETED or FAILED_GOVERNANCE, as `Generated` says. When the engine throws (a null field it dereferences, or an illegal package replacement) the job keeps its files and status. |
| PromptOrchestrationService.ProcessedEndsJob | backend/src/main/java/com/microgen/orchestrator/service/PromptOrchestrationService.java:35-132 | Every path that returns leaves status FAILED, FAILED_GOVERNANCE or COMPLETED, never PENDING. When the call throws, status and files are untouched. A null intent, and only that, ends in IntentThrew, with the job unchanged. |
| PromptOrchestrationService.NullIntentThrows | backend/src/main/java/com/microgen/orchestrator/service/PromptOrchestrationService.java:38-41 | A reply whose extracted JSON Jackson reads as `null` makes `processJob` throw at `intent.getServiceName()`, before it touches the job. |
| PromptOrchestrationService.FailedJobsExplainThemselves | backend/src/main/java/com/microgen/orchestrator/service/PromptOrchestrationService.java:41-117 | A FAILED job has no new files, and its error is null or starts with ERROR. |
| PromptOrchestrationService.FailedOnlyOnNameAfterGoodReply | backend/src/main/java/com/microgen/orchestrator/service/PromptOrchestrationService.java:41-45 | With a good generation reply, FAILED means the service name was null or an ERROR text, and error holds that name. |
| PromptOrchestrationService.NameWrittenOnlyWhenAccepted | backend/src/main/java/com/microgen/orchestrator/service/PromptOrchestrationService.java:41-48 | serviceName changes only when the intent's name is accepted, and then to that name. |
| PromptOrchestrationService.ScannedJobsCarryProject | backend/src/main/java/com/microgen/orchestrator/service/PromptOrchestrationService.java:119-121 | A job that is not FAILED carries exactly the engine's project, under either governance verdict. The engine was ready for the intent and its parser did not throw. |
| PromptOrchestrationService.GovernanceVerdictIsScan | backend/src/main/java/com/microgen/orchestrator/service/PromptOrchestrationService.java:124-129 | The status is FAILED_GOVERNANCE exactly when the scan of the project returns violations. |
| PromptOrchestrationService.MinimalIntentAddsOnlyDeployment | backend/src/main/java/com/microgen/orchestrator/service/PromptOrchestrationService.java:119 | The minimal intent is accepted, and generating from it adds only the deployment keys to the parser's map. |
| PromptOrchestrationService.MinimalIntentParses | backend/src/main/java/com/microgen/orchestrator/service/PromptOrchestrationService.java:119 | The minimal intent is ready for the engine, and its package `com.example.service` never makes the parser throw, whatever the reply. |
| PromptOrchestrationService.FallbackJobIsGenerated | backend/src/main/java/com/microgen/orchestrator/service/PromptOrchestrationService.java:41-129 | With the minimal intent and a good reply, the job returns named "microservice" with files attached. |
| MockLlmClient.CustomerIntentJson | backend/src/main/java/com/microgen/orchestrator/adapter/MockLlmClient.java:13-37 | The customer JSON is an object carrying the chosen auth and persistence lines. |
| MockLlmClient.GenericIntentJson | backend/src/main/java/com/microgen/orchestrator/adapter/MockLlmClient.java:40-53 | The generic reply is a JSON object. |
| MockLlmClient.ViolationReply | backend/src/main/java/com/microgen/orchestrator/adapter/MockLlmClient.java:57 | The violation reply is a comment line that holds an AKIA key. |
| MockLlmClient.ViolationReplyIsNoViolation | backend/src/main/java/com/microgen/orchestrator/adapter/MockLlmClient.java:57 | The planted-key reply does not match the secret pattern, so the scan reports nothing for a file holding it. |
| MockLlmClient.StatusReply | backend/src/main/java/com/microgen/orchestrator/adapter/MockLlmClient.java:59-60 | The status snippet is a comment line that embeds the user prompt. |
| MockLlmClient.Generate | backend/src/main/java/com/microgen/orchestrator/adapter/MockLlmClient.java:6-61 | A "JSON object" system prompt gives a JSON object, and any other gives a `//` snippet. No reply starts with ERROR. |
| MockLlmClient.IntentReplyFollowsKeywords | backend/src/main/java/com/microgen/orchestrator/adapter/MockLlmClient.java:8-53 | customer/auth selects the customer JSON, with OAUTH2 if oauth2 is present else JWT, and JPA if jpa or database is present else NONE. Any other prompt gets the generic JSON. |
| MockLlmClient.CodeReplyFollowsKeywords | backend/src/main/java/com/microgen/orchestrator/adapter/MockLlmClient.java:56-60 | "trigger violation" or "akia" gives the AKIA line. Any other prompt gets the status snippet embedding the prompt. |
| LlmClient.ExtractionPromptAsksForJson | backend/src/main/java/com/microgen/orchestrator/service/PromptParsingService.java:16 | The intent-extraction prompt contains "JSON object", which the mock keys on. |
| LlmClient.MockNeverFails | backend/src/main/java/com/microgen/orchestrator/adapter/MockLlmClient.java:6-61 | The mock client never replies with an ERROR text, whichever prompt it is sent. |
| SourceText.Text | backend/src/main/java/com/microgen/orchestrator/engine/CodeGenerationEngine.java:243 | A string formatted with `%s` is its value, or "null" when absent. |
| SourceText.IntegerText | backend/src/main/java/com/microgen/orchestrator/engine/CodeGenerationEngine.java:297 | A formatted port is "null" when absent. Otherwise it is decimal text that denotes the port, with a minus sign exactly when the port is negative, and it consists only of digit, sign and "null" characters. |
| SourceText.DatabaseName | backend/src/main/java/com/microgen/orchestrator/engine/CodeGenerationEngine.java:269 | `replace("-", "_")` keeps the length and leaves no `-`. |
| JavaString.Trim | backend/src/main/java/com/microgen/orchestrator/engine/CodeGenerationEngine.java:305 | `trim()` strips leading and trailing characters at or below U+0020. The result is empty exactly when the string is blank. |
| JavaString.TrimIsSubstring | backend/src/main/java/com/microgen/orchestrator/service/PromptParsingService.java:60 | A trimmed string is a substring of the original. |
| JavaString.IndexOf | backend/src/main/java/com/microgen/orchestrator/engine/CodeGenerationEngine.java:308 | The result is the first occurrence, or -1 when there is none. |
| JavaString.Contains | backend/src/main/java/com/microgen/orchestrator/engine/CodeGenerationEngine.java:315 | True exactly when the pattern occurs somewhere. |
| JavaString.LastIndexOf | backend/src/main/java/com/microgen/orchestrator/service/PromptParsingService.java:65 | The result is the last occurrence, or -1 when there is none. |
| JavaString.ToLowerAscii | backend/src/main/java/com/microgen/orchestrator/adapter/MockLlmClient.java:7 | Lower-cases letter by letter, keeping the length. |
| JavaString.ReplaceChar | backend/src/main/java/com/microgen/orchestrator/engine/CodeGenerationEngine.java:21 | `replace('.', '/')` changes exactly the matching characters. |
| JavaString.JoinSplitAll | backend/src/main/java/com/microgen/orchestrator/engine/CodeGenerationEngine.java:302 | Joining the split pieces with the delimiter gives back the text. |
| JavaString.SplitAllPiecesAreFree | backend/src/main/java/com/microgen/orchestrator/engine/CodeGenerationEngine.java:302 | No piece contains the delimiter. |
| JavaString.DropTrailingEmpty | backend/src/main/java/com/microgen/orchestrator/engine/CodeGenerationEngine.java:302 | Only trailing empty pieces are dropped, and the result does not end with an empty piece. |
| JavaString.Split | backend/src/main/java/com/microgen/orchestrator/engine/CodeGenerationEngine.java:302 | Text without the delimiter gives itself as the only piece. No piece contains the delimiter, and the pieces are a prefix of the full split. |
| JavaString.ReplaceFirstPackageLine | backend/src/main/java/com/microgen/orchestrator/engine/CodeGenerationEngine.java:347-348 | `replaceFirst("package .*", r)` leaves text without `package ` unchanged. Otherwise it replaces the first `package ` up to the end of its line with the expansion of `r` under Java's replacement syntax, and it throws (None) exactly when that expansion does. |
| JavaString.ExpandLiteral | backend/src/main/java/com/microgen/orchestrator/engine/CodeGenerationEngine.java:347-348 | A replacement without `$` and backslash is written as it is, whatever was matched. |
| JavaString.IllegalGroupReference | backend/src/main/java/com/microgen/orchestrator/engine/CodeGenerationEngine.java:347-348 | After a literal piece, a `$` followed by anything but `0` (or by nothing) makes the replacement throw. |
| JavaString.EscapedCharacter | backend/src/main/java/com/microgen/orchestrator/engine/CodeGenerationEngine.java:347-348 | After a literal piece, a backslash drops out and the character behind it is written. |
| JavaString.NatToDecimalValue | backend/src/main/java/com/microgen/orchestrator/engine/CodeGenerationEngine.java:297 | The digits `%d` writes for a natural number denote it and have no leading zero. |
| JavaString.IntToDecimalValue | backend/src/main/java/com/microgen/orchestrator/engine/CodeGenerationEngine.java:297 | The text `%d` writes denotes the number, with a minus sign exactly when it is negative. |

## Left out

- The Gemini, HuggingFace, OpenAI, OpenRouter and Ollama clients are left out: they are network calls with Jackson envelope parsing. A client is an arbitrary function to a reply string, their sampling parameters (floating point) included.
- Jackson `readTree`/`readValue` and the six `replaceAll` regular expressions of `cleanLlmOutput` are not modelled: they are library code. They are parameters. Only blank input, bracket extraction and the `[]` default are modelled.
- EngineDependencies.CleanLlmOutput: holds for any clean-up function, not just the shipped regular expressions.
- PromptParsingService.ParseReadsReply: states the fallback policy for any Jackson reader, not for Jackson's actual field mapping.
- The template lemmas state fragments, not the full text. The template functions build each file line by line, but their lemmas state its package line, its file key and fragments it contains.
  - This applies to DynamicCodeGenerator.SecurityConfigSpec, JwtUtilsSpec, AuthControllerSpec, AuthRequestSpec, OAuth2SecurityConfigSpec, MyBatisTemplatesSpec, JpaEntitySpec, JpaRepositorySpec.
  - It applies equally to EngineTemplates.MainSpec, JwtUtilsSpec, OAuth2SecurityConfigSpec, DockerfileSpec, ApplicationYmlSpec, DockerComposeSpec, JpaEntitySpec, JpaRepositorySpec, and EngineDependencies.PomTextSpec.
- The schema and CI workflow templates are constant text, with no lemma beyond their file keys.
- GovernanceService.EntrySetOrder: yields some duplicate-free order, not HashMap's actual bucket order. The results that matter are proved for every order.
- GovernanceService.FindIsSecretMatch: the regular expression is modelled for this one pattern, with ASCII case folding. It is not a general regex engine.
- MockLlmClient.IntentReplyFollowsKeywords: `toLowerCase` is modelled for ASCII letters only.
- MockLlmClient.CodeReplyFollowsKeywords: the keyword tests lower the prompt with `ToLowerAscii`, while Java's `toLowerCase()` follows the default locale. Under a Turkish locale "TRIGGER VIOLATION" lowers to "trıgger vıolatıon" and "AKIA" to "akıa", so Java replies with the status snippet where the lemma gives the AKIA reply.
- CodeGenerationEngine.GenerateProject: the entity list and each field list hold values, never a null element. Jackson reads `"entities":[null]` or `"fields":[null]` into a list holding null, and with JPA persistence the engine then throws a NullPointerException at `entity.getName()` or `field.getType()`, which the model does not produce.
- DynamicCodeGenerator.JpaEntitySpec: the table name (`TableName`) lowercases ASCII letters only. Java's `toLowerCase()` is Unicode-aware and follows the default locale, so under a Turkish locale `ITEM` gives `ıtems`, which the model does not give.
- EngineTemplates.JpaEntitySpec: the same ASCII-only `TableName` lowercasing as in the line above.
- End-to-end mock scenarios through `processJob` on concrete prompts have no lemmas: the proofs would have to unfold the full prompt texts, which is too costly. Their parts are proved separately: the mock's replies, `parse`'s fallback and the engine's keys.
- ZipUtility, `getProjectZip`, the HTTP controller and the frontend are not part of this model.
- Concurrency of the `ConcurrentHashMap` registry is not modelled: the registry is a sequential map.
- UUID generation is not modelled: the fresh id is a parameter.
- `LocalDateTime` timestamps and `System.out`/`System.err` logging are not modelled.
- PromptOrchestrationService.OrchestrationService.ProcessJob: requires a registered id. The source dereferences the lookup unguarded and would throw a NullPointerException.
- PromptOrchestrationService.OrchestrationService.CreateJob: the prompt is a string, never null. A request without "prompt" makes the controller (GenerationController.java:23-24) pass null, and the source stores it. Processing that job with the mock client goes like this:
  - `parse` catches the NullPointerException from `toLowerCase` and returns the minimal intent.
  - serviceName becomes "microservice".
  - The business-logic call at PromptOrchestrationService.java:111 throws outside any try, so `processJob` throws with the job left PENDING.
  - `Valid()` (every job's prompt is present) and the `Outcome` cases do not capture this path.
- PromptOrchestrationService.OrchestrationService.ProcessJob: for the same reason, it is never given the null-prompt job.
- SourceText.IntegerText: `%d` writes the digits of the default FORMAT locale (Thai digits "๘๐๘๒" for port 8082 under `th_TH_TH`), while the model writes ASCII digits, as the default locale of most systems does.
- Exceptions an LLM client throws inside `parse` are not modelled separately: a client here always returns a string.
- Integer overflow is not modelled: the one integer, the port, is only formatted.
