/**
 * `CodeGenerationEngine.generateProject`: the path-to-content map of a
 * generated service. The root files come first, then the LLM's files, then
 * the auth and persistence files, then the deployment files; a later put
 * replaces an earlier one at the same path.
 */
module CodeGenerationEngine {
  import opened Wrappers
  import opened JavaString
  import opened SourceText
  import opened EntityModels
  import opened IntentModels
  import opened ExternalLibraries
  import DCG = DynamicCodeGenerator
  import Deps = EngineDependencies
  import T = EngineTemplates
  import P = EngineParser

  // ---------------------------------------------------------------------
  // the intent's switches

  /** auth is JWT, case-insensitively; a null auth is not. */
  predicate IsJwt(intent: IntentModel) {
    intent.auth.Some? && EqualsIgnoreCase("JWT", intent.auth.value)
  }

  predicate IsOAuth2(intent: IntentModel) {
    intent.auth.Some? && EqualsIgnoreCase("OAUTH2", intent.auth.value)
  }

  /** persistence is JPA and the entity list is set. */
  predicate IsJpaWithEntities(intent: IntentModel) {
    intent.persistence.Some? && EqualsIgnoreCase("JPA", intent.persistence.value) && intent.entities.Some?
  }

  predicate IsMyBatis(intent: IntentModel) {
    intent.persistence.Some? && EqualsIgnoreCase("MYBATIS", intent.persistence.value)
  }

  /** Every entity the JPA branch renders has a name and a field list. */
  predicate EntitiesComplete(entities: seq<EntityModel>) {
    forall e :: e in entities ==> e.name.Some? && e.fields.Some?
  }

  /**
   * What `generateProject` dereferences without a check: the package name
   * (for the package path), the database and service name (application.yml
   * and compose), and, on the JPA branch, each entity's name and fields.
   */
  predicate EngineReady(intent: IntentModel) {
    && intent.packageName.Some? && intent.database.Some? && intent.serviceName.Some?
    && (IsJpaWithEntities(intent) ==> EntitiesComplete(intent.entities.value))
  }

  // ---------------------------------------------------------------------
  // paths

  const PomKey := "pom.xml"
  const YmlKey := "src/main/resources/application.yml"
  const SchemaKey := "src/main/resources/schema.sql"
  const DockerfileKey := "Dockerfile"
  const ComposeKey := "docker-compose.yml"
  const CiKey := ".github/workflows/ci.yml"

  /** A path under the intent's source directory. */
  function SourceKey(pkg: string, relative: string): string {
    P.PackagePath(pkg) + relative
  }

  function AppKey(pkg: string): string {
    SourceKey(pkg, "Application.java")
  }

  function SecurityConfigKey(pkg: string): string {
    SourceKey(pkg, "security/SecurityConfig.java")
  }

  function JwtUtilsKey(pkg: string): string {
    SourceKey(pkg, "security/JwtUtils.java")
  }

  function AuthControllerKey(pkg: string): string {
    SourceKey(pkg, "controller/AuthController.java")
  }

  function AuthRequestKey(pkg: string): string {
    SourceKey(pkg, "model/AuthRequest.java")
  }

  function EntityKey(pkg: string, e: EntityModel): string {
    SourceKey(pkg, "model/" + Text(e.name) + ".java")
  }

  function RepositoryKey(pkg: string, e: EntityModel): string {
    SourceKey(pkg, "repository/" + Text(e.name) + "Repository.java")
  }

  function UserKey(pkg: string): string {
    SourceKey(pkg, "model/User.java")
  }

  function UserMapperKey(pkg: string): string {
    SourceKey(pkg, "mapper/UserMapper.java")
  }

  function OAuth2Key(pkg: string): string {
    SourceKey(pkg, "security/OAuth2SecurityConfig.java")
  }

  /** The four files of the JWT branch. */
  function JwtKeys(pkg: string): set<string> {
    {SecurityConfigKey(pkg), JwtUtilsKey(pkg), AuthControllerKey(pkg), AuthRequestKey(pkg)}
  }

  /** An entity file and a repository file for each listed entity. */
  function EntityKeys(pkg: string, entities: seq<EntityModel>): set<string> {
    (set e | e in entities :: EntityKey(pkg, e)) + (set e | e in entities :: RepositoryKey(pkg, e))
  }

  /** The three files of the MyBatis branch. */
  function MyBatisKeys(pkg: string): set<string> {
    {UserKey(pkg), UserMapperKey(pkg), SchemaKey}
  }

  const RootKeys := {PomKey, YmlKey}
  const DeployKeys := {DockerfileKey, ComposeKey, CiKey}

  /** The files the persistence step writes: per entity for JPA, the fixed three for MyBatis. */
  function PersistenceKeys(intent: IntentModel): set<string>
    requires EngineReady(intent)
  {
    var pkg := intent.packageName.value;
    if IsJpaWithEntities(intent) then EntityKeys(pkg, intent.entities.value)
    else if IsMyBatis(intent) then MyBatisKeys(pkg)
    else {}
  }

  /** The files the auth and persistence steps add for this intent. */
  function ConditionalKeys(intent: IntentModel): set<string>
    requires EngineReady(intent)
  {
    var pkg := intent.packageName.value;
    (if IsJwt(intent) then JwtKeys(pkg) else {})
    + PersistenceKeys(intent)
    + (if IsOAuth2(intent) then {OAuth2Key(pkg)} else {})
  }

  // ---------------------------------------------------------------------
  // the templates

  /** An intent with a database and a service name, as application.yml and the compose file need. */
  type ServiceIntent = intent: IntentModel | intent.database.Some? && intent.serviceName.Some? witness DefaultIntent()

  /** An entity with a name and a field list, as the entity template needs. */
  type CompleteEntity = e: EntityModel | e.name.Some? && e.fields.Some? witness EntityModel(Some(""), Some([]))

  /**
   * The engine's private `generate*` methods, one field per file it renders.
   * Where a file is assembled does not depend on what its template writes,
   * so the assembly below is stated for any bundle; `EngineBundle` is the
   * one the engine has.
   */
  datatype Templates = Templates(
    pom: (IntentModel, string) -> string,
    main: IntentModel -> string,
    applicationYml: ServiceIntent -> string,
    securityConfig: IntentModel -> string,
    jwtUtils: IntentModel -> string,
    authController: IntentModel -> string,
    authRequest: IntentModel -> string,
    jpaEntity: (IntentModel, CompleteEntity) -> string,
    jpaRepository: (IntentModel, EntityModel) -> string,
    userEntity: IntentModel -> string,
    userMapper: IntentModel -> string,
    schema: IntentModel -> string,
    oauth2SecurityConfig: IntentModel -> string,
    dockerfile: IntentModel -> string,
    dockerCompose: ServiceIntent -> string,
    ciWorkflow: IntentModel -> string)

  /** The engine's application.yml template, on the intents it accepts. */
  function EngineYml(): ServiceIntent -> string {
    (intent: ServiceIntent) => T.ApplicationYml(intent)
  }

  /** The engine's compose template, on the intents it accepts. */
  function EngineCompose(): ServiceIntent -> string {
    (intent: ServiceIntent) => T.DockerCompose(intent)
  }

  /** The engine's entity template, on the entities it accepts. */
  function EngineEntity(): (IntentModel, CompleteEntity) -> string {
    (intent: IntentModel, e: CompleteEntity) => T.JpaEntity(intent, e)
  }

  /** The engine's own templates; the pom is mined from the LLM text with the given libraries. */
  function EngineBundle(libs: Libraries): Templates {
    Templates(
      (intent, llm) => Deps.Pom(intent, llm, libs),
      T.Main,
      EngineYml(),
      DCG.SecurityConfig,
      T.JwtUtils,
      DCG.AuthController,
      DCG.AuthRequest,
      EngineEntity(),
      T.JpaRepository,
      DCG.UserEntity,
      DCG.UserMapper,
      _ => DCG.Schema(),
      T.OAuth2SecurityConfig,
      _ => T.Dockerfile(),
      EngineCompose(),
      _ => DCG.CiWorkflow())
  }

  // ---------------------------------------------------------------------
  // the map, stage by stage

  /** pom.xml, the main class and application.yml, before the LLM's files. */
  function RootFiles(tpl: Templates, intent: IntentModel, llm: string): map<string, string>
    requires EngineReady(intent)
  {
    map[PomKey := tpl.pom(intent, llm),
        AppKey(intent.packageName.value) := tpl.main(intent),
        YmlKey := tpl.applicationYml(intent)]
  }

  function WithJwt(tpl: Templates, intent: IntentModel, files: map<string, string>): map<string, string>
    requires intent.packageName.Some?
  {
    var pkg := intent.packageName.value;
    if IsJwt(intent) then
      files[SecurityConfigKey(pkg) := tpl.securityConfig(intent)]
           [JwtUtilsKey(pkg) := tpl.jwtUtils(intent)]
           [AuthControllerKey(pkg) := tpl.authController(intent)]
           [AuthRequestKey(pkg) := tpl.authRequest(intent)]
    else files
  }

  /** The JPA loop after its first n entities: an entity and a repository file per entity, in list order. */
  function WithEntities(tpl: Templates, intent: IntentModel, files: map<string, string>, entities: seq<EntityModel>, n: nat): map<string, string>
    requires intent.packageName.Some? && EntitiesComplete(entities) && n <= |entities|
  {
    if n == 0 then files
    else
      var e := entities[n - 1];
      var pkg := intent.packageName.value;
      WithEntities(tpl, intent, files, entities, n - 1)
        [EntityKey(pkg, e) := tpl.jpaEntity(intent, e)]
        [RepositoryKey(pkg, e) := tpl.jpaRepository(intent, e)]
  }

  function WithPersistence(tpl: Templates, intent: IntentModel, files: map<string, string>): map<string, string>
    requires EngineReady(intent)
  {
    var pkg := intent.packageName.value;
    if IsJpaWithEntities(intent) then WithEntities(tpl, intent, files, intent.entities.value, |intent.entities.value|)
    else if IsMyBatis(intent) then
      files[UserKey(pkg) := tpl.userEntity(intent)]
           [UserMapperKey(pkg) := tpl.userMapper(intent)]
           [SchemaKey := tpl.schema(intent)]
    else files
  }

  function WithOAuth2(tpl: Templates, intent: IntentModel, files: map<string, string>): map<string, string>
    requires intent.packageName.Some?
  {
    if IsOAuth2(intent) then files[OAuth2Key(intent.packageName.value) := tpl.oauth2SecurityConfig(intent)]
    else files
  }

  function WithDeployment(tpl: Templates, intent: IntentModel, files: map<string, string>): map<string, string>
    requires EngineReady(intent)
  {
    files[DockerfileKey := tpl.dockerfile(intent)][ComposeKey := tpl.dockerCompose(intent)][CiKey := tpl.ciWorkflow(intent)]
  }

  /** Does the parser throw on the LLM's files (a package rewrite with an illegal replacement)? */
  predicate LlmFilesThrow(tpl: Templates, intent: IntentModel, llm: string)
    requires EngineReady(intent)
  {
    P.ParseThrows(intent.packageName.value, llm, RootFiles(tpl, intent, llm))
  }

  /** An intent whose package name has no `$` and no backslash never makes the parser throw. */
  lemma PlainPackageParses(tpl: Templates, intent: IntentModel, llm: string)
    requires EngineReady(intent) && P.IsPlainPackage(intent.packageName.value)
    ensures !LlmFilesThrow(tpl, intent, llm)
  {
    P.PlainPackageNeverThrows(intent.packageName.value, P.ParseState(RootFiles(tpl, intent, llm), P.ServiceDir), Split(llm, P.StartMarker));
  }

  /** What the parser leaves when it does not throw: the root files with the LLM's files filed over them. */
  function ParsedFiles(tpl: Templates, intent: IntentModel, llm: string): map<string, string>
    requires EngineReady(intent)
  {
    P.Parsed(intent.packageName.value, llm, RootFiles(tpl, intent, llm))
  }

  /** The steps after the parser: auth, persistence, OAuth2, deployment. */
  function LaterSteps(tpl: Templates, intent: IntentModel, files: map<string, string>): map<string, string>
    requires EngineReady(intent)
  {
    WithDeployment(tpl, intent, WithOAuth2(tpl, intent, WithPersistence(tpl, intent, WithJwt(tpl, intent, files))))
  }

  /** The map `generateProject(intent, llmOutput)` returns. */
  function Project(tpl: Templates, intent: IntentModel, llm: string): map<string, string>
    requires EngineReady(intent)
  {
    LaterSteps(tpl, intent, ParsedFiles(tpl, intent, llm))
  }

  // ---------------------------------------------------------------------
  // the generating methods

  /** Steps 1-3 of `generateProject`: pom.xml, the main class and application.yml. */
  method PutRootFiles(tpl: Templates, intent: IntentModel, llm: string) returns (files: map<string, string>)
    requires EngineReady(intent)
    ensures files == RootFiles(tpl, intent, llm)
  {
    files := map[PomKey := tpl.pom(intent, llm)];
    files := files[AppKey(intent.packageName.value) := tpl.main(intent)];
    files := files[YmlKey := tpl.applicationYml(intent)];
  }

  /** Step 5: the JWT files. */
  method PutJwtFiles(tpl: Templates, intent: IntentModel, files: map<string, string>) returns (r: map<string, string>)
    requires intent.packageName.Some?
    ensures r == WithJwt(tpl, intent, files)
  {
    var pkg := intent.packageName.value;
    r := files;
    if IsJwt(intent) {
      r := r[SecurityConfigKey(pkg) := tpl.securityConfig(intent)];
      r := r[JwtUtilsKey(pkg) := tpl.jwtUtils(intent)];
      r := r[AuthControllerKey(pkg) := tpl.authController(intent)];
      r := r[AuthRequestKey(pkg) := tpl.authRequest(intent)];
    }
  }

  /** Step 6, JPA branch: the loop over the entity list. */
  method PutEntityFiles(tpl: Templates, intent: IntentModel, files: map<string, string>, entities: seq<EntityModel>) returns (r: map<string, string>)
    requires intent.packageName.Some? && EntitiesComplete(entities)
    ensures r == WithEntities(tpl, intent, files, entities, |entities|)
  {
    var pkg := intent.packageName.value;
    r := files;
    var i := 0;
    while i < |entities|
      invariant 0 <= i <= |entities|
      invariant r == WithEntities(tpl, intent, files, entities, i)
    {
      var entity := entities[i];
      r := r[EntityKey(pkg, entity) := tpl.jpaEntity(intent, entity)];
      r := r[RepositoryKey(pkg, entity) := tpl.jpaRepository(intent, entity)];
      i := i + 1;
    }
  }

  /** Step 6: the JPA files, or else the MyBatis files. */
  method PutPersistenceFiles(tpl: Templates, intent: IntentModel, files: map<string, string>) returns (r: map<string, string>)
    requires EngineReady(intent)
    ensures r == WithPersistence(tpl, intent, files)
  {
    var pkg := intent.packageName.value;
    r := files;
    if IsJpaWithEntities(intent) {
      r := PutEntityFiles(tpl, intent, files, intent.entities.value);
    } else if IsMyBatis(intent) {
      r := r[UserKey(pkg) := tpl.userEntity(intent)];
      r := r[UserMapperKey(pkg) := tpl.userMapper(intent)];
      r := r[SchemaKey := tpl.schema(intent)];
    }
  }

  /** Step 6.5: the OAuth2 configuration. */
  method PutOAuth2File(tpl: Templates, intent: IntentModel, files: map<string, string>) returns (r: map<string, string>)
    requires intent.packageName.Some?
    ensures r == WithOAuth2(tpl, intent, files)
  {
    r := files;
    if IsOAuth2(intent) {
      r := r[OAuth2Key(intent.packageName.value) := tpl.oauth2SecurityConfig(intent)];
    }
  }

  /** Steps 7-9: Dockerfile, compose file and CI workflow. */
  method PutDeploymentFiles(tpl: Templates, intent: IntentModel, files: map<string, string>) returns (r: map<string, string>)
    requires EngineReady(intent)
    ensures r == WithDeployment(tpl, intent, files)
  {
    r := files[DockerfileKey := tpl.dockerfile(intent)];
    r := r[ComposeKey := tpl.dockerCompose(intent)];
    r := r[CiKey := tpl.ciWorkflow(intent)];
  }

  /** `generateProject(intent, llmOutput)`; None where the parser throws. */
  method GenerateProject(tpl: Templates, intent: IntentModel, llm: string) returns (r: Option<map<string, string>>)
    requires EngineReady(intent)
    ensures r.None? <==> LlmFilesThrow(tpl, intent, llm)
    ensures r.Some? ==> r.value == Project(tpl, intent, llm)
  {
    var files := PutRootFiles(tpl, intent, llm);
    var parsed := P.ParseAndWriteLlmOutput(intent.packageName.value, llm, files);
    if parsed.None? {
      return None;
    }
    files := PutJwtFiles(tpl, intent, parsed.value);
    files := PutPersistenceFiles(tpl, intent, files);
    files := PutOAuth2File(tpl, intent, files);
    files := PutDeploymentFiles(tpl, intent, files);
    return Some(files);
  }

  // ---------------------------------------------------------------------
  // paths never collide by accident

  /** Source paths whose relative parts differ at some position are different. */
  lemma SourceKeysDiffer(pkg: string, r1: string, r2: string, i: nat)
    requires i < |r1| && i < |r2| && r1[i] != r2[i]
    ensures SourceKey(pkg, r1) != SourceKey(pkg, r2)
  {
    var pp := P.PackagePath(pkg);
    assert SourceKey(pkg, r1)[|pp| + i] == r1[i];
    assert SourceKey(pkg, r2)[|pp| + i] == r2[i];
  }

  /** Every source path lies under src/main/java/. */
  lemma SourceKeyUnderJava(pkg: string, relative: string)
    ensures StartsWith(SourceKey(pkg, relative), "src/main/java/")
  {
    var pp := P.PackagePath(pkg);
    assert SourceKey(pkg, relative)[..14] == pp[..14];
  }

  /** The root paths lie outside src/main/java/. */
  lemma RootPathsOutsideJava()
    ensures forall k :: k in RootKeys + DeployKeys + {SchemaKey} ==> !StartsWith(k, "src/main/java/")
  {
    assert YmlKey[9] != "src/main/java/"[9];
    assert SchemaKey[9] != "src/main/java/"[9];
  }

  /** A path outside src/main/java/ is no source path. */
  lemma NotASourceKey(pkg: string, relative: string, k: string)
    requires !StartsWith(k, "src/main/java/")
    ensures SourceKey(pkg, relative) != k
  {
    SourceKeyUnderJava(pkg, relative);
  }

  /** Entity paths are determined by the entity's printed name. */
  lemma EntityKeysByName(pkg: string, a: EntityModel, b: EntityModel)
    requires Text(a.name) != Text(b.name)
    ensures EntityKey(pkg, a) != EntityKey(pkg, b)
    ensures RepositoryKey(pkg, a) != RepositoryKey(pkg, b)
  {
    var pp := P.PackagePath(pkg);
    var na, nb := Text(a.name), Text(b.name);
    if |na| == |nb| {
      var i :| 0 <= i < |na| && na[i] != nb[i];
      SourceKeysDiffer(pkg, "model/" + na + ".java", "model/" + nb + ".java", 6 + i);
      SourceKeysDiffer(pkg, "repository/" + na + "Repository.java", "repository/" + nb + "Repository.java", 11 + i);
    } else {
      assert |EntityKey(pkg, a)| != |EntityKey(pkg, b)|;
      assert |RepositoryKey(pkg, a)| != |RepositoryKey(pkg, b)|;
    }
  }

  /** The JWT paths are four different paths. */
  lemma JwtKeysDistinct(pkg: string)
    ensures SecurityConfigKey(pkg) != JwtUtilsKey(pkg)
    ensures SecurityConfigKey(pkg) != AuthControllerKey(pkg) && JwtUtilsKey(pkg) != AuthControllerKey(pkg)
    ensures SecurityConfigKey(pkg) != AuthRequestKey(pkg) && JwtUtilsKey(pkg) != AuthRequestKey(pkg)
    ensures AuthControllerKey(pkg) != AuthRequestKey(pkg)
  {
    SourceKeysDiffer(pkg, "security/SecurityConfig.java", "security/JwtUtils.java", 9);
    SourceKeysDiffer(pkg, "security/SecurityConfig.java", "controller/AuthController.java", 0);
    SourceKeysDiffer(pkg, "security/JwtUtils.java", "controller/AuthController.java", 0);
    SourceKeysDiffer(pkg, "security/SecurityConfig.java", "model/AuthRequest.java", 0);
    SourceKeysDiffer(pkg, "security/JwtUtils.java", "model/AuthRequest.java", 0);
    SourceKeysDiffer(pkg, "controller/AuthController.java", "model/AuthRequest.java", 0);
  }

  /** The MyBatis paths are three different paths. */
  lemma MyBatisKeysDistinct(pkg: string)
    ensures UserKey(pkg) != UserMapperKey(pkg) && UserKey(pkg) != SchemaKey && UserMapperKey(pkg) != SchemaKey
  {
    SourceKeysDiffer(pkg, "model/User.java", "mapper/UserMapper.java", 1);
    RootPathsOutsideJava();
    NotASourceKey(pkg, "model/User.java", SchemaKey);
    NotASourceKey(pkg, "mapper/UserMapper.java", SchemaKey);
  }

  /** An entity's file and its repository's file are different paths. */
  lemma EntityAndRepositoryDiffer(pkg: string, a: EntityModel, b: EntityModel)
    ensures EntityKey(pkg, a) != RepositoryKey(pkg, b)
  {
    SourceKeysDiffer(pkg, "model/" + Text(a.name) + ".java", "repository/" + Text(b.name) + "Repository.java", 0);
  }

  /** A path the parser may write lies under src/main/java/. */
  lemma BucketKeyUnderJava(pkg: string, k: string)
    requires P.IsBucketKey(pkg, k)
    ensures StartsWith(k, "src/main/java/")
  {
    var bucket: P.Bucket, filename: string :| k == P.PackagePath(pkg) + bucket.Dir() + filename;
    var pp := P.PackagePath(pkg);
    assert k[..14] == pp[..14];
  }

  /** The main class is no path the parser writes: every bucket directory starts with a lower-case letter. */
  lemma AppKeyNotBucketKey(pkg: string)
    ensures !P.IsBucketKey(pkg, AppKey(pkg))
  {
    var pp := P.PackagePath(pkg);
    forall bucket: P.Bucket, filename: string
      ensures AppKey(pkg) != pp + bucket.Dir() + filename
    {
      assert (pp + bucket.Dir() + filename)[|pp|] == bucket.Dir()[0];
      assert AppKey(pkg)[|pp|] == 'A';
    }
  }

  /** The stub is a source path in the service directory. */
  lemma StubKeyIsSourceKey(pkg: string)
    ensures P.StubKey(pkg) == SourceKey(pkg, "service/GeneratedService.java")
  {
  }

  /** The fallback stub's path is one the entity, repository and MyBatis files never take. */
  lemma NotPersistenceKey(intent: IntentModel, relative: string)
    requires EngineReady(intent) && |relative| > 0 && relative[0] != 'm' && relative[0] != 'r'
    ensures SourceKey(intent.packageName.value, relative) !in PersistenceKeys(intent)
  {
    var pkg := intent.packageName.value;
    if IsJpaWithEntities(intent) {
      forall e | e in intent.entities.value
        ensures SourceKey(pkg, relative) != EntityKey(pkg, e) && SourceKey(pkg, relative) != RepositoryKey(pkg, e)
      {
        SourceKeysDiffer(pkg, relative, "model/" + Text(e.name) + ".java", 0);
        SourceKeysDiffer(pkg, relative, "repository/" + Text(e.name) + "Repository.java", 0);
      }
    } else if IsMyBatis(intent) {
      SourceKeysDiffer(pkg, relative, "model/User.java", 0);
      SourceKeysDiffer(pkg, relative, "mapper/UserMapper.java", 0);
      RootPathsOutsideJava();
      NotASourceKey(pkg, relative, SchemaKey);
    }
  }

  /** No source path is a deployment path. */
  lemma NotDeployKey(pkg: string, relative: string)
    ensures SourceKey(pkg, relative) !in DeployKeys
  {
    RootPathsOutsideJava();
    NotASourceKey(pkg, relative, DockerfileKey);
    NotASourceKey(pkg, relative, ComposeKey);
    NotASourceKey(pkg, relative, CiKey);
  }

  /** The auth values are told apart by their lengths, so JWT and OAuth2 exclude each other. */
  lemma AuthModesExclusive(intent: IntentModel)
    ensures !(IsJwt(intent) && IsOAuth2(intent))
  {
    if intent.auth.Some? {
      var a := intent.auth.value;
      assert EqualsIgnoreCase("JWT", a) ==> |a| == |ToLowerAscii("JWT")| == 3;
      assert EqualsIgnoreCase("OAUTH2", a) ==> |a| == |ToLowerAscii("OAUTH2")| == 6;
    }
  }

  /** Likewise the JPA and MyBatis branches exclude each other. */
  lemma PersistenceModesExclusive(intent: IntentModel)
    ensures !(IsJpaWithEntities(intent) && IsMyBatis(intent))
  {
    if intent.persistence.Some? {
      var p := intent.persistence.value;
      assert EqualsIgnoreCase("JPA", p) ==> |p| == |ToLowerAscii("JPA")| == 3;
      assert EqualsIgnoreCase("MYBATIS", p) ==> |p| == |ToLowerAscii("MYBATIS")| == 7;
    }
  }

  // ---------------------------------------------------------------------
  // the stages, one by one

  /**
   * With auth JWT the step adds exactly the four JWT files, holding their
   * templates; otherwise it adds nothing. Every other path keeps its value.
   */
  lemma WithJwtSpec(tpl: Templates, intent: IntentModel, files: map<string, string>)
    requires intent.packageName.Some?
    ensures var pkg := intent.packageName.value; var r := WithJwt(tpl, intent, files);
      && r.Keys == files.Keys + (if IsJwt(intent) then JwtKeys(pkg) else {})
      && (forall k :: k in files && (!IsJwt(intent) || k !in JwtKeys(pkg)) ==> r[k] == files[k])
      && (IsJwt(intent) ==>
            && r[SecurityConfigKey(pkg)] == tpl.securityConfig(intent)
            && r[JwtUtilsKey(pkg)] == tpl.jwtUtils(intent)
            && r[AuthControllerKey(pkg)] == tpl.authController(intent)
            && r[AuthRequestKey(pkg)] == tpl.authRequest(intent))
  {
    JwtKeysDistinct(intent.packageName.value);
  }

  /**
   * After n turns of the JPA loop, the map holds exactly the given paths
   * plus an entity and a repository path per entity seen, and a path the
   * loop did not write keeps its value.
   */
  lemma {:induction false} WithEntitiesSpec(tpl: Templates, intent: IntentModel, files: map<string, string>, entities: seq<EntityModel>, n: nat)
    requires intent.packageName.Some? && EntitiesComplete(entities) && n <= |entities|
    ensures WithEntities(tpl, intent, files, entities, n).Keys == files.Keys + EntityKeys(intent.packageName.value, entities[..n])
    ensures forall k :: k in files && k !in EntityKeys(intent.packageName.value, entities[..n]) ==>
      WithEntities(tpl, intent, files, entities, n)[k] == files[k]
  {
    var pkg := intent.packageName.value;
    if n > 0 {
      WithEntitiesSpec(tpl, intent, files, entities, n - 1);
      var e := entities[n - 1];
      assert entities[..n] == entities[..n - 1] + [e];
      assert EntityKeys(pkg, entities[..n]) == EntityKeys(pkg, entities[..n - 1]) + {EntityKey(pkg, e), RepositoryKey(pkg, e)};
    } else {
      assert entities[..n] == [];
    }
  }

  /**
   * The files of an entity hold its templates unless a later entity of the
   * loop has the same printed name, in which case that one's replace them.
   */
  lemma {:induction false} WithEntitiesLastWins(tpl: Templates, intent: IntentModel, files: map<string, string>, entities: seq<EntityModel>, n: nat, k: nat)
    requires intent.packageName.Some? && EntitiesComplete(entities) && k < n <= |entities|
    requires forall j :: k < j < n ==> Text(entities[j].name) != Text(entities[k].name)
    ensures EntityKey(intent.packageName.value, entities[k]) in WithEntities(tpl, intent, files, entities, n)
    ensures RepositoryKey(intent.packageName.value, entities[k]) in WithEntities(tpl, intent, files, entities, n)
    ensures WithEntities(tpl, intent, files, entities, n)[EntityKey(intent.packageName.value, entities[k])] == tpl.jpaEntity(intent, entities[k])
    ensures WithEntities(tpl, intent, files, entities, n)[RepositoryKey(intent.packageName.value, entities[k])] == tpl.jpaRepository(intent, entities[k])
  {
    var pkg := intent.packageName.value;
    var e := entities[n - 1];
    EntityAndRepositoryDiffer(pkg, entities[k], e);
    if k < n - 1 {
      WithEntitiesLastWins(tpl, intent, files, entities, n - 1, k);
      EntityKeysByName(pkg, e, entities[k]);
      EntityAndRepositoryDiffer(pkg, e, entities[k]);
    }
  }

  /**
   * The persistence step adds exactly the persistence paths and leaves
   * every other path alone; on the MyBatis branch the three files hold
   * their templates.
   */
  lemma WithPersistenceSpec(tpl: Templates, intent: IntentModel, files: map<string, string>)
    requires EngineReady(intent)
    ensures var r := WithPersistence(tpl, intent, files);
      && r.Keys == files.Keys + PersistenceKeys(intent)
      && (forall k :: k in files && k !in PersistenceKeys(intent) ==> r[k] == files[k])
    ensures var pkg := intent.packageName.value; var r := WithPersistence(tpl, intent, files);
      IsMyBatis(intent) ==>
        && r[UserKey(pkg)] == tpl.userEntity(intent)
        && r[UserMapperKey(pkg)] == tpl.userMapper(intent)
        && r[SchemaKey] == tpl.schema(intent)
  {
    var pkg := intent.packageName.value;
    PersistenceModesExclusive(intent);
    MyBatisKeysDistinct(pkg);
    if IsJpaWithEntities(intent) {
      var entities := intent.entities.value;
      WithEntitiesSpec(tpl, intent, files, entities, |entities|);
      assert entities[..|entities|] == entities;
    }
  }

  /** With auth OAUTH2 the step adds the OAuth2 configuration and nothing else. */
  lemma WithOAuth2Spec(tpl: Templates, intent: IntentModel, files: map<string, string>)
    requires intent.packageName.Some?
    ensures var pkg := intent.packageName.value; var r := WithOAuth2(tpl, intent, files);
      && r.Keys == files.Keys + (if IsOAuth2(intent) then {OAuth2Key(pkg)} else {})
      && (forall k :: k in files && (!IsOAuth2(intent) || k != OAuth2Key(pkg)) ==> r[k] == files[k])
      && (IsOAuth2(intent) ==> r[OAuth2Key(pkg)] == tpl.oauth2SecurityConfig(intent))
  {
  }

  /** The last step always writes the three deployment files, over whatever was there. */
  lemma WithDeploymentSpec(tpl: Templates, intent: IntentModel, files: map<string, string>)
    requires EngineReady(intent)
    ensures var r := WithDeployment(tpl, intent, files);
      && r.Keys == files.Keys + DeployKeys
      && (forall k :: k in files && k !in DeployKeys ==> r[k] == files[k])
      && r[DockerfileKey] == tpl.dockerfile(intent)
      && r[ComposeKey] == tpl.dockerCompose(intent)
      && r[CiKey] == tpl.ciWorkflow(intent)
  {
  }

  /** After the parser, the steps add exactly the conditional and deployment paths. */
  lemma LaterStepsKeys(tpl: Templates, intent: IntentModel, files: map<string, string>)
    requires EngineReady(intent)
    ensures LaterSteps(tpl, intent, files).Keys == files.Keys + ConditionalKeys(intent) + DeployKeys
  {
    var pkg := intent.packageName.value;
    var f1 := WithJwt(tpl, intent, files);
    var f2 := WithPersistence(tpl, intent, f1);
    var f3 := WithOAuth2(tpl, intent, f2);
    WithJwtSpec(tpl, intent, files);
    WithPersistenceSpec(tpl, intent, f1);
    WithOAuth2Spec(tpl, intent, f2);
    WithDeploymentSpec(tpl, intent, f3);
  }

  /** ... and leave every other path as the parser left it. */
  lemma LaterStepsKeep(tpl: Templates, intent: IntentModel, files: map<string, string>, k: string)
    requires EngineReady(intent) && k in files && k !in ConditionalKeys(intent) + DeployKeys
    ensures k in LaterSteps(tpl, intent, files) && LaterSteps(tpl, intent, files)[k] == files[k]
  {
    var f1 := WithJwt(tpl, intent, files);
    WithJwtSpec(tpl, intent, files);
    AfterJwtKeeps(tpl, intent, f1, k);
  }

  /** A path present before the OAuth2 step that neither it nor the deployment step writes keeps its value. */
  lemma AfterPersistenceKeeps(tpl: Templates, intent: IntentModel, files: map<string, string>, k: string)
    requires EngineReady(intent) && k in files && k !in DeployKeys
    requires IsOAuth2(intent) ==> k != OAuth2Key(intent.packageName.value)
    ensures k in WithDeployment(tpl, intent, WithOAuth2(tpl, intent, files))
    ensures WithDeployment(tpl, intent, WithOAuth2(tpl, intent, files))[k] == files[k]
  {
    WithOAuth2Spec(tpl, intent, files);
    WithDeploymentSpec(tpl, intent, WithOAuth2(tpl, intent, files));
  }

  /** A path present after the JWT step that the persistence, OAuth2 and deployment steps do not write keeps its value. */
  lemma AfterJwtKeeps(tpl: Templates, intent: IntentModel, files: map<string, string>, k: string)
    requires EngineReady(intent) && k in files
    requires k !in PersistenceKeys(intent) && k !in DeployKeys
    requires IsOAuth2(intent) ==> k != OAuth2Key(intent.packageName.value)
    ensures k in WithDeployment(tpl, intent, WithOAuth2(tpl, intent, WithPersistence(tpl, intent, files)))
    ensures WithDeployment(tpl, intent, WithOAuth2(tpl, intent, WithPersistence(tpl, intent, files)))[k] == files[k]
  {
    WithPersistenceSpec(tpl, intent, files);
    AfterPersistenceKeeps(tpl, intent, WithPersistence(tpl, intent, files), k);
  }

  // ---------------------------------------------------------------------
  // the generated project

  /** The auth and persistence steps write source paths and the schema only. */
  lemma ConditionalKeysShape(intent: IntentModel)
    requires EngineReady(intent)
    ensures forall k :: k in ConditionalKeys(intent) ==> k == SchemaKey || StartsWith(k, "src/main/java/")
  {
    var pkg := intent.packageName.value;
    SourceKeyUnderJava(pkg, "security/SecurityConfig.java");
    SourceKeyUnderJava(pkg, "security/JwtUtils.java");
    SourceKeyUnderJava(pkg, "controller/AuthController.java");
    SourceKeyUnderJava(pkg, "model/AuthRequest.java");
    SourceKeyUnderJava(pkg, "model/User.java");
    SourceKeyUnderJava(pkg, "mapper/UserMapper.java");
    SourceKeyUnderJava(pkg, "security/OAuth2SecurityConfig.java");
    if IsJpaWithEntities(intent) {
      forall e | e in intent.entities.value
        ensures StartsWith(EntityKey(pkg, e), "src/main/java/") && StartsWith(RepositoryKey(pkg, e), "src/main/java/")
      {
        SourceKeyUnderJava(pkg, "model/" + Text(e.name) + ".java");
        SourceKeyUnderJava(pkg, "repository/" + Text(e.name) + "Repository.java");
      }
    }
  }

  /** The main class's path is written by no later step. */
  lemma AppKeyNotConditional(intent: IntentModel)
    requires EngineReady(intent)
    ensures AppKey(intent.packageName.value) !in ConditionalKeys(intent) + DeployKeys
  {
    var pkg := intent.packageName.value;
    var app := "Application.java";
    NotPersistenceKey(intent, app);
    NotDeployKey(pkg, app);
    SourceKeysDiffer(pkg, app, "security/SecurityConfig.java", 0);
    SourceKeysDiffer(pkg, app, "security/JwtUtils.java", 0);
    SourceKeysDiffer(pkg, app, "controller/AuthController.java", 0);
    SourceKeysDiffer(pkg, app, "model/AuthRequest.java", 0);
    SourceKeysDiffer(pkg, app, "security/OAuth2SecurityConfig.java", 0);
  }

  /**
   * The project holds the parser's paths plus exactly the paths this
   * intent switches on and the three deployment files; pom.xml, the main
   * class and application.yml are always among them.
   */
  lemma ProjectKeys(tpl: Templates, intent: IntentModel, llm: string)
    requires EngineReady(intent)
    ensures Project(tpl, intent, llm).Keys == ParsedFiles(tpl, intent, llm).Keys + ConditionalKeys(intent) + DeployKeys
    ensures RootKeys + {AppKey(intent.packageName.value)} + DeployKeys <= Project(tpl, intent, llm).Keys
  {
    P.ParsedSpec(intent.packageName.value, llm, RootFiles(tpl, intent, llm));
    LaterStepsKeys(tpl, intent, ParsedFiles(tpl, intent, llm));
  }

  /** A root file that the parser and the later steps do not write keeps the engine's text. */
  lemma RootFileKept(tpl: Templates, intent: IntentModel, llm: string, k: string)
    requires EngineReady(intent) && k in RootFiles(tpl, intent, llm)
    requires !P.IsBucketKey(intent.packageName.value, k) && k !in ConditionalKeys(intent) + DeployKeys
    ensures k in Project(tpl, intent, llm) && Project(tpl, intent, llm)[k] == RootFiles(tpl, intent, llm)[k]
  {
    var parsed := ParsedFiles(tpl, intent, llm);
    P.ParsedSpec(intent.packageName.value, llm, RootFiles(tpl, intent, llm));
    LaterStepsKeep(tpl, intent, parsed, k);
  }

  /** The three root files are three different paths, each holding its own template. */
  lemma RootFilesDistinct(tpl: Templates, intent: IntentModel, llm: string)
    requires EngineReady(intent)
    ensures var pkg := intent.packageName.value; var files := RootFiles(tpl, intent, llm);
      && files.Keys == {PomKey, AppKey(pkg), YmlKey}
      && files[PomKey] == tpl.pom(intent, llm)
      && files[AppKey(pkg)] == tpl.main(intent)
      && files[YmlKey] == tpl.applicationYml(intent)
  {
    var pkg := intent.packageName.value;
    RootPathsOutsideJava();
    NotASourceKey(pkg, "Application.java", PomKey);
    NotASourceKey(pkg, "Application.java", YmlKey);
  }

  /** pom.xml and application.yml are written by no later step and by the parser never. */
  lemma RootKeysNotLater(intent: IntentModel)
    requires EngineReady(intent)
    ensures PomKey !in ConditionalKeys(intent) + DeployKeys && YmlKey !in ConditionalKeys(intent) + DeployKeys
    ensures !P.IsBucketKey(intent.packageName.value, PomKey) && !P.IsBucketKey(intent.packageName.value, YmlKey)
  {
    var pkg := intent.packageName.value;
    ConditionalKeysShape(intent);
    RootPathsOutsideJava();
    if P.IsBucketKey(pkg, PomKey) { BucketKeyUnderJava(pkg, PomKey); }
    if P.IsBucketKey(pkg, YmlKey) { BucketKeyUnderJava(pkg, YmlKey); }
  }

  /**
   * pom.xml, the main class and application.yml hold the engine's own
   * templates, whatever files the LLM text names.
   */
  lemma ProjectRootFiles(tpl: Templates, intent: IntentModel, llm: string)
    requires EngineReady(intent)
    ensures var files := Project(tpl, intent, llm);
      PomKey in files && AppKey(intent.packageName.value) in files && YmlKey in files
    ensures var pkg := intent.packageName.value; var files := Project(tpl, intent, llm);
      && files[PomKey] == tpl.pom(intent, llm)
      && files[AppKey(pkg)] == tpl.main(intent)
      && files[YmlKey] == tpl.applicationYml(intent)
  {
    var pkg := intent.packageName.value;
    RootFilesDistinct(tpl, intent, llm);
    RootKeysNotLater(intent);
    AppKeyNotConditional(intent);
    AppKeyNotBucketKey(pkg);
    RootFileKept(tpl, intent, llm, PomKey);
    RootFileKept(tpl, intent, llm, YmlKey);
    RootFileKept(tpl, intent, llm, AppKey(pkg));
  }

  /** A path the JWT step wrote that no later step writes keeps the JWT step's text. */
  lemma JwtFileKept(tpl: Templates, intent: IntentModel, files: map<string, string>, relative: string)
    requires EngineReady(intent) && IsJwt(intent)
    requires SourceKey(intent.packageName.value, relative) in JwtKeys(intent.packageName.value)
    requires SourceKey(intent.packageName.value, relative) !in PersistenceKeys(intent)
    ensures var k := SourceKey(intent.packageName.value, relative);
      k in LaterSteps(tpl, intent, files) && LaterSteps(tpl, intent, files)[k] == WithJwt(tpl, intent, files)[k]
  {
    var k := SourceKey(intent.packageName.value, relative);
    WithJwtSpec(tpl, intent, files);
    AuthModesExclusive(intent);
    NotDeployKey(intent.packageName.value, relative);
    AfterJwtKeeps(tpl, intent, WithJwt(tpl, intent, files), k);
  }

  /**
   * With auth JWT the security configuration, the token helper and the
   * login controller hold their templates in the project.
   */
  lemma ProjectJwtFiles(tpl: Templates, intent: IntentModel, llm: string)
    requires EngineReady(intent) && IsJwt(intent)
    ensures var pkg := intent.packageName.value; var files := Project(tpl, intent, llm);
      SecurityConfigKey(pkg) in files && JwtUtilsKey(pkg) in files && AuthControllerKey(pkg) in files
    ensures var pkg := intent.packageName.value; var files := Project(tpl, intent, llm);
      && files[SecurityConfigKey(pkg)] == tpl.securityConfig(intent)
      && files[JwtUtilsKey(pkg)] == tpl.jwtUtils(intent)
      && files[AuthControllerKey(pkg)] == tpl.authController(intent)
  {
    var parsed := ParsedFiles(tpl, intent, llm);
    WithJwtSpec(tpl, intent, parsed);
    NotPersistenceKey(intent, "security/SecurityConfig.java");
    NotPersistenceKey(intent, "security/JwtUtils.java");
    NotPersistenceKey(intent, "controller/AuthController.java");
    JwtFileKept(tpl, intent, parsed, "security/SecurityConfig.java");
    JwtFileKept(tpl, intent, parsed, "security/JwtUtils.java");
    JwtFileKept(tpl, intent, parsed, "controller/AuthController.java");
  }

  /** The login request's path is that of an entity named AuthRequest. */
  lemma AuthRequestIsEntityKey(pkg: string, e: EntityModel)
    ensures Text(e.name) == "AuthRequest" <==> EntityKey(pkg, e) == AuthRequestKey(pkg)
  {
    var request := EntityModel(Some("AuthRequest"), None);
    assert AuthRequestKey(pkg) == EntityKey(pkg, request);
    if Text(e.name) != "AuthRequest" {
      EntityKeysByName(pkg, e, request);
    }
  }

  /** No entity or repository path of the listed entities is the login request's, unless one is named AuthRequest. */
  lemma AuthRequestNotEntityKey(pkg: string, entities: seq<EntityModel>)
    requires forall e :: e in entities ==> Text(e.name) != "AuthRequest"
    ensures AuthRequestKey(pkg) !in EntityKeys(pkg, entities)
  {
    forall e | e in entities
      ensures AuthRequestKey(pkg) != EntityKey(pkg, e) && AuthRequestKey(pkg) != RepositoryKey(pkg, e)
    {
      AuthRequestIsEntityKey(pkg, e);
      SourceKeysDiffer(pkg, "model/AuthRequest.java", "repository/" + Text(e.name) + "Repository.java", 0);
    }
  }

  /** The login request's path is none of the MyBatis paths. */
  lemma AuthRequestNotMyBatisKey(pkg: string)
    ensures AuthRequestKey(pkg) !in MyBatisKeys(pkg)
  {
    var relative := "model/AuthRequest.java";
    SourceKeysDiffer(pkg, relative, "model/User.java", 6);
    SourceKeysDiffer(pkg, relative, "mapper/UserMapper.java", 1);
    RootPathsOutsideJava();
    NotASourceKey(pkg, relative, SchemaKey);
  }

  /** Unless the JPA loop renders an entity named AuthRequest, no persistence file takes the login request's path. */
  lemma AuthRequestNotPersistence(intent: IntentModel)
    requires EngineReady(intent)
    requires IsJpaWithEntities(intent) ==> forall e :: e in intent.entities.value ==> Text(e.name) != "AuthRequest"
    ensures AuthRequestKey(intent.packageName.value) !in PersistenceKeys(intent)
  {
    var pkg := intent.packageName.value;
    if IsJpaWithEntities(intent) {
      AuthRequestNotEntityKey(pkg, intent.entities.value);
    } else if IsMyBatis(intent) {
      AuthRequestNotMyBatisKey(pkg);
    }
  }

  /**
   * The login request holds its template unless the JPA loop renders an
   * entity named AuthRequest, whose class then takes its place.
   */
  lemma ProjectAuthRequest(tpl: Templates, intent: IntentModel, llm: string)
    requires EngineReady(intent) && IsJwt(intent)
    requires IsJpaWithEntities(intent) ==> forall e :: e in intent.entities.value ==> Text(e.name) != "AuthRequest"
    ensures AuthRequestKey(intent.packageName.value) in Project(tpl, intent, llm)
    ensures Project(tpl, intent, llm)[AuthRequestKey(intent.packageName.value)] == tpl.authRequest(intent)
  {
    var parsed := ParsedFiles(tpl, intent, llm);
    WithJwtSpec(tpl, intent, parsed);
    AuthRequestNotPersistence(intent);
    JwtFileKept(tpl, intent, parsed, "model/AuthRequest.java");
  }

  /**
   * On the JPA branch each entity's class and repository hold its
   * templates, unless a later entity of the list has the same printed name.
   */
  lemma ProjectEntityFiles(tpl: Templates, intent: IntentModel, llm: string, k: nat)
    requires EngineReady(intent) && IsJpaWithEntities(intent) && k < |intent.entities.value|
    requires forall j :: k < j < |intent.entities.value| ==> Text(intent.entities.value[j].name) != Text(intent.entities.value[k].name)
    ensures var pkg := intent.packageName.value; var e := intent.entities.value[k];
      EntityKey(pkg, e) in Project(tpl, intent, llm) && RepositoryKey(pkg, e) in Project(tpl, intent, llm)
    ensures var pkg := intent.packageName.value; var e := intent.entities.value[k];
      && Project(tpl, intent, llm)[EntityKey(pkg, e)] == tpl.jpaEntity(intent, e)
      && Project(tpl, intent, llm)[RepositoryKey(pkg, e)] == tpl.jpaRepository(intent, e)
  {
    var pkg := intent.packageName.value;
    var entities := intent.entities.value;
    var e := entities[k];
    var f1 := WithJwt(tpl, intent, ParsedFiles(tpl, intent, llm));
    WithEntitiesLastWins(tpl, intent, f1, entities, |entities|, k);
    var f2 := WithPersistence(tpl, intent, f1);
    SourceKeysDiffer(pkg, "model/" + Text(e.name) + ".java", "security/OAuth2SecurityConfig.java", 0);
    SourceKeysDiffer(pkg, "repository/" + Text(e.name) + "Repository.java", "security/OAuth2SecurityConfig.java", 0);
    NotDeployKey(pkg, "model/" + Text(e.name) + ".java");
    NotDeployKey(pkg, "repository/" + Text(e.name) + "Repository.java");
    AfterPersistenceKeeps(tpl, intent, f2, EntityKey(pkg, e));
    AfterPersistenceKeeps(tpl, intent, f2, RepositoryKey(pkg, e));
  }

  /**
   * With auth JWT and a JPA entity named AuthRequest (the last one so
   * named), the login request's path holds that entity's class.
   */
  lemma ProjectAuthRequestReplaced(tpl: Templates, intent: IntentModel, llm: string, k: nat)
    requires EngineReady(intent) && IsJwt(intent) && IsJpaWithEntities(intent) && k < |intent.entities.value|
    requires Text(intent.entities.value[k].name) == "AuthRequest"
    requires forall j :: k < j < |intent.entities.value| ==> Text(intent.entities.value[j].name) != "AuthRequest"
    ensures AuthRequestKey(intent.packageName.value) in Project(tpl, intent, llm)
    ensures Project(tpl, intent, llm)[AuthRequestKey(intent.packageName.value)] == tpl.jpaEntity(intent, intent.entities.value[k])
  {
    AuthRequestIsEntityKey(intent.packageName.value, intent.entities.value[k]);
    ProjectEntityFiles(tpl, intent, llm, k);
  }

  /** The MyBatis paths are written by neither the OAuth2 step nor the deployment step. */
  lemma MyBatisKeysNotLater(pkg: string)
    ensures forall k :: k in MyBatisKeys(pkg) ==> k != OAuth2Key(pkg) && k !in DeployKeys
  {
    SourceKeysDiffer(pkg, "model/User.java", "security/OAuth2SecurityConfig.java", 0);
    SourceKeysDiffer(pkg, "mapper/UserMapper.java", "security/OAuth2SecurityConfig.java", 0);
    RootPathsOutsideJava();
    NotASourceKey(pkg, "security/OAuth2SecurityConfig.java", SchemaKey);
    NotDeployKey(pkg, "model/User.java");
    NotDeployKey(pkg, "mapper/UserMapper.java");
  }

  /** On the MyBatis branch the user entity, its mapper and the schema hold their templates. */
  lemma ProjectMyBatisFiles(tpl: Templates, intent: IntentModel, llm: string)
    requires EngineReady(intent) && IsMyBatis(intent)
    ensures var pkg := intent.packageName.value; var files := Project(tpl, intent, llm);
      UserKey(pkg) in files && UserMapperKey(pkg) in files && SchemaKey in files
    ensures var pkg := intent.packageName.value; var files := Project(tpl, intent, llm);
      && files[UserKey(pkg)] == tpl.userEntity(intent)
      && files[UserMapperKey(pkg)] == tpl.userMapper(intent)
      && files[SchemaKey] == tpl.schema(intent)
  {
    var pkg := intent.packageName.value;
    var f1 := WithJwt(tpl, intent, ParsedFiles(tpl, intent, llm));
    var f2 := WithPersistence(tpl, intent, f1);
    WithPersistenceSpec(tpl, intent, f1);
    MyBatisKeysNotLater(pkg);
    AfterPersistenceKeeps(tpl, intent, f2, UserKey(pkg));
    AfterPersistenceKeeps(tpl, intent, f2, UserMapperKey(pkg));
    AfterPersistenceKeeps(tpl, intent, f2, SchemaKey);
  }

  /** With auth OAUTH2 the OAuth2 configuration holds its template. */
  lemma ProjectOAuth2File(tpl: Templates, intent: IntentModel, llm: string)
    requires EngineReady(intent) && IsOAuth2(intent)
    ensures OAuth2Key(intent.packageName.value) in Project(tpl, intent, llm)
    ensures Project(tpl, intent, llm)[OAuth2Key(intent.packageName.value)] == tpl.oauth2SecurityConfig(intent)
  {
    var f2 := WithPersistence(tpl, intent, WithJwt(tpl, intent, ParsedFiles(tpl, intent, llm)));
    WithOAuth2Spec(tpl, intent, f2);
    NotDeployKey(intent.packageName.value, "security/OAuth2SecurityConfig.java");
    WithDeploymentSpec(tpl, intent, WithOAuth2(tpl, intent, f2));
  }

  /** The deployment files are written last, so they always hold their templates, whatever the LLM text named. */
  lemma ProjectDeploymentFiles(tpl: Templates, intent: IntentModel, llm: string)
    requires EngineReady(intent)
    ensures var files := Project(tpl, intent, llm);
      && DockerfileKey in files && ComposeKey in files && CiKey in files
      && files[DockerfileKey] == tpl.dockerfile(intent)
      && files[ComposeKey] == tpl.dockerCompose(intent)
      && files[CiKey] == tpl.ciWorkflow(intent)
  {
    var f3 := WithOAuth2(tpl, intent, WithPersistence(tpl, intent, WithJwt(tpl, intent, ParsedFiles(tpl, intent, llm))));
    WithDeploymentSpec(tpl, intent, f3);
  }

  /** Without a start marker the parser leaves the stub at its path. */
  lemma ParsedHasStub(tpl: Templates, intent: IntentModel, llm: string)
    requires EngineReady(intent) && !Contains(llm, P.StartMarker)
    ensures P.StubKey(intent.packageName.value) in ParsedFiles(tpl, intent, llm)
    ensures ParsedFiles(tpl, intent, llm)[P.StubKey(intent.packageName.value)] == P.Stub(intent.packageName.value, llm)
    ensures Contains(ParsedFiles(tpl, intent, llm)[P.StubKey(intent.packageName.value)], llm)
  {
    P.NoMarkerAddsStub(intent.packageName.value, llm, RootFiles(tpl, intent, llm));
  }

  /** The stub's path is written by no later step. */
  lemma StubKeyNotLater(intent: IntentModel)
    requires EngineReady(intent)
    ensures P.StubKey(intent.packageName.value) !in ConditionalKeys(intent) + DeployKeys
  {
    var pkg := intent.packageName.value;
    var stub := "service/GeneratedService.java";
    StubKeyIsSourceKey(pkg);
    NotPersistenceKey(intent, stub);
    NotDeployKey(pkg, stub);
    SourceKeysDiffer(pkg, stub, "security/SecurityConfig.java", 2);
    SourceKeysDiffer(pkg, stub, "security/JwtUtils.java", 2);
    SourceKeysDiffer(pkg, stub, "controller/AuthController.java", 0);
    SourceKeysDiffer(pkg, stub, "model/AuthRequest.java", 0);
    SourceKeysDiffer(pkg, stub, "security/OAuth2SecurityConfig.java", 2);
  }

  /**
   * An LLM text without a start marker ends up in the project as the
   * fallback service, raw text included.
   */
  lemma ProjectKeepsStub(tpl: Templates, intent: IntentModel, llm: string)
    requires EngineReady(intent) && !Contains(llm, P.StartMarker)
    ensures P.StubKey(intent.packageName.value) in Project(tpl, intent, llm)
    ensures Project(tpl, intent, llm)[P.StubKey(intent.packageName.value)] == P.Stub(intent.packageName.value, llm)
    ensures Contains(Project(tpl, intent, llm)[P.StubKey(intent.packageName.value)], llm)
  {
    ParsedHasStub(tpl, intent, llm);
    StubKeyNotLater(intent);
    LaterStepsKeep(tpl, intent, ParsedFiles(tpl, intent, llm), P.StubKey(intent.packageName.value));
  }

  /** An intent that asks for no auth and no persistence files gets only the deployment files on top of the parsed ones. */
  lemma PlainIntentAddsOnlyDeployment(tpl: Templates, intent: IntentModel, llm: string)
    requires EngineReady(intent)
    requires !IsJwt(intent) && !IsOAuth2(intent) && !IsMyBatis(intent) && !IsJpaWithEntities(intent)
    ensures ConditionalKeys(intent) == {}
    ensures Project(tpl, intent, llm).Keys == ParsedFiles(tpl, intent, llm).Keys + DeployKeys
  {
    PlainIntentSwitchesNothing(intent);
    ProjectKeys(tpl, intent, llm);
  }

  /** With no auth, no MyBatis and no entities, no conditional step writes a file. */
  lemma PlainIntentSwitchesNothing(intent: IntentModel)
    requires EngineReady(intent)
    requires !IsJwt(intent) && !IsOAuth2(intent) && !IsMyBatis(intent) && !IsJpaWithEntities(intent)
    ensures ConditionalKeys(intent) == {}
  {
    assert PersistenceKeys(intent) == {};
  }

  /** The default intent (auth NONE, JPA without entities) switches nothing on: only the deployment files are added. */
  lemma DefaultIntentAddsOnlyDeployment(tpl: Templates, llm: string)
    ensures EngineReady(DefaultIntent())
    ensures ConditionalKeys(DefaultIntent()) == {}
    ensures Project(tpl, DefaultIntent(), llm).Keys == ParsedFiles(tpl, DefaultIntent(), llm).Keys + DeployKeys
  {
    var intent := DefaultIntent();
    assert |ToLowerAscii("NONE")| == 4 && |ToLowerAscii("JWT")| == 3 && |ToLowerAscii("OAUTH2")| == 6;
    assert |ToLowerAscii("JPA")| == 3 && |ToLowerAscii("MYBATIS")| == 7;
    PlainIntentAddsOnlyDeployment(tpl, intent, llm);
  }
}
