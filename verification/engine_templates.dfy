/**
 * The templates CodeGenerationEngine keeps for itself. Where its text is the
 * same as DynamicCodeGenerator's (SecurityConfig, AuthController,
 * AuthRequest, the MyBatis trio, the CI workflow) the engine uses those; the
 * ones below differ: the main class, application.yml, the Dockerfile, the
 * compose file, the JWT utility (non-final key field), the OAuth2 chain, and
 * the JPA entity and repository.
 */
module EngineTemplates {
  import opened Wrappers
  import opened JavaString
  import opened SourceText
  import opened EntityModels
  import opened IntentModels
  import DCG = DynamicCodeGenerator

  function MainBody(): string {
    "\n"
    + "import org.springframework.boot.SpringApplication;\n"
    + "import org.springframework.boot.autoconfigure.SpringBootApplication;\n"
    + "\n"
    + "@SpringBootApplication\n"
    + "public class Application {\n"
    + "    public static void main(String[] args) {\n"
    + "        SpringApplication.run(Application.class, args);\n"
    + "    }\n"
    + "}\n"
  }

  /** `generateMain`: the Spring Boot entry point, in the intent's root package. */
  function Main(intent: IntentModel): string {
    Declare(DCG.Pkg(intent), MainBody())
  }

  // ---------------------------------------------------------------------
  // application.yml

  /** The datasource settings written into application.yml. */
  datatype DataSource = DataSource(url: string, driver: string, username: string, password: string)

  /**
   * The datasource for the intent's database: MySQL or PostgreSQL on host
   * `db`, else an in-memory H2 database, each named after the service with
   * hyphens turned into underscores.
   */
  function DataSourceFor(intent: IntentModel): DataSource
    requires intent.database.Some? && intent.serviceName.Some?
  {
    var name := DatabaseName(intent.serviceName.value);
    if DCG.IsMySql(intent) then
      DataSource("jdbc:mysql://db:3306/" + name, "com.mysql.cj.jdbc.Driver", "root", "root")
    else if DCG.IsPostgreSql(intent) then
      DataSource("jdbc:postgresql://db:5432/" + name, "org.postgresql.Driver", "postgres", "postgres")
    else
      DataSource("jdbc:h2:mem:" + name, "org.h2.Driver", "sa", "password")
  }

  /** Every datasource URL ends with the database name derived from the service name. */
  lemma DataSourceNamesDatabase(intent: IntentModel)
    requires intent.database.Some? && intent.serviceName.Some?
    ensures EndsWith(DataSourceFor(intent).url, DatabaseName(intent.serviceName.value))
    ensures DCG.IsMySql(intent) ==> StartsWith(DataSourceFor(intent).url, "jdbc:mysql://db:3306/")
    ensures !DCG.IsMySql(intent) && DCG.IsPostgreSql(intent) ==> StartsWith(DataSourceFor(intent).url, "jdbc:postgresql://db:5432/")
    ensures !DCG.IsMySql(intent) && !DCG.IsPostgreSql(intent) ==> StartsWith(DataSourceFor(intent).url, "jdbc:h2:mem:")
  {
    var name := DatabaseName(intent.serviceName.value);
    var url := DataSourceFor(intent).url;
    var prefix := if DCG.IsMySql(intent) then "jdbc:mysql://db:3306/"
      else if DCG.IsPostgreSql(intent) then "jdbc:postgresql://db:5432/" else "jdbc:h2:mem:";
    assert url == prefix + name;
    StartsWithConcat(prefix, name);
    assert (prefix + name)[|prefix + name| - |name|..] == name;
  }

  /** A `key: value` line of application.yml at the given indentation. */
  function YmlLine(indent: string, key: string, value: string): string {
    indent + key + ": " + value + "\n"
  }

  function YmlLines(intent: IntentModel): seq<string>
    requires intent.database.Some? && intent.serviceName.Some?
  {
    var ds := DataSourceFor(intent);
    [ "server:\n",
      YmlLine("  ", "port", IntegerText(intent.port)),
      "spring:\n",
      "  application:\n",
      YmlLine("    ", "name", intent.serviceName.value),
      "  datasource:\n",
      YmlLine("    ", "url", ds.url),
      YmlLine("    ", "driver-class-name", ds.driver),
      YmlLine("    ", "username", ds.username),
      YmlLine("    ", "password", ds.password),
      "  sql:\n",
      "    init:\n",
      "      mode: always\n" ]
  }

  /**
   * `generateApplicationYml`: the server port, the application name and the
   * datasource of the intent's database. The database and service name are
   * dereferenced, so both must be set.
   */
  function ApplicationYml(intent: IntentModel): string
    requires intent.database.Some? && intent.serviceName.Some?
  {
    Concat(YmlLines(intent))
  }

  lemma ApplicationYmlSpec(intent: IntentModel)
    requires intent.database.Some? && intent.serviceName.Some?
    ensures var r := ApplicationYml(intent); var ds := DataSourceFor(intent);
      && Contains(r, YmlLine("  ", "port", IntegerText(intent.port)))
      && Contains(r, YmlLine("    ", "name", intent.serviceName.value))
      && Contains(r, YmlLine("    ", "url", ds.url))
      && Contains(r, YmlLine("    ", "driver-class-name", ds.driver))
      && Contains(r, YmlLine("    ", "username", ds.username))
      && Contains(r, YmlLine("    ", "password", ds.password))
  {
    var parts := YmlLines(intent);
    ConcatContainsEach(parts);
    assert Contains(Concat(parts), parts[1]) && Contains(Concat(parts), parts[4]);
    assert Contains(Concat(parts), parts[6]) && Contains(Concat(parts), parts[7]);
    assert Contains(Concat(parts), parts[8]) && Contains(Concat(parts), parts[9]);
  }

  // ---------------------------------------------------------------------
  // deployment

  /** `generateDockerfile`: the engine's image copies whatever jar the build produced. */
  function Dockerfile(): string {
    DCG.DockerfileCopying("*")
  }

  /** The database block of the compose file, present only for MySQL and PostgreSQL. */
  predicate HasDatabaseService(intent: IntentModel) {
    DCG.IsMySql(intent) || DCG.IsPostgreSql(intent)
  }

  /** The environment line naming the database the `db` container creates. */
  function DatabaseEnvLine(intent: IntentModel): string
    requires intent.serviceName.Some?
  {
    if DCG.IsMySql(intent) then "      - MYSQL_DATABASE=" + DatabaseName(intent.serviceName.value) + "\n"
    else "      - POSTGRES_DB=" + DatabaseName(intent.serviceName.value) + "\n"
  }

  function DbImage(intent: IntentModel): string {
    if DCG.IsMySql(intent) then "mysql:8.0" else "postgres:15-alpine"
  }

  function DbEnvironment(intent: IntentModel): string
    requires intent.serviceName.Some?
  {
    (if DCG.IsMySql(intent) then "      - MYSQL_ROOT_PASSWORD=root\n" else "      - POSTGRES_PASSWORD=postgres\n")
    + DatabaseEnvLine(intent)
  }

  function DbServiceLines(intent: IntentModel): seq<string>
    requires intent.serviceName.Some?
  {
    [ DCG.DependsOnDb,
      "  db:\n",
      "    image: " + DbImage(intent) + "\n",
      "    environment:\n",
      DbEnvironment(intent),
      "\n" ]
  }

  /**
   * `generateDockerCompose`: only the app service for any database but MySQL
   * and PostgreSQL; for those two, the app also depends on a `db` service
   * running the matching image. The service name is dereferenced.
   */
  function DockerCompose(intent: IntentModel): string
    requires intent.database.Some? && intent.serviceName.Some?
  {
    var app := DCG.AppService(IntegerText(intent.port));
    if HasDatabaseService(intent) then app + Concat(DbServiceLines(intent)) else app
  }

  /** The compose header mentions `depends_on`. */
  lemma DependsOnDbMentionsDependsOn()
    ensures Contains(DCG.DependsOnDb, "depends_on")
  {
    assert DCG.DependsOnDb == "    " + "depends_on" + ":\n      - db\n";
    ContainsMiddle("    ", "depends_on", ":\n      - db\n");
  }

  /** The database block holds the dependency, the image line and the database line. */
  lemma DbServiceBlockSpec(intent: IntentModel)
    requires intent.serviceName.Some?
    ensures var block := Concat(DbServiceLines(intent));
      && Contains(block, "depends_on")
      && Contains(block, "    image: " + DbImage(intent) + "\n")
      && Contains(block, DatabaseEnvLine(intent))
  {
    var lines := DbServiceLines(intent);
    var block := Concat(lines);
    ConcatContainsEach(lines);
    assert Contains(block, lines[0]) && Contains(block, lines[2]) && Contains(block, lines[4]);
    DependsOnDbMentionsDependsOn();
    ContainsTransitive(block, lines[0], "depends_on");
    var password := if DCG.IsMySql(intent) then "      - MYSQL_ROOT_PASSWORD=root\n" else "      - POSTGRES_PASSWORD=postgres\n";
    assert lines[4] == password + DatabaseEnvLine(intent);
    ContainsSuffix(password, DatabaseEnvLine(intent));
    ContainsTransitive(block, lines[4], DatabaseEnvLine(intent));
  }

  /**
   * The compose file declares `depends_on: db` exactly when it declares a
   * database service, and that service creates the database named after
   * the service.
   */
  lemma DockerComposeSpec(intent: IntentModel)
    requires intent.database.Some? && intent.serviceName.Some?
    ensures Contains(DockerCompose(intent), "depends_on") <==> HasDatabaseService(intent)
    ensures HasDatabaseService(intent) ==> Contains(DockerCompose(intent), "    image: " + DbImage(intent) + "\n")
    ensures HasDatabaseService(intent) ==> Contains(DockerCompose(intent), DatabaseEnvLine(intent))
  {
    var port := IntegerText(intent.port);
    var app := DCG.AppService(port);
    if HasDatabaseService(intent) {
      var block := Concat(DbServiceLines(intent));
      DbServiceBlockSpec(intent);
      ContainsSuffix(app, block);
      ContainsTransitive(app + block, block, "depends_on");
      ContainsTransitive(app + block, block, "    image: " + DbImage(intent) + "\n");
      ContainsTransitive(app + block, block, DatabaseEnvLine(intent));
    } else {
      DCG.AppServiceHasNoUnderscore(port);
      MissingCharNotContained(app, "depends_on", '_');
    }
  }

  // ---------------------------------------------------------------------
  // security

  /** `generateJwtUtils`: as DynamicCodeGenerator's, but the key field is not final. */
  function JwtUtils(intent: IntentModel): string {
    Declare(DCG.Pkg(intent) + ".security", DCG.JwtUtilsBody("private "))
  }

  function OAuth2SecurityConfigBody(): string {
    DCG.SecurityImports()
    + "import static org.springframework.security.config.Customizer.withDefaults;\n"
    + "\n"
    + "@Configuration\n"
    + "public class OAuth2SecurityConfig {\n"
    + "    @Bean\n"
    + "    public SecurityFilterChain filterChain(HttpSecurity http) throws Exception {\n"
    + "        http.csrf(csrf -> csrf.disable())\n"
    + "            .authorizeHttpRequests(auth -> auth\n"
    + "                .anyRequest().authenticated())\n"
    + "            .oauth2Login(withDefaults());\n"
    + "        return http.build();\n"
    + "    }\n"
    + "}\n"
  }

  /** `generateOAuth2SecurityConfig`: the OAuth2 login filter chain, in package `<pkg>.security`. */
  function OAuth2SecurityConfig(intent: IntentModel): string {
    Declare(DCG.Pkg(intent) + ".security", OAuth2SecurityConfigBody())
  }

  /** The main class is declared in the intent's root package. */
  lemma MainSpec(intent: IntentModel)
    ensures StartsWith(Main(intent), PackageStatement(DCG.Pkg(intent)))
  {
    DeclareSpec(DCG.Pkg(intent), MainBody());
  }

  /** The JWT utility is declared in `<pkg>.security`. */
  lemma JwtUtilsSpec(intent: IntentModel)
    ensures StartsWith(JwtUtils(intent), PackageStatement(DCG.Pkg(intent) + ".security"))
  {
    DeclareSpec(DCG.Pkg(intent) + ".security", DCG.JwtUtilsBody("private "));
  }

  /** The OAuth2 filter chain is declared in `<pkg>.security`. */
  lemma OAuth2SecurityConfigSpec(intent: IntentModel)
    ensures StartsWith(OAuth2SecurityConfig(intent), PackageStatement(DCG.Pkg(intent) + ".security"))
  {
    DeclareSpec(DCG.Pkg(intent) + ".security", OAuth2SecurityConfigBody());
  }

  /** The engine's Dockerfile copies every jar the build produced. */
  lemma DockerfileSpec()
    ensures Contains(Dockerfile(), DCG.CopyJar("*"))
  {
    DCG.DockerfileCopyingSpec("*");
  }

  // ---------------------------------------------------------------------
  // JPA

  /** The member line the engine writes for one field: `    private <type> <name>;`. */
  function FieldLine(f: FieldModel): string {
    "    private " + Text(f.fieldType) + " " + Text(f.name) + ";\n"
  }

  /** The StringBuilder after appending every field's line, in order. */
  function FieldLines(fields: seq<FieldModel>): string {
    if fields == [] then "" else FieldLines(fields[..|fields| - 1]) + FieldLine(fields[|fields| - 1])
  }

  /** The member lines of two lists in a row are the lines of each, in a row. */
  lemma {:induction false} FieldLinesAppend(a: seq<FieldModel>, b: seq<FieldModel>)
    ensures FieldLines(a + b) == FieldLines(a) + FieldLines(b)
    decreases |b|
  {
    if b != [] {
      var init, f := b[..|b| - 1], b[|b| - 1];
      FieldLinesAppend(a, init);
      assert (a + b)[..|a + b| - 1] == a + init;
      var x, y, z := FieldLines(a), FieldLines(init), FieldLine(f);
      assert x + y + z == x + (y + z);
    } else {
      assert a + b == a;
    }
  }

  /** The member lines of a single field are that field's line. */
  lemma FieldLinesSingle(f: FieldModel)
    ensures FieldLines([f]) == FieldLine(f)
  {
    assert [f][..0] == [];
  }

  /** Field k's line sits right after the lines of the fields before it, in declaration order. */
  lemma {:induction false} FieldLinesInOrder(fields: seq<FieldModel>, k: nat)
    requires k < |fields|
    ensures FieldLines(fields) == FieldLines(fields[..k]) + FieldLine(fields[k]) + FieldLines(fields[k + 1..])
  {
    var pre, mid, post := fields[..k], [fields[k]], fields[k + 1..];
    assert fields == (pre + mid) + post;
    FieldLinesAppend(pre + mid, post);
    FieldLinesAppend(pre, mid);
    FieldLinesSingle(fields[k]);
  }

  /** The engine's JPA entity text for the given member lines. */
  function JpaEntityText(intent: IntentModel, name: string, members: string): string {
    Declare(DCG.Pkg(intent) + ".model", DCG.EntityBody(DCG.TableName(name), name, members))
  }

  /**
   * `generateJpaEntity` as a function: the entity class with one member
   * line per field, in order. Name and field list are dereferenced.
   */
  function JpaEntity(intent: IntentModel, entity: EntityModel): string
    requires entity.name.Some? && entity.fields.Some?
  {
    JpaEntityText(intent, entity.name.value, FieldLines(entity.fields.value))
  }

  /**
   * The engine's entity class is in `<pkg>.model`, maps to table
   * `<lower-cased name>s`, is named after the entity and holds one member
   * line per field, in declaration order.
   */
  lemma JpaEntitySpec(intent: IntentModel, entity: EntityModel)
    requires entity.name.Some? && entity.fields.Some?
    ensures StartsWith(JpaEntity(intent, entity), PackageStatement(DCG.Pkg(intent) + ".model"))
    ensures Contains(JpaEntity(intent, entity), DCG.TableAnnotation(DCG.TableName(entity.name.value)))
    ensures Contains(JpaEntity(intent, entity), DCG.ClassLine(entity.name.value))
    ensures Contains(JpaEntity(intent, entity), FieldLines(entity.fields.value))
  {
    var name := entity.name.value;
    var members := FieldLines(entity.fields.value);
    var body := DCG.EntityBody(DCG.TableName(name), name, members);
    DeclareSpec(DCG.Pkg(intent) + ".model", body);
    DCG.EntityBodySpec(DCG.TableName(name), name, members);
    DeclareContains(DCG.Pkg(intent) + ".model", body, DCG.TableAnnotation(DCG.TableName(name)));
    DeclareContains(DCG.Pkg(intent) + ".model", body, DCG.ClassLine(name));
    DeclareContains(DCG.Pkg(intent) + ".model", body, members);
  }

  /** `generateJpaEntity(intent, entity)`: member lines appended in a loop, then the class text. */
  method GenerateJpaEntity(intent: IntentModel, entity: EntityModel) returns (r: string)
    requires entity.name.Some? && entity.fields.Some?
    ensures r == JpaEntity(intent, entity)
  {
    var fields := entity.fields.value;
    var members := "";
    var i := 0;
    while i < |fields|
      invariant 0 <= i <= |fields|
      invariant members == FieldLines(fields[..i])
    {
      assert fields[..i + 1][..i] == fields[..i];
      members := members + FieldLine(fields[i]);
      i := i + 1;
    }
    assert fields[..i] == fields;
    r := JpaEntityText(intent, entity.name.value, members);
  }

  /** `generateJpaRepository`: as DynamicCodeGenerator's, with the interface body on its own line. */
  function JpaRepository(intent: IntentModel, entity: EntityModel): string {
    Declare(DCG.Pkg(intent) + ".repository", DCG.RepositoryBody(DCG.Pkg(intent), Text(entity.name), InterfaceBody))
  }

  const InterfaceBody := " {\n}\n"

  /** The engine's repository is in `<pkg>.repository`, imports the entity and extends JpaRepository over it. */
  lemma JpaRepositorySpec(intent: IntentModel, entity: EntityModel)
    ensures StartsWith(JpaRepository(intent, entity), PackageStatement(DCG.Pkg(intent) + ".repository"))
    ensures Contains(JpaRepository(intent, entity), DCG.Import(DCG.Pkg(intent), "model", Text(entity.name)))
    ensures Contains(JpaRepository(intent, entity), DCG.RepositoryDeclaration(Text(entity.name)))
  {
    var body := DCG.RepositoryBody(DCG.Pkg(intent), Text(entity.name), InterfaceBody);
    DeclareSpec(DCG.Pkg(intent) + ".repository", body);
    DCG.RepositoryBodySpec(DCG.Pkg(intent), Text(entity.name), InterfaceBody);
    DeclareContains(DCG.Pkg(intent) + ".repository", body, DCG.Import(DCG.Pkg(intent), "model", Text(entity.name)));
    DeclareContains(DCG.Pkg(intent) + ".repository", body, DCG.RepositoryDeclaration(Text(entity.name)));
  }
}
