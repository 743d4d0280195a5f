/**
 * DynamicCodeGenerator: static templates that turn an intent (and, for JPA,
 * an entity) into the text of one generated file. Values are spliced in with
 * `String.format`, so a null package or service name prints as "null"; only
 * the JPA entity dereferences its argument (its name and field list).
 */
module DynamicCodeGenerator {
  import opened Wrappers
  import opened JavaString
  import opened SourceText
  import opened EntityModels
  import opened IntentModels

  /** The intent's package name as the templates print it. */
  function Pkg(intent: IntentModel): string {
    Text(intent.packageName)
  }

  // ---------------------------------------------------------------------
  // security (JWT and OAuth2)

  function SecurityImports(): string {
    "\n"
    + "import org.springframework.context.annotation.Bean;\n"
    + "import org.springframework.context.annotation.Configuration;\n"
    + "import org.springframework.security.config.annotation.web.builders.HttpSecurity;\n"
    + "import org.springframework.security.web.SecurityFilterChain;\n"
  }

  function SecurityConfigBody(): string {
    SecurityImports()
    + "\n"
    + "@Configuration\n"
    + "public class SecurityConfig {\n"
    + "    @Bean\n"
    + "    public SecurityFilterChain filterChain(HttpSecurity http) throws Exception {\n"
    + "        http.csrf(csrf -> csrf.disable())\n"
    + "            .authorizeHttpRequests(auth -> auth\n"
    + "                .requestMatchers(\"/api/auth/**\").permitAll()\n"
    + "                .anyRequest().authenticated());\n"
    + "        return http.build();\n"
    + "    }\n"
    + "}\n"
  }

  /** `generateSecurityConfig`: the JWT filter chain, in package `<pkg>.security`. */
  function SecurityConfig(intent: IntentModel): string {
    Declare(Pkg(intent) + ".security", SecurityConfigBody())
  }

  /** The body of a JwtUtils class whose key field carries the given modifiers ("private " or "private final "). */
  function JwtUtilsBody(keyModifiers: string): string {
    "\n"
    + "import io.jsonwebtoken.Jwts;\n"
    + "import io.jsonwebtoken.SignatureAlgorithm;\n"
    + "import org.springframework.stereotype.Component;\n"
    + "import java.util.Date;\n"
    + "\n"
    + "@Component\n"
    + "public class JwtUtils {\n"
    + "    " + keyModifiers + "String jwtKey = System.getenv().getOrDefault(\"JWT_SECRET\", \"dev-key-123\");\n"
    + "\n"
    + "    public String generateToken(String username) {\n"
    + "        return Jwts.builder()\n"
    + "            .setSubject(username)\n"
    + "            .setIssuedAt(new Date())\n"
    + "            .setExpiration(new Date(System.currentTimeMillis() + 86400000))\n"
    + "            .signWith(SignatureAlgorithm.HS256, jwtKey)\n"
    + "            .compact();\n"
    + "    }\n"
    + "}\n"
  }

  /** `generateJwtUtils`: token signing with a key read from JWT_SECRET, in package `<pkg>.security`. */
  function JwtUtils(intent: IntentModel): string {
    Declare(Pkg(intent) + ".security", JwtUtilsBody("private final "))
  }

  /** The import of a class `name` from sub-package `sub` of `pkg`. */
  function Import(pkg: string, sub: string, name: string): string {
    "import " + pkg + "." + sub + "." + name + ";"
  }

  function AuthControllerTail(): string {
    "\n"
    + "import org.springframework.web.bind.annotation.*;\n"
    + "\n"
    + "@RestController\n"
    + "@RequestMapping(\"/api/auth\")\n"
    + "public class AuthController {\n"
    + "    private final JwtUtils jwtUtils;\n"
    + "\n"
    + "    public AuthController(JwtUtils jwtUtils) {\n"
    + "        this.jwtUtils = jwtUtils;\n"
    + "    }\n"
    + "\n"
    + "    @PostMapping(\"/login\")\n"
    + "    public String login(@RequestBody AuthRequest request) {\n"
    + "        return jwtUtils.generateToken(request.getUsername());\n"
    + "    }\n"
    + "}\n"
  }

  /**
   * `generateAuthController`: the login endpoint, in package
   * `<pkg>.controller`, wired to the AuthRequest and JwtUtils classes the
   * same intent generates under `<pkg>.model` and `<pkg>.security`.
   */
  function AuthController(intent: IntentModel): string {
    var pkg := Pkg(intent);
    Declare(pkg + ".controller", "\n" + Import(pkg, "model", "AuthRequest") + "\n" + Import(pkg, "security", "JwtUtils") + AuthControllerTail())
  }

  function AuthRequestBody(): string {
    "\n"
    + "import lombok.Data;\n"
    + "\n"
    + "@Data\n"
    + "public class AuthRequest {\n"
    + "    private String username;\n"
    + "    private String password;\n"
    + "}\n"
  }

  /** `generateAuthRequest`: the login payload, in package `<pkg>.model`. */
  function AuthRequest(intent: IntentModel): string {
    Declare(Pkg(intent) + ".model", AuthRequestBody())
  }

  function OAuth2SecurityConfigBody(): string {
    SecurityImports()
    + "import static org.springframework.security.config.Customizer.withDefaults;\n"
    + "\n"
    + "@Configuration\n"
    + "public class OAuth2SecurityConfig {\n"
    + "    @Bean\n"
    + "    public SecurityFilterChain filterChain(HttpSecurity http) throws Exception {\n"
    + "        http.csrf(csrf -> csrf.disable())\n"
    + "            .authorizeHttpRequests(auth -> auth.anyRequest().authenticated())\n"
    + "            .oauth2Login(withDefaults());\n"
    + "        return http.build();\n"
    + "    }\n"
    + "}\n"
  }

  /** `generateOAuth2SecurityConfig`: the OAuth2 login filter chain, in package `<pkg>.security`. */
  function OAuth2SecurityConfig(intent: IntentModel): string {
    Declare(Pkg(intent) + ".security", OAuth2SecurityConfigBody())
  }

  /** The auth controller's body imports the request class and the token utility of the same package. */
  lemma AuthControllerImports(pkg: string)
    ensures var body := "\n" + Import(pkg, "model", "AuthRequest") + "\n" + Import(pkg, "security", "JwtUtils") + AuthControllerTail();
      Contains(body, Import(pkg, "model", "AuthRequest")) && Contains(body, Import(pkg, "security", "JwtUtils"))
  {
    var a := Import(pkg, "model", "AuthRequest");
    var j := Import(pkg, "security", "JwtUtils");
    ContainsSuffix("\n", a);
    ContainsKept("\n" + a, a, "\n");
    ContainsKept("\n" + a + "\n", a, j);
    ContainsKept("\n" + a + "\n" + j, a, AuthControllerTail());
    ContainsSuffix("\n" + a + "\n", j);
    ContainsKept("\n" + a + "\n" + j, j, AuthControllerTail());
  }

  /** The JWT filter chain opens with the package statement of `<pkg>.security`. */
  lemma SecurityConfigSpec(intent: IntentModel)
    ensures StartsWith(SecurityConfig(intent), PackageStatement(Pkg(intent) + ".security"))
  {
    DeclareSpec(Pkg(intent) + ".security", SecurityConfigBody());
  }

  /** The token helper opens with the package statement of `<pkg>.security`. */
  lemma JwtUtilsSpec(intent: IntentModel)
    ensures StartsWith(JwtUtils(intent), PackageStatement(Pkg(intent) + ".security"))
  {
    DeclareSpec(Pkg(intent) + ".security", JwtUtilsBody("private final "));
  }

  /**
   * The login controller opens with the package statement of
   * `<pkg>.controller` and imports the AuthRequest and JwtUtils classes the
   * same intent generates.
   */
  lemma AuthControllerSpec(intent: IntentModel)
    ensures StartsWith(AuthController(intent), PackageStatement(Pkg(intent) + ".controller"))
    ensures Contains(AuthController(intent), Import(Pkg(intent), "model", "AuthRequest"))
    ensures Contains(AuthController(intent), Import(Pkg(intent), "security", "JwtUtils"))
  {
    var pkg := Pkg(intent);
    var body := "\n" + Import(pkg, "model", "AuthRequest") + "\n" + Import(pkg, "security", "JwtUtils") + AuthControllerTail();
    DeclareSpec(pkg + ".controller", body);
    AuthControllerImports(pkg);
    DeclareContains(pkg + ".controller", body, Import(pkg, "model", "AuthRequest"));
    DeclareContains(pkg + ".controller", body, Import(pkg, "security", "JwtUtils"));
  }

  /** The login request class opens with the package statement of `<pkg>.model`. */
  lemma AuthRequestSpec(intent: IntentModel)
    ensures StartsWith(AuthRequest(intent), PackageStatement(Pkg(intent) + ".model"))
  {
    DeclareSpec(Pkg(intent) + ".model", AuthRequestBody());
  }

  /** The OAuth2 login chain opens with the package statement of `<pkg>.security`. */
  lemma OAuth2SecurityConfigSpec(intent: IntentModel)
    ensures StartsWith(OAuth2SecurityConfig(intent), PackageStatement(Pkg(intent) + ".security"))
  {
    DeclareSpec(Pkg(intent) + ".security", OAuth2SecurityConfigBody());
  }

  // ---------------------------------------------------------------------
  // JPA

  /** One member declaration, `private <type> <name>;`, nulls printed as "null". */
  function FieldDeclaration(f: FieldModel): string {
    "private " + Text(f.fieldType) + " " + Text(f.name) + ";"
  }

  const FieldSeparator := "\n    "

  /**
   * The StringJoiner after `forEach` has added every field's declaration,
   * left to right: the declarations separated by a newline and four spaces.
   */
  function JoinedFields(fields: seq<FieldModel>): string {
    if |fields| == 0 then ""
    else if |fields| == 1 then FieldDeclaration(fields[0])
    else JoinedFields(fields[..|fields| - 1]) + FieldSeparator + FieldDeclaration(fields[|fields| - 1])
  }

  function Declarations(fields: seq<FieldModel>): (ds: seq<string>)
    ensures |ds| == |fields|
    ensures forall k :: 0 <= k < |fields| ==> ds[k] == FieldDeclaration(fields[k])
  {
    seq(|fields|, k requires 0 <= k < |fields| => FieldDeclaration(fields[k]))
  }

  /** The joiner's text is the declarations, in field order, joined by the separator. */
  lemma {:induction false} JoinedFieldsIsJoin(fields: seq<FieldModel>)
    requires |fields| >= 1
    ensures JoinedFields(fields) == Join(Declarations(fields), FieldSeparator)
  {
    if |fields| > 1 {
      var init := fields[..|fields| - 1];
      JoinedFieldsIsJoin(init);
      assert Declarations(fields) == Declarations(init) + [FieldDeclaration(fields[|fields| - 1])];
      JoinSnoc(Declarations(init), FieldDeclaration(fields[|fields| - 1]), FieldSeparator);
    }
  }

  /** Every field's declaration is in the joined text. */
  lemma JoinedFieldsDeclaresEach(fields: seq<FieldModel>)
    ensures forall k :: 0 <= k < |fields| ==> Contains(JoinedFields(fields), FieldDeclaration(fields[k]))
  {
    if |fields| >= 1 {
      JoinedFieldsIsJoin(fields);
      JoinContainsEach(Declarations(fields), FieldSeparator);
    }
  }

  const EntityImports := "\nimport jakarta.persistence.*;\nimport lombok.Data;\n\n@Entity\n"
  const IdColumn := "\n    @Id\n    @GeneratedValue(strategy = GenerationType.IDENTITY)\n    private Long id;\n    "
  const RepositoryImports := "\nimport org.springframework.data.jpa.repository.JpaRepository;\nimport org.springframework.stereotype.Repository;\n\n@Repository\n"

  /** `@Table(name = "<table>")`. */
  function TableAnnotation(table: string): string {
    "@Table(name = \"" + table + "\")"
  }

  /** The table an entity maps to: its name lower-cased, plus "s". */
  function TableName(entityName: string): string {
    ToLowerAscii(entityName) + "s"
  }

  /** The entity class text after the package statement, around the given table, class name and member text. */
  function EntityBody(table: string, className: string, members: string): string {
    EntityImports + TableAnnotation(table) + DataAnnotation + ClassLine(className) + IdColumn + members + ClassEnd
  }

  const DataAnnotation := "\n@Data\n"
  const ClassEnd := "\n}\n"

  /** `public class <name> {`. */
  function ClassLine(className: string): string {
    "public class " + className + " {"
  }

  /** The entity text carries the table annotation, the class line and the member text. */
  lemma EntityBodySpec(table: string, className: string, members: string)
    ensures Contains(EntityBody(table, className, members), TableAnnotation(table))
    ensures Contains(EntityBody(table, className, members), ClassLine(className))
    ensures Contains(EntityBody(table, className, members), members)
  {
    var head := EntityImports;
    var t := TableAnnotation(table);
    var c := ClassLine(className);
    var ids := IdColumn;
    ContainsSuffix(head, t);
    var d := DataAnnotation;
    var e := ClassEnd;
    ContainsKept(head + t, t, d);
    ContainsKept(head + t + d, t, c);
    ContainsKept(head + t + d + c, t, ids);
    ContainsKept(head + t + d + c + ids, t, members);
    ContainsKept(head + t + d + c + ids + members, t, e);
    ContainsSuffix(head + t + d, c);
    ContainsKept(head + t + d + c, c, ids);
    ContainsKept(head + t + d + c + ids, c, members);
    ContainsKept(head + t + d + c + ids + members, c, e);
    ContainsSuffix(head + t + d + c + ids, members);
    ContainsKept(head + t + d + c + ids + members, members, e);
  }

  /**
   * `generateJpaEntity`: a JPA entity class named after the entity, mapped
   * to table `<lower-cased name>s`, declaring every field of the entity.
   * The entity's name and field list are dereferenced, so both must be set.
   */
  function JpaEntity(intent: IntentModel, entity: EntityModel): string
    requires entity.name.Some? && entity.fields.Some?
  {
    var name := entity.name.value;
    Declare(Pkg(intent) + ".model", EntityBody(TableName(name), name, JoinedFields(entity.fields.value)))
  }

  /**
   * The entity class is in `<pkg>.model`, maps to table `<lower-cased name>s`,
   * is named after the entity and declares every one of its fields.
   */
  lemma JpaEntitySpec(intent: IntentModel, entity: EntityModel)
    requires entity.name.Some? && entity.fields.Some?
    ensures StartsWith(JpaEntity(intent, entity), PackageStatement(Pkg(intent) + ".model"))
    ensures Contains(JpaEntity(intent, entity), TableAnnotation(TableName(entity.name.value)))
    ensures Contains(JpaEntity(intent, entity), ClassLine(entity.name.value))
    ensures forall k :: 0 <= k < |entity.fields.value| ==> Contains(JpaEntity(intent, entity), FieldDeclaration(entity.fields.value[k]))
  {
    var name := entity.name.value;
    var fields := entity.fields.value;
    var members := JoinedFields(fields);
    var body := EntityBody(TableName(name), name, members);
    var r := JpaEntity(intent, entity);
    DeclareSpec(Pkg(intent) + ".model", body);
    EntityBodySpec(TableName(name), name, members);
    ContainsTransitive(r, body, TableAnnotation(TableName(name)));
    ContainsTransitive(r, body, ClassLine(name));
    JoinedFieldsDeclaresEach(fields);
    forall k | 0 <= k < |fields|
      ensures Contains(r, FieldDeclaration(fields[k]))
    {
      ContainsTransitive(body, members, FieldDeclaration(fields[k]));
      ContainsTransitive(r, body, FieldDeclaration(fields[k]));
    }
  }

  /** `public interface <name>Repository extends JpaRepository<<name>, Long>`. */
  function RepositoryDeclaration(name: string): string {
    "public interface " + name + "Repository extends JpaRepository<" + name + ", Long>"
  }

  /** The repository text after the package statement; `closing` is what follows the interface header. */
  function RepositoryBody(pkg: string, name: string, closing: string): string {
    "\n" + Import(pkg, "model", name) + RepositoryImports + RepositoryDeclaration(name) + closing
  }

  /** The repository text imports the entity and declares the interface over it. */
  lemma RepositoryBodySpec(pkg: string, name: string, closing: string)
    ensures Contains(RepositoryBody(pkg, name, closing), Import(pkg, "model", name))
    ensures Contains(RepositoryBody(pkg, name, closing), RepositoryDeclaration(name))
  {
    var i := Import(pkg, "model", name);
    var mid := RepositoryImports;
    var d := RepositoryDeclaration(name);
    ContainsSuffix("\n", i);
    ContainsKept("\n" + i, i, mid);
    ContainsKept("\n" + i + mid, i, d);
    ContainsKept("\n" + i + mid + d, i, closing);
    ContainsSuffix("\n" + i + mid, d);
    ContainsKept("\n" + i + mid + d, d, closing);
  }

  /**
   * `generateJpaRepository`: the Spring Data repository of an entity, in
   * package `<pkg>.repository`, importing the entity from `<pkg>.model`.
   */
  function JpaRepository(intent: IntentModel, entity: EntityModel): string {
    Declare(Pkg(intent) + ".repository", RepositoryBody(Pkg(intent), Text(entity.name), " {}\n"))
  }

  /** The repository is in `<pkg>.repository`, imports the entity from `<pkg>.model` and extends JpaRepository over it. */
  lemma JpaRepositorySpec(intent: IntentModel, entity: EntityModel)
    ensures StartsWith(JpaRepository(intent, entity), PackageStatement(Pkg(intent) + ".repository"))
    ensures Contains(JpaRepository(intent, entity), Import(Pkg(intent), "model", Text(entity.name)))
    ensures Contains(JpaRepository(intent, entity), RepositoryDeclaration(Text(entity.name)))
  {
    var body := RepositoryBody(Pkg(intent), Text(entity.name), " {}\n");
    DeclareSpec(Pkg(intent) + ".repository", body);
    RepositoryBodySpec(Pkg(intent), Text(entity.name), " {}\n");
    DeclareContains(Pkg(intent) + ".repository", body, Import(Pkg(intent), "model", Text(entity.name)));
    DeclareContains(Pkg(intent) + ".repository", body, RepositoryDeclaration(Text(entity.name)));
  }

  // ---------------------------------------------------------------------
  // MyBatis

  function UserEntityBody(): string {
    "\n"
    + "import lombok.Data;\n"
    + "\n"
    + "@Data\n"
    + "public class User {\n"
    + "    private Long id;\n"
    + "    private String username;\n"
    + "    private String password;\n"
    + "}\n"
  }

  /** `generateUserEntity`: the MyBatis User record, in package `<pkg>.model`. */
  function UserEntity(intent: IntentModel): string {
    Declare(Pkg(intent) + ".model", UserEntityBody())
  }

  function UserMapperTail(): string {
    "\n"
    + "import org.apache.ibatis.annotations.*;\n"
    + "import java.util.List;\n"
    + "\n"
    + "@Mapper\n"
    + "public interface UserMapper {\n"
    + "    @Select(\"SELECT * FROM users\")\n"
    + "    List<User> findAll();\n"
    + "\n"
    + "    @Insert(\"INSERT INTO users(username, password) VALUES(#{username}, #{password})\")\n"
    + "    @Options(useGeneratedKeys = true, keyProperty = \"id\")\n"
    + "    void insert(User user);\n"
    + "}\n"
  }

  /** `generateUserMapper`: the MyBatis mapper over table `users`, in package `<pkg>.mapper`, using `<pkg>.model.User`. */
  function UserMapper(intent: IntentModel): string {
    Declare(Pkg(intent) + ".mapper", "\n" + Import(Pkg(intent), "model", "User") + UserMapperTail())
  }

  /** The User record is in `<pkg>.model`; the mapper is in `<pkg>.mapper` and imports that record. */
  lemma MyBatisTemplatesSpec(intent: IntentModel)
    ensures StartsWith(UserEntity(intent), PackageStatement(Pkg(intent) + ".model"))
    ensures StartsWith(UserMapper(intent), PackageStatement(Pkg(intent) + ".mapper"))
    ensures Contains(UserMapper(intent), Import(Pkg(intent), "model", "User"))
  {
    var i := Import(Pkg(intent), "model", "User");
    DeclareSpec(Pkg(intent) + ".model", UserEntityBody());
    DeclareSpec(Pkg(intent) + ".mapper", "\n" + i + UserMapperTail());
    ContainsMiddle("\n", i, UserMapperTail());
    DeclareContains(Pkg(intent) + ".mapper", "\n" + i + UserMapperTail(), i);
  }

  /** `generateSchema`: the `users` table the mapper reads and writes. */
  function Schema(): string {
    "CREATE TABLE IF NOT EXISTS users (\n"
    + "    id BIGINT AUTO_INCREMENT PRIMARY KEY,\n"
    + "    username VARCHAR(255) NOT NULL,\n"
    + "    password VARCHAR(255) NOT NULL\n"
    + ");\n"
  }

  // ---------------------------------------------------------------------
  // deployment

  /** The instruction that copies the built jar into the image. */
  function CopyJar(jarName: string): string {
    "COPY target/" + jarName + ".jar app.jar\n"
  }

  /** A Dockerfile on the Temurin 21 image that copies `target/<jarName>.jar` and runs it. */
  function DockerfileCopying(jarName: string): string {
    DockerfileHead + CopyJar(jarName) + DockerfileEntryPoint
  }

  const DockerfileHead := "FROM eclipse-temurin:21-jdk-alpine\nVOLUME /tmp\n"
  const DockerfileEntryPoint := "ENTRYPOINT [\"java\",\"-jar\",\"/app.jar\"]\n"

  /** The image holds the instruction that copies the named jar. */
  lemma DockerfileCopyingSpec(jarName: string)
    ensures Contains(DockerfileCopying(jarName), CopyJar(jarName))
  {
    ContainsMiddle(DockerfileHead, CopyJar(jarName), DockerfileEntryPoint);
  }

  /** `generateDockerfile`: the image copies the jar named after the service. */
  function Dockerfile(intent: IntentModel): (r: string)
    ensures Contains(r, CopyJar(Text(intent.serviceName)))
  {
    DockerfileCopyingSpec(Text(intent.serviceName));
    DockerfileCopying(Text(intent.serviceName))
  }

  /** The database engines for which a `db` service is declared. */
  predicate IsMySql(intent: IntentModel) {
    intent.database.Some? && EqualsIgnoreCase("MYSQL", intent.database.value)
  }

  predicate IsPostgreSql(intent: IntentModel) {
    intent.database.Some? && EqualsIgnoreCase("POSTGRESQL", intent.database.value)
  }

  /** The `image:` line of the `db` service. */
  function ImageLine(image: string): string {
    "  image: " + image + "\n"
  }

  /** The `db` service block for an image and its two environment lines. */
  function DbService(image: string, env1: string, env2: string): (r: string)
    ensures Contains(r, ImageLine(image))
    ensures Contains(r, env2)
  {
    ContainsMiddle("db:\n", ImageLine(image), "  environment:\n    - " + env1 + "\n    - " + env2 + "\n");
    assert "db:\n" + ImageLine(image) + "  environment:\n    - " + env1 + "\n    - " + env2 + "\n"
      == "db:\n" + ImageLine(image) + ("  environment:\n    - " + env1 + "\n    - " + env2 + "\n");
    ContainsMiddle("db:\n" + ImageLine(image) + "  environment:\n    - " + env1 + "\n    - ", env2, "\n");
    "db:\n" + ImageLine(image) + "  environment:\n    - " + env1 + "\n    - " + env2 + "\n"
  }

  /** The app service's dependency on the `db` service. */
  const DependsOnDb := "    depends_on:\n      - db\n"

  const ComposeVersion := "version: '3.8'\nservices:\n"
  const ComposeApp := "  app:\n    build: .\n"
  const ComposePorts := "    ports:\n      - \""

  /** The compose file up to the app service's port mapping `<port>:<port>`. */
  function AppService(port: string): string {
    ComposeVersion + ComposeApp + ComposePorts + port + ":" + port + "\"\n"
  }

  /** The app service text has no 'g', so no `image:` line. */
  lemma AppServiceHasNoG(port: string)
    requires forall k :: 0 <= k < |port| ==> port[k] in "-0123456789nul"
    ensures 'g' !in AppService(port)
  {
    assert 'g' !in ComposeVersion;
    assert 'g' !in ComposeApp;
    assert 'g' !in ComposePorts;
    LacksChar(port, 'g');
  }

  /** The app service text has no '_', so no `depends_on` line. */
  lemma AppServiceHasNoUnderscore(port: string)
    requires forall k :: 0 <= k < |port| ==> port[k] in "-0123456789nul"
    ensures '_' !in AppService(port)
  {
    assert '_' !in ComposeVersion;
    assert '_' !in ComposeApp;
    assert '_' !in ComposePorts;
    LacksChar(port, '_');
  }

  lemma LacksChar(port: string, c: char)
    requires c !in ComposeVersion && c !in ComposeApp && c !in ComposePorts && c !in port
    requires c != ':' && c != '"' && c != '\n'
    ensures c !in AppService(port)
  {
  }

  /** The compose text before the database block: the app service, always depending on `db`. */
  function ComposeHead(port: string): string {
    AppService(port) + DependsOnDb
  }

  lemma ComposeHeadHasNoImage(port: string)
    requires forall k :: 0 <= k < |port| ==> port[k] in "-0123456789nul"
    ensures 'g' !in ComposeHead(port)
  {
    AppServiceHasNoG(port);
    assert 'g' !in DependsOnDb;
  }

  /** The compose text is the head, the optional database block and a newline. */
  lemma ComposeShape(port: string, dbService: string, image: string, env: string)
    requires forall k :: 0 <= k < |port| ==> port[k] in "-0123456789nul"
    requires dbService != "" ==> Contains(dbService, ImageLine(image)) && Contains(dbService, env)
    ensures Contains(ComposeHead(port) + dbService + "\n", DependsOnDb)
    ensures dbService != "" ==> Contains(ComposeHead(port) + dbService + "\n", ImageLine(image))
    ensures dbService != "" ==> Contains(ComposeHead(port) + dbService + "\n", env)
    ensures dbService == "" ==> !Contains(ComposeHead(port) + dbService + "\n", "image: ")
  {
    var head := ComposeHead(port);
    ContainsSuffix(AppService(port), DependsOnDb);
    ContainsKept(head, DependsOnDb, dbService);
    ContainsKept(head + dbService, DependsOnDb, "\n");
    if dbService != "" {
      ContainsMiddle(head, dbService, "\n");
      ContainsTransitive(head + dbService + "\n", dbService, ImageLine(image));
      ContainsTransitive(head + dbService + "\n", dbService, env);
    } else {
      ComposeHeadHasNoImage(port);
      assert head + dbService + "\n" == head + "\n";
      MissingCharNotContained(head + "\n", "image: ", 'g');
    }
  }

  /**
   * `generateDockerCompose`: the app service always declares
   * `depends_on: db`; a `db` service (mysql:8.0 or postgres:15-alpine,
   * whose database is the service name with '-' turned into '_') is added
   * only for MYSQL and POSTGRESQL, matched case-insensitively and null-safely.
   */
  function DockerCompose(intent: IntentModel): (r: string)
    requires IsMySql(intent) || IsPostgreSql(intent) ==> intent.serviceName.Some?
    ensures Contains(r, DependsOnDb)
    ensures IsMySql(intent) ==> Contains(r, ImageLine("mysql:8.0"))
    ensures IsMySql(intent) ==> Contains(r, "MYSQL_DATABASE=" + DatabaseName(intent.serviceName.value))
    ensures !IsMySql(intent) && IsPostgreSql(intent) ==> Contains(r, ImageLine("postgres:15-alpine"))
    ensures !IsMySql(intent) && IsPostgreSql(intent) ==> Contains(r, "POSTGRES_DB=" + DatabaseName(intent.serviceName.value))
    ensures !IsMySql(intent) && !IsPostgreSql(intent) ==> !Contains(r, "image: ")
  {
    var port := IntegerText(intent.port);
    var image := if IsMySql(intent) then "mysql:8.0" else "postgres:15-alpine";
    var env :=
      if IsMySql(intent) then "MYSQL_DATABASE=" + DatabaseName(intent.serviceName.value)
      else if IsPostgreSql(intent) then "POSTGRES_DB=" + DatabaseName(intent.serviceName.value)
      else "";
    var dbService :=
      if IsMySql(intent) then DbService(image, "MYSQL_ROOT_PASSWORD=root", env)
      else if IsPostgreSql(intent) then DbService(image, "POSTGRES_PASSWORD=postgres", env)
      else "";
    ComposeShape(port, dbService, image, env);
    ComposeHead(port) + dbService + "\n"
  }

  /** `generateCiWorkflow`: build with Maven on every push. */
  function CiWorkflow(): string {
    "name: Java CI with Maven\n"
    + "on: [push]\n"
    + "jobs:\n"
    + "  build:\n"
    + "    runs-on: ubuntu-latest\n"
    + "    steps:\n"
    + "    - uses: actions/checkout@v3\n"
    + "    - name: Set up JDK 21\n"
    + "      uses: actions/setup-java@v3\n"
    + "      with:\n"
    + "        java-version: '21'\n"
    + "        distribution: 'temurin'\n"
    + "        cache: 'maven'\n"
    + "    - name: Build with Maven\n"
    + "      run: mvn -B package --file pom.xml\n"
  }
}
