/**
 * IntentModel: the structured description of the service to generate. Every
 * field is a Java reference and may be null (None); auth, database and
 * persistence are free strings that consumers compare case-insensitively.
 */
module IntentModels {
  import opened Wrappers
  import opened EntityModels

  /** The values of a java.lang.Integer. */
  type Int32 = x: int | -0x8000_0000 <= x < 0x8000_0000

  datatype IntentModel = IntentModel(
    serviceName: Option<string>,
    packageName: Option<string>,
    language: Option<string>,
    framework: Option<string>,
    architecture: Option<string>,
    serviceType: Option<string>,
    auth: Option<string>,
    database: Option<string>,
    persistence: Option<string>,
    port: Option<Int32>,
    entities: Option<seq<EntityModel>>)

  /**
   * `new IntentModel()`: every field but `entities` gets a default; the
   * entity list is left null.
   */
  function DefaultIntent(): (intent: IntentModel)
    ensures intent.entities == None
    ensures intent.port == Some(8082)
  {
    IntentModel(
      serviceName := Some("generated-service"),
      packageName := Some("com.microgen.generated"),
      language := Some("JAVA"),
      framework := Some("SPRING_BOOT"),
      architecture := Some("LAYERED"),
      serviceType := Some("GENERAL"),
      auth := Some("NONE"),
      database := Some("H2"),
      persistence := Some("JPA"),
      port := Some(8082),
      entities := None)
  }
}
