/**
 * EntityModel and its nested FieldModel: plain records. Every field is a Java
 * reference, so each may be null (None); the all-args constructors are the
 * datatype constructors, the no-args constructors are the constants below.
 */
module EntityModels {
  import opened Wrappers

  /** One member of an entity: its name and its Java type name. */
  datatype FieldModel = FieldModel(name: Option<string>, fieldType: Option<string>)

  /** An entity: a class name and its fields, in declaration order. */
  datatype EntityModel = EntityModel(name: Option<string>, fields: Option<seq<FieldModel>>)

  /** `new FieldModel()`: both fields null. */
  const NoArgsField: FieldModel := FieldModel(None, None)

  /** `new EntityModel()`: both fields null. */
  const NoArgsEntity: EntityModel := EntityModel(None, None)
}
