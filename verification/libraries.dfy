/**
 * The library calls the core makes but whose code is not part of this model,
 * passed in as functions: the regular-expression clean-up of an LLM reply and
 * Jackson's two readers. `readTree` returns None where it throws;
 * `readValue` can also return null (for the JSON text `null`).
 */
module ExternalLibraries {
  import opened Wrappers
  import opened Json
  import opened IntentModels

  /** What `readValue` does: throw, return null, or return a value. */
  datatype ReadResult<T> = Threw | ReadNull | Value(value: T)

  datatype Libraries = Libraries(
    /** The six `replaceAll` clean-ups in `cleanLlmOutput`, applied in order. */
    scrub: string -> string,
    /** `ObjectMapper.readTree`. */
    readTree: string -> Option<Json>,
    /** `ObjectMapper.readValue(json, IntentModel.class)`. */
    readIntent: string -> ReadResult<IntentModel>)
}
