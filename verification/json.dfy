/**
 * The slice of Jackson's JsonNode tree that the engine reads when it mines
 * dependencies: `path(name)`, `asText()` and `has(name)`.
 */
module Json {
  import opened Wrappers

  /**
   * A parsed JSON value (a Jackson JsonNode). A number node keeps the text
   * Jackson's `asText()` renders for it, which is the canonical form of the
   * number (`1.00` reads as a double and renders as "1.0"), not the literal.
   */
  datatype Json =
    | JNull
    | JBool(b: bool)
    | JNumber(asText: string)
    | JString(text: string)
    | JArray(items: seq<Json>)
    | JObject(members: map<string, Json>)

  /** `node.path(name)`: the member's value, or None for Jackson's MissingNode. */
  function Path(node: Json, name: string): Option<Json> {
    if node.JObject? && name in node.members then Some(node.members[name]) else None
  }

  /** `node.asText()`: scalars as text, "null" for a JSON null, "" for containers. */
  function AsText(node: Json): string {
    match node
    case JNull => "null"
    case JBool(b) => if b then "true" else "false"
    case JNumber(t) => t
    case JString(t) => t
    case JArray(_) => ""
    case JObject(_) => ""
  }

  /** `node.path(name).asText()`; a MissingNode's text is "". */
  function PathText(node: Json, name: string): string {
    match Path(node, name)
    case None => ""
    case Some(v) => AsText(v)
  }

  /** `node.has(name)`: only an object can have a member, even one whose value is null. */
  predicate Has(node: Json, name: string) {
    node.JObject? && name in node.members
  }
}
