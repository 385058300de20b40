/** The part of Jackson's tree model the services read. `ObjectMapper.readTree`
    itself is not modelled: its outcome is a `ReadTree` value. */
module Json {
  import opened Wrappers
  import opened Text

  /** A `JsonNode`. Numbers are integers; `Missing` is Jackson's `MissingNode`,
      the node `path` returns for an absent key. */
  datatype JsonNode =
    | JNull
    | JBool(b: bool)
    | JNumber(n: int)
    | JText(s: string)
    | JArray(elems: seq<JsonNode>)
    | JObject(fields: map<string, JsonNode>)
    | Missing

  /** What `readTree` did with a text: produced a tree, or threw. */
  datatype ReadTree = Parsed(root: JsonNode) | Unparsable

  /** `node.path(key)`: the field of an object, `MissingNode` otherwise. */
  function Path(n: JsonNode, key: string): JsonNode {
    if n.JObject? && key in n.fields then n.fields[key] else Missing
  }

  /** `node.get(key)`: the field of an object, `null` otherwise. */
  function Get(n: JsonNode, key: string): Option<JsonNode> {
    if n.JObject? && key in n.fields then Some(n.fields[key]) else None
  }

  /** `node.has(key)`: an object with that key, whatever its value. */
  predicate Has(n: JsonNode, key: string) {
    n.JObject? && key in n.fields
  }

  /** `node.hasNonNull(key)`: an object with that key bound to a non-null value. */
  predicate HasNonNull(n: JsonNode, key: string) {
    Has(n, key) && !n.fields[key].JNull?
  }

  /** `node.asText()`: strings as they are, scalars rendered, "null" for a JSON
      null and "" for containers and `MissingNode`. */
  function AsText(n: JsonNode): string {
    match n
    case JText(s) => s
    case JNumber(v) => IntToString(v)
    case JBool(b) => if b then "true" else "false"
    case JNull => "null"
    case _ => ""
  }

  /** `node.asText(default)`: `NullNode` and `MissingNode` give the default
      (possibly `null`); every other node gives `asText()`. */
  function AsTextOr(n: JsonNode, default: Option<string>): Option<string> {
    if n.JNull? || n.Missing? then default else Some(AsText(n))
  }

  /** `node.asDouble()`: numbers as they are, booleans as 1 or 0, a text of
      decimal digits as its value; anything else 0. */
  function AsDouble(n: JsonNode): int {
    match n
    case JNumber(v) => v
    case JBool(b) => if b then 1 else 0
    case JText(s) =>
      if s != [] && forall k :: 0 <= k < |s| ==> '0' <= s[k] <= '9' then DigitsValue(s) else 0
    case _ => 0
  }
}
