/**
 * The JSON parse tree handed to the AST nodes by the parser: every node has a
 * `type` string, may have a `children` array and a `condition` object, and may
 * carry the `error` and `syntax_errors` keys that mark a failed parse.
 */
module Json {
  import opened Wrappers

  datatype JsonNode = JsonNode(
    typ: string,
    children: Option<seq<JsonNode>>,   // None: the key is missing or null
    condition: Option<JsonNode>,       // None: the key is missing or null
    hasError: bool,                    // the object has an `error` key
    hasSyntaxErrors: bool)             // the object has a `syntax_errors` key

  /** The JSON children to iterate over; a missing array iterates over nothing. */
  function ChildList(j: JsonNode): seq<JsonNode> {
    j.children.GetOr([])
  }
}
