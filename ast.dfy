/**
 * What the statement and expression nodes share: the value that stands for a
 * child node, the unseen factory, the rule that tells a connector declaration
 * apart from other statements, the parent check of statement blocks, and
 * whitespace-region lookup.
 */
module Ast {
  import opened Wrappers
  import opened Json

  /** The classes the factory's `is*` checks tell apart. */
  datatype Category =
    | ConnectorDeclarationNode
    | VariableDeclarationNode
    | WorkerDeclarationNode
    | StatementNode
    | ExpressionNode
    | OtherNode

  /** The class of a node: its `type` tag and the category it belongs to. */
  datatype Kind = Kind(name: string, category: Category)

  /** What a child node was initialised from. */
  datatype Origin =
    | FromJson(json: JsonNode)                                  // `child.initFromJson(json)`
    | BasicLiteral(literalType: string, literalValue: string)   // `createBasicLiteralExpression(options)`

  /**
   * A child node as its parent sees it: built with some kind, initialised
   * from some origin, and linked to a parent (`null` when no link was set).
   */
  datatype AstNode = AstNode(kind: Kind, origin: Origin, parent: object?)

  /** `ASTFactory.createFromJson`: the kind of node the factory builds for a JSON node. */
  type Factory = JsonNode -> Kind

  /** A child's own `getExpressionString`, defined by classes outside this model. */
  type Render = AstNode -> string

  /** The node `ASTFactory.createConnectorDeclaration()` builds. */
  const ConnectorDeclarationKind := Kind("ConnectorDeclaration", ConnectorDeclarationNode)

  /** A node built by the factory from `j` and then initialised from `j`. */
  function CreateFromJson(factory: Factory, j: JsonNode): AstNode {
    AstNode(factory(j), FromJson(j), null)
  }

  /**
   * The connector-declaration test of the statement blocks: a variable
   * definition whose second child exists and is a connector initialiser.
   */
  predicate IsConnectorDeclarationJson(j: JsonNode): (r: bool)
    ensures r ==> j.typ == "variable_definition_statement"
    ensures r ==> |ChildList(j)| > 1 && ChildList(j)[1].typ == "connector_init_expr"
    ensures (j.typ == "variable_definition_statement" && |ChildList(j)| > 1
             && ChildList(j)[1].typ == "connector_init_expr") ==> r
  {
    && j.typ == "variable_definition_statement"
    && j.children.Some?
    && |j.children.value| > 1
    && j.children.value[1].typ == "connector_init_expr"
  }

  /**
   * The same test throws a TypeError when a variable definition has no
   * `children` array: `childNode.children[1]` is read from `undefined`.
   */
  predicate ClassificationThrows(j: JsonNode): (r: bool)
    ensures r ==> j.typ == "variable_definition_statement" && ChildList(j) == []
    ensures r ==> !IsConnectorDeclarationJson(j)
    ensures (j.typ != "variable_definition_statement" || j.children.Some?) ==> !r
  {
    j.typ == "variable_definition_statement" && j.children.None?
  }

  /** The child a statement block appends for the JSON child `j`. */
  function BuildStatementChild(factory: Factory, j: JsonNode): (n: AstNode)
    ensures n.origin == FromJson(j) && n.parent == null
    ensures IsConnectorDeclarationJson(j) ==> n.kind == ConnectorDeclarationKind
    ensures !IsConnectorDeclarationJson(j) ==> n.kind == factory(j)
  {
    if IsConnectorDeclarationJson(j) then AstNode(ConnectorDeclarationKind, FromJson(j), null)
    else CreateFromJson(factory, j)
  }

  /** One factory-built child per JSON node, in order. */
  function BuiltFromJson(factory: Factory, js: seq<JsonNode>): (r: seq<AstNode>)
    ensures |r| == |js|
    ensures forall i :: 0 <= i < |js| ==> r[i] == CreateFromJson(factory, js[i])
  {
    if js == [] then [] else BuiltFromJson(factory, js[..|js| - 1]) + [CreateFromJson(factory, js[|js| - 1])]
  }

  /** One classified child per JSON node, in order. */
  function BuiltStatementChildren(factory: Factory, js: seq<JsonNode>): (r: seq<AstNode>)
    ensures |r| == |js|
    ensures forall i :: 0 <= i < |js| ==> r[i] == BuildStatementChild(factory, js[i])
  {
    if js == [] then [] else BuiltStatementChildren(factory, js[..|js| - 1]) + [BuildStatementChild(factory, js[|js| - 1])]
  }

  /** The index of the first JSON child whose classification throws, or `|js|`. */
  function FirstThrow(js: seq<JsonNode>): (r: nat)
    ensures r <= |js|
    ensures forall i :: 0 <= i < r ==> !ClassificationThrows(js[i])
    ensures r < |js| ==> ClassificationThrows(js[r])
  {
    if js == [] then 0
    else if ClassificationThrows(js[0]) then 0
    else 1 + FirstThrow(js[1..])
  }

  /**
   * `canBeParentOf` of the statement blocks: a connector, variable or worker
   * declaration, or a statement.
   */
  predicate CanBeParentOf(n: AstNode): (r: bool)
    ensures r <==> n.kind.category == ConnectorDeclarationNode || n.kind.category == VariableDeclarationNode
                   || n.kind.category == WorkerDeclarationNode || n.kind.category == StatementNode
    ensures n.kind == ConnectorDeclarationKind ==> r
  {
    n.kind.category in {ConnectorDeclarationNode, VariableDeclarationNode, WorkerDeclarationNode, StatementNode}
  }

  /**
   * Every child a statement block builds from JSON passes its own parent
   * check exactly when it was classified as a connector declaration or the
   * factory built a declaration or a statement for it.
   */
  lemma BuiltStatementChildAccepted(factory: Factory, j: JsonNode)
    ensures CanBeParentOf(BuildStatementChild(factory, j)) <==>
      (IsConnectorDeclarationJson(j) || CanBeParentOf(CreateFromJson(factory, j)))
  {
  }

  /** `getWSRegion(i)`: the stored whitespace of region `i`, or `''` when none is stored. */
  function WSRegion(regions: map<int, string>, i: int): string {
    if i in regions then regions[i] else ""
  }
}
