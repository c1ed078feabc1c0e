/**
 * `IndexBasedVariableReferenceExpression`: an expression such as `a["b"]`,
 * whose first child is the variable reference and whose second child is the
 * index. Its children are rebuilt from a parse tree, and its text can be
 * replaced by re-parsing an edited fragment.
 */
module IndexBasedVariableReference {
  import opened Wrappers
  import opened Json
  import opened Ast

  const NodeType := "IndexBasedVariableReferenceExpression"

  /** The parse-tree type a replacement fragment must have. */
  const ParsedType := "index_based_variable_reference_expression"

  /** Whitespace regions 0 to 3 of a fresh node, all empty. */
  const DefaultRegions: map<int, string> := map[0 := "", 1 := "", 2 := "", 3 := ""]

  /** The object passed to the edit callback: `{isValid}` or `{isValid, response}`. */
  datatype CallbackArgs = CallbackArgs(isValid: bool, response: Option<JsonNode>)

  /**
   * Whether a parse result replaces the children: it must lack the `error`
   * key or lack the `syntax_errors` key, and be an index-based reference.
   */
  predicate AcceptsParseResult(j: JsonNode): (r: bool)
    ensures r ==> j.typ == ParsedType
    ensures !j.hasError ==> (r <==> j.typ == ParsedType)
    ensures !j.hasSyntaxErrors ==> (r <==> j.typ == ParsedType)
    ensures j.hasError && j.hasSyntaxErrors ==> !r
  {
    (!j.hasError || !j.hasSyntaxErrors) && j.typ == ParsedType
  }

  /** `getVarRefExpr`: child 0, when there is one. */
  function VarRefExpr(children: seq<AstNode>): (r: Option<AstNode>)
    ensures r.Some? <==> |children| > 0
    ensures r.Some? ==> r.value == children[0]
  {
    if |children| > 0 then Some(children[0]) else None
  }

  /** `getIndexExpr`: child 1, when there is one. */
  function IndexExpr(children: seq<AstNode>): (r: Option<AstNode>)
    ensures r.Some? <==> |children| > 1
    ensures r.Some? ==> r.value == children[1]
  {
    if |children| > 1 then Some(children[1]) else None
  }

  /**
   * `getExpressionString`: the variable reference, `[`, region 2, the index,
   * `]` and region 3. With fewer than two children the source dereferences
   * `undefined` and throws; that is `None` here.
   */
  function ExpressionString(children: seq<AstNode>, regions: map<int, string>, render: Render): (r: Option<string>)
    ensures r.Some? <==> |children| >= 2
    ensures r.Some? ==>
      var v, i := render(children[0]), render(children[1]);
      |r.value| == |v| + |i| + 2 + |WSRegion(regions, 2)| + |WSRegion(regions, 3)| &&
      r.value[..|v|] == v && r.value[|v|] == '[' &&
      r.value[|v| + 1..|v| + 1 + |WSRegion(regions, 2)|] == WSRegion(regions, 2) &&
      r.value[|v| + 1 + |WSRegion(regions, 2)|..][..|i|] == i &&
      r.value[|v| + 1 + |WSRegion(regions, 2)| + |i|] == ']' &&
      r.value[|r.value| - |WSRegion(regions, 3)|..] == WSRegion(regions, 3)
  {
    match (VarRefExpr(children), IndexExpr(children))
    case (Some(v), Some(i)) =>
      var s := render(v) + "[" + WSRegion(regions, 2) + render(i) + "]" + WSRegion(regions, 3);
      assert s == render(v) + ("[" + WSRegion(regions, 2) + render(i) + "]" + WSRegion(regions, 3));
      Some(s)
    case _ => None
  }

  /** With the default regions the expression reads `varRef[index]`. */
  lemma DefaultExpressionString(children: seq<AstNode>, render: Render)
    requires |children| >= 2
    ensures ExpressionString(children, DefaultRegions, render) == Some(render(children[0]) + "[" + render(children[1]) + "]")
  {
    assert WSRegion(DefaultRegions, 2) == "" && WSRegion(DefaultRegions, 3) == "";
    var v, i := render(children[0]), render(children[1]);
    assert v + "[" + "" + i + "]" + "" == v + "[" + i + "]";
  }

  /**
   * After rebuilding from a parse tree with at least two children, the
   * variable reference is built from JSON child 0 and the index from JSON
   * child 1.
   */
  lemma RebuiltParts(factory: Factory, json: JsonNode)
    requires |ChildList(json)| >= 2
    ensures VarRefExpr(BuiltFromJson(factory, ChildList(json))) == Some(CreateFromJson(factory, ChildList(json)[0]))
    ensures IndexExpr(BuiltFromJson(factory, ChildList(json))) == Some(CreateFromJson(factory, ChildList(json)[1]))
  {
  }

  class IndexBasedVariableReferenceExpression {
    const nodeType: string
    var children: seq<AstNode>
    var regions: map<int, string>

    constructor()
      ensures nodeType == NodeType && children == [] && regions == DefaultRegions
      ensures forall i :: 0 <= i <= 3 ==> WSRegion(regions, i) == ""
    {
      nodeType := NodeType;
      children := [];
      regions := DefaultRegions;
    }

    /**
     * `initFromJson`: discard every child, then append one factory-built
     * child per JSON child, in order. The result does not depend on the
     * children before the call, so repeating it with the same JSON changes
     * nothing more.
     */
    method InitFromJson(json: JsonNode, factory: Factory)
      modifies this`children
      ensures children == BuiltFromJson(factory, ChildList(json))
    {
      children := [];
      if json.children.Some? && json.children.value != [] {
        var js := json.children.value;
        var k := 0;
        while k < |js|
          invariant 0 <= k <= |js|
          invariant children == BuiltFromJson(factory, js[..k])
        {
          assert js[..k + 1][..k] == js[..k];
          children := children + [CreateFromJson(factory, js[k])];
          k := k + 1;
        }
        assert js[..|js|] == js;
      }
    }

    function GetVarRefExpr(): (r: Option<AstNode>)
      reads this
      ensures r.Some? <==> |children| > 0
      ensures r.Some? ==> r.value == children[0]
    {
      VarRefExpr(children)
    }

    function GetIndexExpr(): (r: Option<AstNode>)
      reads this
      ensures r.Some? <==> |children| > 1
      ensures r.Some? ==> r.value == children[1]
    {
      IndexExpr(children)
    }

    function GetExpressionString(render: Render): (r: Option<string>)
      reads this
      ensures r.Some? <==> |children| >= 2
      ensures r == ExpressionString(children, regions, render)
    {
      match (GetVarRefExpr(), GetIndexExpr())
      case (Some(_), Some(_)) => ExpressionString(children, regions, render)
      case _ => None
    }

    /**
     * `setExpressionFromString`: a missing string does nothing. Otherwise the
     * fragment is parsed (`parse` stands for building the expression fragment
     * and running the fragment parser); an accepted result rebuilds the
     * children from it, a rejected one leaves them alone. The callback, when
     * there is one, receives what is returned here.
     */
    method SetExpressionFromString(exprString: Option<string>, hasCallback: bool,
                                   parse: string -> JsonNode, factory: Factory)
      returns (callback: Option<CallbackArgs>)
      modifies this`children
      ensures exprString.None? ==> children == old(children) && callback == None
      ensures exprString.Some? && AcceptsParseResult(parse(exprString.value)) ==>
        && children == BuiltFromJson(factory, ChildList(parse(exprString.value)))
        && callback == (if hasCallback then Some(CallbackArgs(true, None)) else None)
      ensures exprString.Some? && !AcceptsParseResult(parse(exprString.value)) ==>
        && children == old(children)
        && callback == (if hasCallback then Some(CallbackArgs(false, Some(parse(exprString.value)))) else None)
    {
      callback := None;
      if exprString.Some? {
        var parsedJson := parse(exprString.value);
        if AcceptsParseResult(parsedJson) {
          InitFromJson(parsedJson, factory);
          if hasCallback {
            callback := Some(CallbackArgs(true, None));
          }
        } else if hasCallback {
          callback := Some(CallbackArgs(false, Some(parsedJson)));
        }
      }
    }
  }
}
