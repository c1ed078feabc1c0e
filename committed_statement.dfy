/**
 * `CommittedStatement`: the block run when a transaction commits. It holds
 * statements built from the parse tree and accepts declarations and
 * statements as children.
 */
module CommittedStatements {
  import opened Json
  import opened Ast

  const NodeType := "CommittedStatement"

  /** Whitespace regions 0 to 3 of a fresh committed block. */
  const DefaultRegions: map<int, string> := map[0 := "", 1 := " ", 2 := "\n", 3 := " "]

  /** Whether `initFromJson` ran to the end or stopped on a TypeError. */
  datatype InitOutcome = Completed | Threw

  class CommittedStatement {
    const nodeType: string
    var children: seq<AstNode>
    var regions: map<int, string>

    constructor()
      ensures nodeType == NodeType && children == [] && regions == DefaultRegions
    {
      nodeType := NodeType;
      children := [];
      regions := DefaultRegions;
    }

    /**
     * `initFromJson`: append one child per JSON child, in order, after the
     * children already present: a connector declaration for a variable
     * definition with a connector initialiser as its second child, otherwise
     * the node the factory builds, each initialised from its own JSON node.
     * A variable definition without a `children` array makes the source
     * throw: the children before it stay appended.
     */
    method InitFromJson(json: JsonNode, factory: Factory) returns (outcome: InitOutcome)
      modifies this`children
      ensures var js := ChildList(json);
        && children == old(children) + BuiltStatementChildren(factory, js[..FirstThrow(js)])
        && (outcome == Completed <==> FirstThrow(js) == |js|)
      ensures ChildList(json) == [] ==> children == old(children) && outcome == Completed
    {
      var js := ChildList(json);
      var k := 0;
      while k < |js|
        invariant 0 <= k <= |js|
        invariant forall i :: 0 <= i < k ==> !ClassificationThrows(js[i])
        invariant children == old(children) + BuiltStatementChildren(factory, js[..k])
      {
        var childNode := js[k];
        if ClassificationThrows(childNode) {
          return Threw;
        }
        var child := BuildStatementChild(factory, childNode);
        assert js[..k + 1][..k] == js[..k];
        children := children + [child];
        k := k + 1;
      }
      assert js[..|js|] == js;
      outcome := Completed;
    }

    /** `canBeParentOf`: declarations of connectors, variables and workers, and statements. */
    predicate CanBeParentOf(n: AstNode): (r: bool)
      ensures r <==> n.kind.category in {ConnectorDeclarationNode, VariableDeclarationNode,
                                         WorkerDeclarationNode, StatementNode}
    {
      Ast.CanBeParentOf(n)
    }
  }
}
