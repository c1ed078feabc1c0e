/**
 * `IfStatement`: a statement block with a condition expression. Besides the
 * children and the condition it computes where, in the file's text, the
 * condition starts and stops, for the design view's content suggestions.
 */
module IfStatements {
  import opened Wrappers
  import opened Json
  import opened Ast

  const NodeType := "IfStatement"

  /** Whitespace regions 0 to 5 of a fresh if statement. */
  const DefaultRegions: map<int, string> := map[0 := "", 1 := " ", 2 := "", 3 := " ", 4 := "\n", 5 := " "]

  /**
   * The boolean literal `true` the factory builds when no condition is given.
   * The source passes the boolean `true` as the literal's value; the model
   * records it as the text `"true"`.
   */
  const DefaultCondition := AstNode(Kind("BasicLiteralExpression", ExpressionNode), BasicLiteral("boolean", "true"), null)

  /** The part of `getPosition()` the offsets use. */
  datatype Position = Position(startLine: int, startOffset: int)

  /** `{startC, stopC}`: the character range of the condition. */
  datatype ReplaceRegion = ReplaceRegion(startC: int, stopC: int)

  /** Whether `initFromJson` ran to the end or stopped on a TypeError. */
  datatype InitOutcome = Completed | Threw

  /** `Array.prototype.join(sep)` over strings. */
  function Join(parts: seq<string>, sep: string): string {
    if |parts| == 0 then ""
    else if |parts| == 1 then parts[0]
    else parts[0] + sep + Join(parts[1..], sep)
  }

  /** `Array.prototype.slice(0, end)`: a negative end counts from the back, a large one is clipped. */
  function SlicePrefix<T>(parts: seq<T>, end: int): (r: seq<T>)
    ensures 0 <= end <= |parts| ==> r == parts[..end]
    ensures end > |parts| ==> r == parts
    ensures end < 0 ==> r == parts[..if |parts| + end < 0 then 0 else |parts| + end]
  {
    var e := if end < 0 then (if |parts| + end < 0 then 0 else |parts| + end)
             else if end > |parts| then |parts| else end;
    parts[..e]
  }

  /** The text `if`, region 1, `(`, region 2 that precedes the condition. */
  function StatementStartSegment(regions: map<int, string>): string {
    "if" + WSRegion(regions, 1) + "(" + WSRegion(regions, 2)
  }

  /**
   * `getContentStartCursorPosition`: the column where the condition starts,
   * three characters for `if(` plus regions 1 and 2 past the start offset.
   */
  function ContentStartCursorPosition(position: Position, regions: map<int, string>): (r: int)
    ensures r == position.startOffset + 3 + |WSRegion(regions, 1)| + |WSRegion(regions, 2)|
    ensures regions == DefaultRegions ==> r == position.startOffset + 4
  {
    position.startOffset + |StatementStartSegment(regions)|
  }

  /**
   * `getContentReplaceRegion`: the lines before the statement's line are
   * joined with commas (one character standing for each line break), one is
   * added, then the cursor position; the region spans the condition's text.
   */
  function ContentReplaceRegion(segments: seq<string>, position: Position, regions: map<int, string>,
                                conditionText: string): (r: ReplaceRegion)
    ensures r.stopC - r.startC == |conditionText|
    ensures r.startC == |Join(SlicePrefix(segments, position.startLine - 1), ",")| + 1
                        + ContentStartCursorPosition(position, regions)
  {
    var joinedSegments := Join(SlicePrefix(segments, position.startLine - 1), ",");
    var start := |joinedSegments| + 1 + position.startOffset + |StatementStartSegment(regions)|;
    ReplaceRegion(start, start + |conditionText|)
  }

  /** Joining with separators of equal length gives strings of equal length. */
  lemma {:induction false} JoinSameLength(parts: seq<string>, sep1: string, sep2: string)
    requires |sep1| == |sep2|
    ensures |Join(parts, sep1)| == |Join(parts, sep2)|
  {
    if |parts| > 1 {
      JoinSameLength(parts[1..], sep1, sep2);
    }
  }

  /** A join splits at any inner position around one separator. */
  lemma {:induction false} JoinSplit(parts: seq<string>, sep: string, k: nat)
    requires 0 < k < |parts|
    ensures Join(parts, sep) == Join(parts[..k], sep) + sep + Join(parts[k..], sep)
  {
    if k == 1 {
      assert parts[..1] == [parts[0]];
    } else {
      JoinSplit(parts[1..], sep, k - 1);
      assert parts[1..][..k - 1] == parts[..k][1..];
      assert parts[1..][k - 1..] == parts[k..];
    }
  }

  /**
   * For a statement on line 2 or later, `startC` is the offset, in the file
   * text with `\n` line breaks, of the statement's line plus the cursor
   * position: the comma join counts each line break as one character.
   */
  lemma ReplaceStartIsLineOffset(segments: seq<string>, position: Position, regions: map<int, string>,
                                 conditionText: string)
    requires 2 <= position.startLine <= |segments|
    ensures var before := Join(segments[..position.startLine - 1], "\n") + "\n";
      && before <= Join(segments, "\n")
      && ContentReplaceRegion(segments, position, regions, conditionText).startC
         == |before| + ContentStartCursorPosition(position, regions)
  {
    var k := position.startLine - 1;
    JoinSplit(segments, "\n", k);
    JoinSameLength(segments[..k], ",", "\n");
  }

  /**
   * For a statement on line 1 there is no line break before it, yet the
   * formula still adds one: `startC` is one past the cursor position.
   */
  lemma FirstLineStartIsOneBeyond(segments: seq<string>, position: Position, regions: map<int, string>,
                                  conditionText: string)
    requires position.startLine == 1
    ensures ContentReplaceRegion(segments, position, regions, conditionText).startC
            == ContentStartCursorPosition(position, regions) + 1
  {
  }

  class IfStatement {
    const nodeType: string
    var children: seq<AstNode>
    var regions: map<int, string>
    var condition: Option<AstNode>

    /** Built with the given condition, or with the literal `true` when none is given. */
    constructor(conditionArg: Option<AstNode>)
      ensures nodeType == NodeType && children == [] && regions == DefaultRegions
      ensures conditionArg.Some? ==> condition == conditionArg
      ensures conditionArg.None? ==> condition == Some(DefaultCondition)
    {
      nodeType := NodeType;
      children := [];
      if conditionArg.Some? {
        condition := conditionArg;
      } else {
        condition := Some(DefaultCondition);
      }
      regions := DefaultRegions;
    }

    /** `setCondition`: a missing condition leaves the current one. */
    method SetCondition(c: Option<AstNode>)
      modifies this`condition
      ensures c.Some? ==> condition == c
      ensures c.None? ==> condition == old(condition)
    {
      if c.Some? {
        condition := c;
      }
    }

    /** `getConditionString`; without a condition the source throws. */
    function GetConditionString(render: Render): (r: Option<string>)
      reads this
      ensures r.Some? <==> condition.Some?
      ensures r.Some? ==> r.value == render(condition.value)
    {
      if condition.Some? then Some(render(condition.value)) else None
    }

    /**
     * `setConditionFromString`: a missing string does nothing; otherwise the
     * condition becomes the node the factory builds from the parsed fragment,
     * initialised from it, with this statement as its parent.
     */
    method SetConditionFromString(conditionString: Option<string>, parse: string -> JsonNode, factory: Factory)
      modifies this`condition
      ensures conditionString.None? ==> condition == old(condition)
      ensures conditionString.Some? ==>
        var j := parse(conditionString.value);
        condition == Some(AstNode(factory(j), FromJson(j), this))
    {
      if conditionString.Some? {
        var parsedJson := parse(conditionString.value);
        var c := CreateFromJson(factory, parsedJson);
        SetCondition(Some(c));
        condition := Some(c.(parent := this));  // `condition.setParent(this)`
      }
    }

    /**
     * `initFromJson`: take the JSON condition when there is one, then append
     * one classified child per JSON child, in order, after the children
     * already present. A variable definition without a `children` array makes
     * the source throw: the children before it stay appended.
     */
    method InitFromJson(json: JsonNode, factory: Factory) returns (outcome: InitOutcome)
      modifies this`condition, this`children
      ensures json.condition.Some? ==>
        condition == Some(AstNode(factory(json.condition.value), FromJson(json.condition.value), this))
      ensures json.condition.None? ==> condition == old(condition)
      ensures var js := ChildList(json);
        && children == old(children) + BuiltStatementChildren(factory, js[..FirstThrow(js)])
        && (outcome == Completed <==> FirstThrow(js) == |js|)
    {
      if json.condition.Some? {
        var c := CreateFromJson(factory, json.condition.value);
        SetCondition(Some(c));
        condition := Some(c.(parent := this));  // `condition.setParent(this)`
      }
      var js := ChildList(json);
      var k := 0;
      while k < |js|
        invariant 0 <= k <= |js|
        invariant forall i :: 0 <= i < k ==> !ClassificationThrows(js[i])
        invariant children == old(children) + BuiltStatementChildren(factory, js[..k])
        invariant json.condition.None? ==> condition == old(condition)
        invariant json.condition.Some? ==>
          condition == Some(AstNode(factory(json.condition.value), FromJson(json.condition.value), this))
      {
        if ClassificationThrows(js[k]) {
          return Threw;
        }
        assert js[..k + 1][..k] == js[..k];
        children := children + [BuildStatementChild(factory, js[k])];
        k := k + 1;
      }
      assert js[..|js|] == js;
      outcome := Completed;
    }

    /** `getContentReplaceRegion`; with no condition the region is empty. */
    function GetContentReplaceRegion(segments: seq<string>, position: Position, render: Render): (r: ReplaceRegion)
      reads this
      ensures r == ContentReplaceRegion(segments, position, regions,
                                        if condition.Some? then render(condition.value) else "")
      ensures r.stopC >= r.startC
      ensures condition.None? ==> r.stopC == r.startC
    {
      var conditionSegment := if condition.Some? then GetConditionString(render).value else "";
      ContentReplaceRegion(segments, position, regions, conditionSegment)
    }

    function GetContentStartCursorPosition(position: Position): (r: int)
      reads this
      ensures r == ContentStartCursorPosition(position, regions)
    {
      ContentStartCursorPosition(position, regions)
    }

    /** `canBeParentOf`: the same check as every statement block's. */
    predicate CanBeParentOf(n: AstNode): (r: bool)
      ensures r <==> n.kind.category in {ConnectorDeclarationNode, VariableDeclarationNode,
                                         WorkerDeclarationNode, StatementNode}
    {
      Ast.CanBeParentOf(n)
    }
  }
}
