# Composer AST nodes and layout panel rules in Dafny

This project models two parts of the Ballerina Composer web IDE.

**AST nodes.** Three node classes of the in-memory syntax tree behind the text
and design editors:
- `IndexBasedVariableReferenceExpression`, an expression such as `a["b"]`;
- `IfStatement`;
- `CommittedStatement`.

Each node holds an ordered list of children and a map from whitespace-region
index to literal whitespace. Each rebuilds its children from a JSON parse
tree, and the expression renders itself back to text. The expression also
accepts or rejects a re-parsed text fragment. The if statement also computes
the character range of its condition for the design view's content
suggestions. The three classes are Dafny classes whose fields the methods
update. A child is a value: the kind of node the factory built, the JSON (or
literal options) it was initialised from, and its parent link.

**Layout panel rules.** The application shell (`App`) shows or hides the
left and bottom panels and sizes them. Default sizes are 300 and the maximum
is 700. Each change is written to a preference history, a key/value store. A
missing or zero stored size falls back to the default. The shell also derives
the editor's height and width and the split panes' bounds. The rules are pure functions over a `Layout` (the panel
state plus the history). A `Step` function says what each event does, and
lemmas cover whole runs of events. The class `App` performs the same updates
step by step on a shared `HistoryStore`, and each method's postcondition ties
it to these functions. `LeftPanel` toggles its active view when a tab is
selected again and builds one tab and one pane per view.

Modules: `Wrappers` (Option), `Json` (parse tree), `Ast` (shared child value,
classification, parent check), `IndexBasedVariableReference`, `IfStatements`,
`CommittedStatements`, `History`, `AppLayout`, `LeftPanels`.

## Model

| member | source | states |
|---|---|---|
| `IndexBasedVariableReference.IndexBasedVariableReferenceExpression.constructor` | modules/web/js/ballerina/ast/expressions/index-based-variable-reference-expression.js:31-39 | a fresh node has no children and whitespace regions 0 to 3 all `''` |
| `IndexBasedVariableReference.IndexBasedVariableReferenceExpression.InitFromJson` | modules/web/js/ballerina/ast/expressions/index-based-variable-reference-expression.js:49-58 | old children are discarded; afterwards there is exactly one factory-built child per JSON child, in JSON order, and none when the JSON children are missing or empty; the result does not depend on the old children, so a second call with the same JSON changes nothing |
| `Ast.BuiltFromJson` | modules/web/js/ballerina/ast/expressions/index-based-variable-reference-expression.js:51-57 | one child per JSON node, in order, child `i` built and initialised from JSON node `i` |
| `IndexBasedVariableReference.VarRefExpr` | modules/web/js/ballerina/ast/expressions/index-based-variable-reference-expression.js:64-66 | the variable reference is child 0, absent when there are no children |
| `IndexBasedVariableReference.IndexExpr` | modules/web/js/ballerina/ast/expressions/index-based-variable-reference-expression.js:72-74 | the index is child 1, absent when there are fewer than two children |
| `IndexBasedVariableReference.IndexBasedVariableReferenceExpression.GetVarRefExpr` | modules/web/js/ballerina/ast/expressions/index-based-variable-reference-expression.js:64-66 | the node's child 0, absent exactly when it has no children |
| `IndexBasedVariableReference.IndexBasedVariableReferenceExpression.GetIndexExpr` | modules/web/js/ballerina/ast/expressions/index-based-variable-reference-expression.js:72-74 | the node's child 1, absent exactly when it has fewer than two children |
| `IndexBasedVariableReference.IndexBasedVariableReferenceExpression.GetExpressionString` | modules/web/js/ballerina/ast/expressions/index-based-variable-reference-expression.js:80-84 | the node's text is `ExpressionString` of its own children and regions; none (the source throws) with fewer than two children |
| `IndexBasedVariableReference.AcceptsParseResult` | modules/web/js/ballerina/ast/expressions/index-based-variable-reference-expression.js:95-97 | a parse result is accepted only if it is of type `index_based_variable_reference_expression`; lacking either the `error` or the `syntax_errors` key, that type is enough; having both keys rejects it |
| `IndexBasedVariableReference.RebuiltParts` | modules/web/js/ballerina/ast/expressions/index-based-variable-reference-expression.js:43-46 | after a rebuild from JSON with two children, the variable reference comes from JSON child 0 and the index from JSON child 1 |
| `IndexBasedVariableReference.ExpressionString` | modules/web/js/ballerina/ast/expressions/index-based-variable-reference-expression.js:80-84 | the text is the variable reference, `[`, the contents of region 2, the index, `]`, then the contents of region 3 at the end, each part at its own offset and the length their sum; there is no text (the source throws) with fewer than two children |
| `IndexBasedVariableReference.DefaultExpressionString` | modules/web/js/ballerina/ast/expressions/index-based-variable-reference-expression.js:33-38 | with the default regions the text is exactly `varRef[index]` |
| `IndexBasedVariableReference.IndexBasedVariableReferenceExpression.SetExpressionFromString` | modules/web/js/ballerina/ast/expressions/index-based-variable-reference-expression.js:91-106 | a missing string changes nothing and calls nothing; a parse result without an `error` key or without a `syntax_errors` key, and of type `index_based_variable_reference_expression`, rebuilds the children and reports `isValid: true`; any other result leaves the children and reports `isValid: false` with the result as `response`; nothing is reported without a callback |
| `IfStatements.IfStatement.constructor` | modules/web/js/ballerina/ast/statements/if-statement.js:35-56 | the condition is the given one, or the boolean literal `true` when none is given; regions 0 to 5 are `''`, `' '`, `''`, `' '`, `'\n'`, `' '` |
| `IfStatements.IfStatement.SetCondition` | modules/web/js/ballerina/ast/statements/if-statement.js:64-68 | a missing condition leaves the current one; a given one replaces it |
| `IfStatements.IfStatement.GetConditionString` | modules/web/js/ballerina/ast/statements/if-statement.js:74-76 | the condition's own text; none (the source throws) without a condition |
| `IfStatements.IfStatement.SetConditionFromString` | modules/web/js/ballerina/ast/statements/if-statement.js:83-92 | a missing string does nothing; otherwise the condition is the node built from the parsed fragment, with this statement as its parent |
| `IfStatements.IfStatement.InitFromJson` | modules/web/js/ballerina/ast/statements/if-statement.js:107-127 | the condition is replaced only when the JSON has one, and it gets this statement as its parent; one classified child per JSON child is appended after the existing children, in order; a variable definition without a `children` array throws, and only the children before it are appended |
| `Ast.BuildStatementChild` | modules/web/js/ballerina/ast/statements/if-statement.js:118-123 | a JSON child becomes a connector declaration exactly when it is a variable definition whose second child is a connector initialiser, and otherwise the node the factory builds for it; either way it is initialised from that same JSON node |
| `Ast.IsConnectorDeclarationJson` | modules/web/js/ballerina/ast/statements/if-statement.js:118-119 | a JSON child is taken for a connector declaration exactly when it is a `variable_definition_statement` with a second child of type `connector_init_expr` |
| `Ast.ClassificationThrows` | modules/web/js/ballerina/ast/statements/committed-statement.js:49-50 | the connector test throws exactly for a `variable_definition_statement` without a `children` array; such a child is never a connector declaration |
| `Ast.FirstThrow` | modules/web/js/ballerina/ast/statements/if-statement.js:118-119 | the position of the first JSON child on which the connector test reads `children[1]` of a missing array; no child before it throws |
| `IfStatements.ContentStartCursorPosition` | modules/web/js/ballerina/ast/statements/if-statement.js:151-154 | the cursor position is the start offset plus 3 plus the lengths of regions 1 and 2, so start offset plus 4 with the default regions |
| `IfStatements.SlicePrefix` | modules/web/js/ballerina/ast/statements/if-statement.js:136 | `slice(0, end)` keeps the first `end` lines, all lines when `end` is too large, and counts from the back when `end` is negative |
| `IfStatements.ContentReplaceRegion` | modules/web/js/ballerina/ast/statements/if-statement.js:133-145 | `stopC - startC` is the length of the condition text; `startC` is the length of the lines before the statement joined with `,`, plus 1, plus the cursor position |
| `IfStatements.IfStatement.GetContentReplaceRegion` | modules/web/js/ballerina/ast/statements/if-statement.js:139-144 | the region spans the condition's text; it is empty when there is no condition, so `stopC >= startC` always |
| `IfStatements.IfStatement.GetContentStartCursorPosition` | modules/web/js/ballerina/ast/statements/if-statement.js:151-154 | the node's cursor position, computed from its own regions |
| `Ast.CanBeParentOf` | modules/web/js/ballerina/ast/statements/if-statement.js:162-167 | a node is an acceptable child exactly when it is a connector, variable or worker declaration or a statement; a built connector declaration always is |
| `IfStatements.IfStatement.CanBeParentOf` | modules/web/js/ballerina/ast/statements/if-statement.js:162-167 | the if statement accepts exactly connector, variable and worker declarations and statements |
| `IfStatements.JoinSameLength` | modules/web/js/ballerina/ast/statements/if-statement.js:136 | joining lines with `,` gives the same length as joining them with `\n` |
| `IfStatements.JoinSplit` | modules/web/js/ballerina/ast/statements/if-statement.js:136 | a joined text splits at a line boundary into the lines before, one separator, and the lines after |
| `IfStatements.ReplaceStartIsLineOffset` | modules/web/js/ballerina/ast/statements/if-statement.js:134-138 | for a statement on line 2 or later, `startC` is the offset of the statement's line in the file text plus the cursor position |
| `IfStatements.FirstLineStartIsOneBeyond` | modules/web/js/ballerina/ast/statements/if-statement.js:136-138 | for a statement on line 1, `startC` is one more than the cursor position, although no line break precedes it |
| `CommittedStatements.CommittedStatement.constructor` | modules/web/js/ballerina/ast/statements/committed-statement.js:29-38 | type `CommittedStatement`, no children, regions `{0:'', 1:' ', 2:'\n', 3:' '}` |
| `CommittedStatements.CommittedStatement.InitFromJson` | modules/web/js/ballerina/ast/statements/committed-statement.js:45-58 | one child per JSON child is appended after the existing ones, in JSON order; a connector declaration for a variable definition whose second child is a connector initialiser, otherwise the factory's node, each initialised from its own JSON node; with no JSON children nothing changes; a variable definition without a `children` array throws after appending the children before it |
| `CommittedStatements.CommittedStatement.CanBeParentOf` | modules/web/js/ballerina/ast/statements/committed-statement.js:66-71 | the committed statement accepts exactly connector, variable and worker declarations and statements |
| `Ast.BuiltStatementChildren` | modules/web/js/ballerina/ast/statements/committed-statement.js:48-57 | one classified child per JSON node, in order |
| `Ast.BuiltStatementChildAccepted` | modules/web/js/ballerina/ast/statements/committed-statement.js:66-71 | a child built from JSON passes `canBeParentOf` exactly when it was classified as a connector declaration or the factory built a connector, variable or worker declaration or a statement |
| `AppLayout.ParsedOrDefault` | modules/web/src/core/layout/components/App.jsx:34-38 | the parsed stored size when it is a non-zero number, else the default; never 0 |
| `AppLayout.InitialState` | modules/web/src/core/layout/components/App.jsx:30-53 | the left panel shows exactly when the history has an active left view, and its size is 0 exactly when it is hidden; the bottom panel is hidden when the history has no `BOTTOM_PANEL_IS_ACTIVE` entry, and its size is 0 exactly when it is hidden; shown sizes are the parsed history size or 300; the document size is the window's |
| `AppLayout.App.constructor` | modules/web/src/core/layout/components/App.jsx:30-53 | the constructed state is the initial state for the history and the window size, and the history is unchanged |
| `AppLayout.StoredSizeOrDefault` | modules/web/src/core/layout/components/App.jsx:103-107 | with no size given, the stored size is used unless it is missing or 0, in which case 300; never 0 |
| `AppLayout.WithLeftPanelState` | modules/web/src/core/layout/components/App.jsx:101-113 | the left panel's visibility becomes the given one; the size is the given one or the stored-or-300 fallback; history `LEFT_PANEL_SIZE` then equals the state's size; nothing else changes |
| `AppLayout.App.SetLeftPanelState` | modules/web/src/core/layout/components/App.jsx:101-113 | the history put and the state update give the layout `WithLeftPanelState` describes |
| `AppLayout.WithBottomPanelState` | modules/web/src/core/layout/components/App.jsx:120-133 | the bottom panel's visibility becomes the given one and history `BOTTOM_PANEL_IS_ACTIVE` records it; the size is the given one or the stored-or-300 fallback, and history `BOTTOM_PANEL_SIZE` records it; nothing else changes |
| `AppLayout.App.SetBottomPanelState` | modules/web/src/core/layout/components/App.jsx:120-133 | the two history puts and the state update give the layout `WithBottomPanelState` describes |
| `AppLayout.Step` | modules/web/src/core/layout/components/App.jsx:226-236 | toggle flips the bottom panel; close hides it; maximise shows it at 700 and restore at 300; an active-view change shows a panel exactly when there is a new view; a finished drag shows the panel at the dragged size |
| `AppLayout.App.OnToggleBottomPanel` | modules/web/src/core/layout/components/App.jsx:59-61 | the toggle event does what `Step` says for it |
| `AppLayout.App.OnCloseBottomPanel` | modules/web/src/core/layout/components/App.jsx:226-230 | close does what `Step` says for it |
| `AppLayout.App.OnToggleMaximizedState` | modules/web/src/core/layout/components/App.jsx:231-236 | the maximise toggle does what `Step` says for it |
| `AppLayout.App.OnLeftPanelActiveViewChange` | modules/web/src/core/layout/components/App.jsx:182-191 | the left active-view change does what `Step` says for it |
| `AppLayout.App.OnBottomPanelActiveViewChange` | modules/web/src/core/layout/components/App.jsx:237-247 | the bottom active-view change does what `Step` says for it |
| `AppLayout.App.OnLeftPanelDragFinished` | modules/web/src/core/layout/components/App.jsx:162-171 | the end of a left drag does what `Step` says for it |
| `AppLayout.App.OnBottomPanelDragFinished` | modules/web/src/core/layout/components/App.jsx:203-212 | the end of a bottom drag does what `Step` says for it |
| `AppLayout.StepSyncsItsPanel` | modules/web/src/core/layout/components/App.jsx:108-132 | after any bottom-panel event the history agrees with the bottom panel and the left panel is untouched, and the converse for left-panel events |
| `AppLayout.RunKeepsSynced` | modules/web/src/core/layout/components/App.jsx:101-133 | once the history agrees with both panels, it does so after any sequence of events |
| `AppLayout.ToggleTwiceRestores` | modules/web/src/core/layout/components/App.jsx:59-61 | toggling twice restores the whole layout when the history agrees with the bottom panel and its size is not 0 |
| `AppLayout.RenderedBottomPanelSize` | modules/web/src/core/layout/components/App.jsx:141 | the rendered bottom size is the panel's size when shown, else 0 |
| `AppLayout.EditorHeight` | modules/web/src/core/layout/components/App.jsx:220-221 | the editor height plus 24, 30 and the rendered bottom size is the document height |
| `AppLayout.Maximize` | modules/web/src/core/layout/components/App.jsx:225 | the bottom panel is maximised exactly when it shows at size 700; a hidden panel never is, and a maximised one renders at 700 |
| `AppLayout.SplitPaneHeight` | modules/web/src/core/layout/components/App.jsx:175-181 | the split pane and the left panel are the document height less 24 and 30, which is the editor height plus the rendered bottom size |
| `AppLayout.EditorWidth` | modules/web/src/core/layout/components/App.jsx:218-219 | the editor (and the bottom panel, line 249) is as wide as the document less the left panel's size |
| `AppLayout.LeftPaneBounds` | modules/web/src/core/layout/components/App.jsx:159-161 | the left/right pane's maximum is 700; while the left panel shows its minimum is 300 and its default the panel size, and while it is hidden both are 0 |
| `AppLayout.BottomPaneBounds` | modules/web/src/core/layout/components/App.jsx:200-202 | the top/bottom pane's maximum is 700 and its default the rendered bottom size; its minimum is 300 while the bottom panel shows and 0 while it is hidden |
| `AppLayout.HiddenLeftPanelStillNarrowsEditor` | modules/web/src/core/layout/components/App.jsx:182-191 | after the left view is closed the left pane collapses to 0, yet the editor is narrower than the document by the stored-or-300 panel size, which is never 0 |
| `AppLayout.MaximizeFollowsToggle` | modules/web/src/core/layout/components/App.jsx:225-236 | after the maximise toggle, `maximize` (shown and size 700) is exactly what was asked |
| `AppLayout.CloseGivesEditorFullHeight` | modules/web/src/core/layout/components/App.jsx:220-230 | after close the editor is the document height less 54, and the panel is not maximised |
| `LeftPanels.InitialActiveView` | modules/web/src/core/layout/components/LeftPanel.jsx:24 | the stored `active-left-view` value when it is truthy, else `''` |
| `LeftPanels.LeftPanel.constructor` | modules/web/src/core/layout/components/LeftPanel.jsx:21-26 | the active view starts as the history's value or `''` |
| `LeftPanels.NextActiveView` | modules/web/src/core/layout/components/LeftPanel.jsx:67 | selecting a key other than the active view makes it active; selecting the active key makes the active view `''` |
| `LeftPanels.LeftPanel.OnSelect` | modules/web/src/core/layout/components/LeftPanel.jsx:66-72 | the active view becomes the toggled one, and history `active-left-view` holds the new active view |
| `LeftPanels.SelectTwice` | modules/web/src/core/layout/components/LeftPanel.jsx:66-72 | selecting the same key twice restores the active view exactly when it was that key or `''`; from another open tab it ends at `''` |
| `LeftPanels.SelectOpensOrCloses` | modules/web/src/core/layout/components/LeftPanel.jsx:67 | after a select a tab is open exactly when a key other than the active one, and not `''`, was selected |
| `LeftPanels.LeftPanel.Render` | modules/web/src/core/layout/components/LeftPanel.jsx:32-59 | exactly one tab and one pane per child view, in child order, each keyed by that view's id |

## Left out

- Not part of this model: the base classes `Statement`, `Expression` and `ConditionalStatement`, `ASTFactory` and `FragmentUtils`. Three things stand in for them. The factory is a function parameter giving the kind of node built for a JSON node. The fragment parser is a function parameter from text to parse tree. A child's own `getExpressionString` is a function parameter.
- A child's own `initFromJson` is unseen. Its effect is recorded as the JSON node the child was initialised from.
- The `ASTFactory.is*` checks are modelled as one category per node kind. Whether, say, a connector declaration is also a statement is not modelled.
- `addChild` is plain append. Its event flags, tree-modified events, `setAttribute` options and `doSilently` live in the unseen base classes, and so does the parent link it sets on appended children. Appended children carry no parent link here.
- `getWSRegion` is unseen. The model assumes it returns the stored region or `''`. No operation in these files changes a node's regions.
- `getFile().getContent().split(/\r?\n/)` and `getPosition()` are inputs: the list of lines and the start line and offset. With `\r\n` line breaks the file offsets differ from the `\n` text that `ReplaceStartIsLineOffset` measures against.
- `parseInt` is an abstract optional-integer parse; `None` stands for `NaN`.
- The window size is an input. The `resize` listener, `handleWindowResize`, the JSX, the split panes' own `setState` resets, `getChildContext` and `getViewsForRegion` are UI plumbing and not modelled.
- The history store is a map. Its persistence is not modelled. The strings of the `HISTORY` keys used by `App` are in `constants.js`, which is not part of this model. The key for the active left view is taken to be `active-left-view`, the one `LeftPanel` uses; the other three strings are placeholders. The model only relies on the four being distinct.
- `IfStatements.ContentReplaceRegion` and `IfStatements.ContentStartCursorPosition`: JavaScript's `.length` counts UTF-16 code units, while a Dafny string's length counts Unicode scalar values. A character outside the Basic Multilingual Plane in the lines, the regions or the condition shifts `startC` and `stopC` by one per character in the source but not in the model.
- React's `setState` is asynchronous and batched; the model applies each update at once. `AppLayout.ToggleTwiceRestores` and `LeftPanels.SelectTwice` hold for events handled one at a time, each seeing the state the previous one left.
- Sizes and heights are unbounded integers. JavaScript numbers, and fractional drag sizes, are not modelled.
- `AppLayout.StoredSizeOrDefault`: a stored size that is not a number is kept as it is by the source and coerced later. The model reads it through the abstract parse, falling back to 300.
- `AppLayout.InitialState`: the source keeps the raw `BOTTOM_PANEL_IS_ACTIVE` value in the state. The model keeps its truthiness, which is all the source ever uses.
- Not part of this model: the Swagger service endpoints, the plugin base class, the command list, the debugger handler stubs and the workspace explorer view. They are I/O plumbing, static data or empty stubs.
