/**
 * The panel rules of the application shell (`App`): whether the left and
 * bottom panels show and how large they are, kept in step with the
 * preference history, and the heights the layout derives from them.
 */
module AppLayout {
  import opened Wrappers
  import opened History

  const LeftPanelDefaultSize := 300
  const LeftPanelMaxSize := 700
  const BottomPanelDefaultSize := 300
  const BottomPanelMaxSize := 700
  const HeaderHeight := 24
  const ToolAreaHeight := 30

  /*
   * History keys. `ActiveLeftPanelViewKey` is taken to be the key the left
   * panel stores its active view under, `"active-left-view"`; the three
   * others are placeholders for strings defined in `constants.js`, which is
   * not part of this model. The rules below only need the four to be distinct.
   */
  const ActiveLeftPanelViewKey := "active-left-view"
  const LeftPanelSizeKey := "left-panel-size"
  const BottomPanelIsActiveKey := "bottom-panel-is-active"
  const BottomPanelSizeKey := "bottom-panel-size"

  /** `parseInt(v, 10)`; `None` is `NaN`. */
  type IntParse = HValue -> Option<int>

  /** The fields of `this.state`. */
  datatype PanelState = PanelState(
    showLeftPanel: bool,
    leftPanelSize: int,
    showBottomPanel: bool,
    bottomPanelSize: int,
    documentHeight: int,
    documentWidth: int)

  /** The panel state together with the history it is kept in step with. */
  datatype Layout = Layout(state: PanelState, history: map<string, HValue>)

  /** The events the shell reacts to. */
  datatype Event =
    | ToggleBottomPanel                            // the TOGGLE_BOTTOM_PANLEL event
    | CloseBottomPanel                             // the bottom panel's close button
    | ToggleMaximizedState(isMaximized: bool)      // the bottom panel's maximise button
    | LeftPanelActiveViewChange(newView: Option<string>)
    | BottomPanelActiveViewChange(newView: Option<string>)
    | LeftPanelDragFinished(size: int)
    | BottomPanelDragFinished(size: int)

  predicate IsBottomEvent(e: Event) {
    !(e.LeftPanelActiveViewChange? || e.LeftPanelDragFinished?)
  }

  /**
   * `parseInt(stored, 10) || default`: the parsed size, or the default when
   * nothing is stored or the parse gives `0` or `NaN`.
   */
  function ParsedOrDefault(stored: Option<HValue>, parse: IntParse, default: int): (r: int)
    ensures default != 0 ==> r != 0
    ensures r == default || (stored.Some? && parse(stored.value) == Some(r) && r != 0)
    ensures stored.Some? && parse(stored.value).Some? && parse(stored.value).value != 0 ==>
              r == parse(stored.value).value
  {
    var p := if stored.Some? then parse(stored.value) else None;
    if p.Some? && p.value != 0 then p.value else default
  }

  /**
   * The size `setLeftPanelState`/`setBottomPanelState` fall back to when no
   * size is given: the stored size unless it is missing or `0`, else the
   * default.
   */
  function StoredSizeOrDefault(stored: Option<HValue>, parse: IntParse, default: int): (r: int)
    ensures default != 0 ==> r != 0
    ensures stored.None? || stored == Some(Num(0)) ==> r == default
    ensures stored.Some? && stored.value.Num? && stored.value.n != 0 ==> r == stored.value.n
  {
    if stored.None? || stored == Some(Num(0)) then default
    else match stored.value
      case Num(n) => n
      case _ => ParsedOrDefault(stored, parse, default)
  }

  /** The state the constructor builds from the history and the window size. */
  function InitialState(history: map<string, HValue>, parse: IntParse, innerHeight: int, innerWidth: int)
    : (s: PanelState)
    ensures s.showLeftPanel <==> ActiveLeftPanelViewKey in history
    ensures s.showLeftPanel <==> s.leftPanelSize != 0
    ensures s.showLeftPanel ==>
      s.leftPanelSize == ParsedOrDefault(Lookup(history, LeftPanelSizeKey), parse, LeftPanelDefaultSize)
    ensures BottomPanelIsActiveKey !in history ==> !s.showBottomPanel
    ensures s.showBottomPanel <==> BottomPanelIsActiveKey in history && Truthy(history[BottomPanelIsActiveKey])
    ensures s.showBottomPanel <==> s.bottomPanelSize != 0
    ensures s.showBottomPanel ==>
      s.bottomPanelSize == ParsedOrDefault(Lookup(history, BottomPanelSizeKey), parse, BottomPanelDefaultSize)
    ensures s.documentHeight == innerHeight && s.documentWidth == innerWidth
  {
    var showLeftPanel := ActiveLeftPanelViewKey in history;
    var leftPanelSize :=
      if showLeftPanel then ParsedOrDefault(Lookup(history, LeftPanelSizeKey), parse, LeftPanelDefaultSize) else 0;
    var showBottomPanel := BottomPanelIsActiveKey in history && Truthy(history[BottomPanelIsActiveKey]);
    var bottomPanelSize :=
      if showBottomPanel then ParsedOrDefault(Lookup(history, BottomPanelSizeKey), parse, BottomPanelDefaultSize) else 0;
    PanelState(showLeftPanel, leftPanelSize, showBottomPanel, bottomPanelSize, innerHeight, innerWidth)
  }

  /** The history holds the left panel's size as the state does. */
  predicate LeftSynced(l: Layout) {
    LeftPanelSizeKey in l.history && l.history[LeftPanelSizeKey] == Num(l.state.leftPanelSize)
  }

  /** The history holds the bottom panel's visibility and size as the state does. */
  predicate BottomSynced(l: Layout) {
    && BottomPanelIsActiveKey in l.history && l.history[BottomPanelIsActiveKey] == Bool(l.state.showBottomPanel)
    && BottomPanelSizeKey in l.history && l.history[BottomPanelSizeKey] == Num(l.state.bottomPanelSize)
  }

  /** `setLeftPanelState(show, size)`. */
  function WithLeftPanelState(l: Layout, show: bool, size: Option<int>, parse: IntParse): (r: Layout)
    ensures r.state == l.state.(showLeftPanel := show, leftPanelSize := r.state.leftPanelSize)
    ensures r.history == l.history[LeftPanelSizeKey := Num(r.state.leftPanelSize)]
    ensures LeftSynced(r)
    ensures size.Some? ==> r.state.leftPanelSize == size.value
    ensures size.None? ==> r.state.leftPanelSize != 0
    ensures size.None? ==>
      r.state.leftPanelSize == StoredSizeOrDefault(Lookup(l.history, LeftPanelSizeKey), parse, LeftPanelDefaultSize)
  {
    var leftPanelSize :=
      if size.Some? then size.value
      else StoredSizeOrDefault(Lookup(l.history, LeftPanelSizeKey), parse, LeftPanelDefaultSize);
    Layout(l.state.(showLeftPanel := show, leftPanelSize := leftPanelSize),
           l.history[LeftPanelSizeKey := Num(leftPanelSize)])
  }

  /** `setBottomPanelState(show, size)`. */
  function WithBottomPanelState(l: Layout, show: bool, size: Option<int>, parse: IntParse): (r: Layout)
    ensures r.state == l.state.(showBottomPanel := show, bottomPanelSize := r.state.bottomPanelSize)
    ensures r.history == l.history[BottomPanelIsActiveKey := Bool(show)][BottomPanelSizeKey := Num(r.state.bottomPanelSize)]
    ensures BottomSynced(r)
    ensures size.Some? ==> r.state.bottomPanelSize == size.value
    ensures size.None? ==> r.state.bottomPanelSize != 0
    ensures size.None? ==>
      r.state.bottomPanelSize == StoredSizeOrDefault(Lookup(l.history, BottomPanelSizeKey), parse, BottomPanelDefaultSize)
  {
    var bottomPanelSize :=
      if size.Some? then size.value
      else StoredSizeOrDefault(Lookup(l.history, BottomPanelSizeKey), parse, BottomPanelDefaultSize);
    Layout(l.state.(showBottomPanel := show, bottomPanelSize := bottomPanelSize),
           l.history[BottomPanelIsActiveKey := Bool(show)][BottomPanelSizeKey := Num(bottomPanelSize)])
  }

  /** What each event does to the layout. */
  function Step(l: Layout, e: Event, parse: IntParse): (r: Layout)
    ensures e.ToggleBottomPanel? ==> r.state.showBottomPanel == !l.state.showBottomPanel
    ensures e.CloseBottomPanel? ==> !r.state.showBottomPanel
    ensures e.ToggleMaximizedState? ==>
      r.state.showBottomPanel &&
      r.state.bottomPanelSize == (if e.isMaximized then BottomPanelMaxSize else BottomPanelDefaultSize)
    ensures e.LeftPanelActiveViewChange? ==> r.state.showLeftPanel == e.newView.Some?
    ensures e.BottomPanelActiveViewChange? ==> r.state.showBottomPanel == e.newView.Some?
    ensures e.LeftPanelDragFinished? ==> r.state.showLeftPanel && r.state.leftPanelSize == e.size
    ensures e.BottomPanelDragFinished? ==> r.state.showBottomPanel && r.state.bottomPanelSize == e.size
  {
    match e
    case ToggleBottomPanel => WithBottomPanelState(l, !l.state.showBottomPanel, None, parse)
    case CloseBottomPanel => WithBottomPanelState(l, false, None, parse)
    case ToggleMaximizedState(isMaximized) =>
      var newSize := if isMaximized then BottomPanelMaxSize else BottomPanelDefaultSize;
      WithBottomPanelState(l, true, Some(newSize), parse)
    case LeftPanelActiveViewChange(newView) => WithLeftPanelState(l, newView.Some?, None, parse)
    case BottomPanelActiveViewChange(newView) => WithBottomPanelState(l, newView.Some?, None, parse)
    case LeftPanelDragFinished(size) => WithLeftPanelState(l, true, Some(size), parse)
    case BottomPanelDragFinished(size) => WithBottomPanelState(l, true, Some(size), parse)
  }

  /** The events applied one after another. */
  function Run(l: Layout, events: seq<Event>, parse: IntParse): Layout
    decreases |events|
  {
    if events == [] then l else Run(Step(l, events[0], parse), events[1..], parse)
  }

  /**
   * A bottom-panel event brings the history in step with the bottom panel
   * and leaves the left panel and its history entry alone; a left-panel
   * event does the converse.
   */
  lemma StepSyncsItsPanel(l: Layout, e: Event, parse: IntParse)
    ensures IsBottomEvent(e) ==>
      && BottomSynced(Step(l, e, parse))
      && Step(l, e, parse).state.showLeftPanel == l.state.showLeftPanel
      && Step(l, e, parse).state.leftPanelSize == l.state.leftPanelSize
      && (LeftSynced(l) ==> LeftSynced(Step(l, e, parse)))
    ensures !IsBottomEvent(e) ==>
      && LeftSynced(Step(l, e, parse))
      && Step(l, e, parse).state.showBottomPanel == l.state.showBottomPanel
      && Step(l, e, parse).state.bottomPanelSize == l.state.bottomPanelSize
      && (BottomSynced(l) ==> BottomSynced(Step(l, e, parse)))
  {
  }

  /** Once the history agrees with both panels, every run of events keeps it so. */
  lemma {:induction false} RunKeepsSynced(l: Layout, events: seq<Event>, parse: IntParse)
    requires LeftSynced(l) && BottomSynced(l)
    ensures LeftSynced(Run(l, events, parse)) && BottomSynced(Run(l, events, parse))
    decreases |events|
  {
    if events != [] {
      StepSyncsItsPanel(l, events[0], parse);
      RunKeepsSynced(Step(l, events[0], parse), events[1..], parse);
    }
  }

  /**
   * Toggling the bottom panel twice restores the layout, once the history
   * agrees with the panel and its size is not `0`.
   */
  lemma ToggleTwiceRestores(l: Layout, parse: IntParse)
    requires BottomSynced(l) && l.state.bottomPanelSize != 0
    ensures Step(Step(l, ToggleBottomPanel, parse), ToggleBottomPanel, parse) == l
  {
  }

  /** The bottom panel's height as laid out: its size when shown, else `0`. */
  function RenderedBottomPanelSize(s: PanelState): (r: int)
    ensures s.showBottomPanel ==> r == s.bottomPanelSize
    ensures !s.showBottomPanel ==> r == 0
  {
    if s.showBottomPanel then s.bottomPanelSize else 0
  }

  /** The editor's height: what the header, the tool area and the bottom panel leave. */
  function EditorHeight(s: PanelState): (r: int)
    ensures r + HeaderHeight + ToolAreaHeight + RenderedBottomPanelSize(s) == s.documentHeight
    ensures !s.showBottomPanel ==> r == s.documentHeight - 54
  {
    s.documentHeight - (HeaderHeight + ToolAreaHeight + RenderedBottomPanelSize(s))
  }

  /** The height of the left/right split pane and of the left panel: all but the header and the tool area. */
  function SplitPaneHeight(s: PanelState): (r: int)
    ensures r + HeaderHeight + ToolAreaHeight == s.documentHeight
    ensures r == EditorHeight(s) + RenderedBottomPanelSize(s)
  {
    s.documentHeight - (HeaderHeight + ToolAreaHeight)
  }

  /**
   * The width of the editor area and of the bottom panel: the document's
   * width less the left panel's size, which is subtracted whether or not the
   * left panel shows.
   */
  function EditorWidth(s: PanelState): (r: int)
    ensures r + s.leftPanelSize == s.documentWidth
  {
    s.documentWidth - s.leftPanelSize
  }

  /** The `minSize`, `maxSize` and `defaultSize` a split pane is given. */
  datatype PaneBounds = PaneBounds(minSize: int, maxSize: int, defaultSize: int)

  /** The left/right split pane's bounds: collapsed to `0` while the left panel is hidden. */
  function LeftPaneBounds(s: PanelState): (r: PaneBounds)
    ensures r.maxSize == LeftPanelMaxSize
    ensures s.showLeftPanel ==> r.minSize == LeftPanelDefaultSize && r.defaultSize == s.leftPanelSize
    ensures !s.showLeftPanel ==> r.minSize == 0 && r.defaultSize == 0
  {
    if s.showLeftPanel then PaneBounds(LeftPanelDefaultSize, LeftPanelMaxSize, s.leftPanelSize)
    else PaneBounds(0, LeftPanelMaxSize, 0)
  }

  /** The top/bottom split pane's bounds: its default is the bottom panel's rendered size. */
  function BottomPaneBounds(s: PanelState): (r: PaneBounds)
    ensures r.maxSize == BottomPanelMaxSize
    ensures r.defaultSize == RenderedBottomPanelSize(s)
    ensures s.showBottomPanel ==> r.minSize == BottomPanelDefaultSize
    ensures !s.showBottomPanel ==> r.minSize == 0 && r.defaultSize == 0
  {
    PaneBounds(if s.showBottomPanel then BottomPanelDefaultSize else 0, BottomPanelMaxSize,
               RenderedBottomPanelSize(s))
  }

  /**
   * Hiding the left panel collapses its split pane to `0`, yet the editor
   * keeps the width it had: the hidden panel's size is still subtracted.
   */
  lemma HiddenLeftPanelStillNarrowsEditor(l: Layout, parse: IntParse)
    ensures var s := Step(l, LeftPanelActiveViewChange(None), parse).state;
      && !s.showLeftPanel
      && LeftPaneBounds(s).defaultSize == 0
      && s.leftPanelSize != 0
      && EditorWidth(s) != s.documentWidth
      && EditorWidth(s) == l.state.documentWidth
           - StoredSizeOrDefault(Lookup(l.history, LeftPanelSizeKey), parse, LeftPanelDefaultSize)
  {
  }

  /** The bottom panel's `maximize` flag. */
  predicate Maximize(s: PanelState): (r: bool)
    ensures r ==> RenderedBottomPanelSize(s) == BottomPanelMaxSize
    ensures !s.showBottomPanel ==> !r
    ensures s.showBottomPanel ==> (r <==> s.bottomPanelSize == BottomPanelMaxSize)
  {
    s.showBottomPanel && s.bottomPanelSize == BottomPanelMaxSize
  }

  /** The maximise button leaves the panel maximised exactly when asked to. */
  lemma MaximizeFollowsToggle(l: Layout, isMaximized: bool, parse: IntParse)
    ensures Maximize(Step(l, ToggleMaximizedState(isMaximized), parse).state) == isMaximized
  {
  }

  /** Closing the bottom panel gives its height back to the editor. */
  lemma CloseGivesEditorFullHeight(l: Layout, parse: IntParse)
    ensures EditorHeight(Step(l, CloseBottomPanel, parse).state) == l.state.documentHeight - 54
    ensures !Maximize(Step(l, CloseBottomPanel, parse).state)
  {
  }

  class App {
    const history: HistoryStore
    const parse: IntParse
    var showLeftPanel: bool
    var leftPanelSize: int
    var showBottomPanel: bool
    var bottomPanelSize: int
    var documentHeight: int
    var documentWidth: int

    /** The state and the history as the rules above see them. */
    function Model(): Layout
      reads this, history
    {
      Layout(PanelState(showLeftPanel, leftPanelSize, showBottomPanel, bottomPanelSize,
                        documentHeight, documentWidth),
             history.entries)
    }

    /** The window's `innerHeight` and `innerWidth` are passed in. */
    constructor(history: HistoryStore, parse: IntParse, innerHeight: int, innerWidth: int)
      ensures this.history == history && this.parse == parse
      ensures Model() == Layout(InitialState(history.entries, parse, innerHeight, innerWidth), history.entries)
    {
      this.history := history;
      this.parse := parse;
      var showLeftPanel := history.Get(ActiveLeftPanelViewKey).Some?;
      var leftPanelSize := 0;
      if showLeftPanel {
        leftPanelSize := ParsedOrDefault(history.Get(LeftPanelSizeKey), parse, LeftPanelDefaultSize);
      }
      var bottomPanelIsActive := history.Get(BottomPanelIsActiveKey);
      var showBottomPanel := if bottomPanelIsActive.Some? then Truthy(bottomPanelIsActive.value) else false;
      var bottomPanelSize := 0;
      if showBottomPanel {
        bottomPanelSize := ParsedOrDefault(history.Get(BottomPanelSizeKey), parse, BottomPanelDefaultSize);
      }
      this.showLeftPanel := showLeftPanel;
      this.leftPanelSize := leftPanelSize;
      this.showBottomPanel := showBottomPanel;
      this.bottomPanelSize := bottomPanelSize;
      this.documentHeight := innerHeight;
      this.documentWidth := innerWidth;
    }

    method SetLeftPanelState(show: bool, size: Option<int>)
      modifies this, history
      ensures Model() == WithLeftPanelState(old(Model()), show, size, parse)
    {
      var newSize := 0;
      if size.None? {
        var sizeFromHistory := history.Get(LeftPanelSizeKey);
        newSize := StoredSizeOrDefault(sizeFromHistory, parse, LeftPanelDefaultSize);
      } else {
        newSize := size.value;
      }
      history.Put(LeftPanelSizeKey, Num(newSize));
      showLeftPanel := show;
      leftPanelSize := newSize;
    }

    method SetBottomPanelState(show: bool, size: Option<int>)
      modifies this, history
      ensures Model() == WithBottomPanelState(old(Model()), show, size, parse)
    {
      var newSize := 0;
      if size.None? {
        var sizeFromHistory := history.Get(BottomPanelSizeKey);
        newSize := StoredSizeOrDefault(sizeFromHistory, parse, BottomPanelDefaultSize);
      } else {
        newSize := size.value;
      }
      history.Put(BottomPanelIsActiveKey, Bool(show));
      history.Put(BottomPanelSizeKey, Num(newSize));
      showBottomPanel := show;
      bottomPanelSize := newSize;
    }

    method OnToggleBottomPanel()
      modifies this, history
      ensures Model() == Step(old(Model()), ToggleBottomPanel, parse)
    {
      SetBottomPanelState(!showBottomPanel, None);
    }

    method OnCloseBottomPanel()
      modifies this, history
      ensures Model() == Step(old(Model()), CloseBottomPanel, parse)
    {
      SetBottomPanelState(false, None);
    }

    method OnToggleMaximizedState(isMaximized: bool)
      modifies this, history
      ensures Model() == Step(old(Model()), ToggleMaximizedState(isMaximized), parse)
    {
      var newSize := if isMaximized then BottomPanelMaxSize else BottomPanelDefaultSize;
      SetBottomPanelState(true, Some(newSize));
    }

    method OnLeftPanelActiveViewChange(newView: Option<string>)
      modifies this, history
      ensures Model() == Step(old(Model()), LeftPanelActiveViewChange(newView), parse)
    {
      SetLeftPanelState(newView.Some?, None);
    }

    method OnBottomPanelActiveViewChange(newView: Option<string>)
      modifies this, history
      ensures Model() == Step(old(Model()), BottomPanelActiveViewChange(newView), parse)
    {
      SetBottomPanelState(newView.Some?, None);
    }

    method OnLeftPanelDragFinished(size: int)
      modifies this, history
      ensures Model() == Step(old(Model()), LeftPanelDragFinished(size), parse)
    {
      SetLeftPanelState(true, Some(size));
    }

    method OnBottomPanelDragFinished(size: int)
      modifies this, history
      ensures Model() == Step(old(Model()), BottomPanelDragFinished(size), parse)
    {
      SetBottomPanelState(true, Some(size));
    }
  }
}
