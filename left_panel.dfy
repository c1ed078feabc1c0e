/**
 * The left panel (`LeftPanel`): an activity bar with one tab per view and one
 * pane per view. Selecting a tab opens its view; selecting the open tab again
 * closes the panel. The open tab is remembered in the history.
 */
module LeftPanels {
  import opened Wrappers
  import opened History

  const ActiveViewKey := "active-left-view"

  /** A child view's definition: its id and its region options. */
  datatype View = View(id: string, activityBarIcon: string, panelTitle: string)

  /** A tab of the activity bar (`NavItem`). */
  datatype NavItem = NavItem(key: string, eventKey: string, iconClass: string)

  /** A pane holding a view (`Tab.Pane`). */
  datatype TabPane = TabPane(key: string, eventKey: string, panelTitle: string, content: View)

  /** The CSS class of a tab's icon. */
  function IconClass(activityBarIcon: string): string {
    "fw fw-" + activityBarIcon + " fw-lg"
  }

  /** `history.get('active-left-view') || ''`. */
  function InitialActiveView(stored: Option<HValue>): (r: HValue)
    ensures stored.Some? && Truthy(stored.value) ==> r == stored.value
    ensures !(stored.Some? && Truthy(stored.value)) ==> r == Str("")
  {
    if stored.Some? && Truthy(stored.value) then stored.value else Str("")
  }

  /** The active view after the tab `key` is selected. */
  function NextActiveView(active: HValue, key: string): (r: HValue)
    ensures active != Str(key) ==> r == Str(key)
    ensures active == Str(key) ==> r == Str("")
  {
    if active != Str(key) then Str(key) else Str("")
  }

  /**
   * Selecting the same tab twice returns to where one started exactly when
   * that tab was open or no tab was open; from another open tab it ends with
   * none open.
   */
  lemma SelectTwice(active: HValue, key: string)
    ensures NextActiveView(NextActiveView(active, key), key) == active <==>
            (active == Str(key) || active == Str(""))
    ensures active != Str(key) && active != Str("") ==>
            NextActiveView(NextActiveView(active, key), key) == Str("")
  {
  }

  /** After a select a tab is open exactly when a different, non-empty key was selected. */
  lemma SelectOpensOrCloses(active: HValue, key: string)
    ensures Truthy(NextActiveView(active, key)) <==> (active != Str(key) && key != "")
  {
  }

  class LeftPanel {
    const history: HistoryStore
    const views: seq<View>
    var activeView: HValue

    constructor(history: HistoryStore, views: seq<View>)
      ensures this.history == history && this.views == views
      ensures activeView == InitialActiveView(Lookup(history.entries, ActiveViewKey))
    {
      this.history := history;
      this.views := views;
      var stored := history.Get(ActiveViewKey);
      activeView := InitialActiveView(stored);
    }

    /** `onSelect(key)`: toggle the tab and remember the result in the history. */
    method OnSelect(key: string)
      modifies this, history
      ensures activeView == NextActiveView(old(activeView), key)
      ensures history.entries == old(history.entries)[ActiveViewKey := activeView]
    {
      var newActiveView := NextActiveView(activeView, key);
      history.Put(ActiveViewKey, newActiveView);
      activeView := newActiveView;
    }

    /** The tabs and panes `render` builds: one of each per view, in order, keyed by the view's id. */
    method Render() returns (tabs: seq<NavItem>, panes: seq<TabPane>)
      ensures |tabs| == |views| && |panes| == |views|
      ensures forall i :: 0 <= i < |views| ==>
        tabs[i] == NavItem(views[i].id, views[i].id, IconClass(views[i].activityBarIcon))
      ensures forall i :: 0 <= i < |views| ==>
        panes[i] == TabPane(views[i].id, views[i].id, views[i].panelTitle, views[i])
    {
      tabs, panes := [], [];
      for k := 0 to |views|
        invariant |tabs| == k && |panes| == k
        invariant forall i :: 0 <= i < k ==>
          tabs[i] == NavItem(views[i].id, views[i].id, IconClass(views[i].activityBarIcon))
        invariant forall i :: 0 <= i < k ==>
          panes[i] == TabPane(views[i].id, views[i].id, views[i].panelTitle, views[i])
      {
        var view := views[k];
        tabs := tabs + [NavItem(view.id, view.id, IconClass(view.activityBarIcon))];
        panes := panes + [TabPane(view.id, view.id, view.panelTitle, view)];
      }
    }
  }
}
