/** The layout component's own, older copy of the tab logic: React state
    `tabs` and `activeTabId`, written through their setters by the new-tab,
    close-tab and title-change handlers. It does not read the terminal store.
    Its tab record has no custom title; here that is a `Tab` whose
    `customTitle` is `None`, which none of these handlers ever sets. */
module TerminalLayout {
  import opened Tabs

  class TerminalLayout {
    var tabs: seq<Tab>
    var activeTabId: string

    function State(): TabState
      reads this
    {
      TabState(tabs, activeTabId)
    }

    predicate Valid()
      reads this
    {
      Inv(State())
    }

    /** The initial state: the start-up tab, active. */
    constructor ()
      ensures tabs == [NewTab(StartId)] && activeTabId == StartId
      ensures State() == Initial() && Valid()
    {
      tabs := [NewTab(StartId)];
      activeTabId := StartId;
    }

    /** Appends a default tab under the new id and activates it, as the store's
        `addTab` does; ids stay unique only when the new one is not in use. */
    method HandleNewTab(newId: string)
      modifies this
      ensures tabs == old(tabs) + [NewTab(newId)] && activeTabId == newId
      ensures State() == Add(old(State()), newId)
      ensures old(Valid()) && !HasId(old(tabs), newId) ==> Valid()
      ensures ActivePresent(State())
    {
      ghost var before := State();
      tabs := tabs + [NewTab(newId)];
      activeTabId := newId;
      AddKeepsActivePresent(before, newId);
      if Inv(before) && !HasId(before.tabs, newId) {
        AddKeepsInv(before, newId);
      }
    }

    /** Closes the tabs with `id`. Closing the last one puts a fresh tab in its
        place; closing the active one activates the last remaining tab. The
        outcome is the store's `removeTab`. */
    method HandleCloseTab(id: string, freshId: string)
      modifies this
      ensures State() == Remove(old(State()), id, freshId)
      ensures old(Valid()) ==> Valid()
      ensures |old(tabs)| == 1 && old(tabs)[0].id == id ==> tabs == [NewTab(freshId)] && activeTabId == freshId
    {
      ghost var before := State();
      var newTabs := Without(tabs, id);
      if |newTabs| == 0 {
        tabs := [NewTab(freshId)];
        activeTabId := freshId;
      } else {
        tabs := newTabs;
        if activeTabId == id {
          activeTabId := newTabs[|newTabs| - 1].id;
        }
      }
      if Inv(before) {
        RemoveKeepsInv(before, id, freshId);
      }
      if |before.tabs| == 1 && before.tabs[0].id == id {
        assert before.tabs == [before.tabs[0]];
        assert Without(before.tabs, id) == [] + Without([], id);
      }
    }

    /** Sets the shell title of the matching tabs, as the store's `updateTabTitle` does. */
    method HandleTitleChange(id: string, title: string)
      modifies this
      ensures State() == UpdateTitle(old(State()), id, title)
      ensures old(Valid()) ==> Valid()
    {
      ghost var before := State();
      var newTitle := ShellTitle(title);
      var k := 0;
      var next: seq<Tab> := [];
      while k < |tabs|
        invariant 0 <= k <= |tabs| && |next| == k
        invariant forall m :: 0 <= m < k ==> next[m] == if tabs[m].id == id then tabs[m].(title := newTitle) else tabs[m]
      {
        next := next + [if tabs[k].id == id then tabs[k].(title := newTitle) else tabs[k]];
        k := k + 1;
      }
      tabs := next;
      if Inv(before) {
        UpdateTitleKeepsInv(before, id, title);
      }
    }
  }

  /** The events the layout's handlers react to. */
  datatype LayoutEvent =
    | NewTabClicked(newId: string)
    | TabClosed(id: string, freshId: string)
    | TitleChanged(id: string, title: string)

  function Step(s: TabState, e: LayoutEvent): TabState
  {
    match e
    case NewTabClicked(newId) => Add(s, newId)
    case TabClosed(id, freshId) => Remove(s, id, freshId)
    case TitleChanged(id, title) => UpdateTitle(s, id, title)
  }

  function Replay(s: TabState, events: seq<LayoutEvent>): TabState
    decreases |events|
  {
    if events == [] then s else Replay(Step(s, events[0]), events[1..])
  }

  /** From any state whose active id names a tab, every sequence of events keeps a
      non-empty list and an active id that names one of its tabs, whatever ids
      the clock produces. */
  lemma {:induction false} ReplayKeepsActivePresent(s: TabState, events: seq<LayoutEvent>)
    requires ActivePresent(s)
    ensures ActivePresent(Replay(s, events))
    decreases |events|
  {
    if events != [] {
      match events[0] {
        case NewTabClicked(newId) => AddKeepsActivePresent(s, newId);
        case TabClosed(id, freshId) => RemoveKeepsActivePresent(s, id, freshId);
        case TitleChanged(id, title) =>
          var r := UpdateTitle(s, id, title);
          var k :| 0 <= k < |s.tabs| && s.tabs[k].id == s.activeTabId;
          assert r.tabs[k].id == Ids(r.tabs)[k] == Ids(s.tabs)[k];
      }
      ReplayKeepsActivePresent(Step(s, events[0]), events[1..]);
    }
  }

  /** In particular from the start-up state. */
  lemma InitialReplayKeepsActivePresent(events: seq<LayoutEvent>)
    ensures ActivePresent(Replay(Initial(), events))
  {
    ReplayKeepsActivePresent(Initial(), events);
  }
}
