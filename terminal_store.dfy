/** The terminal store: a container whose two fields every action overwrites
    with the state its updater computes. */
module TerminalStore {
  import opened Tabs

  /** `splice(from, 1)` on a buffer: the elements after `from` move one place
      left; the last slot is left stale and is no longer part of the list. */
  method RemoveAt<T>(a: array<T>, from: nat) returns (removed: T)
    requires from < a.Length
    modifies a
    ensures removed == old(a[from])
    ensures a[..a.Length - 1] == old(a[..from]) + old(a[from + 1..])
  {
    removed := a[from];
    var k := from;
    while k < a.Length - 1
      invariant from <= k <= a.Length - 1
      invariant a[..from] == old(a[..from])
      invariant forall m :: from <= m < k ==> a[m] == old(a[m + 1])
      invariant forall m :: k <= m < a.Length ==> a[m] == old(a[m])
    {
      a[k] := a[k + 1];
      k := k + 1;
    }
    assert a[..a.Length - 1] == a[..from] + a[from..a.Length - 1];
  }

  /** `splice(to, 0, x)` on a buffer holding one element fewer than it can:
      the elements from `to` on move one place right and `x` fills the gap. */
  method InsertAt<T>(a: array<T>, to: nat, x: T)
    requires 0 < a.Length && to < a.Length
    modifies a
    ensures a[..] == old(a[..a.Length - 1])[..to] + [x] + old(a[..a.Length - 1])[to..]
  {
    var k := a.Length - 1;
    while k > to
      invariant to <= k <= a.Length - 1
      invariant a[..k] == old(a[..k])
      invariant forall m :: k < m < a.Length ==> a[m] == old(a[m - 1])
    {
      a[k] := a[k - 1];
      k := k - 1;
    }
    a[to] := x;
  }

  class TerminalStore {
    var tabs: seq<Tab>
    var activeTabId: string

    function State(): TabState
      reads this
    {
      TabState(tabs, activeTabId)
    }

    /** Holds in every state reached through the store's actions, except after
        `SetActiveTabId` with an id that names no tab or `AddTab` with an id
        already in use. */
    predicate Valid()
      reads this
    {
      Inv(State())
    }

    constructor ()
      ensures State() == Initial() && Valid()
    {
      tabs := [NewTab(StartId)];
      activeTabId := StartId;
    }

    method AddTab(newId: string)
      modifies this
      ensures State() == Add(old(State()), newId)
      ensures old(Valid()) && !HasId(old(tabs), newId) ==> Valid()
    {
      ghost var before := State();
      tabs, activeTabId := tabs + [NewTab(newId)], newId;
      if Inv(before) && !HasId(before.tabs, newId) {
        AddKeepsInv(before, newId);
      }
    }

    method RemoveTab(id: string, freshId: string)
      modifies this
      ensures State() == Remove(old(State()), id, freshId)
      ensures old(Valid()) ==> Valid()
    {
      ghost var before := State();
      var r := Remove(State(), id, freshId);
      tabs, activeTabId := r.tabs, r.activeTabId;
      if Inv(before) {
        RemoveKeepsInv(before, id, freshId);
      }
    }

    method RemoveAllTabs(freshId: string)
      modifies this
      ensures State() == RemoveAll(freshId) && Valid()
    {
      tabs, activeTabId := [NewTab(freshId)], freshId;
    }

    method RemoveOtherTabs(id: string)
      modifies this
      ensures State() == RemoveOthers(old(State()), id)
      ensures old(Valid()) ==> Valid()
    {
      ghost var before := State();
      var r := RemoveOthers(State(), id);
      tabs, activeTabId := r.tabs, r.activeTabId;
      if Inv(before) {
        RemoveOthersKeepsInv(before, id);
      }
    }

    method SetActiveTabId(id: string)
      modifies this
      ensures State() == Activate(old(State()), id)
      ensures old(Valid()) ==> (Valid() <==> HasId(tabs, id))
    {
      activeTabId := id;
    }

    method UpdateTabTitle(id: string, title: string)
      modifies this
      ensures State() == UpdateTitle(old(State()), id, title)
      ensures old(Valid()) ==> Valid()
    {
      ghost var before := State();
      var r := UpdateTitle(State(), id, title);
      tabs := r.tabs;
      if Inv(before) {
        UpdateTitleKeepsInv(before, id, title);
      }
    }

    method SetCustomTabTitle(id: string, title: string)
      modifies this
      ensures State() == SetCustomTitle(old(State()), id, title)
      ensures old(Valid()) ==> Valid()
    {
      ghost var before := State();
      var r := SetCustomTitle(State(), id, title);
      tabs := r.tabs;
      if Inv(before) {
        SetCustomTitleKeepsInv(before, id, title);
      }
    }

    /** Copies the tabs into a buffer and splices it twice in place. */
    method ReorderTabs(oldIndex: nat, newIndex: nat)
      requires oldIndex < |tabs| && newIndex < |tabs|
      modifies this
      ensures State() == Reorder(old(State()), oldIndex, newIndex)
      ensures old(Valid()) ==> Valid()
    {
      ghost var before := State();
      var newTabs := new Tab[|tabs|](k requires 0 <= k < |tabs| reads this => tabs[k]);
      assert newTabs[..] == tabs;
      var movedTab := RemoveAt(newTabs, oldIndex);
      InsertAt(newTabs, newIndex, movedTab);
      tabs := newTabs[..];
      if Inv(before) {
        ReorderKeepsInv(before, oldIndex, newIndex);
      }
    }
  }
}
