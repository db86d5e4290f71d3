/** The tab collection of the terminal store: tab descriptors, the state the
    store holds, and the pure state-to-state updaters each store action hands
    to `set`. Ids are passed in; the source derives them from the clock. */
module Tabs {
  import opened Wrappers
  import opened Text

  /** The shell title every new tab starts with, and the fallback for a blank one. */
  const DefaultTitle: string := "PowerShell"
  /** The id of the tab present at start-up. */
  const StartId: string := "start-session"

  datatype Tab = Tab(id: string, title: string, customTitle: Option<string>)

  /** The store's two data fields: the ordered tabs and the active tab's id. */
  datatype TabState = TabState(tabs: seq<Tab>, activeTabId: string)

  function NewTab(id: string): Tab
  {
    Tab(id, DefaultTitle, None)
  }

  function Ids(tabs: seq<Tab>): (r: seq<string>)
    ensures |r| == |tabs| && forall k :: 0 <= k < |tabs| ==> r[k] == tabs[k].id
  {
    seq(|tabs|, i requires 0 <= i < |tabs| => tabs[i].id)
  }

  predicate HasId(tabs: seq<Tab>, id: string)
  {
    exists k :: 0 <= k < |tabs| && tabs[k].id == id
  }

  predicate UniqueIds(tabs: seq<Tab>)
  {
    forall i, j :: 0 <= i < j < |tabs| ==> tabs[i].id != tabs[j].id
  }

  /** The active-id invariant: there is a tab, and the active id names one of them. */
  predicate ActivePresent(s: TabState)
  {
    s.tabs != [] && HasId(s.tabs, s.activeTabId)
  }

  /** The full invariant of the collection, ids being unique besides. */
  predicate Inv(s: TabState)
  {
    ActivePresent(s) && UniqueIds(s.tabs)
  }

  /** The state the store starts in: one default tab, active. */
  function Initial(): (s: TabState)
    ensures Inv(s)
  {
    assert [NewTab(StartId)][0].id == StartId;
    TabState([NewTab(StartId)], StartId)
  }

  /** The state after closing everything: one default tab with the given id, active. */
  function Single(freshId: string): (s: TabState)
    ensures Inv(s) && |s.tabs| == 1
  {
    assert [NewTab(freshId)][0].id == freshId;
    TabState([NewTab(freshId)], freshId)
  }

  /** `tabs.filter(t => t.id !== id)`. */
  function Without(tabs: seq<Tab>, id: string): (r: seq<Tab>)
    ensures |r| <= |tabs|
    ensures forall t :: t in r <==> t in tabs && t.id != id
    ensures !HasId(tabs, id) ==> r == tabs
  {
    if tabs == [] then []
    else
      var rest := Without(tabs[1..], id);
      assert !HasId(tabs, id) ==> tabs[0].id != id && !HasId(tabs[1..], id) by {
        if HasId(tabs[1..], id) {
          var k :| 0 <= k < |tabs[1..]| && tabs[1..][k].id == id;
          assert tabs[k + 1].id == id;
        }
      }
      assert tabs == [tabs[0]] + tabs[1..];
      if tabs[0].id == id then rest else [tabs[0]] + rest
  }

  /** Filtering distributes over concatenation: the tabs that stay keep their relative order. */
  lemma {:induction false} WithoutConcat(a: seq<Tab>, b: seq<Tab>, id: string)
    ensures Without(a + b, id) == Without(a, id) + Without(b, id)
  {
    if a == [] {
      assert a + b == b;
    } else {
      assert (a + b)[0] == a[0];
      assert (a + b)[1..] == a[1..] + b;
      WithoutConcat(a[1..], b, id);
    }
  }

  /** No tab of the filtered list carries the removed id. */
  lemma WithoutDropsId(tabs: seq<Tab>, id: string)
    ensures !HasId(Without(tabs, id), id)
  {
    var r := Without(tabs, id);
    forall k | 0 <= k < |r| ensures r[k].id != id {
      assert r[k] in r;
    }
  }

  /** Prepending a tab whose id no tab of a unique list carries keeps the ids unique. */
  lemma ConsUnique(t: Tab, rest: seq<Tab>)
    requires UniqueIds(rest)
    requires forall x :: x in rest ==> x.id != t.id
    ensures UniqueIds([t] + rest)
  {
    var r := [t] + rest;
    forall i, j | 0 <= i < j < |r| ensures r[i].id != r[j].id {
      assert r[j] == rest[j - 1] && rest[j - 1] in rest;
      if i > 0 {
        assert r[i] == rest[i - 1];
      }
    }
  }

  /** The tail of a list with unique ids has unique ids, none equal to the head's. */
  lemma TailUnique(tabs: seq<Tab>)
    requires tabs != [] && UniqueIds(tabs)
    ensures UniqueIds(tabs[1..])
    ensures forall x :: x in tabs[1..] ==> x.id != tabs[0].id
  {
    var tail := tabs[1..];
    forall i, j | 0 <= i < j < |tail| ensures tail[i].id != tail[j].id {
      assert tail[i] == tabs[i + 1] && tail[j] == tabs[j + 1];
    }
    forall x | x in tail ensures x.id != tabs[0].id {
      var k :| 0 <= k < |tail| && tail[k] == x;
      assert tabs[k + 1] == x;
    }
  }

  /** A list whose ids are unique keeps them unique once filtered. */
  lemma {:induction false} WithoutUnique(tabs: seq<Tab>, id: string)
    requires UniqueIds(tabs)
    ensures UniqueIds(Without(tabs, id))
  {
    if tabs != [] {
      var tail := tabs[1..];
      TailUnique(tabs);
      WithoutUnique(tail, id);
      if tabs[0].id != id {
        ConsUnique(tabs[0], Without(tail, id));
      }
    }
  }

  /** `tabs.find(t => t.id === id)`: the first tab carrying the id, if any. */
  function FindTab(tabs: seq<Tab>, id: string): (r: Option<Tab>)
    ensures r.None? <==> !HasId(tabs, id)
    ensures r.Some? ==> r.value.id == id && exists k :: 0 <= k < |tabs| && tabs[k] == r.value && NoIdBefore(tabs, id, k)
  {
    if tabs == [] then None
    else if tabs[0].id == id then
      Some(tabs[0])
    else
      var r := FindTab(tabs[1..], id);
      assert HasId(tabs, id) <==> HasId(tabs[1..], id) by {
        if HasId(tabs, id) {
          var k :| 0 <= k < |tabs| && tabs[k].id == id;
          assert tabs[1..][k - 1] == tabs[k];
        }
        if HasId(tabs[1..], id) {
          var k :| 0 <= k < |tabs[1..]| && tabs[1..][k].id == id;
          assert tabs[k + 1] == tabs[1..][k];
        }
      }
      if r.Some? then
        var k :| 0 <= k < |tabs[1..]| && tabs[1..][k] == r.value && NoIdBefore(tabs[1..], id, k);
        assert tabs[k + 1] == r.value;
        assert NoIdBefore(tabs, id, k + 1) by {
          forall m | 0 <= m < k + 1 ensures tabs[m].id != id {
            if m > 0 {
              assert tabs[m] == tabs[1..][m - 1];
            }
          }
        }
        r
      else
        r
  }

  /** No tab before position `k` carries the id. */
  predicate NoIdBefore(tabs: seq<Tab>, id: string, k: nat)
    requires k <= |tabs|
  {
    forall m :: 0 <= m < k ==> tabs[m].id != id
  }

  /** The shell title a tab gets from a reported title: the trimmed text, or the default when that is blank. */
  function ShellTitle(raw: string): (t: string)
    ensures t != []
    ensures t == Trim(raw) || (Trim(raw) == [] && t == DefaultTitle)
  {
    var trimmed := Trim(raw);
    if trimmed == [] then DefaultTitle else trimmed
  }

  /** A reported title made only of white space leaves the default shell title. */
  lemma BlankShellTitleIsDefault(raw: string)
    requires AllSpace(raw)
    ensures ShellTitle(raw) == DefaultTitle
  {
    TrimEmptyIff(raw);
  }

  /** A shell title never starts or ends with white space. */
  lemma ShellTitleIsTrimmed(raw: string)
    ensures Trim(ShellTitle(raw)) == ShellTitle(raw)
  {
    var t := ShellTitle(raw);
    if Trim(raw) == [] {
      assert t == DefaultTitle;
      DefaultTitleIsTrimmed();
    } else {
      TrimIdempotent(raw);
    }
  }

  /** The default title has no white space to trim. */
  lemma DefaultTitleIsTrimmed()
    ensures Trim(DefaultTitle) == DefaultTitle
  {
    var d := DefaultTitle;
    assert d[0] == 'P' && d[|d| - 1] == 'l';
    TrimOfUnpadded(d);
  }

  // The updaters, one per store action.

  /** `addTab`: one default tab appended, and it becomes active. */
  function Add(s: TabState, newId: string): (r: TabState)
    ensures |r.tabs| == |s.tabs| + 1 && r.tabs[..|s.tabs|] == s.tabs
    ensures r.tabs[|s.tabs|] == Tab(newId, DefaultTitle, None)
    ensures r.activeTabId == newId
  {
    TabState(s.tabs + [NewTab(newId)], newId)
  }

  /** `removeTab`: the tabs with the id are dropped; when none remain a fresh tab
      replaces them, and when the active tab went the last remaining one becomes active. */
  function Remove(s: TabState, id: string, freshId: string): (r: TabState)
    ensures r.tabs != []
    ensures Without(s.tabs, id) == [] ==> r == Single(freshId)
    ensures Without(s.tabs, id) != [] ==> r.tabs == Without(s.tabs, id)
    ensures Without(s.tabs, id) != [] && s.activeTabId == id ==> r.activeTabId == r.tabs[|r.tabs| - 1].id
    ensures Without(s.tabs, id) != [] && s.activeTabId != id ==> r.activeTabId == s.activeTabId
    ensures s.tabs != [] && !HasId(s.tabs, id) ==> r.tabs == s.tabs
    ensures s.tabs != [] && !HasId(s.tabs, id) && s.activeTabId != id ==> r == s
  {
    var newTabs := Without(s.tabs, id);
    if |newTabs| == 0 then Single(freshId)
    else
      var newActiveId := if s.activeTabId == id then newTabs[|newTabs| - 1].id else s.activeTabId;
      TabState(newTabs, newActiveId)
  }

  /** `removeAllTabs`: a single fresh tab, active. */
  function RemoveAll(freshId: string): (r: TabState)
    ensures Inv(r) && r.tabs == [Tab(freshId, DefaultTitle, None)] && r.activeTabId == freshId
  {
    Single(freshId)
  }

  /** `removeOtherTabs`: only the first tab with the id is kept, and it is active;
      an absent id leaves the state as it was. */
  function RemoveOthers(s: TabState, id: string): (r: TabState)
    ensures !HasId(s.tabs, id) ==> r == s
    ensures HasId(s.tabs, id) ==> |r.tabs| == 1 && r.tabs[0].id == id && r.activeTabId == id
    ensures HasId(s.tabs, id) ==> exists k :: 0 <= k < |s.tabs| && s.tabs[k] == r.tabs[0] && NoIdBefore(s.tabs, id, k)
  {
    match FindTab(s.tabs, id)
    case None => s
    case Some(target) => TabState([target], target.id)
  }

  /** `setActiveTabId`: the active id is set, with no membership check. */
  function Activate(s: TabState, id: string): (r: TabState)
    ensures r.tabs == s.tabs && r.activeTabId == id
  {
    s.(activeTabId := id)
  }

  /** `updateTabTitle`: the matching tabs take the shell title derived from `raw`; nothing else changes. */
  function UpdateTitle(s: TabState, id: string, raw: string): (r: TabState)
    ensures r.activeTabId == s.activeTabId && |r.tabs| == |s.tabs| && Ids(r.tabs) == Ids(s.tabs)
    ensures forall k :: 0 <= k < |s.tabs| && s.tabs[k].id != id ==> r.tabs[k] == s.tabs[k]
    ensures forall k :: 0 <= k < |s.tabs| && s.tabs[k].id == id ==>
      r.tabs[k].title == ShellTitle(raw) && r.tabs[k].customTitle == s.tabs[k].customTitle
  {
    var newTitle := ShellTitle(raw);
    var tabs := seq(|s.tabs|, k requires 0 <= k < |s.tabs| =>
      if s.tabs[k].id == id then s.tabs[k].(title := newTitle) else s.tabs[k]);
    TabState(tabs, s.activeTabId)
  }

  /** `setCustomTabTitle`: the matching tabs store the trimmed text, blank included, as custom title. */
  function SetCustomTitle(s: TabState, id: string, raw: string): (r: TabState)
    ensures r.activeTabId == s.activeTabId && |r.tabs| == |s.tabs| && Ids(r.tabs) == Ids(s.tabs)
    ensures forall k :: 0 <= k < |s.tabs| && s.tabs[k].id != id ==> r.tabs[k] == s.tabs[k]
    ensures forall k :: 0 <= k < |s.tabs| && s.tabs[k].id == id ==>
      r.tabs[k].customTitle == Some(Trim(raw)) && r.tabs[k].title == s.tabs[k].title
  {
    var tabs := seq(|s.tabs|, k requires 0 <= k < |s.tabs| =>
      if s.tabs[k].id == id then s.tabs[k].(customTitle := Some(Trim(raw))) else s.tabs[k]);
    TabState(tabs, s.activeTabId)
  }

  /** The two splices of `reorderTabs`: take the element at `from` out, then insert it at `to`. */
  function Moved<T>(s: seq<T>, from: nat, to: nat): (r: seq<T>)
    requires from < |s| && to < |s|
    ensures |r| == |s| && r[to] == s[from]
    ensures multiset(r) == multiset(s)
  {
    var rest := s[..from] + s[from + 1..];
    assert s == s[..from] + [s[from]] + s[from + 1..];
    assert multiset(s) == multiset(rest) + multiset{s[from]};
    assert rest == rest[..to] + rest[to..];
    var r := rest[..to] + [s[from]] + rest[to..];
    assert multiset(r) == multiset(rest[..to]) + multiset{s[from]} + multiset(rest[to..]);
    r
  }

  /** The position in the old list that position `k` of the moved list comes from. */
  function MovedSource(from: nat, to: nat, k: nat): nat
  {
    if k == to then from
    else
      var j := if k < to then k else k - 1;  // the index into the list without the moved element
      if j < from then j else j + 1
  }

  lemma MovedAt<T>(s: seq<T>, from: nat, to: nat, k: nat)
    requires from < |s| && to < |s| && k < |s|
    ensures MovedSource(from, to, k) < |s|
    ensures Moved(s, from, to)[k] == s[MovedSource(from, to, k)]
  {
  }

  /** Moving is a rearrangement: distinct positions come from distinct positions. */
  lemma MovedSourceInjective(from: nat, to: nat, k1: nat, k2: nat)
    requires k1 != k2
    ensures MovedSource(from, to, k1) != MovedSource(from, to, k2)
  {
  }

  /** Elements outside the span between the two indices stay in place; those
      inside shift by one towards the vacated position. */
  lemma MovedShifts<T>(s: seq<T>, from: nat, to: nat)
    requires from < |s| && to < |s|
    ensures forall k :: 0 <= k < |s| && ((k < from && k < to) || (k > from && k > to)) ==> Moved(s, from, to)[k] == s[k]
    ensures from < to ==> forall k :: from <= k < to ==> Moved(s, from, to)[k] == s[k + 1]
    ensures to < from ==> forall k :: to < k <= from ==> Moved(s, from, to)[k] == s[k - 1]
  {
    forall k | 0 <= k < |s| {
      MovedAt(s, from, to, k);
    }
  }

  /** Moving back undoes a move. */
  lemma MovedBack<T>(s: seq<T>, i: nat, j: nat)
    requires i < |s| && j < |s|
    ensures Moved(Moved(s, i, j), j, i) == s
  {
    var m := Moved(s, i, j);
    var rest := s[..i] + s[i + 1..];
    assert m[..j] + m[j + 1..] == rest;
    assert rest[..i] == s[..i];
    assert rest[i..] == s[i + 1..];
    assert s == s[..i] + [s[i]] + s[i + 1..];
  }

  /** `reorderTabs`: the tab at `from` moves to `to`; the active id is not touched. */
  function Reorder(s: TabState, from: nat, to: nat): (r: TabState)
    requires from < |s.tabs| && to < |s.tabs|
    ensures r.activeTabId == s.activeTabId
    ensures |r.tabs| == |s.tabs| && multiset(r.tabs) == multiset(s.tabs) && r.tabs[to] == s.tabs[from]
  {
    TabState(Moved(s.tabs, from, to), s.activeTabId)
  }

  // What each updater does to the invariant.

  lemma AddKeepsInv(s: TabState, newId: string)
    requires Inv(s) && !HasId(s.tabs, newId)
    ensures Inv(Add(s, newId))
  {
    var r := Add(s, newId);
    assert Ids(r.tabs)[|s.tabs|] == newId;
    forall i, j | 0 <= i < j < |r.tabs| ensures r.tabs[i].id != r.tabs[j].id {
      if j == |s.tabs| {
        assert Ids(s.tabs)[i] == r.tabs[i].id;
      } else {
        assert r.tabs[i] == s.tabs[i] && r.tabs[j] == s.tabs[j];
      }
    }
  }

  lemma AddKeepsActivePresent(s: TabState, newId: string)
    ensures ActivePresent(Add(s, newId))
  {
    assert Ids(Add(s, newId).tabs)[|s.tabs|] == newId;
  }

  lemma RemoveKeepsActivePresent(s: TabState, id: string, freshId: string)
    requires ActivePresent(s)
    ensures ActivePresent(Remove(s, id, freshId))
  {
    var newTabs := Without(s.tabs, id);
    if newTabs != [] {
      var r := Remove(s, id, freshId);
      if s.activeTabId == id {
        assert Ids(r.tabs)[|r.tabs| - 1] == r.activeTabId;
      } else {
        var k :| 0 <= k < |s.tabs| && s.tabs[k].id == s.activeTabId;
        assert s.tabs[k] in newTabs;
        var m :| 0 <= m < |newTabs| && newTabs[m] == s.tabs[k];
        assert Ids(newTabs)[m] == s.activeTabId;
      }
    }
  }

  lemma RemoveKeepsInv(s: TabState, id: string, freshId: string)
    requires Inv(s)
    ensures Inv(Remove(s, id, freshId))
  {
    RemoveKeepsActivePresent(s, id, freshId);
    WithoutUnique(s.tabs, id);
  }

  /** Removing an id that is present takes every tab with it away and keeps the others. */
  lemma RemovePresentDropsIt(s: TabState, id: string, freshId: string)
    requires HasId(s.tabs, id) && freshId != id
    ensures !HasId(Remove(s, id, freshId).tabs, id)
    ensures forall t :: t in s.tabs && t.id != id ==> t in Remove(s, id, freshId).tabs
  {
    if Without(s.tabs, id) == [] {
      assert Ids(Single(freshId).tabs) == [freshId];
    } else {
      WithoutDropsId(s.tabs, id);
    }
  }

  lemma RemoveOthersKeepsInv(s: TabState, id: string)
    requires Inv(s)
    ensures Inv(RemoveOthers(s, id))
  {
    var r := RemoveOthers(s, id);
    if HasId(s.tabs, id) {
      assert Ids(r.tabs)[0] == id;
    }
  }

  /** Activation keeps the invariant exactly when the id names a tab: the store does not check. */
  lemma ActivateKeepsInvIff(s: TabState, id: string)
    requires Inv(s)
    ensures Inv(Activate(s, id)) <==> HasId(s.tabs, id)
  {
  }

  lemma UpdateTitleKeepsInv(s: TabState, id: string, raw: string)
    requires Inv(s)
    ensures Inv(UpdateTitle(s, id, raw))
  {
    var r := UpdateTitle(s, id, raw);
    forall i, j | 0 <= i < j < |r.tabs| ensures r.tabs[i].id != r.tabs[j].id {
      assert Ids(r.tabs)[i] == Ids(s.tabs)[i] && Ids(r.tabs)[j] == Ids(s.tabs)[j];
    }
  }

  lemma SetCustomTitleKeepsInv(s: TabState, id: string, raw: string)
    requires Inv(s)
    ensures Inv(SetCustomTitle(s, id, raw))
  {
    var r := SetCustomTitle(s, id, raw);
    forall i, j | 0 <= i < j < |r.tabs| ensures r.tabs[i].id != r.tabs[j].id {
      assert Ids(r.tabs)[i] == Ids(s.tabs)[i] && Ids(r.tabs)[j] == Ids(s.tabs)[j];
    }
  }

  lemma ReorderKeepsInv(s: TabState, from: nat, to: nat)
    requires Inv(s) && from < |s.tabs| && to < |s.tabs|
    ensures Inv(Reorder(s, from, to))
  {
    var r := Reorder(s, from, to);
    var k :| 0 <= k < |s.tabs| && s.tabs[k].id == s.activeTabId;
    assert s.tabs[k] in multiset(r.tabs);
    var m :| 0 <= m < |r.tabs| && r.tabs[m] == s.tabs[k];
    assert Ids(r.tabs)[m] == s.activeTabId;
    forall i, j | 0 <= i < j < |r.tabs| ensures r.tabs[i].id != r.tabs[j].id {
      MovedAt(s.tabs, from, to, i);
      MovedAt(s.tabs, from, to, j);
      MovedSourceInjective(from, to, i, j);
      var si, sj := MovedSource(from, to, i), MovedSource(from, to, j);
      if si < sj {
        assert s.tabs[si].id != s.tabs[sj].id;
      } else {
        assert s.tabs[sj].id != s.tabs[si].id;
      }
    }
  }

  /** Reordering back restores the list and the active id. */
  lemma ReorderBack(s: TabState, i: nat, j: nat)
    requires i < |s.tabs| && j < |s.tabs|
    ensures Reorder(Reorder(s, i, j), j, i) == s
  {
    MovedBack(s.tabs, i, j);
  }
}
