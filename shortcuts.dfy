/** The window-level keyboard shortcuts: which store action a key-down event
    fires. The handler is a chain of independent `if`s over the lower-cased
    key and the shift flag, entered only while ctrl or meta is held. */
module Shortcuts {
  import opened Text

  datatype KeyEvent = KeyEvent(key: string, ctrlKey: bool, metaKey: bool, shiftKey: bool)

  /** The calls a shortcut makes on the stores, the PTY bridge or the window. */
  datatype Action =
    | ToggleSidebar
    | AddTab
    | PtyWrite(id: string, data: string)
    | RemoveAllTabs
    | RemoveTab(id: string)
    | RemoveOtherTabs(id: string)
    | ToggleShortcutsModal
    | ToggleFullscreen

  /** What Ctrl+Shift+G types into the active session. */
  const AntigravityCommand: string := "antigravity .\r"

  predicate Chord(e: KeyEvent, letter: string)
  {
    (e.ctrlKey || e.metaKey) && Lower(e.key) == letter
  }

  /** The actions one key-down fires, in the order the handler's branches run. */
  function Dispatch(e: KeyEvent, activeTabId: string): (r: seq<Action>)
    ensures |r| <= 1
    ensures !(e.ctrlKey || e.metaKey) ==> r == []
    ensures Chord(e, "b") ==> r == [ToggleSidebar]
    ensures Chord(e, "n") ==> r == [AddTab]
    ensures Chord(e, "q") ==> r == if e.shiftKey then [RemoveAllTabs] else [RemoveTab(activeTabId)]
    ensures Chord(e, "o") ==> r == if e.shiftKey then [RemoveOtherTabs(activeTabId)] else []
    ensures Chord(e, "g") ==> r == if e.shiftKey then [PtyWrite(activeTabId, AntigravityCommand)] else []
    ensures Chord(e, "/") || Chord(e, "?") ==> r == if e.shiftKey then [ToggleShortcutsModal] else []
    ensures Chord(e, "f") ==> r == if e.shiftKey then [ToggleFullscreen] else []
    ensures r != [] ==> (e.ctrlKey || e.metaKey) && Lower(e.key) in ["b", "n", "g", "q", "o", "/", "?", "f"]
  {
    if !(e.ctrlKey || e.metaKey) then []
    else
      var key := Lower(e.key);
      var shift := e.shiftKey;
      (if key == "b" then [ToggleSidebar] else [])
      + (if key == "n" then [AddTab] else [])
      + (if key == "g" && shift then [PtyWrite(activeTabId, AntigravityCommand)] else [])
      + (if key == "q" then (if shift then [RemoveAllTabs] else [RemoveTab(activeTabId)]) else [])
      + (if key == "o" && shift then [RemoveOtherTabs(activeTabId)] else [])
      + (if (key == "/" || key == "?") && shift then [ToggleShortcutsModal] else [])
      + (if key == "f" && shift then [ToggleFullscreen] else [])
  }

  /** The key's case does not matter: an event dispatches as its lower-cased form does. */
  lemma DispatchIgnoresCase(e: KeyEvent, activeTabId: string)
    ensures Dispatch(e.(key := Lower(e.key)), activeTabId) == Dispatch(e, activeTabId)
  {
    LowerIdempotent(e.key);
  }
}
