# Terminal tabs and sessions of megashell, in Dafny

This project models the session layer of the megashell desktop terminal. It covers the following parts:
- the tab store, which holds an ordered list of tabs and the active tab's id;
- the layout component's older copy of the same tab logic;
- the layout store, which holds two sizes and two panel toggles;
- the window-level keyboard shortcuts;
- the search panel and its clock;
- the per-terminal view that binds a terminal surface to one PTY session.

The terminal library, its add-ons, the Tauri bridge and the host window are foreign code. The terminal view records the calls it makes on them as abstract effects in a trace, in order. The calls it leaves out are listed under "## Left out". What those calls return comes in as parameters: the fitted grid, and whether the spawn call resolved or failed. Tab ids, which the source takes from `Date.now()`, are parameters too. The clock's hours and minutes are inputs.

Modules, one per source file, except that the tab store's file gives two (`Tabs` for its updaters, `TerminalStore` for the store itself), plus two helper modules:

- `Wrappers`: `Option` and `Outcome`.
- `Text`:
  - JavaScript's `trim`, over the full ECMAScript set of white-space and line-terminator code points;
  - `toLowerCase` on ASCII letters;
  - decimal rendering of naturals, with its inverse.
- `Tabs`: the tab record and the store's state, with one pure updater per store action. These are the state-to-state functions the store passes to `set`. Beside them are the lemmas about the invariant. The invariant says the list is non-empty, the active id names a tab, and ids are unique.
- `TerminalStore`: the store as a class whose two fields each action overwrites. `ReorderTabs` copies the tabs into an array and performs the two `splice` calls in place.
- `TerminalLayout`: the layout component's local `tabs`/`activeTabId` state and its three handlers. Each handler is proved to produce exactly what the corresponding store updater produces, so both copies keep the same invariant. A replay lemma covers arbitrary event sequences.
- `LayoutStore`, `Shortcuts`, `SearchWidget`, `TerminalSession`: the remaining files.

The model follows the code in these behaviours, which a reader may not expect:
- `setActiveTabId` does not check that the id names a tab.
- `reorderTabs` does not fail silently on a bad index: an `oldIndex` at or past the end inserts `undefined`. The model requires in-range indices.
- Every resize observation sends `pty_resize`, even when the grid has not changed.
- The teardown steps run one after another with no guard of their own.
- Typing an empty query sends nothing and does not clear the highlights.
- The initial `fit()` at src/components/Terminal.tsx:110 is not inside a `try`. When it throws, the rest of the initialisation is abandoned: the terminal is never stored in `xtermRef`, no output listener is registered and no spawn is issued. Cleanup then skips `dispose()`, so the opened terminal is never disposed. `FitOutcome.Threw` in `TerminalSession.InitEffects` models this.

## Model

| member | source | states |
|---|---|---|
| `Text.TrimStart` | src/store/useTerminalStore.ts:79 | the result is the longest suffix of the input that does not start with white space; everything cut off is white space |
| `Text.TrimEnd` | src/store/useTerminalStore.ts:79 | the result is the longest prefix that does not end with white space; everything cut off is white space |
| `Text.Trim` | src/store/useTerminalStore.ts:79 | `trim` never lengthens its input, and what it returns neither starts nor ends with white space |
| `Text.TrimIsSlice` | src/store/useTerminalStore.ts:79 | `trim` returns a slice of its input with only white space cut from both ends, and the slice neither starts nor ends with white space |
| `Text.TrimEmptyIff` | src/store/useTerminalStore.ts:79-80 | `trim` gives the empty string exactly when the input is all white space |
| `Text.TrimOfUnpadded` | src/store/useTerminalStore.ts:79 | a string with no white space at either end trims to itself |
| `Text.TrimIdempotent` | src/store/useTerminalStore.ts:79 | trimming twice is the same as trimming once |
| `Text.Lower` | src/hooks/use-layout-shortcuts.ts:13 | lower-casing keeps the length and lower-cases each character |
| `Text.LowerIdempotent` | src/hooks/use-layout-shortcuts.ts:13 | lower-casing a lower-cased key changes nothing |
| `Text.LowerSingleLetter` | src/components/Terminal.tsx:164-169 | a key lower-cases to a given letter exactly when it is that letter in lower or upper case |
| `Text.Decimal` | src/components/SearchWidget.tsx:57-58 | a number renders as a non-empty run of digits: one digit below 10, two digits from 10 to 99 |
| `Text.ParseDecimalOfDecimal` | src/components/SearchWidget.tsx:57-58 | reading the rendered digits back gives the number |
| `Text.ParseDecimalLeadingZero` | src/components/SearchWidget.tsx:57 | a leading '0' does not change the value read |
| `Tabs.Initial` | src/store/useTerminalStore.ts:23-24 | the start-up state, one 'start-session' tab titled 'PowerShell' and active, satisfies the invariant |
| `Tabs.Single` | src/store/useTerminalStore.ts:38-42 | the replacement state of one fresh tab, active, satisfies the invariant |
| `Tabs.Without` | src/store/useTerminalStore.ts:35 | the filter keeps exactly the tabs whose id differs, is no longer than the input, and returns the input itself when no tab has the id |
| `Tabs.WithoutConcat` | src/store/useTerminalStore.ts:35 | filtering distributes over concatenation, so the kept tabs keep their relative order |
| `Tabs.WithoutDropsId` | src/store/useTerminalStore.ts:35 | no tab with the removed id survives the filter |
| `Tabs.WithoutUnique` | src/store/useTerminalStore.ts:35 | filtering keeps ids unique |
| `Tabs.FindTab` | src/store/useTerminalStore.ts:65 | the search finds nothing exactly when no tab has the id; otherwise it finds the first tab with that id |
| `Tabs.ShellTitle` | src/store/useTerminalStore.ts:79-80 | the shell title is never empty: it is the trimmed text, or 'PowerShell' when that is empty |
| `Tabs.BlankShellTitleIsDefault` | src/store/useTerminalStore.ts:79-80 | a title made only of white space yields 'PowerShell' |
| `Tabs.ShellTitleIsTrimmed` | src/store/useTerminalStore.ts:79-80 | a stored shell title has no white space at either end |
| `Tabs.Add` | src/store/useTerminalStore.ts:25-32 | `addTab` appends exactly one 'PowerShell' tab with the new id, keeps the old tabs in order as a prefix, and activates the new id |
| `Tabs.AddKeepsInv` | src/store/useTerminalStore.ts:25-32 | with an id not in use, adding keeps the list non-empty, the active id present and ids unique |
| `Tabs.AddKeepsActivePresent` | src/store/useTerminalStore.ts:25-32 | whatever the id, after adding the active id names a tab |
| `Tabs.Remove` | src/store/useTerminalStore.ts:33-53 | `removeTab` never leaves the list empty; if the filter empties it, the result is one fresh active tab; otherwise the list is the filtered list, and the active id moves to the last tab only if the removed id was active; an absent id leaves the tabs as they were, and the whole state when it is not the active id |
| `Tabs.RemoveKeepsActivePresent` | src/store/useTerminalStore.ts:33-53 | after a removal the active id still names a tab |
| `Tabs.RemoveKeepsInv` | src/store/useTerminalStore.ts:33-53 | removal keeps the full invariant |
| `Tabs.RemovePresentDropsIt` | src/store/useTerminalStore.ts:35-43 | after removing a present id, no tab carries it, provided the replacement id differs; every tab with another id is kept |
| `Tabs.RemoveAll` | src/store/useTerminalStore.ts:54-62 | `removeAllTabs` leaves exactly one 'PowerShell' tab with the fresh id, active |
| `Tabs.RemoveOthers` | src/store/useTerminalStore.ts:63-71 | `removeOtherTabs` of a present id leaves only the first tab with that id, active; an absent id leaves the state unchanged |
| `Tabs.RemoveOthersKeepsInv` | src/store/useTerminalStore.ts:63-71 | closing the other tabs keeps the invariant |
| `Tabs.Activate` | src/store/useTerminalStore.ts:72 | `setActiveTabId` sets the active id and leaves the tabs alone, with no membership check |
| `Tabs.ActivateKeepsInvIff` | src/store/useTerminalStore.ts:72 | activation keeps the invariant exactly when the id names a tab |
| `Tabs.UpdateTitle` | src/store/useTerminalStore.ts:73-84 | `updateTabTitle` sets the matching tabs' `title` to the shell title of the text; their custom titles, the other tabs, the ids, the length and the active id do not change |
| `Tabs.UpdateTitleKeepsInv` | src/store/useTerminalStore.ts:73-84 | a title update keeps the invariant |
| `Tabs.SetCustomTitle` | src/store/useTerminalStore.ts:85-93 | `setCustomTabTitle` stores the trimmed text, the empty string included, as the matching tabs' custom title; their shell titles and every other tab stay as they were |
| `Tabs.SetCustomTitleKeepsInv` | src/store/useTerminalStore.ts:85-93 | a rename keeps the invariant |
| `Tabs.Moved` | src/store/useTerminalStore.ts:96-98 | the two splices keep the length and the multiset of elements, and put the old element `from` at position `to` |
| `Tabs.MovedAt` | src/store/useTerminalStore.ts:96-98 | each position of the moved list holds the element from a computed old position |
| `Tabs.MovedSourceInjective` | src/store/useTerminalStore.ts:96-98 | distinct positions come from distinct old positions, so the move is a rearrangement |
| `Tabs.MovedShifts` | src/store/useTerminalStore.ts:96-98 | elements outside the span between the indices stay put; those inside shift one place towards the vacated slot |
| `Tabs.MovedBack` | src/store/useTerminalStore.ts:96-98 | moving from `j` back to `i` after moving from `i` to `j` restores the list |
| `Tabs.Reorder` | src/store/useTerminalStore.ts:94-100 | `reorderTabs` keeps the length and the multiset of tabs, puts the old tab `from` at `to`, and never changes the active id |
| `Tabs.ReorderKeepsInv` | src/store/useTerminalStore.ts:94-100 | reordering keeps the invariant |
| `Tabs.ReorderBack` | src/store/useTerminalStore.ts:94-100 | `reorderTabs(j, i)` after `reorderTabs(i, j)` restores the original state |
| `TerminalStore.RemoveAt` | src/store/useTerminalStore.ts:97 | removing one element in place at `from` shifts the later elements left, returns the removed element, and leaves the list without it |
| `TerminalStore.InsertAt` | src/store/useTerminalStore.ts:98 | inserting in place at `to` shifts the elements from `to` on one place right and puts the element at `to` |
| `TerminalStore.TerminalStore.constructor` | src/store/useTerminalStore.ts:23-24 | the store starts in the start-up state, which satisfies the invariant |
| `TerminalStore.TerminalStore.AddTab` | src/store/useTerminalStore.ts:25-32 | the new state is `Add` of the old; with a fresh id the invariant is kept |
| `TerminalStore.TerminalStore.RemoveTab` | src/store/useTerminalStore.ts:33-53 | the new state is `Remove` of the old; the invariant is kept |
| `TerminalStore.TerminalStore.RemoveAllTabs` | src/store/useTerminalStore.ts:54-62 | the new state is one fresh active tab, which satisfies the invariant |
| `TerminalStore.TerminalStore.RemoveOtherTabs` | src/store/useTerminalStore.ts:63-71 | the new state is `RemoveOthers` of the old; the invariant is kept |
| `TerminalStore.TerminalStore.SetActiveTabId` | src/store/useTerminalStore.ts:72 | only the active id changes; the invariant survives exactly when the id names a tab |
| `TerminalStore.TerminalStore.UpdateTabTitle` | src/store/useTerminalStore.ts:73-84 | the new state is `UpdateTitle` of the old; the invariant is kept |
| `TerminalStore.TerminalStore.SetCustomTabTitle` | src/store/useTerminalStore.ts:85-93 | the new state is `SetCustomTitle` of the old; the invariant is kept |
| `TerminalStore.TerminalStore.ReorderTabs` | src/store/useTerminalStore.ts:94-100 | copying the tabs into an array and splicing it twice in place yields `Reorder` of the old state; the invariant is kept |
| `TerminalLayout.TerminalLayout.constructor` | src/components/TerminalLayout.tsx:27-30 | the component starts with one 'start-session' tab titled 'PowerShell', active |
| `TerminalLayout.TerminalLayout.HandleNewTab` | src/components/TerminalLayout.tsx:32-36 | appends one 'PowerShell' tab with the new id and activates it, which is the store's `addTab`; the active id always names a tab afterwards, and ids stay unique when the new id was not in use |
| `TerminalLayout.TerminalLayout.HandleCloseTab` | src/components/TerminalLayout.tsx:38-53 | produces the store's `removeTab` result: closing the only tab leaves one fresh active tab; otherwise the remaining tabs keep their order, and the active id moves to the last tab only if the closed tab was active |
| `TerminalLayout.TerminalLayout.HandleTitleChange` | src/components/TerminalLayout.tsx:55-68 | its loop computes the store's `updateTabTitle` result: only the matching tabs get the trimmed title, or 'PowerShell'; length and order are kept |
| `TerminalLayout.ReplayKeepsActivePresent` | src/components/TerminalLayout.tsx:27-68 | from a state whose active id names a tab, any sequence of new, close and title-change events keeps the list non-empty and the active id naming a tab |
| `TerminalLayout.InitialReplayKeepsActivePresent` | src/components/TerminalLayout.tsx:27-53 | the same holds from the component's initial state |
| `LayoutStore.LayoutStore.constructor` | src/store/useLayoutStore.ts:20-23 | header and layout both start at 0×0, the sidebar open and the shortcuts modal closed |
| `LayoutStore.LayoutStore.SetHeaderSize` | src/store/useLayoutStore.ts:24 | replaces `header` and no other field |
| `LayoutStore.LayoutStore.SetLayoutSize` | src/store/useLayoutStore.ts:25 | replaces `layout` and no other field |
| `LayoutStore.LayoutStore.ToggleSidebar` | src/store/useLayoutStore.ts:26 | flips `isSidebarOpen` and no other field |
| `LayoutStore.LayoutStore.ToggleShortcutsModal` | src/store/useLayoutStore.ts:27-28 | flips `isShortcutsModalOpen` and no other field |
| `LayoutStore.TogglesAreInvolutions` | src/store/useLayoutStore.ts:26-28 | toggling each flag twice leaves the store unchanged |
| `Shortcuts.Dispatch` | src/hooks/use-layout-shortcuts.ts:11-80 | at most one action per key-down, and none unless ctrl or meta is held. B toggles the sidebar and N adds a tab, with or without shift. Q removes the active tab, and Shift+Q removes all tabs. Shift+O closes the other tabs; O alone does nothing. Shift+/ or Shift+? toggles the shortcuts modal. Shift+G writes "antigravity .\r" to the active session. Shift+F toggles fullscreen |
| `Shortcuts.DispatchIgnoresCase` | src/hooks/use-layout-shortcuts.ts:13 | an event dispatches exactly as its lower-cased key does, so keys compare case-insensitively |
| `SearchWidget.KeyRequest` | src/components/SearchWidget.tsx:22-36 | Escape requests only a close; Enter requests find-previous with shift held, otherwise find-next, both with the current query and flag; every other key, Ctrl/Meta+F included, requests nothing |
| `SearchWidget.SearchWidget.constructor` | src/components/SearchWidget.tsx:14-15 | the query starts empty and whole-word matching off, with no requests made |
| `SearchWidget.SearchWidget.HandleChange` | src/components/SearchWidget.tsx:38-45 | the query becomes the value, and find-next with the current flag is requested exactly when the value is non-empty |
| `SearchWidget.SearchWidget.HandleKeyDown` | src/components/SearchWidget.tsx:22-36 | appends exactly the request `KeyRequest` gives for the key and the current query and flag |
| `SearchWidget.SearchWidget.ToggleWholeWord` | src/components/SearchWidget.tsx:66-72 | flips the flag, and requests find-next with the new flag exactly when the query is non-empty |
| `SearchWidget.DialHour` | src/components/SearchWidget.tsx:52-56 | the displayed hour is in 1..12 and agrees with the hour modulo 12, so 0 shows as 12 |
| `SearchWidget.Suffix` | src/components/SearchWidget.tsx:54 | the suffix is 'PM' exactly when the hour is at least 12, and 'AM' otherwise |
| `SearchWidget.MinuteText` | src/components/SearchWidget.tsx:57 | for 0..59 the minute field is two digits that read back as the minutes |
| `SearchWidget.FormatTime` | src/components/SearchWidget.tsx:50-58 | the clock text is the dial hour in digits, ':', the two-digit minutes, a space and the AM/PM suffix of the hour, so midnight shows as 12; it is 7 characters for dial hours 1 to 9 and 8 for 10 to 12 |
| `SearchWidget.ParseFormatTime` | src/components/SearchWidget.tsx:50-58 | the clock text determines the time: reading it back gives the original hours (0..23) and minutes |
| `TerminalSession.Intercepted` | src/components/Terminal.tsx:162-177 | an event is kept from the PTY exactly when it is a key-down with ctrl or meta on 'f' or 'b', in either case; 'f' is the search chord |
| `TerminalSession.Deliver` | src/components/Terminal.tsx:129-136 | a string payload is written as it is; an object with non-empty `data` writes that data; any other object writes nothing; a null payload fails on the property read |
| `TerminalSession.InitEffects` | src/components/Terminal.tsx:49-178 | the initialisation first creates the terminal and loads its add-ons; it opens the terminal on the element exactly when there is one; a completed run ends by attaching the key handler; an aborted run attaches no key handler and no input listener |
| `TerminalSession.InitSpawnsOnce` | src/components/Terminal.tsx:98-145 | initialisation makes exactly one spawn call. The one exception is an initial fit that throws: then it makes no spawn call and registers no output listener |
| `TerminalSession.InitListensBeforeSpawn` | src/components/Terminal.tsx:129-145 | the output listener is registered before the spawn call, which carries the terminal's current grid |
| `TerminalSession.InitSpawnOutcome` | src/components/Terminal.tsx:139-159 | a failed spawn writes "\r\nFailed to start PTY: <error>\r\n" and never arms the deferred ligature listeners; a successful one arms them |
| `TerminalSession.TeardownEffects` | src/components/Terminal.tsx:182-189 | cleanup first disconnects the observer. It calls unlisten only if a handle was obtained, and disposes only if a terminal was stored. It always ends with `pty_kill` |
| `TerminalSession.TerminalView.constructor` | src/components/Terminal.tsx:23-33 | a new view is mounted with no terminal, no add-ons, no listeners, the search panel closed and an empty trace |
| `TerminalSession.TerminalView.Init` | src/components/Terminal.tsx:49-178 | on a mounted view, the calls made are exactly `InitEffects`. Unless the fit aborted, the terminal, the listeners and the key handler end up set and the grid is the spawn grid. When the fit aborts, no terminal, listener, handler or observer is set beyond what was set before, and the grid is the default one. An unmounted view changes nothing |
| `TerminalSession.TerminalView.BuildTerminal` | src/components/Terminal.tsx:67-96 | a terminal on the default grid is created and its four add-ons loaded, in that order |
| `TerminalSession.TerminalView.AttachToContainer` | src/components/Terminal.tsx:98-117 | with an element, the terminal is opened and fitted; a throwing fit abandons the rest, leaving the observer and the grid as they were; otherwise the observer and the title listener are registered and the grid is the fitted one |
| `TerminalSession.TerminalView.WireAndSpawn` | src/components/Terminal.tsx:119-177 | after attaching: input forwarding, then the output listener, then the spawn call with the current grid and what follows it; the terminal, both listeners and the key handler end up set |
| `TerminalSession.TerminalView.InputBeforeSpawn` | src/components/Terminal.tsx:119-145 | input typed after the input listener is wired but before the spawn call reaches `pty_write` ahead of `pty_spawn` |
| `TerminalSession.TerminalView.WireListeners` | src/components/Terminal.tsx:119-136 | the terminal is stored, then typed input is forwarded, then the output listener is registered |
| `TerminalSession.TerminalView.SpawnShell` | src/components/Terminal.tsx:138-177 | the spawn call with the current grid, then the ligature listeners or the inline error, then the key handler, which is then active |
| `TerminalSession.TerminalView.Teardown` | src/components/Terminal.tsx:182-189 | marks the view unmounted, then makes exactly the `TeardownEffects` calls; afterwards neither the observer nor the output listener is active, and once a stored terminal is disposed, neither is its input forwarding nor its key handler |
| `TerminalSession.TerminalView.OnResize` | src/components/Terminal.tsx:36-47 | once both refs are set, each observation calls `fit()`; when the fit succeeds, one `pty_resize` with the current grid follows, even if that grid is unchanged; a throwing fit sends nothing |
| `TerminalSession.TerminalView.OnOutput` | src/components/Terminal.tsx:129-136 | while the listener is registered, a payload that `Deliver` writes is written; otherwise nothing happens |
| `TerminalSession.TerminalView.OnInput` | src/components/Terminal.tsx:122-124 | while forwarding is on (from wiring until the terminal is disposed), typed data goes to `pty_write` unmodified |
| `TerminalSession.TerminalView.OnKey` | src/components/Terminal.tsx:162-177 | while the handler is attached, input is passed on exactly when `Intercepted` gives no chord. The search chord toggles the search panel, and the sidebar chord toggles the layout store's sidebar. Without a handler, every event is passed on and nothing changes |
| `TerminalSession.TerminalView.CloseSearch` | src/components/Terminal.tsx:222-227 | closes the panel, clears the match highlights and then the active highlight, and refocuses the terminal |
| `TerminalSession.TerminalView.FindNext` | src/components/Terminal.tsx:192-203 | forwards a find-next with the query, the whole-word flag and `incremental` set to the search add-on |
| `TerminalSession.TerminalView.FindPrevious` | src/components/Terminal.tsx:205-215 | forwards a find-previous with the query and whole-word flag to the search add-on |
| `TerminalSession.LateOutputIsDropped` | src/components/Terminal.tsx:182-189 | after unmounting, a late output event writes nothing: the trace holds only the cleanup calls |
| `TerminalSession.LateInputIsDropped` | src/components/Terminal.tsx:122-124 | after any view is unmounted, typing sends nothing: the last call is `pty_kill`, and no key is intercepted any more |

## Left out

- `Tabs.Reorder`: requires both indices to be naturals within the list, so three source behaviours are not modelled. An `oldIndex` at or past the end makes `splice(oldIndex, 1)` return nothing, so `undefined` is inserted. A `newIndex` past the end moves the tab to the end, because `splice` clamps its start. A negative index counts from the end, so an `oldIndex` of -1 moves the last tab.
- `TerminalStore.TerminalStore.ReorderTabs`: requires both indices in range, so it leaves out the same three behaviours as `Tabs.Reorder`.
- `Date.now()` is not modelled: tab ids are parameters, and a colliding id is allowed. The uniqueness of ids is promised only when the new id is not in use.
- `Text.Lower`: only ASCII letters are lower-cased. The keys the handlers compare are ASCII letters and punctuation, and no other character lower-cases to one of them.
- `TerminalSession.Deliver`: a payload's `data` is modelled as a string. Other truthy values the source would pass to `term.write` (numbers, objects) are not modelled.
- `TerminalSession.TerminalView.Teardown`: a step that throws would skip the steps after it. Exceptions inside the cleanup calls are not modelled.
- `TerminalSession.TerminalView.Init`: only the initial fit may throw. A rejected `listen`, or an `open` that throws, is not modelled.
- `TerminalSession.TerminalView.Init`: the spawn call always settles, since `Outcome` is only `Pass` or `Fail`. A `pty_spawn` that never settles would leave the key handler unattached and the ligature listeners unarmed, and that case is not modelled.
- Object construction and logging are not recorded in the trace: the `ResizeObserver` at src/components/Terminal.tsx:36, the five add-on constructors at :84-88 (the ligature add-on among them), `console.warn` at :44 and :62, and the `.catch(console.error)` on `pty_kill` at :188.
- The PTY host (src-tauri/src/lib.rs): its reader threads and mutex-guarded session maps are I/O and concurrency.
- The early return at src/components/Terminal.tsx:30: when the view's element is missing as the effect runs, there is no observer, no initialisation and no cleanup, so no `pty_kill` is sent. `hasContainer` models only the later check at src/components/Terminal.tsx:98.
- The search decorations' colours passed to `findNext`/`findPrevious`.
- The interleaving of the asynchronous initialisation with unmounting. Init and teardown are modelled as sequential runs; the `isMounted` check after the font step is kept.
- The interleaving of the initialisation with input and resize events: `Init` runs in one step. While it waits on `listen` (src/components/Terminal.tsx:129) or on `pty_spawn` (:141), typed input or a resize can already reach `pty_write` or `pty_resize`. The host ignores them for an id it does not know yet, so that input is lost. `TerminalSession.TerminalView.InputBeforeSpawn` shows the input case only.
- Font loading through `document.fonts`/`FontFace`. The one-shot ligature listener is modelled only as its registration; its firing and self-removal are host events.
- The terminal library's add-ons are modelled as recorded calls: search matching and whole-word semantics, fit grid computation, clipboard, web links.
- Forwarding of terminal title changes to the layout: only the listener's registration is recorded.
- `preventDefault`/`stopPropagation` on handled keys, and focusing the search input.
- Fullscreen toggling: only the decision that Ctrl+Shift+F fires it is modelled; the window call itself is asynchronous host code.
- The one-second clock tick and `new Date()`: hours and minutes are inputs.
- React rendering and re-render timing, store subscriptions, the sidebar drag, element-size observation and the CSS size strings.
- Sidebar, title bar, shortcuts modal and app shell: presentation only.
- The layout component's own `setActiveTabId` (src/components/TerminalLayout.tsx:30, passed down at :79 and called from the sidebar on a tab click) is not one of its modelled events. It sets the active id as the store's `setActiveTabId` does, and `Tabs.ActivateKeepsInvIff` states when that keeps the invariant.
