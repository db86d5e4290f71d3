/** One terminal view bound to one PTY session. The terminal surface, its
    add-ons and the PTY bridge are foreign code here: the calls the view makes
    on them are recorded, in order, as `Effect`s in a trace, except object
    construction, logging and the deferred load of the ligature add-on. What
    those calls return (the fitted grid, whether the spawn succeeds) comes in
    as parameters. */
module TerminalSession {
  import opened Wrappers
  import opened Text
  import opened LayoutStore

  datatype Addon = FitAddon | ClipboardAddon | WebLinksAddon | SearchAddon

  /** The calls the view makes on the terminal surface, its add-ons, the host window and the PTY bridge. */
  datatype Effect =
    | CreateTerminal
    | LoadAddon(addon: Addon)
    | OpenTerminal
    | FitTerminal
    | ObserveResize
    | ListenTitle
    | ListenInput
    | ListenOutput(event: string)
    | PtySpawn(id: string, cols: nat, rows: nat)
    /** The two one-shot window listeners, for 'click' and 'keydown', that load the ligature add-on. */
    | ListenFirstInteraction
    | WriteTerminal(text: string)
    | AttachKeyHandler
    | DisconnectObserver
    | Unlisten
    | DisposeTerminal
    | PtyKill(id: string)
    | PtyResize(id: string, cols: nat, rows: nat)
    | PtyWrite(id: string, data: string)
    | ClearDecorations
    | ClearActiveDecoration
    | FocusTerminal
    | SearchNext(term: string, wholeWord: bool, incremental: bool)
    | SearchPrevious(term: string, wholeWord: bool)

  /** What a call to the fit add-on does: it sets a new grid, leaves the grid as it was, or throws. */
  datatype FitOutcome = Resized(cols: nat, rows: nat) | Kept | Threw

  /** The grid a new terminal has before any fit: the terminal library's default of 80 by 24. */
  const DefaultCols: nat := 80
  const DefaultRows: nat := 24

  /** The event name on which the bridge delivers this session's output. */
  function OutputEvent(id: string): string
  {
    "term-data:" + id
  }

  function SpawnFailureText(error: string): string
  {
    "\r\nFailed to start PTY: " + error + "\r\n"
  }

  // The custom key handler.

  datatype TermKey = TermKey(eventType: string, key: string, ctrlKey: bool, metaKey: bool)

  /** The two chords the view keeps for itself. */
  datatype Chord = SearchChord | SidebarChord

  /** The chord an event is, if any: a key-down with ctrl or meta on 'f' or 'b', in either case. */
  function Intercepted(e: TermKey): (r: Option<Chord>)
    ensures r.Some? <==> e.eventType == "keydown" && (e.ctrlKey || e.metaKey) && (Lower(e.key) == "f" || Lower(e.key) == "b")
    ensures r == Some(SearchChord) <==> e.eventType == "keydown" && (e.ctrlKey || e.metaKey) && Lower(e.key) == "f"
  {
    if e.eventType == "keydown" && (e.ctrlKey || e.metaKey) then
      if Lower(e.key) == "f" then Some(SearchChord)
      else if Lower(e.key) == "b" then Some(SidebarChord)
      else None
    else None
  }

  // Output delivery.

  /** An output event's payload: a string, an object with or without a `data` field, or null. */
  datatype Payload = Str(text: string) | Record(data: Option<string>) | Null

  /** What the output listener does with a payload. */
  datatype Delivery = Write(text: string) | Skip | TypeError

  /** A string is written as it is, an object's non-empty `data` is written,
      any other object writes nothing, and null fails on the property read. */
  function Deliver(p: Payload): (d: Delivery)
    ensures p.Str? ==> d == Write(p.text)
    ensures d.Write? && !p.Str? ==> p.Record? && p.data == Some(d.text) && d.text != []
    ensures p.Record? && p.data.Some? && p.data.value != [] ==> d == Write(p.data.value)
    ensures d == TypeError <==> p.Null?
  {
    match p
    case Str(t) => Write(t)
    case Record(data) =>
      if data.Some? && data.value != [] then Write(data.value) else Skip
    case Null => TypeError
  }

  // The effects of mounting and unmounting, as functions of what the foreign calls do.

  /** The initial fit throws, which abandons the rest of the initialisation. */
  predicate FitAborts(hasContainer: bool, fit: FitOutcome)
  {
    hasContainer && fit.Threw?
  }

  /** The calls of one run of the initialisation. `hasContainer` says whether the
      view's element exists when the terminal is built; `fit` is what the
      initial fit does; `spawn` is how the spawn call settles. */
  function InitEffects(id: string, hasContainer: bool, fit: FitOutcome, spawn: Outcome<string>): (r: seq<Effect>)
    ensures |r| >= 5 && r[..5] == BuildEffects()
    ensures !FitAborts(hasContainer, fit) ==> r[|r| - 1] == AttachKeyHandler
    ensures FitAborts(hasContainer, fit) ==> AttachKeyHandler !in r && ListenInput !in r
    ensures OpenTerminal in r <==> hasContainer
  {
    if FitAborts(hasContainer, fit) then
      BuildEffects() + [OpenTerminal, FitTerminal]
    else
      var grid := SpawnGrid(hasContainer, fit);
      BeforeSpawn(id, hasContainer) + [PtySpawn(id, grid.0, grid.1)] + AfterSpawn(spawn)
  }

  function BuildEffects(): seq<Effect>
  {
    [CreateTerminal, LoadAddon(FitAddon), LoadAddon(ClipboardAddon), LoadAddon(WebLinksAddon), LoadAddon(SearchAddon)]
  }

  /** Building, attaching to the element, and the input and output listeners. */
  function BeforeSpawn(id: string, hasContainer: bool): seq<Effect>
  {
    BuildEffects()
    + (if hasContainer then [OpenTerminal, FitTerminal, ObserveResize, ListenTitle] else [])
    + [ListenInput, ListenOutput(OutputEvent(id))]
  }

  /** After the spawn call settles: the one-shot interaction listener on success, the
      inline error on failure; then the key handler. */
  function AfterSpawn(spawn: Outcome<string>): seq<Effect>
  {
    match spawn
    case Pass => [ListenFirstInteraction, AttachKeyHandler]
    case Fail(err) => [WriteTerminal(SpawnFailureText(err)), AttachKeyHandler]
  }

  predicate NoSpawn(s: seq<Effect>)
  {
    forall k :: 0 <= k < |s| ==> !s[k].PtySpawn?
  }

  /** The initialisation makes exactly one spawn call, unless the initial fit throws,
      in which case it makes none and registers no output listener either. */
  lemma InitSpawnsOnce(id: string, hasContainer: bool, fit: FitOutcome, spawn: Outcome<string>)
    ensures var r := InitEffects(id, hasContainer, fit, spawn);
      FitAborts(hasContainer, fit) ==> NoSpawn(r) && ListenOutput(OutputEvent(id)) !in r
    ensures var r := InitEffects(id, hasContainer, fit, spawn);
      !FitAborts(hasContainer, fit) ==>
        exists k :: 0 <= k < |r| && r[k] == PtySpawn(id, SpawnGrid(hasContainer, fit).0, SpawnGrid(hasContainer, fit).1)
                    && NoSpawn(r[..k]) && NoSpawn(r[k + 1..])
  {
    var r := InitEffects(id, hasContainer, fit, spawn);
    if !FitAborts(hasContainer, fit) {
      var pre := BeforeSpawn(id, hasContainer);
      var post := AfterSpawn(spawn);
      var grid := SpawnGrid(hasContainer, fit);
      var k := |pre|;
      assert r == pre + [PtySpawn(id, grid.0, grid.1)] + post;
      assert r[..k] == pre && NoSpawn(pre);
      assert r[k + 1..] == post && NoSpawn(post);
    } else {
      assert r == BuildEffects() + [OpenTerminal, FitTerminal];
    }
  }

  /** The output listener is registered before the spawn call, and the spawn
      call carries the grid the terminal has at that moment. */
  lemma InitListensBeforeSpawn(id: string, hasContainer: bool, fit: FitOutcome, spawn: Outcome<string>)
    ensures var r := InitEffects(id, hasContainer, fit, spawn);
      forall k :: 0 <= k < |r| && r[k].PtySpawn? ==>
        ListenOutput(OutputEvent(id)) in r[..k]
        && r[k] == PtySpawn(id, SpawnGrid(hasContainer, fit).0, SpawnGrid(hasContainer, fit).1)
  {
    var r := InitEffects(id, hasContainer, fit, spawn);
    if !FitAborts(hasContainer, fit) {
      var pre := BeforeSpawn(id, hasContainer);
      forall k | 0 <= k < |r| && r[k].PtySpawn?
        ensures ListenOutput(OutputEvent(id)) in r[..k]
        ensures r[k] == PtySpawn(id, SpawnGrid(hasContainer, fit).0, SpawnGrid(hasContainer, fit).1)
      {
        assert k == |pre|;
        assert r[..k] == pre;
        assert pre[|pre| - 1] == ListenOutput(OutputEvent(id));
      }
    }
  }

  /** A failed spawn is reported inline and never arms the deferred interaction
      listener; a successful one arms it. */
  lemma InitSpawnOutcome(id: string, hasContainer: bool, fit: FitOutcome, spawn: Outcome<string>)
    requires !FitAborts(hasContainer, fit)
    ensures var r := InitEffects(id, hasContainer, fit, spawn);
      (spawn.Fail? ==> WriteTerminal(SpawnFailureText(spawn.error)) in r && ListenFirstInteraction !in r)
      && (spawn.Pass? ==> ListenFirstInteraction in r)
  {
    var r := InitEffects(id, hasContainer, fit, spawn);
    var pre := BeforeSpawn(id, hasContainer);
    var k := |pre|;
    assert r[k + 1..] == AfterSpawn(spawn);
    assert r[k + 1] == AfterSpawn(spawn)[0];
  }

  /** The grid the spawn call carries: the fitted one, or the default when nothing was fitted. */
  function SpawnGrid(hasContainer: bool, fit: FitOutcome): (nat, nat)
  {
    if hasContainer && fit.Resized? then (fit.cols, fit.rows) else (DefaultCols, DefaultRows)
  }

  /** The calls of the cleanup: disconnect, unlisten when a handle was obtained,
      dispose when a terminal was stored, then kill, which is always sent. */
  function TeardownEffects(id: string, hasUnlisten: bool, hasTerminal: bool): (r: seq<Effect>)
    ensures r != [] && r[0] == DisconnectObserver && r[|r| - 1] == PtyKill(id)
    ensures Unlisten in r <==> hasUnlisten
    ensures DisposeTerminal in r <==> hasTerminal
    ensures hasUnlisten && hasTerminal ==> r == [DisconnectObserver, Unlisten, DisposeTerminal, PtyKill(id)]
  {
    [DisconnectObserver]
    + (if hasUnlisten then [Unlisten] else [])
    + (if hasTerminal then [DisposeTerminal] else [])
    + [PtyKill(id)]
  }

  class TerminalView {
    const sessionId: string
    /** The view's element is there when the terminal is built. */
    const hasContainer: bool
    var isMounted: bool
    /** `xtermRef`, `fitAddonRef` and `searchAddonRef` are set. */
    var hasTerminal: bool
    var hasFitAddon: bool
    var hasSearchAddon: bool
    /** The `unlisten` handle was obtained, and whether the output listener is still registered. */
    var hasUnlisten: bool
    var listening: bool
    var observing: bool
    var forwardsInput: bool
    /** The custom key handler is attached to a live terminal. */
    var handlesKeys: bool
    /** The terminal's current grid. */
    var cols: nat
    var rows: nat
    var isSearchOpen: bool
    /** Every call made so far, oldest first. */
    var trace: seq<Effect>

    predicate Valid()
      reads this
    {
      (listening ==> hasUnlisten) && (hasFitAddon <==> hasSearchAddon)
      && (forwardsInput || handlesKeys ==> hasTerminal)
    }

    constructor (sessionId: string, hasContainer: bool)
      ensures this.sessionId == sessionId && this.hasContainer == hasContainer && Valid()
      ensures isMounted && !hasTerminal && !hasFitAddon && !hasSearchAddon
      ensures !hasUnlisten && !listening && !observing && !forwardsInput && !handlesKeys && !isSearchOpen
      ensures cols == DefaultCols && rows == DefaultRows && trace == []
    {
      this.sessionId := sessionId;
      this.hasContainer := hasContainer;
      isMounted := true;
      hasTerminal, hasFitAddon, hasSearchAddon := false, false, false;
      hasUnlisten, listening, observing, forwardsInput := false, false, false, false;
      handlesKeys := false;
      cols, rows := DefaultCols, DefaultRows;
      isSearchOpen := false;
      trace := [];
    }

    /** The initialisation, run to completion after the font step. If the view
        was unmounted in the meantime it stops there; if the initial fit throws,
        the rest of it is abandoned. */
    method Init(fit: FitOutcome, spawn: Outcome<string>)
      requires Valid()
      modifies this`hasTerminal, this`hasFitAddon, this`hasSearchAddon, this`hasUnlisten, this`listening
      modifies this`observing, this`forwardsInput, this`handlesKeys, this`cols, this`rows, this`trace
      ensures Valid()
      ensures !isMounted ==> unchanged(this)
      ensures isMounted ==> trace == old(trace) + InitEffects(sessionId, hasContainer, fit, spawn)
      ensures isMounted ==> hasFitAddon && hasSearchAddon
      ensures isMounted && !FitAborts(hasContainer, fit) ==>
        hasTerminal && hasUnlisten && listening && forwardsInput && handlesKeys && (cols, rows) == SpawnGrid(hasContainer, fit)
        && observing == (old(observing) || hasContainer)
      ensures isMounted && FitAborts(hasContainer, fit) ==>
        hasTerminal == old(hasTerminal) && hasUnlisten == old(hasUnlisten) && listening == old(listening)
        && forwardsInput == old(forwardsInput) && handlesKeys == old(handlesKeys) && observing == old(observing)
        && (cols, rows) == (DefaultCols, DefaultRows)
    {
      if !isMounted {
        return;
      }
      BuildTerminal();
      var aborted := AttachToContainer(fit);
      if aborted {
        assert trace == old(trace) + (BuildEffects() + [OpenTerminal, FitTerminal]);
        return;
      }
      ghost var attached := trace;
      var grid := SpawnGrid(hasContainer, fit);
      assert (cols, rows) == grid;
      WireAndSpawn(spawn);
      assert attached == old(trace) + BuildEffects()
        + (if hasContainer then [OpenTerminal, FitTerminal, ObserveResize, ListenTitle] else []);
      assert trace == old(trace) + (BeforeSpawn(sessionId, hasContainer) + [PtySpawn(sessionId, grid.0, grid.1)] + AfterSpawn(spawn));
    }

    /** Steps 2 and 3: a new terminal on the default grid, with its add-ons loaded. */
    method BuildTerminal()
      modifies this`hasFitAddon, this`hasSearchAddon, this`cols, this`rows, this`trace
      ensures hasFitAddon && hasSearchAddon && (cols, rows) == (DefaultCols, DefaultRows)
      ensures trace == old(trace) + BuildEffects()
    {
      trace := trace + [CreateTerminal];
      cols, rows := DefaultCols, DefaultRows;
      hasFitAddon, hasSearchAddon := true, true;
      trace := trace + [LoadAddon(FitAddon), LoadAddon(ClipboardAddon), LoadAddon(WebLinksAddon), LoadAddon(SearchAddon)];
    }

    /** When the element is there: open on it, fit (a throw abandons the initialisation),
        start observing its size and listen for title changes. */
    method AttachToContainer(fit: FitOutcome) returns (aborted: bool)
      modifies this`observing, this`cols, this`rows, this`trace
      ensures aborted == FitAborts(hasContainer, fit)
      ensures !hasContainer ==> unchanged(this)
      ensures hasContainer ==> trace == old(trace) + [OpenTerminal, FitTerminal] + (if aborted then [] else [ObserveResize, ListenTitle])
      ensures !aborted ==> observing == (old(observing) || hasContainer)
      ensures aborted ==> observing == old(observing) && cols == old(cols) && rows == old(rows)
      ensures !aborted ==> (cols, rows) == (if hasContainer && fit.Resized? then (fit.cols, fit.rows) else (old(cols), old(rows)))
    {
      aborted := false;
      if hasContainer {
        trace := trace + [OpenTerminal, FitTerminal];
        match fit {
          case Threw =>
            return true;
          case Resized(c, r) =>
            cols, rows := c, r;
          case Kept =>
        }
        trace := trace + [ObserveResize];
        observing := true;
        trace := trace + [ListenTitle];
      }
    }

    /** Steps 4 to 6, once the terminal is attached. */
    method WireAndSpawn(spawn: Outcome<string>)
      modifies this`hasTerminal, this`forwardsInput, this`hasUnlisten, this`listening, this`handlesKeys, this`trace
      ensures hasTerminal && forwardsInput && hasUnlisten && listening && handlesKeys
      ensures trace == old(trace) + [ListenInput, ListenOutput(OutputEvent(sessionId)), PtySpawn(sessionId, cols, rows)] + AfterSpawn(spawn)
    {
      WireListeners();
      SpawnShell(spawn);
    }

    /** Input typed while the initialisation waits on `listen` or on the spawn
        call reaches `pty_write` before `pty_spawn`, for a session the host does
        not know yet. */
    method InputBeforeSpawn(data: string, spawn: Outcome<string>)
      modifies this`hasTerminal, this`forwardsInput, this`hasUnlisten, this`listening, this`handlesKeys, this`trace
      ensures trace == old(trace)
        + [ListenInput, ListenOutput(OutputEvent(sessionId)), PtyWrite(sessionId, data), PtySpawn(sessionId, cols, rows)]
        + AfterSpawn(spawn)
    {
      WireListeners();
      OnInput(data);
      SpawnShell(spawn);
    }

    /** Steps 4 and 5: store the terminal, forward typed input, and await the output listener. */
    method WireListeners()
      modifies this`hasTerminal, this`forwardsInput, this`hasUnlisten, this`listening, this`trace
      ensures hasTerminal && forwardsInput && hasUnlisten && listening
      ensures trace == old(trace) + [ListenInput, ListenOutput(OutputEvent(sessionId))]
    {
      hasTerminal := true;
      trace := trace + [ListenInput];
      forwardsInput := true;
      trace := trace + [ListenOutput(OutputEvent(sessionId))];
      hasUnlisten, listening := true, true;
    }

    /** Step 6: spawn with the current grid; on success arm the deferred interaction
        listener, on failure write the error inline; then attach the key handler. */
    method SpawnShell(spawn: Outcome<string>)
      modifies this`handlesKeys, this`trace
      ensures trace == old(trace) + [PtySpawn(sessionId, cols, rows)] + AfterSpawn(spawn)
      ensures handlesKeys
    {
      trace := trace + [PtySpawn(sessionId, cols, rows)];
      match spawn {
        case Pass =>
          trace := trace + [ListenFirstInteraction];
        case Fail(err) =>
          trace := trace + [WriteTerminal(SpawnFailureText(err))];
      }
      trace := trace + [AttachKeyHandler];
      handlesKeys := true;
    }

    /** The cleanup on unmount, step after step with no guard between them.
        Disposing the stored terminal also ends its input subscription and its
        key handler; the ref itself is not cleared. */
    method Teardown()
      requires Valid()
      modifies this`isMounted, this`observing, this`listening, this`forwardsInput, this`handlesKeys, this`trace
      ensures Valid() && !isMounted && !observing && !listening
      ensures trace == old(trace) + TeardownEffects(sessionId, hasUnlisten, hasTerminal)
      ensures forwardsInput == (old(forwardsInput) && !hasTerminal)
      ensures handlesKeys == (old(handlesKeys) && !hasTerminal)
    {
      isMounted := false;
      trace := trace + [DisconnectObserver];
      observing := false;
      if hasUnlisten {
        trace := trace + [Unlisten];
        listening := false;
      }
      if hasTerminal {
        trace := trace + [DisposeTerminal];
        forwardsInput, handlesKeys := false, false;
      }
      trace := trace + [PtyKill(sessionId)];
    }

    /** A resize observation: when both refs are set, fit and send the grid to
        the PTY, with no comparison against the last grid sent; a throwing fit
        is swallowed. */
    method OnResize(fit: FitOutcome)
      modifies this`cols, this`rows, this`trace
      ensures observing && hasFitAddon && hasTerminal ==>
        (cols, rows) == (if fit.Resized? then (fit.cols, fit.rows) else (old(cols), old(rows)))
        && trace == old(trace) + [FitTerminal] + (if fit.Threw? then [] else [PtyResize(sessionId, cols, rows)])
      ensures !(observing && hasFitAddon && hasTerminal) ==> unchanged(this)
    {
      if observing && hasFitAddon && hasTerminal {
        trace := trace + [FitTerminal];
        match fit {
          case Threw =>
          case Resized(c, r) =>
            cols, rows := c, r;
            trace := trace + [PtyResize(sessionId, cols, rows)];
          case Kept =>
            trace := trace + [PtyResize(sessionId, cols, rows)];
        }
      }
    }

    /** An output event for this session: written to the terminal only while the listener is registered. */
    method OnOutput(p: Payload)
      modifies this`trace
      ensures listening && Deliver(p).Write? ==> trace == old(trace) + [WriteTerminal(Deliver(p).text)]
      ensures !(listening && Deliver(p).Write?) ==> trace == old(trace)
    {
      if listening {
        match Deliver(p) {
          case Write(t) => trace := trace + [WriteTerminal(t)];
          case Skip =>
          case TypeError =>
        }
      }
    }

    /** Typed input goes to the PTY unmodified. */
    method OnInput(data: string)
      modifies this`trace
      ensures trace == old(trace) + (if forwardsInput then [PtyWrite(sessionId, data)] else [])
    {
      if forwardsInput {
        trace := trace + [PtyWrite(sessionId, data)];
      }
    }

    /** The custom key handler: the search chord toggles the panel, the sidebar
        chord toggles the layout store's sidebar; both are kept from the PTY.
        Every other event is passed on, and so is every event while no handler
        is attached. */
    method OnKey(e: TermKey, layout: LayoutStore) returns (passOn: bool)
      modifies this`isSearchOpen, layout`isSidebarOpen
      ensures passOn <==> !handlesKeys || Intercepted(e).None?
      ensures isSearchOpen == (if handlesKeys && Intercepted(e) == Some(SearchChord) then !old(isSearchOpen) else old(isSearchOpen))
      ensures layout.isSidebarOpen ==
        (if handlesKeys && Intercepted(e) == Some(SidebarChord) then !old(layout.isSidebarOpen) else old(layout.isSidebarOpen))
    {
      if !handlesKeys {
        return true;
      }
      if e.eventType == "keydown" && (e.ctrlKey || e.metaKey) {
        if Lower(e.key) == "f" {
          isSearchOpen := !isSearchOpen;
          return false;
        }
        if Lower(e.key) == "b" {
          layout.ToggleSidebar();
          return false;
        }
      }
      return true;
    }

    /** The panel's close request: hide it, clear both kinds of match highlight, refocus the terminal. */
    method CloseSearch()
      modifies this`isSearchOpen, this`trace
      ensures !isSearchOpen
      ensures trace == old(trace) + (if hasSearchAddon then [ClearDecorations, ClearActiveDecoration] else [])
        + (if hasTerminal then [FocusTerminal] else [])
    {
      isSearchOpen := false;
      if hasSearchAddon {
        trace := trace + [ClearDecorations, ClearActiveDecoration];
      }
      if hasTerminal {
        trace := trace + [FocusTerminal];
      }
    }

    /** Searching forward asks for an incremental search, so the match under the cursor may be kept. */
    method FindNext(term: string, wholeWord: bool)
      modifies this`trace
      ensures trace == old(trace) + (if hasSearchAddon then [SearchNext(term, wholeWord, true)] else [])
    {
      if hasSearchAddon {
        trace := trace + [SearchNext(term, wholeWord, true)];
      }
    }

    /** Searching backward passes no `incremental` option. */
    method FindPrevious(term: string, wholeWord: bool)
      modifies this`trace
      ensures trace == old(trace) + (if hasSearchAddon then [SearchPrevious(term, wholeWord)] else [])
    {
      if hasSearchAddon {
        trace := trace + [SearchPrevious(term, wholeWord)];
      }
    }
  }

  /** Once unmounted, a late output event for the session writes nothing. */
  method LateOutputIsDropped(view: TerminalView, p: Payload)
    requires view.Valid()
    modifies view
    ensures view.trace == old(view.trace) + TeardownEffects(view.sessionId, old(view.hasUnlisten), old(view.hasTerminal))
  {
    view.Teardown();
    view.OnOutput(p);
  }

  /** Once a view is unmounted, typing sends nothing
      to the PTY after `pty_kill`, and no key is intercepted any more. */
  method LateInputIsDropped(view: TerminalView, data: string, e: TermKey, layout: LayoutStore) returns (passOn: bool)
    requires view.Valid()
    modifies view, layout
    ensures view.trace == old(view.trace) + TeardownEffects(view.sessionId, old(view.hasUnlisten), old(view.hasTerminal))
    ensures view.trace[|view.trace| - 1] == PtyKill(view.sessionId)
    ensures passOn && layout.isSidebarOpen == old(layout.isSidebarOpen)
  {
    view.Teardown();
    view.OnInput(data);
    passOn := view.OnKey(e, layout);
  }
}
