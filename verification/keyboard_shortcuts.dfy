/** Global keyboard shortcuts: the `keydown` dispatch decision and the
    handler map the app registers. Handlers are opaque values of a type
    parameter `H`; running one is returning it. */
module KeyboardShortcuts {
  import opened Wrappers
  import opened Strings
  import opened Constants

  /** What the listener reads from a `keydown` event: the key and its target. */
  datatype KeyEvent = KeyEvent(key: string, tagName: string, isContentEditable: bool)

  /** The target takes typing: an INPUT, a TEXTAREA or a contentEditable element. */
  predicate InField(e: KeyEvent) {
    e.tagName == "INPUT" || e.tagName == "TEXTAREA" || e.isContentEditable
  }

  /** `handleKeyDown`: the handler that runs, if any. Running it always
      goes with `preventDefault`, and no handler means the event is left alone. */
  function Dispatch<H>(handlers: map<string, H>, enabled: bool, e: KeyEvent): (r: Option<H>)
    ensures !enabled ==> r.None?
    ensures InField(e) && e.key != "Escape" ==> r.None?
    ensures enabled && (!InField(e) || e.key == "Escape") ==>
              (r.Some? <==> ToLower(e.key) in handlers)
    ensures r.Some? ==> ToLower(e.key) in handlers && r.value == handlers[ToLower(e.key)]
  {
    if !enabled then None
    else if InField(e) && e.key != "Escape" then None
    else
      var key := ToLower(e.key);
      if key in handlers then Some(handlers[key]) else None
  }

  lemma {:induction false} LowerCharIdempotent(c: char)
    ensures LowerChar(LowerChar(c)) == LowerChar(c)
  {
    if 'A' <= c <= 'Z' {
      assert 'a' <= LowerChar(c) <= 'z';
    }
  }

  /** Outside a field, a key and its lowercase run the same handler. */
  lemma CaseInsensitiveOutsideFields<H>(handlers: map<string, H>, enabled: bool, e: KeyEvent)
    requires !InField(e)
    ensures Dispatch(handlers, enabled, e) == Dispatch(handlers, enabled, e.(key := ToLower(e.key)))
  {
    forall i | 0 <= i < |e.key|
      ensures ToLower(ToLower(e.key))[i] == ToLower(e.key)[i]
    {
      LowerCharIdempotent(e.key[i]);
    }
    assert ToLower(ToLower(e.key)) == ToLower(e.key);
  }

  /** The map `useAppShortcuts` builds: each supplied callback under its key
      (Escape lowercased), and no other entry. */
  ghost predicate Registers<H>(handlers: map<string, H>, onNewTask: Option<H>, onSearch: Option<H>,
                               onToggleSidebar: Option<H>, onToggleTheme: Option<H>, onEscape: Option<H>)
  {
    && (forall k :: k in handlers ==>
          k == NewTaskKey || k == SearchKey || k == ToggleSidebarKey || k == ToggleThemeKey || k == ToLower(EscapeKey))
    && Holds(handlers, NewTaskKey, onNewTask)
    && Holds(handlers, SearchKey, onSearch)
    && Holds(handlers, ToggleSidebarKey, onToggleSidebar)
    && Holds(handlers, ToggleThemeKey, onToggleTheme)
    && Holds(handlers, ToLower(EscapeKey), onEscape)
  }

  /** `key` carries the callback exactly when it was supplied. */
  ghost predicate Holds<H>(handlers: map<string, H>, key: string, callback: Option<H>) {
    (key in handlers <==> callback.Some?) && (callback.Some? ==> handlers[key] == callback.value)
  }

  /** `useAppShortcuts`: only the callbacks supplied are registered. */
  method AppShortcuts<H>(onNewTask: Option<H>, onSearch: Option<H>, onToggleSidebar: Option<H>,
                         onToggleTheme: Option<H>, onEscape: Option<H>)
    returns (handlers: map<string, H>)
    ensures Registers(handlers, onNewTask, onSearch, onToggleSidebar, onToggleTheme, onEscape)
  {
    assert ToLower(EscapeKey) == "escape";
    handlers := map[];
    if onNewTask.Some? {
      handlers := handlers[NewTaskKey := onNewTask.value];
    }
    if onSearch.Some? {
      handlers := handlers[SearchKey := onSearch.value];
    }
    if onToggleSidebar.Some? {
      handlers := handlers[ToggleSidebarKey := onToggleSidebar.value];
    }
    if onToggleTheme.Some? {
      handlers := handlers[ToggleThemeKey := onToggleTheme.value];
    }
    if onEscape.Some? {
      handlers := handlers[ToLower(EscapeKey) := onEscape.value];
    }
  }

  /** With the app's shortcuts: in a field only Escape does anything, and
      it runs `onEscape` when one was given; elsewhere `n` and `N` both run
      `onNewTask`, and a key with no shortcut runs nothing. */
  lemma AppShortcutDispatch<H>(handlers: map<string, H>, onNewTask: Option<H>, onSearch: Option<H>,
                               onToggleSidebar: Option<H>, onToggleTheme: Option<H>, onEscape: Option<H>,
                               e: KeyEvent)
    requires Registers(handlers, onNewTask, onSearch, onToggleSidebar, onToggleTheme, onEscape)
    ensures InField(e) ==> Dispatch(handlers, true, e) == (if e.key == EscapeKey then onEscape else None)
    ensures !InField(e) && (e.key == "n" || e.key == "N") ==> Dispatch(handlers, true, e) == onNewTask
    ensures !InField(e) && e.key == "x" ==> Dispatch(handlers, true, e) == None
  {
    assert ToLower(EscapeKey) == "escape";
    if e.key == "N" || e.key == "n" {
      assert ToLower(e.key) == "n";
    }
    if e.key == "x" {
      assert ToLower(e.key) == "x";
    }
  }
}
