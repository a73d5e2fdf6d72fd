/** Keyboard navigation bookkeeping: the shortcut registry and the combo string a key event
    is looked up under, the wrap-around index of arrow-key navigation inside a group, the
    stack of focus traps with the Tab wrap rule, and the shortcuts help panel that opens and
    closes a trap. Page elements are opaque ids; which elements a DOM query finds is a
    parameter. */
module KeyboardNavigation {
  import opened Common

  /** A page element. */
  type Element = nat

  /** A registered callback, identified by the function value. */
  type Action = nat

  /** A registry entry. */
  datatype Shortcut = Shortcut(description: string, callback: Action)

  /** One focus trap: its container and the element focused when it was set. */
  datatype Trap = Trap(container: Element, previousFocus: Option<Element>)

  /** The parts of a `keydown` event the manager reads. */
  datatype KeyEvent = KeyEvent(key: string, altKey: bool, ctrlKey: bool, shiftKey: bool)

  // ---------------------------------------------------------------------------
  // Combo strings
  // ---------------------------------------------------------------------------

  /** The key names that are modifiers themselves and add no key part to the combo. */
  predicate IsModifierKey(key: string)
  {
    key == "Alt" || key == "Control" || key == "Shift"
  }

  /** The parts of the combo, in the fixed order alt, ctrl, shift, then the lower-cased key
      unless it is a modifier. */
  function ComboParts(e: KeyEvent): (parts: seq<string>)
    ensures |parts| == Flag(e.altKey) + Flag(e.ctrlKey) + Flag(e.shiftKey) + (if IsModifierKey(e.key) then 0 else 1)
    ensures e.altKey ==> parts[0] == "alt"
    ensures e.ctrlKey ==> parts[Flag(e.altKey)] == "ctrl"
    ensures e.shiftKey ==> parts[Flag(e.altKey) + Flag(e.ctrlKey)] == "shift"
    ensures !IsModifierKey(e.key) ==> parts[|parts| - 1] == Lower(e.key)
  {
    (if e.altKey then ["alt"] else [])
    + (if e.ctrlKey then ["ctrl"] else [])
    + (if e.shiftKey then ["shift"] else [])
    + (if !IsModifierKey(e.key) then [Lower(e.key)] else [])
  }

  /** 1 for a pressed modifier, 0 otherwise. */
  function Flag(b: bool): nat
  {
    if b then 1 else 0
  }

  /** The combo string `handleShortcuts` looks up: the parts joined by '+'. A combo with Alt
      starts with "alt", one with Ctrl but not Alt with "ctrl", and a key pressed without
      modifiers is looked up under its lower-cased name alone. */
  function Combo(e: KeyEvent): (c: string)
    ensures e.altKey ==> |c| >= 3 && c[..3] == "alt"
    ensures !e.altKey && e.ctrlKey ==> |c| >= 4 && c[..4] == "ctrl"
    ensures !e.altKey && !e.ctrlKey && !e.shiftKey && !IsModifierKey(e.key) ==> c == Lower(e.key)
  {
    var parts := ComboParts(e);
    if |parts| > 0 then JoinStartsWithFirst(parts, "+"); Join(parts, "+")
    else Join(parts, "+")
  }

  /** The combo ignores the letter case of the key: events that differ only in the case of
      a non-modifier key give the same combo. */
  lemma ComboIgnoresKeyCase(e1: KeyEvent, e2: KeyEvent)
    requires e1.altKey == e2.altKey && e1.ctrlKey == e2.ctrlKey && e1.shiftKey == e2.shiftKey
    requires !IsModifierKey(e1.key) && !IsModifierKey(e2.key) && Lower(e1.key) == Lower(e2.key)
    ensures Combo(e1) == Combo(e2)
  {
  }

  /** Alt with a one-character key `c` (not itself a modifier) gives "alt+" and the
      lower-cased character: exactly the registry key of a registration "Alt+c" in any
      letter case. */
  lemma AltComboMatchesRegistration(c: char, registered: string)
    requires Lower(registered) == "alt+" + Lower([c])
    ensures Combo(KeyEvent([c], true, false, false)) == Lower(registered)
  {
    var parts := ComboParts(KeyEvent([c], true, false, false));
    assert parts == ["alt", Lower([c])];
    assert parts[1..] == [Lower([c])];
    assert Join(parts[1..], "+") == Lower([c]);
    assert Join(parts, "+") == "alt" + "+" + Lower([c]);
    assert "alt" + "+" + Lower([c]) == "alt+" + Lower([c]);
  }

  /** Ctrl and Shift with a one-character key: "ctrl+shift+" and the lower-cased character,
      in that order whatever order the keys were pressed in. */
  lemma CtrlShiftCombo(c: char)
    requires !IsModifierKey([c])
    ensures Combo(KeyEvent([c], false, true, true)) == "ctrl+shift+" + Lower([c])
  {
    var parts := ComboParts(KeyEvent([c], false, true, true));
    assert parts == ["ctrl", "shift", Lower([c])];
    assert parts[1..] == ["shift", Lower([c])];
    assert parts[1..][1..] == [Lower([c])];
    assert Join(parts[1..], "+") == "shift" + "+" + Lower([c]);
    assert Join(parts, "+") == "ctrl" + "+" + ("shift" + "+" + Lower([c]));
  }

  /** A lone modifier press (Alt held, key "Alt") has the combo "alt". */
  lemma LoneModifierCombo()
    ensures Combo(KeyEvent("Alt", true, false, false)) == "alt"
  {
    assert ComboParts(KeyEvent("Alt", true, false, false)) == ["alt"];
  }

  // ---------------------------------------------------------------------------
  // Arrow-key navigation
  // ---------------------------------------------------------------------------

  /** The four arrow keys. */
  predicate IsArrowKey(key: string)
  {
    key in ["ArrowUp", "ArrowDown", "ArrowLeft", "ArrowRight"]
  }

  /** Right and Down move forward; Up and Left move back. */
  predicate IsForwardKey(key: string)
  {
    key == "ArrowRight" || key == "ArrowDown"
  }

  /** The item one step forward in a group of `n`, wrapping from the last to the first. */
  function Forward(i: nat, n: nat): (r: nat)
    requires i < n
    ensures r < n
    ensures r == if i == n - 1 then 0 else i + 1
  {
    (i + 1) % n
  }

  /** The item one step back in a group of `n`, wrapping from the first to the last. */
  function Backward(i: nat, n: nat): (r: nat)
    requires i < n
    ensures r < n
    ensures r == if i == 0 then n - 1 else i - 1
  {
    (i - 1 + n) % n
  }

  /** A step forward and a step back cancel, in either order. */
  lemma ForwardBackwardInverse(i: nat, n: nat)
    requires i < n
    ensures Backward(Forward(i, n), n) == i
    ensures Forward(Backward(i, n), n) == i
  {
  }

  /** What `handleArrowNavigation` focuses: nothing for a key that is not an arrow, a target
      outside a group, or a target that is not one of the group's `n` items (`current` is
      the target's `indexOf` position); otherwise the wrapped neighbour. */
  function ArrowTarget(key: string, inGroup: bool, current: int, n: nat): (r: Option<nat>)
    requires -1 <= current < n
    ensures r.Some? <==> IsArrowKey(key) && inGroup && current != -1
    ensures r.Some? ==> r.value < n
    ensures r.Some? && IsForwardKey(key) ==> r.value == Forward(current, n)
    ensures r.Some? && !IsForwardKey(key) ==> r.value == Backward(current, n)
  {
    if !IsArrowKey(key) || !inGroup || current == -1 then None
    else if IsForwardKey(key) then Some((current + 1) % n)
    else Some((current - 1 + n) % n)
  }

  /** Right then Left (or Down then Up) comes back to the starting item. */
  lemma ArrowRoundTrip(i: nat, n: nat)
    requires i < n
    ensures var j := ArrowTarget("ArrowRight", true, i, n);
      j.Some? && ArrowTarget("ArrowLeft", true, j.value, n) == Some(i)
  {
    ForwardBackwardInverse(i, n);
  }

  // ---------------------------------------------------------------------------
  // The Tab rule inside a trap
  // ---------------------------------------------------------------------------

  /** Where `handleFocusTrap` moves the focus, for the trap's focusable elements in page
      order: Shift+Tab on the first goes to the last, Tab on the last goes to the first, and
      anything else (another key, no trap, no focusable element, focus elsewhere) is left to
      the browser. */
  function TrapTabTarget(key: string, shiftKey: bool, trapped: bool, active: Option<Element>,
                         focusable: seq<Element>): (r: Option<Element>)
    ensures r.Some? ==> key == "Tab" && trapped && |focusable| > 0
                        && ((shiftKey && active == Some(focusable[0]))
                            || (!shiftKey && active == Some(focusable[|focusable| - 1])))
    ensures r.Some? ==> r.value == focusable[0] || r.value == focusable[|focusable| - 1]
    ensures key == "Tab" && trapped && |focusable| > 0 ==>
              (shiftKey && active == Some(focusable[0]) ==> r == Some(focusable[|focusable| - 1]))
              && (!shiftKey && active == Some(focusable[|focusable| - 1]) ==> r == Some(focusable[0]))
              && (active != Some(focusable[0]) && active != Some(focusable[|focusable| - 1]) ==> r == None)
  {
    if key != "Tab" || !trapped || |focusable| == 0 then None
    else if shiftKey && active == Some(focusable[0]) then Some(focusable[|focusable| - 1])
    else if !shiftKey && active == Some(focusable[|focusable| - 1]) then Some(focusable[0])
    else None
  }

  // ---------------------------------------------------------------------------
  // The manager
  // ---------------------------------------------------------------------------

  /** The callbacks of the default shortcuts. */
  const HelpAction: Action := 0
  const FocusFiltersAction: Action := 1
  const FocusChatAction: Action := 2
  const FocusVisualizationAction: Action := 3
  const FocusExportAction: Action := 4
  const FocusChartAction: Action := 5
  const CloseDialogAction: Action := 6

  /** The manager. `focused` is the focused element, `helpVisible` whether the help panel is
      shown, and `fired` logs, in order, every callback `handleShortcuts` has invoked. */
  class KeyboardNavigationManager {
    const helpPanel: Element
    var shortcuts: map<string, Shortcut>
    var focusTrapStack: seq<Trap>
    var focused: Option<Element>
    var helpVisible: bool
    var fired: seq<Action>

    /** A new manager: no shortcuts, no traps, the help panel hidden. */
    constructor (panel: Element, initialFocus: Option<Element>)
      ensures helpPanel == panel && focused == initialFocus
      ensures shortcuts == map[] && focusTrapStack == [] && !helpVisible && fired == []
    {
      helpPanel := panel;
      shortcuts := map[];
      focusTrapStack := [];
      focused := initialFocus;
      helpVisible := false;
      fired := [];
    }

    /** `registerShortcut(keys, description, callback)`: stores the entry under the
        lower-cased keys, replacing any entry already there. */
    method RegisterShortcut(keys: string, description: string, callback: Action)
      modifies this`shortcuts
      ensures shortcuts == old(shortcuts)[Lower(keys) := Shortcut(description, callback)]
    {
      shortcuts := shortcuts[Lower(keys) := Shortcut(description, callback)];
    }

    /** `registerDefaultShortcuts()`: Alt with H, F, C, V, E, M, and Escape. */
    method RegisterDefaultShortcuts()
      modifies this`shortcuts
      ensures shortcuts == old(shortcuts)
        ["alt+h" := Shortcut("Show keyboard shortcuts help", HelpAction)]
        ["alt+f" := Shortcut("Focus on filters", FocusFiltersAction)]
        ["alt+c" := Shortcut("Focus on chat input", FocusChatAction)]
        ["alt+v" := Shortcut("Focus on visualization selector", FocusVisualizationAction)]
        ["alt+e" := Shortcut("Focus on export tools", FocusExportAction)]
        ["alt+m" := Shortcut("Focus on main chart", FocusChartAction)]
        ["escape" := Shortcut("Close modal or dialog", CloseDialogAction)]
      ensures shortcuts.Keys == old(shortcuts).Keys + {"alt+h", "alt+f", "alt+c", "alt+v", "alt+e", "alt+m", "escape"}
    {
      LowerOfLowercase("alt+h");
      RegisterShortcut("alt+h", "Show keyboard shortcuts help", HelpAction);
      LowerOfLowercase("alt+f");
      RegisterShortcut("alt+f", "Focus on filters", FocusFiltersAction);
      LowerOfLowercase("alt+c");
      RegisterShortcut("alt+c", "Focus on chat input", FocusChatAction);
      LowerOfLowercase("alt+v");
      RegisterShortcut("alt+v", "Focus on visualization selector", FocusVisualizationAction);
      LowerOfLowercase("alt+e");
      RegisterShortcut("alt+e", "Focus on export tools", FocusExportAction);
      LowerOfLowercase("alt+m");
      RegisterShortcut("alt+m", "Focus on main chart", FocusChartAction);
      LowerOfLowercase("escape");
      RegisterShortcut("escape", "Close modal or dialog", CloseDialogAction);
    }

    /** `handleShortcuts(e)`: builds the combo and, on an exact registry match only, invokes
        that entry's callback (and prevents the default). */
    method HandleShortcuts(e: KeyEvent) returns (combo: string, prevented: bool)
      modifies this`fired
      ensures combo == Combo(e)
      ensures prevented <==> combo in shortcuts
      ensures fired == old(fired) + (if prevented then [shortcuts[combo].callback] else [])
    {
      var keys: seq<string> := [];
      if e.altKey {
        keys := keys + ["alt"];
      }
      if e.ctrlKey {
        keys := keys + ["ctrl"];
      }
      if e.shiftKey {
        keys := keys + ["shift"];
      }
      if e.key != "Alt" && e.key != "Control" && e.key != "Shift" {
        keys := keys + [Lower(e.key)];
      }
      assert keys == ComboParts(e);
      combo := Join(keys, "+");
      prevented := combo in shortcuts;
      if prevented {
        fired := fired + [shortcuts[combo].callback];
      }
    }

    /** `handleArrowNavigation(e)` for a target at `indexOf` position `current` among the
        group's `items`: focuses the wrapped neighbour, or does nothing. */
    method HandleArrowNavigation(key: string, inGroup: bool, items: seq<Element>, current: int)
      requires -1 <= current < |items|
      modifies this`focused
      ensures var t := ArrowTarget(key, inGroup, current, |items|);
        focused == if t.Some? then Some(items[t.value]) else old(focused)
    {
      var t := ArrowTarget(key, inGroup, current, |items|);
      if t.Some? {
        focused := Some(items[t.value]);
      }
    }

    /** `trapFocus(selector)`, where `container` is what the selector finds: pushes a trap
        remembering the focused element, only when the container exists. */
    method TrapFocus(container: Option<Element>)
      modifies this`focusTrapStack
      ensures container.None? ==> focusTrapStack == old(focusTrapStack)
      ensures container.Some? ==> focusTrapStack == old(focusTrapStack) + [Trap(container.value, focused)]
    {
      if container.Some? {
        focusTrapStack := focusTrapStack + [Trap(container.value, focused)];
      }
    }

    /** `releaseFocusTrap()`: pops the most recent trap, if any, and gives the focus back to
        the element that had it when that trap was set. */
    method ReleaseFocusTrap()
      modifies this`focusTrapStack, this`focused
      ensures old(focusTrapStack) == [] ==> focusTrapStack == [] && focused == old(focused)
      ensures old(focusTrapStack) != [] ==>
                var top := old(focusTrapStack)[|old(focusTrapStack)| - 1];
                focusTrapStack == old(focusTrapStack)[..|old(focusTrapStack)| - 1]
                && focused == (if top.previousFocus.Some? then top.previousFocus else old(focused))
    {
      if focusTrapStack != [] {
        var top := focusTrapStack[|focusTrapStack| - 1];
        focusTrapStack := focusTrapStack[..|focusTrapStack| - 1];
        if top.previousFocus.Some? {
          focused := top.previousFocus;
        }
      }
    }

    /** `handleFocusTrap(e)`, where `focusable` is what the top trap's container holds:
        applies the Tab wrap rule. */
    method HandleFocusTrap(key: string, shiftKey: bool, focusable: seq<Element>) returns (prevented: bool)
      modifies this`focused
      ensures var t := TrapTabTarget(key, shiftKey, focusTrapStack != [], old(focused), focusable);
        prevented == t.Some? && focused == (if t.Some? then t else old(focused))
    {
      var t := TrapTabTarget(key, shiftKey, focusTrapStack != [], focused, focusable);
      prevented := t.Some?;
      if t.Some? {
        focused := t;
      }
    }

    /** `toggleShortcutsHelp()` with the panel on the page: showing it pushes a trap on the
        panel, hiding it pops the most recent trap. */
    method ToggleShortcutsHelp(panelPresent: bool)
      modifies this`helpVisible, this`focusTrapStack, this`focused
      ensures !panelPresent ==> helpVisible == old(helpVisible) && focusTrapStack == old(focusTrapStack)
                                && focused == old(focused)
      ensures panelPresent ==> helpVisible == !old(helpVisible)
      ensures panelPresent && !old(helpVisible) ==>
                focusTrapStack == old(focusTrapStack) + [Trap(helpPanel, old(focused))] && focused == old(focused)
      ensures panelPresent && old(helpVisible) && old(focusTrapStack) != [] ==>
                var top := old(focusTrapStack)[|old(focusTrapStack)| - 1];
                focusTrapStack == old(focusTrapStack)[..|old(focusTrapStack)| - 1]
                && focused == (if top.previousFocus.Some? then top.previousFocus else old(focused))
      ensures panelPresent && old(helpVisible) && old(focusTrapStack) == [] ==>
                focusTrapStack == [] && focused == old(focused)
    {
      if !panelPresent {
        return;
      }
      var isVisible := helpVisible;
      helpVisible := !isVisible;
      if !isVisible {
        TrapFocus(Some(helpPanel));
      } else {
        ReleaseFocusTrap();
      }
    }
  }

  /** Opening and closing the help panel leaves the trap stack as it was and gives the focus
      back; so does any trap set and released on top of it (last in, first out). */
  method HelpPanelScenario(panel: Element, button: Element, dialog: Element)
  {
    var m := new KeyboardNavigationManager(panel, Some(button));
    m.ToggleShortcutsHelp(true);
    assert m.focusTrapStack == [Trap(panel, Some(button))];
    m.TrapFocus(Some(dialog));
    m.ReleaseFocusTrap();
    assert m.focusTrapStack == [Trap(panel, Some(button))];
    m.ToggleShortcutsHelp(true);
    assert m.focusTrapStack == [] && !m.helpVisible && m.focused == Some(button);
  }
}
