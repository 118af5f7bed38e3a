/**
 * The colour-theme switcher of public/js/theme-switch.js: a stored
 * preference (the `theme` key of local storage), the class list of the root
 * element, the system's dark preference, and an `active` flag per theme
 * button. Each button carries the theme name in its `data-theme`.
 */
module Theme {
  import opened Js

  /** The whitespace DOMTokenList.add refuses in a token. */
  predicate AsciiWhitespace(c: char) {
    c == '\t' || c == '\n' || c == '\U{000C}' || c == '\r' || c == ' '
  }

  /** `classList.add(t)` throws for the empty string and for a token holding whitespace. */
  predicate ValidToken(t: string) {
    t != [] && forall i :: 0 <= i < |t| ==> !AsciiWhitespace(t[i])
  }

  /**
   * `listening` records whether the load got as far as registering the click
   * and system-change listeners.
   */
  datatype Page = Page(stored: Option<string>, classes: set<string>, systemDark: bool, active: seq<bool>, listening: bool)

  /** `localStorage.getItem('theme')` is falsy: absent, or the empty string. */
  predicate Unset(p: Page) {
    p.stored == None || p.stored == Some("")
  }

  /** `localStorage.getItem('theme') || 'system'` */
  function Saved(p: Page): (t: string)
    ensures Unset(p) <==> t == "system" && p.stored != Some("system")
    ensures !Unset(p) ==> p.stored == Some(t)
  {
    if Unset(p) then "system" else p.stored.value
  }

  /** `updateActiveButton`: a button is active exactly when its theme is the current one. */
  function ActiveFor(themes: seq<string>, current: string): (active: seq<bool>)
    ensures |active| == |themes|
    ensures forall i :: 0 <= i < |themes| ==> (active[i] <==> themes[i] == current)
  {
    seq(|themes|, i requires 0 <= i < |themes| => themes[i] == current)
  }

  /** `activeTheme || localStorage.getItem('theme') || 'system'` */
  function Current(activeTheme: string, stored: Option<string>): string {
    if activeTheme != "" then activeTheme
    else if stored.Some? && stored.value != "" then stored.value
    else "system"
  }

  /**
   * `applyTheme(t)`. Both overrides go first. 'system' forgets the stored
   * choice and follows the system; any other name is stored and added as a
   * class, and when the class list refuses it the buttons are left as they were.
   */
  function Apply(p: Page, themes: seq<string>, t: string): Page {
    var cleared := p.classes - {"dark", "light"};
    if t == "system" then
      Page(None, if p.systemDark then cleared + {"dark"} else cleared, p.systemDark, ActiveFor(themes, Current(t, None)), p.listening)
    else if !ValidToken(t) then
      Page(Some(t), cleared, p.systemDark, p.active, p.listening)
    else
      Page(Some(t), cleared + {t}, p.systemDark, ActiveFor(themes, Current(t, Some(t))), p.listening)
  }

  /** What `applyTheme` does to the root classes, the stored choice and the buttons. */
  lemma {:induction false} ApplyEffect(p: Page, themes: seq<string>, t: string)
    ensures var q := Apply(p, themes, t);
      && (forall c :: c != "dark" && c != "light" && c != t ==> (c in q.classes <==> c in p.classes))
      && ("light" in q.classes <==> t == "light")
      && ("dark" in q.classes <==> t == "dark" || (t == "system" && p.systemDark))
      && (t == "system" ==> q.stored == None)
      && (t != "system" ==> q.stored == Some(t))
      && (t == "system" || ValidToken(t) ==> t in q.classes || t == "system")
      && (t == "system" || ValidToken(t) ==>
            |q.active| == |themes| && forall i :: 0 <= i < |themes| ==> (q.active[i] <==> themes[i] == t))
  {
  }

  /** `applyTheme(savedTheme)` returns instead of throwing. */
  predicate LoadCompletes(p: Page) {
    Saved(p) == "system" || ValidToken(Saved(p))
  }

  /**
   * The initial load applies the stored theme, or 'system' when none is
   * stored, and then registers the listeners; a stored name the class list
   * refuses throws out of the load before any listener is registered.
   */
  function Load(p: Page, themes: seq<string>): (q: Page)
    ensures Unset(p) ==> q.stored == None && ("dark" in q.classes <==> p.systemDark) && "light" !in q.classes
    ensures q.listening <==> LoadCompletes(p)
  {
    Apply(p, themes, Saved(p)).(listening := LoadCompletes(p))
  }

  /** The `change` listener on the dark-scheme media query. */
  function SystemChange(p: Page, matches: bool): (q: Page)
    ensures q.systemDark == matches && q.stored == p.stored && q.active == p.active
    ensures !Unset(p) ==> q.classes == p.classes
    ensures Unset(p) ==> ("dark" in q.classes <==> matches)
    ensures forall c :: c != "dark" ==> (c in q.classes <==> c in p.classes)
  {
    var classes :=
      if !Unset(p) then p.classes
      else if matches then p.classes + {"dark"}
      else p.classes - {"dark"};
    p.(systemDark := matches, classes := classes)
  }

  /**
   * What the root's classes mean once the page is loaded: 'light' only when
   * the user chose light; 'dark' only when the user chose dark or nothing is
   * stored and the system prefers dark; and with no stored choice the root is
   * dark exactly when the system is.
   */
  predicate Consistent(p: Page) {
    && (p.stored == None ==> ("dark" in p.classes <==> p.systemDark))
    && ("light" in p.classes ==> p.stored == Some("light"))
    && ("dark" in p.classes ==> p.stored == Some("dark") || (Unset(p) && p.systemDark))
  }

  lemma {:induction false} LoadIsConsistent(p: Page, themes: seq<string>)
    ensures Consistent(Load(p, themes))
  {
  }

  datatype Event = Click(button: nat) | SchemeChange(matches: bool)

  /**
   * A click applies the clicked button's theme; a click on no button does
   * nothing; and nothing happens at all on a page whose listeners were never
   * registered.
   */
  function Step(p: Page, themes: seq<string>, e: Event): Page {
    if !p.listening then p
    else
      match e
      case Click(i) => if i < |themes| then Apply(p, themes, themes[i]) else p
      case SchemeChange(matches) => SystemChange(p, matches)
  }

  function Run(p: Page, themes: seq<string>, events: seq<Event>): Page
    decreases |events|
  {
    if events == [] then p else Run(Step(p, themes, events[0]), themes, events[1..])
  }

  lemma {:induction false} StepKeepsConsistent(p: Page, themes: seq<string>, e: Event)
    requires Consistent(p)
    ensures Consistent(Step(p, themes, e))
  {
  }

  /** After loading, any sequence of clicks and system changes keeps the root's classes consistent. */
  lemma {:induction false} RunKeepsConsistent(p: Page, themes: seq<string>, events: seq<Event>)
    requires Consistent(p)
    ensures Consistent(Run(p, themes, events))
    decreases |events|
  {
    if events != [] {
      StepKeepsConsistent(p, themes, events[0]);
      RunKeepsConsistent(Step(p, themes, events[0]), themes, events[1..]);
    }
  }

  /** A page whose load threw keeps the state the load left, whatever the user or the system does. */
  lemma {:induction false} FailedLoadIgnoresEvents(p: Page, themes: seq<string>, events: seq<Event>)
    requires !LoadCompletes(p)
    ensures Run(Load(p, themes), themes, events) == Load(p, themes)
    decreases |events|
  {
    if events != [] {
      FailedLoadIgnoresEvents(p, themes, events[1..]);
    }
  }

  /** A stored choice survives system changes untouched. */
  lemma {:induction false} ChoiceOutlivesSystemChanges(p: Page, themes: seq<string>, changes: seq<Event>)
    requires !Unset(p)
    requires forall k :: 0 <= k < |changes| ==> changes[k].SchemeChange?
    ensures Run(p, themes, changes).classes == p.classes
    ensures Run(p, themes, changes).stored == p.stored
    decreases |changes|
  {
    if changes != [] {
      var q := Step(p, themes, changes[0]);
      assert forall k :: 0 <= k < |changes[1..]| ==> changes[1..][k] == changes[k + 1];
      ChoiceOutlivesSystemChanges(q, themes, changes[1..]);
    }
  }

  class ThemeSwitch {
    var stored: Option<string>
    var classes: set<string>
    var systemDark: bool
    var listening: bool
    const themes: seq<string>
    const active: array<bool>

    function State(): Page
      reads this, active
    {
      Page(stored, classes, systemDark, active[..], listening)
    }

    predicate Valid()
      reads this
    {
      active.Length == |themes|
    }

    /** `DOMContentLoaded`: the buttons are found, the saved theme is applied and the listeners are registered. */
    constructor (buttonThemes: seq<string>, initialStored: Option<string>, initialClasses: set<string>, prefersDark: bool)
      ensures Valid() && themes == buttonThemes
      ensures State() == Load(Page(initialStored, initialClasses, prefersDark, seq(|buttonThemes|, _ => false), false), buttonThemes)
    {
      themes := buttonThemes;
      active := new bool[|buttonThemes|](_ => false);
      stored := initialStored;
      classes := initialClasses;
      systemDark := prefersDark;
      listening := false;
      new;
      assert active[..] == seq(|buttonThemes|, _ => false);
      var saved := if initialStored == None || initialStored == Some("") then "system" else initialStored.value;
      ApplyTheme(saved);
      if saved != "system" && !ValidToken(saved) {
        // applyTheme threw: the rest of the listener does not run
        return;
      }
      listening := true;
    }

    /** `updateActiveButton`: the `forEach` over the buttons. */
    method UpdateActiveButton(activeTheme: string)
      requires Valid()
      modifies active
      ensures active[..] == ActiveFor(themes, Current(activeTheme, stored))
    {
      var current := if activeTheme != "" then activeTheme
                     else if stored.Some? && stored.value != "" then stored.value
                     else "system";
      var i := 0;
      while i < active.Length
        invariant 0 <= i <= active.Length
        invariant forall k :: 0 <= k < i ==> (active[k] <==> themes[k] == current)
      {
        if themes[i] == current {
          active[i] := true;
        } else {
          active[i] := false;
        }
        i := i + 1;
      }
    }

    method ApplyTheme(t: string)
      requires Valid()
      modifies this, active
      ensures Valid()
      ensures State() == Apply(old(State()), themes, t)
    {
      classes := classes - {"dark", "light"};
      if t == "system" {
        stored := None;
        if systemDark {
          classes := classes + {"dark"};
        }
      } else {
        stored := Some(t);
        if !ValidToken(t) {
          // classList.add throws: the buttons are not updated
          return;
        }
        classes := classes + {t};
      }
      UpdateActiveButton(t);
    }

    method OnClick(i: nat)
      requires Valid()
      modifies this, active
      ensures Valid()
      ensures State() == Step(old(State()), themes, Click(i))
    {
      if listening && i < |themes| {
        ApplyTheme(themes[i]);
      }
    }

    method OnSchemeChange(matches: bool)
      modifies this
      ensures State() == Step(old(State()), themes, SchemeChange(matches))
    {
      if !listening {
        return;
      }
      systemDark := matches;
      if stored == None || stored == Some("") {
        if matches {
          classes := classes + {"dark"};
        } else {
          classes := classes - {"dark"};
        }
      }
    }
  }
}
