/**
  The theme toggle.  At load the page reads the stored preference
  (`localStorage.getItem('theme') || 'dark'`), adds the class
  `<theme>-theme` to the body and sets the icon; each click swaps
  dark-theme and light-theme on the body, stores the new theme and updates
  the icon.  Storage is one abstract entry, `saved`.
*/
module Theme {
  import opened Wrappers

  const Moon := "\U{1F319}"
  const Sun := "\U{2600}\U{FE0F}"
  const DarkClass := "dark-theme"
  const LightClass := "light-theme"

  /** The theme chosen at load: JavaScript's `||` falls back to 'dark' both
      when nothing is stored and when the stored string is empty. */
  function InitialTheme(saved: Option<string>): (theme: string)
    ensures theme != ""
    ensures saved.Some? && saved.value != "" ==> theme == saved.value
    ensures theme == "dark" <==> saved in {None, Some(""), Some("dark")}
  {
    if saved.Some? && saved.value != "" then saved.value else "dark"
  }

  /** updateThemeIcon: the moon for 'dark', the sun for every other value. */
  function ThemeIcon(theme: string): (icon: string)
    ensures icon == Moon <==> theme == "dark"
    ensures icon == Sun <==> theme != "dark"
  {
    if theme == "dark" then Moon else Sun
  }

  /** What the toggle touches: the body's class list, the stored entry and the icon text. */
  datatype ThemeView = ThemeView(bodyClasses: set<string>, saved: Option<string>, icon: string)

  /** The state right after load, given the stored entry and the body classes of the markup. */
  function Loaded(saved: Option<string>, markupClasses: set<string>): (v: ThemeView)
    ensures v.saved == saved
    ensures v.bodyClasses == markupClasses + {InitialTheme(saved) + "-theme"}
    ensures v.icon == Moon <==> InitialTheme(saved) == "dark"
    ensures v.icon == Sun <==> InitialTheme(saved) != "dark"
  {
    var theme := InitialTheme(saved);
    ThemeView(markupClasses + {theme + "-theme"}, saved, ThemeIcon(theme))
  }

  /** The click handler: the branch is chosen by the presence of dark-theme. */
  function Toggled(v: ThemeView): ThemeView {
    if DarkClass in v.bodyClasses then
      ThemeView(v.bodyClasses - {DarkClass} + {LightClass}, Some("light"), ThemeIcon("light"))
    else
      ThemeView(v.bodyClasses - {LightClass} + {DarkClass}, Some("dark"), ThemeIcon("dark"))
  }

  /** The theme the body shows: exactly one of the two classes is present. */
  predicate ShowsOneTheme(v: ThemeView) {
    (DarkClass in v.bodyClasses) != (LightClass in v.bodyClasses)
  }

  /** The icon agrees with the displayed theme. */
  predicate IconAgrees(v: ThemeView) {
    v.icon == (if DarkClass in v.bodyClasses then Moon else Sun)
  }

  /** Stored and displayed theme agree. */
  predicate Persisted(v: ThemeView) {
    v.saved == Some(if DarkClass in v.bodyClasses then "dark" else "light")
  }

  /** After any click, whatever the state before: one theme shown, the stored
      value mirrors it, and the icon is the moon exactly when it is dark. */
  lemma ToggleMakesCoherent(v: ThemeView)
    ensures ShowsOneTheme(Toggled(v)) && IconAgrees(Toggled(v)) && Persisted(Toggled(v))
    ensures (DarkClass in Toggled(v).bodyClasses) <==> DarkClass !in v.bodyClasses
    ensures Toggled(v).bodyClasses - {DarkClass, LightClass} == v.bodyClasses - {DarkClass, LightClass}
  {
  }

  /** Two clicks give back the displayed theme, the icon and every other body
      class, whenever one theme was shown; the store then holds that theme. */
  lemma ToggleTwiceRestores(v: ThemeView)
    requires ShowsOneTheme(v) && IconAgrees(v)
    ensures Toggled(Toggled(v)).bodyClasses == v.bodyClasses
    ensures Toggled(Toggled(v)).icon == v.icon
    ensures Persisted(Toggled(Toggled(v)))
  {
    if DarkClass in v.bodyClasses {
      assert Toggled(Toggled(v)).bodyClasses == v.bodyClasses - {DarkClass} + {LightClass} - {LightClass} + {DarkClass};
    } else {
      assert Toggled(Toggled(v)).bodyClasses == v.bodyClasses - {LightClass} + {DarkClass} - {DarkClass} + {LightClass};
    }
  }

  /** With markup that carries neither theme class and a stored value the
      page itself could have written (or none), the loaded page shows one
      theme and the icon agrees; with nothing stored that theme is dark. */
  lemma LoadedCoherent(saved: Option<string>, markupClasses: set<string>)
    requires DarkClass !in markupClasses && LightClass !in markupClasses
    requires saved in {None, Some(""), Some("dark"), Some("light")}
    ensures ShowsOneTheme(Loaded(saved, markupClasses)) && IconAgrees(Loaded(saved, markupClasses))
    ensures saved == None ==> DarkClass in Loaded(saved, markupClasses).bodyClasses
  {
    var t := InitialTheme(saved);
    assert t == "dark" || t == "light";
    assert t == "dark" ==> t + "-theme" == DarkClass;
    assert t == "light" ==> t + "-theme" == LightClass;
  }

  /** A stored value other than the two themes is not repaired: the body
      keeps `blue-theme` and the first click adds dark-theme beside it, so
      two clicks do not return to the loaded class list. */
  lemma ForeignStoredValue()
    ensures Loaded(Some("blue"), {}).bodyClasses == {"blue-theme"}
    ensures Toggled(Loaded(Some("blue"), {})).bodyClasses == {"blue-theme", DarkClass}
    ensures Toggled(Toggled(Loaded(Some("blue"), {}))).bodyClasses == {"blue-theme", LightClass}
  {
    assert "blue" + "-theme" == "blue-theme";
    assert "blue-theme" != DarkClass && "blue-theme" != LightClass;
  }

  /** The toggle control, holding the state the browser keeps for it. */
  class ThemeToggle {
    var bodyClasses: set<string>
    var saved: Option<string>
    var icon: string

    function View(): ThemeView
      reads this
    {
      ThemeView(bodyClasses, saved, icon)
    }

    /** Page load (script.js:100-102). */
    constructor (stored: Option<string>, markupClasses: set<string>)
      ensures View() == Loaded(stored, markupClasses)
    {
      var theme := InitialTheme(stored);
      bodyClasses := markupClasses + {theme + "-theme"};
      saved := stored;
      icon := ThemeIcon(theme);
    }

    /** A click on the toggle (script.js:104-116). */
    method Click()
      modifies this
      ensures View() == Toggled(old(View()))
      ensures ShowsOneTheme(View()) && IconAgrees(View()) && Persisted(View())
    {
      if DarkClass in bodyClasses {
        bodyClasses := bodyClasses - {DarkClass};
        bodyClasses := bodyClasses + {LightClass};
        saved := Some("light");
        icon := ThemeIcon("light");
      } else {
        bodyClasses := bodyClasses - {LightClass};
        bodyClasses := bodyClasses + {DarkClass};
        saved := Some("dark");
        icon := ThemeIcon("dark");
      }
      ToggleMakesCoherent(old(View()));
    }
  }
}
