/** Light/dark theme switching (`initializeTheme`, `toggleTheme`,
    `updateThemeIcon`, `announceThemeChange` of PortfolioApp). The document's
    `data-theme` attribute, the saved preference under `portfolio-theme`, the
    toggle button's icon class and its aria-label are fields of `ThemePage`. */
module Theme {
  import opened Wrappers

  const Dark := "dark"
  const Light := "light"

  /** The theme `toggleTheme` switches to, given the current `data-theme`
      attribute (absent when never set): light from dark, dark from anything else. */
  function ToggledTheme(current: Option<string>): (r: string)
    ensures r == Light <==> current == Some(Dark)
    ensures r == Dark <==> current != Some(Dark)
  {
    if current == Some(Dark) then Light else Dark
  }

  /** `localStorage.getItem('portfolio-theme') || 'light'`: a missing or empty
      saved value gives light; any other saved value is used as it is. */
  function SavedOrDefault(saved: Option<string>): (r: string)
    ensures r != ""
    ensures saved == None || saved == Some("") ==> r == Light
    ensures saved.Some? && saved.value != "" ==> r == saved.value
  {
    if saved.Some? && saved.value != "" then saved.value else Light
  }

  /** The icon shown on the toggle: a sun in dark mode, a moon otherwise. */
  function IconClass(theme: string): (r: string)
    ensures theme == Dark ==> r == "fas fa-sun"
    ensures theme != Dark ==> r == "fas fa-moon"
  {
    "fas fa-" + (if theme == Dark then "sun" else "moon")
  }

  /** The toggle's aria-label. */
  function AriaLabel(theme: string): (r: string)
    ensures theme == Dark ==> r == "Switch to light mode"
    ensures theme != Dark ==> r == "Switch to dark mode"
  {
    "Switch to " + (if theme == Dark then Light else Dark) + " mode"
  }

  /** The screen-reader announcement after a toggle. */
  function Announcement(theme: string): (r: string)
    ensures |r| == |theme| + 17 && r[12..|r| - 5] == theme
    ensures theme == Dark ==> r == "Switched to dark mode"
    ensures theme == Light ==> r == "Switched to light mode"
  {
    "Switched to " + theme + " mode"
  }

  /** The aria-label names exactly the theme a click on the toggle switches to. */
  lemma LabelNamesToggleTarget(theme: string)
    ensures AriaLabel(theme) == "Switch to " + ToggledTheme(Some(theme)) + " mode"
  {
  }

  /** Toggling twice from dark or from light gives the theme back; from any
      other value (or none) two toggles end in light. */
  lemma ToggleTwice(current: Option<string>)
    ensures ToggledTheme(Some(ToggledTheme(current))) ==
      if current == Some(Dark) then Dark else Light
  {
  }

  /** Whatever the starting value, one toggle reaches one of the two themes
      and from there toggling alternates between them. */
  lemma ToggleAlternates(current: Option<string>)
    ensures var t := ToggledTheme(current);
      (t == Dark || t == Light) && ToggledTheme(Some(ToggledTheme(Some(t)))) == t
  {
  }

  class ThemePage {
    /** `document.documentElement`'s `data-theme`. */
    var dataTheme: Option<string>
    /** `localStorage['portfolio-theme']`. */
    var saved: Option<string>
    /** Whether the page has a `.theme-toggle` button, and an `<i>` inside it. */
    const hasToggle: bool
    const hasIcon: bool
    /** The icon's `className` and the button's `aria-label`. */
    var iconClass: Option<string>
    var ariaLabel: Option<string>

    /** The toggle shows the icon and label of the current theme. */
    ghost predicate ShowsTheme()
      reads this
    {
      && dataTheme.Some?
      && (hasToggle ==> ariaLabel == Some(AriaLabel(dataTheme.value)))
      && (hasToggle && hasIcon ==> iconClass == Some(IconClass(dataTheme.value)))
    }

    constructor (storedTheme: Option<string>, toggle: bool, icon: bool,
                 theme: Option<string>, iconName: Option<string>, aria: Option<string>)
      ensures saved == storedTheme && hasToggle == toggle && hasIcon == icon
      ensures dataTheme == theme && iconClass == iconName && ariaLabel == aria
    {
      saved, hasToggle, hasIcon := storedTheme, toggle, icon;
      dataTheme, iconClass, ariaLabel := theme, iconName, aria;
    }

    /** `updateThemeIcon`: nothing without a toggle button; the icon only
        when the button has one; the label always. */
    method UpdateThemeIcon(theme: string)
      modifies this`iconClass, this`ariaLabel
      ensures iconClass == if hasToggle && hasIcon then Some(IconClass(theme)) else old(iconClass)
      ensures ariaLabel == if hasToggle then Some(AriaLabel(theme)) else old(ariaLabel)
    {
      if !hasToggle {
        return;
      }
      if hasIcon {
        iconClass := Some(IconClass(theme));
      }
      ariaLabel := Some(AriaLabel(theme));
    }

    /** `initializeTheme`: apply the saved theme, light by default. Nothing is saved. */
    method InitializeTheme()
      modifies this
      ensures dataTheme == Some(SavedOrDefault(old(saved)))
      ensures saved == old(saved)
      ensures ShowsTheme()
      ensures !(hasToggle && hasIcon) ==> iconClass == old(iconClass)
      ensures !hasToggle ==> ariaLabel == old(ariaLabel)
    {
      var savedTheme := SavedOrDefault(saved);
      dataTheme := Some(savedTheme);
      UpdateThemeIcon(savedTheme);
    }

    /** `toggleTheme`: switch, persist exactly the value switched to, update
        the toggle and return the announcement. */
    method ToggleTheme() returns (announcement: string)
      modifies this
      ensures dataTheme == Some(ToggledTheme(old(dataTheme)))
      ensures saved == dataTheme
      ensures ShowsTheme()
      ensures !(hasToggle && hasIcon) ==> iconClass == old(iconClass)
      ensures !hasToggle ==> ariaLabel == old(ariaLabel)
      ensures announcement == Announcement(dataTheme.value)
    {
      var newTheme := ToggledTheme(dataTheme);
      dataTheme := Some(newTheme);
      saved := Some(newTheme);
      UpdateThemeIcon(newTheme);
      announcement := Announcement(newTheme);
    }
  }
}
