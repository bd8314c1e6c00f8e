/** The colour themes of the interface: button colours by action and state, the
    health colour by health fraction, and the manager that holds the themes
    and the current theme's name. */
module Themes {
  import opened Builtins

  datatype Color = Color(r: int, g: int, b: int)

  /** Every channel of an RGB colour lies between 0 and 255. */
  predicate InRange(c: Color)
  {
    0 <= c.r <= 255 && 0 <= c.g <= 255 && 0 <= c.b <= 255
  }

  /** The colours of a theme that the modelled operations read; the dark theme
      overrides the health colour and the normal button colour and keeps the
      rest. */
  datatype Theme = Theme(hpColor: Color, buttonNormal: Color, buttonDisabled: Color)

  const DefaultTheme := Theme(Color(220, 53, 69), Color(0, 123, 255), Color(200, 200, 200))
  const DarkTheme := Theme(Color(255, 107, 107), Color(91, 192, 222), Color(200, 200, 200))

  const Warning := Color(255, 193, 7)
  const Danger := Color(200, 35, 51)

  /** The per-action button colours, shared by both themes. */
  const ActionButtons: map<string, Color> := map[
    "打坐" := Color(52, 58, 64),
    "吃丹药" := Color(25, 135, 84),
    "修炼" := Color(220, 53, 69),
    "等待" := Color(108, 117, 125)]

  // ------------------------------------------------------------ buttons

  function Lighter(c: Color): Color
  {
    Color(Min(255, c.r + 20), Min(255, c.g + 20), Min(255, c.b + 20))
  }

  function Darker(c: Color): Color
  {
    Color(Max(0, c.r - 20), Max(0, c.g - 20), Max(0, c.b - 20))
  }

  /** The action's own colour, or the theme's normal button colour. */
  function BaseColor(t: Theme, buttonName: string): Color
  {
    if buttonName in ActionButtons then ActionButtons[buttonName] else t.buttonNormal
  }

  /** get_button_color: lighter when hovered, darker when pressed, the theme's
      disabled colour when disabled, and the base colour for any other state. */
  function ButtonColor(t: Theme, buttonName: string, state: string): (c: Color)
    ensures InRange(t.buttonNormal) && InRange(t.buttonDisabled) ==> InRange(c)
  {
    var base := BaseColor(t, buttonName);
    if state == "hover" then Lighter(base)
    else if state == "pressed" then Darker(base)
    else if state == "disabled" then t.buttonDisabled
    else base
  }

  /** Hovering brightens each channel by 20 without passing 255, pressing
      darkens by 20 without passing 0, so both stay valid colours on either
      side of the base colour. */
  lemma ButtonStatesBracketBase(t: Theme, buttonName: string)
    requires InRange(t.buttonNormal)
    ensures var base := BaseColor(t, buttonName);
              var hover, pressed := ButtonColor(t, buttonName, "hover"), ButtonColor(t, buttonName, "pressed");
              && InRange(base) && InRange(hover) && InRange(pressed)
              && pressed.r <= base.r <= hover.r && pressed.g <= base.g <= hover.g
              && pressed.b <= base.b <= hover.b
  {
  }

  /** Away from the ends of the range, pressing undoes hovering and hovering
      undoes pressing. */
  lemma HoverPressInverse(c: Color)
    ensures (0 <= c.r <= 235 && 0 <= c.g <= 235 && 0 <= c.b <= 235) ==> Darker(Lighter(c)) == c
    ensures (20 <= c.r <= 255 && 20 <= c.g <= 255 && 20 <= c.b <= 255) ==> Lighter(Darker(c)) == c
  {
  }

  /** Disabled buttons look the same whatever their action; any other state
      name shows the base colour, and an unknown button the theme's normal
      colour. */
  lemma ButtonColorFallbacks(t: Theme, buttonName: string, state: string)
    ensures ButtonColor(t, buttonName, "disabled") == t.buttonDisabled
    ensures state !in {"hover", "pressed", "disabled"} ==>
              ButtonColor(t, buttonName, state) == BaseColor(t, buttonName)
    ensures buttonName !in ActionButtons ==> BaseColor(t, buttonName) == t.buttonNormal
    ensures buttonName in ActionButtons ==> BaseColor(DefaultTheme, buttonName) == BaseColor(DarkTheme, buttonName)
  {
  }

  // ------------------------------------------------------------- health

  /** get_hp_color: the theme's health colour above 0.6, the warning yellow
      above 0.3, and dark red at or below 0.3. */
  function HpColor(t: Theme, hpPercentage: real): (c: Color)
    ensures c == t.hpColor || c == Warning || c == Danger
    ensures hpPercentage > 0.6 ==> c == t.hpColor
  {
    if hpPercentage > 0.6 then t.hpColor
    else if hpPercentage > 0.3 then Warning
    else Danger
  }

  /** How alarming a colour is: 0 for the healthy colour, 2 for danger. */
  function Severity(c: Color): int
  {
    if c == Danger then 2 else if c == Warning then 1 else 0
  }

  /** The colour depends only on the band the fraction falls in, and more
      health never gives a more alarming colour. */
  lemma HpColorBands(t: Theme, p: real, q: real)
    requires t.hpColor != Warning && t.hpColor != Danger
    ensures p > 0.6 <==> HpColor(t, p) == t.hpColor
    ensures 0.3 < p <= 0.6 <==> HpColor(t, p) == Warning
    ensures p <= 0.3 <==> HpColor(t, p) == Danger
    ensures p <= q ==> Severity(HpColor(t, q)) <= Severity(HpColor(t, p))
  {
  }

  // -------------------------------------------------------------- manager

  const ThemeNames := ["default", "dark"]
  const BuiltInThemes := map["default" := DefaultTheme, "dark" := DarkTheme]

  /** get_theme: the named theme, the current one when no name is given, and
      the default theme for an unknown name. */
  function ThemeFor(themes: map<string, Theme>, current: string, themeName: Option<string>): Theme
    requires "default" in themes
  {
    var name := if themeName.None? then current else themeName.value;
    if name in themes then themes[name] else themes["default"]
  }

  /** set_theme: only a known name replaces the current one. */
  function ThemeSet(themes: map<string, Theme>, current: string, themeName: string): string
  {
    if themeName in themes then themeName else current
  }

  /** Selecting a known theme makes it the one get_theme returns by default;
      an unknown name changes nothing. Whatever happens the current name stays
      a known theme. */
  lemma SetThenGet(current: string, themeName: string)
    requires current in BuiltInThemes
    ensures var after := ThemeSet(BuiltInThemes, current, themeName);
              && after in BuiltInThemes
              && (themeName in BuiltInThemes ==> ThemeFor(BuiltInThemes, after, None) == BuiltInThemes[themeName])
              && (themeName !in BuiltInThemes ==> after == current)
              && (themeName !in BuiltInThemes ==> ThemeFor(BuiltInThemes, after, Some(themeName)) == DefaultTheme)
  {
  }

  class ThemeManager {
    const themes: map<string, Theme>
    var currentTheme: string

    ghost predicate Valid()
      reads this
    {
      themes == BuiltInThemes && currentTheme in themes
    }

    constructor ()
      ensures Valid() && currentTheme == "default"
    {
      themes := BuiltInThemes;
      currentTheme := "default";
    }

    method GetTheme(themeName: Option<string>) returns (t: Theme)
      requires Valid()
      ensures t == ThemeFor(themes, currentTheme, themeName)
    {
      var name := if themeName.None? then currentTheme else themeName.value;
      if name in themes {
        t := themes[name];
      } else {
        t := themes["default"];
      }
    }

    method SetTheme(themeName: string)
      requires Valid()
      modifies this
      ensures Valid() && currentTheme == ThemeSet(themes, old(currentTheme), themeName)
    {
      if themeName in themes {
        currentTheme := themeName;
      }
    }

    /** The theme names in the order they were added. */
    method GetAvailableThemes() returns (names: seq<string>)
      requires Valid()
      ensures names == ThemeNames
      ensures forall n :: n in names <==> n in themes
    {
      names := ThemeNames;
    }
  }
}
