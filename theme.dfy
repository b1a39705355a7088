/**
 * The colour part of the theming layer: which theme the settings select and
 * the six colours the user interface reads from it.
 */
module Theme {
  import opened Wrappers
  import opened Config

  /** The theme used when the `ui` settings name none. */
  const DefaultTheme: string := "light"

  /** The keys of the resolved colour map. */
  const ColorKeys: set<string> := {"bg", "fg", "panel_bg", "accent", "highlight", "border"}

  /** The theme field each colour key is read from. */
  function SourceField(key: string): (field: string) {
    if key == "bg" then "background"
    else if key == "fg" then "foreground"
    else key
  }

  /** The theme name the `ui` settings give, `light` when they hold no `theme` key. */
  function ThemeName(ui: Settings): (name: Tree)
    ensures "theme" !in ui ==> name == Leaf(Str(DefaultTheme))
    ensures "theme" in ui ==> name == ui["theme"]
  {
    if "theme" in ui then ui["theme"] else Leaf(Str(DefaultTheme))
  }

  /**
   * The palette of the selected theme, or None where looking it up raises:
   * `ui` missing or not a mapping, `themes` missing or not a mapping, a theme
   * name that is not a key of `themes`, or an entry that is not a mapping.
   */
  function SelectedTheme(config: Settings): (r: Option<Settings>)
    ensures r.Some? <==>
      "ui" in config && config["ui"].Node? &&
      "themes" in config && config["themes"].Node? &&
      ThemeName(config["ui"].children).Leaf? && ThemeName(config["ui"].children).v.Str? &&
      ThemeName(config["ui"].children).v.s in config["themes"].children &&
      config["themes"].children[ThemeName(config["ui"].children).v.s].Node?
    ensures r.Some? ==>
      Node(r.value) == config["themes"].children[ThemeName(config["ui"].children).v.s]
  {
    if "ui" !in config || !config["ui"].Node? then None
    else
      var name := ThemeName(config["ui"].children);
      if "themes" !in config || !config["themes"].Node? then None
      else if !(name.Leaf? && name.v.Str?) then None
      else if name.v.s !in config["themes"].children then None
      else
        var entry := config["themes"].children[name.v.s];
        if entry.Node? then Some(entry.children) else None
  }

  /** Whether a palette holds every field the colour map is read from. */
  predicate HasColorFields(palette: Settings) {
    forall key :: key in ColorKeys ==> SourceField(key) in palette
  }

  /**
   * The colour map of the selected theme, or None where the lookup raises:
   * no usable theme, or a theme missing one of its six fields.
   */
  function GetColorsFromTheme(config: Settings): (r: Option<Settings>)
    ensures r.Some? <==> SelectedTheme(config).Some? && HasColorFields(SelectedTheme(config).value)
    ensures r.Some? ==> r.value.Keys == ColorKeys
    ensures r.Some? ==> forall key :: key in ColorKeys ==>
      r.value[key] == SelectedTheme(config).value[SourceField(key)]
  {
    match SelectedTheme(config)
    case None => None
    case Some(t) =>
      if "background" in t && "foreground" in t && "panel_bg" in t &&
         "accent" in t && "highlight" in t && "border" in t
      then
        Some(map[
          "bg" := t["background"],
          "fg" := t["foreground"],
          "panel_bg" := t["panel_bg"],
          "accent" := t["accent"],
          "highlight" := t["highlight"],
          "border" := t["border"]
        ])
      else None
  }

  /** The font settings `apply_theme` reads after resolving the colours. */
  const FontKeys: set<string> := {"family", "size", "header_size", "monospace_family", "timer_size"}

  predicate HasFontSettings(config: Settings) {
    "ui" in config && config["ui"].Node? &&
    "font" in config["ui"].children && config["ui"].children["font"].Node? &&
    FontKeys <= config["ui"].children["font"].children.Keys
  }

  /**
   * The colour map `apply_theme` hands back, or None where it raises: while
   * styling it also reads the five font settings of `ui.font`.
   */
  function ApplyTheme(config: Settings): (r: Option<Settings>)
    ensures r.Some? <==> GetColorsFromTheme(config).Some? && HasFontSettings(config)
    ensures r.Some? ==> r == GetColorsFromTheme(config)
  {
    match GetColorsFromTheme(config)
    case None => None
    case Some(colors) => if HasFontSettings(config) then Some(colors) else None
  }

  /** Without a `theme` key the `light` entry of `themes` is used. */
  lemma DefaultsToLight(config: Settings)
    requires "ui" in config && config["ui"].Node? && "theme" !in config["ui"].children
    requires "themes" in config && config["themes"].Node?
    ensures SelectedTheme(config).Some? <==>
      DefaultTheme in config["themes"].children && config["themes"].children[DefaultTheme].Node?
    ensures SelectedTheme(config).Some? ==>
      SelectedTheme(config).value == config["themes"].children[DefaultTheme].children
  {
  }

  /** A `theme` key that is present but null does not fall back to `light`. */
  lemma NullThemeIsNotDefaulted(config: Settings)
    requires "ui" in config && config["ui"].Node? && "theme" in config["ui"].children
    requires config["ui"].children["theme"] == Leaf(Null)
    ensures GetColorsFromTheme(config) == None
  {
  }

  /** The colour map reads nothing but `ui` and `themes`. */
  lemma ColorsIgnoreOtherSettings(config: Settings, key: string, t: Tree)
    requires key != "ui" && key != "themes"
    ensures GetColorsFromTheme(config[key := t]) == GetColorsFromTheme(config)
  {
    assert SelectedTheme(config[key := t]) == SelectedTheme(config);
  }

  /** Within `ui` only the `theme` key is read. */
  lemma ColorsIgnoreOtherUiSettings(config: Settings, key: string, t: Tree)
    requires "ui" in config && config["ui"].Node? && key != "theme"
    ensures GetColorsFromTheme(config["ui" := Node(config["ui"].children[key := t])]) ==
            GetColorsFromTheme(config)
  {
    var changed := config["ui" := Node(config["ui"].children[key := t])];
    assert ThemeName(changed["ui"].children) == ThemeName(config["ui"].children);
    assert SelectedTheme(changed) == SelectedTheme(config);
  }

  /** Within `themes` only the selected entry is read. */
  lemma ColorsIgnoreOtherThemes(config: Settings, other: string, t: Tree)
    requires "ui" in config && config["ui"].Node?
    requires "themes" in config && config["themes"].Node?
    requires ThemeName(config["ui"].children) != Leaf(Str(other))
    ensures GetColorsFromTheme(config["themes" := Node(config["themes"].children[other := t])]) ==
            GetColorsFromTheme(config)
  {
    var changed := config["themes" := Node(config["themes"].children[other := t])];
    assert SelectedTheme(changed) == SelectedTheme(config);
  }
}
