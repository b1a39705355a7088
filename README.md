# YWAR tracker: configuration merging, theme colours and container state

This project models the small core of logic in the YWAR tracker desktop
application and proves properties of it:

- **Configuration loading** (`Config`, in `config.dfy`). Settings are trees: a
  leaf value or a mapping from names to subtrees. The effective configuration
  is the user settings deep-merged onto the default settings. Where both sides
  hold a mapping under a key, the two mappings are merged recursively. In every
  other case the user value replaces the default one wholesale. `Merge` is the
  merge as a recursive function. `DeepMergeDicts` is the loader's own
  copy-then-loop procedure: copy the base, then visit each override key once.
  It is proved equal to `Merge`. `LoadConfig` picks the override: an absent
  user file, or one whose document is empty or falsy, gives the empty mapping.
- **Theme colours** (`Theme`, in `theme.dfy`). The `ui.theme` setting selects
  a theme, `light` when absent. Six colours are projected out of that entry of
  `themes`: `bg` comes from `background`, `fg` from `foreground`, and
  `panel_bg`, `accent`, `highlight` and `border` from the fields of the same
  name. Every lookup that would raise in the application gives `None` here.
- **Container state** (`Containers`, in `containers.dfy`). Every container has
  a semantic type (`Base`, `Section`, `Location`, `Task`), an optional link to
  a parent container, a title, a child list that starts empty, a depth and a
  style. Containers live in an arena (`Hierarchy`) and refer to their parents
  by index. The parent is always created first. The depth of a container is
  the number of its ancestors that have the same type as it.
  `Hierarchy.AddContainer` is the container constructor. It sets the fields in
  the constructor's order and computes the depth once, before the style.

`wrappers.dfy` holds the `Option` and `Result` types.

Points where the model follows the code closely:

- The constructor does not append the new container to its parent's child
  list. `AddContainer` leaves every existing child list unchanged.
- The code has no error for an unknown container type or for a broken
  hierarchy. In the model the type is one of the four enum values. The
  parent is an existing arena index, which `AddContainer` requires.
- A user document that parses to a falsy value (`0`, `false`, `""`, `[]`)
  is treated like an empty document, because of `or dict()`. A truthy
  non-mapping document fails when the merge asks it for its items
  (`UserNotMapping`).
- A `ui.theme` key that is present with a null value does not fall back to
  `light`. The lookup of that name fails (`NullThemeIsNotDefaulted`).

## Model

| member | source | states |
|---|---|---|
| `Config.Merge` | config/config.py:24-49 | the merged key set is exactly the union of the base keys and the override keys |
| `Config.DeepMergeDicts` | config/config.py:33-49 | the copy-then-loop procedure, visiting each override key once in any order, returns exactly `Merge(base, override)` |
| `Config.MergeAt` | config/config.py:36-47 | per key: a base-only key keeps its base value; both sides mappings gives the recursive merge; in every other case (scalar over scalar, scalar over mapping, mapping over scalar) the override value |
| `Config.MergeEmptyOverride` | config/config.py:34-36 | merging an empty override gives the base back |
| `Config.MergeIdempotent` | config/config.py:38-47 | merging a tree onto itself gives the same tree |
| `Config.MergeDisjoint` | config/config.py:34-47 | with disjoint key sets the merge is the plain union and keeps every value unchanged |
| `Config.NestedMergeExample` | config/config.py:38-43 | `{a: {x: 1, y: 2}}` merged with `{a: {y: 9}}` is `{a: {x: 1, y: 9}}` |
| `Config.ScalarOverMappingExample` | config/config.py:45-47 | `{a: {x: 1}}` merged with `{a: 5}` is `{a: 5}` |
| `Config.MergeKeepsUnmentioned` | config/config.py:34-47 | a setting at any depth of the base survives unchanged unless the override mentions its path |
| `Config.MergeKeepsOverrideLeaf` | config/config.py:36-47 | every leaf setting of the override, at any depth, appears unchanged in the merge |
| `Config.MergeLeafOrigin` | config/config.py:33-49 | every leaf of the merge comes from the override, or from the base at a path the override does not mention |
| `Config.MergeLeaf` | config/config.py:24-49 | a leaf is in the merge at a path if and only if it is the override's leaf there, or the base's leaf there with the path unmentioned by the override |
| `Config.LoadConfig` | config/config.py:52-75 | failures in the loader's order: missing default file, unparsable default, unparsable user file, non-mapping default, non-mapping override; a successful load keeps every default key (with `LoadOutcome` and `LoadWithoutUserIsDefault`: it succeeds exactly when both documents are usable and equals the default when no user override applies) |
| `Config.UserOverride` | config/config.py:67-72 | an absent user file and a falsy document give the empty mapping; a truthy document is used as it is; a parse error is the only failure |
| `Config.LoadWithoutUserIsDefault` | config/config.py:67-75 | with no user file, or an empty or falsy user document, the loaded configuration equals the default one |
| `Config.LoadOutcome` | config/config.py:60-75 | loading succeeds exactly when the default parses to a mapping and the user file is absent, falsy or a mapping; two mappings load to their merge; the result keeps every default key |
| `Theme.ThemeName` | ui/theme.py:19 | the `theme` value of `ui` when that key is present (whatever it holds), otherwise `light` |
| `Theme.SelectedTheme` | ui/theme.py:19-22 | the palette is found exactly when `ui` and `themes` are mappings, the selected name is a string key of `themes`, and that entry is a mapping |
| `Theme.GetColorsFromTheme` | ui/theme.py:17-30 | the colours resolve exactly when the selected palette has all six source fields; the result has exactly the keys `bg`, `fg`, `panel_bg`, `accent`, `highlight`, `border`, each the matching palette field |
| `Theme.DefaultsToLight` | ui/theme.py:19-22 | with no `theme` key in `ui` the `light` entry of `themes` is the palette |
| `Theme.NullThemeIsNotDefaulted` | ui/theme.py:19-22 | a `theme` key holding null does not default to `light` and the lookup fails |
| `Theme.ColorsIgnoreOtherSettings` | ui/theme.py:17-30 | changing any top-level setting other than `ui` and `themes` leaves the colour map unchanged |
| `Theme.ColorsIgnoreOtherUiSettings` | ui/theme.py:19 | changing any `ui` setting other than `theme` leaves the colour map unchanged |
| `Theme.ColorsIgnoreOtherThemes` | ui/theme.py:22 | changing any theme other than the selected one leaves the colour map unchanged |
| `Theme.ApplyTheme` | ui/theme.py:91-139 | the returned map is exactly the colour map; assuming the Tk calls succeed, it is returned exactly when the colours resolve and the five `ui.font` settings read afterwards are present |
| `Containers.TypeValue` | ui/containers/base.py:9-13 | the enum values lie in 0..3 and 0 is the base type's |
| `Containers.TypeValuesDistinct` | ui/containers/base.py:9-13 | no two container types share an enum value |
| `Containers.BaseClassDefaults` | ui/containers/base.py:34-37 | the base class has type `BASE`, colour `#000000` and an empty depth-to-style map |
| `Containers.SameTypeAbove` | ui/containers/base.py:21-22 | the count of same-type containers on a parent chain never exceeds one more than the index it starts at |
| `Containers.RelativeDepth` | ui/containers/base.py:21-22 | the depth of container `i` among same-type ancestors is at most `i` (with `DepthCountsSameTypeAncestors`: it is the number of ancestors of the container's own type) |
| `Containers.DepthCountsSameTypeAncestors` | ui/containers/base.py:21-22 | the depth equals the number of ancestors whose type equals the container's own |
| `Containers.DepthWithoutContainerParent` | ui/containers/base.py:43-49 | a container with no container parent has depth 0 |
| `Containers.DepthUnderSameType` | ui/containers/base.py:21-22 | under a parent of the same type the depth is exactly one more than the parent's |
| `Containers.DepthZeroIffNoSameTypeAncestor` | ui/containers/base.py:21-22 | the depth is 0 if and only if no ancestor has the container's type |
| `Containers.DepthAtMostAbsolute` | ui/containers/base.py:21-22 | the depth is at most the number of ancestors |
| `Containers.NestedTasksExample` | ui/containers/base.py:21-22 | for a Section holding a Task holding a Task the depths are 0, 0 and 1 |
| `Containers.DepthStableUnderAppend` | ui/containers/base.py:48-52 | creating a container leaves every existing container's depth as it was computed |
| `Containers.Hierarchy.AddContainer` | ui/containers/base.py:39-52 | appends one container: parent link only for a container parent, title as given (default empty), empty child list, depth equal to the same-type ancestor count, style resolved from class and that depth; every existing container is unchanged |

## Left out

- File I/O and YAML parsing: the two settings files are inputs of type
  `Source` (absent, unparsable, or a parsed tree). An empty document is the
  null leaf.
- A default document that is a list: the code copies it and returns it when
  the override is empty. The model reports `DefaultNotMapping` for every
  non-mapping default document.
- Floating-point settings, dates, timestamps and binary values: `Value` has
  no case for them. A truthy document of one of these kinds would fail like
  any other non-mapping override (`UserNotMapping`).
- Mapping keys other than strings, and lists indexed by a theme name. A theme
  name that is not a string is never found in `themes`, although YAML allows
  integer keys, and a `themes` list indexed by an integer `ui.theme` would
  find an entry in the code; `SelectedTheme` gives `None` in both cases.
- Key order of the merged dictionary and aliasing between the result and the
  inputs: settings are values here, so neither input can be changed, and the
  order in which the loop visits the override keys does not matter.
- Which exception a failed lookup raises: `GetColorsFromTheme` and
  `ApplyTheme` give `None` for all of them.
- The module-level `CONFIG` singleton: it is `LoadConfig` applied to the two
  files.
- The Tk side of the theme: `root.configure`, `ttk.Style` and the six
  `_configure_*_style` helpers.
- ApplyTheme: assumes the Tk calls succeed. `root.configure` raises for a
  background Tk does not know as a colour (for example `"notacolour"` or
  `5`), and the model still returns the colour map there.
- The widget side of a container: the `ttk.Frame` initialisation and
  `_build_structure`.
- `_resolve_style_tokens`: its body is not part of this model. The style is
  the result of a resolver function that `AddContainer` receives. It sees
  the container's class and depth. No fallback to a base style is
  modelled.
- `_compute_relative_depth`: its body is not part of this model. Its
  contract is taken from the class comments: the count of same-type ancestors.
- The window shell in `ui/app.py`: layout, placeholder labels, button
  callbacks and the event loop.
