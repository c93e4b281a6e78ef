# framer-motion-animations: the timing resolver, the preset table, the wrappers and the demo logic

This is a Dafny model of the part of `framer-motion-animations` that decides how an
animation is timed and which preset a wrapper component plays. The library wraps the
animate.css catalogue as React components built on Framer Motion.

- **`Timing`** (`timing.dfy`) models the resolver that every preset wrapper runs to build
  the `transition` prop it passes to `motion.div`.
  It applies the destructuring defaults (`duration = 1`, `delay = 0`, `repeat = 0`,
  flags `false`). It then applies the else-if speed chain (`faster` ×0.5, `fast` ×0.8,
  `slow` ×2, `slower` ×3) and the `infinite` flag.
  Next comes the reduced-motion override (0.001 s and a repeat count of 1).
  Finally it builds the `transition` prop:
  - it spreads the preset's own `transition`;
  - it lets a truthy declared duration win (`transition?.duration || adjustedDuration`);
  - it always writes `delay`;
  - it turns a literal `repeat === true` into `Infinity`.

  The same code appears three times: in `src/components/BaseAnimation.tsx:30-59`, in
  `src/shadcn/framer-animations.tsx:52-82` and in `demo/src/App.tsx:1004-1033`. The three
  copies are token for token the same logic, so one function, `Timing.Resolve`, models
  all of them.
- **`Variants`** (`variants.dfy`) models the preset table `animationVariants`. It has
  97 entries in 16 groups. Each entry is reduced to what the resolver reads: the declared
  `transition` record (duration, delay, repeat, and the presence of `times`, `ease` and
  `transformOrigin`). Fading presets also keep their opacity endpoints. The 97 keys form
  the datatype `Name`, each filed under its group, so the bounceIn preset is
  `InBouncingEntrances(bounceIn)`. `Variants.Render` is the wrapper that
  `createAnimationComponent` makes for a key that is in the table.
- **`Components`** (`components.dfy`) models how a wrapper finds its preset. The table is
  typed `Record<string, ...>`, so `keyof typeof animationVariants` is `string` and any
  string type-checks as a wrapper's `variant`. `Components.Lookup` is the string lookup
  `animationVariants[variant]`, and `Components.Mount` is a mounted `BaseAnimation`: it
  animates, or it throws a TypeError when the key is not in the table. The module also
  holds the export list of `src/components/index.ts` and the three-entry table of the
  copy-in files under `src/shadcn/`.
- **`Demo`** (`demo.dfy`) models the demo browser's pure state updates: restart
  (remount key), utilities reset, category toggle and preset selection. It also models
  the generator of the "Usage Example" snippet.

`Wrappers` (`wrappers.dfy`) holds the `Option` type used for omitted props and missed
lookups.

Durations are `real`, so 0.8 and 0.001 are exact. A JavaScript number's truthiness is
modelled as "present and non-zero". NaN is not modelled.

## Behaviour worth knowing

- **Reduced motion does not override a pinned duration.** The resolver forces 0.001 s
  into `adjustedDuration`. The preset's truthy `transition.duration` still wins over it,
  so presets that declare a duration keep it under reduced motion. Every preset except
  the fading, sliding and rotating ones, `rollIn`, `rollOut`, `zoomIn` and `zoomOut`
  declares one. Only the repeat count drops to 1.
  - `Timing.AccessibleDuration` is the reading in which the override is absolute.
  - `Timing.DivergesFromAccessibleReading` states exactly when the two readings differ.
- **`bounceIn` under `faster`** runs 0.75 s, its pinned duration, whatever duration and
  flags the caller passes (`Variants.BounceInIgnoresFaster`).
- **A key that is not in the table throws.** `animationVariants[variant]` is then
  `undefined`, or a value the table inherits from `Object.prototype` (for `constructor`,
  `toString` or `__proto__`). Rendering throws a TypeError: at `animation.initial`
  (`src/components/BaseAnimation.tsx:53`) for `undefined`, and at
  `animation.animate.transition` (`src/components/BaseAnimation.tsx:56`) for an
  inherited value (`Components.Mount`). Every one of the 97 wrappers that
  `src/components/index.ts` exports names a key of the table, so none of the library's
  own wrappers throws (`Components.ExportedWrappersAnimate`).
- **The copy-in files throw for all but three wrappers.** `src/shadcn/animation-variants.ts`
  ships a table with only `bounce`, `flash` and `pulse`, while
  `src/shadcn/framer-animations.tsx` exports the same 97 wrappers as the library. Only
  Bounce, Flash and Pulse animate; every other exported wrapper throws until the user
  copies in the full table (`Components.CopyInExportsMostlyThrow`).
- **A preset's own `repeat` and `delay` never reach the `transition` prop.** The wrapper
  writes both after the spread, so in the `transition` prop `pulse`'s `repeat: Infinity`
  is replaced by the caller's repeat (`Variants.PulseRepeatOverwritten`).

## Model

| member | source | states |
|---|---|---|
| Timing.WithDefaults | src/components/BaseAnimation.tsx:11-26 | an omitted prop takes its default (1 s, 0 s, repeat 0, each flag off) and a given prop is kept as given |
| Timing.ExplicitRoundTrip | src/components/BaseAnimation.tsx:14-24 | writing every default out explicitly gives the same settings as omitting it |
| Timing.FirstSet | src/components/BaseAnimation.tsx:30-34 | reference reading of the chain: no winner iff no flag in the order is set, else the winner is set and every flag before it is unset |
| Timing.WinnerInOrder | src/components/BaseAnimation.tsx:30-34 | the winner of the precedence order is decided by the chain's own tests: `faster` if set, else `fast` if set, else `slow`, else `slower`, else none |
| Timing.AdjustDuration | src/components/BaseAnimation.tsx:30-34 | the else-if chain scales the duration by the factor of the winner, the first set flag in the order faster, fast, slow, slower, and keeps it when none is set |
| Timing.NoSpeedFlagKeepsDuration | src/components/BaseAnimation.tsx:30-34 | with no speed flag set the caller's duration is used unchanged |
| Timing.SpeedFactors | src/components/BaseAnimation.tsx:31-34 | each flag alone scales by one half, four fifths, two and three |
| Timing.HighestFlagWins | src/components/BaseAnimation.tsx:30-34 | a set flag with no higher-ranked flag set decides the factor, whatever the lower flags are |
| Timing.LowerFlagsIgnored | src/components/BaseAnimation.tsx:31-34 | flag sets with the same winner give the same duration; flags below the winner are ignored |
| Timing.ResolveRepeat | src/components/BaseAnimation.tsx:36-59 | the result is never literal `true`; it is Infinity iff motion is not reduced and `infinite`, `repeat={true}` or `repeat={Infinity}` was passed; reduced motion gives a repeat count of 1; otherwise the caller's repeat passes through |
| Timing.Resolve | src/components/BaseAnimation.tsx:27-60 | for each of the three identical copies (see above): delay is the caller's; the preset's other keys pass through; a truthy declared duration wins; otherwise reduced motion gives 0.001 s, else the speed-adjusted duration |
| Timing.PinnedDurationIgnoresCaller | src/components/BaseAnimation.tsx:45-57 | with a pinned duration, every caller and either preference get the declared duration |
| Timing.SpeedFlagsActIffUnpinned | src/components/BaseAnimation.tsx:30-57 | `faster` changes a non-zero duration iff the preset pins none and motion is not reduced |
| Timing.DeclaredRepeatAndDelayOverwritten | src/components/BaseAnimation.tsx:55-59 | a preset's declared repeat and delay have no effect on the `transition` prop |
| Timing.ReducedMotionRepeatsOnce | src/components/BaseAnimation.tsx:45-48 | under reduced motion the repeat count is 1 and an unpinned duration is 0.001 s, even with `infinite` |
| Timing.DivergesFromAccessibleReading | src/components/BaseAnimation.tsx:45-57 | the resolver differs from the absolute-override reading iff motion is reduced and the preset pins a duration other than 0.001 s |
| Variants.Key | src/lib/variants.ts:5-961 | every table key is non-empty and starts with a lower-case ASCII letter |
| Variants.PresetOf | src/lib/variants.ts:3-965 | the table entry of each key; it has no contract of its own, and the lemmas below state what the entries declare |
| Variants.Render | src/components/BaseAnimation.tsx:80-85 | the wrapper of a preset: a pinned preset runs its declared seconds; an adjustable one runs 0.001 s under reduced motion and otherwise the caller's speed-adjusted duration; the delay is the caller's, the repeat is the resolved one, and the preset's other transition keys pass through |
| Variants.TransitionlessPresets | src/lib/variants.ts:394-964 | a preset declares no transition iff it is fading, sliding, `rollIn` or `rollOut` |
| Variants.RotatingPresetsDeclareOnlyOrigin | src/lib/variants.ts:646-737 | every rotating preset declares a transition whose only key is `transformOrigin`: no duration, delay or repeat |
| Variants.ZoomInOutDeclareOnlyTimes | src/lib/variants.ts:787-865 | `zoomIn` and `zoomOut` declare only keyframe `times` |
| Variants.DeclaredDurations | src/lib/variants.ts:5-923 | a declared duration is 0.75 s for bounceIn, bounceOut, flipOutX and flipOutY, 1.3 s for heartBeat, 2 s for hinge and 1 s otherwise; a preset declares one iff it is not adjustable |
| Variants.NoPresetDeclaresDelay | src/lib/variants.ts:3-965 | no preset's transition declares a delay |
| Variants.OnlyPulseDeclaresRepeat | src/lib/variants.ts:31-42 | `pulse` is the only preset that declares a repeat, and it declares Infinity |
| Variants.PulseRepeatOverwritten | src/lib/variants.ts:31-42 | without props `pulse` gets repeat count 0, or 1 under reduced motion, despite its declared Infinity |
| Variants.PinnedIffNotAdjustable | src/lib/variants.ts:5-964 | a preset pins its duration iff it is not fading, sliding, rotating, a roll, `zoomIn` or `zoomOut` |
| Variants.SpeedFlagsReachExactlyAdjustable | src/components/BaseAnimation.tsx:80-85 | through its wrapper, `faster` changes a preset's duration iff the preset is adjustable and motion is not reduced |
| Variants.FadeEndpoints | src/lib/variants.ts:394-525 | every fading entrance goes from opacity 0 to 1 and every fading exit from 1 to 0 |
| Variants.BounceInIgnoresFaster | src/lib/variants.ts:260-272 | `bounceIn` runs 0.75 s whatever the caller passes and under either preference, so 2 s at `faster` runs 0.75 s |
| Components.Lookup | src/components/BaseAnimation.tsx:27 | a lookup that finds a preset found the one whose key is the string asked for |
| Components.LookupKey | src/lib/variants.ts:3-965 | every preset is found under its own key |
| Components.KeyInjective | src/lib/variants.ts:3-965 | no two presets share a key |
| Components.LookupIff | src/components/BaseAnimation.tsx:27 | the lookup misses iff no preset has the string as its key, and otherwise finds that preset |
| Components.GroupExportsAreItsKeys | src/components/index.ts:3-130 | every name exported under a group heading is a key of the table, and every preset of the group is exported under it |
| Components.ExportsAreKeys | src/components/index.ts:4-130 | every exported wrapper's name is a key of the table |
| Components.EveryPresetExported | src/components/index.ts:4-130 | every preset of the table has an exported wrapper |
| Components.ExportCount | src/components/index.ts:4-130 | the index exports 97 wrappers, the first three being `bounce`, `flash` and `pulse` |
| Components.Mount | src/components/BaseAnimation.tsx:27-60 | mounting throws a TypeError iff no preset has the key; otherwise it animates with that preset's wrapper's `transition` prop |
| Components.ExportedWrappersAnimate | src/components/index.ts:1-130 | no wrapper the index exports throws |
| Components.CopyInMount | src/shadcn/animation-variants.ts:6-48 | a copy-in wrapper animates iff its key is `bounce`, `flash` or `pulse`, and then exactly as the library's wrapper |
| Components.CopyInExportsMostlyThrow | src/shadcn/framer-animations.tsx:104-237 | of the exported copy-in wrappers exactly those whose key the copy-in table holds animate; every other one throws |
| Demo.Restart | demo/src/App.tsx:1280-1282 | restart increases the remount key by one and changes nothing else |
| Demo.RestartsUseFreshKeys | demo/src/App.tsx:1280-1282 | after k restarts the key has grown by exactly k, so no key repeats, and nothing else changed |
| Demo.Reset | demo/src/App.tsx:1284-1294 | reset restores the initial utilities and changes nothing else |
| Demo.ResetMatchesWrapperDefaults | demo/src/App.tsx:1284-1294 | after a reset the preview is exactly the wrapper given no props |
| Demo.Select | demo/src/App.tsx:1303-1306 | selecting sets the preset, closes the mobile menu and changes nothing else |
| Demo.SelectIdempotent | demo/src/App.tsx:1303-1306 | selecting the same preset twice equals selecting it once |
| Demo.Toggle | demo/src/App.tsx:1296-1301 | the toggled category's shown state flips (a missing key reads as closed), the key becomes recorded and every other entry is kept |
| Demo.ToggleChangesOnlyItsCategory | demo/src/App.tsx:1296-1301 | toggling one category never changes how another shows |
| Demo.ToggleTwiceRestoresView | demo/src/App.tsx:1296-1301 | toggling a category twice shows every category as before |
| Demo.ToggleCategory | demo/src/App.tsx:1395-1398 | the menu toggles the entry of a group's title in the category map and changes nothing else |
| Demo.PropsOf | demo/src/App.tsx:1557 | the preview passes the utilities' duration, delay and flags and no repeat, so the repeat is the default |
| Demo.Preview | demo/src/App.tsx:1557 | the preview's delay is the utilities' delay; its repeat is 1 under reduced motion, else Infinity iff `infinite` is ticked, else 0; a pinned preset runs its declared seconds; an adjustable one runs 0.001 s under reduced motion and otherwise the utilities' speed-adjusted duration |
| Demo.InitialSelectionIgnoresDuration | demo/src/App.tsx:1187-1200 | on the initial selection `bounceIn`, no utility setting changes the preview's 0.75 s |
| Demo.Upper | demo/src/App.tsx:1583 | a lower-case ASCII letter becomes its capital; every other character is unchanged |
| Demo.Capitalize | demo/src/App.tsx:1583 | the component name has the key's length, its first character upper-cased and the rest unchanged |
| Demo.CapitalizeRoundTrip | demo/src/App.tsx:1583 | a key starting with a lower-case letter gives a capitalised name from which the key is recovered |
| Demo.ComponentNameIdentifiesPreset | demo/src/App.tsx:1583 | every preset's component name starts upper-case and gives the preset's key back, and no two presets share a component name |
| Demo.AttrsDistinct | demo/src/App.tsx:1588-1597 | no two modifiers write the same attribute |
| Demo.OnFlagsMembers | demo/src/App.tsx:1588-1597 | reference reading of the flag lines: a modifier's line is among the lines of a modifier list iff the modifier is in the list and on |
| Demo.FlagLines | demo/src/App.tsx:1588-1597 | the flag lines as the template writes them; it has no contract of its own, and `Demo.FlagLinesAreOnFlags` relates it to the reference reading |
| Demo.FlagLinesAreOnFlags | demo/src/App.tsx:1588-1597 | the flag lines are the attributes of the modifiers that are on, one line each, in the order faster, fast, slow, slower, infinite |
| Demo.FlagLineIff | demo/src/App.tsx:1588-1597 | a modifier's line is present iff the modifier is on |
| Demo.NumberLinesAreNoFlags | demo/src/App.tsx:1584-1597 | no flag line reads as a duration or delay attribute |
| Demo.AttributeLines | demo/src/App.tsx:1584-1597 | the lines are, in order, the duration line iff duration is not 1, the delay line iff delay is not 0, then one line per modifier that is on in the order faster, fast, slow, slower, infinite, and nothing else |
| Demo.ImportNamesComponent | demo/src/App.tsx:1579 | whatever the attribute lines, the joined snippet names the component right after `import { ` |
| Demo.OpeningTagNamesComponent | demo/src/App.tsx:1583 | whatever the attribute lines, the joined snippet names the same component right after the opening `<` |
| Demo.ClosingTagNamesComponent | demo/src/App.tsx:1600 | whatever the attribute lines, the joined snippet names the same component right after `</`, just before the final `>\n  );\n}` |
| Demo.Assemble | demo/src/App.tsx:1579-1602 | the snippet text names its component in the import line, the opening tag and the closing tag, at offsets that do not depend on the attribute lines |
| Demo.Snippet | demo/src/App.tsx:1579-1602 | the snippet for the selected preset; it has no contract of its own, and it is `Demo.Assemble` applied to the capitalised key and `Demo.AttributeLines` |
| Demo.SnippetShowsIgnoredFlags | demo/src/App.tsx:1588-1594 | for an adjustable preset the snippet writes every ticked modifier, while the duration follows the winning flag alone, so a ticked speed below the winner is written but has no effect |

## Left out

- Rendering is left out: the `motion.div`, `forwardRef`, `className`, `style` (the
  hardware-acceleration hints), `onAnimationComplete` and `children`. They do not affect
  the timing.
- The `animate` target a wrapper passes still carries the preset's own `transition`
  record, including `pulse`'s `repeat: Infinity`. How Framer Motion combines that record
  with the `transition` prop is not modelled; the model states only what the
  `transition` prop holds.
- The reduced-motion query `window.matchMedia(...)` is a parameter (`reduced`). The
  server-side case (`typeof window === 'undefined'`) is the same as `reduced = false`.
- IEEE-754 arithmetic is not modelled: NaN, rounding, and `Infinity` as a duration.
  Durations are exact reals.
- Keyframe values, easing curves and `times` arrays are left out. The model keeps only
  the keys the resolver passes through, plus the fade opacity endpoints. The other
  presets' motion values (transforms, keyframe opacities) are not part of this model.
- The three copy-in entries are not modelled separately: `Components.CopyInMount` renders
  them with the library table's entries, which declare the same timing.
- The demo's second copy of the preset table (`demo/src/App.tsx`) is not modelled
  separately. Its timing declarations are those of `src/lib/variants.ts`.
- The template's number-to-text conversion is the parameter `show` of `Demo.Snippet`.
  JavaScript's number formatting is not modelled.
- Demo.Upper: only ASCII letters are upper-cased. `toUpperCase` also maps other scripts,
  but every preset key is ASCII.
- Demo.Toggle: a category missing from the map reads as closed. In JavaScript
  `prev[category]` also reads inherited properties, so a category named `constructor`
  would read as open. The menu only passes the 16 group titles
  (`Demo.ToggleCategory`), so this does not arise.
- Components.Lookup: `None` stands both for a string the table does not hold
  (`undefined`) and for a name it inherits from `Object.prototype`, which gives a
  function or an object. Both end in a TypeError, at different lines, and the model
  does not tell them apart.
- Mounting a wrapper whose key is missing is modelled as the outcome `TypeError`. What
  React then does (error boundaries, unmounting) is not part of this model.
- The re-exports in `src/index.ts`, the type declarations in `src/types/index.ts` and
  the build configuration are left out. They hold no logic.
- The demo's layout, menus, icons and the `showUtilities` toggle are left out. They are
  plain state flips with no contract beyond the flip.
