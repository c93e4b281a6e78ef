/** The demo browser's state updates and its usage-snippet generator.  The
    number-to-text conversion inside the snippet is a parameter (`show`), and
    the layout, menus and icons are not modelled. */
module Demo {
  import opened Wrappers
  import opened Timing
  import opened Variants
  import opened Components

  // ---------------------------------------------------------------------------
  // State
  // ---------------------------------------------------------------------------

  /** The utility panel's settings; the demo never passes a repeat. */
  datatype Utilities = Utilities(
    duration: real, delay: real,
    faster: bool, fast: bool, slow: bool, slower: bool, infinite: bool)

  /** The browser's state.  `key` is the remount key of the preview, and
      `expanded` records the categories the user has opened or closed. */
  datatype State = State(
    selected: Name, key: int, showUtilities: bool, showMobileMenu: bool,
    expanded: map<string, bool>, utilities: Utilities)

  const InitialUtilities: Utilities := Utilities(1.0, 0.0, false, false, false, false, false)

  const Initial: State :=
    State(InBouncingEntrances(bounceIn), 0, false, false, map[Title(AttentionSeekers) := true], InitialUtilities)

  /** Restarting the preview remounts it under the next key. */
  function Restart(s: State): (r: State)
    ensures r.key == s.key + 1
    ensures r.(key := s.key) == s
  {
    s.(key := s.key + 1)
  }

  /** Restarting `k` times in a row. */
  function RestartTimes(s: State, k: nat): State {
    if k == 0 then s else Restart(RestartTimes(s, k - 1))
  }

  /** Every restart uses a key no earlier restart used: after `k` restarts the
      key has grown by exactly `k`, and nothing else has changed. */
  lemma {:induction false} RestartsUseFreshKeys(s: State, k: nat)
    ensures RestartTimes(s, k).key == s.key + k
    ensures RestartTimes(s, k).(key := s.key) == s
  {
    if k > 0 {
      RestartsUseFreshKeys(s, k - 1);
    }
  }

  /** Putting the utilities back to the initial settings. */
  function Reset(s: State): (r: State)
    ensures r.utilities == Initial.utilities
    ensures r.(utilities := s.utilities) == s
  {
    s.(utilities := Utilities(1.0, 0.0, false, false, false, false, false))
  }

  /** Choosing a preset from the menu selects it and closes the mobile menu. */
  function Select(s: State, a: Name): (r: State)
    ensures r.selected == a && !r.showMobileMenu
    ensures r.(selected := s.selected, showMobileMenu := s.showMobileMenu) == s
  {
    s.(selected := a, showMobileMenu := false)
  }

  /** Selecting twice is selecting once. */
  lemma SelectIdempotent(s: State, a: Name)
    ensures Select(Select(s, a), a) == Select(s, a)
  {
  }

  /** Whether a category shows as expanded: a category never toggled reads as
      undefined, which is falsy. */
  predicate Expanded(m: map<string, bool>, c: string) {
    c in m && m[c]
  }

  /** Toggling one category. */
  function Toggle(m: map<string, bool>, c: string): (r: map<string, bool>)
    ensures Expanded(r, c) == !Expanded(m, c)
    ensures r.Keys == m.Keys + {c}
    ensures forall d | d in m && d != c :: r[d] == m[d]
  {
    m[c := !Expanded(m, c)]
  }

  /** Toggling a category changes how no other category shows. */
  lemma ToggleChangesOnlyItsCategory(m: map<string, bool>, c: string, d: string)
    requires d != c
    ensures Expanded(Toggle(m, c), d) == Expanded(m, d)
  {
  }

  /** Toggling a category twice shows every category as it was, although the
      toggled category is now recorded even if it was not before. */
  lemma ToggleTwiceRestoresView(m: map<string, bool>, c: string, d: string)
    ensures Expanded(Toggle(Toggle(m, c), c), d) == Expanded(m, d)
  {
  }

  /** The category toggle as a state update; the menu passes the title of
      one of the groups. */
  function ToggleCategory(s: State, g: Group): (r: State)
    ensures r.expanded == Toggle(s.expanded, Title(g))
    ensures r.(expanded := s.expanded) == s
  {
    s.(expanded := Toggle(s.expanded, Title(g)))
  }

  // ---------------------------------------------------------------------------
  // Preview
  // ---------------------------------------------------------------------------

  /** The props the preview spreads into the selected wrapper. */
  function PropsOf(u: Utilities): (p: Props)
    ensures WithDefaults(p) == Settings(u.duration, u.delay, DefaultRepeat,
                                        Flags(u.faster, u.fast, u.slow, u.slower, u.infinite))
  {
    Props(Some(u.duration), Some(u.delay), None,
          Some(u.faster), Some(u.fast), Some(u.slow), Some(u.slower), Some(u.infinite))
  }

  /** The `transition` prop of the preview: the selected preset's wrapper
      given the utilities.  The delay is the utilities' delay and the repeat
      is none, infinite when `infinite` is ticked, or one under reduced
      motion; a pinned preset runs its declared seconds, an adjustable one
      0.001 s under reduced motion and otherwise the utilities'
      speed-adjusted duration. */
  function Preview(s: State, reduced: bool): (t: Transition<Extra>)
    ensures var u := s.utilities;
      && t.delay == u.delay
      && t.repeat == (if reduced then Num(1.0) else if u.infinite then Inf else Num(0.0))
      && (!Adjustable(s.selected) ==> t.duration == DeclaredSeconds(s.selected))
      && (Adjustable(s.selected) && reduced ==> t.duration == ReducedDuration)
      && (Adjustable(s.selected) && !reduced ==>
            t.duration == AdjustDuration(u.duration, Flags(u.faster, u.fast, u.slow, u.slower, u.infinite)))
  {
    Render(s.selected, PropsOf(s.utilities), reduced)
  }

  /** The demo's initial and reset settings are exactly the wrapper's
      defaults: a reset preview behaves as a wrapper given no props. */
  lemma ResetMatchesWrapperDefaults(s: State, reduced: bool)
    ensures Preview(Reset(s), reduced) == Render(s.selected, NoProps, reduced)
  {
  }

  /** On the initially selected preset the utilities cannot change the
      duration: bounceIn pins 0.75 s. */
  lemma InitialSelectionIgnoresDuration(u: Utilities, reduced: bool)
    ensures Preview(Initial.(utilities := u), reduced).duration == 0.75
  {
  }

  // ---------------------------------------------------------------------------
  // Usage snippet
  // ---------------------------------------------------------------------------

  predicate IsLower(c: char) { 'a' <= c <= 'z' }
  predicate IsUpper(c: char) { 'A' <= c <= 'Z' }

  /** Upper-casing one character (ASCII letters only). */
  function Upper(c: char): (u: char)
    ensures IsLower(c) ==> IsUpper(u) && u as int == c as int - 32
    ensures !IsLower(c) ==> u == c
  {
    if IsLower(c) then (c as int - 32) as char else c
  }

  /** Lower-casing one character (ASCII letters only). */
  function Lower(c: char): (l: char)
    ensures IsUpper(c) ==> IsLower(l) && l as int == c as int + 32
    ensures !IsUpper(c) ==> l == c
  {
    if IsUpper(c) then (c as int + 32) as char else c
  }

  /** The component name of a preset key: its first character upper-cased. */
  function Capitalize(s: string): (r: string)
    ensures |r| == |s|
    ensures |s| > 0 ==> r[0] == Upper(s[0]) && r[1..] == s[1..]
  {
    if |s| == 0 then "" else [Upper(s[0])] + s[1..]
  }

  /** Undoing `Capitalize`: the key of a component name. */
  function Decapitalize(s: string): (r: string)
    ensures |r| == |s|
    ensures |s| > 0 ==> r[0] == Lower(s[0]) && r[1..] == s[1..]
  {
    if |s| == 0 then "" else [Lower(s[0])] + s[1..]
  }

  /** A key that starts with a lower-case letter is recovered from its
      component name, so the snippet's component name identifies the key. */
  lemma CapitalizeRoundTrip(s: string)
    requires |s| > 0 && IsLower(s[0])
    ensures IsUpper(Capitalize(s)[0])
    ensures Decapitalize(Capitalize(s)) == s
  {
    assert Decapitalize(Capitalize(s)) == [s[0]] + s[1..];
  }

  /** The flags the snippet can write, in the order it writes them. */
  datatype Modifier = SpeedModifier(speed: Speed) | InfiniteModifier

  const Modifiers: seq<Modifier> :=
    [SpeedModifier(Faster), SpeedModifier(Fast), SpeedModifier(Slow), SpeedModifier(Slower), InfiniteModifier]

  /** The attribute that switches a modifier on. */
  function Attr(m: Modifier): string {
    match m
    case SpeedModifier(Faster) => "faster"
    case SpeedModifier(Fast) => "fast"
    case SpeedModifier(Slow) => "slow"
    case SpeedModifier(Slower) => "slower"
    case InfiniteModifier => "infinite"
  }

  predicate IsOn(u: Utilities, m: Modifier) {
    match m
    case SpeedModifier(Faster) => u.faster
    case SpeedModifier(Fast) => u.fast
    case SpeedModifier(Slow) => u.slow
    case SpeedModifier(Slower) => u.slower
    case InfiniteModifier => u.infinite
  }

  /** Different modifiers have different attributes. */
  lemma AttrsDistinct()
    ensures forall a, b :: Attr(a) == Attr(b) ==> a == b
  {
  }

  /** The reference reading of the flag lines: the attributes of the
      modifiers of `ms` that are on, in order. */
  function OnFlags(u: Utilities, ms: seq<Modifier>): seq<string> {
    if ms == [] then []
    else OnFlags(u, ms[..|ms| - 1]) + (if IsOn(u, ms[|ms| - 1]) then [Attr(ms[|ms| - 1])] else [])
  }

  /** A modifier's line is among the lines of `ms` exactly when the modifier
      is in `ms` and on. */
  lemma {:induction false} OnFlagsMembers(u: Utilities, ms: seq<Modifier>)
    ensures forall m :: Attr(m) in OnFlags(u, ms) <==> m in ms && IsOn(u, m)
  {
    if ms != [] {
      var init, last := ms[..|ms| - 1], ms[|ms| - 1];
      OnFlagsMembers(u, init);
      AttrsDistinct();
      assert ms == init + [last];
    }
  }

  /** The snippet's flag lines as the template writes them. */
  function FlagLines(u: Utilities): seq<string> {
    (if u.faster then ["faster"] else [])
    + (if u.fast then ["fast"] else [])
    + (if u.slow then ["slow"] else [])
    + (if u.slower then ["slower"] else [])
    + (if u.infinite then ["infinite"] else [])
  }

  /** The template's flag lines are exactly the attributes of the modifiers
      that are on, one line each, in the fixed order faster, fast, slow,
      slower, infinite. */
  lemma {:induction false} FlagLinesAreOnFlags(u: Utilities)
    ensures FlagLines(u) == OnFlags(u, Modifiers)
  {
    var f1 := if u.faster then ["faster"] else [];
    var f2 := if u.fast then ["fast"] else [];
    var f3 := if u.slow then ["slow"] else [];
    var f4 := if u.slower then ["slower"] else [];
    var f5 := if u.infinite then ["infinite"] else [];
    var m1 := [SpeedModifier(Faster)];
    var m2 := m1 + [SpeedModifier(Fast)];
    var m3 := m2 + [SpeedModifier(Slow)];
    var m4 := m3 + [SpeedModifier(Slower)];
    assert Modifiers == m4 + [InfiniteModifier];
    OnFlagsStep(u, [], SpeedModifier(Faster));
    assert [] + m1 == m1 && OnFlags(u, []) == [];
    assert OnFlags(u, m1) == f1;
    OnFlagsStep(u, m1, SpeedModifier(Fast));
    OnFlagsStep(u, m2, SpeedModifier(Slow));
    OnFlagsStep(u, m3, SpeedModifier(Slower));
    OnFlagsStep(u, m4, InfiniteModifier);
    assert OnFlags(u, Modifiers) == f1 + f2 + f3 + f4 + f5;
  }

  /** Appending one modifier appends its line exactly when it is on. */
  lemma OnFlagsStep(u: Utilities, ms: seq<Modifier>, m: Modifier)
    ensures OnFlags(u, ms + [m]) == OnFlags(u, ms) + (if IsOn(u, m) then [Attr(m)] else [])
  {
    assert (ms + [m])[..|ms|] == ms;
  }

  function DurationLine(text: string): string { "duration={" + text + "}" }
  function DelayLine(text: string): string { "delay={" + text + "}" }

  /** A modifier's line is in the template's flag lines exactly when the
      modifier is on. */
  lemma FlagLineIff(u: Utilities, m: Modifier)
    ensures Attr(m) in FlagLines(u) <==> IsOn(u, m)
  {
    FlagLinesAreOnFlags(u);
    OnFlagsMembers(u, Modifiers);
    assert m in Modifiers by {
      match m
      case SpeedModifier(s) => assert Precedence[Rank(s)] == s;
      case InfiniteModifier =>
    }
  }

  /** No flag line reads as a duration or delay line. */
  lemma NumberLinesAreNoFlags(u: Utilities, text: string)
    ensures DurationLine(text) !in FlagLines(u) && DelayLine(text) !in FlagLines(u)
    ensures forall m :: Attr(m) != DurationLine(text) && Attr(m) != DelayLine(text)
  {
    assert DurationLine(text)[0] == 'd' && DelayLine(text)[0] == 'd';
    assert forall f | f in FlagLines(u) :: f[0] != 'd';
    assert forall m :: Attr(m)[0] != 'd';
  }

  /** The attribute lines of the snippet's opening tag; `show` is the
      template's number-to-text conversion. */
  function AttributeLines(u: Utilities, show: real -> string): (ls: seq<string>)
    ensures ls == (if u.duration != 1.0 then [DurationLine(show(u.duration))] else [])
                  + (if u.delay != 0.0 then [DelayLine(show(u.delay))] else [])
                  + OnFlags(u, Modifiers)
    ensures DurationLine(show(u.duration)) in ls <==> u.duration != 1.0
    ensures DelayLine(show(u.delay)) in ls <==> u.delay != 0.0
    ensures forall m :: Attr(m) in ls <==> IsOn(u, m)
  {
    var dur := DurationLine(show(u.duration));
    var del := DelayLine(show(u.delay));
    var numbers := (if u.duration != 1.0 then [dur] else []) + (if u.delay != 0.0 then [del] else []);
    NumberLinesAreNoFlags(u, show(u.duration));
    NumberLinesAreNoFlags(u, show(u.delay));
    assert del != dur by {
      assert del[1] == 'e' && dur[1] == 'u';
    }
    forall m
      ensures Attr(m) in numbers + FlagLines(u) <==> IsOn(u, m)
    {
      FlagLineIff(u, m);
    }
    FlagLinesAreOnFlags(u);
    numbers + FlagLines(u)
  }

  /** Each attribute on a line of its own under the opening tag. */
  function Indented(ls: seq<string>): string {
    if ls == [] then "" else "\n      " + ls[0] + Indented(ls[1..])
  }

  /** The import line of the snippet. */
  function ImportLine(component: string): string {
    "import { " + component + " } from 'framer-motion-animations';\n\n"
  }

  /** The function header and the opening tag with its attribute lines. */
  function OpeningTag(component: string, ls: seq<string>): string {
    "function MyComponent() {\n  return (\n    <" + component + Indented(ls) + "\n    >\n"
  }

  /** The tag's content and the closing tag. */
  function ClosingTag(component: string): string {
    "      <div>Your content here</div>\n    </" + component + ">\n  );\n}"
  }

  /** A slice of a concatenation that falls within one side is a slice of that side. */
  lemma SliceOfConcat(a: string, b: string, i: nat, j: nat)
    requires i <= j
    ensures j <= |a| ==> (a + b)[i..j] == a[i..j]
    ensures j <= |b| ==> (a + b)[|a| + i..|a| + j] == b[i..j]
  {
  }

  /** Each part of a snippet names `c` at a fixed offset. */
  lemma PartOffsets(c: string, ls: seq<string>)
    ensures |ImportLine(c)| >= 9 + |c| && ImportLine(c)[9..9 + |c|] == c
    ensures |OpeningTag(c, ls)| >= 41 + |c| && OpeningTag(c, ls)[41..41 + |c|] == c
    ensures |ClosingTag(c)| == |c| + 49 && ClosingTag(c)[41..41 + |c|] == c
  {
    var head := "function MyComponent() {\n  return (\n    <";
    assert |head| == 41;
    assert OpeningTag(c, ls) == head + c + (Indented(ls) + "\n    >\n");
    var body := "      <div>Your content here</div>\n    </";
    assert |body| == 41;
    assert ClosingTag(c) == body + c + ">\n  );\n}";
  }

  /** Where the component name starts in the opening tag. */
  function OpenAt(c: string): nat {
    |ImportLine(c)| + 41
  }

  /** The snippet text for component `c` with attribute lines `ls`.  Whatever
      the attribute lines, the import line names `c` right after `import { `,
      the opening tag names it right after `<`, and the closing tag names it
      right after `</`, just before the final `>\n  );\n}`. */
  function Assemble(c: string, ls: seq<string>): (r: string)
    ensures |r| >= OpenAt(c) + |c| && r[9..9 + |c|] == c
    ensures r[OpenAt(c)..OpenAt(c) + |c|] == c
    ensures r[|r| - 8 - |c|..|r| - 8] == c
  {
    ImportNamesComponent(c, ls);
    OpeningTagNamesComponent(c, ls);
    ClosingTagNamesComponent(c, ls);
    ImportLine(c) + OpeningTag(c, ls) + ClosingTag(c)
  }

  /** The import line names the component. */
  lemma ImportNamesComponent(c: string, ls: seq<string>)
    ensures var s := ImportLine(c) + OpeningTag(c, ls) + ClosingTag(c);
      |s| >= 9 + |c| && s[9..9 + |c|] == c
  {
    PartOffsets(c, ls);
    var i, o, z := ImportLine(c), OpeningTag(c, ls), ClosingTag(c);
    SliceOfConcat(i, o + z, 9, 9 + |c|);
    assert i + o + z == i + (o + z);
  }

  /** The opening tag names the component. */
  lemma OpeningTagNamesComponent(c: string, ls: seq<string>)
    ensures var s := ImportLine(c) + OpeningTag(c, ls) + ClosingTag(c);
      |s| >= OpenAt(c) + |c| && s[OpenAt(c)..OpenAt(c) + |c|] == c
  {
    PartOffsets(c, ls);
    var i, o, z := ImportLine(c), OpeningTag(c, ls), ClosingTag(c);
    SliceOfConcat(o, z, 41, 41 + |c|);
    SliceOfConcat(i, o + z, 41, 41 + |c|);
    assert i + o + z == i + (o + z);
  }

  /** The closing tag names the component. */
  lemma ClosingTagNamesComponent(c: string, ls: seq<string>)
    ensures var s := ImportLine(c) + OpeningTag(c, ls) + ClosingTag(c);
      |s| >= 8 + |c| && s[|s| - 8 - |c|..|s| - 8] == c
  {
    PartOffsets(c, ls);
    var i, o, z := ImportLine(c), OpeningTag(c, ls), ClosingTag(c);
    SliceOfConcat(i + o, z, 41, 41 + |c|);
    assert |i + o + z| - 8 - |c| == |i + o| + 41;
  }

  /** The usage snippet for the selected preset: the assembled text for the
      capitalised selection and the attribute lines of the utilities, so the
      contract of `Assemble` holds for it with `c == Capitalize(selected)`. */
  function Snippet(selected: string, u: Utilities, show: real -> string): string {
    Assemble(Capitalize(selected), AttributeLines(u, show))
  }

  /** Every preset key starts with a lower-case letter, so its component name
      starts with a capital and gives the key back; no two presets share a
      component name. */
  lemma ComponentNameIdentifiesPreset(n: Name)
    ensures IsUpper(Capitalize(Key(n))[0])
    ensures Decapitalize(Capitalize(Key(n))) == Key(n)
    ensures forall m :: Capitalize(Key(m)) == Capitalize(Key(n)) ==> m == n
  {
    CapitalizeRoundTrip(Key(n));
    forall m | Capitalize(Key(m)) == Capitalize(Key(n))
      ensures m == n
    {
      CapitalizeRoundTrip(Key(m));
      KeyInjective(m, n);
    }
  }

  /** The snippet can show flags the resolver ignores: it writes every
      ticked modifier, while an adjustable preset runs at the speed of the
      winning flag alone, so a ticked speed below the winner is written but
      has no effect. */
  lemma SnippetShowsIgnoredFlags(n: Name, u: Utilities, show: real -> string)
    requires Adjustable(n)
    ensures forall m | IsOn(u, m) :: Attr(m) in AttributeLines(u, show)
    ensures var w := Winner(Flags(u.faster, u.fast, u.slow, u.slower, u.infinite));
      w.Some? ==> Render(n, PropsOf(u), false).duration == u.duration * Factor(w.value)
  {
  }
}
