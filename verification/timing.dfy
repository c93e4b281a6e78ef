/** The timing resolver that every preset wrapper runs to build the
    `transition` prop it passes to `motion.div`.  The library, the copy-in
    component file and the demo each carry a textual copy of it; the three
    copies are the same code and are all modelled by `Resolve`. */
module Timing {
  import opened Wrappers

  /** A repeat specification as the wrapper passes it around: a count, a
      boolean (`true` meaning "forever"), or the number `Infinity`. */
  datatype Repeat = Num(count: real) | Bool(flag: bool) | Inf

  /** The five modifier flags. */
  datatype Flags = Flags(faster: bool, fast: bool, slow: bool, slower: bool, infinite: bool)

  /** The timing props as a caller writes them; any of them may be omitted. */
  datatype Props = Props(
    duration: Option<real>, delay: Option<real>, repeat: Option<Repeat>,
    faster: Option<bool>, fast: Option<bool>, slow: Option<bool>,
    slower: Option<bool>, infinite: Option<bool>)

  /** The timing props once the wrapper's destructuring defaults are applied. */
  datatype Settings = Settings(duration: real, delay: real, repeat: Repeat, flags: Flags)

  /** The `transition` record a preset may declare inside its target state:
      the three keys the wrapper writes over, and every other key (times,
      ease, transformOrigin) with its value of type `V`. */
  datatype PresetTransition<V> = PresetTransition(
    duration: Option<real>, delay: Option<real>, repeat: Option<Repeat>,
    others: map<string, V>)

  /** The `transition` prop the wrapper passes to `motion.div`. */
  datatype Transition<V> = Transition(duration: real, delay: real, repeat: Repeat, others: map<string, V>)

  const DefaultDuration: real := 1.0
  const DefaultDelay: real := 0.0
  const DefaultRepeat: Repeat := Num(0.0)

  /** The near-instant duration forced when the user prefers reduced motion. */
  const ReducedDuration: real := 0.001

  const NoFlags: Flags := Flags(false, false, false, false, false)
  const NoProps: Props := Props(None, None, None, None, None, None, None, None)

  // ---------------------------------------------------------------------------
  // Defaults
  // ---------------------------------------------------------------------------

  /** The destructuring defaults: an omitted prop takes its default, a given
      prop is kept as given, each independently of the others. */
  function WithDefaults(p: Props): (s: Settings)
    ensures p == NoProps ==> s == Settings(1.0, 0.0, Num(0.0), NoFlags)
    ensures p.duration.None? ==> s.duration == 1.0
    ensures p.delay.None? ==> s.delay == 0.0
    ensures p.repeat.None? ==> s.repeat == Num(0.0)
    ensures p.faster.None? ==> !s.flags.faster
    ensures p.fast.None? ==> !s.flags.fast
    ensures p.slow.None? ==> !s.flags.slow
    ensures p.slower.None? ==> !s.flags.slower
    ensures p.infinite.None? ==> !s.flags.infinite
    ensures p.duration.Some? ==> s.duration == p.duration.value
    ensures p.delay.Some? ==> s.delay == p.delay.value
    ensures p.repeat.Some? ==> s.repeat == p.repeat.value
    ensures p.faster.Some? ==> s.flags.faster == p.faster.value
    ensures p.fast.Some? ==> s.flags.fast == p.fast.value
    ensures p.slow.Some? ==> s.flags.slow == p.slow.value
    ensures p.slower.Some? ==> s.flags.slower == p.slower.value
    ensures p.infinite.Some? ==> s.flags.infinite == p.infinite.value
  {
    Settings(
      p.duration.GetOr(DefaultDuration), p.delay.GetOr(DefaultDelay), p.repeat.GetOr(DefaultRepeat),
      Flags(p.faster.GetOr(false), p.fast.GetOr(false), p.slow.GetOr(false),
            p.slower.GetOr(false), p.infinite.GetOr(false)))
  }

  /** The props of a caller that writes every setting out. */
  function Explicit(s: Settings): (p: Props)
    ensures p.duration.Some? && p.delay.Some? && p.repeat.Some?
    ensures p.faster.Some? && p.fast.Some? && p.slow.Some? && p.slower.Some? && p.infinite.Some?
  {
    Props(Some(s.duration), Some(s.delay), Some(s.repeat),
          Some(s.flags.faster), Some(s.flags.fast), Some(s.flags.slow),
          Some(s.flags.slower), Some(s.flags.infinite))
  }

  /** Writing a default out explicitly changes nothing: every settings record
      is reached from its explicit props. */
  lemma ExplicitRoundTrip(s: Settings)
    ensures WithDefaults(Explicit(s)) == s
  {
  }

  // ---------------------------------------------------------------------------
  // Speed modifiers
  // ---------------------------------------------------------------------------

  datatype Speed = Faster | Fast | Slow | Slower

  /** The order in which the else-if chain tests the speed flags. */
  const Precedence: seq<Speed> := [Faster, Fast, Slow, Slower]

  /** The position of a speed in `Precedence`. */
  function Rank(s: Speed): (k: nat)
    ensures k < |Precedence| && Precedence[k] == s
  {
    match s
    case Faster => 0
    case Fast => 1
    case Slow => 2
    case Slower => 3
  }

  /** How each speed scales the caller's duration. */
  function Factor(s: Speed): real {
    match s
    case Faster => 0.5
    case Fast => 0.8
    case Slow => 2.0
    case Slower => 3.0
  }

  predicate IsSet(f: Flags, s: Speed) {
    match s
    case Faster => f.faster
    case Fast => f.fast
    case Slow => f.slow
    case Slower => f.slower
  }

  /** The flags with exactly one speed set and `infinite` off. */
  function Only(s: Speed): (f: Flags)
    ensures forall t :: IsSet(f, t) <==> t == s
    ensures !f.infinite
  {
    match s
    case Faster => NoFlags.(faster := true)
    case Fast => NoFlags.(fast := true)
    case Slow => NoFlags.(slow := true)
    case Slower => NoFlags.(slower := true)
  }

  /** The first speed of `order` whose flag is set: the reference reading of
      "the first true flag wins". */
  function FirstSet(f: Flags, order: seq<Speed>): (w: Option<Speed>)
    ensures w.None? <==> forall i | 0 <= i < |order| :: !IsSet(f, order[i])
    ensures w.Some? ==> exists i | 0 <= i < |order| ::
      order[i] == w.value && IsSet(f, order[i]) && forall j | 0 <= j < i :: !IsSet(f, order[j])
  {
    if order == [] then None
    else if IsSet(f, order[0]) then Some(order[0])
    else
      var w := FirstSet(f, order[1..]);
      assert forall i | 1 <= i < |order| :: order[i] == order[1..][i - 1];
      w
  }

  /** The speed whose factor applies. */
  function Winner(f: Flags): Option<Speed> {
    FirstSet(f, Precedence)
  }

  /** The else-if chain of the source.  It agrees with the reference reading:
      the factor of the first set flag in precedence order applies, and none
      when no flag is set. */
  function AdjustDuration(d: real, f: Flags): (r: real)
    ensures r == match Winner(f) case None => d case Some(s) => d * Factor(s)
  {
    WinnerInOrder(f);
    if f.faster then d / 2.0
    else if f.fast then d * 0.8
    else if f.slow then d * 2.0
    else if f.slower then d * 3.0
    else d
  }

  /** The reference reading on the order faster, fast, slow, slower: the
      winner is found by testing the flags one after the other. */
  lemma {:induction false} WinnerInOrder(f: Flags)
    ensures f.faster ==> Winner(f) == Some(Faster)
    ensures !f.faster && f.fast ==> Winner(f) == Some(Fast)
    ensures !f.faster && !f.fast && f.slow ==> Winner(f) == Some(Slow)
    ensures !f.faster && !f.fast && !f.slow && f.slower ==> Winner(f) == Some(Slower)
    ensures !f.faster && !f.fast && !f.slow && !f.slower ==> Winner(f).None?
  {
    var tail1 := [Fast, Slow, Slower];
    var tail2 := [Slow, Slower];
    var tail3 := [Slower];
    assert Precedence[1..] == tail1 && tail1[1..] == tail2 && tail2[1..] == tail3 && tail3[1..] == [];
    if f.faster {
      assert Winner(f) == Some(Faster);
    } else if f.fast {
      assert Winner(f) == FirstSet(f, tail1) == Some(Fast);
    } else if f.slow {
      assert Winner(f) == FirstSet(f, tail1) == FirstSet(f, tail2) == Some(Slow);
    } else if f.slower {
      assert Winner(f) == FirstSet(f, tail1) == FirstSet(f, tail2) == FirstSet(f, tail3) == Some(Slower);
    } else {
      assert Winner(f) == FirstSet(f, tail1) == FirstSet(f, tail2) == FirstSet(f, tail3) == None;
    }
  }

  /** With no speed flag set the caller's duration is kept. */
  lemma NoSpeedFlagKeepsDuration(d: real, f: Flags)
    requires forall s :: !IsSet(f, s)
    ensures AdjustDuration(d, f) == d
  {
    assert !IsSet(f, Faster) && !IsSet(f, Fast) && !IsSet(f, Slow) && !IsSet(f, Slower);
  }

  /** The four factors: half, four fifths, double and triple. */
  lemma SpeedFactors(d: real)
    ensures AdjustDuration(d, Only(Faster)) == d / 2.0
    ensures AdjustDuration(d, Only(Fast)) == d * 4.0 / 5.0
    ensures AdjustDuration(d, Only(Slow)) == 2.0 * d
    ensures AdjustDuration(d, Only(Slower)) == 3.0 * d
  {
  }

  /** A set flag wins when no flag ranked above it is set, whatever the flags
      ranked below it say. */
  lemma HighestFlagWins(d: real, f: Flags, s: Speed)
    requires IsSet(f, s)
    requires forall t :: Rank(t) < Rank(s) ==> !IsSet(f, t)
    ensures AdjustDuration(d, f) == d * Factor(s)
  {
    match s
    case Faster =>
    case Fast => assert Rank(Faster) < Rank(s);
    case Slow => assert Rank(Faster) < Rank(s) && Rank(Fast) < Rank(s);
    case Slower => assert Rank(Faster) < Rank(s) && Rank(Fast) < Rank(s) && Rank(Slow) < Rank(s);
  }

  /** Two flag sets that agree on every speed down to their common winner
      give the same duration: the flags below the winner are ignored. */
  lemma LowerFlagsIgnored(d: real, f: Flags, g: Flags, s: Speed)
    requires IsSet(f, s) && IsSet(g, s)
    requires forall t :: Rank(t) < Rank(s) ==> !IsSet(f, t) && !IsSet(g, t)
    ensures AdjustDuration(d, f) == AdjustDuration(d, g)
  {
    HighestFlagWins(d, f, s);
    HighestFlagWins(d, g, s);
  }

  // ---------------------------------------------------------------------------
  // Repeat
  // ---------------------------------------------------------------------------

  /** The repeat of the `transition` prop: `infinite` overrides the prop, reduced
      motion then overrides both, and a literal `true` becomes `Infinity`. */
  function ResolveRepeat(repeat: Repeat, infinite: bool, reduced: bool): (r: Repeat)
    ensures r != Bool(true)
    ensures r == Inf <==> !reduced && (infinite || repeat == Bool(true) || repeat == Inf)
    ensures reduced ==> r == Num(1.0)
    ensures !reduced && !infinite && repeat != Bool(true) ==> r == repeat
  {
    var count := if infinite then Inf else repeat;
    var count := if reduced then Num(1.0) else count;
    if count == Bool(true) then Inf else count
  }

  // ---------------------------------------------------------------------------
  // The resolver
  // ---------------------------------------------------------------------------

  /** JavaScript truthiness of an optional number (NaN is not modelled). */
  predicate Truthy(d: Option<real>) {
    d.Some? && d.value != 0.0
  }

  /** The duration the preset declares, if it declares a transition at all. */
  function DeclaredDuration<V>(preset: Option<PresetTransition<V>>): Option<real> {
    if preset.Some? then preset.value.duration else None
  }

  /** A preset whose declared duration is present and non-zero fixes the
      effective duration. */
  predicate Pinned<V>(preset: Option<PresetTransition<V>>) {
    Truthy(DeclaredDuration(preset))
  }

  /** The `transition` prop a wrapper passes, given the caller's props,
      the reduced-motion preference and the preset's own transition record. */
  function Resolve<V>(p: Props, reduced: bool, preset: Option<PresetTransition<V>>): (t: Transition<V>)
    ensures t.delay == WithDefaults(p).delay
    ensures t.others == if preset.Some? then preset.value.others else map[]
    ensures t.repeat == ResolveRepeat(WithDefaults(p).repeat, WithDefaults(p).flags.infinite, reduced)
    ensures Pinned(preset) ==> t.duration == preset.value.duration.value
    ensures !Pinned(preset) && reduced ==> t.duration == ReducedDuration
    ensures !Pinned(preset) && !reduced ==>
      t.duration == AdjustDuration(WithDefaults(p).duration, WithDefaults(p).flags)
  {
    var s := WithDefaults(p);
    var adjusted := AdjustDuration(s.duration, s.flags);
    var adjusted := if reduced then ReducedDuration else adjusted;
    var declared := DeclaredDuration(preset);
    Transition(
      if Truthy(declared) then declared.value else adjusted,
      s.delay,
      ResolveRepeat(s.repeat, s.flags.infinite, reduced),
      if preset.Some? then preset.value.others else map[])
  }

  /** A pinned duration is the effective duration for every caller and every
      preference: neither the speed flags nor reduced motion reach it. */
  lemma PinnedDurationIgnoresCaller<V>(p: Props, q: Props, r1: bool, r2: bool, preset: Option<PresetTransition<V>>)
    requires Pinned(preset)
    ensures Resolve(p, r1, preset).duration == Resolve(q, r2, preset).duration == preset.value.duration.value
  {
  }

  /** Without a pinned duration and without reduced motion, the `faster` flag
      always changes a non-zero duration: the modifiers act exactly on the
      presets that do not pin one. */
  lemma SpeedFlagsActIffUnpinned<V>(d: real, reduced: bool, preset: Option<PresetTransition<V>>)
    requires d != 0.0
    ensures Resolve(NoProps.(duration := Some(d), faster := Some(true)), reduced, preset).duration
            != Resolve(NoProps.(duration := Some(d)), reduced, preset).duration
            <==> !Pinned(preset) && !reduced
  {
  }

  /** A repeat or delay the preset declares never reaches the `transition`
      prop: the wrapper writes both after spreading the preset's record. */
  lemma DeclaredRepeatAndDelayOverwritten<V>(p: Props, reduced: bool, pt: PresetTransition<V>, rep: Option<Repeat>, del: Option<real>)
    ensures Resolve(p, reduced, Some(pt)) == Resolve(p, reduced, Some(pt.(repeat := rep, delay := del)))
  {
  }

  /** Under reduced motion the repeat count is 1, even when the
      caller asked for `infinite` or `repeat={true}`. */
  lemma ReducedMotionRepeatsOnce<V>(p: Props, preset: Option<PresetTransition<V>>)
    ensures Resolve(p, true, preset).repeat == Num(1.0)
    ensures !Pinned(preset) ==> Resolve(p, true, preset).duration == ReducedDuration
  {
  }

  /** The reading in which the accessibility override comes last and is
      absolute, collapsing pinned durations as well. */
  function AccessibleDuration<V>(p: Props, reduced: bool, preset: Option<PresetTransition<V>>): real {
    if reduced then ReducedDuration
    else if Pinned(preset) then preset.value.duration.value
    else AdjustDuration(WithDefaults(p).duration, WithDefaults(p).flags)
  }

  /** The code agrees with the absolute-override reading except when reduced
      motion meets a pinned duration other than 0.001 s. */
  lemma DivergesFromAccessibleReading<V>(p: Props, reduced: bool, preset: Option<PresetTransition<V>>)
    ensures Resolve(p, reduced, preset).duration != AccessibleDuration(p, reduced, preset)
            <==> reduced && Pinned(preset) && preset.value.duration.value != ReducedDuration
  {
  }
}
