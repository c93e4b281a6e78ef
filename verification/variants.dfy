/** The preset table, reduced to what the timing resolver reads from it: the
    `transition` record each preset declares inside its target state (if it
    declares one), and the opacity endpoints of the presets that move between
    two single opacity values.  Keyframe values, easing curves and keyframe
    times are not part of this model; a declared `times` or `ease` key is kept
    only as the fact that it is present. */
module Variants {
  import opened Wrappers
  import opened Timing

  /** The value of a preset transition key other than duration, delay and repeat. */
  datatype Extra = Times | Ease | TransformOrigin(origin: string)

  /** Start and end opacity of a preset whose initial and target opacity are
      both single numbers rather than keyframe arrays. */
  datatype Endpoints = Endpoints(from: real, to: real)

  /** What the model keeps of one preset. */
  datatype Preset = Preset(transition: Option<PresetTransition<Extra>>, opacity: Option<Endpoints>)

  /** The groups the presets are listed in. */
  datatype Group =
    | AttentionSeekers
    | BackEntrances
    | BackExits
    | BouncingEntrances
    | BouncingExits
    | FadingEntrances
    | FadingExits
    | Flippers
    | Lightspeed
    | RotatingEntrances
    | RotatingExits
    | Specials
    | ZoomingEntrances
    | ZoomingExits
    | SlidingEntrances
    | SlidingExits

  // The presets of each group, by their table keys.
  datatype AttentionSeekersName = bounce | flash | pulse | rubberBand | shakeX | shakeY | headShake | swing | tada | wobble | jello | heartBeat
  datatype BackEntrancesName = backInDown | backInLeft | backInRight | backInUp
  datatype BackExitsName = backOutDown | backOutLeft | backOutRight | backOutUp
  datatype BouncingEntrancesName = bounceIn | bounceInDown | bounceInLeft | bounceInRight | bounceInUp
  datatype BouncingExitsName = bounceOut | bounceOutDown | bounceOutLeft | bounceOutRight | bounceOutUp
  datatype FadingEntrancesName = fadeIn | fadeInDown | fadeInDownBig | fadeInLeft | fadeInLeftBig | fadeInRight | fadeInRightBig | fadeInUp | fadeInUpBig | fadeInTopLeft | fadeInTopRight | fadeInBottomLeft | fadeInBottomRight
  datatype FadingExitsName = fadeOut | fadeOutDown | fadeOutDownBig | fadeOutLeft | fadeOutLeftBig | fadeOutRight | fadeOutRightBig | fadeOutUp | fadeOutUpBig | fadeOutTopLeft | fadeOutTopRight | fadeOutBottomLeft | fadeOutBottomRight
  datatype FlippersName = flip | flipInX | flipInY | flipOutX | flipOutY
  datatype LightspeedName = lightSpeedInLeft | lightSpeedInRight | lightSpeedOutLeft | lightSpeedOutRight
  datatype RotatingEntrancesName = rotateIn | rotateInDownLeft | rotateInDownRight | rotateInUpLeft | rotateInUpRight
  datatype RotatingExitsName = rotateOut | rotateOutDownLeft | rotateOutDownRight | rotateOutUpLeft | rotateOutUpRight
  datatype SpecialsName = hinge | jackInTheBox | rollIn | rollOut
  datatype ZoomingEntrancesName = zoomIn | zoomInDown | zoomInLeft | zoomInRight | zoomInUp
  datatype ZoomingExitsName = zoomOut | zoomOutDown | zoomOutLeft | zoomOutRight | zoomOutUp
  datatype SlidingEntrancesName = slideInDown | slideInLeft | slideInRight | slideInUp
  datatype SlidingExitsName = slideOutDown | slideOutLeft | slideOutRight | slideOutUp

  /** The names of the presets: the key type of the table, which the wrapper
      factory takes as its argument.  Each name is filed under its group. */
  datatype Name =
    | InAttentionSeekers(attentionSeekers: AttentionSeekersName)
    | InBackEntrances(backEntrances: BackEntrancesName)
    | InBackExits(backExits: BackExitsName)
    | InBouncingEntrances(bouncingEntrances: BouncingEntrancesName)
    | InBouncingExits(bouncingExits: BouncingExitsName)
    | InFadingEntrances(fadingEntrances: FadingEntrancesName)
    | InFadingExits(fadingExits: FadingExitsName)
    | InFlippers(flippers: FlippersName)
    | InLightspeed(lightspeed: LightspeedName)
    | InRotatingEntrances(rotatingEntrances: RotatingEntrancesName)
    | InRotatingExits(rotatingExits: RotatingExitsName)
    | InSpecials(specials: SpecialsName)
    | InZoomingEntrances(zoomingEntrances: ZoomingEntrancesName)
    | InZoomingExits(zoomingExits: ZoomingExitsName)
    | InSlidingEntrances(slidingEntrances: SlidingEntrancesName)
    | InSlidingExits(slidingExits: SlidingExitsName)

  /** The group a preset is listed in. */
  function GroupOf(n: Name): Group {
    match n
    case InAttentionSeekers(_) => AttentionSeekers
    case InBackEntrances(_) => BackEntrances
    case InBackExits(_) => BackExits
    case InBouncingEntrances(_) => BouncingEntrances
    case InBouncingExits(_) => BouncingExits
    case InFadingEntrances(_) => FadingEntrances
    case InFadingExits(_) => FadingExits
    case InFlippers(_) => Flippers
    case InLightspeed(_) => Lightspeed
    case InRotatingEntrances(_) => RotatingEntrances
    case InRotatingExits(_) => RotatingExits
    case InSpecials(_) => Specials
    case InZoomingEntrances(_) => ZoomingEntrances
    case InZoomingExits(_) => ZoomingExits
    case InSlidingEntrances(_) => SlidingEntrances
    case InSlidingExits(_) => SlidingExits
  }

  /** The title the demo gives a group. */
  function Title(g: Group): string {
    match g
    case AttentionSeekers => "Attention Seekers"
    case BackEntrances => "Back Entrances"
    case BackExits => "Back Exits"
    case BouncingEntrances => "Bouncing Entrances"
    case BouncingExits => "Bouncing Exits"
    case FadingEntrances => "Fading Entrances"
    case FadingExits => "Fading Exits"
    case Flippers => "Flippers"
    case Lightspeed => "Lightspeed"
    case RotatingEntrances => "Rotating Entrances"
    case RotatingExits => "Rotating Exits"
    case Specials => "Specials"
    case ZoomingEntrances => "Zooming Entrances"
    case ZoomingExits => "Zooming Exits"
    case SlidingEntrances => "Sliding Entrances"
    case SlidingExits => "Sliding Exits"
  }

  /** The table key a name stands for.  Every key starts with a lower-case
      ASCII letter. */
  function Key(n: Name): (k: string)
    ensures |k| > 0 && 'a' <= k[0] <= 'z'
  {
    match n
    case InAttentionSeekers(m) => (
      match m
      case bounce => "bounce"
      case flash => "flash"
      case pulse => "pulse"
      case rubberBand => "rubberBand"
      case shakeX => "shakeX"
      case shakeY => "shakeY"
      case headShake => "headShake"
      case swing => "swing"
      case tada => "tada"
      case wobble => "wobble"
      case jello => "jello"
      case heartBeat => "heartBeat")
    case InBackEntrances(m) => (
      match m
      case backInDown => "backInDown"
      case backInLeft => "backInLeft"
      case backInRight => "backInRight"
      case backInUp => "backInUp")
    case InBackExits(m) => (
      match m
      case backOutDown => "backOutDown"
      case backOutLeft => "backOutLeft"
      case backOutRight => "backOutRight"
      case backOutUp => "backOutUp")
    case InBouncingEntrances(m) => (
      match m
      case bounceIn => "bounceIn"
      case bounceInDown => "bounceInDown"
      case bounceInLeft => "bounceInLeft"
      case bounceInRight => "bounceInRight"
      case bounceInUp => "bounceInUp")
    case InBouncingExits(m) => (
      match m
      case bounceOut => "bounceOut"
      case bounceOutDown => "bounceOutDown"
      case bounceOutLeft => "bounceOutLeft"
      case bounceOutRight => "bounceOutRight"
      case bounceOutUp => "bounceOutUp")
    case InFadingEntrances(m) => (
      match m
      case fadeIn => "fadeIn"
      case fadeInDown => "fadeInDown"
      case fadeInDownBig => "fadeInDownBig"
      case fadeInLeft => "fadeInLeft"
      case fadeInLeftBig => "fadeInLeftBig"
      case fadeInRight => "fadeInRight"
      case fadeInRightBig => "fadeInRightBig"
      case fadeInUp => "fadeInUp"
      case fadeInUpBig => "fadeInUpBig"
      case fadeInTopLeft => "fadeInTopLeft"
      case fadeInTopRight => "fadeInTopRight"
      case fadeInBottomLeft => "fadeInBottomLeft"
      case fadeInBottomRight => "fadeInBottomRight")
    case InFadingExits(m) => (
      match m
      case fadeOut => "fadeOut"
      case fadeOutDown => "fadeOutDown"
      case fadeOutDownBig => "fadeOutDownBig"
      case fadeOutLeft => "fadeOutLeft"
      case fadeOutLeftBig => "fadeOutLeftBig"
      case fadeOutRight => "fadeOutRight"
      case fadeOutRightBig => "fadeOutRightBig"
      case fadeOutUp => "fadeOutUp"
      case fadeOutUpBig => "fadeOutUpBig"
      case fadeOutTopLeft => "fadeOutTopLeft"
      case fadeOutTopRight => "fadeOutTopRight"
      case fadeOutBottomLeft => "fadeOutBottomLeft"
      case fadeOutBottomRight => "fadeOutBottomRight")
    case InFlippers(m) => (
      match m
      case flip => "flip"
      case flipInX => "flipInX"
      case flipInY => "flipInY"
      case flipOutX => "flipOutX"
      case flipOutY => "flipOutY")
    case InLightspeed(m) => (
      match m
      case lightSpeedInLeft => "lightSpeedInLeft"
      case lightSpeedInRight => "lightSpeedInRight"
      case lightSpeedOutLeft => "lightSpeedOutLeft"
      case lightSpeedOutRight => "lightSpeedOutRight")
    case InRotatingEntrances(m) => (
      match m
      case rotateIn => "rotateIn"
      case rotateInDownLeft => "rotateInDownLeft"
      case rotateInDownRight => "rotateInDownRight"
      case rotateInUpLeft => "rotateInUpLeft"
      case rotateInUpRight => "rotateInUpRight")
    case InRotatingExits(m) => (
      match m
      case rotateOut => "rotateOut"
      case rotateOutDownLeft => "rotateOutDownLeft"
      case rotateOutDownRight => "rotateOutDownRight"
      case rotateOutUpLeft => "rotateOutUpLeft"
      case rotateOutUpRight => "rotateOutUpRight")
    case InSpecials(m) => (
      match m
      case hinge => "hinge"
      case jackInTheBox => "jackInTheBox"
      case rollIn => "rollIn"
      case rollOut => "rollOut")
    case InZoomingEntrances(m) => (
      match m
      case zoomIn => "zoomIn"
      case zoomInDown => "zoomInDown"
      case zoomInLeft => "zoomInLeft"
      case zoomInRight => "zoomInRight"
      case zoomInUp => "zoomInUp")
    case InZoomingExits(m) => (
      match m
      case zoomOut => "zoomOut"
      case zoomOutDown => "zoomOutDown"
      case zoomOutLeft => "zoomOutLeft"
      case zoomOutRight => "zoomOutRight"
      case zoomOutUp => "zoomOutUp")
    case InSlidingEntrances(m) => (
      match m
      case slideInDown => "slideInDown"
      case slideInLeft => "slideInLeft"
      case slideInRight => "slideInRight"
      case slideInUp => "slideInUp")
    case InSlidingExits(m) => (
      match m
      case slideOutDown => "slideOutDown"
      case slideOutLeft => "slideOutLeft"
      case slideOutRight => "slideOutRight"
      case slideOutUp => "slideOutUp")
  }

  /** The table entry of a preset. */
  function PresetOf(n: Name): Preset {
    match n
    case InAttentionSeekers(m) => (
      match m
      case bounce => Preset(Some(PresetTransition(Some(1.0), None, None, map["times" := Times, "ease" := Ease, "transformOrigin" := TransformOrigin("center bottom")])), None)
      case flash => Preset(Some(PresetTransition(Some(1.0), None, None, map["times" := Times, "ease" := Ease])), None)
      case pulse => Preset(Some(PresetTransition(Some(1.0), None, Some(Inf), map["ease" := Ease])), None)
      case rubberBand => Preset(Some(PresetTransition(Some(1.0), None, None, map["times" := Times])), None)
      case shakeX => Preset(Some(PresetTransition(Some(1.0), None, None, map["times" := Times])), None)
      case shakeY => Preset(Some(PresetTransition(Some(1.0), None, None, map["times" := Times])), None)
      case headShake => Preset(Some(PresetTransition(Some(1.0), None, None, map["times" := Times, "ease" := Ease])), None)
      case swing => Preset(Some(PresetTransition(Some(1.0), None, None, map["times" := Times, "transformOrigin" := TransformOrigin("top center")])), None)
      case tada => Preset(Some(PresetTransition(Some(1.0), None, None, map["times" := Times])), None)
      case wobble => Preset(Some(PresetTransition(Some(1.0), None, None, map["times" := Times])), None)
      case jello => Preset(Some(PresetTransition(Some(1.0), None, None, map["times" := Times, "transformOrigin" := TransformOrigin("center")])), None)
      case heartBeat => Preset(Some(PresetTransition(Some(1.3), None, None, map["times" := Times, "ease" := Ease])), None))
    case InBackEntrances(m) => (
      match m
      case backInDown => Preset(Some(PresetTransition(Some(1.0), None, None, map["times" := Times])), None)
      case backInLeft => Preset(Some(PresetTransition(Some(1.0), None, None, map["times" := Times])), None)
      case backInRight => Preset(Some(PresetTransition(Some(1.0), None, None, map["times" := Times])), None)
      case backInUp => Preset(Some(PresetTransition(Some(1.0), None, None, map["times" := Times])), None))
    case InBackExits(m) => (
      match m
      case backOutDown => Preset(Some(PresetTransition(Some(1.0), None, None, map["times" := Times])), None)
      case backOutLeft => Preset(Some(PresetTransition(Some(1.0), None, None, map["times" := Times])), None)
      case backOutRight => Preset(Some(PresetTransition(Some(1.0), None, None, map["times" := Times])), None)
      case backOutUp => Preset(Some(PresetTransition(Some(1.0), None, None, map["times" := Times])), None))
    case InBouncingEntrances(m) => (
      match m
      case bounceIn => Preset(Some(PresetTransition(Some(0.75), None, None, map["times" := Times, "ease" := Ease])), None)
      case bounceInDown => Preset(Some(PresetTransition(Some(1.0), None, None, map["times" := Times, "ease" := Ease])), None)
      case bounceInLeft => Preset(Some(PresetTransition(Some(1.0), None, None, map["times" := Times, "ease" := Ease])), None)
      case bounceInRight => Preset(Some(PresetTransition(Some(1.0), None, None, map["times" := Times, "ease" := Ease])), None)
      case bounceInUp => Preset(Some(PresetTransition(Some(1.0), None, None, map["times" := Times, "ease" := Ease])), None))
    case InBouncingExits(m) => (
      match m
      case bounceOut => Preset(Some(PresetTransition(Some(0.75), None, None, map["times" := Times])), None)
      case bounceOutDown => Preset(Some(PresetTransition(Some(1.0), None, None, map["times" := Times])), None)
      case bounceOutLeft => Preset(Some(PresetTransition(Some(1.0), None, None, map["times" := Times])), None)
      case bounceOutRight => Preset(Some(PresetTransition(Some(1.0), None, None, map["times" := Times])), None)
      case bounceOutUp => Preset(Some(PresetTransition(Some(1.0), None, None, map["times" := Times])), None))
    case InFadingEntrances(m) => (
      match m
      case fadeIn => Preset(None, Some(Endpoints(0.0, 1.0)))
      case fadeInDown => Preset(None, Some(Endpoints(0.0, 1.0)))
      case fadeInDownBig => Preset(None, Some(Endpoints(0.0, 1.0)))
      case fadeInLeft => Preset(None, Some(Endpoints(0.0, 1.0)))
      case fadeInLeftBig => Preset(None, Some(Endpoints(0.0, 1.0)))
      case fadeInRight => Preset(None, Some(Endpoints(0.0, 1.0)))
      case fadeInRightBig => Preset(None, Some(Endpoints(0.0, 1.0)))
      case fadeInUp => Preset(None, Some(Endpoints(0.0, 1.0)))
      case fadeInUpBig => Preset(None, Some(Endpoints(0.0, 1.0)))
      case fadeInTopLeft => Preset(None, Some(Endpoints(0.0, 1.0)))
      case fadeInTopRight => Preset(None, Some(Endpoints(0.0, 1.0)))
      case fadeInBottomLeft => Preset(None, Some(Endpoints(0.0, 1.0)))
      case fadeInBottomRight => Preset(None, Some(Endpoints(0.0, 1.0))))
    case InFadingExits(m) => (
      match m
      case fadeOut => Preset(None, Some(Endpoints(1.0, 0.0)))
      case fadeOutDown => Preset(None, Some(Endpoints(1.0, 0.0)))
      case fadeOutDownBig => Preset(None, Some(Endpoints(1.0, 0.0)))
      case fadeOutLeft => Preset(None, Some(Endpoints(1.0, 0.0)))
      case fadeOutLeftBig => Preset(None, Some(Endpoints(1.0, 0.0)))
      case fadeOutRight => Preset(None, Some(Endpoints(1.0, 0.0)))
      case fadeOutRightBig => Preset(None, Some(Endpoints(1.0, 0.0)))
      case fadeOutUp => Preset(None, Some(Endpoints(1.0, 0.0)))
      case fadeOutUpBig => Preset(None, Some(Endpoints(1.0, 0.0)))
      case fadeOutTopLeft => Preset(None, Some(Endpoints(1.0, 0.0)))
      case fadeOutTopRight => Preset(None, Some(Endpoints(1.0, 0.0)))
      case fadeOutBottomLeft => Preset(None, Some(Endpoints(1.0, 0.0)))
      case fadeOutBottomRight => Preset(None, Some(Endpoints(1.0, 0.0))))
    case InFlippers(m) => (
      match m
      case flip => Preset(Some(PresetTransition(Some(1.0), None, None, map["times" := Times, "ease" := Ease])), None)
      case flipInX => Preset(Some(PresetTransition(Some(1.0), None, None, map["times" := Times, "ease" := Ease])), None)
      case flipInY => Preset(Some(PresetTransition(Some(1.0), None, None, map["times" := Times, "ease" := Ease])), None)
      case flipOutX => Preset(Some(PresetTransition(Some(0.75), None, None, map["times" := Times])), None)
      case flipOutY => Preset(Some(PresetTransition(Some(0.75), None, None, map["times" := Times])), None))
    case InLightspeed(m) => (
      match m
      case lightSpeedInLeft => Preset(Some(PresetTransition(Some(1.0), None, None, map["times" := Times, "ease" := Ease])), None)
      case lightSpeedInRight => Preset(Some(PresetTransition(Some(1.0), None, None, map["times" := Times, "ease" := Ease])), None)
      case lightSpeedOutLeft => Preset(Some(PresetTransition(Some(1.0), None, None, map["ease" := Ease])), Some(Endpoints(1.0, 0.0)))
      case lightSpeedOutRight => Preset(Some(PresetTransition(Some(1.0), None, None, map["ease" := Ease])), Some(Endpoints(1.0, 0.0))))
    case InRotatingEntrances(m) => (
      match m
      case rotateIn => Preset(Some(PresetTransition(None, None, None, map["transformOrigin" := TransformOrigin("center")])), Some(Endpoints(0.0, 1.0)))
      case rotateInDownLeft => Preset(Some(PresetTransition(None, None, None, map["transformOrigin" := TransformOrigin("left bottom")])), Some(Endpoints(0.0, 1.0)))
      case rotateInDownRight => Preset(Some(PresetTransition(None, None, None, map["transformOrigin" := TransformOrigin("right bottom")])), Some(Endpoints(0.0, 1.0)))
      case rotateInUpLeft => Preset(Some(PresetTransition(None, None, None, map["transformOrigin" := TransformOrigin("left bottom")])), Some(Endpoints(0.0, 1.0)))
      case rotateInUpRight => Preset(Some(PresetTransition(None, None, None, map["transformOrigin" := TransformOrigin("right bottom")])), Some(Endpoints(0.0, 1.0))))
    case InRotatingExits(m) => (
      match m
      case rotateOut => Preset(Some(PresetTransition(None, None, None, map["transformOrigin" := TransformOrigin("center")])), Some(Endpoints(1.0, 0.0)))
      case rotateOutDownLeft => Preset(Some(PresetTransition(None, None, None, map["transformOrigin" := TransformOrigin("left bottom")])), Some(Endpoints(1.0, 0.0)))
      case rotateOutDownRight => Preset(Some(PresetTransition(None, None, None, map["transformOrigin" := TransformOrigin("right bottom")])), Some(Endpoints(1.0, 0.0)))
      case rotateOutUpLeft => Preset(Some(PresetTransition(None, None, None, map["transformOrigin" := TransformOrigin("left bottom")])), Some(Endpoints(1.0, 0.0)))
      case rotateOutUpRight => Preset(Some(PresetTransition(None, None, None, map["transformOrigin" := TransformOrigin("right bottom")])), Some(Endpoints(1.0, 0.0))))
    case InSpecials(m) => (
      match m
      case hinge => Preset(Some(PresetTransition(Some(2.0), None, None, map["times" := Times, "ease" := Ease, "transformOrigin" := TransformOrigin("top left")])), None)
      case jackInTheBox => Preset(Some(PresetTransition(Some(1.0), None, None, map["times" := Times, "transformOrigin" := TransformOrigin("center bottom")])), None)
      case rollIn => Preset(None, Some(Endpoints(0.0, 1.0)))
      case rollOut => Preset(None, Some(Endpoints(1.0, 0.0))))
    case InZoomingEntrances(m) => (
      match m
      case zoomIn => Preset(Some(PresetTransition(None, None, None, map["times" := Times])), None)
      case zoomInDown => Preset(Some(PresetTransition(Some(1.0), None, None, map["times" := Times, "ease" := Ease])), None)
      case zoomInLeft => Preset(Some(PresetTransition(Some(1.0), None, None, map["times" := Times, "ease" := Ease])), None)
      case zoomInRight => Preset(Some(PresetTransition(Some(1.0), None, None, map["times" := Times, "ease" := Ease])), None)
      case zoomInUp => Preset(Some(PresetTransition(Some(1.0), None, None, map["times" := Times, "ease" := Ease])), None))
    case InZoomingExits(m) => (
      match m
      case zoomOut => Preset(Some(PresetTransition(None, None, None, map["times" := Times])), None)
      case zoomOutDown => Preset(Some(PresetTransition(Some(1.0), None, None, map["times" := Times, "ease" := Ease, "transformOrigin" := TransformOrigin("center bottom")])), None)
      case zoomOutLeft => Preset(Some(PresetTransition(Some(1.0), None, None, map["times" := Times, "transformOrigin" := TransformOrigin("left center")])), None)
      case zoomOutRight => Preset(Some(PresetTransition(Some(1.0), None, None, map["times" := Times, "transformOrigin" := TransformOrigin("right center")])), None)
      case zoomOutUp => Preset(Some(PresetTransition(Some(1.0), None, None, map["times" := Times, "ease" := Ease, "transformOrigin" := TransformOrigin("center bottom")])), None))
    case InSlidingEntrances(m) => (
      match m
      case slideInDown => Preset(None, None)
      case slideInLeft => Preset(None, None)
      case slideInRight => Preset(None, None)
      case slideInUp => Preset(None, None))
    case InSlidingExits(m) => (
      match m
      case slideOutDown => Preset(None, None)
      case slideOutLeft => Preset(None, None)
      case slideOutRight => Preset(None, None)
      case slideOutUp => Preset(None, None))
  }

  /** The `transition` prop of a preset's wrapper component: the factory
      passes its preset's name to the shared resolver.  A preset that is not
      adjustable runs its declared seconds whatever the caller asks; an
      adjustable one runs the caller's speed-adjusted duration, or 0.001 s
      under reduced motion. */
  function Render(n: Name, p: Props, reduced: bool): (t: Transition<Extra>)
    ensures !Adjustable(n) ==> t.duration == DeclaredSeconds(n)
    ensures Adjustable(n) && reduced ==> t.duration == ReducedDuration
    ensures Adjustable(n) && !reduced ==>
      t.duration == AdjustDuration(WithDefaults(p).duration, WithDefaults(p).flags)
    ensures t.delay == WithDefaults(p).delay
    ensures t.repeat == ResolveRepeat(WithDefaults(p).repeat, WithDefaults(p).flags.infinite, reduced)
    ensures t.others == if PresetOf(n).transition.Some? then PresetOf(n).transition.value.others else map[]
  {
    PinnedIffNotAdjustable(n);
    DeclaredDurations(n);
    Resolve(p, reduced, PresetOf(n).transition)
  }

  predicate IsFading(g: Group) { g == FadingEntrances || g == FadingExits }
  predicate IsSliding(g: Group) { g == SlidingEntrances || g == SlidingExits }
  predicate IsRotating(g: Group) { g == RotatingEntrances || g == RotatingExits }

  /** The presets that declare no transition at all: the fading and sliding
      groups, and the two rolls. */
  lemma TransitionlessPresets(n: Name)
    ensures PresetOf(n).transition.None? <==>
      IsFading(GroupOf(n)) || IsSliding(GroupOf(n)) || n == InSpecials(rollIn) || n == InSpecials(rollOut)
  {
  }

  /** The rotating presets declare a transition that holds only a transform
      origin, so they declare no duration, no delay and no repeat. */
  lemma RotatingPresetsDeclareOnlyOrigin(n: Name)
    requires IsRotating(GroupOf(n))
    ensures PresetOf(n).transition.Some?
    ensures PresetOf(n).transition.value.duration.None?
    ensures PresetOf(n).transition.value.delay.None?
    ensures PresetOf(n).transition.value.repeat.None?
    ensures PresetOf(n).transition.value.others.Keys == {"transformOrigin"}
  {
  }

  /** zoomIn and zoomOut declare only keyframe times. */
  lemma ZoomInOutDeclareOnlyTimes()
    ensures PresetOf(InZoomingEntrances(zoomIn)).transition == Some(PresetTransition(None, None, None, map["times" := Times]))
    ensures PresetOf(InZoomingExits(zoomOut)).transition == Some(PresetTransition(None, None, None, map["times" := Times]))
  {
  }

  /** The duration in seconds a preset declares when it declares one. */
  function DeclaredSeconds(n: Name): real {
    match n
    case InBouncingEntrances(bounceIn) => 0.75
    case InBouncingExits(bounceOut) => 0.75
    case InFlippers(flipOutX) => 0.75
    case InFlippers(flipOutY) => 0.75
    case InAttentionSeekers(heartBeat) => 1.3
    case InSpecials(hinge) => 2.0
    case _ => 1.0
  }

  /** Six presets pin a duration other than one second; every other declared
      duration is one second. */
  lemma DeclaredDurations(n: Name)
    ensures DeclaredDuration(PresetOf(n).transition).Some? ==>
      DeclaredDuration(PresetOf(n).transition).value == DeclaredSeconds(n)
    ensures DeclaredDuration(PresetOf(n).transition).Some? <==> !Adjustable(n)
  {
  }

  /** No preset declares a delay. */
  lemma NoPresetDeclaresDelay(n: Name)
    ensures PresetOf(n).transition.Some? ==> PresetOf(n).transition.value.delay.None?
  {
  }

  /** pulse is the only preset that declares a repeat. */
  lemma OnlyPulseDeclaresRepeat(n: Name)
    ensures PresetOf(n).transition.Some? && PresetOf(n).transition.value.repeat.Some? <==> n == InAttentionSeekers(pulse)
    ensures n == InAttentionSeekers(pulse) ==> PresetOf(n).transition.value.repeat == Some(Inf)
  {
  }

  /** The wrapper writes over pulse's own `repeat: Infinity` in the
      `transition` prop: without props the prop says no repeat, and under
      reduced motion one repeat. */
  lemma PulseRepeatOverwritten(reduced: bool)
    ensures Render(InAttentionSeekers(pulse), NoProps, reduced).repeat == if reduced then Num(1.0) else Num(0.0)
  {
  }

  /** The presets whose effective duration the caller's props can reach:
      those that declare no transition, the rotating ones, zoomIn and zoomOut. */
  predicate Adjustable(n: Name) {
    IsFading(GroupOf(n)) || IsSliding(GroupOf(n)) || IsRotating(GroupOf(n))
    || n == InSpecials(rollIn) || n == InSpecials(rollOut)
    || n == InZoomingEntrances(zoomIn) || n == InZoomingExits(zoomOut)
  }

  /** A preset pins its duration exactly when it is not adjustable. */
  lemma PinnedIffNotAdjustable(n: Name)
    ensures Pinned(PresetOf(n).transition) <==> !Adjustable(n)
  {
  }

  /** The `faster` flag changes the effective duration of a preset exactly
      when the preset is adjustable and reduced motion is off. */
  lemma SpeedFlagsReachExactlyAdjustable(n: Name, d: real, reduced: bool)
    requires d != 0.0
    ensures Render(n, NoProps.(duration := Some(d), faster := Some(true)), reduced).duration
            != Render(n, NoProps.(duration := Some(d)), reduced).duration
            <==> Adjustable(n) && !reduced
  {
    PinnedIffNotAdjustable(n);
    SpeedFlagsActIffUnpinned(d, reduced, PresetOf(n).transition);
  }

  /** Every fading entrance goes from opacity 0 to 1, every fading exit from
      1 to 0. */
  lemma FadeEndpoints(n: Name)
    ensures GroupOf(n) == FadingEntrances ==> PresetOf(n).opacity == Some(Endpoints(0.0, 1.0))
    ensures GroupOf(n) == FadingExits ==> PresetOf(n).opacity == Some(Endpoints(1.0, 0.0))
  {
  }

  /** bounceIn pins 0.75 s: whatever duration and flags the caller passes,
      and under either preference, it runs 0.75 s; asked for two seconds at
      the `faster` speed it runs 0.75 s, not one second. */
  lemma BounceInIgnoresFaster(p: Props, reduced: bool)
    ensures Render(InBouncingEntrances(bounceIn), p, reduced).duration == 0.75
  {
    assert !Adjustable(InBouncingEntrances(bounceIn));
  }
}
