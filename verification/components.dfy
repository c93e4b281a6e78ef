/** The wrapper components and how they find their preset: the export list
    of the component index, the string lookup `animationVariants[variant]`
    that the wrapper performs on the table, and what happens when the key is
    not in the table. */
module Components {
  import opened Wrappers
  import opened Timing
  import opened Variants

  /** The table lookup `animationVariants[variant]`.  The table is typed
      `Record<string, ...>`, so any string may be asked for.  A string that
      is not a preset key gives `undefined`, or a value the table inherits
      from `Object.prototype` (`constructor`, `toString`, ...); `None` stands
      for both.  The lookup is one function in the source; here it is split
      by key length and first letter only to keep each proof small. */
  function Lookup(s: string): (r: Option<Name>)
    ensures r.Some? ==> Key(r.value) == s
  {
    if |s| == 4 then LookupLength4(s)
    else if |s| == 5 then LookupLength5(s)
    else if |s| == 6 then LookupLength6(s)
    else if |s| == 7 then LookupLength7(s)
    else if |s| == 8 then LookupLength8(s)
    else if |s| == 9 then LookupLength9(s)
    else if |s| == 10 then LookupLength10(s)
    else if |s| == 11 then LookupLength11(s)
    else if |s| == 12 then LookupLength12(s)
    else if |s| == 13 then LookupLength13(s)
    else if |s| == 14 then LookupLength14(s)
    else if |s| == 15 then LookupLength15(s)
    else if |s| == 16 then LookupLength16(s)
    else if |s| == 17 then LookupLength17(s)
    else if |s| == 18 then LookupLength18(s)
    else None
  }

  function LookupLength4(s: string): (r: Option<Name>)
    requires |s| == 4
    ensures r.Some? ==> Key(r.value) == s
  {
    if s[0] == 'f' then
      if s == "flip" then Some(InFlippers(flip))
      else None
    else if s[0] == 't' then
      if s == "tada" then Some(InAttentionSeekers(tada))
      else None
    else None
  }

  function LookupLength5(s: string): (r: Option<Name>)
    requires |s| == 5
    ensures r.Some? ==> Key(r.value) == s
  {
    if s[0] == 'f' then
      if s == "flash" then Some(InAttentionSeekers(flash))
      else None
    else if s[0] == 'h' then
      if s == "hinge" then Some(InSpecials(hinge))
      else None
    else if s[0] == 'j' then
      if s == "jello" then Some(InAttentionSeekers(jello))
      else None
    else if s[0] == 'p' then
      if s == "pulse" then Some(InAttentionSeekers(pulse))
      else None
    else if s[0] == 's' then
      if s == "swing" then Some(InAttentionSeekers(swing))
      else None
    else None
  }

  function LookupLength6(s: string): (r: Option<Name>)
    requires |s| == 6
    ensures r.Some? ==> Key(r.value) == s
  {
    if s[0] == 'b' then
      if s == "bounce" then Some(InAttentionSeekers(bounce))
      else None
    else if s[0] == 'f' then
      if s == "fadeIn" then Some(InFadingEntrances(fadeIn))
      else None
    else if s[0] == 'r' then
      if s == "rollIn" then Some(InSpecials(rollIn))
      else None
    else if s[0] == 's' then
      if s == "shakeX" then Some(InAttentionSeekers(shakeX))
      else if s == "shakeY" then Some(InAttentionSeekers(shakeY))
      else None
    else if s[0] == 'w' then
      if s == "wobble" then Some(InAttentionSeekers(wobble))
      else None
    else if s[0] == 'z' then
      if s == "zoomIn" then Some(InZoomingEntrances(zoomIn))
      else None
    else None
  }

  function LookupLength7(s: string): (r: Option<Name>)
    requires |s| == 7
    ensures r.Some? ==> Key(r.value) == s
  {
    if s[0] == 'f' then
      if s == "fadeOut" then Some(InFadingExits(fadeOut))
      else if s == "flipInX" then Some(InFlippers(flipInX))
      else if s == "flipInY" then Some(InFlippers(flipInY))
      else None
    else if s[0] == 'r' then
      if s == "rollOut" then Some(InSpecials(rollOut))
      else None
    else if s[0] == 'z' then
      if s == "zoomOut" then Some(InZoomingExits(zoomOut))
      else None
    else None
  }

  function LookupLength8(s: string): (r: Option<Name>)
    requires |s| == 8
    ensures r.Some? ==> Key(r.value) == s
  {
    if s[0] == 'b' then
      if s == "backInUp" then Some(InBackEntrances(backInUp))
      else if s == "bounceIn" then Some(InBouncingEntrances(bounceIn))
      else None
    else if s[0] == 'f' then
      if s == "fadeInUp" then Some(InFadingEntrances(fadeInUp))
      else if s == "flipOutX" then Some(InFlippers(flipOutX))
      else if s == "flipOutY" then Some(InFlippers(flipOutY))
      else None
    else if s[0] == 'r' then
      if s == "rotateIn" then Some(InRotatingEntrances(rotateIn))
      else None
    else if s[0] == 'z' then
      if s == "zoomInUp" then Some(InZoomingEntrances(zoomInUp))
      else None
    else None
  }

  function LookupLength9(s: string): (r: Option<Name>)
    requires |s| == 9
    ensures r.Some? ==> Key(r.value) == s
  {
    if s[0] == 'b' then
      if s == "backOutUp" then Some(InBackExits(backOutUp))
      else if s == "bounceOut" then Some(InBouncingExits(bounceOut))
      else None
    else if s[0] == 'f' then
      if s == "fadeOutUp" then Some(InFadingExits(fadeOutUp))
      else None
    else if s[0] == 'h' then
      if s == "headShake" then Some(InAttentionSeekers(headShake))
      else if s == "heartBeat" then Some(InAttentionSeekers(heartBeat))
      else None
    else if s[0] == 'r' then
      if s == "rotateOut" then Some(InRotatingExits(rotateOut))
      else None
    else if s[0] == 's' then
      if s == "slideInUp" then Some(InSlidingEntrances(slideInUp))
      else None
    else if s[0] == 'z' then
      if s == "zoomOutUp" then Some(InZoomingExits(zoomOutUp))
      else None
    else None
  }

  function LookupLength10(s: string): (r: Option<Name>)
    requires |s| == 10
    ensures r.Some? ==> Key(r.value) == s
  {
    if s[0] == 'b' then LookupLength10WithB(s)
    else if s[0] == 'f' then
      if s == "fadeInDown" then Some(InFadingEntrances(fadeInDown))
      else if s == "fadeInLeft" then Some(InFadingEntrances(fadeInLeft))
      else None
    else if s[0] == 'r' then
      if s == "rubberBand" then Some(InAttentionSeekers(rubberBand))
      else None
    else if s[0] == 's' then
      if s == "slideOutUp" then Some(InSlidingExits(slideOutUp))
      else None
    else if s[0] == 'z' then
      if s == "zoomInDown" then Some(InZoomingEntrances(zoomInDown))
      else if s == "zoomInLeft" then Some(InZoomingEntrances(zoomInLeft))
      else None
    else None
  }

  function LookupLength10WithB(s: string): (r: Option<Name>)
    requires |s| == 10 && s[0] == 'b'
    ensures r.Some? ==> Key(r.value) == s
  {
    if s == "backInDown" then Some(InBackEntrances(backInDown))
    else if s == "backInLeft" then Some(InBackEntrances(backInLeft))
    else if s == "bounceInUp" then Some(InBouncingEntrances(bounceInUp))
    else None
  }

  function LookupLength11(s: string): (r: Option<Name>)
    requires |s| == 11
    ensures r.Some? ==> Key(r.value) == s
  {
    if s[0] == 'b' then LookupLength11WithB(s)
    else if s[0] == 'f' then LookupLength11WithF(s)
    else if s[0] == 's' then
      if s == "slideInDown" then Some(InSlidingEntrances(slideInDown))
      else if s == "slideInLeft" then Some(InSlidingEntrances(slideInLeft))
      else None
    else if s[0] == 'z' then LookupLength11WithZ(s)
    else None
  }

  function LookupLength11WithB(s: string): (r: Option<Name>)
    requires |s| == 11 && s[0] == 'b'
    ensures r.Some? ==> Key(r.value) == s
  {
    if s == "backInRight" then Some(InBackEntrances(backInRight))
    else if s == "backOutDown" then Some(InBackExits(backOutDown))
    else if s == "backOutLeft" then Some(InBackExits(backOutLeft))
    else if s == "bounceOutUp" then Some(InBouncingExits(bounceOutUp))
    else None
  }

  function LookupLength11WithF(s: string): (r: Option<Name>)
    requires |s| == 11 && s[0] == 'f'
    ensures r.Some? ==> Key(r.value) == s
  {
    if s == "fadeInRight" then Some(InFadingEntrances(fadeInRight))
    else if s == "fadeInUpBig" then Some(InFadingEntrances(fadeInUpBig))
    else if s == "fadeOutDown" then Some(InFadingExits(fadeOutDown))
    else if s == "fadeOutLeft" then Some(InFadingExits(fadeOutLeft))
    else None
  }

  function LookupLength11WithZ(s: string): (r: Option<Name>)
    requires |s| == 11 && s[0] == 'z'
    ensures r.Some? ==> Key(r.value) == s
  {
    if s == "zoomInRight" then Some(InZoomingEntrances(zoomInRight))
    else if s == "zoomOutDown" then Some(InZoomingExits(zoomOutDown))
    else if s == "zoomOutLeft" then Some(InZoomingExits(zoomOutLeft))
    else None
  }

  function LookupLength12(s: string): (r: Option<Name>)
    requires |s| == 12
    ensures r.Some? ==> Key(r.value) == s
  {
    if s[0] == 'b' then LookupLength12WithB(s)
    else if s[0] == 'f' then
      if s == "fadeOutRight" then Some(InFadingExits(fadeOutRight))
      else if s == "fadeOutUpBig" then Some(InFadingExits(fadeOutUpBig))
      else None
    else if s[0] == 'j' then
      if s == "jackInTheBox" then Some(InSpecials(jackInTheBox))
      else None
    else if s[0] == 's' then LookupLength12WithS(s)
    else if s[0] == 'z' then
      if s == "zoomOutRight" then Some(InZoomingExits(zoomOutRight))
      else None
    else None
  }

  function LookupLength12WithB(s: string): (r: Option<Name>)
    requires |s| == 12 && s[0] == 'b'
    ensures r.Some? ==> Key(r.value) == s
  {
    if s == "backOutRight" then Some(InBackExits(backOutRight))
    else if s == "bounceInDown" then Some(InBouncingEntrances(bounceInDown))
    else if s == "bounceInLeft" then Some(InBouncingEntrances(bounceInLeft))
    else None
  }

  function LookupLength12WithS(s: string): (r: Option<Name>)
    requires |s| == 12 && s[0] == 's'
    ensures r.Some? ==> Key(r.value) == s
  {
    if s == "slideInRight" then Some(InSlidingEntrances(slideInRight))
    else if s == "slideOutDown" then Some(InSlidingExits(slideOutDown))
    else if s == "slideOutLeft" then Some(InSlidingExits(slideOutLeft))
    else None
  }

  function LookupLength13(s: string): (r: Option<Name>)
    requires |s| == 13
    ensures r.Some? ==> Key(r.value) == s
  {
    if s[0] == 'b' then
      if s == "bounceInRight" then Some(InBouncingEntrances(bounceInRight))
      else if s == "bounceOutDown" then Some(InBouncingExits(bounceOutDown))
      else if s == "bounceOutLeft" then Some(InBouncingExits(bounceOutLeft))
      else None
    else if s[0] == 'f' then
      if s == "fadeInDownBig" then Some(InFadingEntrances(fadeInDownBig))
      else if s == "fadeInLeftBig" then Some(InFadingEntrances(fadeInLeftBig))
      else if s == "fadeInTopLeft" then Some(InFadingEntrances(fadeInTopLeft))
      else None
    else if s[0] == 's' then
      if s == "slideOutRight" then Some(InSlidingExits(slideOutRight))
      else None
    else None
  }

  function LookupLength14(s: string): (r: Option<Name>)
    requires |s| == 14
    ensures r.Some? ==> Key(r.value) == s
  {
    if s[0] == 'b' then
      if s == "bounceOutRight" then Some(InBouncingExits(bounceOutRight))
      else None
    else if s[0] == 'f' then
      if s == "fadeInRightBig" then Some(InFadingEntrances(fadeInRightBig))
      else if s == "fadeInTopRight" then Some(InFadingEntrances(fadeInTopRight))
      else if s == "fadeOutDownBig" then Some(InFadingExits(fadeOutDownBig))
      else if s == "fadeOutLeftBig" then Some(InFadingExits(fadeOutLeftBig))
      else if s == "fadeOutTopLeft" then Some(InFadingExits(fadeOutTopLeft))
      else None
    else if s[0] == 'r' then
      if s == "rotateInUpLeft" then Some(InRotatingEntrances(rotateInUpLeft))
      else None
    else None
  }

  function LookupLength15(s: string): (r: Option<Name>)
    requires |s| == 15
    ensures r.Some? ==> Key(r.value) == s
  {
    if s[0] == 'f' then
      if s == "fadeOutRightBig" then Some(InFadingExits(fadeOutRightBig))
      else if s == "fadeOutTopRight" then Some(InFadingExits(fadeOutTopRight))
      else None
    else if s[0] == 'r' then
      if s == "rotateInUpRight" then Some(InRotatingEntrances(rotateInUpRight))
      else if s == "rotateOutUpLeft" then Some(InRotatingExits(rotateOutUpLeft))
      else None
    else None
  }

  function LookupLength16(s: string): (r: Option<Name>)
    requires |s| == 16
    ensures r.Some? ==> Key(r.value) == s
  {
    if s[0] == 'f' then
      if s == "fadeInBottomLeft" then Some(InFadingEntrances(fadeInBottomLeft))
      else None
    else if s[0] == 'l' then
      if s == "lightSpeedInLeft" then Some(InLightspeed(lightSpeedInLeft))
      else None
    else if s[0] == 'r' then
      if s == "rotateInDownLeft" then Some(InRotatingEntrances(rotateInDownLeft))
      else if s == "rotateOutUpRight" then Some(InRotatingExits(rotateOutUpRight))
      else None
    else None
  }

  function LookupLength17(s: string): (r: Option<Name>)
    requires |s| == 17
    ensures r.Some? ==> Key(r.value) == s
  {
    if s[0] == 'f' then
      if s == "fadeInBottomRight" then Some(InFadingEntrances(fadeInBottomRight))
      else if s == "fadeOutBottomLeft" then Some(InFadingExits(fadeOutBottomLeft))
      else None
    else if s[0] == 'l' then
      if s == "lightSpeedInRight" then Some(InLightspeed(lightSpeedInRight))
      else if s == "lightSpeedOutLeft" then Some(InLightspeed(lightSpeedOutLeft))
      else None
    else if s[0] == 'r' then
      if s == "rotateInDownRight" then Some(InRotatingEntrances(rotateInDownRight))
      else if s == "rotateOutDownLeft" then Some(InRotatingExits(rotateOutDownLeft))
      else None
    else None
  }

  function LookupLength18(s: string): (r: Option<Name>)
    requires |s| == 18
    ensures r.Some? ==> Key(r.value) == s
  {
    if s[0] == 'f' then
      if s == "fadeOutBottomRight" then Some(InFadingExits(fadeOutBottomRight))
      else None
    else if s[0] == 'l' then
      if s == "lightSpeedOutRight" then Some(InLightspeed(lightSpeedOutRight))
      else None
    else if s[0] == 'r' then
      if s == "rotateOutDownRight" then Some(InRotatingExits(rotateOutDownRight))
      else None
    else None
  }

  /** The names the component index exports a wrapper for under each of its
      group headings. */
  function GroupExports(g: Group): seq<string> {
    match g
    case AttentionSeekers => ["bounce", "flash", "pulse", "rubberBand", "shakeX", "shakeY", "headShake", "swing", "tada", "wobble", "jello", "heartBeat"]
    case BackEntrances => ["backInDown", "backInLeft", "backInRight", "backInUp"]
    case BackExits => ["backOutDown", "backOutLeft", "backOutRight", "backOutUp"]
    case BouncingEntrances => ["bounceIn", "bounceInDown", "bounceInLeft", "bounceInRight", "bounceInUp"]
    case BouncingExits => ["bounceOut", "bounceOutDown", "bounceOutLeft", "bounceOutRight", "bounceOutUp"]
    case FadingEntrances => ["fadeIn", "fadeInDown", "fadeInDownBig", "fadeInLeft", "fadeInLeftBig", "fadeInRight", "fadeInRightBig", "fadeInUp", "fadeInUpBig", "fadeInTopLeft", "fadeInTopRight", "fadeInBottomLeft", "fadeInBottomRight"]
    case FadingExits => ["fadeOut", "fadeOutDown", "fadeOutDownBig", "fadeOutLeft", "fadeOutLeftBig", "fadeOutRight", "fadeOutRightBig", "fadeOutUp", "fadeOutUpBig", "fadeOutTopLeft", "fadeOutTopRight", "fadeOutBottomLeft", "fadeOutBottomRight"]
    case Flippers => ["flip", "flipInX", "flipInY", "flipOutX", "flipOutY"]
    case Lightspeed => ["lightSpeedInLeft", "lightSpeedInRight", "lightSpeedOutLeft", "lightSpeedOutRight"]
    case RotatingEntrances => ["rotateIn", "rotateInDownLeft", "rotateInDownRight", "rotateInUpLeft", "rotateInUpRight"]
    case RotatingExits => ["rotateOut", "rotateOutDownLeft", "rotateOutDownRight", "rotateOutUpLeft", "rotateOutUpRight"]
    case Specials => ["hinge", "jackInTheBox", "rollIn", "rollOut"]
    case ZoomingEntrances => ["zoomIn", "zoomInDown", "zoomInLeft", "zoomInRight", "zoomInUp"]
    case ZoomingExits => ["zoomOut", "zoomOutDown", "zoomOutLeft", "zoomOutRight", "zoomOutUp"]
    case SlidingEntrances => ["slideInDown", "slideInLeft", "slideInRight", "slideInUp"]
    case SlidingExits => ["slideOutDown", "slideOutLeft", "slideOutRight", "slideOutUp"]
  }

  /** The names the component index exports a wrapper for, in its order; the
      copy-in component file exports the same names in the same order. */
  const Exports: seq<string> :=
    GroupExports(AttentionSeekers)
    + GroupExports(BackEntrances)
    + GroupExports(BackExits)
    + GroupExports(BouncingEntrances)
    + GroupExports(BouncingExits)
    + GroupExports(FadingEntrances)
    + GroupExports(FadingExits)
    + GroupExports(Flippers)
    + GroupExports(Lightspeed)
    + GroupExports(RotatingEntrances)
    + GroupExports(RotatingExits)
    + GroupExports(Specials)
    + GroupExports(ZoomingEntrances)
    + GroupExports(ZoomingExits)
    + GroupExports(SlidingEntrances)
    + GroupExports(SlidingExits)

  /** Every preset is found under its key. */
  lemma {:induction false} LookupKey(n: Name)
    ensures Lookup(Key(n)) == Some(n)
  {
    match n
    case InAttentionSeekers(m) => AttentionSeekersKeys();
    case InBackEntrances(m) => BackEntrancesKeys();
    case InBackExits(m) => BackExitsKeys();
    case InBouncingEntrances(m) => BouncingEntrancesKeys();
    case InBouncingExits(m) => BouncingExitsKeys();
    case InFadingEntrances(m) => FadingEntrancesKeys();
    case InFadingExits(m) => FadingExitsKeys();
    case InFlippers(m) => FlippersKeys();
    case InLightspeed(m) => LightspeedKeys();
    case InRotatingEntrances(m) => RotatingEntrancesKeys();
    case InRotatingExits(m) => RotatingExitsKeys();
    case InSpecials(m) => SpecialsKeys();
    case InZoomingEntrances(m) => ZoomingEntrancesKeys();
    case InZoomingExits(m) => ZoomingExitsKeys();
    case InSlidingEntrances(m) => SlidingEntrancesKeys();
    case InSlidingExits(m) => SlidingExitsKeys();
  }

  /** Two presets with the same key are the same preset. */
  lemma KeyInjective(n: Name, m: Name)
    ensures Key(n) == Key(m) ==> n == m
  {
    LookupKey(n);
    LookupKey(m);
  }

  /** A string is found exactly when it is the key of some preset, and then
      it is found as that preset. */
  lemma LookupIff(s: string)
    ensures Lookup(s).None? <==> forall n :: Key(n) != s
    ensures forall n :: Key(n) == s ==> Lookup(s) == Some(n)
  {
    forall n | Key(n) == s
      ensures Lookup(s) == Some(n)
    {
      LookupKey(n);
    }
  }

  /** The names exported under one heading are keys of the table, and every
      preset of the group is exported under it. */
  lemma GroupExportsAreItsKeys(g: Group)
    ensures forall s | s in GroupExports(g) :: Lookup(s).Some?
    ensures forall n | GroupOf(n) == g :: Key(n) in GroupExports(g)
  {
    match g
    case AttentionSeekers => AttentionSeekersKeys(); AttentionSeekersExports();
    case BackEntrances => BackEntrancesKeys(); BackEntrancesExports();
    case BackExits => BackExitsKeys(); BackExitsExports();
    case BouncingEntrances => BouncingEntrancesKeys(); BouncingEntrancesExports();
    case BouncingExits => BouncingExitsKeys(); BouncingExitsExports();
    case FadingEntrances => FadingEntrancesKeys(); FadingEntrancesExports();
    case FadingExits => FadingExitsKeys(); FadingExitsExports();
    case Flippers => FlippersKeys(); FlippersExports();
    case Lightspeed => LightspeedKeys(); LightspeedExports();
    case RotatingEntrances => RotatingEntrancesKeys(); RotatingEntrancesExports();
    case RotatingExits => RotatingExitsKeys(); RotatingExitsExports();
    case Specials => SpecialsKeys(); SpecialsExports();
    case ZoomingEntrances => ZoomingEntrancesKeys(); ZoomingEntrancesExports();
    case ZoomingExits => ZoomingExitsKeys(); ZoomingExitsExports();
    case SlidingEntrances => SlidingEntrancesKeys(); SlidingEntrancesExports();
    case SlidingExits => SlidingExitsKeys(); SlidingExitsExports();
  }

  /** Every wrapper the component index exports finds its preset. */
  lemma ExportsAreKeys()
    ensures forall s | s in Exports :: Lookup(s).Some?
  {
    forall g: Group {
      GroupExportsAreItsKeys(g);
    }
  }

  /** Every preset has a wrapper in the component index. */
  lemma EveryPresetExported(n: Name)
    ensures Key(n) in Exports
  {
    var g := GroupOf(n);
    GroupExportsAreItsKeys(g);
    assert Key(n) in GroupExports(g);
  }

  // ---------------------------------------------------------------------------
  // Mounting a wrapper
  // ---------------------------------------------------------------------------

  /** What mounting a wrapper does: it animates with the resolved `transition`
      prop, or, when its key is not in the table, `animation` is `undefined`
      or a value inherited from `Object.prototype`, and rendering throws a
      TypeError, at `animation.initial` for `undefined` and at
      `animation.animate.transition` for an inherited value. */
  datatype Outcome = Animates(transition: Transition<Extra>) | TypeError

  /** The library's `BaseAnimation` mounted with the key `variant`. */
  function Mount(variant: string, p: Props, reduced: bool): (o: Outcome)
    ensures o.TypeError? <==> forall n :: Key(n) != variant
    ensures forall n :: Key(n) == variant ==> o == Animates(Render(n, p, reduced))
  {
    LookupIff(variant);
    match Lookup(variant)
    case None => TypeError
    case Some(n) => Animates(Render(n, p, reduced))
  }

  /** Every wrapper the component index exports animates. */
  lemma ExportedWrappersAnimate(p: Props, reduced: bool)
    ensures forall s | s in Exports :: Mount(s, p, reduced).Animates?
  {
    ExportsAreKeys();
  }

  /** The keys of the copy-in table as shipped: the first three attention
      seekers, each with the same entry as in the library table. */
  const CopyInKeys: seq<string> := ["bounce", "flash", "pulse"]

  /** The copy-in file's `BaseAnimation` mounted with the key `variant`: it
      reads the copy-in table, so every other key throws. */
  function CopyInMount(variant: string, p: Props, reduced: bool): (o: Outcome)
    ensures o.Animates? <==> variant in CopyInKeys
    ensures o.Animates? ==> o == Mount(variant, p, reduced)
  {
    if variant in CopyInKeys then
      assert Lookup(variant).Some?;
      Mount(variant, p, reduced)
    else TypeError
  }

  /** Of the copy-in file's exported wrappers, exactly the three whose keys
      the copy-in table holds animate, and these are its first three; every
      other exported wrapper throws. */
  lemma CopyInExportsMostlyThrow(p: Props, reduced: bool)
    ensures forall s | s in Exports :: CopyInMount(s, p, reduced).Animates? <==> s in CopyInKeys
  {
  }

  /** The index exports 97 wrappers; the copy-in table covers the first three. */
  lemma ExportCount()
    ensures |Exports| == 97
    ensures Exports[..3] == CopyInKeys
  {
  }

  // The facts above, one group at a time: for each group, every preset is
  // found under its key and exported under the group's heading, and every
  // name exported under the heading is found.

  lemma AttentionSeekersKeys()
    ensures forall m :: Lookup(Key(InAttentionSeekers(m))) == Some(InAttentionSeekers(m)) && Key(InAttentionSeekers(m)) in GroupExports(AttentionSeekers)
  {
  }

  lemma AttentionSeekersExports()
    ensures forall s | s in GroupExports(AttentionSeekers) :: Lookup(s).Some?
  {
  }

  lemma BackEntrancesKeys()
    ensures forall m :: Lookup(Key(InBackEntrances(m))) == Some(InBackEntrances(m)) && Key(InBackEntrances(m)) in GroupExports(BackEntrances)
  {
  }

  lemma BackEntrancesExports()
    ensures forall s | s in GroupExports(BackEntrances) :: Lookup(s).Some?
  {
  }

  lemma BackExitsKeys()
    ensures forall m :: Lookup(Key(InBackExits(m))) == Some(InBackExits(m)) && Key(InBackExits(m)) in GroupExports(BackExits)
  {
  }

  lemma BackExitsExports()
    ensures forall s | s in GroupExports(BackExits) :: Lookup(s).Some?
  {
  }

  lemma BouncingEntrancesKeys()
    ensures forall m :: Lookup(Key(InBouncingEntrances(m))) == Some(InBouncingEntrances(m)) && Key(InBouncingEntrances(m)) in GroupExports(BouncingEntrances)
  {
  }

  lemma BouncingEntrancesExports()
    ensures forall s | s in GroupExports(BouncingEntrances) :: Lookup(s).Some?
  {
  }

  lemma BouncingExitsKeys()
    ensures forall m :: Lookup(Key(InBouncingExits(m))) == Some(InBouncingExits(m)) && Key(InBouncingExits(m)) in GroupExports(BouncingExits)
  {
  }

  lemma BouncingExitsExports()
    ensures forall s | s in GroupExports(BouncingExits) :: Lookup(s).Some?
  {
  }

  lemma FadingEntrancesKeys()
    ensures forall m :: Lookup(Key(InFadingEntrances(m))) == Some(InFadingEntrances(m)) && Key(InFadingEntrances(m)) in GroupExports(FadingEntrances)
  {
  }

  lemma FadingEntrancesExports()
    ensures forall s | s in GroupExports(FadingEntrances) :: Lookup(s).Some?
  {
  }

  lemma FadingExitsKeys()
    ensures forall m :: Lookup(Key(InFadingExits(m))) == Some(InFadingExits(m)) && Key(InFadingExits(m)) in GroupExports(FadingExits)
  {
  }

  lemma FadingExitsExports()
    ensures forall s | s in GroupExports(FadingExits) :: Lookup(s).Some?
  {
  }

  lemma FlippersKeys()
    ensures forall m :: Lookup(Key(InFlippers(m))) == Some(InFlippers(m)) && Key(InFlippers(m)) in GroupExports(Flippers)
  {
  }

  lemma FlippersExports()
    ensures forall s | s in GroupExports(Flippers) :: Lookup(s).Some?
  {
  }

  lemma LightspeedKeys()
    ensures forall m :: Lookup(Key(InLightspeed(m))) == Some(InLightspeed(m)) && Key(InLightspeed(m)) in GroupExports(Lightspeed)
  {
  }

  lemma LightspeedExports()
    ensures forall s | s in GroupExports(Lightspeed) :: Lookup(s).Some?
  {
  }

  lemma RotatingEntrancesKeys()
    ensures forall m :: Lookup(Key(InRotatingEntrances(m))) == Some(InRotatingEntrances(m)) && Key(InRotatingEntrances(m)) in GroupExports(RotatingEntrances)
  {
  }

  lemma RotatingEntrancesExports()
    ensures forall s | s in GroupExports(RotatingEntrances) :: Lookup(s).Some?
  {
  }

  lemma RotatingExitsKeys()
    ensures forall m :: Lookup(Key(InRotatingExits(m))) == Some(InRotatingExits(m)) && Key(InRotatingExits(m)) in GroupExports(RotatingExits)
  {
  }

  lemma RotatingExitsExports()
    ensures forall s | s in GroupExports(RotatingExits) :: Lookup(s).Some?
  {
  }

  lemma SpecialsKeys()
    ensures forall m :: Lookup(Key(InSpecials(m))) == Some(InSpecials(m)) && Key(InSpecials(m)) in GroupExports(Specials)
  {
  }

  lemma SpecialsExports()
    ensures forall s | s in GroupExports(Specials) :: Lookup(s).Some?
  {
  }

  lemma ZoomingEntrancesKeys()
    ensures forall m :: Lookup(Key(InZoomingEntrances(m))) == Some(InZoomingEntrances(m)) && Key(InZoomingEntrances(m)) in GroupExports(ZoomingEntrances)
  {
  }

  lemma ZoomingEntrancesExports()
    ensures forall s | s in GroupExports(ZoomingEntrances) :: Lookup(s).Some?
  {
  }

  lemma ZoomingExitsKeys()
    ensures forall m :: Lookup(Key(InZoomingExits(m))) == Some(InZoomingExits(m)) && Key(InZoomingExits(m)) in GroupExports(ZoomingExits)
  {
  }

  lemma ZoomingExitsExports()
    ensures forall s | s in GroupExports(ZoomingExits) :: Lookup(s).Some?
  {
  }

  lemma SlidingEntrancesKeys()
    ensures forall m :: Lookup(Key(InSlidingEntrances(m))) == Some(InSlidingEntrances(m)) && Key(InSlidingEntrances(m)) in GroupExports(SlidingEntrances)
  {
  }

  lemma SlidingEntrancesExports()
    ensures forall s | s in GroupExports(SlidingEntrances) :: Lookup(s).Some?
  {
  }

  lemma SlidingExitsKeys()
    ensures forall m :: Lookup(Key(InSlidingExits(m))) == Some(InSlidingExits(m)) && Key(InSlidingExits(m)) in GroupExports(SlidingExits)
  {
  }

  lemma SlidingExitsExports()
    ensures forall s | s in GroupExports(SlidingExits) :: Lookup(s).Some?
  {
  }
}
