/** The per-frame option handling of the post-processing effect. The effect keeps private
    shadow copies of four public options and, at the start of every frame, copies changed
    options into the shadows, enforces the coupling rules between the three viewport flags,
    resizes the shared scene texture and reports whether anything changed. */
module PostProcessing {
  import opened EngineTypes
  import opened Mathf
  import RenderUtils

  /** Below this output size a custom viewport is not drawn at all. */
  const MinCustomTargetWidth := 320
  const MinCustomTargetHeight := 240

  /** The options that are tracked through shadow copies. The same record holds the public
      values and their private shadows. */
  datatype Tracked = Tracked(
    renderSize: Int2,
    integerScaling: bool,
    useCustomViewport: bool,
    recalculateViewportSizeOnChange: bool)

  /** The shared scene resources, of which only the internal render size matters here. */
  datatype Resources = NoResources | Resources(internalRenderSize: Int2)

  /** Which of the two change events have a subscriber (an event without one is skipped). */
  datatype Listeners = Listeners(resolutionChanged: bool, change: bool)

  /** An event raised by the effect: `OnResolutionChanged` with the new size, or `OnChange`. */
  datatype Event = ResolutionChanged(size: Int2) | Changed

  /** The part of the effect's state the core logic reads and writes. */
  datatype Effect = Effect(
    options: Tracked,
    shadow: Tracked,
    resources: Resources,
    listeners: Listeners,
    targetSize: Int2,
    targetViewport: Viewport)

  /** The effect after (part of) one change-handling pass, whether it found a change, and
      the events it raised so far, in order. */
  datatype Update = Update(effect: Effect, changed: bool, events: seq<Event>)

  /** Public options as the effect is created. */
  const DefaultOptions := Tracked(Int2(640, 480), false, true, true)

  /** Shadows before the first pass: every field has its default value. */
  const InitialShadow := Tracked(Int2(0, 0), false, false, false)

  /** The scene resources' internal size before they are first resized. */
  const InitialInternalRenderSize := Int2(320, 240)

  // ---------------------------------------------------------------------------------
  // Enabling

  /** Recalculating the viewport is pointless without a custom viewport, so enabling the
      effect clears that flag when no custom viewport is used. */
  function NormaliseFlags(options: Tracked): (r: Tracked)
    ensures r.recalculateViewportSizeOnChange
            <==> options.recalculateViewportSizeOnChange && options.useCustomViewport
    ensures r.(recalculateViewportSizeOnChange := options.recalculateViewportSizeOnChange)
            == options
  {
    if !options.useCustomViewport then options.(recalculateViewportSizeOnChange := false)
    else options
  }

  /** After normalisation the recalculation flag implies the custom viewport, and
      normalising twice is the same as normalising once. */
  lemma NormalisedFlagsAreCoupled(options: Tracked)
    ensures var r := NormaliseFlags(options);
            && (r.recalculateViewportSizeOnChange ==> r.useCustomViewport)
            && NormaliseFlags(r) == r
  {
  }

  /** Enabling normalises the flags, takes the output size as the target and fits the
      display viewport to it. */
  function OnEnable(e: Effect, outputSize: Int2, round: real -> int): (r: Effect)
    requires IsPositive(e.options.renderSize) && IsPositive(outputSize) && IsRoundToInt(round)
    ensures r.options.recalculateViewportSizeOnChange ==> r.options.useCustomViewport
    ensures r.options == NormaliseFlags(e.options)
    ensures r.targetSize == outputSize
    ensures r.targetViewport == RenderUtils.CalculateDisplayViewport(
              e.options.renderSize, outputSize, e.options.integerScaling, round)
    ensures r.shadow == e.shadow && r.resources == e.resources && r.listeners == e.listeners
  {
    var options := NormaliseFlags(e.options);
    e.(options := options,
       targetSize := outputSize,
       targetViewport := RenderUtils.CalculateDisplayViewport(
         options.renderSize, outputSize, options.integerScaling, round))
  }

  // ---------------------------------------------------------------------------------
  // Change handling, one step per tracked option

  // Each step below rewrites one shadow (and possibly a coupled option); its contract says
  // exactly which fields it may touch, so that the pass can be reasoned about step by step.

  function SyncRenderSize(u: Update): (r: Update)
    ensures var e := u.effect;
            r.effect == e.(shadow := e.shadow.(renderSize := e.options.renderSize))
    ensures r.changed == (u.changed || u.effect.options.renderSize != u.effect.shadow.renderSize)
    ensures r.events == u.events + (if u.effect.listeners.resolutionChanged
                                       && u.effect.options.renderSize != u.effect.shadow.renderSize
                                    then [ResolutionChanged(u.effect.options.renderSize)] else [])
  {
    var e := u.effect;
    if e.options.renderSize != e.shadow.renderSize then
      var e' := e.(shadow := e.shadow.(renderSize := e.options.renderSize));
      var events := if e.listeners.resolutionChanged
                    then u.events + [ResolutionChanged(e'.shadow.renderSize)]
                    else u.events;
      Update(e', true, events)
    else u
  }

  function SyncResources(u: Update): (r: Update)
    ensures var e := u.effect;
            var stale := e.resources.Resources? && e.resources.internalRenderSize != e.shadow.renderSize;
            && r.effect == e.(resources := if stale then Resources(e.options.renderSize) else e.resources)
            && r.changed == (u.changed || stale)
            && r.events == u.events
  {
    var e := u.effect;
    if e.resources.Resources? && e.resources.internalRenderSize != e.shadow.renderSize then
      u.(effect := e.(resources := Resources(e.options.renderSize)), changed := true)
    else u
  }

  function SyncIntegerScaling(u: Update): (r: Update)
    ensures var e := u.effect;
            var on := e.options.integerScaling && !e.shadow.integerScaling;
            && r.effect == e.(options := e.options.(useCustomViewport := e.options.useCustomViewport || on),
                              shadow := e.shadow.(integerScaling := e.options.integerScaling))
            && r.changed == (u.changed || e.options.integerScaling != e.shadow.integerScaling)
            && r.events == u.events
  {
    var e := u.effect;
    if e.options.integerScaling != e.shadow.integerScaling then
      var options := if e.options.integerScaling then e.options.(useCustomViewport := true)
                     else e.options;
      var shadow := e.shadow.(integerScaling := e.options.integerScaling);
      u.(effect := e.(options := options, shadow := shadow), changed := true)
    else u
  }

  function SyncCustomViewport(u: Update): (r: Update)
    ensures var e := u.effect;
            var off := !e.options.useCustomViewport && e.shadow.useCustomViewport;
            && r.effect == e.(options := e.options.(recalculateViewportSizeOnChange :=
                                                     e.options.recalculateViewportSizeOnChange && !off),
                              shadow := e.shadow.(useCustomViewport := e.options.useCustomViewport))
            && r.changed == (u.changed || e.options.useCustomViewport != e.shadow.useCustomViewport)
            && r.events == u.events
  {
    var e := u.effect;
    if e.options.useCustomViewport != e.shadow.useCustomViewport then
      var options := if !e.options.useCustomViewport
                     then e.options.(recalculateViewportSizeOnChange := false)
                     else e.options;
      var shadow := e.shadow.(useCustomViewport := e.options.useCustomViewport);
      u.(effect := e.(options := options, shadow := shadow), changed := true)
    else u
  }

  function SyncRecalculate(u: Update): (r: Update)
    ensures var e := u.effect;
            var on := e.options.recalculateViewportSizeOnChange && !e.shadow.recalculateViewportSizeOnChange;
            && r.effect == e.(options := e.options.(useCustomViewport := e.options.useCustomViewport || on),
                              shadow := e.shadow.(recalculateViewportSizeOnChange :=
                                                    e.options.recalculateViewportSizeOnChange))
            && r.changed == (u.changed || e.options.recalculateViewportSizeOnChange
                                          != e.shadow.recalculateViewportSizeOnChange)
            && r.events == u.events
  {
    var e := u.effect;
    if e.options.recalculateViewportSizeOnChange != e.shadow.recalculateViewportSizeOnChange then
      var options := if e.options.recalculateViewportSizeOnChange
                     then e.options.(useCustomViewport := true)
                     else e.options;
      var shadow := e.shadow.(recalculateViewportSizeOnChange :=
                                e.options.recalculateViewportSizeOnChange);
      u.(effect := e.(options := options, shadow := shadow), changed := true)
    else u
  }

  /** Nothing for a change-handling pass to do: every tracked option equals its shadow and
      the scene resources, if any, already have the render size. */
  predicate Settled(e: Effect) {
    && e.options == e.shadow
    && (e.resources.Resources? ==> e.resources.internalRenderSize == e.options.renderSize)
  }

  /** Integer scaling is being switched on. */
  predicate IntegerScalingTurnedOn(e: Effect) {
    e.options.integerScaling && !e.shadow.integerScaling
  }

  /** The custom viewport is being switched off (and integer scaling does not force it back). */
  predicate CustomViewportTurnedOff(e: Effect) {
    !e.options.useCustomViewport && e.shadow.useCustomViewport && !IntegerScalingTurnedOn(e)
  }

  /** One change-handling pass. Afterwards the render size, integer-scaling and
      recalculation shadows equal their options and the scene resources have the render
      size; nothing outside the options, shadows and resources changes. What the pass
      reports is stated by `ChangeReport` and `EventsMatchChanges`, how the flags move by
      `CouplingRules`. */
  function HandleChanges(e: Effect): (u: Update)
    ensures u.effect.options.renderSize == e.options.renderSize
    ensures u.effect.options.integerScaling == e.options.integerScaling
    ensures u.effect.shadow.renderSize == e.options.renderSize
    ensures u.effect.shadow.integerScaling == e.options.integerScaling
    ensures u.effect.shadow.recalculateViewportSizeOnChange
            == u.effect.options.recalculateViewportSizeOnChange
    ensures u.effect.shadow.useCustomViewport
            == (e.options.useCustomViewport || IntegerScalingTurnedOn(e))
    ensures u.effect.resources
            == if e.resources.Resources? then Resources(e.options.renderSize) else NoResources
    ensures u.effect.listeners == e.listeners
    ensures u.effect.targetSize == e.targetSize && u.effect.targetViewport == e.targetViewport
  {
    var u1 := SyncRenderSize(Update(e, false, []));
    var u2 := SyncResources(u1);
    var u3 := SyncIntegerScaling(u2);
    var u4 := SyncCustomViewport(u3);
    var u5 := SyncRecalculate(u4);
    if u5.changed && u5.effect.listeners.change then u5.(events := u5.events + [Changed]) else u5
  }

  /** The coupling rules of a pass: switching integer scaling or recalculation on leaves
      the custom viewport on, and switching the custom viewport off leaves recalculation off.
      The two flags change in no other way. */
  lemma CouplingRules(e: Effect)
    ensures var r := HandleChanges(e).effect;
            IntegerScalingTurnedOn(e) ==> r.options.useCustomViewport
    ensures var r := HandleChanges(e).effect;
            r.options.recalculateViewportSizeOnChange && !e.shadow.recalculateViewportSizeOnChange
            ==> r.options.useCustomViewport
    ensures var r := HandleChanges(e).effect;
            CustomViewportTurnedOff(e)
            ==> !r.options.useCustomViewport && !r.options.recalculateViewportSizeOnChange
    ensures var r := HandleChanges(e).effect;
            r.options.recalculateViewportSizeOnChange
            <==> e.options.recalculateViewportSizeOnChange && !CustomViewportTurnedOff(e)
    ensures var r := HandleChanges(e).effect;
            r.options.useCustomViewport
            <==> || e.options.useCustomViewport
                 || IntegerScalingTurnedOn(e)
                 || (r.options.recalculateViewportSizeOnChange
                     && !e.shadow.recalculateViewportSizeOnChange)
  {
  }

  /** A pass reports a change exactly when the effect was not settled, and leaves a settled
      effect as it was, raising no event. */
  lemma ChangeReport(e: Effect)
    ensures HandleChanges(e).changed <==> !Settled(e)
    ensures !HandleChanges(e).changed ==> HandleChanges(e).effect == e && HandleChanges(e).events == []
  {
  }

  /** Events: `OnResolutionChanged` is raised, with the new size, exactly when the render size
      differed from its shadow and has a subscriber; `OnChange` exactly when the pass reports
      a change and has a subscriber. */
  lemma EventsMatchChanges(e: Effect, size: Int2)
    ensures var u := HandleChanges(e);
            u.events
            == (if e.listeners.resolutionChanged && e.options.renderSize != e.shadow.renderSize
                then [ResolutionChanged(e.options.renderSize)] else [])
               + (if e.listeners.change && u.changed then [Changed] else [])
    ensures var u := HandleChanges(e);
            ResolutionChanged(size) in u.events
            <==> e.listeners.resolutionChanged && e.options.renderSize != e.shadow.renderSize
                 && size == e.options.renderSize
    ensures var u := HandleChanges(e);
            Changed in u.events <==> e.listeners.change && u.changed
  {
  }

  /** The viewport shadow is the one that can lag behind: after a pass, it differs from its
      option only when recalculation was switched on and forced the custom viewport on. */
  lemma ViewportShadowMayLag(e: Effect)
    ensures var r := HandleChanges(e).effect;
            r.shadow.useCustomViewport != r.options.useCustomViewport
            ==> && r.options.useCustomViewport
                && !r.shadow.useCustomViewport
                && r.options.recalculateViewportSizeOnChange
                && !e.shadow.recalculateViewportSizeOnChange
  {
  }

  /** Two passes with no edit in between always settle the effect, so a third pass reports
      no change. */
  lemma {:induction false} SecondPassSettles(e: Effect)
    ensures Settled(HandleChanges(HandleChanges(e).effect).effect)
    ensures var r := HandleChanges(HandleChanges(e).effect).effect;
            !HandleChanges(r).changed && HandleChanges(r).effect == r
  {
    ViewportShadowMayLag(e);
  }

  /** When the shadows are coupled (recalculation implies the custom viewport), a pass leaves
      the options coupled, whatever the options were edited to. */
  lemma CouplingRestored(e: Effect)
    requires e.shadow.recalculateViewportSizeOnChange ==> e.shadow.useCustomViewport
    ensures var r := HandleChanges(e).effect;
            r.options.recalculateViewportSizeOnChange ==> r.options.useCustomViewport
  {
  }

  /** The coupling is not restored when the shadows are not coupled. This happens when a
      pass switches recalculation on and so forces the custom viewport on without updating
      its shadow, and the custom viewport is then switched off again before the next pass:
      that pass sees the viewport option equal to its stale shadow and leaves recalculation
      on with no custom viewport. */
  lemma SameFrameViewportEditUnnoticed(e: Effect)
    requires e.options == Tracked(Int2(640, 480), false, false, true)
    requires e.shadow == Tracked(Int2(640, 480), false, false, false)
    ensures var r1 := HandleChanges(e).effect;
            var edited := r1.(options := r1.options.(useCustomViewport := false));
            var r2 := HandleChanges(edited).effect;
            && r1.options.useCustomViewport && !r1.shadow.useCustomViewport
            && r2.options.recalculateViewportSizeOnChange && !r2.options.useCustomViewport
  {
  }

  /** The first pass after creating the effect with default options reports a change, sizes
      the scene resources to 640x480 and raises both events when they have subscribers. */
  lemma FirstPassAfterCreation(e: Effect)
    requires e.options == DefaultOptions && e.shadow == InitialShadow
    requires e.resources == Resources(InitialInternalRenderSize)
    requires e.listeners == Listeners(true, true)
    ensures var u := HandleChanges(e);
            && u.changed
            && u.effect.resources == Resources(Int2(640, 480))
            && u.effect.shadow == DefaultOptions
            && u.events == [ResolutionChanged(Int2(640, 480)), Changed]
  {
  }

  // ---------------------------------------------------------------------------------
  // The start of a frame

  /** A custom viewport on an output smaller than 320x240 is not drawn. */
  function TargetTooSmall(useCustomViewport: bool, targetSize: Int2): (tooSmall: bool)
    ensures !useCustomViewport ==> !tooSmall
    ensures useCustomViewport && !tooSmall
            ==> targetSize.x >= MinCustomTargetWidth && targetSize.y >= MinCustomTargetHeight
    ensures (useCustomViewport && targetSize.x >= MinCustomTargetWidth
             && targetSize.y >= MinCustomTargetHeight) ==> !tooSmall
  {
    useCustomViewport
    && (targetSize.x < MinCustomTargetWidth || targetSize.y < MinCustomTargetHeight)
  }

  /** Enlarging the output never makes a drawable frame undrawable. */
  lemma TargetTooSmallIsMonotone(useCustomViewport: bool, small: Int2, large: Int2)
    requires small.x <= large.x && small.y <= large.y
    ensures TargetTooSmall(useCustomViewport, large) ==> TargetTooSmall(useCustomViewport, small)
    ensures !TargetTooSmall(useCustomViewport, small) ==> !TargetTooSmall(useCustomViewport, large)
  {
  }

  /** How a frame ends: skipped for a too-small custom target, skipped for missing scene
      resources, or composed, with the custom viewport when one is used. */
  datatype FrameOutcome =
    | SkippedSmallTarget
    | SkippedMissingResources
    | Composed(customViewport: bool)

  /** The state after the start of a frame and how the frame ends. */
  datatype Frame = Frame(update: Update, outcome: FrameOutcome)

  /** When recalculation is on and the output size moved, the output becomes the target
      and the viewport is refitted to it; otherwise both are kept. */
  function RefitTarget(h: Effect, outputSize: Int2, round: real -> int): (r: Effect)
    requires IsRoundToInt(round)
    requires h.options.recalculateViewportSizeOnChange && h.targetSize != outputSize
             ==> IsPositive(h.options.renderSize) && IsPositive(outputSize)
    ensures r.(targetSize := h.targetSize, targetViewport := h.targetViewport) == h
    ensures h.options.recalculateViewportSizeOnChange ==> r.targetSize == outputSize
    ensures !h.options.recalculateViewportSizeOnChange ==> r == h
    ensures var refit := h.options.recalculateViewportSizeOnChange && h.targetSize != outputSize;
            && r.targetSize == (if refit then outputSize else h.targetSize)
            && r.targetViewport
               == (if refit
                   then RenderUtils.CalculateDisplayViewport(
                          h.options.renderSize, outputSize, h.options.integerScaling, round)
                   else h.targetViewport)
  {
    if h.options.recalculateViewportSizeOnChange && h.targetSize != outputSize then
      h.(targetSize := outputSize,
         targetViewport := RenderUtils.CalculateDisplayViewport(
           h.options.renderSize, outputSize, h.options.integerScaling, round))
    else h
  }

  /** Refitting is idempotent: a second refit to the same output changes nothing, because
      after the first the target already is the output (or recalculation is off). */
  lemma RefitTargetIdempotent(h: Effect, outputSize: Int2, round: real -> int)
    requires IsRoundToInt(round)
    requires h.options.recalculateViewportSizeOnChange && h.targetSize != outputSize
             ==> IsPositive(h.options.renderSize) && IsPositive(outputSize)
    ensures var r := RefitTarget(h, outputSize, round);
            RefitTarget(r, outputSize, round) == r
  {
  }

  /** How a frame with the given state ends. A composed frame with a custom viewport always
      has a target of at least 320x240. */
  function Outcome(r: Effect, sceneOutputReady: bool): (o: FrameOutcome)
    ensures o == SkippedSmallTarget <==> TargetTooSmall(r.options.useCustomViewport, r.targetSize)
    ensures o.Composed?
            <==> && !TargetTooSmall(r.options.useCustomViewport, r.targetSize)
                 && r.resources.Resources? && sceneOutputReady
    ensures o.Composed? ==> o.customViewport == r.options.useCustomViewport
    ensures o.Composed? && o.customViewport
            ==> r.targetSize.x >= MinCustomTargetWidth && r.targetSize.y >= MinCustomTargetHeight
  {
    if TargetTooSmall(r.options.useCustomViewport, r.targetSize) then SkippedSmallTarget
    else if r.resources.NoResources? || !sceneOutputReady then SkippedMissingResources
    else Composed(r.options.useCustomViewport)
  }

  /** The start of a frame: handle option changes, refit the target when recalculation asks
      for it, then decide whether the composer draws. `outputSize` is the engine's current
      output size and `sceneOutputReady` whether the scene render task has an output
      texture. */
  function BeginFrame(e: Effect, outputSize: Int2, sceneOutputReady: bool, round: real -> int)
    : (f: Frame)
    requires IsRoundToInt(round)
    requires HandleChanges(e).effect.options.recalculateViewportSizeOnChange
             && e.targetSize != outputSize
             ==> IsPositive(e.options.renderSize) && IsPositive(outputSize)
    ensures f.update.changed == HandleChanges(e).changed
    ensures f.update.events == HandleChanges(e).events
    ensures f.update.effect == RefitTarget(HandleChanges(e).effect, outputSize, round)
    ensures f.outcome == Outcome(f.update.effect, sceneOutputReady)
  {
    var u := HandleChanges(e);
    var r := RefitTarget(u.effect, outputSize, round);
    Frame(u.(effect := r), Outcome(r, sceneOutputReady))
  }

  /** A frame on a settled effect whose target already is the output changes nothing:
      no change is reported, no event is raised and the effect is returned as it was. */
  lemma BeginFrameStable(e: Effect, outputSize: Int2, sceneOutputReady: bool, round: real -> int)
    requires IsRoundToInt(round)
    requires Settled(e) && e.targetSize == outputSize
    ensures var f := BeginFrame(e, outputSize, sceneOutputReady, round);
            !f.update.changed && f.update.events == [] && f.update.effect == e
  {
    ChangeReport(e);
  }

  /** The viewport is refitted only when the output size moved: with an unchanged output
      size a frame keeps the viewport, however the options were edited. */
  lemma OptionEditsNeverRefit(e: Effect, outputSize: Int2, sceneOutputReady: bool,
                              round: real -> int)
    requires IsRoundToInt(round)
    requires e.targetSize == outputSize
    ensures var f := BeginFrame(e, outputSize, sceneOutputReady, round);
            f.update.effect.targetViewport == e.targetViewport
            && f.update.effect.targetSize == e.targetSize
  {
  }

  /** A 320x240 image enabled on a 1920x1080 output without integer scaling is pillarboxed to
      (240, 0, 1440, 1080). Switching integer scaling on afterwards does not refit it: the
      next frame keeps that viewport instead of the integer-scaled (320, 60, 1280, 960). */
  lemma IntegerScalingSwitchKeepsViewport(e: Effect, round: real -> int)
    requires IsRoundToInt(round)
    requires e.options == Tracked(Int2(320, 240), false, true, true)
    requires e.shadow == e.options
    requires e.resources == Resources(Int2(320, 240))
    ensures var enabled := OnEnable(e, Int2(1920, 1080), round);
            var edited := enabled.(options := enabled.options.(integerScaling := true));
            var f := BeginFrame(edited, Int2(1920, 1080), true, round);
            && enabled.targetViewport == Viewport(240, 0, 1440, 1080)
            && f.update.changed
            && f.update.effect.targetViewport == Viewport(240, 0, 1440, 1080)
            && RenderUtils.CalculateDisplayViewport(Int2(320, 240), Int2(1920, 1080), true, round)
               == Viewport(320, 60, 1280, 960)
  {
    RenderUtils.PillarboxExample(round);
    RenderUtils.IntegerScalingExample(round);
    var enabled := OnEnable(e, Int2(1920, 1080), round);
    var edited := enabled.(options := enabled.options.(integerScaling := true));
    OptionEditsNeverRefit(edited, Int2(1920, 1080), true, round);
    ChangeReport(edited);
  }
}
