# Flax-PSX display fitting and option handling, in Dafny

Flax-PSX is a post-processing plugin for the Flax engine that imitates PSX-era rendering.
The scene is drawn at a low internal resolution, for example 320x240. A composer shader then
shows it on the real output through a centred display viewport. This project models the two
pieces of logic in the plugin that do not depend on the engine:

- **Display-viewport fitting** (`RenderUtils`, file `render_utils.dfy`). Given the internal
  render size, the output size and the integer-scaling flag, it computes the centred viewport.
  With integer scaling, the image gets a whole-number multiple of the render size. Otherwise
  it is pillarboxed or letterboxed so that its aspect ratio is kept.
- **Per-frame option handling** (`PostProcessing`, file `post_processing.dfy`). The effect
  keeps private shadow copies of four public options: render size, integer scaling, custom
  viewport and recalculate-on-change. At the start of each frame `HandleChanges` copies
  changed options into their shadows. It enforces the coupling rules between the three
  flags, resizes the shared scene resources and raises the change events. The module also
  models the flag normalisation done on enabling and the start of a frame: refitting the
  viewport and the two skip guards before drawing.
- **The composer constant block** (`Composer`, file `composer.dfy`): the field values of the
  block passed to the shader, including the 0/1 encoding of the dithering flag.

Shared engine value types (`Int2`, `Viewport`, ...) are in `engine_types.dfy`. Rounding is in
`mathf.dfy`.

Modelling choices:

- Engine floats are exact reals. The aspect comparison and the divisions are therefore exact.
- The engine's round-to-integer routine is a parameter `round: real -> int`. The only thing
  assumed about it is `IsRoundToInt`: the result lies within one half of the argument. No
  midpoint rule is fixed.
- `Viewport` fields are integers, because every value the source stores in them is a floor.
- The engine's output size and whether the scene render task has an output texture are
  parameters of `BeginFrame`.
- The shared resources are `Resources(internalRenderSize)` or `NoResources` (the null
  reference).
- An event delegate may be null. `Listeners` records whether each event has a subscriber.
  The raised events are returned as a sequence, in order.

The returned width and height are the floor of the unrounded extent; the offsets are computed
from the rounded extent (`RenderUtils.cs:45-56`, `WidthIsFlooredNotRounded`).

Behaviour of the source that the proofs bring out:

- Integer scaling picks the factor from the heights alone. On a target narrower than the
  scaled image, the viewport is wider than the target and starts at a negative x
  (`IntegerScalingMayOverflowWidth`).
- When `HandleChanges` switches recalculation on, the coupling rule forces the custom viewport
  on but leaves that option's shadow stale until the next pass (`ViewportShadowMayLag`).
  Without edits, a second pass always settles the effect (`SecondPassSettles`). If the custom
  viewport is switched off again before that second pass, the change goes unnoticed and
  recalculation stays on without a custom viewport (`SameFrameViewportEditUnnoticed`).
- A frame refits the viewport only when the output size moved. Editing the options alone,
  even switching integer scaling on, keeps the old viewport (`OptionEditsNeverRefit`). A
  320x240 image enabled on 1920x1080 without integer scaling keeps its pillarbox viewport
  (240, 0, 1440, 1080) after integer scaling is switched on, instead of (320, 60, 1280, 960)
  (`IntegerScalingSwitchKeepsViewport`).

## Model

| member | source | states |
|---|---|---|
| RenderUtils.IntegerScale | Source/FlaxPsx/Rendering/RenderUtils.cs:25 | the integer-scaling factor is a non-negative whole number k with k·renderHeight ≤ targetHeight < (k+1)·renderHeight |
| RenderUtils.FloorOfQuotient | Source/FlaxPsx/Rendering/RenderUtils.cs:25 | flooring the real quotient targetHeight / renderHeight gives exactly the integer quotient of the two sizes |
| RenderUtils.IntegerScaleIsLargest | Source/FlaxPsx/Rendering/RenderUtils.cs:24-25 | for every k ≥ 0, k·renderHeight fits the target height if and only if k is at most the chosen factor: the factor is the largest one that fits |
| RenderUtils.IntegerScalingIsWholeMultiple | Source/FlaxPsx/Rendering/RenderUtils.cs:22-27 | with integer scaling, width and height are the render width and height times the same integer scale k, for which k·renderHeight ≤ targetHeight < (k+1)·renderHeight; the height fits the target and the top offset is non-negative |
| RenderUtils.IntegerScalingDegenerates | Source/FlaxPsx/Rendering/RenderUtils.cs:25-27 | with integer scaling and a target lower than the render height, the factor is 0 and the viewport has zero width and height (no clamp to a factor of 1) |
| RenderUtils.IntegerScalingMayOverflowWidth | Source/FlaxPsx/Rendering/RenderUtils.cs:22-56 | the factor ignores the widths: a 320x240 image on a 400x480 target gives the viewport (-120, 0, 640, 480), wider than the target |
| RenderUtils.IntegerScalingExample | Source/FlaxPsx/Rendering/RenderUtils.cs:15-57 | a 320x240 image on a 1920x1080 target is scaled by 4 and centred at (320, 60) with size 1280x960, for any rounding |
| RenderUtils.ViewportExtent | Source/FlaxPsx/Rendering/RenderUtils.cs:17-43 | the unrounded viewport has non-negative sides and a height within the target height; without integer scaling its width is within the target width too |
| RenderUtils.WiderIffCrossProduct | Source/FlaxPsx/Rendering/RenderUtils.cs:17-31 | the screen aspect exceeds the render aspect exactly when targetWidth·renderHeight > renderWidth·targetHeight |
| RenderUtils.PillarboxExample | Source/FlaxPsx/Rendering/RenderUtils.cs:15-57 | a 320x240 image on a 1920x1080 target without integer scaling gives the viewport (240, 0, 1440, 1080), for any rounding |
| RenderUtils.Pillarbox | Source/FlaxPsx/Rendering/RenderUtils.cs:31-36 | on a wider screen the unrounded height is the target height, the width is targetHeight·renderWidth/renderHeight and strictly less than the target width; the viewport has full height, top offset 0 and a non-negative left offset |
| RenderUtils.Letterbox | Source/FlaxPsx/Rendering/RenderUtils.cs:37-42 | otherwise the unrounded width is the target width, the height is targetWidth·renderHeight/renderWidth and at most the target height; the viewport has full width, left offset 0 and a non-negative top offset |
| RenderUtils.FitKeepsAspect | Source/FlaxPsx/Rendering/RenderUtils.cs:29-43 | without integer scaling the unrounded rectangle has exactly the render aspect ratio, fits the target and equals it on at least one axis |
| RenderUtils.FitIsLargest | Source/FlaxPsx/Rendering/RenderUtils.cs:29-43 | without integer scaling the unrounded rectangle is the largest one with the render aspect inside the target: any other such rectangle is no wider and no taller |
| RenderUtils.Centre | Source/FlaxPsx/Rendering/RenderUtils.cs:45-53 | twice the offset is within one pixel of the margin the rounded length leaves; the offset is non-negative when the rounded length fits and 0 when it spans the target exactly |
| RenderUtils.CalculateDisplayViewport | Source/FlaxPsx/Rendering/RenderUtils.cs:15-57 | the returned width and height are the floors of the unrounded extent; each offset is within one pixel of the opposite margin left by the rounded extent, so the rounded rectangle is centred |
| RenderUtils.OffsetsCentreRoundedExtent | Source/FlaxPsx/Rendering/RenderUtils.cs:45-48 | the offset is 0 on an axis the rounded extent spans completely and non-negative on an axis it does not overflow; without integer scaling both offsets are non-negative |
| RenderUtils.WidthIsFlooredNotRounded | Source/FlaxPsx/Rendering/RenderUtils.cs:45-56 | a 320x240 image on a 1367x701 target has exact width 934 2/3: the offset is computed from the rounded 935, but the reported width is 934, giving the viewport (216, 0, 934, 701) |
| PostProcessing.NormaliseFlags | Source/FlaxPsx/Rendering/PostProcessing.cs:103-106 | recalculate-on-change stays on exactly when it was on and the custom viewport is used; no other option changes |
| PostProcessing.NormalisedFlagsAreCoupled | Source/FlaxPsx/Rendering/PostProcessing.cs:103-106 | after normalisation recalculation implies the custom viewport, and normalising again changes nothing |
| PostProcessing.OnEnable | Source/FlaxPsx/Rendering/PostProcessing.cs:103-110 | enabling normalises the flags, adopts the output size as target and fits the viewport to it from the render size and integer-scaling option; shadows and resources are untouched |
| PostProcessing.HandleChanges | Source/FlaxPsx/Rendering/PostProcessing.cs:145-187 | afterwards the render-size, integer-scaling and recalculation shadows equal their options, the custom-viewport shadow is the option as it stood after the integer-scaling rule (on if it was on or integer scaling was switched on), the render size and integer-scaling options are unchanged, present scene resources have the render size (absent ones stay absent), and listeners, target size and viewport are untouched |
| PostProcessing.SyncRenderSize | Source/FlaxPsx/Rendering/PostProcessing.cs:149-156 | a branch-free closed form of the if-block, on which the pass-level lemmas rest: the render-size shadow takes the option, a change is recorded when they differed, and the resolution event with the new size is appended when there is a subscriber |
| PostProcessing.SyncResources | Source/FlaxPsx/Rendering/PostProcessing.cs:157-161 | a branch-free closed form of the if-block, on which the pass-level lemmas rest: present resources whose size differs from the render-size shadow are resized to the render size and a change is recorded |
| PostProcessing.SyncIntegerScaling | Source/FlaxPsx/Rendering/PostProcessing.cs:162-168 | a branch-free closed form of the if-block, on which the pass-level lemmas rest: the integer-scaling shadow takes the option, a change is recorded when they differed, and switching it on turns the custom viewport on |
| PostProcessing.SyncCustomViewport | Source/FlaxPsx/Rendering/PostProcessing.cs:169-175 | a branch-free closed form of the if-block, on which the pass-level lemmas rest: the custom-viewport shadow takes the option, a change is recorded when they differed, and switching it off turns recalculation off |
| PostProcessing.SyncRecalculate | Source/FlaxPsx/Rendering/PostProcessing.cs:176-182 | a branch-free closed form of the if-block, on which the pass-level lemmas rest: the recalculation shadow takes the option, a change is recorded when they differed, and switching it on turns the custom viewport on |
| PostProcessing.CouplingRules | Source/FlaxPsx/Rendering/PostProcessing.cs:162-182 | switching integer scaling on, or recalculation on, leaves the custom viewport on; switching the custom viewport off (with integer scaling not forcing it back) leaves both it and recalculation off; recalculation ends on exactly when it was on and the viewport was not switched off, and the custom viewport ends on exactly when it was on or one of the two rules forced it |
| PostProcessing.ChangeReport | Source/FlaxPsx/Rendering/PostProcessing.cs:145-187 | the pass returns true exactly when some tracked option differed from its shadow or the resources had another size; when it returns false the state is unchanged and no event is raised |
| PostProcessing.EventsMatchChanges | Source/FlaxPsx/Rendering/PostProcessing.cs:149-186 | the events are the resolution event with the new size when the size changed, then the change event when the pass reports a change, each only with a subscriber; so `OnResolutionChanged(s)` is raised if and only if the render size differed from its shadow, s is the new size and there is a subscriber; `OnChange` is raised if and only if the pass reports a change and there is a subscriber |
| PostProcessing.ViewportShadowMayLag | Source/FlaxPsx/Rendering/PostProcessing.cs:169-182 | after a pass the custom-viewport shadow differs from its option only when recalculation was just switched on and forced the custom viewport on |
| PostProcessing.SecondPassSettles | Source/FlaxPsx/Rendering/PostProcessing.cs:145-187 | two passes with no edit in between leave the effect settled, so a third pass reports no change and leaves the state as it is |
| PostProcessing.CouplingRestored | Source/FlaxPsx/Rendering/PostProcessing.cs:162-182 | if the shadows obey "recalculation implies custom viewport", the options obey it after a pass, however they were edited |
| PostProcessing.SameFrameViewportEditUnnoticed | Source/FlaxPsx/Rendering/PostProcessing.cs:169-182 | switching the custom viewport off right after a pass that forced it on goes unnoticed by the next pass, which leaves recalculation on without a custom viewport |
| PostProcessing.FirstPassAfterCreation | Source/FlaxPsx/Rendering/PostProcessing.cs:36-59 | with default options and fresh shadows, the first pass reports a change, resizes the 320x240 resources to 640x480, makes the shadows equal the defaults and raises both events |
| PostProcessing.TargetTooSmall | Source/FlaxPsx/Rendering/PostProcessing.cs:216 | the frame is skipped exactly when a custom viewport meets an output below 320x240 in either dimension: never without a custom viewport, always with one on a smaller output, and never with one on an output of at least 320x240 |
| PostProcessing.TargetTooSmallIsMonotone | Source/FlaxPsx/Rendering/PostProcessing.cs:216 | the below-320x240 guard is monotone: a larger output never skips a frame a smaller one draws |
| PostProcessing.RefitTarget | Source/FlaxPsx/Rendering/PostProcessing.cs:208-213 | when recalculation is on the target afterwards is the output size; when it is off the effect is unchanged; the viewport is refitted from the render size and integer-scaling option only when the output moved; nothing but target and viewport changes |
| PostProcessing.RefitTargetIdempotent | Source/FlaxPsx/Rendering/PostProcessing.cs:208-213 | refitting a second time to the same output changes nothing |
| PostProcessing.Outcome | Source/FlaxPsx/Rendering/PostProcessing.cs:215-229 | the frame is skipped for its size exactly when a custom viewport meets an output below 320x240; it is composed exactly when it is not skipped for its size and resources and the scene output exist; a composed frame uses the custom viewport exactly when that option is on, and then the target is at least 320x240 |
| PostProcessing.BeginFrame | Source/FlaxPsx/Rendering/PostProcessing.cs:205-229 | a frame first runs a change-handling pass, then refits from the options as that pass left them, then decides its outcome from the refitted state; its change report and events are those of the pass |
| PostProcessing.BeginFrameStable | Source/FlaxPsx/Rendering/PostProcessing.cs:205-213 | a frame on a settled effect whose target already is the output reports no change, raises no event and returns the effect unchanged |
| PostProcessing.OptionEditsNeverRefit | Source/FlaxPsx/Rendering/PostProcessing.cs:208-213 | when the output size equals the target, a frame keeps target and viewport, whatever the options were edited to |
| PostProcessing.IntegerScalingSwitchKeepsViewport | Source/FlaxPsx/Rendering/PostProcessing.cs:105-213 | a 320x240 image enabled on 1920x1080 gets the pillarbox viewport (240, 0, 1440, 1080); switching integer scaling on then reports a change but keeps that viewport, not the integer-scaled (320, 60, 1280, 960) |
| Composer.FlagToInt | Source/FlaxPsx/Rendering/PostProcessing.cs:260 | a flag is encoded as 1 when true and 0 when false, and as nothing else |
| Composer.Assemble | Source/FlaxPsx/Rendering/PostProcessing.cs:249-264 | `useDithering` is 1 if and only if dithering is on and 0 otherwise; the fog colour's channels become a four-vector; every other setting and host value is copied unchanged |
| Composer.AssembleRoundTrip | Source/FlaxPsx/Rendering/PostProcessing.cs:249-264 | reading the settings and host values back out of an assembled block gives exactly the ones it was built from |

## Left out

- GPU work (pipeline-state creation, shader binding, the constant-buffer memory copy, texture
  and depth-buffer creation, resizing and destruction, the draw calls) and the render-task
  lifecycle. These are calls into the engine. Resources keep only their internal size.
- `OnDisable`, the `Shader` property, `CanRender`, `ReleaseShader`, asset hot-reload, and
  event (un)subscription. These are engine callbacks with no logic of their own.
- `GetOutputSize` and `Utils.Float2ToInt2`. These query the engine's output or screen size.
  The size is a parameter of `OnEnable` and `BeginFrame`.
- The midpoint rule of the engine's rounding routine. Rounding is any function within one
  half of its argument.
- IEEE single-precision behaviour of the aspect comparison, the divisions and the floors, and
  the 32-bit range of `Int2` components. Everything is exact and unbounded.
- The `ViewportSizeChanged` event is static, so invoking it refits every enabled effect. The
  model refits only the effect at hand. `RefitTarget` does what that effect's handler
  `OnViewportSizeChanged` does; the handler ignores the event's width and height arguments.
- The `cb0 != IntPtr.Zero` check, and the log messages of the skip paths.
- The viewport's depth range, which the source never sets.
- `AdditionalPostProcessing`, the plugin descriptors and the editor toolbar. These are draw
  plumbing and static metadata.
- Event handlers. `OnResolutionChanged` and `OnChange` run synchronously inside the pass
  (`PostProcessing.cs:155`, `185`). A handler that edited `RenderSize` at line 155 would make
  line 159 resize to the new size while the shadow keeps the old one. The model returns
  events as outputs and assumes handlers do not modify the effect.
- RenderUtils.CalculateDisplayViewport: requires both sizes to have positive components. The
  source does not check them. A zero component makes its float division produce an infinity
  or NaN. A negative component gives a finite viewport, but that case is not modelled: a
  negative render or output size has no meaning in the engine. A zero output component (a
  minimised window) gives a degenerate, finite viewport in the source: 0x0 takes the letterbox
  branch, because a NaN aspect compares false, and yields (0, 0, 0, 0); 1920x0 takes the
  pillarbox branch on an infinite aspect and yields (960, 0, 0, 0); with a custom viewport the
  frame is then skipped at `PostProcessing.cs:216`. That degenerate case is not modelled.
- PostProcessing.OnEnable: requires a render size and output size with positive components,
  for the same reasons (zero divides by zero, negative sizes are not modelled).
- PostProcessing.BeginFrame: requires a render size and output size with positive components
  on frames that refit the viewport, for the same reasons.
