# Blobmixer scroll controller, modelled in Dafny

Blobmixer is a single-page Three.js showcase. Each turn of the mouse wheel
morphs a shader-displaced blob into the next of eleven presets. It also
swaps the preset's name label, rotates the blob, recolours the background
and advances a progress bar. This project models the part of `main.js`
that decides what happens on each wheel event:

- **presets.dfy** (`Presets`) covers the preset catalog:
  - every shipped preset's name, background colour and configuration
    record, with an undefined field modelled as an absent key;
  - the wrap-around index step;
  - the progress-bar percentage.
- **responsive.dfy** (`Responsive`) covers the three breakpoint selectors.
  They size the camera's field of view, its distance and the geometry detail.
- **dispatch.dfy** (`Dispatch`) covers what a transition asks the
  animation engine and the event loop to do. Each request is a `Task`
  record:
  - a tween has a target, a goal, a duration, an easing and an optional
    completion callback;
  - a timer has a delay and the texture it swaps in.

  The module models `updateBlob`'s chain of field tests and the wheel
  handler's fixed tweens. It also tracks how many pending tasks will commit
  a transition, and to which preset.
- **controller.dfy** (`Controller`) is the session state as a class:
  - the busy flag, the current index and the has-scrolled flag;
  - the progress bar, the labels, the material texture and the queue of
    pending tasks.

  Its methods are:
  - the wheel handler;
  - the three ways a pending task can finish: the crossfade's commit
    callback, a plain tween, and the texture timer.

  The class invariant `Valid` ties these together:
  - the controller is busy exactly when one commit is pending;
  - that commit goes to the preset the progress bar reports;
  - the bar is initialised once, by the first accepted scroll;
  - the current label and the incoming label are at full scale.

The wheel handler is modelled as the code has it, including two places
where the code does something one might not expect:
- A zero wheel delta is not ignored. `Math.sign` gives 0, so the handler
  turns busy and runs a full transition back to the preset on show.
- The blob's rotation is `-4π·direction`: a forward scroll turns it
  backwards (`Dispatch.HandlerDirections`).

## Model

| member | source | states |
|---|---|---|
| Presets.Shipped | main.js:24-234 | every shipped configuration record defines all keys except the small-wave time frequency, and its `map` field is the named gradient texture |
| Presets.Blobs | main.js:24-234 | the catalog holds eleven presets, each defining every key except the small-wave time frequency |
| Presets.BlobAt | main.js:24-234 | the preset at every catalog position (Fomosphere at 0 … Liquidity at 10) defines every key except the small-wave time frequency |
| Presets.Next | main.js:396 | the next index is always in range; a forward step moves to the following preset and wraps from the last to the first; a backward step wraps from the first to the last; a zero step stays put |
| Presets.NextRoundTrip | main.js:396 | a step forward then back, or back then forward, returns to the starting preset |
| Presets.NextWraps | main.js:396 | stepping forward from the last preset reaches the first, and stepping back from the first reaches the last |
| Presets.ProgressPercent | main.js:408-409 | the bar width lies in (0, 100], is exactly 100 only at the last preset, and is (next+1)/len of the full width |
| Presets.ProgressIncreasing | main.js:408-409 | a later preset always shows a strictly wider bar |
| Responsive.GetFOV | main.js:246-250 | 90° up to 480 px, 80° up to 768 px and 75° beyond, each answer exactly on its range |
| Responsive.GetZPosition | main.js:252-256 | the camera sits at 4 up to 480 px, 3.5 up to 768 px and 3 beyond, each answer exactly on its range |
| Responsive.GetGeometryDetail | main.js:328-332 | detail 40 up to 480 px, 55 up to 768 px and 70 beyond, each answer exactly on its range |
| Responsive.Monotone | main.js:246-256 | a wider viewport never widens the field of view, never moves the camera further out and never lowers the geometry detail |
| Responsive.SameBreakpoints | main.js:246-256 | the three selectors change value at the same widths: two widths get the same field of view exactly when they get the same distance and the same detail |
| Dispatch.KeyAt | main.js:460-537 | the fourteen field tests of `updateBlob`, in source order; no key is tested at two steps |
| Dispatch.Step | main.js:460-537 | every configuration key is tested at one of the fourteen steps of the chain |
| Dispatch.KeyAtStep | main.js:460-537 | the step at which a key is tested names that key, so every key is tested |
| Dispatch.KeyTask | main.js:459-543 | a defined field becomes one task on that field; the texture becomes a 400 ms timer carrying the texture, and every other field becomes a one-second power2.inOut tween to the configured value with no callback |
| Dispatch.DispatchesFrom | main.js:459-543 | the field tests of `updateBlob` from a given step on; its contract is stated by `DispatchesFromCount`, `DispatchesFromShape` and `DispatchesFromOrdered` |
| Dispatch.UpdateBlob | main.js:459-543 | the tasks `updateBlob` dispatches for a configuration; its contract is stated by `BlobDispatchesExact` |
| Dispatch.DispatchesFromCount | main.js:459-543 | from any step of the chain, a field receives exactly one task if it is defined and tested at or after that step, and none otherwise |
| Dispatch.DispatchesFromShape | main.js:459-543 | every task dispatched from any step of the chain is the field task for a defined key |
| Dispatch.DispatchesFromOrdered | main.js:459-543 | the dispatched tasks come in the order the chain tests their fields |
| Dispatch.BlobDispatchesExact | main.js:459-543 | `updateBlob` dispatches exactly one task per defined field and none for an undefined field or a target outside the material; each task is that field's task, in chain order |
| Dispatch.ShippedNeverTweensSmallWaveTime | main.js:484-489 | no shipped preset dispatches a tween of the small-wave time frequency |
| Dispatch.BlobTasksShort | main.js:459-543 | no task `updateBlob` dispatches outlasts one second or carries the transition commit |
| Dispatch.HandlerTasks | main.js:415-454 | the handler's own tasks are five; the first is the two-second linear crossfade of the progress uniform to 0.5, whose callback commits the destination; the other four are one-second tweens without callbacks, the last fading the background linearly to the destination's colour |
| Dispatch.HandlerDirections | main.js:413-444 | the outgoing label is tweened to -3·direction, the blob is turned by -4·direction·π and the incoming label is tweened to the centre; so for a non-zero step the blob turns against the scroll and the outgoing label leaves towards the side opposite the one the incoming label enters from |
| Dispatch.WheelDispatches | main.js:415-455 | one accepted wheel event dispatches the handler's five tasks followed by exactly those of `updateBlob`; the first is the crossfade whose callback commits the destination, and the fifth is the one-second linear fade of the background to the destination's colour |
| Dispatch.DispatchCommits | main.js:415-455 | a wheel transition appended to a log without commits leaves exactly one commit, and it goes to the destination preset |
| Dispatch.CrossfadeFinishesLast | main.js:415-455 | every other task of a wheel transition finishes strictly before the crossfade that commits it |
| Dispatch.CommitsAfterRemove | main.js:415-424 | finishing a pending task removes its commit if it carries one and keeps every other commit, and a commit finished from a log committing to `d` goes to `d` |
| Controller.Sign | main.js:395 | the step is +1 exactly for a positive delta, -1 exactly for a negative one, and 0 otherwise |
| Controller.ConfigTexture | main.js:295 | the initial texture is the one the first preset's configuration names |
| Controller.InitialLabels | main.js:372-387 | one label per preset, all centred, with only the first at full scale |
| Controller.Transition.constructor | main.js:237-239 | the session starts idle on preset 0, with the bar hidden, only the first label visible, nothing pending, and the invariant established |
| Controller.Transition.OnWheel | main.js:392-456 | while busy the event changes nothing; otherwise the controller turns busy and marks the scroll; the bar is shown and styled and reports the destination; the incoming label is at full scale beside the centre; the transition's tasks are queued; the current index waits for the commit; the invariant is kept |
| Controller.Transition.FinishCrossfade | main.js:419-423 | the crossfade's callback makes the destination current and clears the busy flag, leaving the bar and labels as they are and keeping the invariant |
| Controller.Transition.FinishTween | main.js:427-454 | a finished label tween leaves its label at the tween's end position, any other finished tween changes no controller state, and the invariant is kept |
| Controller.Transition.FireTimer | main.js:490-494 | the fired timer installs the texture it carries and changes nothing else, keeping the invariant |
| Controller.ScrollForwardOnce | main.js:392-424 | in a fresh session one forward scroll is accepted; a second scroll during the transition is dropped; after the commit the second preset is current, the controller is idle, and the bar shows 2/len of its width |
| Controller.ScrollBackWraps | main.js:392-424 | scrolling back from the first preset lands on the last one with the bar full |
| Controller.ZeroDeltaStillTransitions | main.js:392-424 | a zero delta still makes the controller busy and shows the bar, and the transition commits the preset already on show |

## Left out

- The Three.js scene, renderer, camera, loaders and render loop are not modelled.
- The loading manager's completion handler (main.js:546-564) is not modelled. The texture loader is built on that manager (main.js:16), and the texture timer loads through it (main.js:491-493), so the handler runs again after every texture swap, not only at start-up. Each run starts another animation-frame loop. It also reads `currentIndex` (main.js:555), which is committed only when the two-second crossfade completes (main.js:420). So a run during a transition tweens the background for one second back towards the preset being left. That tween ends after the handler's own one-second tween to the destination's colour (main.js:448-454). The model records neither the extra loop nor this background tween.
- The engine's interpolation is not modelled: in-between values and the easing curves are absent. A tween is its end state: target, goal, duration, easing name and callback.
- Time is not modelled. Pending tweens and timers wait in a queue, and the environment picks which one finishes next by its position. `CrossfadeFinishesLast` states what the durations imply about that order.
- Only the progress bar's displayed flag, width and "styled" flag are kept. CSS strings, the transition timing and the colour are absent.
- A background colour stays a hex string: `THREE.Color` parsing is absent. The sphere rotation's goal is kept as a multiple of π.
- Widths and positions are real numbers, not IEEE doubles. `Math.sign` of NaN is not modelled.
- A label's scale is one uniform number. Its y and z positions, font, size and `getTextSize` are absent. So are the resize handler and troika text syncing.
- Controller.Transition.FinishTween: only a label tween's end position is applied. Tweens of the material, the sphere and the background change objects outside the controller, so the model keeps no state for them.
- Controller.Transition.FinishCrossfade: the reset of the label material's `progress` uniform to 0 (main.js:422) is not stated, because the uniform is not tracked. Its crossfade ends at 0.5 and the completion callback resets it to 0 when that tween finishes. Since the model has no in-between tween values, the uniform is 0 at every point the model can observe. The crossfade task keeps its goal of 0.5.
- Controller.Transition.OnWheel: the `#progress-bar` element is assumed present. If it were missing, the lookup at main.js:390 would give null. The first accepted event would then throw at main.js:401, after main.js:394 and main.js:400 had set the busy and has-scrolled flags and before any tween was dispatched. No commit would ever run, every later event would be dropped at main.js:393, and the page would stay busy on preset 0. The model does not represent a missing element.
- The material's initial uniforms and properties are not modelled, apart from the texture (main.js:278-306).
- Dispatch.UpdateBlob: `updateBlob` is modelled as the function giving the tasks it dispatches, in order. `OnWheel` appends them to the pending queue. The in-place step-by-step calls on the animation engine are not modelled.
