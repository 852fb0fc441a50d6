# Valentine page: interaction and audio state machine

A Dafny model of the logic inside the single React component
`frontend/src/App.jsx`. It covers:
- the envelope stages (closed, opening, open);
- the NO button that jumps away when touched and opens a "stop" popup on the fifth touch;
- the push sequence after that popup is dismissed, in which the YES button pushes the NO button aside in four timed steps;
- the YES popup and its picture carousel;
- the arbitration between three audio elements: the background song, the NO-popup sound and the YES song.

Modules:
- `Audio` (`audio.dfy`): an audio element as a record of `{playing, rewound, loop, volume}`, with the `stop`, `pause` and `play` helpers.
- `Layout` (`layout.dfy`): the derived layout values `noScale`, `noSideX`, `yesGrow` and the YES nudge. They are exact integers: hundredths for the scales and pixels for the shift.
- `Model` (`model.dfy`): the whole component state as one value `AppState`, and one function per handler, effect and timer callback. It also has an `Event` type, `Step` for one event and `Run` for a sequence of events.
- `Properties` (`properties.dfy`): the invariant `Valid` of every reachable state, the lemmas that every event keeps it, and lemmas about sequences of events: the miss counter, the push sequence, the audio latch, reset, and a whole session.
- `Component` (`app.dfy`): class `App`, with one field per piece of React state or ref and one method per handler. The fields are assigned in place. Each method that changes state ensures `State() == Model.F(old(State()), ...)`; the constructor ensures `State() == Model.Init()`, and `ButtonLayout`, which changes nothing, returns the `Layout` values for the current fields. Each handler the page can invoke also keeps `Valid()`.

How the browser is represented:
- Timers are explicit events. The 1050 ms envelope timeout is a count of pending timeouts, `openTimers`. The 520 ms push interval is `PushTimer = Idle | Ticking(step)`, which holds the ref together with the counter its callback captured. The 2200 ms carousel interval is live exactly while the YES popup is shown.
- React effects are explicit calls. The effect for a popup flag runs at the end of an operation, and only if that operation changed the flag. When both flags change, the NO effect runs first.
- Randomness and the outcome of `play()` are parameters. `moveNo` takes the two samples `rx, ry` in `[0, 1)`. Each play attempt takes the boolean `ok`; a rejected attempt changes nothing.

Preconditions that come from the markup rather than from the handlers:
- The popup overlay (z-index 90) covers the YES and NO buttons and the reset button (z-index 80), so a pointer cannot reach them while a popup is shown. `MoveNo`, `ClickYes` and `ResetAll` therefore require that no popup is shown. The handlers do not check this themselves.
- The YES button exists only on the open page, so `ClickYes` also requires the stage to be `Open`.
- `ClosePopups` is bound only to the backdrop of a shown popup, so it requires that one popup is shown.

`Step` leaves the state unchanged for an event the page cannot deliver to pointer input in that state. Examples: a touch on a covered button, or a tick of a cancelled timer.

The model follows the code as written at these points:
- Push mode is not switched off when the step reaches 4. Only the interval is cancelled. `pushMode` stays true until `resetButtons`.
- `resetAll` does not cancel the 1050 ms envelope timeout. A reset during the opening animation is undone when that timeout fires. `StaleOpenTimerAfterReset` proves this.
- Popup mutual exclusion is not enforced by the handlers. It follows only from the overlay covering the buttons. `Valid` carries it as an invariant.
- The NO button's offsets are in the half-open ranges `[-110, 110)` and `[-55, 55)`, because `Math.random()` returns values in `[0, 1)`.
- The miss counter is never stored at the threshold. It goes from 4 back to 0 when the popup opens.
- "Stopping all channels" pauses and rewinds each channel.

## Model

| member | source | states |
|---|---|---|
| `Audio.Stop` | frontend/src/App.jsx:79-83 | stopping silences a channel and rewinds it to the start, keeping its loop and volume |
| `Audio.Pause` | frontend/src/App.jsx:85-88 | pausing silences a channel but keeps its position, loop and volume |
| `Audio.Play` | frontend/src/App.jsx:90-97 | a successful play makes the channel sound; a rejected one is swallowed and leaves the channel unchanged |
| `Audio.PlayLooped` | frontend/src/App.jsx:104-106 | after setting loop and a volume and trying to play, the channel loops at that volume and sounds exactly when the play succeeded or it already sounded |
| `Layout.NoScale` | frontend/src/App.jsx:310 | the NO scale stays within 0.55..1, is 1 outside push mode and below 1 once a push step has fired |
| `Layout.NoSideX` | frontend/src/App.jsx:311 | the NO shift stays within 0..170 px, is 0 outside push mode and positive once a push step has fired |
| `Layout.YesGrow` | frontend/src/App.jsx:312 | the YES growth stays within 1..1.2, is 1 outside push mode and above 1 once a push step has fired |
| `Layout.PushIsMonotone` | frontend/src/App.jsx:310-312 | a later push step never enlarges or moves back the NO button, and never shrinks the YES button |
| `Layout.LastStepIsClamped` | frontend/src/App.jsx:310-315 | at step 4 the values reach their clamps 0.55, 170 and 1.2, and the nudge is off |
| `Layout.YesNudge` | frontend/src/App.jsx:314-315 | the nudge is on only before step 4, and only while the NO button is shrunk and shifted and the YES button grown |
| `Model.StartBG` | frontend/src/App.jsx:99-107 | only the background channel changes. Nothing happens before the first gesture or while the YES popup is shown. Otherwise the background loops at 0.33 and sounds if the play succeeded |
| `Model.StopAll` | frontend/src/App.jsx:109-113 | all three channels end silent and rewound with their loop and volume kept; nothing else changes |
| `Model.NoPopupEffect` | frontend/src/App.jsx:149-166 | only the channels change, and only after the first gesture. Showing the NO popup pauses the background, stops the YES song and loops the NO sound at 0.7. Hiding it stops the NO sound and restarts the background only if the YES popup is hidden |
| `Model.YesPopupEffect` | frontend/src/App.jsx:171-188 | the mirror image of the NO effect, with the YES song looped at 0.85 |
| `Model.OpenEnvelope` | frontend/src/App.jsx:203-214 | a no-op unless the stage is closed. From closed: the audio latch is set, the background starts, the stage becomes opening and one more envelope timeout is pending |
| `Model.FireOpenTimer` | frontend/src/App.jsx:213 | the firing timeout sets the stage to open whatever it was; exactly one pending timeout (its own) is consumed, and nothing else changes |
| `Model.ClearPushTimer` | frontend/src/App.jsx:193-198 | afterwards no push interval is live; nothing else changes |
| `Model.ResetButtons` | frontend/src/App.jsx:219-226 | the push interval is cancelled; push mode is off at step 0; the NO button is at rest with a zero counter; nothing else changes |
| `Model.ResetAll` | frontend/src/App.jsx:231-240 | the buttons are reset, no popup is shown, the carousel is at 0, all channels are silent and the stage is closed. The audio latch and any pending envelope timeout are kept |
| `Model.StartPushSequence` | frontend/src/App.jsx:245-253 | whatever interval was live is replaced by a fresh one at step 0; push mode is on and the NO button is at rest; nothing else changes |
| `Model.PushTick` | frontend/src/App.jsx:253-260 | the step goes up by exactly one, and the interval stays live exactly while the step is below 4; only the step and interval change |
| `Model.ClosePopups` | frontend/src/App.jsx:266-273 | both popups end hidden. Closing the NO popup always starts the push sequence and leaves the YES channel untouched. Closing the YES popup changes nothing but its flag, the YES channel and the background. Before the first gesture no channel changes. After it, the closed popup's channel is stopped and the background restarts |
| `Model.MoveNo` | frontend/src/App.jsx:278-296 | a no-op unless the page is open and not in push mode. Otherwise the button jumps to the point computed from the two samples, which is in bounds, and the counter rises by exactly one. The NO popup opens exactly when the counter reaches 5, which resets it to 0. After the first gesture the background is then paused in place, the YES song stopped, and the NO sound looped at 0.7. In both branches only the counter, the position, the NO flag and the channels change |
| `Model.SampledPos` | frontend/src/App.jsx:284-288 | the point computed from two samples in [0, 1) lies in the box [-110, 110) x [-55, 55) |
| `Model.ClickYes` | frontend/src/App.jsx:301-305 | the buttons are reset and the YES popup is shown at picture 0; nothing else but the channels changes. Before the first gesture the channels are untouched. After it, the background is paused in place, the NO sound is stopped, and the YES song loops at 0.85 |
| `Model.Step` | frontend/src/App.jsx:118-533 | one event as the page's bindings deliver it (blur and visibility listeners, the reset button at line 326, the envelope at 366, YES at 458, NO at 477-478, the backdrops at 511 and 533, the timers); an event pointer input cannot deliver changes nothing. No event clears the audio latch, only an envelope click, the envelope timeout or a reset moves the stage, and blur or a hidden tab leaves every channel silent |
| `Model.CarouselTick` | frontend/src/App.jsx:136-144 | the picture index advances by one and wraps from 2 to 0, so it always indexes the three pictures; nothing else changes |
| `Properties.InitValid` | frontend/src/App.jsx:4-74 | the state at mount satisfies the invariant |
| `Properties.OpenEnvelopeKeepsValid` | frontend/src/App.jsx:203-214 | opening the envelope keeps the invariant |
| `Properties.FireOpenTimerKeepsValid` | frontend/src/App.jsx:213 | the envelope timeout keeps the invariant |
| `Properties.MoveNoKeepsValid` | frontend/src/App.jsx:278-296 | touching the NO button keeps the invariant: the counter stays in 0..4, and the position stays in bounds |
| `Properties.PushTickKeepsValid` | frontend/src/App.jsx:253-260 | a push tick keeps the invariant: the step stays in 0..4, and the live interval's counter equals the rendered step |
| `Properties.ClosePopupsKeepsValid` | frontend/src/App.jsx:266-273 | dismissing a popup keeps the invariant |
| `Properties.ClickYesKeepsValid` | frontend/src/App.jsx:301-305 | clicking YES keeps the invariant |
| `Properties.ResetAllKeepsValid` | frontend/src/App.jsx:231-240 | reset keeps the invariant |
| `Properties.CarouselTickKeepsValid` | frontend/src/App.jsx:136-144 | a carousel tick keeps the index in 0..2 |
| `Properties.StopAllKeepsValid` | frontend/src/App.jsx:118-131 | silencing on blur or a hidden tab keeps the invariant |
| `Properties.StepKeepsValid` | frontend/src/App.jsx:118-305 | every event the page can receive keeps the invariant |
| `Properties.RunKeepsValid` | frontend/src/App.jsx:118-305 | every sequence of events keeps the invariant |
| `Properties.ReachableIsValid` | frontend/src/App.jsx:51-52 | every state reachable from mount is valid; in particular the two popups are never shown together |
| `Properties.OneChannelAtATime` | frontend/src/App.jsx:149-188 | in a valid state at most one channel sounds, and none sounds before the first gesture |
| `Properties.NudgeWhileTicking` | frontend/src/App.jsx:314-315 | the YES nudge is on exactly while the push interval is live and at least one tick has fired |
| `Properties.LatchNeverCleared` | frontend/src/App.jsx:207 | once set by opening the envelope, the audio latch stays set for any later sequence of events |
| `Properties.NoPosCoversBox` | frontend/src/App.jsx:284-290 | every point of the box is reached by some pair of samples, so the bounds are the exact range of the jumps |
| `Properties.TouchesBelowThreshold` | frontend/src/App.jsx:282 | below the threshold, each touch raises the counter by exactly one and opens no popup |
| `Properties.FifthTouchOpensNoPopup` | frontend/src/App.jsx:292-295 | from a zero counter the first four touches open nothing. The fifth opens the NO popup, resets the counter to 0, and (after a gesture and a successful play) switches the audio to the NO sound |
| `Properties.PushTicksAdvance` | frontend/src/App.jsx:253-260 | each tick of a live push interval raises the step by exactly one and changes nothing else; the interval stops at step 4 |
| `Properties.PushSequenceRunsToFour` | frontend/src/App.jsx:245-261 | after the sequence starts, four ticks reach step 4 and cancel the interval with push mode still on; a later tick changes nothing |
| `Properties.ResetAllRestoresInit` | frontend/src/App.jsx:231-240 | reset returns the state at mount, except the audio latch, pending envelope timeouts and the channels' loop and volume settings |
| `Properties.StaleOpenTimerAfterReset` | frontend/src/App.jsx:203-240 | a reset during the opening animation leaves its timeout pending, and that timeout then opens the page again |
| `Properties.CarouselCycles` | frontend/src/App.jsx:140 | three carousel ticks return to the same picture |
| `Properties.SessionScenario` | frontend/src/App.jsx:203-305 | a whole session. Opening gives the open page with music. Five touches give the NO popup with its sound. Dismissing it and four ticks give push step 4 with the interval stopped and music back. YES gives its popup at picture 0 with its song |
| `Component.App.constructor` | frontend/src/App.jsx:4-74 | the fields at mount are the initial state, which is valid |
| `Component.App.StartBG` | frontend/src/App.jsx:99-107 | updates the background channel in place as `Model.StartBG` says |
| `Component.App.StopAll` | frontend/src/App.jsx:109-113 | stops all three channels in place as `Model.StopAll` says |
| `Component.App.NoPopupEffect` | frontend/src/App.jsx:149-166 | updates the channels in place as `Model.NoPopupEffect` says |
| `Component.App.YesPopupEffect` | frontend/src/App.jsx:171-188 | updates the channels in place as `Model.YesPopupEffect` says |
| `Component.App.OnBlur` | frontend/src/App.jsx:119 | window blur stops all channels and keeps the invariant |
| `Component.App.OnVisibilityChange` | frontend/src/App.jsx:120-122 | a hidden document stops all channels, a visible one changes nothing; the invariant is kept |
| `Component.App.OpenEnvelope` | frontend/src/App.jsx:203-214 | performs `Model.OpenEnvelope` in place and keeps the invariant |
| `Component.App.FireOpenTimer` | frontend/src/App.jsx:213 | performs `Model.FireOpenTimer` in place and keeps the invariant |
| `Component.App.ClearPushTimer` | frontend/src/App.jsx:193-198 | cancels the push interval in place |
| `Component.App.ResetButtons` | frontend/src/App.jsx:219-226 | performs `Model.ResetButtons` in place |
| `Component.App.ResetAll` | frontend/src/App.jsx:231-240 | performs `Model.ResetAll` in place and keeps the invariant |
| `Component.App.StartPushSequence` | frontend/src/App.jsx:245-253 | performs `Model.StartPushSequence` in place |
| `Component.App.PushTick` | frontend/src/App.jsx:253-260 | advances the interval's counter and the step together in place, cancelling at 4, and keeps the invariant |
| `Component.App.ClosePopups` | frontend/src/App.jsx:266-273 | performs `Model.ClosePopups` in place (push first, then the flags, then the effects, NO before YES) and keeps the invariant |
| `Component.App.MoveNo` | frontend/src/App.jsx:278-296 | performs `Model.MoveNo` in place and keeps the invariant |
| `Component.App.ClickYes` | frontend/src/App.jsx:301-305 | performs `Model.ClickYes` in place and keeps the invariant |
| `Component.App.CarouselTick` | frontend/src/App.jsx:136-144 | advances the picture index modulo 3 in place and keeps the invariant |
| `Component.App.ButtonLayout` | frontend/src/App.jsx:310-315 | returns exactly `NoScale`, `NoSideX`, `YesGrow` and `YesNudge` of the current push state, so the lemmas about them apply to what is rendered. In a valid state the values are within their bounds and neutral outside push mode, and the nudge is on exactly while a push tick is due after the first |

## Left out

- The JSX markup, Tailwind classes, inline styles and keyframes. They are presentation only. They matter only through the overlay and the conditional rendering, which become the preconditions described above.
- The floating-hearts decoration. It is random styling with no behaviour.
- The asset paths, the NO-popup image and the YES video. They are opaque identifiers; only the number of carousel pictures, 3, is kept.
- The `if (!ref?.current) return` guards in the audio helpers. The three audio elements are always mounted before any effect or handler can run, so the model's channels always exist.
- Real time. The 1050 ms, 520 ms and 2200 ms delays become discrete events, and the model does not relate the moments at which they fire.
- The asynchrony of `play()`, and the `await` in `openEnvelope` before the stage becomes opening. Each handler is modelled as one atomic step. A second envelope click while the first is still awaiting the background's play would arm a second timeout; the model does not capture that window.
- React's render, commit and effect scheduling. It is replaced by explicit effect calls at the end of each operation. The effects that run at mount do nothing, because the latch is not yet set, so they are not modelled.
- Floating-point arithmetic. Positions are Dafny `real`s. Scales and volumes are integer hundredths.
- MoveNo, ClickYes, ResetAll: activating a covered button from the keyboard (Enter or Space on a focused button under the popup overlay) is not modelled. The overlay blocks only pointer hit-testing. With the keyboard, `clickYes` can show the YES popup on top of the NO popup, `resetAll` can let the hide effect restart the background on the closed envelope, and `moveNo` can bump the counter under the NO popup. `ReachableIsValid`, and with it popup exclusion and `OneChannelAtATime`, is therefore proved for pointer input only.
- The listener registration and removal for `blur` and `visibilitychange`. Only the handlers are modelled.
