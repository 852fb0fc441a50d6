/** The state of the single page component as one value, and one function per
    handler, effect and timer callback. The class in module Component updates
    its fields in place; each of its methods is specified by the function of
    the same name here. */
module Model {
  import opened Audio
  import opened Layout

  /** Consecutive NO touches that open the NO popup. */
  const MissThreshold: nat := 5
  /** Half-widths of the box the NO button jumps within. */
  const MaxX: real := 110.0
  const MaxY: real := 55.0
  /** Number of pictures in the YES carousel. */
  const YesImageCount: nat := 3

  /** closed -> opening -> open */
  datatype Stage = Closed | Opening | Open

  /** Offset of the NO button from its resting place. */
  datatype Pos = Pos(x: real, y: real)

  const Origin: Pos := Pos(0.0, 0.0)

  /** The push interval: cancelled (the ref is null), or live together with
      the step counter its callback captured. */
  datatype PushTimer = Idle | Ticking(step: nat)

  datatype AppState = AppState(
    stage: Stage,
    noCount: nat,            // noCountRef
    noPos: Pos,
    showNoPopup: bool,
    showYesPopup: bool,
    pushMode: bool,
    pushStep: nat,
    pushTimer: PushTimer,    // pushTimerRef and the callback's `step`
    yesIndex: nat,
    hasInteracted: bool,     // hasInteractedRef: the audio unlock latch
    openTimers: nat,         // 1050 ms envelope timeouts still pending
    bg: Channel,
    noSfx: Channel,
    yes: Channel)

  /** The state right after mount. */
  function Init(): AppState
  {
    AppState(Closed, 0, Origin, false, false, false, 0, Idle, 0, false, 0, Fresh(), Fresh(), Fresh())
  }

  predicate NoPopup(s: AppState)
  {
    !s.showNoPopup && !s.showYesPopup
  }

  /** No channel sounds, and every channel is back at its start. */
  predicate Silent(s: AppState)
  {
    !s.bg.playing && !s.noSfx.playing && !s.yes.playing &&
    s.bg.rewound && s.noSfx.rewound && s.yes.rewound
  }

  /** The buttons as `resetButtons` leaves them. */
  predicate ButtonsAtRest(s: AppState)
  {
    !s.pushMode && s.pushStep == 0 && s.pushTimer == Idle && s.noPos == Origin && s.noCount == 0
  }

  /** The push sequence as `startPushSequence` leaves it. */
  predicate PushStarted(s: AppState)
  {
    s.pushMode && s.pushStep == 0 && s.pushTimer == Ticking(0) && s.noPos == Origin
  }

  // ---------------------------------------------------------------- audio

  /** `startBG`: only after the first gesture and while the YES popup is
      hidden; loops the background at 0.33 and tries to play it. */
  function StartBG(s: AppState, ok: bool): (r: AppState)
    ensures r == s.(bg := r.bg)
    ensures !s.hasInteracted || s.showYesPopup ==> r == s
    ensures s.hasInteracted && !s.showYesPopup ==>
      r.bg.loop && r.bg.volume == BgVolume && (r.bg.playing <==> ok || s.bg.playing)
  {
    if !s.hasInteracted || s.showYesPopup then s
    else s.(bg := PlayLooped(s.bg, BgVolume, ok))
  }

  /** `stopAll`: stop and rewind all three channels. */
  function StopAll(s: AppState): (r: AppState)
    ensures Silent(r)
    ensures r == s.(bg := r.bg, noSfx := r.noSfx, yes := r.yes)
    ensures r.bg.loop == s.bg.loop && r.bg.volume == s.bg.volume
    ensures r.noSfx.loop == s.noSfx.loop && r.noSfx.volume == s.noSfx.volume
    ensures r.yes.loop == s.yes.loop && r.yes.volume == s.yes.volume
  {
    s.(bg := Stop(s.bg), noSfx := Stop(s.noSfx), yes := Stop(s.yes))
  }

  /** The effect that runs after `showNoPopup` changed. Showing the popup
      pauses the background, stops the YES song and loops the NO sound at
      0.7; hiding it stops the NO sound and restarts the background unless
      the YES popup is up. Nothing happens before the first gesture. */
  function NoPopupEffect(s: AppState, ok: bool): (r: AppState)
    ensures r == s.(bg := r.bg, noSfx := r.noSfx, yes := r.yes)
    ensures !s.hasInteracted ==> r == s
    ensures s.hasInteracted && s.showNoPopup ==>
      !r.bg.playing && r.bg.rewound == s.bg.rewound &&
      !r.yes.playing && r.yes.rewound &&
      r.noSfx.loop && r.noSfx.volume == NoVolume && (r.noSfx.playing <==> ok || s.noSfx.playing)
    ensures s.hasInteracted && !s.showNoPopup ==>
      !r.noSfx.playing && r.noSfx.rewound && r.yes == s.yes
    ensures s.hasInteracted && !s.showNoPopup && s.showYesPopup ==> r.bg == s.bg
    ensures s.hasInteracted && !s.showNoPopup && !s.showYesPopup ==>
      r.bg.loop && r.bg.volume == BgVolume && (r.bg.playing <==> ok || s.bg.playing)
  {
    if !s.hasInteracted then s
    else if s.showNoPopup then
      s.(bg := Pause(s.bg), yes := Stop(s.yes), noSfx := PlayLooped(s.noSfx, NoVolume, ok))
    else
      var t := s.(noSfx := Stop(s.noSfx));
      if !s.showYesPopup then StartBG(t, ok) else t
  }

  /** The effect that runs after `showYesPopup` changed; the mirror image of
      NoPopupEffect with the YES song looped at 0.85. */
  function YesPopupEffect(s: AppState, ok: bool): (r: AppState)
    ensures r == s.(bg := r.bg, noSfx := r.noSfx, yes := r.yes)
    ensures !s.hasInteracted ==> r == s
    ensures s.hasInteracted && s.showYesPopup ==>
      !r.bg.playing && r.bg.rewound == s.bg.rewound &&
      !r.noSfx.playing && r.noSfx.rewound &&
      r.yes.loop && r.yes.volume == YesVolume && (r.yes.playing <==> ok || s.yes.playing)
    ensures s.hasInteracted && !s.showYesPopup ==>
      !r.yes.playing && r.yes.rewound && r.noSfx == s.noSfx
    ensures s.hasInteracted && !s.showYesPopup && s.showNoPopup ==> r.bg == s.bg
    ensures s.hasInteracted && !s.showYesPopup && !s.showNoPopup ==>
      r.bg.loop && r.bg.volume == BgVolume && (r.bg.playing <==> ok || s.bg.playing)
  {
    if !s.hasInteracted then s
    else if s.showYesPopup then
      s.(bg := Pause(s.bg), noSfx := Stop(s.noSfx), yes := PlayLooped(s.yes, YesVolume, ok))
    else
      var t := s.(yes := Stop(s.yes));
      if !s.showNoPopup then StartBG(t, ok) else t
  }

  // ------------------------------------------------------------- handlers

  /** `openEnvelope`: a no-op unless the envelope is closed. Otherwise it
      sets the audio latch, starts the background, moves to `opening` and
      arms a 1050 ms timeout. */
  function OpenEnvelope(s: AppState, ok: bool): (r: AppState)
    ensures s.stage != Closed ==> r == s
    ensures s.stage == Closed ==>
      r.stage == Opening && r.hasInteracted && r.openTimers == s.openTimers + 1 &&
      r == s.(stage := Opening, hasInteracted := true, openTimers := r.openTimers, bg := r.bg)
    ensures s.stage == Closed && !s.showYesPopup ==>
      r.bg.loop && r.bg.volume == BgVolume && (r.bg.playing <==> ok || s.bg.playing)
  {
    if s.stage != Closed then s
    else StartBG(s.(hasInteracted := true), ok).(stage := Opening, openTimers := s.openTimers + 1)
  }

  /** One of the 1050 ms timeouts fires: the stage becomes `open`, whatever
      it is by then. */
  function FireOpenTimer(s: AppState): (r: AppState)
    requires s.openTimers > 0
    ensures r.stage == Open && r.openTimers == s.openTimers - 1
    ensures r == s.(stage := Open, openTimers := r.openTimers)
  {
    s.(stage := Open, openTimers := s.openTimers - 1)
  }

  /** `clearPushTimer`: cancel the push interval if it is live. */
  function ClearPushTimer(s: AppState): (r: AppState)
    ensures !r.pushTimer.Ticking?
    ensures r == s.(pushTimer := r.pushTimer)
  {
    s.(pushTimer := Idle)
  }

  /** `resetButtons`: cancel the push interval and put both buttons back. */
  function ResetButtons(s: AppState): (r: AppState)
    ensures ButtonsAtRest(r)
    ensures r == s.(pushMode := r.pushMode, pushStep := r.pushStep, pushTimer := r.pushTimer,
                    noPos := r.noPos, noCount := r.noCount)
  {
    ClearPushTimer(s).(pushMode := false, pushStep := 0, noPos := Origin, noCount := 0)
  }

  /** `resetAll`: reset the buttons, hide both popups, rewind the carousel,
      silence every channel and close the envelope. The audio latch and any
      pending envelope timeout survive. */
  function ResetAll(s: AppState): (r: AppState)
    requires NoPopup(s)
    ensures ButtonsAtRest(r) && NoPopup(r) && Silent(r)
    ensures r.stage == Closed && r.yesIndex == 0
    ensures r.hasInteracted == s.hasInteracted && r.openTimers == s.openTimers
  {
    var t := ResetButtons(s).(showNoPopup := false, showYesPopup := false, yesIndex := 0);
    StopAll(t).(stage := Closed)
  }

  /** `startPushSequence`: cancel any live interval first, enter push mode at
      step 0 with the NO button at rest, and arm a fresh interval. */
  function StartPushSequence(s: AppState): (r: AppState)
    ensures PushStarted(r)
    ensures r == s.(pushMode := r.pushMode, pushStep := r.pushStep, pushTimer := r.pushTimer,
                    noPos := r.noPos)
  {
    ClearPushTimer(s).(pushMode := true, pushStep := 0, noPos := Origin, pushTimer := Ticking(0))
  }

  /** One 520 ms tick of the push interval: the step goes up by one and the
      interval cancels itself once the step reaches 4. Push mode stays on. */
  function PushTick(s: AppState): (r: AppState)
    requires s.pushTimer.Ticking?
    ensures r.pushStep == s.pushTimer.step + 1
    ensures r.pushTimer.Ticking? <==> r.pushStep < LastPushStep
    ensures r.pushTimer.Ticking? ==> r.pushTimer.step == r.pushStep
    ensures r == s.(pushStep := r.pushStep, pushTimer := r.pushTimer)
  {
    var step := s.pushTimer.step + 1;
    var t := s.(pushStep := step, pushTimer := Ticking(step));
    if step >= LastPushStep then ClearPushTimer(t) else t
  }

  /** `closePopups` (a click on either popup's backdrop): closing the NO
      popup always launches the push sequence; closing the YES popup changes
      nothing else. Both flags end false, and the effect of each flag that
      changed runs, NO before YES. */
  function ClosePopups(s: AppState, ok: bool): (r: AppState)
    requires s.showNoPopup || s.showYesPopup
    ensures NoPopup(r)
    ensures s.showNoPopup ==> PushStarted(r)
    ensures !s.showNoPopup ==> r == s.(showYesPopup := false, bg := r.bg, yes := r.yes)
    ensures r == s.(showNoPopup := false, showYesPopup := false,
                    pushMode := r.pushMode, pushStep := r.pushStep, pushTimer := r.pushTimer,
                    noPos := r.noPos, bg := r.bg, noSfx := r.noSfx, yes := r.yes)
    ensures !s.showYesPopup ==> r.yes == s.yes
    ensures !s.showNoPopup ==> r.noSfx == s.noSfx
    ensures !s.hasInteracted ==> r.bg == s.bg && r.noSfx == s.noSfx && r.yes == s.yes
    ensures s.hasInteracted && s.showNoPopup ==> !r.noSfx.playing && r.noSfx.rewound
    ensures s.hasInteracted && s.showYesPopup ==> !r.yes.playing && r.yes.rewound
    ensures s.hasInteracted ==>
      r.bg.loop && r.bg.volume == BgVolume && (r.bg.playing <==> ok || s.bg.playing)
  {
    var t := if s.showNoPopup then StartPushSequence(s) else s;
    var u := t.(showNoPopup := false, showYesPopup := false);
    var v := if s.showNoPopup then NoPopupEffect(u, ok) else u;
    if s.showYesPopup then YesPopupEffect(v, ok) else v
  }

  /** A random sample as `Math.random` returns it. */
  predicate IsSample(u: real)
  {
    0.0 <= u < 1.0
  }

  predicate InBounds(p: Pos)
  {
    -MaxX <= p.x < MaxX && -MaxY <= p.y < MaxY
  }

  /** The point `moveNo` computes from its two samples. */
  function SampledPos(rx: real, ry: real): (p: Pos)
    ensures IsSample(rx) && IsSample(ry) ==> InBounds(p)
  {
    Pos((rx * 2.0 - 1.0) * MaxX, (ry * 2.0 - 1.0) * MaxY)
  }

  /** `moveNo` (hover or click on the NO button), given the two samples it
      draws: a no-op unless the page is open and not in push mode. Otherwise
      the counter goes up by one and the button jumps within the box; on the
      fifth touch the NO popup opens and the counter starts again at 0. */
  function MoveNo(s: AppState, rx: real, ry: real, ok: bool): (r: AppState)
    requires IsSample(rx) && IsSample(ry) && NoPopup(s)
    ensures s.stage != Open || s.pushMode ==> r == s
    ensures s.stage == Open && !s.pushMode ==>
      r.noPos == SampledPos(rx, ry) && InBounds(r.noPos) &&
      (r.showNoPopup <==> s.noCount + 1 >= MissThreshold) &&
      (r.showNoPopup ==> r.noCount == 0) &&
      (!r.showNoPopup ==> r.noCount == s.noCount + 1 && r == s.(noCount := r.noCount, noPos := r.noPos))
    ensures s.stage == Open && !s.pushMode && r.showNoPopup ==>
      r == s.(noCount := 0, noPos := r.noPos, showNoPopup := true, bg := r.bg, noSfx := r.noSfx, yes := r.yes)
    ensures s.hasInteracted && r.showNoPopup ==>
      !r.bg.playing && r.bg.rewound == s.bg.rewound && r.bg.loop == s.bg.loop && r.bg.volume == s.bg.volume &&
      !r.yes.playing && r.yes.rewound && r.yes.loop == s.yes.loop && r.yes.volume == s.yes.volume &&
      r.noSfx.loop && r.noSfx.volume == NoVolume && (r.noSfx.playing <==> ok || s.noSfx.playing)
    ensures !s.hasInteracted ==> r.bg == s.bg && r.noSfx == s.noSfx && r.yes == s.yes
  {
    if s.stage != Open || s.pushMode then s
    else
      var count := s.noCount + 1;
      var t := s.(noCount := count, noPos := SampledPos(rx, ry));
      if count >= MissThreshold then NoPopupEffect(t.(showNoPopup := true, noCount := 0), ok)
      else t
  }

  /** `clickYes`: reset the buttons, open the YES popup on its first picture
      and run its audio effect. */
  function ClickYes(s: AppState, ok: bool): (r: AppState)
    requires s.stage == Open && NoPopup(s)
    ensures ButtonsAtRest(r) && r.showYesPopup && !r.showNoPopup && r.yesIndex == 0
    ensures r.stage == s.stage && r.hasInteracted == s.hasInteracted && r.openTimers == s.openTimers
    ensures s.hasInteracted ==>
      !r.bg.playing && r.bg.rewound == s.bg.rewound && r.bg.loop == s.bg.loop && r.bg.volume == s.bg.volume &&
      !r.noSfx.playing && r.noSfx.rewound && r.noSfx.loop == s.noSfx.loop && r.noSfx.volume == s.noSfx.volume &&
      r.yes.loop && r.yes.volume == YesVolume && (r.yes.playing <==> ok || s.yes.playing)
    ensures !s.hasInteracted ==> r.bg == s.bg && r.noSfx == s.noSfx && r.yes == s.yes
    ensures r == s.(pushMode := false, pushStep := 0, pushTimer := Idle, noPos := Origin, noCount := 0,
                    showYesPopup := true, yesIndex := 0, bg := r.bg, noSfx := r.noSfx, yes := r.yes)
  {
    var t := ResetButtons(s).(showYesPopup := true, yesIndex := 0);
    YesPopupEffect(t, ok)
  }

  /** One 2200 ms tick of the carousel, live only while the YES popup is up. */
  function CarouselTick(s: AppState): (r: AppState)
    requires s.showYesPopup
    ensures r.yesIndex < YesImageCount
    ensures s.yesIndex + 1 < YesImageCount ==> r.yesIndex == s.yesIndex + 1
    ensures s.yesIndex + 1 == YesImageCount ==> r.yesIndex == 0
    ensures r == s.(yesIndex := r.yesIndex)
  {
    s.(yesIndex := (s.yesIndex + 1) % YesImageCount)
  }

  // --------------------------------------------------------------- traces

  /** What can happen to the page: user gestures, timer callbacks and window
      events. `rx`, `ry` are the samples `moveNo` draws and `ok` the outcome
      of the play attempt the event may make. */
  datatype Event =
    | EnvelopeClicked(ok: bool)
    | OpenTimeout
    | NoTouched(rx: real, ry: real, ok: bool)
    | PushInterval
    | BackdropClicked(ok: bool)
    | YesClicked(ok: bool)
    | ResetClicked
    | CarouselInterval
    | WindowBlurred
    | VisibilityChanged(hidden: bool)

  /** The page's response to one event. An event the page cannot deliver in
      state `s` to pointer input (a click or hover on a button under the popup
      overlay, a tick of a cancelled timer, a backdrop that is not there)
      leaves the state unchanged. Only an envelope click, the envelope timeout
      or a reset moves the stage, and blur or a hidden tab silences the page. */
  function Step(s: AppState, e: Event): (r: AppState)
    ensures s.hasInteracted ==> r.hasInteracted
    ensures r.stage != s.stage ==> e.EnvelopeClicked? || e.OpenTimeout? || e.ResetClicked?
    ensures e.WindowBlurred? || e == VisibilityChanged(true) ==> Silent(r)
  {
    match e
    case EnvelopeClicked(ok) => OpenEnvelope(s, ok)
    case OpenTimeout => if s.openTimers > 0 then FireOpenTimer(s) else s
    case NoTouched(rx, ry, ok) =>
      if IsSample(rx) && IsSample(ry) && NoPopup(s) then MoveNo(s, rx, ry, ok) else s
    case PushInterval => if s.pushTimer.Ticking? then PushTick(s) else s
    case BackdropClicked(ok) => if s.showNoPopup || s.showYesPopup then ClosePopups(s, ok) else s
    case YesClicked(ok) => if s.stage == Open && NoPopup(s) then ClickYes(s, ok) else s
    case ResetClicked => if NoPopup(s) then ResetAll(s) else s
    case CarouselInterval => if s.showYesPopup then CarouselTick(s) else s
    case WindowBlurred => StopAll(s)
    case VisibilityChanged(hidden) => if hidden then StopAll(s) else s
  }

  /** The state after a sequence of events. */
  function Run(s: AppState, evs: seq<Event>): AppState
    decreases |evs|
  {
    if evs == [] then s else Run(Step(s, evs[0]), evs[1..])
  }
}
