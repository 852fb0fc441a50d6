/** The page component as an object: one field per piece of React state or
    ref, one method per handler, effect and timer callback. Each method is
    specified by the function of the same name in module Model, and the
    handlers the page can invoke keep the invariant of module Properties. */
module Component {
  import opened Audio
  import opened Layout
  import opened Model
  import Properties

  class App {
    var stage: Stage
    var noCount: nat
    var noPos: Pos
    var showNoPopup: bool
    var showYesPopup: bool
    var pushMode: bool
    var pushStep: nat
    var pushTimer: PushTimer
    var yesIndex: nat
    var hasInteracted: bool
    var openTimers: nat
    var bg: Channel
    var noSfx: Channel
    var yes: Channel

    /** The fields as one value. */
    ghost function State(): AppState
      reads this
    {
      AppState(stage, noCount, noPos, showNoPopup, showYesPopup, pushMode, pushStep, pushTimer,
               yesIndex, hasInteracted, openTimers, bg, noSfx, yes)
    }

    ghost predicate Valid()
      reads this
    {
      Properties.Valid(State())
    }

    /** Mount: the envelope is closed and all three channels are silent. */
    constructor ()
      ensures State() == Init() && Valid()
    {
      stage, noCount, noPos := Closed, 0, Origin;
      showNoPopup, showYesPopup := false, false;
      pushMode, pushStep, pushTimer := false, 0, Idle;
      yesIndex, hasInteracted, openTimers := 0, false, 0;
      bg, noSfx, yes := Fresh(), Fresh(), Fresh();
      Properties.InitValid();
    }

    // ------------------------------------------------------------- audio

    method StartBG(ok: bool)
      modifies this
      ensures State() == Model.StartBG(old(State()), ok)
    {
      if !hasInteracted || showYesPopup {
        return;
      }
      bg := bg.(loop := true, volume := BgVolume);
      bg := Play(bg, ok);
    }

    method StopAll()
      modifies this
      ensures State() == Model.StopAll(old(State()))
    {
      bg := Stop(bg);
      noSfx := Stop(noSfx);
      yes := Stop(yes);
    }

    /** Runs after `showNoPopup` changed. */
    method NoPopupEffect(ok: bool)
      modifies this
      ensures State() == Model.NoPopupEffect(old(State()), ok)
    {
      if !hasInteracted {
        return;
      }
      if showNoPopup {
        bg := Pause(bg);
        yes := Stop(yes);
        noSfx := noSfx.(loop := true, volume := NoVolume);
        noSfx := Play(noSfx, ok);
      } else {
        noSfx := Stop(noSfx);
        if !showYesPopup {
          StartBG(ok);
        }
      }
    }

    /** Runs after `showYesPopup` changed. */
    method YesPopupEffect(ok: bool)
      modifies this
      ensures State() == Model.YesPopupEffect(old(State()), ok)
    {
      if !hasInteracted {
        return;
      }
      if showYesPopup {
        bg := Pause(bg);
        noSfx := Stop(noSfx);
        yes := yes.(loop := true, volume := YesVolume);
        yes := Play(yes, ok);
      } else {
        yes := Stop(yes);
        if !showNoPopup {
          StartBG(ok);
        }
      }
    }

    /** Window blur. */
    method OnBlur()
      requires Valid()
      modifies this
      ensures State() == Model.StopAll(old(State())) && Valid()
    {
      Properties.StopAllKeepsValid(State());
      StopAll();
    }

    /** Visibility change; only a hidden document silences the page. */
    method OnVisibilityChange(hidden: bool)
      requires Valid()
      modifies this
      ensures State() == (if hidden then Model.StopAll(old(State())) else old(State())) && Valid()
    {
      Properties.StopAllKeepsValid(State());
      if hidden {
        StopAll();
      }
    }

    // ------------------------------------------------------------ stages

    method OpenEnvelope(ok: bool)
      requires Valid()
      modifies this
      ensures State() == Model.OpenEnvelope(old(State()), ok) && Valid()
    {
      Properties.OpenEnvelopeKeepsValid(State(), ok);
      if stage != Closed {
        return;
      }
      hasInteracted := true;
      StartBG(ok);
      stage := Opening;
      openTimers := openTimers + 1;
    }

    /** The 1050 ms timeout armed by OpenEnvelope fires. */
    method FireOpenTimer()
      requires Valid() && openTimers > 0
      modifies this
      ensures State() == Model.FireOpenTimer(old(State())) && Valid()
    {
      Properties.FireOpenTimerKeepsValid(State());
      stage := Open;
      openTimers := openTimers - 1;
    }

    // ----------------------------------------------------------- buttons

    method ClearPushTimer()
      modifies this
      ensures State() == Model.ClearPushTimer(old(State()))
    {
      if pushTimer.Ticking? {
        pushTimer := Idle;
      }
    }

    method ResetButtons()
      modifies this
      ensures State() == Model.ResetButtons(old(State()))
    {
      ClearPushTimer();
      pushMode := false;
      pushStep := 0;
      noPos := Origin;
      noCount := 0;
    }

    /** The reset button. It sits under the popup overlay, so a pointer can
        press it only while no popup is up. */
    method ResetAll()
      requires Valid() && !showNoPopup && !showYesPopup
      modifies this
      ensures State() == Model.ResetAll(old(State())) && Valid()
    {
      Properties.ResetAllKeepsValid(State());
      ResetButtons();
      showNoPopup := false;
      showYesPopup := false;
      yesIndex := 0;
      StopAll();
      stage := Closed;
    }

    method StartPushSequence()
      modifies this
      ensures State() == Model.StartPushSequence(old(State()))
    {
      ClearPushTimer();
      pushMode := true;
      pushStep := 0;
      noPos := Origin;
      pushTimer := Ticking(0);
    }

    /** The 520 ms push interval fires: its captured counter and the rendered
        step go up together, and the interval cancels itself at step 4. */
    method PushTick()
      requires Valid() && pushTimer.Ticking?
      modifies this
      ensures State() == Model.PushTick(old(State())) && Valid()
    {
      Properties.PushTickKeepsValid(State());
      var step := pushTimer.step + 1;
      pushTimer := Ticking(step);
      pushStep := step;
      if step >= LastPushStep {
        ClearPushTimer();
      }
    }

    /** A click on the backdrop of the popup that is up. */
    method ClosePopups(ok: bool)
      requires Valid() && (showNoPopup || showYesPopup)
      modifies this
      ensures State() == Model.ClosePopups(old(State()), ok) && Valid()
    {
      Properties.ClosePopupsKeepsValid(State(), ok);
      var wasNo, wasYes := showNoPopup, showYesPopup;
      if showNoPopup {
        StartPushSequence();
      }
      showNoPopup := false;
      showYesPopup := false;
      if wasNo {
        NoPopupEffect(ok);
      }
      if wasYes {
        YesPopupEffect(ok);
      }
    }

    /** A hover or click on the NO button, with the two samples it draws. */
    method MoveNo(rx: real, ry: real, ok: bool)
      requires Valid() && IsSample(rx) && IsSample(ry) && !showNoPopup && !showYesPopup
      modifies this
      ensures State() == Model.MoveNo(old(State()), rx, ry, ok) && Valid()
    {
      Properties.MoveNoKeepsValid(State(), rx, ry, ok);
      if stage != Open || pushMode {
        return;
      }
      noCount := noCount + 1;
      noPos := Pos((rx * 2.0 - 1.0) * MaxX, (ry * 2.0 - 1.0) * MaxY);
      if noCount >= MissThreshold {
        showNoPopup := true;
        noCount := 0;
        NoPopupEffect(ok);
      }
    }

    /** A click on the YES button, which exists only on the open page and
        sits under the popup overlay, out of a pointer's reach while a popup
        is up. */
    method ClickYes(ok: bool)
      requires Valid() && stage == Open && !showNoPopup && !showYesPopup
      modifies this
      ensures State() == Model.ClickYes(old(State()), ok) && Valid()
    {
      Properties.ClickYesKeepsValid(State(), ok);
      ResetButtons();
      showYesPopup := true;
      yesIndex := 0;
      YesPopupEffect(ok);
    }

    /** The 2200 ms carousel interval, live only while the YES popup is up. */
    method CarouselTick()
      requires Valid() && showYesPopup
      modifies this
      ensures State() == Model.CarouselTick(old(State())) && Valid()
    {
      Properties.CarouselTickKeepsValid(State());
      yesIndex := (yesIndex + 1) % YesImageCount;
    }

    // ------------------------------------------------------------ layout

    /** The transform of the two buttons for the current render. */
    method ButtonLayout() returns (noScale: int, noSideX: int, yesGrow: int, nudge: bool)
      requires Valid()
      ensures noScale == NoScale(pushMode, pushStep) && noSideX == NoSideX(pushMode, pushStep)
      ensures yesGrow == YesGrow(pushMode, pushStep) && nudge == YesNudge(pushMode, pushStep)
      ensures 55 <= noScale <= 100 && 0 <= noSideX <= 170 && 100 <= yesGrow <= 120
      ensures !pushMode ==> noScale == 100 && noSideX == 0 && yesGrow == 100 && !nudge
      ensures nudge <==> pushTimer.Ticking? && pushStep > 0
    {
      Properties.NudgeWhileTicking(State());
      noScale := NoScale(pushMode, pushStep);
      noSideX := NoSideX(pushMode, pushStep);
      yesGrow := YesGrow(pushMode, pushStep);
      nudge := YesNudge(pushMode, pushStep);
    }
  }
}
