/** What holds of every state the page can reach, and what sequences of events
    do to it. */
module Properties {
  import opened Audio
  import opened Layout
  import opened Model

  /** The sound a channel makes when it plays: looped at its own level. */
  predicate LoopedAt(c: Channel, volume: nat)
  {
    c.loop && c.volume == volume
  }

  /** Which channel may sound: the background only with no popup up, each
      popup's channel only while its popup is up, and nothing at all before
      the first gesture. */
  predicate AudioValid(s: AppState)
  {
    (s.bg.playing ==> s.hasInteracted && NoPopup(s) && LoopedAt(s.bg, BgVolume)) &&
    (s.noSfx.playing ==> s.hasInteracted && s.showNoPopup && LoopedAt(s.noSfx, NoVolume)) &&
    (s.yes.playing ==> s.hasInteracted && s.showYesPopup && LoopedAt(s.yes, YesVolume))
  }

  /** The invariant of the page component. */
  predicate Valid(s: AppState)
  {
    // the miss counter never rests at the threshold
    s.noCount < MissThreshold &&
    // the push step stays within 0..4 and the carousel on a real picture
    s.pushStep <= LastPushStep &&
    s.yesIndex < YesImageCount &&
    InBounds(s.noPos) &&
    // at most one popup, and popups only on the open page outside push mode
    !(s.showNoPopup && s.showYesPopup) &&
    (s.showNoPopup || s.showYesPopup ==> s.stage == Open && !s.pushMode) &&
    (s.pushMode ==> s.stage == Open) &&
    // the push interval is live exactly while push mode is short of step 4,
    // and its captured counter agrees with the rendered step
    (!s.pushMode ==> s.pushStep == 0 && s.pushTimer == Idle) &&
    (s.pushMode ==> (s.pushTimer.Ticking? <==> s.pushStep < LastPushStep)) &&
    (s.pushTimer.Ticking? ==> s.pushTimer.step == s.pushStep) &&
    // the envelope animation always has its timeout pending
    (s.stage == Opening ==> s.openTimers > 0) &&
    (s.stage != Closed || s.openTimers > 0 ==> s.hasInteracted) &&
    AudioValid(s)
  }

  lemma InitValid()
    ensures Valid(Init())
  {
  }

  lemma OpenEnvelopeKeepsValid(s: AppState, ok: bool)
    requires Valid(s)
    ensures Valid(OpenEnvelope(s, ok))
  {
  }

  lemma FireOpenTimerKeepsValid(s: AppState)
    requires Valid(s) && s.openTimers > 0
    ensures Valid(FireOpenTimer(s))
  {
  }

  lemma MoveNoKeepsValid(s: AppState, rx: real, ry: real, ok: bool)
    requires Valid(s) && IsSample(rx) && IsSample(ry) && NoPopup(s)
    ensures Valid(MoveNo(s, rx, ry, ok))
  {
  }

  lemma PushTickKeepsValid(s: AppState)
    requires Valid(s) && s.pushTimer.Ticking?
    ensures Valid(PushTick(s))
  {
  }

  lemma ClosePopupsKeepsValid(s: AppState, ok: bool)
    requires Valid(s) && (s.showNoPopup || s.showYesPopup)
    ensures Valid(ClosePopups(s, ok))
  {
  }

  lemma ClickYesKeepsValid(s: AppState, ok: bool)
    requires Valid(s) && s.stage == Open && NoPopup(s)
    ensures Valid(ClickYes(s, ok))
  {
  }

  lemma ResetAllKeepsValid(s: AppState)
    requires Valid(s) && NoPopup(s)
    ensures Valid(ResetAll(s))
  {
  }

  lemma CarouselTickKeepsValid(s: AppState)
    requires Valid(s) && s.showYesPopup
    ensures Valid(CarouselTick(s))
  {
  }

  lemma StopAllKeepsValid(s: AppState)
    requires Valid(s)
    ensures Valid(StopAll(s))
  {
  }

  lemma StepKeepsValid(s: AppState, e: Event)
    requires Valid(s)
    ensures Valid(Step(s, e))
  {
    match e
    case EnvelopeClicked(ok) => OpenEnvelopeKeepsValid(s, ok);
    case OpenTimeout => if s.openTimers > 0 { FireOpenTimerKeepsValid(s); }
    case NoTouched(rx, ry, ok) =>
      if IsSample(rx) && IsSample(ry) && NoPopup(s) { MoveNoKeepsValid(s, rx, ry, ok); }
    case PushInterval => if s.pushTimer.Ticking? { PushTickKeepsValid(s); }
    case BackdropClicked(ok) => if s.showNoPopup || s.showYesPopup { ClosePopupsKeepsValid(s, ok); }
    case YesClicked(ok) => if s.stage == Open && NoPopup(s) { ClickYesKeepsValid(s, ok); }
    case ResetClicked => if NoPopup(s) { ResetAllKeepsValid(s); }
    case CarouselInterval => if s.showYesPopup { CarouselTickKeepsValid(s); }
    case WindowBlurred => StopAllKeepsValid(s);
    case VisibilityChanged(hidden) => if hidden { StopAllKeepsValid(s); }
  }

  /** Every sequence of events keeps the invariant. */
  lemma {:induction false} RunKeepsValid(s: AppState, evs: seq<Event>)
    requires Valid(s)
    ensures Valid(Run(s, evs))
    decreases |evs|
  {
    if evs != [] {
      StepKeepsValid(s, evs[0]);
      RunKeepsValid(Step(s, evs[0]), evs[1..]);
    }
  }

  /** Every state reachable from mount satisfies the invariant; in particular
      the two popups are never up together. */
  lemma ReachableIsValid(evs: seq<Event>)
    ensures Valid(Run(Init(), evs))
    ensures !(Run(Init(), evs).showNoPopup && Run(Init(), evs).showYesPopup)
  {
    InitValid();
    RunKeepsValid(Init(), evs);
  }

  /** Running two sequences one after the other is running their concatenation. */
  lemma {:induction false} RunConcat(s: AppState, a: seq<Event>, b: seq<Event>)
    ensures Run(s, a + b) == Run(Run(s, a), b)
    decreases |a|
  {
    if a == [] {
      assert a + b == b;
    } else {
      assert (a + b)[0] == a[0];
      assert (a + b)[1..] == a[1..] + b;
      RunConcat(Step(s, a[0]), a[1..], b);
    }
  }

  /** At most one channel sounds at any time, and the one that sounds belongs
      to whatever is on screen. */
  lemma OneChannelAtATime(s: AppState)
    requires Valid(s)
    ensures !(s.bg.playing && s.noSfx.playing)
    ensures !(s.bg.playing && s.yes.playing)
    ensures !(s.noSfx.playing && s.yes.playing)
    ensures !s.hasInteracted ==> !s.bg.playing && !s.noSfx.playing && !s.yes.playing
  {
  }

  /** The YES button nudges exactly while a push tick is still due and at
      least one has fired. */
  lemma NudgeWhileTicking(s: AppState)
    requires Valid(s)
    ensures YesNudge(s.pushMode, s.pushStep) <==> s.pushTimer.Ticking? && s.pushStep > 0
  {
  }

  // ------------------------------------------------------------ the latch

  /** Once the first gesture has unlocked audio, nothing locks it again. */
  lemma {:induction false} LatchNeverCleared(s: AppState, evs: seq<Event>)
    requires s.hasInteracted
    ensures Run(s, evs).hasInteracted
    decreases |evs|
  {
    if evs != [] {
      LatchNeverCleared(Step(s, evs[0]), evs[1..]);
    }
  }

  // ------------------------------------------------------ the NO evasion

  /** Every event is a touch of the NO button with valid samples. */
  predicate AllTouches(evs: seq<Event>)
  {
    forall i :: 0 <= i < |evs| ==> evs[i].NoTouched? && IsSample(evs[i].rx) && IsSample(evs[i].ry)
  }

  /** Below the threshold each touch raises the counter by exactly one and
      opens no popup. */
  lemma {:induction false} TouchesBelowThreshold(s: AppState, evs: seq<Event>)
    requires s.stage == Open && !s.pushMode && NoPopup(s)
    requires AllTouches(evs) && s.noCount + |evs| < MissThreshold
    ensures Run(s, evs).noCount == s.noCount + |evs|
    ensures NoPopup(Run(s, evs)) && Run(s, evs).stage == Open && !Run(s, evs).pushMode
    ensures Run(s, evs).yesIndex == s.yesIndex && Run(s, evs).pushTimer == s.pushTimer
    ensures Run(s, evs).hasInteracted == s.hasInteracted
    decreases |evs|
  {
    if evs != [] {
      var t := Step(s, evs[0]);
      assert AllTouches(evs[1..]) by {
        forall i | 0 <= i < |evs[1..]|
          ensures evs[1..][i].NoTouched? && IsSample(evs[1..][i].rx) && IsSample(evs[1..][i].ry)
        {
          assert evs[1..][i] == evs[i + 1];
        }
      }
      TouchesBelowThreshold(t, evs[1..]);
    }
  }

  /** From a fresh counter, the fifth touch in a row opens the NO popup, the
      first four do not, and the counter is back at 0. */
  lemma FifthTouchOpensNoPopup(s: AppState, evs: seq<Event>)
    requires s.stage == Open && !s.pushMode && NoPopup(s) && s.noCount == 0
    requires AllTouches(evs) && |evs| == MissThreshold
    ensures NoPopup(Run(s, evs[..MissThreshold - 1]))
    ensures Run(s, evs[..MissThreshold - 1]).noCount == MissThreshold - 1
    ensures Run(s, evs).showNoPopup && !Run(s, evs).showYesPopup && Run(s, evs).noCount == 0
    ensures s.hasInteracted && evs[MissThreshold - 1].ok ==>
      Run(s, evs).noSfx.playing && !Run(s, evs).bg.playing && !Run(s, evs).yes.playing
  {
    var first := evs[..MissThreshold - 1];
    assert AllTouches(first) by {
      forall i | 0 <= i < |first|
        ensures first[i].NoTouched? && IsSample(first[i].rx) && IsSample(first[i].ry)
      {
        assert first[i] == evs[i];
      }
    }
    TouchesBelowThreshold(s, first);
    var t := Run(s, first);
    assert evs == first + [evs[MissThreshold - 1]];
    RunConcat(s, first, [evs[MissThreshold - 1]]);
    assert Run(t, [evs[MissThreshold - 1]]) == Step(t, evs[MissThreshold - 1]);
  }

  /** Every point of the box is where some pair of samples puts the NO
      button, so the bounds in MoveNo are the exact range of its jumps. */
  lemma NoPosCoversBox(p: Pos)
    requires InBounds(p)
    ensures exists rx, ry :: IsSample(rx) && IsSample(ry) && SampledPos(rx, ry) == p
  {
    var rx := (p.x / MaxX + 1.0) / 2.0;
    var ry := (p.y / MaxY + 1.0) / 2.0;
    assert SampledPos(rx, ry) == p;
  }

  // ------------------------------------------------------ the push sequence

  function PushTicks(n: nat): (evs: seq<Event>)
    ensures |evs| == n
    ensures forall i :: 0 <= i < n ==> evs[i] == PushInterval
  {
    if n == 0 then [] else [PushInterval] + PushTicks(n - 1)
  }

  /** Each tick of a live push interval raises the step by exactly one and
      touches nothing else; the interval stays live until step 4. */
  lemma {:induction false} PushTicksAdvance(s: AppState, n: nat)
    requires s.pushTimer == Ticking(s.pushStep) && s.pushStep < LastPushStep
    requires s.pushStep + n <= LastPushStep
    ensures Run(s, PushTicks(n)).pushStep == s.pushStep + n
    ensures Run(s, PushTicks(n)).pushTimer ==
      if s.pushStep + n < LastPushStep then Ticking(s.pushStep + n) else Idle
    ensures Run(s, PushTicks(n)) ==
      s.(pushStep := Run(s, PushTicks(n)).pushStep, pushTimer := Run(s, PushTicks(n)).pushTimer)
    decreases n
  {
    if n > 0 {
      var t := Step(s, PushInterval);
      assert PushTicks(n)[0] == PushInterval;
      assert PushTicks(n)[1..] == PushTicks(n - 1);
      if n > 1 {
        PushTicksAdvance(t, n - 1);
      } else {
        assert PushTicks(0) == [];
      }
    }
  }

  /** After the NO popup is dismissed the push sequence runs through steps
      1, 2, 3, 4 and then stops ticking, still in push mode; further ticks
      change nothing. Restarting it mid-way drops the old interval. */
  lemma PushSequenceRunsToFour(s: AppState)
    ensures Run(StartPushSequence(s), PushTicks(LastPushStep)).pushStep == LastPushStep
    ensures Run(StartPushSequence(s), PushTicks(LastPushStep)).pushTimer == Idle
    ensures Run(StartPushSequence(s), PushTicks(LastPushStep)).pushMode
    ensures Step(Run(StartPushSequence(s), PushTicks(LastPushStep)), PushInterval) ==
      Run(StartPushSequence(s), PushTicks(LastPushStep))
  {
    PushTicksAdvance(StartPushSequence(s), LastPushStep);
  }

  // ------------------------------------------------------------- resets

  /** `resetAll` returns the page to its state at mount, except that the
      audio latch stays set, a pending envelope timeout is not cancelled, and
      the channels keep their loop and volume settings. */
  lemma ResetAllRestoresInit(s: AppState)
    requires NoPopup(s)
    ensures ResetAll(s) ==
      Init().(hasInteracted := s.hasInteracted, openTimers := s.openTimers,
              bg := Stop(s.bg), noSfx := Stop(s.noSfx), yes := Stop(s.yes))
  {
  }

  /** A reset during the envelope animation does not cancel its timeout,
      which then opens the page again. */
  lemma StaleOpenTimerAfterReset(s: AppState)
    requires Valid(s) && s.stage == Opening
    ensures NoPopup(s)
    ensures ResetAll(s).stage == Closed && ResetAll(s).openTimers > 0
    ensures FireOpenTimer(ResetAll(s)).stage == Open
  {
  }

  // ------------------------------------------------------------- carousel

  /** Three carousel ticks come back to the same picture. */
  lemma CarouselCycles(s: AppState)
    requires s.showYesPopup && s.yesIndex < YesImageCount
    ensures CarouselTick(CarouselTick(CarouselTick(s))) == s
  {
  }

  // ------------------------------------------------------------- a session

  /** A whole session: open the envelope, wait for the page, touch NO five
      times, dismiss the NO popup, let the push run out, and say YES. Every
      play attempt succeeds. */
  lemma SessionScenario(evs: seq<Event>)
    requires AllTouches(evs) && |evs| == MissThreshold && evs[MissThreshold - 1].ok
    ensures var open := Run(Init(), [EnvelopeClicked(true), OpenTimeout]);
            open.stage == Open && open.bg.playing && open.openTimers == 0 &&
            var refused := Run(open, evs);
            refused.showNoPopup && refused.noCount == 0 && refused.noSfx.playing && !refused.bg.playing &&
            var pushed := Run(refused, [BackdropClicked(true)] + PushTicks(LastPushStep));
            NoPopup(pushed) && pushed.pushMode && pushed.pushStep == LastPushStep &&
            pushed.pushTimer == Idle && pushed.bg.playing && !pushed.noSfx.playing &&
            var accepted := Step(pushed, YesClicked(true));
            accepted.showYesPopup && accepted.yesIndex == 0 && accepted.yes.playing &&
            !accepted.bg.playing && !accepted.pushMode
  {
    var open := Run(Init(), [EnvelopeClicked(true), OpenTimeout]);
    assert open == FireOpenTimer(OpenEnvelope(Init(), true));
    FifthTouchOpensNoPopup(open, evs);
    var refused := Run(open, evs);
    InitValid();
    RunKeepsValid(open, evs) by {
      OpenEnvelopeKeepsValid(Init(), true);
      FireOpenTimerKeepsValid(OpenEnvelope(Init(), true));
    }
    assert refused.hasInteracted;
    var closed := Step(refused, BackdropClicked(true));
    RunConcat(refused, [BackdropClicked(true)], PushTicks(LastPushStep));
    assert Run(refused, [BackdropClicked(true)]) == closed;
    PushTicksAdvance(closed, LastPushStep);
  }
}
