/** The layout values the component derives from the push state on every
    render. The source computes them in floating point; here they are exact
    integers in hundredths of a unit (scale 0.55 is 55) or in pixels. */
module Layout {

  /** Step at which the push sequence ends. */
  const LastPushStep: nat := 4

  function Min(a: int, b: int): int { if a <= b then a else b }
  function Max(a: int, b: int): int { if a >= b then a else b }

  /** Scale of the NO button, in hundredths: it shrinks by 0.12 per step and
      never below 0.55; 1 outside push mode. */
  function NoScale(pushMode: bool, pushStep: nat): (r: int)
    ensures 55 <= r <= 100
    ensures !pushMode ==> r == 100
    ensures pushMode && pushStep > 0 ==> r < 100
  {
    if pushMode then Max(55, 100 - 12 * pushStep) else 100
  }

  /** Sideways shift of the NO button in pixels: 55 per step, at most 170;
      0 outside push mode. */
  function NoSideX(pushMode: bool, pushStep: nat): (r: int)
    ensures 0 <= r <= 170
    ensures !pushMode ==> r == 0
    ensures pushMode && pushStep > 0 ==> r > 0
  {
    if pushMode then Min(170, pushStep * 55) else 0
  }

  /** Growth of the YES button, in hundredths: 0.06 per step, at most 0.2
      over its normal size; 1 outside push mode. */
  function YesGrow(pushMode: bool, pushStep: nat): (r: int)
    ensures 100 <= r <= 120
    ensures !pushMode ==> r == 100
    ensures pushMode && pushStep > 0 ==> r > 100
  {
    if pushMode then 100 + Min(20, pushStep * 6) else 100
  }

  /** Whether the YES button carries the nudge animation. */
  predicate YesNudge(pushMode: bool, pushStep: nat): (on: bool)
    ensures on ==> pushStep < LastPushStep
    ensures on ==> NoScale(pushMode, pushStep) < 100 && NoSideX(pushMode, pushStep) > 0 &&
                   YesGrow(pushMode, pushStep) > 100
  {
    pushMode && 0 < pushStep < LastPushStep
  }

  /** Each push step moves the buttons further apart: the NO button never
      grows back, never slides back, and the YES button never shrinks. */
  lemma PushIsMonotone(i: nat, j: nat)
    requires i <= j
    ensures NoScale(true, j) <= NoScale(true, i)
    ensures NoSideX(true, i) <= NoSideX(true, j)
    ensures YesGrow(true, i) <= YesGrow(true, j)
  {
  }

  /** At the last step every value has reached its clamp, and the nudge is off. */
  lemma LastStepIsClamped()
    ensures NoScale(true, LastPushStep) == 55
    ensures NoSideX(true, LastPushStep) == 170
    ensures YesGrow(true, LastPushStep) == 120
    ensures !YesNudge(true, LastPushStep)
  {
  }
}
