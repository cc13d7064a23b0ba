/**
 * The older helpers of `src/utils/gameLogic.ts` that the game hook uses: the
 * game constants, the random spin parameters, a half-open sector map (PINK
 * [0, 120), GREEN [120, 240), ORANGE [240, 360), which differs from the one in
 * `spinningLogic.ts`), the reflection of a rotation into a pointer position,
 * and the win test. The four `Math.random()` draws of `generateRandomSpin`
 * are parameters, in the order the source makes them.
 */
module GameLogic {
  import opened Angles
  import opened Colors
  import opened Draws
  import opened GameTypes
  import SpinningLogic

  // GAME_CONFIG
  const ConfigColorNames: seq<string> := ["ORANGE", "PINK", "GREEN"]
  const SpinDurationMin: real := 2.5
  const SpinDurationMax: real := 6.5
  const SpinDurationVariation: real := 1.5
  const SpinCountMin: int := 2
  const SpinCountMax: int := 8
  const MultiplierMin: real := 0.8
  const MultiplierMax: real := 2.2
  const WinPoints: int := 10
  const LosePoints: int := 0

  function Min(a: int, b: int): (m: int) { if a < b then a else b }
  function Max(a: int, b: int): (m: int) { if a < b then b else a }

  /**
   * `GAME_CONFIG` as the source writes it: the colour names are those of the
   * three wheel colours, each range has its minimum below its maximum, and a
   * win is worth 10 points and a loss none.
   */
  lemma GameConfigValues()
    ensures ConfigColorNames == [Name(Orange), Name(Pink), Name(Green)]
    ensures SpinDurationMin == 2.5 && SpinDurationMax == 6.5 && SpinDurationVariation == 1.5
    ensures SpinCountMin == 2 && SpinCountMax == 8
    ensures MultiplierMin == 0.8 && MultiplierMax == 2.2
    ensures WinPoints == 10 && LosePoints == 0
    ensures SpinDurationMin < SpinDurationMax && SpinCountMin < SpinCountMax && MultiplierMin < MultiplierMax
  {
  }

  /**
   * `generateRandomSpin`. The spin count is the product of duration and a
   * multiplier, floored and clamped to [2, 8]; the wheel turns that many full
   * turns and then on to a uniform target in [0, 360), so the total rotation
   * is at least 720 and below 3240 degrees and ends on the target.
   */
  function GenerateRandomSpin(baseDraw: real, extraDraw: real, multiplierDraw: real, targetDraw: real): (d: SpinData)
    requires IsDraw(baseDraw) && IsDraw(extraDraw) && IsDraw(multiplierDraw) && IsDraw(targetDraw)
    ensures SpinCountMin <= d.spins <= SpinCountMax
    ensures 0.0 <= d.target < 360.0
    ensures d.totalRotation == d.spins as real * 360.0 + d.target
    ensures 720.0 <= d.totalRotation < 3240.0
    ensures Wrap(d.totalRotation) == d.target
    ensures 1.75 <= d.duration < 7.25
  {
    var baseDuration := SpinDurationMin + baseDraw * (SpinDurationMax - SpinDurationMin);
    var extraRandomness := (extraDraw - 0.5) * SpinDurationVariation;
    var spinDuration := baseDuration + extraRandomness;
    var spinMultiplier := MultiplierMin + multiplierDraw * (MultiplierMax - MultiplierMin);
    var fullSpins := Min((spinDuration * spinMultiplier).Floor, SpinCountMax);
    var actualSpins := Max(fullSpins, SpinCountMin);
    var randomTarget := targetDraw * 360.0;
    var total := actualSpins as real * 360.0 + randomTarget;
    WrapUnique(total, randomTarget, actualSpins);
    SpinData(spinDuration, actualSpins, randomTarget, total)
  }

  /**
   * `getColorAtPosition`: after floor-mod normalisation, [0, 120) is PINK,
   * [120, 240) is GREEN and the rest is ORANGE. Every angle, negative ones
   * included, decodes to exactly one colour.
   */
  function GetColorAtPosition(degrees: real): (c: Color)
    ensures c == Pink <==> Wrap(degrees) < 120.0
    ensures c == Green <==> 120.0 <= Wrap(degrees) < 240.0
    ensures c == Orange <==> 240.0 <= Wrap(degrees)
  {
    var normalized := Normalize(degrees);
    if normalized >= 0.0 && normalized < 120.0 then Pink
    else if normalized >= 120.0 && normalized < 240.0 then Green
    else Orange
  }

  /** Decoding does not change by whole turns, in either direction. */
  lemma GetColorAtPositionPeriodic(degrees: real, k: int)
    ensures GetColorAtPosition(degrees + 360.0 * k as real) == GetColorAtPosition(degrees)
  {
    WrapShift(degrees, k);
  }

  /**
   * `calculateFinalPosition`: the pointer position of a wheel turned by
   * `wheelRotation` is the rotation reflected into [0, 360), so that adding
   * it back to the rotation gives whole turns; a whole number of turns gives 0.
   */
  function CalculateFinalPosition(wheelRotation: real): (p: real)
    ensures p == Wrap(-wheelRotation)
    ensures 0.0 <= p < 360.0
    ensures Wrap(wheelRotation + p) == 0.0
    ensures Wrap(wheelRotation) == 0.0 ==> p == 0.0
  {
    var finalVisualPosition := JsRem360(wheelRotation);
    var normalizedPosition := if finalVisualPosition < 0.0 then finalVisualPosition + 360.0 else finalVisualPosition;
    ReflectionFacts(wheelRotation, finalVisualPosition, normalizedPosition);
    JsRem360(360.0 - normalizedPosition)
  }

  /** The steps of `calculateFinalPosition`, each related to `Wrap`. */
  lemma ReflectionFacts(rotation: real, remainder: real, normalized: real)
    requires remainder == JsRem360(rotation)
    requires normalized == if remainder < 0.0 then remainder + 360.0 else remainder
    ensures normalized == Wrap(rotation)
    ensures JsRem360(360.0 - normalized) == Wrap(-rotation)
    ensures Wrap(rotation + Wrap(-rotation)) == 0.0
  {
    if remainder < 0.0 {
      WrapShift(remainder, 1);
      WrapInRange(remainder + 360.0);
    } else {
      WrapInRange(remainder);
    }
    WrapShift(-normalized, 1);
    WrapNeg(rotation);
    WrapAdd(-rotation, rotation);
    WrapInRange(0.0);
    assert -rotation + rotation == 0.0;
  }

  /**
   * `checkWin`: the player wins when the name of the colour at the position
   * equals the chosen string, so only one of the configured names can win.
   */
  function CheckWin(chosenColor: string, finalPosition: real): (win: bool)
    ensures win ==> chosenColor in ConfigColorNames
  {
    Name(GetColorAtPosition(finalPosition)) == chosenColor
  }

  /** Choosing a colour by its name wins exactly when that colour is under the pointer. */
  lemma CheckWinByName(c: Color, finalPosition: real)
    ensures CheckWin(Name(c), finalPosition) <==> GetColorAtPosition(finalPosition) == c
  {
    NameInjective(c, GetColorAtPosition(finalPosition));
  }

  /**
   * The two sector maps disagree: 60 degrees is GREEN for the spin resolver
   * and PINK here, and 240 degrees is PINK there and ORANGE here.
   */
  lemma SectorMapsDisagree()
    ensures SpinningLogic.ColorAtAngle(60.0) == Green && GetColorAtPosition(60.0) == Pink
    ensures SpinningLogic.ColorAtAngle(240.0) == Pink && GetColorAtPosition(240.0) == Orange
  {
    WrapInRange(60.0);
    WrapInRange(240.0);
  }
}
