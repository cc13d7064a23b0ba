/**
 * The game hook of `src/hooks/useGame.ts`: one `GameState` record, held by
 * React, that each transition overwrites field by field behind the
 * "a spin is in flight" guard. The record is a class whose fields the
 * transitions update; the two `setGameState` calls of `spinWheel` happen one
 * after the other.
 */
module UseGame {
  import opened Wrappers
  import opened Colors
  import opened Draws
  import opened GameTypes
  import opened GameLogic

  /** The result `handleAnimationComplete` builds from the win test. */
  function ResultOf(isWin: bool): (r: GameResult)
    ensures r.kind == Win <==> isWin
    ensures r.points == if isWin then WinPoints else LosePoints
  {
    if isWin then GameResult(Win, "WIN!", WinPoints) else GameResult(Lose, "LOSE!", LosePoints)
  }

  /** JavaScript truthiness of `chosenColor`: neither `null` nor the empty string. */
  predicate IsChosen(chosenColor: Option<string>)
  {
    chosenColor.Some? && chosenColor.value != ""
  }

  /**
   * The guard of `handleAnimationComplete` on the chosen colour lets every
   * colour name through and blocks only `null` and the empty string, which
   * `spinWheel` nevertheless accepts as a choice.
   */
  lemma ChosenGuard(chosen: string)
    ensures IsChosen(Some(chosen)) <==> chosen != ""
    ensures !IsChosen(None)
    ensures forall c: Color :: IsChosen(Some(Name(c)))
  {
    forall c: Color ensures IsChosen(Some(Name(c))) {
      assert Name(c)[0] in "OPG";
    }
  }

  class Game {
    var isSpinning: bool
    var points: int
    var result: Option<GameResult>
    var showResult: bool
    var wheelRotation: real
    var chosenColor: Option<string>

    /**
     * What every transition keeps: a shown result exists, a spin in flight
     * has a chosen colour and no result yet, and the rotation is never
     * negative. The transitions preserve it; their other postconditions do
     * not rely on it.
     */
    ghost predicate Valid()
      reads this
    {
      && (showResult ==> result.Some?)
      && (isSpinning ==> chosenColor.Some? && result.None? && !showResult)
      && wheelRotation >= 0.0
    }

    /** The fields of `initialState`. */
    ghost predicate IsInitial()
      reads this
    {
      && !isSpinning
      && points == 0
      && result.None?
      && !showResult
      && wheelRotation == 0.0
      && chosenColor.None?
    }

    /** `useState(initialState)`. */
    constructor ()
      ensures IsInitial() && Valid()
    {
      isSpinning := false;
      points := 0;
      result := None;
      showResult := false;
      wheelRotation := 0.0;
      chosenColor := None;
    }

    /**
     * `spinWheel(chosenColor)`: ignored while a spin is in flight; otherwise it
     * starts a spin on the chosen colour, clears the previous result, and
     * turns the wheel forward by the random spin's total rotation, which is
     * at least two full turns. Points do not change.
     */
    method SpinWheel(chosen: string, baseDraw: real, extraDraw: real, multiplierDraw: real, targetDraw: real)
      requires Valid()
      requires IsDraw(baseDraw) && IsDraw(extraDraw) && IsDraw(multiplierDraw) && IsDraw(targetDraw)
      modifies this
      ensures Valid()
      ensures old(isSpinning) ==> unchanged(this)
      ensures !old(isSpinning) ==>
                && isSpinning
                && chosenColor == Some(chosen)
                && result.None?
                && !showResult
                && points == old(points)
                && wheelRotation
                   == old(wheelRotation) + GenerateRandomSpin(baseDraw, extraDraw, multiplierDraw, targetDraw).totalRotation
                && wheelRotation >= old(wheelRotation) + 720.0
    {
      if isSpinning {
        return;
      }
      isSpinning := true;
      result := None;
      showResult := false;
      chosenColor := Some(chosen);

      var spinData := GenerateRandomSpin(baseDraw, extraDraw, multiplierDraw, targetDraw);
      wheelRotation := wheelRotation + spinData.totalRotation;
    }

    /**
     * `handleAnimationComplete`: when a spin is in flight on a chosen colour,
     * it reflects the wheel rotation into a pointer position, tests the win,
     * shows the result, ends the spin and adds the win points on a win. The
     * rotation and the chosen colour stay as they are. Otherwise nothing changes.
     */
    method HandleAnimationComplete()
      requires Valid()
      modifies this
      ensures Valid()
      ensures !(old(isSpinning) && IsChosen(old(chosenColor))) ==> unchanged(this)
      ensures old(isSpinning) && IsChosen(old(chosenColor)) ==>
                var isWin := CheckWin(old(chosenColor).value, CalculateFinalPosition(old(wheelRotation)));
                && !isSpinning
                && showResult
                && result == Some(ResultOf(isWin))
                && (result.value.kind == Win <==> isWin)
                && points == old(points) + (if isWin then WinPoints else 0)
                && wheelRotation == old(wheelRotation)
                && chosenColor == old(chosenColor)
    {
      if isSpinning && IsChosen(chosenColor) {
        var finalPosition := CalculateFinalPosition(wheelRotation);
        var isWin := CheckWin(chosenColor.value, finalPosition);
        var r := ResultOf(isWin);
        isSpinning := false;
        result := Some(r);
        showResult := true;
        points := if isWin then points + r.points else points;
      }
    }

    /** What the two-second timer of `handleAnimationComplete` does when it fires: hide the result. */
    method HideResult()
      requires Valid()
      modifies this
      ensures Valid()
      ensures !showResult
      ensures isSpinning == old(isSpinning) && points == old(points) && result == old(result)
      ensures wheelRotation == old(wheelRotation) && chosenColor == old(chosenColor)
    {
      showResult := false;
    }

    /** `resetGame`: back to `initialState`, whatever the state was. */
    method ResetGame()
      modifies this
      ensures IsInitial() && Valid()
    {
      isSpinning := false;
      points := 0;
      result := None;
      showResult := false;
      wheelRotation := 0.0;
      chosenColor := None;
    }

    /** `addPoints(n)`: adds `n` to the points and leaves every other field alone. */
    method AddPoints(n: int)
      requires Valid()
      modifies this
      ensures Valid()
      ensures points == old(points) + n
      ensures isSpinning == old(isSpinning) && result == old(result) && showResult == old(showResult)
      ensures wheelRotation == old(wheelRotation) && chosenColor == old(chosenColor)
    {
      points := points + n;
    }
  }
}
