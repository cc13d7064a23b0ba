/**
 * The spin resolver of `src/utils/spinningLogic.ts`: a static three-sector map
 * of the wheel, and the pure function that turns the caller's wheel state and
 * an authoritative target colour into a new cumulative rotation and resting
 * angle. The two `Math.random()` draws of `calculateSpin` are parameters.
 */
module SpinningLogic {
  import opened Angles
  import opened Colors
  import opened Wrappers
  import opened Draws

  /** The wheel state the caller keeps between spins. */
  datatype SpinningState = SpinningState(
    totalRotation: real,          // cumulative rotation, never reset
    currentVisualPosition: real,  // where the pointer rests, in degrees
    currentColor: Color)          // colour under the pointer

  /** What one spin computes. */
  datatype SpinResult = SpinResult(
    cssRotation: real,            // rotation to animate to
    finalVisualPosition: real,    // resting angle
    finalColor: Color,            // colour decoded at the resting angle
    fullRotations: int,           // whole turns added for show
    randomOffset: real)           // jitter added to the sector centre

  /** A sector of the wheel; both bounds belong to it. */
  datatype Sector = Sector(start: real, end: real, color: Color)

  /** The sector map, in the order the lookups search it. */
  const ColorSectors: seq<Sector> := [
    Sector(0.0, 120.0, Green),
    Sector(121.0, 240.0, Pink),
    Sector(241.0, 360.0, Orange)
  ]

  predicate InSector(s: Sector, angle: real)
  {
    s.start <= angle <= s.end
  }

  /**
   * `COLOR_SECTORS` as the source lists it: GREEN [0, 120], PINK [121, 240] and
   * ORANGE [241, 360], in that order. Each colour has exactly one sector, and
   * the sectors do not overlap, so an angle lies in at most one of them.
   */
  lemma ColorSectorsLayout()
    ensures |ColorSectors| == 3
    ensures ColorSectors[0] == Sector(0.0, 120.0, Green)
    ensures ColorSectors[1] == Sector(121.0, 240.0, Pink)
    ensures ColorSectors[2] == Sector(241.0, 360.0, Orange)
    ensures forall i, j | 0 <= i < j < |ColorSectors| ::
              ColorSectors[i].color != ColorSectors[j].color && ColorSectors[i].end < ColorSectors[j].start
  {
  }

  /**
   * The search loop of `getColorAtAngle`: the colour of the first sector that
   * contains `angle`, or nothing when no sector does.
   */
  function FirstMatch(sectors: seq<Sector>, angle: real): (r: Option<Color>)
    ensures r.Some? <==> exists i | 0 <= i < |sectors| :: InSector(sectors[i], angle)
    ensures forall i | 0 <= i < |sectors| && InSector(sectors[i], angle) ::
              (forall j | 0 <= j < i :: !InSector(sectors[j], angle)) ==> r == Some(sectors[i].color)
  {
    if sectors == [] then None
    else if InSector(sectors[0], angle) then Some(sectors[0].color)
    else
      var rest := FirstMatch(sectors[1..], angle);
      assert forall i | 1 <= i < |sectors| :: sectors[i] == sectors[1..][i - 1];
      rest
  }

  /**
   * `getColorAtAngle`: normalise, take the first sector that contains the
   * angle, and fall back to ORANGE. The bounds are inclusive, so [0, 120] is
   * GREEN and [121, 240] is PINK; everything else, including the gaps
   * (120, 121) and (240, 241), is ORANGE.
   */
  function ColorAtAngle(angle: real): (c: Color)
    ensures c == Green <==> Wrap(angle) <= 120.0
    ensures c == Pink <==> 121.0 <= Wrap(angle) <= 240.0
    ensures c == Orange <==> (120.0 < Wrap(angle) < 121.0 || 240.0 < Wrap(angle))
  {
    var a := Normalize(angle);
    var found := FirstMatch(ColorSectors, a);
    assert InSector(ColorSectors[0], a) ==> found == Some(Green);
    assert !InSector(ColorSectors[0], a) && InSector(ColorSectors[1], a) ==> found == Some(Pink);
    assert !InSector(ColorSectors[0], a) && !InSector(ColorSectors[1], a) && InSector(ColorSectors[2], a) ==> found == Some(Orange);
    match found
    case Some(c) => c
    case None => Orange
  }

  /** Decoding is 360-periodic and accepts negative angles. */
  lemma ColorAtAnglePeriodic(angle: real, k: int)
    ensures ColorAtAngle(angle + 360.0 * k as real) == ColorAtAngle(angle)
  {
    WrapShift(angle, k);
  }

  /** The `COLOR_SECTORS.find` search: the first sector of colour `c`. */
  function FindSector(sectors: seq<Sector>, c: Color): (r: Option<Sector>)
    ensures r.None? <==> forall i | 0 <= i < |sectors| :: sectors[i].color != c
    ensures forall i | 0 <= i < |sectors| && sectors[i].color == c ::
              (forall j | 0 <= j < i :: sectors[j].color != c) ==> r == Some(sectors[i])
  {
    if sectors == [] then None
    else if sectors[0].color == c then Some(sectors[0])
    else
      var rest := FindSector(sectors[1..], c);
      assert forall i | 1 <= i < |sectors| :: sectors[i] == sectors[1..][i - 1];
      rest
  }

  /**
   * The sector `find` returns for a colour. The source throws when it finds
   * none; every colour has a sector, so that branch cannot be taken.
   */
  function SectorOf(c: Color): (s: Sector)
    ensures s in ColorSectors && s.color == c
  {
    var found := FindSector(ColorSectors, c);
    assert ColorSectors[if c == Green then 0 else if c == Pink then 1 else 2].color == c;
    found.value
  }

  /** `getColorSectorCenter`: the point of the colour's sector equally far from both bounds. */
  function SectorCenter(c: Color): (x: real)
    ensures x - SectorOf(c).start == SectorOf(c).end - x
    ensures ColorAtAngle(x) == c
  {
    var s := SectorOf(c);
    var x := (s.start + s.end) / 2.0;
    WrapInRange(x);
    x
  }

  /** The centres are 60, 180.5 and 300.5 degrees. */
  lemma SectorCenterValues()
    ensures SectorCenter(Green) == 60.0
    ensures SectorCenter(Pink) == 180.5
    ensures SectorCenter(Orange) == 300.5
  {
    assert SectorOf(Green) == ColorSectors[0];
    assert SectorOf(Pink) == ColorSectors[1];
    assert SectorOf(Orange) == ColorSectors[2];
  }

  /**
   * `calculateClockwisePath`: the forward-only rotation from `current` to
   * `target`. It never moves the wheel off the target's residue.
   */
  function ClockwisePath(current: real, target: real): (path: real)
    ensures Wrap(current + path) == Wrap(target)
    ensures -360.0 < target - current <= 360.0 ==> 0.0 < path <= 360.0
  {
    var direct := target - current;
    if direct <= 0.0 then
      WrapShift(target, 1);
      direct + 360.0
    else
      direct
  }

  /**
   * Between two angles on the dial the path is in (0, 360], a full turn
   * exactly when they coincide, and it lands on the target.
   */
  lemma ClockwisePathOnDial(current: real, target: real)
    requires 0.0 <= current < 360.0 && 0.0 <= target < 360.0
    ensures 0.0 < ClockwisePath(current, target) <= 360.0
    ensures ClockwisePath(current, target) == 360.0 <==> target == current
    ensures Wrap(current + ClockwisePath(current, target)) == target
  {
    WrapInRange(target);
  }

  /** No shorter forward rotation reaches the target: the path is the shortest clockwise one. */
  lemma ClockwisePathIsShortest(current: real, target: real, d: real)
    requires 0.0 <= current < 360.0 && 0.0 <= target < 360.0
    requires 0.0 < d && Wrap(current + d) == Wrap(target)
    ensures ClockwisePath(current, target) <= d
  {
    var path := ClockwisePath(current, target);
    var fd := ((current + d) / 360.0).Floor;
    var ft := (target / 360.0).Floor;
    assert d == target - current + 360.0 * (fd - ft) as real;
    assert ft == 0;
    if fd <= 0 {
      assert d <= target - current;
    }
  }

  /** `(Math.random() - 0.5) * 20`: the jitter, in [-10, 10). */
  function RandomOffset(draw: real): (o: real)
    requires IsDraw(draw)
    ensures -10.0 <= o < 10.0
  {
    (draw - 0.5) * 20.0
  }

  /** `6 + Math.floor(Math.random() * 3)`: six, seven or eight whole turns. */
  function FullRotations(draw: real): (n: int)
    requires IsDraw(draw)
    ensures 6 <= n <= 8
  {
    6 + (draw * 3.0).Floor
  }

  /**
   * `Math.max(start + 5, Math.min(end - 5, x))`, the clamp `calculateSpin`
   * computes and then ignores: it moves `x` exactly when `x` is within five
   * degrees of a bound or outside the sector, and then to the nearer end of
   * the band [start + 5, end - 5].
   */
  function ClampToSector(s: Sector, x: real): (y: real)
    ensures s.start + 5.0 <= s.end - 5.0 ==> s.start + 5.0 <= y <= s.end - 5.0
    ensures s.start + 5.0 <= s.end - 5.0 ==> (y == x <==> s.start + 5.0 <= x <= s.end - 5.0)
    ensures s.start + 5.0 <= s.end - 5.0 ==> (x < s.start + 5.0 ==> y == s.start + 5.0)
    ensures s.start + 5.0 <= s.end - 5.0 ==> (s.end - 5.0 < x ==> y == s.end - 5.0)
  {
    var lower := s.start + 5.0;
    var upper := s.end - 5.0;
    var inner := if upper < x then upper else x;
    if lower < inner then inner else lower
  }

  /**
   * The jittered centre keeps five degrees from both bounds of the colour's
   * sector, lies on the dial and decodes to the colour.
   */
  lemma JitterKeepsMargin(c: Color, draw: real)
    requires IsDraw(draw)
    ensures var x := SectorCenter(c) + RandomOffset(draw);
            && SectorOf(c).start + 5.0 <= x <= SectorOf(c).end - 5.0
            && 0.0 <= x < 360.0
            && ColorAtAngle(x) == c
  {
    var x := SectorCenter(c) + RandomOffset(draw);
    SectorCenterValues();
    var i := if c == Green then 0 else if c == Pink then 1 else 2;
    assert SectorOf(c) == ColorSectors[i];
    WrapInRange(x);
  }

  /** The jittered target already keeps the margin, so the clamp would change nothing. */
  lemma ClampIsNoOp(c: Color, draw: real)
    requires IsDraw(draw)
    ensures ClampToSector(SectorOf(c), SectorCenter(c) + RandomOffset(draw)) == SectorCenter(c) + RandomOffset(draw)
  {
    JitterKeepsMargin(c, draw);
  }

  /**
   * `calculateSpin`. The resting angle is the unclamped `centre + offset`;
   * it still keeps five degrees from both bounds of the target's sector, so
   * it decodes to the target and the "CRITICAL ERROR" branch is never taken.
   * The new CSS rotation adds whole turns plus the clockwise path, so it
   * moves the wheel by the same residue that takes the pointer from its old
   * position to the resting angle.
   */
  function CalculateSpin(state: SpinningState, target: Color, offsetDraw: real, turnsDraw: real): (res: SpinResult)
    requires IsDraw(offsetDraw) && IsDraw(turnsDraw)
    ensures res.finalColor == target && res.finalColor == ColorAtAngle(res.finalVisualPosition)
    ensures SectorOf(target).start + 5.0 <= res.finalVisualPosition <= SectorOf(target).end - 5.0
    ensures 0.0 <= res.finalVisualPosition < 360.0
    ensures -10.0 <= res.randomOffset < 10.0
    ensures res.finalVisualPosition == SectorCenter(target) + res.randomOffset
    ensures 6 <= res.fullRotations <= 8
    ensures Wrap(res.cssRotation - state.totalRotation) == Wrap(res.finalVisualPosition - state.currentVisualPosition)
    ensures res.cssRotation
            == state.totalRotation + 360.0 * res.fullRotations as real
               + ClockwisePath(state.currentVisualPosition, res.finalVisualPosition)
  {
    var center := SectorCenter(target);
    var offset := RandomOffset(offsetDraw);
    var finalTarget := center + offset;
    var required := ClockwisePath(state.currentVisualPosition, finalTarget);
    var turns := FullRotations(turnsDraw);
    var newTotal := state.totalRotation + (360.0 * turns as real + required);
    JitterKeepsMargin(target, offsetDraw);
    SpinResidue(state.currentVisualPosition, finalTarget, turns);
    SpinResult(newTotal, finalTarget, ColorAtAngle(finalTarget), turns, offset)
  }

  /** Whole turns plus the clockwise path move the wheel by the residue from `current` to `target`. */
  lemma SpinResidue(current: real, target: real, turns: int)
    ensures Wrap(360.0 * turns as real + ClockwisePath(current, target)) == Wrap(target - current)
  {
    var path := ClockwisePath(current, target);
    WrapShift(path, turns);
    WrapShift(target - current, 1);
  }

  /** From a resting angle on the dial a spin turns the wheel by more than 2160 and at most 3240 degrees. */
  lemma SpinAdvance(state: SpinningState, target: Color, offsetDraw: real, turnsDraw: real)
    requires IsDraw(offsetDraw) && IsDraw(turnsDraw)
    requires 0.0 <= state.currentVisualPosition < 360.0
    ensures var res := CalculateSpin(state, target, offsetDraw, turnsDraw);
            state.totalRotation + 2160.0 < res.cssRotation <= state.totalRotation + 3240.0
  {
    var res := CalculateSpin(state, target, offsetDraw, turnsDraw);
    ClockwisePathOnDial(state.currentVisualPosition, res.finalVisualPosition);
  }

  /**
   * The invariant the caller's state keeps between spins: the resting angle
   * is on the dial, is the cumulative rotation modulo a full turn, and the
   * recorded colour is the one decoded there.
   */
  predicate WheelInvariant(s: SpinningState)
  {
    && 0.0 <= s.currentVisualPosition < 360.0
    && Wrap(s.totalRotation) == s.currentVisualPosition
    && s.currentColor == ColorAtAngle(s.currentVisualPosition)
  }

  /**
   * `updateStateAfterSpin`: the folded state satisfies the invariant exactly
   * when the result is self-consistent (its resting angle on the dial, its
   * rotation ending there, its colour decoded there).
   */
  function UpdateStateAfterSpin(res: SpinResult): (s: SpinningState)
    ensures WheelInvariant(s) <==>
              && 0.0 <= res.finalVisualPosition < 360.0
              && Wrap(res.cssRotation) == res.finalVisualPosition
              && res.finalColor == ColorAtAngle(res.finalVisualPosition)
  {
    SpinningState(res.cssRotation, res.finalVisualPosition, res.finalColor)
  }

  /**
   * A spin followed by the fold keeps the wheel invariant, lands on the target
   * colour and turns the wheel forward by more than six full turns.
   */
  lemma SpinThenFoldKeepsInvariant(state: SpinningState, target: Color, offsetDraw: real, turnsDraw: real)
    requires IsDraw(offsetDraw) && IsDraw(turnsDraw)
    requires WheelInvariant(state)
    ensures var next := UpdateStateAfterSpin(CalculateSpin(state, target, offsetDraw, turnsDraw));
            && WheelInvariant(next)
            && next.currentColor == target
            && next.totalRotation > state.totalRotation + 2160.0
  {
    var res := CalculateSpin(state, target, offsetDraw, turnsDraw);
    SpinAdvance(state, target, offsetDraw, turnsDraw);
    FoldResidue(state.totalRotation, state.currentVisualPosition, res.cssRotation, res.finalVisualPosition);
  }

  /**
   * If the wheel rests at `current` (the residue of `total`) and turns by the
   * residue from `current` to `final`, it comes to rest at `final`.
   */
  lemma FoldResidue(total: real, current: real, css: real, final: real)
    requires Wrap(total) == current
    requires Wrap(css - total) == Wrap(final - current)
    requires 0.0 <= final < 360.0
    ensures Wrap(css) == final
  {
    var delta := css - total;
    WrapAdd(total, delta);
    assert Wrap(css) == Wrap(current + delta);
    WrapAdd(delta, current);
    WrapAdd(final - current, current);
    assert Wrap(current + delta) == Wrap(final);
    WrapInRange(final);
  }

  /**
   * A session of spins: each step resolves the next target from the state the
   * previous one left and folds the result in.
   */
  function RunSpins(state: SpinningState, targets: seq<Color>, offsetDraws: seq<real>, turnsDraws: seq<real>): (s: SpinningState)
    requires |offsetDraws| == |turnsDraws| == |targets|
    requires forall i | 0 <= i < |targets| :: IsDraw(offsetDraws[i]) && IsDraw(turnsDraws[i])
    decreases |targets|
  {
    if targets == [] then state
    else
      var next := UpdateStateAfterSpin(CalculateSpin(state, targets[0], offsetDraws[0], turnsDraws[0]));
      RunSpins(next, targets[1..], offsetDraws[1..], turnsDraws[1..])
  }

  /**
   * However many spins are chained, the invariant holds after each, the
   * wheel ends on the last target, and the rotation grows by more than 2160
   * degrees per spin.
   */
  lemma {:induction false} RunSpinsKeepsInvariant(state: SpinningState, targets: seq<Color>, offsetDraws: seq<real>, turnsDraws: seq<real>)
    requires |offsetDraws| == |turnsDraws| == |targets|
    requires forall i | 0 <= i < |targets| :: IsDraw(offsetDraws[i]) && IsDraw(turnsDraws[i])
    requires WheelInvariant(state)
    decreases |targets|
    ensures var last := RunSpins(state, targets, offsetDraws, turnsDraws);
            && WheelInvariant(last)
            && (targets != [] ==> last.currentColor == targets[|targets| - 1])
            && last.totalRotation >= state.totalRotation + 2160.0 * |targets| as real
  {
    if targets != [] {
      var next := UpdateStateAfterSpin(CalculateSpin(state, targets[0], offsetDraws[0], turnsDraws[0]));
      SpinThenFoldKeepsInvariant(state, targets[0], offsetDraws[0], turnsDraws[0]);
      assert forall i | 0 <= i < |targets| - 1 :: offsetDraws[1..][i] == offsetDraws[i + 1] && turnsDraws[1..][i] == turnsDraws[i + 1];
      RunSpinsKeepsInvariant(next, targets[1..], offsetDraws[1..], turnsDraws[1..]);
      var last := RunSpins(next, targets[1..], offsetDraws[1..], turnsDraws[1..]);
      assert RunSpins(state, targets, offsetDraws, turnsDraws) == last;
      assert last.totalRotation >= next.totalRotation + 2160.0 * (|targets| - 1) as real;
      if |targets| > 1 {
        assert targets[1..][|targets| - 2] == targets[|targets| - 1];
      }
    }
  }
}
