/** The records of `src/types/game.ts` that the game hook and its helpers exchange. */
module GameTypes {

  /** `GameResult.type`: 'WIN' | 'LOSE'. */
  datatype ResultKind = Win | Lose

  /** The outcome shown after a spin: its kind, its banner text and the points it is worth. */
  datatype GameResult = GameResult(kind: ResultKind, message: string, points: int)

  /** The parameters of one animated spin. */
  datatype SpinData = SpinData(duration: real, spins: int, target: real, totalRotation: real)
}
