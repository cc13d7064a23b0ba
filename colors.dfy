/**
 * The three wheel colours. `spinningLogic.ts` types them as the string union
 * 'ORANGE' | 'PINK' | 'GREEN'; `gameLogic.ts` and the game hook pass the same
 * names around as plain strings, which `Name` produces.
 */
module Colors {

  datatype Color = Orange | Pink | Green

  /** The string the sources use for a colour. */
  function Name(c: Color): (s: string)
  {
    match c
    case Orange => "ORANGE"
    case Pink => "PINK"
    case Green => "GREEN"
  }

  /** Distinct colours have distinct names, so comparing names compares colours. */
  lemma NameInjective(c: Color, d: Color)
    ensures Name(c) == Name(d) <==> c == d
  {
    if c != d {
      assert Name(c)[0] != Name(d)[0];
    }
  }
}
