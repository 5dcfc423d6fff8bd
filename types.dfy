// Records shared by the screens and the arena (types.ts).
module Types {

  datatype Option<+T> = None | Some(value: T)

  /** The two roster slots a fighter can be tagged with. */
  datatype PlayerId = Player1 | Player2

  /** Ability identifiers; MANAN, ABHAY and GT_MODE have no handler of their own in the arena. */
  datatype SpecialId =
    | GMasti | SixFtBaddie | RohanMob | Lambardaar | Singh | Soni | Pal | Manan | Abhay | GtMode

  datatype PowerUpType = Heal | Speed | Power | BlackHole

  datatype AppState = Upload | Analyzing | Versus | Playing | GameOver | Lobby

  datatype AimMode = Manual | Auto

  /** Hit points are JavaScript numbers and may be fractional (the HP field of the form);
      speed and power are the whole numbers the stat generator produces. */
  datatype FighterStats = FighterStats(
    name: string,
    title: string,
    description: string,
    hp: real,
    speed: int,
    power: int,
    specialMove: string,
    quote: string)

  datatype FighterData = FighterData(
    id: PlayerId,
    imageSrc: string,
    stats: FighterStats,
    specialId: Option<SpecialId>)

  /** `winner` is None for a draw. */
  datatype GameResult = GameResult(winner: Option<FighterData>, message: string)

  function Min(a: real, b: real): real { if a <= b then a else b }
  function Max(a: real, b: real): real { if a >= b then a else b }
  function MinInt(a: int, b: int): int { if a <= b then a else b }

  /** Reading, replacing and removing the entry between a prefix and a suffix. */
  lemma Around<T>(a: seq<T>, x: T, b: seq<T>, y: T)
    ensures (a + [x] + b)[|a|] == x
    ensures (a + [x] + b)[|a| := y] == a + [y] + b
    ensures (a + [y] + b)[..|a|] + (a + [y] + b)[|a| + 1..] == a + b
  {
    assert (a + [y] + b)[..|a|] == a;
    assert (a + [y] + b)[|a| + 1..] == b;
  }
}
