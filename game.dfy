/** The game's own save and score payloads, as the hook decodes them from the
    intercepted call. */
module Game {
  import opened Wrappers
  import opened Ints

  /** `either::Either`. */
  datatype Either<+L, +R> = Left(left: L) | Right(right: R)

  /** The seven judgement counters of a track; index 0 counts fast hits and
      index 6 slow hits. */
  type Judge = s: seq<u32> | |s| == 7 witness [0, 0, 0, 0, 0, 0, 0]

  datatype Track = Track(
    musicId: u32,
    musicType: u32,
    score: u32,
    exScore: u32,
    clearType: u32,
    maxChain: u32,
    critical: u32,
    near: u32,
    error: u32,
    effectiveRate: u32,
    gaugeType: u32,
    judge: Judge)

  /** A score save: the player's card reference (absent for a guest play)
      and one track or a list of them. */
  datatype GameScores = GameScores(refId: Option<string>, tracks: Either<Track, seq<Track>>)

  /** A profile save carrying the player's skill level (dan). */
  datatype GameSave = GameSave(refId: string, skillLevel: u32)

  /** The `call/game` node: a score save or a profile save. */
  type CallGame = Either<GameScores, GameSave>
}
