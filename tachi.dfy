/** The import payload sent to the score tracker and the three enumerations
    it carries, each with its numeric discriminant, its total conversion from
    `u32` (an unknown number falls back to the default variant) and its wire
    label. */
module Tachi {
  import opened Wrappers
  import opened Ints

  // ---------------------------------------------------------------- SkillLevel

  datatype SkillLevel =
    | First | Second | Third | Fourth | Fifth | Sixth
    | Seventh | Eighth | Ninth | Tenth | Eleventh | Infinite

  function SkillLevelCode(s: SkillLevel): (n: u32)
    ensures 1 <= n <= 12
  {
    match s
    case First => 1
    case Second => 2
    case Third => 3
    case Fourth => 4
    case Fifth => 5
    case Sixth => 6
    case Seventh => 7
    case Eighth => 8
    case Ninth => 9
    case Tenth => 10
    case Eleventh => 11
    case Infinite => 12
  }

  /** `SkillLevel::from(n)`: the variant whose discriminant is `n`, else the
      default `First`. */
  function SkillLevelFrom(n: u32): (s: SkillLevel)
    ensures 1 <= n <= 12 ==> SkillLevelCode(s) == n
    ensures !(1 <= n <= 12) ==> s == First
  {
    match n
    case 2 => Second
    case 3 => Third
    case 4 => Fourth
    case 5 => Fifth
    case 6 => Sixth
    case 7 => Seventh
    case 8 => Eighth
    case 9 => Ninth
    case 10 => Tenth
    case 11 => Eleventh
    case 12 => Infinite
    case _ => First
  }

  function SkillLevelLabel(s: SkillLevel): string {
    match s
    case First => "DAN_1"
    case Second => "DAN_2"
    case Third => "DAN_3"
    case Fourth => "DAN_4"
    case Fifth => "DAN_5"
    case Sixth => "DAN_6"
    case Seventh => "DAN_7"
    case Eighth => "DAN_8"
    case Ninth => "DAN_9"
    case Tenth => "DAN_10"
    case Eleventh => "DAN_11"
    case Infinite => "INF"
  }

  lemma SkillLevelRoundTrip(s: SkillLevel)
    ensures SkillLevelFrom(SkillLevelCode(s)) == s
  {
  }

  lemma SkillLevelLabelInjective(a: SkillLevel, b: SkillLevel)
    requires SkillLevelLabel(a) == SkillLevelLabel(b)
    ensures a == b
  {
  }

  // ----------------------------------------------------------------- TachiLamp

  datatype TachiLamp = Failed | Clear | ExcessiveClear | UltimateChain | PerfectUltimateChain

  function LampCode(l: TachiLamp): (n: u32)
    ensures 1 <= n <= 5
  {
    match l
    case Failed => 1
    case Clear => 2
    case ExcessiveClear => 3
    case UltimateChain => 4
    case PerfectUltimateChain => 5
  }

  /** `TachiLamp::from(n)`: the variant whose discriminant is `n`, else the
      default `Failed`. */
  function LampFrom(n: u32): (l: TachiLamp)
    ensures 1 <= n <= 5 ==> LampCode(l) == n
    ensures !(1 <= n <= 5) ==> l == Failed
  {
    match n
    case 2 => Clear
    case 3 => ExcessiveClear
    case 4 => UltimateChain
    case 5 => PerfectUltimateChain
    case _ => Failed
  }

  function LampLabel(l: TachiLamp): string {
    match l
    case Failed => "FAILED"
    case Clear => "CLEAR"
    case ExcessiveClear => "EXCESSIVE CLEAR"
    case UltimateChain => "ULTIMATE CHAIN"
    case PerfectUltimateChain => "PERFECT ULTIMATE CHAIN"
  }

  lemma LampRoundTrip(l: TachiLamp)
    ensures LampFrom(LampCode(l)) == l
  {
  }

  lemma LampLabelInjective(a: TachiLamp, b: TachiLamp)
    requires LampLabel(a) == LampLabel(b)
    ensures a == b
  {
  }

  // ---------------------------------------------------------------- Difficulty

  datatype Difficulty = Novice | Advanced | Exhaust | AnyInfinite | Maximum

  function DifficultyCode(d: Difficulty): (n: u32)
    ensures n <= 4
  {
    match d
    case Novice => 0
    case Advanced => 1
    case Exhaust => 2
    case AnyInfinite => 3
    case Maximum => 4
  }

  /** `Difficulty::from(n)`: the variant whose discriminant is `n`, else the
      default `Novice`. */
  function DifficultyFrom(n: u32): (d: Difficulty)
    ensures n <= 4 ==> DifficultyCode(d) == n
    ensures n > 4 ==> d == Novice
  {
    match n
    case 1 => Advanced
    case 2 => Exhaust
    case 3 => AnyInfinite
    case 4 => Maximum
    case _ => Novice
  }

  function DifficultyLabel(d: Difficulty): string {
    match d
    case Novice => "NOV"
    case Advanced => "ADV"
    case Exhaust => "EXH"
    case AnyInfinite => "ANY_INF"
    case Maximum => "MXM"
  }

  lemma DifficultyRoundTrip(d: Difficulty)
    ensures DifficultyFrom(DifficultyCode(d)) == d
  {
  }

  lemma DifficultyLabelInjective(a: Difficulty, b: Difficulty)
    requires DifficultyLabel(a) == DifficultyLabel(b)
    ensures a == b
  {
  }

  // -------------------------------------------------------------- import payload

  datatype ImportMeta = ImportMeta(game: string, playType: string, service: string)

  /** `ImportMeta::default()`. */
  function DefaultMeta(): (m: ImportMeta)
    ensures m.game == "sdvx" && m.playType == "Single" && m.service == "Mikado"
  {
    ImportMeta("sdvx", "Single", "Mikado")
  }

  datatype ImportClasses = ImportClasses(dan: SkillLevel)

  datatype Judgements = Judgements(critical: u32, near: u32, miss: u32)

  /** The hit metadata of one score. The gauge (a float) is not modelled;
      `exScore` is optional as the score handler fills it. */
  datatype HitMeta = HitMeta(fast: u32, slow: u32, maxCombo: u32, exScore: Option<u32>)

  datatype ImportScore = ImportScore(
    score: u32,
    lamp: TachiLamp,
    matchType: string,
    identifier: string,
    difficulty: Difficulty,
    timeAchieved: nat,
    judgements: Judgements,
    hitMeta: HitMeta)

  datatype Import = Import(meta: ImportMeta, classes: Option<ImportClasses>, scores: seq<ImportScore>)
}
