/** The chart key and the 21-field score record the game keeps per chart.
    Fields 0 and 1 mirror the chart key, 2 to 16 are device-local
    statistics, 17, 18 and 19 are the "cloud" score, clear lamp and grade,
    and 20 is reserved. The record is a plain value (the source copies it),
    so writing through one of the `cloud_*_mut` slots is a sequence update. */
module CloudTypes {
  import opened Wrappers
  import opened Ints

  const ScoreLength: nat := 21
  const CloudScoreIndex: nat := 17
  const CloudClearIndex: nat := 18
  const CloudGradeIndex: nat := 19

  /** A playable chart: a song and one of its difficulties. Equality is
      value equality on the pair. */
  datatype Chart = Chart(songId: u32, difficulty: u8)

  type Fields = s: seq<u32> | |s| == ScoreLength
    witness [0, 0, 0, 0, 0, 0, 0, 0, 0, 0, 0, 0, 0, 0, 0, 0, 0, 0, 0, 0, 0]

  datatype Score = Score(property: Fields)

  predicate IsCloudIndex(i: nat) {
    i == CloudScoreIndex || i == CloudClearIndex || i == CloudGradeIndex
  }

  /** `Score::default()`: every field zero. */
  function DefaultScore(): (s: Score)
    ensures forall i :: 0 <= i < ScoreLength ==> s.property[i] == 0
  {
    Score([0, 0, 0, 0, 0, 0, 0, 0, 0, 0, 0, 0, 0, 0, 0, 0, 0, 0, 0, 0, 0])
  }

  /** `Score::from_cloud`: a record holding only the cloud triplet. */
  function FromCloud(score: u32, clear: u8, grade: u8): (s: Score)
    ensures s.property[CloudScoreIndex] == score
    ensures s.property[CloudClearIndex] == clear
    ensures s.property[CloudGradeIndex] == grade
    ensures forall i :: 0 <= i < ScoreLength && !IsCloudIndex(i) ==> s.property[i] == 0
  {
    var d := DefaultScore().property;
    Score(d[CloudScoreIndex := score][CloudClearIndex := clear][CloudGradeIndex := grade])
  }

  datatype ScoreError = ScoreTooShort

  /** `Score::from_slice`: the first 21 values of `v`; fewer is an error. */
  function FromSlice(v: seq<u32>): (r: Result<Score, ScoreError>)
    ensures r.Failure? <==> |v| < ScoreLength
    ensures r.Success? ==> r.value.property == v[..ScoreLength]
  {
    if |v| < ScoreLength then Failure(ScoreTooShort) else Success(Score(v[..ScoreLength]))
  }

  /** `*score.cloud_score_mut() = x`. */
  function WithCloudScore(s: Score, x: u32): (r: Score)
    ensures r.property[CloudScoreIndex] == x
    ensures forall i :: 0 <= i < ScoreLength && i != CloudScoreIndex ==> r.property[i] == s.property[i]
  {
    Score(s.property[CloudScoreIndex := x])
  }

  /** `*score.cloud_clear_mut() = x`. */
  function WithCloudClear(s: Score, x: u32): (r: Score)
    ensures r.property[CloudClearIndex] == x
    ensures forall i :: 0 <= i < ScoreLength && i != CloudClearIndex ==> r.property[i] == s.property[i]
  {
    Score(s.property[CloudClearIndex := x])
  }

  /** `*score.cloud_grade_mut() = x`. */
  function WithCloudGrade(s: Score, x: u32): (r: Score)
    ensures r.property[CloudGradeIndex] == x
    ensures forall i :: 0 <= i < ScoreLength && i != CloudGradeIndex ==> r.property[i] == s.property[i]
  {
    Score(s.property[CloudGradeIndex := x])
  }

  /** `Score::to_property`: the fields as a vector. */
  function ToProperty(s: Score): (v: seq<u32>)
    ensures |v| == ScoreLength
    ensures forall i :: 0 <= i < ScoreLength ==> v[i] == s.property[i]
  {
    s.property
  }

  /** Reading a slice and writing the record back gives the slice's first
      21 values. */
  lemma ToPropertyFromSlice(v: seq<u32>)
    requires |v| >= ScoreLength
    ensures FromSlice(v).Success? && ToProperty(FromSlice(v).value) == v[..ScoreLength]
  {
  }

  /** Writing a record out and reading it back gives the same record. */
  lemma FromSliceToProperty(s: Score)
    ensures FromSlice(ToProperty(s)) == Success(s)
  {
    assert ToProperty(s)[..ScoreLength] == s.property;
  }

  /** Chart keys are equal exactly when song and difficulty are. */
  lemma ChartEquality(a: Chart, b: Chart)
    ensures a == b <==> a.songId == b.songId && a.difficulty == b.difficulty
  {
  }
}
