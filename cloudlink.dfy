/** `process_pbs` after the remote fetch: the chart cross-reference table,
    the parsing of the local `music` rows, the merge of the remote personal
    bests into them, and the response tree built from the result.

    The pure parts are left folds over prefixes (`BuildChartTable`,
    `ParseRows`, `MergePbs`, and `Reconcile` chaining them); `ProcessPbs` is
    the imperative loop over a mutable map, proved to compute the fold. */
module Cloudlink {
  import opened Wrappers
  import opened Ints
  import opened Kbin
  import opened CloudTypes
  import opened CloudExt
  import opened Seqs
  import Tachi
  import GameProps

  // ------------------------------------------------------------ remote inputs

  /** A chart's remote difficulty: its numeric value when the label parses,
      else unknown. */
  datatype RemoteDifficulty = KnownDifficulty(code: u32) | UnknownDifficulty

  /** One entry of the remote `charts` list: `chartID`, `data.inGameID`
      (each absent when missing or of the wrong JSON type) and `difficulty`. */
  datatype RemoteChart = RemoteChart(chartId: Option<string>, inGameId: Option<u64>, difficulty: RemoteDifficulty)

  /** A personal best's remote lamp: the MAXXIVE CLEAR lamp, any other known
      lamp (each with its numeric value), or a label that does not parse. */
  datatype RemoteLamp = MaxxiveClear(code: u32) | OtherLamp(code: u32) | UnknownLamp

  /** One entry of the remote `pbs` list: `chartID`, `scoreData.score`,
      `scoreData.lamp` and `scoreData.enumIndexes.grade`. */
  datatype RemotePb = RemotePb(chartId: Option<string>, score: Option<u64>, lamp: RemoteLamp, grade: Option<u64>)

  /** The errors that abort the whole reconciliation. */
  datatype Error =
    | ChartIdUnparsable   // "Could not parse chart ID from Tachi PBs API"
    | InGameIdUnparsable  // "Could not parse ingame ID from Tachi PBs API"
    | ParamNodeMissing    // "Could not find param node"
    | ParamValueMissing   // "Could not find value in param node"
    | ScoreUnparsable     // "Could not parse score"
    | ChartNotFound       // "Could not find chart"
    | PbScoreUnparsable   // "Could not parse PB score from Tachi PBs API"
    | PbGradeUnparsable   // "Could not parse PB grade from Tachi PBs API"

  /** The difficulty given to a chart whose difficulty label does not parse. */
  const FallbackDifficulty: u8 := 3

  /** The highest local grade. */
  const MaxGrade: nat := 10

  // ------------------------------------------------------ chart cross-reference

  /** The local difficulty of a remote chart: its value truncated to 8 bits,
      or the fallback when it does not parse. */
  function DifficultyKey(d: RemoteDifficulty): (k: u8)
    ensures d.UnknownDifficulty? ==> k == FallbackDifficulty
    ensures d.KnownDifficulty? ==> k == d.code % U8Limit
    ensures d.KnownDifficulty? && d.code < U8Limit ==> k == d.code
  {
    match d
    case KnownDifficulty(code) => AsU8(code)
    case UnknownDifficulty => FallbackDifficulty
  }

  predicate ChartWellFormed(c: RemoteChart) {
    c.chartId.Some? && c.inGameId.Some?
  }

  function ChartError(c: RemoteChart): Error
    requires !ChartWellFormed(c)
  {
    if c.chartId.None? then ChartIdUnparsable else InGameIdUnparsable
  }

  function ChartOf(c: RemoteChart): Chart
    requires c.inGameId.Some?
  {
    Chart(AsU32(c.inGameId.value), DifficultyKey(c.difficulty))
  }

  /** The `chartID -> chart` table: the first malformed entry fails the whole
      table, and a later entry with the same id replaces an earlier one. */
  function BuildChartTable(charts: seq<RemoteChart>): (r: Result<map<string, Chart>, Error>)
    ensures r.Failure? ==>
      exists i :: 0 <= i < |charts| && !ChartWellFormed(charts[i]) && r.error == ChartError(charts[i])
    ensures r.Success? ==> |r.value.Keys| <= |charts|
    decreases |charts|
  {
    if charts == [] then Success(map[])
    else
      var p := charts[..|charts| - 1];
      assert forall i :: 0 <= i < |p| ==> p[i] == charts[i];
      match BuildChartTable(p)
      case Failure(e) => Failure(e)
      case Success(t) =>
        var c := charts[|charts| - 1];
        if !ChartWellFormed(c) then Failure(ChartError(c))
        else
          KeysAfterInsert(t, c.chartId.value, ChartOf(c));
          Success(t[c.chartId.value := ChartOf(c)])
  }

  /** Adding one element grows a set by at most one. */
  lemma AddOneElement<T>(s: set<T>, x: T)
    ensures |s + {x}| <= |s| + 1
  {
    if x in s {
      assert s + {x} == s;
    }
  }

  /** Inserting into a map adds at most one key. */
  lemma KeysAfterInsert<K, V>(m: map<K, V>, k: K, v: V)
    ensures |m[k := v].Keys| <= |m.Keys| + 1
  {
    assert m[k := v].Keys == m.Keys + {k};
    AddOneElement(m.Keys, k);
  }

  lemma {:induction false} ChartTableFailurePersists(charts: seq<RemoteChart>, k: nat, e: Error)
    requires k <= |charts| && BuildChartTable(charts[..k]) == Failure(e)
    ensures BuildChartTable(charts) == Failure(e)
    decreases |charts| - k
  {
    if k < |charts| {
      var p := charts[..k + 1];
      assert p[..|p| - 1] == charts[..k];
      ChartTableFailurePersists(charts, k + 1, e);
    } else {
      assert charts[..k] == charts;
    }
  }

  /** The table is built exactly when every entry has an id and an in-game
      id. */
  lemma {:induction false} ChartTableSucceeds(charts: seq<RemoteChart>)
    ensures BuildChartTable(charts).Success? <==> forall i :: 0 <= i < |charts| ==> ChartWellFormed(charts[i])
    decreases |charts|
  {
    if charts != [] {
      var p := charts[..|charts| - 1];
      ChartTableSucceeds(p);
      assert forall i :: 0 <= i < |p| ==> p[i] == charts[i];
    }
  }

  /** Otherwise the error is that of the first malformed entry. */
  lemma ChartTableFirstError(charts: seq<RemoteChart>, j: nat)
    requires j < |charts| && !ChartWellFormed(charts[j])
    requires forall i :: 0 <= i < j ==> ChartWellFormed(charts[i])
    ensures BuildChartTable(charts) == Failure(ChartError(charts[j]))
  {
    var p := charts[..j + 1];
    assert p[..|p| - 1] == charts[..j];
    ChartTableSucceeds(charts[..j]);
    ChartTableFailurePersists(charts, j + 1, ChartError(charts[j]));
  }

  /** In a built table, an id is present exactly when some entry carries it. */
  lemma {:induction false} ChartTableKeys(charts: seq<RemoteChart>, id: string)
    requires BuildChartTable(charts).Success?
    ensures id in BuildChartTable(charts).value <==> exists i :: 0 <= i < |charts| && charts[i].chartId == Some(id)
    decreases |charts|
  {
    if charts != [] {
      var p := charts[..|charts| - 1];
      ChartTableKeys(p, id);
      if exists i :: 0 <= i < |charts| && charts[i].chartId == Some(id) {
        var i :| 0 <= i < |charts| && charts[i].chartId == Some(id);
        if i < |p| {
          assert p[i] == charts[i];
        }
      }
      if exists i :: 0 <= i < |p| && p[i].chartId == Some(id) {
        var i :| 0 <= i < |p| && p[i].chartId == Some(id);
        assert charts[i] == p[i];
      }
    }
  }

  /** An id maps to the chart of the last entry carrying it: a later entry
      with the same id replaces an earlier one. */
  lemma {:induction false} ChartTableLastWins(charts: seq<RemoteChart>, j: nat)
    requires BuildChartTable(charts).Success?
    requires j < |charts| && charts[j].chartId.Some?
    requires forall i :: j < i < |charts| ==> charts[i].chartId != charts[j].chartId
    ensures charts[j].inGameId.Some?
    ensures charts[j].chartId.value in BuildChartTable(charts).value
    ensures BuildChartTable(charts).value[charts[j].chartId.value] == ChartOf(charts[j])
    decreases |charts|
  {
    var p := charts[..|charts| - 1];
    if j < |p| {
      assert p[j] == charts[j];
      ChartTableLastWins(p, j);
    }
  }

  // ----------------------------------------------------------- local rows

  /** One local row: its first child's value, when it is a U32 array, gives
      the chart key (fields 0 and 1, the latter truncated to 8 bits) and the
      record (the first 21 fields). A row whose value is of another type is
      skipped; a row without a child or without a value, or with fewer than
      21 values, is an error. */
  function ParseRow(row: Node): (r: Result<Option<(Chart, Score)>, Error>)
    ensures r == Failure(ParamNodeMissing) <==> |row.children| == 0
    ensures r == Failure(ParamValueMissing) <==> |row.children| > 0 && row.children[0].value.None?
    ensures r == Success(None) <==>
      |row.children| > 0 && row.children[0].value.Some? && row.children[0].value.value.OtherValue?
    ensures r == Failure(ScoreUnparsable) <==>
      (&& |row.children| > 0 && row.children[0].value.Some? && row.children[0].value.value.U32Array?
       && |row.children[0].value.value.items| < ScoreLength)
    ensures r.Success? && r.value.Some? ==>
      && |row.children| > 0 && row.children[0].value.Some? && row.children[0].value.value.U32Array?
      && var v := row.children[0].value.value.items;
         |v| >= ScoreLength && r.value.value == (Chart(v[0], AsU8(v[1])), Score(v[..ScoreLength]))
  {
    if |row.children| == 0 then Failure(ParamNodeMissing)
    else
      var param := row.children[0];
      if param.value.None? then Failure(ParamValueMissing)
      else match param.value.value
        case OtherValue => Success(None)
        case U32Array(v) =>
          match FromSlice(v)
          case Failure(_) => Failure(ScoreUnparsable)
          case Success(s) => Success(Some((Chart(v[0], AsU8(v[1])), s)))
  }

  /** What the row parsing does as written: it reads fields 0 and 1 before
      the length check, so a U32 array with fewer than two values panics
      instead of returning the "Could not parse score" error. */
  datatype RowOutcome = Panicked | Returned(result: Result<Option<(Chart, Score)>, Error>)

  function ParseRowAsWritten(row: Node): (r: RowOutcome)
    ensures r == Panicked <==> ShortU32Row(row)
  {
    if |row.children| == 0 then Returned(Failure(ParamNodeMissing))
    else
      var param := row.children[0];
      if param.value.None? then Returned(Failure(ParamValueMissing))
      else match param.value.value
        case OtherValue => Returned(Success(None))
        case U32Array(v) =>
          if |v| < 2 then Panicked
          else match FromSlice(v)
            case Failure(_) => Returned(Failure(ScoreUnparsable))
            case Success(s) => Returned(Success(Some((Chart(v[0], AsU8(v[1])), s))))
  }

  predicate ShortU32Row(row: Node) {
    |row.children| > 0 && row.children[0].value.Some? && row.children[0].value.value.U32Array?
    && |row.children[0].value.value.items| < 2
  }

  /** The row as written and the corrected row agree except on U32 arrays
      shorter than two values, where the former panics and the latter
      reports the short record. */
  lemma ParseRowCorrection(row: Node)
    ensures !ShortU32Row(row) ==> ParseRowAsWritten(row) == Returned(ParseRow(row))
    ensures ShortU32Row(row) ==> ParseRowAsWritten(row) == Panicked && ParseRow(row) == Failure(ScoreUnparsable)
  {
  }

  /** An `info` row whose `param` array is empty. */
  lemma EmptyRowPanics()
    ensures ParseRowAsWritten(WithNodes("info", [WithValue("param", U32Array([]))])) == Panicked
    ensures ParseRow(WithNodes("info", [WithValue("param", U32Array([]))])) == Failure(ScoreUnparsable)
  {
  }

  /** The local `chart -> record` map: rows in order, the first failing row
      fails the whole map, and a later row with the same key replaces an
      earlier one. */
  function ParseRows(rows: seq<Node>): (r: Result<map<Chart, Score>, Error>)
    ensures r.Failure? ==> exists i :: 0 <= i < |rows| && ParseRow(rows[i]) == Failure(r.error)
    ensures r.Success? ==> |r.value.Keys| <= |rows|
    decreases |rows|
  {
    if rows == [] then Success(map[])
    else
      var p := rows[..|rows| - 1];
      assert forall i :: 0 <= i < |p| ==> p[i] == rows[i];
      match ParseRows(p)
      case Failure(e) => Failure(e)
      case Success(m) =>
        match ParseRow(rows[|rows| - 1])
        case Failure(e) => Failure(e)
        case Success(None) => Success(m)
        case Success(Some(entry)) =>
          KeysAfterInsert(m, entry.0, entry.1);
          Success(m[entry.0 := entry.1])
  }

  lemma {:induction false} ParseRowsFailurePersists(rows: seq<Node>, k: nat, e: Error)
    requires k <= |rows| && ParseRows(rows[..k]) == Failure(e)
    ensures ParseRows(rows) == Failure(e)
    decreases |rows| - k
  {
    if k < |rows| {
      var p := rows[..k + 1];
      assert p[..|p| - 1] == rows[..k];
      ParseRowsFailurePersists(rows, k + 1, e);
    } else {
      assert rows[..k] == rows;
    }
  }

  /** Row `i` parses to an entry for `c`. */
  ghost predicate RowFor(rows: seq<Node>, i: int, c: Chart) {
    0 <= i < |rows| && ParseRow(rows[i]).Success? && ParseRow(rows[i]).value.Some?
    && ParseRow(rows[i]).value.value.0 == c
  }

  /** The local map is built exactly when every row parses. */
  lemma {:induction false} ParseRowsSucceeds(rows: seq<Node>)
    ensures ParseRows(rows).Success? <==> forall i :: 0 <= i < |rows| ==> ParseRow(rows[i]).Success?
    decreases |rows|
  {
    if rows != [] {
      var p := rows[..|rows| - 1];
      ParseRowsSucceeds(p);
      assert forall i :: 0 <= i < |p| ==> p[i] == rows[i];
    }
  }

  /** Otherwise the error is that of the first row that fails. */
  lemma ParseRowsFirstError(rows: seq<Node>, j: nat)
    requires j < |rows| && ParseRow(rows[j]).Failure?
    requires forall i :: 0 <= i < j ==> ParseRow(rows[i]).Success?
    ensures ParseRows(rows) == Failure(ParseRow(rows[j]).error)
  {
    var p := rows[..j + 1];
    assert p[..|p| - 1] == rows[..j];
    assert forall i :: 0 <= i < j ==> rows[..j][i] == rows[i];
    ParseRowsSucceeds(rows[..j]);
    ParseRowsFailurePersists(rows, j + 1, ParseRow(rows[j]).error);
  }

  /** The local map holds a key exactly when some row parses to it. */
  lemma {:induction false} ParseRowsKeys(rows: seq<Node>, c: Chart)
    requires ParseRows(rows).Success?
    ensures c in ParseRows(rows).value <==> exists i :: RowFor(rows, i, c)
    decreases |rows|
  {
    if rows != [] {
      var p := rows[..|rows| - 1];
      ParseRowsKeys(p, c);
      if exists i :: RowFor(rows, i, c) {
        var i :| RowFor(rows, i, c);
        if i < |p| {
          assert p[i] == rows[i];
          assert RowFor(p, i, c);
        }
      }
      if exists i :: RowFor(p, i, c) {
        var i :| RowFor(p, i, c);
        assert p[i] == rows[i];
        assert RowFor(rows, i, c);
      }
      var last := ParseRow(rows[|rows| - 1]);
      if last.Success? && last.value.Some? && last.value.value.0 == c {
        assert RowFor(rows, |rows| - 1, c);
      }
    }
  }

  /** A key maps to the record of the last row parsing to it: a later row
      with the same key replaces an earlier one. */
  lemma {:induction false} ParseRowsLastWins(rows: seq<Node>, c: Chart, j: nat)
    requires ParseRows(rows).Success?
    requires RowFor(rows, j, c)
    requires forall i :: j < i < |rows| ==> !RowFor(rows, i, c)
    ensures c in ParseRows(rows).value
    ensures ParseRows(rows).value[c] == ParseRow(rows[j]).value.value.1
    decreases |rows|
  {
    var p := rows[..|rows| - 1];
    if j < |p| {
      assert p[j] == rows[j];
      assert forall i :: j < i < |p| ==> p[i] == rows[i] && (RowFor(p, i, c) <==> RowFor(rows, i, c));
      ParseRowsLastWins(p, c, j);
      assert !RowFor(rows, |rows| - 1, c);
    }
  }

  /** An emitted `info` node parses to its key and its stamped record. */
  lemma ParseInfoNode(c: Chart, s: Score)
    ensures ParseRow(InfoNode(c, s)) == Success(Some((c, Score(Row(c, s)))))
  {
    var v := Row(c, s);
    assert v[..ScoreLength] == v;
    assert FromSlice(v) == Success(Score(v));
  }

  /** The map a listing of keys stands for once each record is stamped. */
  function Stamped(m: map<Chart, Score>, order: seq<Chart>): map<Chart, Score>
    requires forall i :: 0 <= i < |order| ==> order[i] in m
  {
    map c | c in order :: Score(Row(c, m[c]))
  }

  lemma StampedExtend(m: map<Chart, Score>, order: seq<Chart>)
    requires |order| > 0 && forall i :: 0 <= i < |order| ==> order[i] in m
    ensures var c := order[|order| - 1];
      Stamped(m, order) == Stamped(m, order[..|order| - 1])[c := Score(Row(c, m[c]))]
  {
    var p := order[..|order| - 1];
    assert forall d :: d in order <==> d in p || d == order[|order| - 1];
  }

  /** The rows the serialiser emits parse back to the map they came from,
      with fields 0 and 1 of each record stamped from its key. */
  lemma {:induction false} ParseRowsOfToProperties(m: map<Chart, Score>, order: seq<Chart>)
    requires forall i :: 0 <= i < |order| ==> order[i] in m
    ensures ParseRows(ToProperties(m, order)) == Success(Stamped(m, order))
    decreases |order|
  {
    if order != [] {
      var p := order[..|order| - 1];
      var c := order[|order| - 1];
      var nodes := ToProperties(m, order);
      assert nodes[..|nodes| - 1] == ToProperties(m, p);
      ParseRowsOfToProperties(m, p);
      ParseInfoNode(c, m[c]);
      StampedExtend(m, order);
    }
  }

  // ------------------------------------------------------ merging the remote PBs

  /** The local lamp of a remote lamp: MAXXIVE CLEAR becomes EXCESSIVE CLEAR
      unless the game is known to support it; other lamps keep their value;
      a lamp label that does not parse gives 0. */
  function LampValue(l: RemoteLamp, props: Option<GameProps.GameProperties>): (v: u32)
    ensures l.UnknownLamp? ==> v == 0
    ensures l.OtherLamp? ==> v == l.code
    ensures l.MaxxiveClear? ==> v == (if props.Some? && props.value.maxxiveSupport then l.code
                                      else Tachi.LampCode(Tachi.ExcessiveClear))
  {
    match l
    case UnknownLamp => 0
    case OtherLamp(code) => code
    case MaxxiveClear(code) =>
      if props.Some? && props.value.maxxiveSupport then code else Tachi.LampCode(Tachi.ExcessiveClear)
  }

  /** The local grade of a remote 0-based grade: one more, capped at 10. */
  function LocalGrade(g: u64): (r: u8)
    ensures r <= MaxGrade
    ensures r == if g + 1 < MaxGrade then g + 1 else MaxGrade
  {
    if g + 1 >= MaxGrade + 1 then MaxGrade else g + 1
  }

  /** A personal best resolves when it has an id known to the table, a score
      and a grade. */
  predicate PbResolves(pb: RemotePb, table: map<string, Chart>) {
    pb.chartId.Some? && pb.chartId.value in table && pb.score.Some? && pb.grade.Some?
  }

  function PbError(pb: RemotePb, table: map<string, Chart>): Error
    requires !PbResolves(pb, table)
  {
    if pb.chartId.None? then ChartIdUnparsable
    else if pb.chartId.value !in table then ChartNotFound
    else if pb.score.None? then PbScoreUnparsable
    else PbGradeUnparsable
  }

  /** The personal best's id resolves to chart `c`. */
  predicate Targets(pb: RemotePb, table: map<string, Chart>, c: Chart) {
    pb.chartId.Some? && pb.chartId.value in table && table[pb.chartId.value] == c
  }

  /** Writing the cloud triplet for `c`: an existing record gets fields 17,
      18 and 19 overwritten in place; a missing one is created from the
      triplet alone (the lamp then goes through a `u8`). */
  function ApplyCloud(scores: map<Chart, Score>, c: Chart, score: u32, lamp: u32, grade: u8): (r: map<Chart, Score>)
    ensures r.Keys == scores.Keys + {c}
    ensures forall d :: d in scores && d != c ==> r[d] == scores[d]
    ensures c in scores ==>
      && r[c].property[CloudScoreIndex] == score
      && r[c].property[CloudClearIndex] == lamp
      && r[c].property[CloudGradeIndex] == grade
      && forall i :: 0 <= i < ScoreLength && !IsCloudIndex(i) ==> r[c].property[i] == scores[c].property[i]
    ensures c !in scores ==> r[c] == FromCloud(score, AsU8(lamp), grade)
  {
    if c in scores then
      scores[c := WithCloudGrade(WithCloudClear(WithCloudScore(scores[c], score), lamp), grade)]
    else
      scores[c := FromCloud(score, AsU8(lamp), grade)]
  }

  /** One personal best merged: it fails with its own error when it does not
      resolve, and otherwise adds (at most) its own chart to the keys. */
  function MergePb(scores: map<Chart, Score>, table: map<string, Chart>, pb: RemotePb,
                   props: Option<GameProps.GameProperties>): (r: Result<map<Chart, Score>, Error>)
    ensures r.Failure? <==> !PbResolves(pb, table)
    ensures r.Failure? ==> r.error == PbError(pb, table)
    ensures r.Success? ==> r.value.Keys == scores.Keys + {table[pb.chartId.value]}
    ensures r.Success? ==> |r.value.Keys| <= |scores.Keys| + 1
  {
    if !PbResolves(pb, table) then Failure(PbError(pb, table))
    else
      var c := table[pb.chartId.value];
      AddOneElement(scores.Keys, c);
      Success(ApplyCloud(scores, c, AsU32(pb.score.value), LampValue(pb.lamp, props), LocalGrade(pb.grade.value)))
  }

  /** All personal bests merged in order; the first that does not resolve
      fails the whole merge. */
  function MergePbs(scores: map<Chart, Score>, table: map<string, Chart>, pbs: seq<RemotePb>,
                    props: Option<GameProps.GameProperties>): (r: Result<map<Chart, Score>, Error>)
    ensures r.Success? ==> scores.Keys <= r.value.Keys
    ensures r.Success? ==> |r.value.Keys| <= |scores.Keys| + |pbs|
    decreases |pbs|
  {
    if pbs == [] then Success(scores)
    else match MergePbs(scores, table, pbs[..|pbs| - 1], props)
      case Failure(e) => Failure(e)
      case Success(m) => MergePb(m, table, pbs[|pbs| - 1], props)
  }

  lemma {:induction false} MergePbsFailurePersists(scores: map<Chart, Score>, table: map<string, Chart>,
      pbs: seq<RemotePb>, props: Option<GameProps.GameProperties>, k: nat, e: Error)
    requires k <= |pbs| && MergePbs(scores, table, pbs[..k], props) == Failure(e)
    ensures MergePbs(scores, table, pbs, props) == Failure(e)
    decreases |pbs| - k
  {
    if k < |pbs| {
      var p := pbs[..k + 1];
      assert p[..|p| - 1] == pbs[..k];
      MergePbsFailurePersists(scores, table, pbs, props, k + 1, e);
    } else {
      assert pbs[..k] == pbs;
    }
  }

  /** The merge succeeds exactly when every personal best resolves. */
  lemma {:induction false} MergePbsSucceeds(scores: map<Chart, Score>, table: map<string, Chart>,
      pbs: seq<RemotePb>, props: Option<GameProps.GameProperties>)
    ensures MergePbs(scores, table, pbs, props).Success? <==> forall i :: 0 <= i < |pbs| ==> PbResolves(pbs[i], table)
    decreases |pbs|
  {
    if pbs != [] {
      var p := pbs[..|pbs| - 1];
      MergePbsSucceeds(scores, table, p, props);
      assert forall i :: 0 <= i < |p| ==> p[i] == pbs[i];
    }
  }

  /** A personal best that does not resolve (in particular one whose id is
      unknown) aborts the whole merge with its error when it is the first
      such; it is never skipped. */
  lemma MergePbsFirstError(scores: map<Chart, Score>, table: map<string, Chart>,
      pbs: seq<RemotePb>, props: Option<GameProps.GameProperties>, j: nat)
    requires j < |pbs| && !PbResolves(pbs[j], table)
    requires forall i :: 0 <= i < j ==> PbResolves(pbs[i], table)
    ensures MergePbs(scores, table, pbs, props) == Failure(PbError(pbs[j], table))
  {
    var p := pbs[..j + 1];
    assert p[..|p| - 1] == pbs[..j];
    assert forall i :: 0 <= i < j ==> pbs[..j][i] == pbs[i];
    MergePbsSucceeds(scores, table, pbs[..j], props);
    MergePbsFailurePersists(scores, table, pbs, props, j + 1, PbError(pbs[j], table));
  }

  /** A successful merge keeps every local key and adds exactly the charts
      the personal bests resolve to. A chart no personal best resolves to
      keeps its record unchanged, and in every record the fields outside the
      cloud triplet are those of the local record, or 0 for a chart known
      only remotely. */
  lemma {:induction false} MergePbsPreserves(scores: map<Chart, Score>, table: map<string, Chart>,
      pbs: seq<RemotePb>, props: Option<GameProps.GameProperties>, c: Chart)
    requires MergePbs(scores, table, pbs, props).Success?
    ensures var r := MergePbs(scores, table, pbs, props).value;
      && (c in r <==> c in scores || exists i :: 0 <= i < |pbs| && Targets(pbs[i], table, c))
      && ((forall i :: 0 <= i < |pbs| ==> !Targets(pbs[i], table, c)) && c in scores ==> r[c] == scores[c])
      && (c in r ==> forall k :: 0 <= k < ScoreLength && !IsCloudIndex(k) ==>
            r[c].property[k] == if c in scores then scores[c].property[k] else 0)
    decreases |pbs|
  {
    if pbs != [] {
      var p := pbs[..|pbs| - 1];
      var pb := pbs[|pbs| - 1];
      MergePbsPreserves(scores, table, p, props, c);
      assert forall i :: 0 <= i < |p| ==> p[i] == pbs[i];
      assert (exists i :: 0 <= i < |pbs| && Targets(pbs[i], table, c))
        <==> (exists i :: 0 <= i < |p| && Targets(p[i], table, c)) || Targets(pb, table, c);
    }
  }

  /** When several personal bests resolve to one chart the last one wins:
      the record's score and grade come from it, and so does the lamp
      (through a `u8` when that personal best created the record). */
  lemma {:induction false} MergePbsLastWins(scores: map<Chart, Score>, table: map<string, Chart>,
      pbs: seq<RemotePb>, props: Option<GameProps.GameProperties>, c: Chart, j: nat)
    requires MergePbs(scores, table, pbs, props).Success?
    requires j < |pbs| && Targets(pbs[j], table, c)
    requires forall i :: j < i < |pbs| ==> !Targets(pbs[i], table, c)
    ensures MergePbs(scores, table, pbs[..j], props).Success?
    ensures pbs[j].score.Some? && pbs[j].grade.Some?
    ensures var r := MergePbs(scores, table, pbs, props).value;
      var before := MergePbs(scores, table, pbs[..j], props).value;
      var lamp := LampValue(pbs[j].lamp, props);
      && c in r
      && r[c].property[CloudScoreIndex] == AsU32(pbs[j].score.value)
      && r[c].property[CloudClearIndex] == (if c in before then lamp else AsU8(lamp))
      && r[c].property[CloudGradeIndex] == LocalGrade(pbs[j].grade.value)
    decreases |pbs|
  {
    var p := pbs[..|pbs| - 1];
    if j == |pbs| - 1 {
      assert p == pbs[..j];
    } else {
      assert p[j] == pbs[j];
      assert p[..j] == pbs[..j];
      MergePbsLastWins(scores, table, p, props, c, j);
    }
  }

  // ------------------------------------------------------------ the whole merge

  /** The reconciled map: the chart table first, then the local rows, then
      the personal bests. `props` is the game's profile when it is known. */
  function Reconcile(music: Node, charts: seq<RemoteChart>, pbs: seq<RemotePb>,
                     props: Option<GameProps.GameProperties>): (r: Result<map<Chart, Score>, Error>)
    ensures r.Success? <==>
      (&& BuildChartTable(charts).Success?
       && ParseRows(music.children).Success?
       && forall i :: 0 <= i < |pbs| ==> PbResolves(pbs[i], BuildChartTable(charts).value))
    ensures r.Success? ==> ParseRows(music.children).value.Keys <= r.value.Keys
    ensures r.Success? ==> |r.value.Keys| <= |music.children| + |pbs|
  {
    match BuildChartTable(charts)
    case Failure(e) => Failure(e)
    case Success(table) =>
      match ParseRows(music.children)
      case Failure(e) => Failure(e)
      case Success(local) =>
        MergePbsSucceeds(local, table, pbs, props);
        MergePbs(local, table, pbs, props)
  }

  /** `build_response_base`: `response/game/music` holding the rows. */
  function BuildResponseBase(rows: seq<Node>): (r: Node)
    ensures r.name == "response"
    ensures Find(r, ["game", "music"]) == Some(WithNodes("music", rows))
  {
    var music := WithNodes("music", rows);
    var game := WithNodes("game", [music]);
    var r := WithNodes("response", [game]);
    assert Child(r, "game") == Some(game);
    assert Child(game, "music") == Some(music);
    assert ["game", "music"][1..] == ["music"];
    r
  }

  /** The loop over the local `music` rows. The source reads fields 0 and 1
      before the length check; here the check comes first (see
      `ParseRowAsWritten`). */
  method ParseLocalRows(rows: seq<Node>) returns (r: Result<map<Chart, Score>, Error>)
    ensures r == ParseRows(rows)
  {
    var scores: map<Chart, Score> := map[];
    for i := 0 to |rows|
      invariant ParseRows(rows[..i]) == Success(scores)
    {
      var row := rows[i];
      assert rows[..i + 1][..i] == rows[..i];
      if |row.children| == 0 {
        ParseRowsFailurePersists(rows, i + 1, ParamNodeMissing);
        return Failure(ParamNodeMissing);
      }
      var param := row.children[0];
      if param.value.None? {
        ParseRowsFailurePersists(rows, i + 1, ParamValueMissing);
        return Failure(ParamValueMissing);
      }
      match param.value.value
      case U32Array(value) =>
        var parsed := FromSlice(value);
        if parsed.Failure? {
          ParseRowsFailurePersists(rows, i + 1, ScoreUnparsable);
          return Failure(ScoreUnparsable);
        }
        var chart := Chart(value[0], AsU8(value[1]));
        scores := scores[chart := parsed.value];
      case OtherValue =>
    }
    assert rows[..|rows|] == rows;
    return Success(scores);
  }

  /** The `entry` match: overwrite the cloud triplet of an occupied entry,
      or insert a record made from it into a vacant one. */
  method StoreCloud(scores: map<Chart, Score>, chart: Chart, score: u32, lamp: u32, grade: u8)
    returns (r: map<Chart, Score>)
    ensures r == ApplyCloud(scores, chart, score, lamp, grade)
  {
    if chart in scores {
      var record := scores[chart];
      record := WithCloudScore(record, score);
      record := WithCloudClear(record, lamp);
      record := WithCloudGrade(record, grade);
      r := scores[chart := record];
    } else {
      r := scores[chart := FromCloud(score, AsU8(lamp), grade)];
    }
  }

  /** One more personal best extends the fold by one `MergePb`. */
  lemma MergePbsStep(scores: map<Chart, Score>, table: map<string, Chart>, pbs: seq<RemotePb>,
                     props: Option<GameProps.GameProperties>, i: nat)
    requires i < |pbs|
    ensures MergePbs(scores, table, pbs[..i + 1], props) ==
      match MergePbs(scores, table, pbs[..i], props)
      case Failure(e) => Failure(e)
      case Success(m) => MergePb(m, table, pbs[i], props)
  {
    assert pbs[..i + 1][..i] == pbs[..i];
  }

  /** The loop over the remote personal bests, updating the local map. */
  method MergeRemotePbs(local: map<Chart, Score>, table: map<string, Chart>, pbs: seq<RemotePb>,
                        props: Option<GameProps.GameProperties>)
    returns (r: Result<map<Chart, Score>, Error>)
    ensures r == MergePbs(local, table, pbs, props)
  {
    var scores := local;
    for i := 0 to |pbs|
      invariant MergePbs(local, table, pbs[..i], props) == Success(scores)
    {
      var pb := pbs[i];
      MergePbsStep(local, table, pbs, props, i);
      if pb.chartId.None? {
        MergePbsFailurePersists(local, table, pbs, props, i + 1, ChartIdUnparsable);
        return Failure(ChartIdUnparsable);
      }
      var id := pb.chartId.value;
      if id !in table {
        MergePbsFailurePersists(local, table, pbs, props, i + 1, ChartNotFound);
        return Failure(ChartNotFound);
      }
      var chart := table[id];
      if pb.score.None? {
        MergePbsFailurePersists(local, table, pbs, props, i + 1, PbScoreUnparsable);
        return Failure(PbScoreUnparsable);
      }
      var score := pb.score.value;
      var lamp := LampValue(pb.lamp, props);
      if pb.grade.None? {
        MergePbsFailurePersists(local, table, pbs, props, i + 1, PbGradeUnparsable);
        return Failure(PbGradeUnparsable);
      }
      var grade := LocalGrade(pb.grade.value);
      assert MergePb(scores, table, pb, props) == Success(ApplyCloud(scores, chart, AsU32(score), lamp, grade));
      scores := StoreCloud(scores, chart, AsU32(score), lamp, grade);
    }
    assert pbs[..|pbs|] == pbs;
    return Success(scores);
  }

  /** The map's own iteration order: some listing of its keys, each once. */
  method ListKeys(m: map<Chart, Score>) returns (order: seq<Chart>)
    ensures Enumerates(order, m.Keys)
  {
    var keys := m.Keys;
    order := [];
    while keys != {}
      invariant keys <= m.Keys
      invariant Distinct(order)
      invariant forall k :: 0 <= k < |order| ==> order[k] in m && order[k] !in keys
      invariant forall c :: c in m ==> c in keys || c in order
      decreases keys
    {
      var c :| c in keys;
      order := order + [c];
      keys := keys - {c};
    }
  }

  /** `process_pbs` once the remote `charts` and `pbs` lists are in hand:
      the response tree holds one row per reconciled chart, in the map's
      iteration order, or the first error aborts it. */
  method ProcessPbs(music: Node, charts: seq<RemoteChart>, pbs: seq<RemotePb>,
                    props: Option<GameProps.GameProperties>)
    returns (r: Result<Node, Error>, order: seq<Chart>)
    ensures Reconcile(music, charts, pbs, props).Failure? ==>
      r == Failure(Reconcile(music, charts, pbs, props).error)
    ensures Reconcile(music, charts, pbs, props).Success? ==>
      && Enumerates(order, Reconcile(music, charts, pbs, props).value.Keys)
      && r == Success(BuildResponseBase(ToProperties(Reconcile(music, charts, pbs, props).value, order)))
  {
    order := [];
    var table := BuildChartTable(charts);
    if table.Failure? {
      return Failure(table.error), order;
    }
    var local := ParseLocalRows(music.children);
    if local.Failure? {
      return Failure(local.error), order;
    }
    var merged := MergeRemotePbs(local.value, table.value, pbs, props);
    if merged.Failure? {
      return Failure(merged.error), order;
    }
    order := ListKeys(merged.value);
    r := Success(BuildResponseBase(ToProperties(merged.value, order)));
  }

  // ------------------------------------------------------------- worked examples

  /** A local record for chart (10, NOV) merged with a CLEAR personal best of
      1234567 at remote grade 3: fields 17 to 19 become 1234567, 2 and 4, and
      every other field stays as it was. */
  lemma ExampleExistingRecord()
    ensures var local: seq<u32> := [10, 0, 5, 5, 5, 5, 5, 5, 5, 5, 5, 5, 5, 5, 5, 5, 5, 999, 2, 7, 0];
      var music := WithNodes("music", [WithNodes("info", [WithValue("param", U32Array(local))])]);
      var charts := [RemoteChart(Some("abc"), Some(10), KnownDifficulty(0))];
      var pbs := [RemotePb(Some("abc"), Some(1234567), OtherLamp(Tachi.LampCode(Tachi.Clear)), Some(3))];
      Reconcile(music, charts, pbs, None)
        == Success(map[Chart(10, 0) := Score(local[17 := 1234567][18 := 2][19 := 4])])
  {
    var local: seq<u32> := [10, 0, 5, 5, 5, 5, 5, 5, 5, 5, 5, 5, 5, 5, 5, 5, 5, 999, 2, 7, 0];
    var row := WithNodes("info", [WithValue("param", U32Array(local))]);
    var charts := [RemoteChart(Some("abc"), Some(10), KnownDifficulty(0))];
    var pbs := [RemotePb(Some("abc"), Some(1234567), OtherLamp(Tachi.LampCode(Tachi.Clear)), Some(3))];
    assert local[..ScoreLength] == local;
    assert charts[..0] == [] && [row][..0] == [] && pbs[..0] == [];
    assert BuildChartTable(charts) == Success(map["abc" := Chart(10, 0)]);
    assert ParseRow(row) == Success(Some((Chart(10, 0), Score(local))));
    assert ParseRows([row]) == Success(map[Chart(10, 0) := Score(local)]);
    var merged := Score(local[17 := 1234567][18 := 2][19 := 4]);
    assert LampValue(pbs[0].lamp, None) == 2 && LocalGrade(3) == 4 && AsU32(1234567) == 1234567;
    assert WithCloudGrade(WithCloudClear(WithCloudScore(Score(local), 1234567), 2), 4) == merged;
    assert PbResolves(pbs[0], map["abc" := Chart(10, 0)]);
    assert ApplyCloud(map[Chart(10, 0) := Score(local)], Chart(10, 0), 1234567, 2, 4)
        == map[Chart(10, 0) := merged];
    assert MergePb(map[Chart(10, 0) := Score(local)], map["abc" := Chart(10, 0)], pbs[0], None)
        == Success(map[Chart(10, 0) := merged]);
    assert MergePbs(map[Chart(10, 0) := Score(local)], map["abc" := Chart(10, 0)], pbs, None)
        == Success(map[Chart(10, 0) := merged]);
  }

  /** A MAXXIVE CLEAR personal best on a game without maxxive support is
      stored as EXCESSIVE CLEAR (3) in a record created for it. */
  lemma ExampleMaxxiveDowngrade(code: u32, p: GameProps.GameProperties)
    requires !p.maxxiveSupport
    ensures var music := WithNodes("music", []);
      var charts := [RemoteChart(Some("x"), Some(7), UnknownDifficulty)];
      var pbs := [RemotePb(Some("x"), Some(9000000), MaxxiveClear(code), Some(20))];
      Reconcile(music, charts, pbs, Some(p)) == Success(map[Chart(7, 3) := FromCloud(9000000, 3, 10)])
  {
    var charts := [RemoteChart(Some("x"), Some(7), UnknownDifficulty)];
    var pbs := [RemotePb(Some("x"), Some(9000000), MaxxiveClear(code), Some(20))];
    assert charts[..0] == [] && pbs[..0] == [];
    assert BuildChartTable(charts) == Success(map["x" := Chart(7, 3)]);
    assert LampValue(MaxxiveClear(code), Some(p)) == 3;
    assert MergePbs(map[], map["x" := Chart(7, 3)], pbs, Some(p))
        == Success(map[Chart(7, 3) := FromCloud(9000000, 3, 10)]);
  }
}
