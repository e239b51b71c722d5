/**
 * The record loop of `handler`: rows of the usage export are filtered down to
 * the target month and folded into per-candidate excess hours for the two
 * host kinds and into running totals for the volume kinds.
 */
module Usage {
  import opened Numbers

  /** One CSV record: its cells, by position. */
  type Row = seq<string>

  // Positions of the columns `handler` reads.
  const TimestampColumn: nat := 1
  const InfraHostColumn: nat := 2
  const APMHostColumn: nat := 3
  const IndexedLogsColumn: nat := 11
  const SyntheticsAPITestColumn: nat := 14
  const FargateTaskColumn: nat := 15
  const LambdaFunctionColumn: nat := 16
  const AnalyzedLogsColumn: nat := 22

  /** The cell at `col`, or "" where the row is too short (the handler requires that it is not). */
  function Cell(row: Row, col: nat): string {
    if col < |row| then row[col] else ""
  }

  function Stamp(row: Row): string {
    Cell(row, TimestampColumn)
  }

  /** `strings.HasPrefix(record[1], targetYM)`. */
  predicate InPeriod(row: Row, targetYM: string) {
    targetYM <= Stamp(row)
  }

  /** The parsed value of a numeric cell; a cell that does not parse counts as 0. */
  function Count(row: Row, col: nat): real {
    ParseNumber(Cell(row, col))
  }

  /** What one row adds to the excess of candidate `commit`: the hours above it, if any. */
  function RowExcess(row: Row, targetYM: string, col: nat, commit: real): real {
    if InPeriod(row, targetYM) && Count(row, col) - commit > 0.0 then Count(row, col) - commit else 0.0
  }

  /** The sum over in-period rows of max(0, count - commit). */
  function ExcessSum(rows: seq<Row>, targetYM: string, col: nat, commit: real): real {
    if |rows| == 0 then 0.0
    else ExcessSum(rows[..|rows| - 1], targetYM, col, commit) + RowExcess(rows[|rows| - 1], targetYM, col, commit)
  }

  /** The sum over in-period rows of the column's value. */
  function VolumeSum(rows: seq<Row>, targetYM: string, col: nat): real {
    if |rows| == 0 then 0.0
    else
      var last := rows[|rows| - 1];
      VolumeSum(rows[..|rows| - 1], targetYM, col) + (if InPeriod(last, targetYM) then Count(last, col) else 0.0)
  }

  /** `lastDay`: the first in-period timestamp met that is not empty, or "" if there is none. */
  function FirstStamp(rows: seq<Row>, targetYM: string): string {
    if |rows| == 0 then ""
    else
      var before := FirstStamp(rows[..|rows| - 1], targetYM);
      var last := rows[|rows| - 1];
      if before == "" && InPeriod(last, targetYM) then Stamp(last) else before
  }

  /** The running sums `all*` of the volume kinds. */
  datatype Totals = Totals(
    fargateTask: real, lambdaFunction: real, indexedLogs: real,
    analyzedLogs: real, syntheticsAPITest: real)

  function TotalsOf(rows: seq<Row>, targetYM: string): Totals {
    Totals(
      VolumeSum(rows, targetYM, FargateTaskColumn), VolumeSum(rows, targetYM, LambdaFunctionColumn),
      VolumeSum(rows, targetYM, IndexedLogsColumn), VolumeSum(rows, targetYM, AnalyzedLogsColumn),
      VolumeSum(rows, targetYM, SyntheticsAPITestColumn))
  }

  /** The excess of each candidate in turn. */
  function ExcessVector(rows: seq<Row>, targetYM: string, col: nat, candidates: seq<real>): (v: seq<real>)
    ensures |v| == |candidates|
    ensures forall i :: 0 <= i < |candidates| ==> v[i] == ExcessSum(rows, targetYM, col, candidates[i])
  {
    seq(|candidates|, i requires 0 <= i < |candidates| => ExcessSum(rows, targetYM, col, candidates[i]))
  }

  /**
   * Every row has a timestamp cell, and every row inside the target month is
   * wide enough for each column the handler reads from it.
   */
  predicate WideEnough(rows: seq<Row>, targetYM: string) {
    forall k :: 0 <= k < |rows| ==>
      |rows[k]| > TimestampColumn && (InPeriod(rows[k], targetYM) ==> |rows[k]| > AnalyzedLogsColumn)
  }

  /**
   * The record loop: skip the header, then for each row inside the target
   * month add its host hours above every candidate and its volumes to the totals.
   */
  method Aggregate(records: seq<Row>, targetYM: string, infraRange: seq<real>, apmRange: seq<real>)
    returns (excessInfra: array<real>, excessAPM: array<real>, totals: Totals, lastDay: string)
    requires |records| >= 1 && WideEnough(records[1..], targetYM)
    ensures excessInfra[..] == ExcessVector(records[1..], targetYM, InfraHostColumn, infraRange)
    ensures excessAPM[..] == ExcessVector(records[1..], targetYM, APMHostColumn, apmRange)
    ensures totals == TotalsOf(records[1..], targetYM)
    ensures lastDay == FirstStamp(records[1..], targetYM)
  {
    excessInfra := new real[|infraRange|](_ => 0.0);
    excessAPM := new real[|apmRange|](_ => 0.0);
    var allFargateTask, allLambdaFunction, allIndexedLogs, allAnalyzedLogs, allSyntheticsAPITest
      := 0.0, 0.0, 0.0, 0.0, 0.0;
    var readable := false;
    var rows := records[1..];
    lastDay := "";
    for n := 0 to |rows|
      invariant excessInfra[..] == ExcessVector(rows[..n], targetYM, InfraHostColumn, infraRange)
      invariant excessAPM[..] == ExcessVector(rows[..n], targetYM, APMHostColumn, apmRange)
      invariant Totals(allFargateTask, allLambdaFunction, allIndexedLogs, allAnalyzedLogs, allSyntheticsAPITest)
        == TotalsOf(rows[..n], targetYM)
      invariant lastDay == FirstStamp(rows[..n], targetYM)
    {
      var record := rows[n];
      assert |record| > TimestampColumn && (InPeriod(record, targetYM) ==> |record| > AnalyzedLogsColumn);
      if !(targetYM <= record[1]) {
        readable := false;
      }
      if targetYM <= record[1] {
        readable := true;
      }
      assert readable == InPeriod(record, targetYM);
      FirstStampStep(rows, n, targetYM);
      if !readable {
        TotalsStep(rows, n, targetYM);
        ExcessSkip(rows, n, targetYM, InfraHostColumn, infraRange);
        ExcessSkip(rows, n, targetYM, APMHostColumn, apmRange);
        continue;
      }
      if lastDay == "" {
        lastDay := record[1];
      }
      AddHostHours(record, excessInfra, excessAPM, infraRange, apmRange, rows, n, targetYM);
      allFargateTask, allLambdaFunction, allIndexedLogs, allAnalyzedLogs, allSyntheticsAPITest :=
        AddVolumes(allFargateTask, allLambdaFunction, allIndexedLogs, allAnalyzedLogs, allSyntheticsAPITest,
                   record, rows, n, targetYM);
    }
    assert rows[..|rows|] == rows;
    totals := Totals(allFargateTask, allLambdaFunction, allIndexedLogs, allAnalyzedLogs, allSyntheticsAPITest);
  }

  /** The host part of an in-period record: its Infra and APM hours above every candidate. */
  method AddHostHours(record: Row, excessInfra: array<real>, excessAPM: array<real>,
                      infraRange: seq<real>, apmRange: seq<real>, ghost rows: seq<Row>, ghost n: nat, ghost targetYM: string)
    requires n < |rows| && record == rows[n] && InPeriod(record, targetYM) && |record| > AnalyzedLogsColumn
    requires excessInfra != excessAPM
    requires excessInfra[..] == ExcessVector(rows[..n], targetYM, InfraHostColumn, infraRange)
    requires excessAPM[..] == ExcessVector(rows[..n], targetYM, APMHostColumn, apmRange)
    modifies excessInfra, excessAPM
    ensures excessInfra[..] == ExcessVector(rows[..n + 1], targetYM, InfraHostColumn, infraRange)
    ensures excessAPM[..] == ExcessVector(rows[..n + 1], targetYM, APMHostColumn, apmRange)
  {
    var countHourlyInfraHost := Count(record, InfraHostColumn);
    AddExcess(excessInfra, infraRange, countHourlyInfraHost, rows, n, targetYM, InfraHostColumn);
    ghost var infraNext := excessInfra[..];
    var countHourlyAPMHost := Count(record, APMHostColumn);
    AddExcess(excessAPM, apmRange, countHourlyAPMHost, rows, n, targetYM, APMHostColumn);
    assert excessInfra[..] == infraNext;
  }

  method AddVolumes(fargateTask: real, lambdaFunction: real, indexedLogs: real, analyzedLogs: real,
                    syntheticsAPITest: real, record: Row, ghost rows: seq<Row>, ghost n: nat, ghost targetYM: string)
    returns (fargateTask': real, lambdaFunction': real, indexedLogs': real, analyzedLogs': real, syntheticsAPITest': real)
    requires n < |rows| && record == rows[n] && InPeriod(record, targetYM) && |record| > AnalyzedLogsColumn
    requires Totals(fargateTask, lambdaFunction, indexedLogs, analyzedLogs, syntheticsAPITest) == TotalsOf(rows[..n], targetYM)
    ensures Totals(fargateTask', lambdaFunction', indexedLogs', analyzedLogs', syntheticsAPITest') == TotalsOf(rows[..n + 1], targetYM)
  {
    TotalsStep(rows, n, targetYM);
    fargateTask' := fargateTask + ParseNumber(record[15]);
    lambdaFunction' := lambdaFunction + ParseNumber(record[16]);
    indexedLogs' := indexedLogs + ParseNumber(record[11]);
    analyzedLogs' := analyzedLogs + ParseNumber(record[22]);
    syntheticsAPITest' := syntheticsAPITest + ParseNumber(record[14]);
  }

  /** What the next row adds to the running totals: its volumes if it is in the period, else nothing. */
  lemma TotalsStep(rows: seq<Row>, n: nat, targetYM: string)
    requires n < |rows|
    ensures var t, row := TotalsOf(rows[..n], targetYM), rows[n];
      TotalsOf(rows[..n + 1], targetYM) ==
        if !InPeriod(row, targetYM) then t
        else Totals(t.fargateTask + Count(row, FargateTaskColumn), t.lambdaFunction + Count(row, LambdaFunctionColumn),
                    t.indexedLogs + Count(row, IndexedLogsColumn), t.analyzedLogs + Count(row, AnalyzedLogsColumn),
                    t.syntheticsAPITest + Count(row, SyntheticsAPITestColumn))
  {
    assert rows[..n + 1][..n] == rows[..n] && rows[..n + 1][n] == rows[n];
  }

  /** The next row sets `lastDay` only if it is in the period and none before has. */
  lemma FirstStampStep(rows: seq<Row>, n: nat, targetYM: string)
    requires n < |rows|
    ensures FirstStamp(rows[..n + 1], targetYM)
      == if FirstStamp(rows[..n], targetYM) == "" && InPeriod(rows[n], targetYM) then Stamp(rows[n])
         else FirstStamp(rows[..n], targetYM)
  {
    assert rows[..n + 1][..n] == rows[..n] && rows[..n + 1][n] == rows[n];
  }

  /** A row outside the period adds no excess hours. */
  lemma ExcessSkip(rows: seq<Row>, n: nat, targetYM: string, col: nat, candidates: seq<real>)
    requires n < |rows| && !InPeriod(rows[n], targetYM)
    ensures ExcessVector(rows[..n + 1], targetYM, col, candidates) == ExcessVector(rows[..n], targetYM, col, candidates)
  {
    assert rows[..n + 1][..n] == rows[..n] && rows[..n + 1][n] == rows[n];
  }

  /**
   * The inner loop over candidates: add the hours `count` of the in-period
   * row `rows[n]` has above each candidate, so that the excess of the first
   * n rows becomes the excess of the first n + 1.
   */
  method AddExcess(excess: array<real>, candidates: seq<real>, count: real,
                   ghost rows: seq<Row>, ghost n: nat, ghost targetYM: string, ghost col: nat)
    requires excess.Length == |candidates| && n < |rows| && InPeriod(rows[n], targetYM)
    requires count == Count(rows[n], col)
    requires excess[..] == ExcessVector(rows[..n], targetYM, col, candidates)
    modifies excess
    ensures excess[..] == ExcessVector(rows[..n + 1], targetYM, col, candidates)
  {
    for i := 0 to |candidates|
      invariant forall j :: 0 <= j < i ==> excess[j] == ExcessSum(rows[..n + 1], targetYM, col, candidates[j])
      invariant forall j :: i <= j < |candidates| ==> excess[j] == ExcessSum(rows[..n], targetYM, col, candidates[j])
    {
      ExcessStep(rows, n, targetYM, col, candidates[i]);
      var c := count - candidates[i];
      if c > 0.0 {
        excess[i] := excess[i] + c;
      }
    }
  }

  /** What an in-period row adds to a candidate's excess: the hours above it, if any. */
  lemma ExcessStep(rows: seq<Row>, n: nat, targetYM: string, col: nat, commit: real)
    requires n < |rows| && InPeriod(rows[n], targetYM)
    ensures var c := Count(rows[n], col) - commit;
      ExcessSum(rows[..n + 1], targetYM, col, commit)
        == ExcessSum(rows[..n], targetYM, col, commit) + (if c > 0.0 then c else 0.0)
  {
    assert rows[..n + 1][..n] == rows[..n] && rows[..n + 1][n] == rows[n];
  }

  /** Excess hours are never negative. */
  lemma {:induction false} ExcessSumNonNegative(rows: seq<Row>, targetYM: string, col: nat, commit: real)
    ensures ExcessSum(rows, targetYM, col, commit) >= 0.0
    decreases |rows|
  {
    if |rows| > 0 {
      ExcessSumNonNegative(rows[..|rows| - 1], targetYM, col, commit);
    }
  }

  /** The excess is zero exactly when no in-period row rises above the candidate. */
  lemma {:induction false} ExcessSumZero(rows: seq<Row>, targetYM: string, col: nat, commit: real)
    ensures ExcessSum(rows, targetYM, col, commit) == 0.0 <==>
      forall k :: 0 <= k < |rows| && InPeriod(rows[k], targetYM) ==> Count(rows[k], col) <= commit
    decreases |rows|
  {
    if |rows| > 0 {
      var init := rows[..|rows| - 1];
      ExcessSumZero(init, targetYM, col, commit);
      ExcessSumNonNegative(init, targetYM, col, commit);
      assert forall k :: 0 <= k < |init| ==> init[k] == rows[k];
    }
  }

  /** A larger commitment never has more excess hours. */
  lemma {:induction false} ExcessSumAntitone(rows: seq<Row>, targetYM: string, col: nat, c1: real, c2: real)
    requires c1 <= c2
    ensures ExcessSum(rows, targetYM, col, c2) <= ExcessSum(rows, targetYM, col, c1)
    decreases |rows|
  {
    if |rows| > 0 {
      ExcessSumAntitone(rows[..|rows| - 1], targetYM, col, c1, c2);
    }
  }

  /** With no in-period row, no timestamp is recorded. */
  lemma {:induction false} FirstStampNone(rows: seq<Row>, targetYM: string)
    requires forall k :: 0 <= k < |rows| ==> !InPeriod(rows[k], targetYM)
    ensures FirstStamp(rows, targetYM) == ""
    decreases |rows|
  {
    if |rows| > 0 {
      FirstStampNone(rows[..|rows| - 1], targetYM);
    }
  }

  /** For a non-empty month key, `lastDay` is the timestamp of the first in-period row in file order. */
  lemma {:induction false} FirstStampIsFirst(rows: seq<Row>, targetYM: string, k: nat)
    requires targetYM != ""
    requires k < |rows| && InPeriod(rows[k], targetYM)
    requires forall j :: 0 <= j < k ==> !InPeriod(rows[j], targetYM)
    ensures FirstStamp(rows, targetYM) == Stamp(rows[k])
    decreases |rows|
  {
    var init := rows[..|rows| - 1];
    if k == |rows| - 1 {
      FirstStampNone(init, targetYM);
    } else {
      FirstStampIsFirst(init, targetYM, k);
    }
  }
}
