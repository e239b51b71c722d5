/**
 * `init` and `handler`: expand the seven commit flags into candidate lists,
 * aggregate the usage export, price every candidate of every resource and
 * report the cheapest candidate of each.
 */
module Recommend {
  import opened Options
  import opened Ranges
  import opened Selection
  import opened Calendar
  import opened Usage
  import opened Pricing

  /** The `--commit-*` flags as given. */
  datatype CommitFlags = CommitFlags(
    infraHost: string, apmHost: string, indexedLogs: string, analyzedLogs: string,
    syntheticsAPITest: string, fargateTask: string, lambdaFunction: string)

  /** The expanded candidate lists `rangeCommit*`. */
  datatype Candidates = Candidates(
    infraHost: seq<real>, apmHost: seq<real>, indexedLogs: seq<real>, analyzedLogs: seq<real>,
    syntheticsAPITest: seq<real>, fargateTask: seq<real>, lambdaFunction: seq<real>)
  {
    function Of(r: Resource): seq<real> {
      match r
      case InfraHost => infraHost
      case APMHost => apmHost
      case IndexedLogs => indexedLogs
      case AnalyzedLogs => analyzedLogs
      case SyntheticsAPITest => syntheticsAPITest
      case FargateTask => fargateTask
      case LambdaFunction => lambdaFunction
    }
  }

  /** The resources in the order `handler` evaluates and tabulates them. */
  const Services: seq<Resource> :=
    [InfraHost, APMHost, FargateTask, LambdaFunction, IndexedLogs, AnalyzedLogs, SyntheticsAPITest]

  function ServiceName(r: Resource): string {
    match r
    case InfraHost => "Infra Host"
    case APMHost => "APM Host"
    case FargateTask => "Fargate Task"
    case LambdaFunction => "Lambda Function"
    case IndexedLogs => "Indexed Logs"
    case AnalyzedLogs => "Analyzed Logs"
    case SyntheticsAPITest => "Synthetics API Test"
  }

  /** The export column each resource is read from. */
  function Column(r: Resource): nat {
    match r
    case InfraHost => InfraHostColumn
    case APMHost => APMHostColumn
    case FargateTask => FargateTaskColumn
    case LambdaFunction => LambdaFunctionColumn
    case IndexedLogs => IndexedLogsColumn
    case AnalyzedLogs => AnalyzedLogsColumn
    case SyntheticsAPITest => SyntheticsAPITestColumn
  }

  /** The range set-up of `init`: every flag through `getRange`, none of which may fail to return. */
  method Init(flags: CommitFlags) returns (c: Option<Candidates>)
    ensures c.Some? <==>
      && Expand(flags.infraHost).Some? && Expand(flags.apmHost).Some?
      && Expand(flags.indexedLogs).Some? && Expand(flags.analyzedLogs).Some?
      && Expand(flags.syntheticsAPITest).Some? && Expand(flags.fargateTask).Some?
      && Expand(flags.lambdaFunction).Some?
    ensures c.Some? ==>
      && c.value.infraHost == Expand(flags.infraHost).value
      && c.value.apmHost == Expand(flags.apmHost).value
      && c.value.indexedLogs == Expand(flags.indexedLogs).value
      && c.value.analyzedLogs == Expand(flags.analyzedLogs).value
      && c.value.syntheticsAPITest == Expand(flags.syntheticsAPITest).value
      && c.value.fargateTask == Expand(flags.fargateTask).value
      && c.value.lambdaFunction == Expand(flags.lambdaFunction).value
  {
    var infraHost := GetRange(flags.infraHost);
    var apmHost := GetRange(flags.apmHost);
    var indexedLogs := GetRange(flags.indexedLogs);
    var analyzedLogs := GetRange(flags.analyzedLogs);
    var syntheticsAPITest := GetRange(flags.syntheticsAPITest);
    var fargateTask := GetRange(flags.fargateTask);
    var lambdaFunction := GetRange(flags.lambdaFunction);
    if infraHost.None? || apmHost.None? || indexedLogs.None? || analyzedLogs.None?
       || syntheticsAPITest.None? || fargateTask.None? || lambdaFunction.None? {
      return None;
    }
    c := Some(Candidates(
      infraHost.value, apmHost.value, indexedLogs.value, analyzedLogs.value,
      syntheticsAPITest.value, fargateTask.value, lambdaFunction.value));
  }

  /** The date of `lastDay`, from which the month's length and the elapsed days are taken. */
  function PeriodDate(rows: seq<Row>, targetYM: string): (d: Date)
    ensures IsValidDate(d)
  {
    LastDate(FirstStamp(rows, targetYM))
  }

  /** The number of days in the period's month, `endOfMonth.Day()`. */
  function MonthDays(rows: seq<Row>, targetYM: string): (n: int)
    ensures PeriodDate(rows, targetYM).day <= n && n > 0
  {
    var d := PeriodDate(rows, targetYM);
    EndOfMonthIsLastDay(d);
    EndOfMonth(d).day
  }

  /**
   * The host factor `day / monthDays` is the elapsed share of the period
   * date's month, so it lies in (0, 1] and is 1 exactly on the last day.
   */
  lemma HostShareIsElapsedShare(rows: seq<Row>, targetYM: string)
    ensures var d := PeriodDate(rows, targetYM);
      && d.day as real / MonthDays(rows, targetYM) as real == ElapsedShare(d)
      && 0.0 < ElapsedShare(d) <= 1.0
      && (ElapsedShare(d) == 1.0 <==> d.day == MonthDays(rows, targetYM))
  {
    var d := PeriodDate(rows, targetYM);
    EndOfMonthIsLastDay(d);
    ElapsedShareBounds(d);
  }

  /** The price of every candidate of `r`, index for index with the candidates (`totalPrice*`). */
  function CostVector(r: Resource, candidates: seq<real>, rows: seq<Row>, targetYM: string): (costs: seq<real>)
    ensures |costs| == |candidates|
  {
    var day, monthDays := PeriodDate(rows, targetYM).day, MonthDays(rows, targetYM);
    if IsHost(r) then HostCostVector(RatesOf(r), candidates, ExcessVector(rows, targetYM, Column(r), candidates), day, monthDays)
    else VolumeCostVector(RatesOf(r), candidates, Quantity(r, VolumeSum(rows, targetYM, Column(r)), day, monthDays))
  }

  function HostCostVector(p: Rates, candidates: seq<real>, excess: seq<real>, day: int, monthDays: int): (costs: seq<real>)
    requires |excess| == |candidates| && monthDays > 0
    ensures |costs| == |candidates|
  {
    seq(|candidates|, i requires 0 <= i < |candidates| => HostCost(p, candidates[i], excess[i], day, monthDays))
  }

  function VolumeCostVector(p: Rates, candidates: seq<real>, quantity: real): (costs: seq<real>)
    ensures |costs| == |candidates|
  {
    seq(|candidates|, i requires 0 <= i < |candidates| => VolumeCost(p, candidates[i], quantity))
  }

  /** Non-negative candidates are priced at non-negative costs. */
  lemma CostVectorNonNegative(r: Resource, candidates: seq<real>, rows: seq<Row>, targetYM: string)
    requires forall i :: 0 <= i < |candidates| ==> candidates[i] >= 0.0
    ensures forall i :: 0 <= i < |candidates| ==> CostVector(r, candidates, rows, targetYM)[i] >= 0.0
  {
    var costs := CostVector(r, candidates, rows, targetYM);
    var day, monthDays := PeriodDate(rows, targetYM).day, MonthDays(rows, targetYM);
    forall i | 0 <= i < |candidates|
      ensures costs[i] >= 0.0
    {
      if IsHost(r) {
        var excess := ExcessSum(rows, targetYM, Column(r), candidates[i]);
        ExcessSumNonNegative(rows, targetYM, Column(r), candidates[i]);
        HostCostNonNegative(RatesOf(r), candidates[i], excess, day, monthDays);
        assert costs[i] == HostCost(RatesOf(r), candidates[i], excess, day, monthDays);
      } else {
        var quantity := Quantity(r, VolumeSum(rows, targetYM, Column(r)), day, monthDays);
        VolumeCostNonNegative(RatesOf(r), candidates[i], quantity);
        assert costs[i] == VolumeCost(RatesOf(r), candidates[i], quantity);
      }
    }
  }

  /** A larger candidate costs at most the extra commitment at the committed rate more. */
  lemma CostRaiseBounded(r: Resource, candidates: seq<real>, rows: seq<Row>, targetYM: string, i: nat, j: nat)
    requires i < |candidates| && j < |candidates| && candidates[i] <= candidates[j]
    ensures CostVector(r, candidates, rows, targetYM)[j]
         <= CostVector(r, candidates, rows, targetYM)[i] + RatesOf(r).committed * (candidates[j] - candidates[i])
  {
    var costs := CostVector(r, candidates, rows, targetYM);
    var day, monthDays := PeriodDate(rows, targetYM).day, MonthDays(rows, targetYM);
    var d := candidates[j] - candidates[i];
    assert candidates[j] == candidates[i] + d;
    if IsHost(r) {
      var col := Column(r);
      ExcessSumAntitone(rows, targetYM, col, candidates[i], candidates[j]);
      HostCostIncreaseBounded(RatesOf(r), candidates[i], d, ExcessSum(rows, targetYM, col, candidates[i]),
                              ExcessSum(rows, targetYM, col, candidates[j]), day, monthDays);
      assert costs[i] == HostCost(RatesOf(r), candidates[i], ExcessSum(rows, targetYM, col, candidates[i]), day, monthDays);
      assert costs[j] == HostCost(RatesOf(r), candidates[j], ExcessSum(rows, targetYM, col, candidates[j]), day, monthDays);
    } else {
      var quantity := Quantity(r, VolumeSum(rows, targetYM, Column(r)), day, monthDays);
      VolumeCostIncreaseBounded(RatesOf(r), candidates[i], d, quantity);
      assert costs[i] == VolumeCost(RatesOf(r), candidates[i], quantity);
      assert costs[j] == VolumeCost(RatesOf(r), candidates[j], quantity);
    }
  }

  /**
   * For a volume kind, a larger candidate is cheaper than a smaller one by at
   * most the difference at the committed rate (hosts have no such bound, see
   * `Pricing.HostCostFallUnbounded`).
   */
  lemma CostFallBounded(r: Resource, candidates: seq<real>, rows: seq<Row>, targetYM: string, i: nat, j: nat)
    requires !IsHost(r) && i < |candidates| && j < |candidates| && candidates[i] <= candidates[j]
    ensures CostVector(r, candidates, rows, targetYM)[j]
         >= CostVector(r, candidates, rows, targetYM)[i] - RatesOf(r).committed * (candidates[j] - candidates[i])
  {
    var costs := CostVector(r, candidates, rows, targetYM);
    var day, monthDays := PeriodDate(rows, targetYM).day, MonthDays(rows, targetYM);
    var d := candidates[j] - candidates[i];
    assert candidates[j] == candidates[i] + d;
    var quantity := Quantity(r, VolumeSum(rows, targetYM, Column(r)), day, monthDays);
    VolumeOverageDearer(r);
    VolumeCostDecreaseBounded(RatesOf(r), candidates[i], d, quantity);
    assert costs[i] == VolumeCost(RatesOf(r), candidates[i], quantity);
    assert costs[j] == VolumeCost(RatesOf(r), candidates[j], quantity);
  }

  /**
   * A host candidate no in-period count exceeds is charged no overage: its
   * price is that of zero excess hours (see `Pricing.HostCostWithoutOverage`).
   */
  lemma HostCostWithoutExcess(r: Resource, candidates: seq<real>, rows: seq<Row>, targetYM: string, i: nat)
    requires IsHost(r) && i < |candidates|
    requires forall k :: 0 <= k < |rows| && InPeriod(rows[k], targetYM) ==> Count(rows[k], Column(r)) <= candidates[i]
    ensures CostVector(r, candidates, rows, targetYM)[i]
         == HostCost(RatesOf(r), candidates[i], 0.0, PeriodDate(rows, targetYM).day, MonthDays(rows, targetYM))
  {
    ExcessSumZero(rows, targetYM, Column(r), candidates[i]);
  }

  /** On the month's last day a host candidate is charged its full monthly price plus its excess hours. */
  lemma HostCostOnLastDay(r: Resource, candidates: seq<real>, rows: seq<Row>, targetYM: string, i: nat)
    requires IsHost(r) && i < |candidates|
    requires PeriodDate(rows, targetYM).day == MonthDays(rows, targetYM)
    ensures CostVector(r, candidates, rows, targetYM)[i]
         == RatesOf(r).committed * candidates[i]
            + RatesOf(r).overage * ExcessSum(rows, targetYM, Column(r), candidates[i])
  {
    var excess := ExcessVector(rows, targetYM, Column(r), candidates);
    HostCostVectorAtMonthEnd(RatesOf(r), candidates, excess, MonthDays(rows, targetYM), i);
  }

  lemma HostCostVectorAtMonthEnd(p: Rates, candidates: seq<real>, excess: seq<real>, monthDays: int, i: nat)
    requires |excess| == |candidates| && monthDays > 0 && i < |candidates|
    ensures HostCostVector(p, candidates, excess, monthDays, monthDays)[i]
         == p.committed * candidates[i] + p.overage * excess[i]
  {
    HostCostAtMonthEnd(p, candidates[i], excess[i], monthDays, monthDays);
  }

  /** Everything shown for one resource: its candidates, their prices and the cheapest one's index. */
  datatype Report = Report(resource: Resource, candidates: seq<real>, costs: seq<real>, minIndex: nat)

  /** One row of the summary table. */
  datatype Recommendation = Recommendation(service: string, commit: real, totalCost: real)

  /** `rep` prices `candidates` of `r` over `rows` and marks the first cheapest one. */
  predicate IsReportFor(rep: Report, r: Resource, candidates: seq<real>, rows: seq<Row>, targetYM: string) {
    && rep.resource == r
    && rep.candidates == candidates
    && rep.costs == CostVector(r, candidates, rows, targetYM)
    && IsFirstMin(rep.costs, rep.minIndex)
  }

  /** A host resource's price loop: the committed term scaled by `day / monthDays`, plus the excess hours. */
  method HostCosts(candidates: seq<real>, excess: array<real>, p: Rates, day: int, monthDays: int)
    returns (cost: array<real>)
    requires excess.Length == |candidates| && monthDays > 0
    ensures cost[..] == HostCostVector(p, candidates, excess[..], day, monthDays)
  {
    cost := new real[|candidates|];
    for i := 0 to |candidates|
      invariant forall j :: 0 <= j < i ==> cost[j] == HostCost(p, candidates[j], excess[j], day, monthDays)
    {
      var commit := candidates[i];
      var c := p.committed * commit * day as real / monthDays as real;
      var e := p.overage * excess[i];
      cost[i] := c + e;
    }
  }

  /** A volume resource's price loop: the quantity's excess over each candidate, clamped at 0. */
  method VolumeCosts(r: Resource, candidates: seq<real>, total: real, day: int, monthDays: int)
    returns (cost: array<real>)
    requires !IsHost(r) && day > 0
    ensures cost.Length == |candidates|
    ensures forall i :: 0 <= i < |candidates| ==>
      cost[i] == VolumeCost(RatesOf(r), candidates[i], Quantity(r, total, day, monthDays))
  {
    cost := new real[|candidates|];
    for i := 0 to |candidates|
      invariant forall j :: 0 <= j < i ==>
        cost[j] == VolumeCost(RatesOf(r), candidates[j], Quantity(r, total, day, monthDays))
    {
      var commit := candidates[i];
      var excess := Quantity(r, total, day, monthDays) - commit;
      if excess < 0.0 {
        excess := 0.0;
      }
      var c := RatesOf(r).committed * commit;
      var e := RatesOf(r).overage * excess;
      cost[i] := c + e;
    }
  }

  /** Price a host resource's candidates and pick the cheapest. */
  method HostReport(r: Resource, candidates: seq<real>, excess: array<real>,
                    ghost rows: seq<Row>, ghost targetYM: string, day: int, monthDays: int)
    returns (rep: Report)
    requires IsHost(r) && |candidates| > 0 && excess.Length == |candidates|
    requires excess[..] == ExcessVector(rows, targetYM, Column(r), candidates)
    requires day == PeriodDate(rows, targetYM).day && monthDays == MonthDays(rows, targetYM)
    ensures IsReportFor(rep, r, candidates, rows, targetYM)
  {
    var cost := HostCosts(candidates, excess, RatesOf(r), day, monthDays);
    var index, _ := Min(cost);
    rep := Report(r, candidates, cost[..], index);
  }

  /** Price a volume resource's candidates and pick the cheapest. */
  method VolumeReport(r: Resource, candidates: seq<real>, total: real,
                      ghost rows: seq<Row>, ghost targetYM: string, day: int, monthDays: int)
    returns (rep: Report)
    requires !IsHost(r) && |candidates| > 0
    requires total == VolumeSum(rows, targetYM, Column(r))
    requires day == PeriodDate(rows, targetYM).day && monthDays == MonthDays(rows, targetYM)
    ensures IsReportFor(rep, r, candidates, rows, targetYM)
  {
    var cost := VolumeCosts(r, candidates, total, day, monthDays);
    var index, _ := Min(cost);
    rep := Report(r, candidates, cost[..], index);
  }

  /** The summary row of a report: the cheapest candidate and its price. */
  function SummaryRow(rep: Report): Recommendation
    requires rep.minIndex < |rep.candidates| && rep.minIndex < |rep.costs|
  {
    Recommendation(ServiceName(rep.resource), rep.candidates[rep.minIndex], rep.costs[rep.minIndex])
  }

  /**
   * `handler` on an export already read into records (the first is the
   * header). Every candidate list must be non-empty, since `min` reads its
   * first element, every data row must have a timestamp cell, and every
   * data row of the target month must hold all the columns read from it.
   */
  method Handler(records: seq<Row>, targetYM: string, c: Candidates)
    returns (reports: seq<Report>, summary: seq<Recommendation>)
    requires |records| >= 1 && WideEnough(records[1..], targetYM)
    requires forall r :: |c.Of(r)| > 0
    ensures |reports| == |Services| && |summary| == |Services|
    ensures forall k :: 0 <= k < |Services| ==>
      IsReportFor(reports[k], Services[k], c.Of(Services[k]), records[1..], targetYM)
    ensures forall k :: 0 <= k < |Services| ==>
      && reports[k].minIndex < |reports[k].candidates| && reports[k].minIndex < |reports[k].costs|
      && summary[k] == Recommendation(ServiceName(Services[k]),
           reports[k].candidates[reports[k].minIndex], reports[k].costs[reports[k].minIndex])
  {
    ghost var rows := records[1..];
    assert |c.Of(InfraHost)| > 0 && |c.Of(APMHost)| > 0 && |c.Of(FargateTask)| > 0;
    assert |c.Of(LambdaFunction)| > 0 && |c.Of(IndexedLogs)| > 0;
    assert |c.Of(AnalyzedLogs)| > 0 && |c.Of(SyntheticsAPITest)| > 0;
    var excessInfra, excessAPM, totals, lastDay := Aggregate(records, targetYM, c.infraHost, c.apmHost);
    var lastDate := LastDate(lastDay);
    EndOfMonthIsLastDay(lastDate);
    var monthDays := EndOfMonth(lastDate).day;
    var day := lastDate.day;
    var infra := HostReport(InfraHost, c.infraHost, excessInfra, rows, targetYM, day, monthDays);
    var apm := HostReport(APMHost, c.apmHost, excessAPM, rows, targetYM, day, monthDays);
    var fargate := VolumeReport(FargateTask, c.fargateTask, totals.fargateTask, rows, targetYM, day, monthDays);
    var lambda := VolumeReport(LambdaFunction, c.lambdaFunction, totals.lambdaFunction, rows, targetYM, day, monthDays);
    var indexed := VolumeReport(IndexedLogs, c.indexedLogs, totals.indexedLogs, rows, targetYM, day, monthDays);
    var analyzed := VolumeReport(AnalyzedLogs, c.analyzedLogs, totals.analyzedLogs, rows, targetYM, day, monthDays);
    var synthetics := VolumeReport(SyntheticsAPITest, c.syntheticsAPITest, totals.syntheticsAPITest,
                                   rows, targetYM, day, monthDays);
    reports := [infra, apm, fargate, lambda, indexed, analyzed, synthetics];
    summary := [SummaryRow(infra), SummaryRow(apm), SummaryRow(fargate), SummaryRow(lambda),
                SummaryRow(indexed), SummaryRow(analyzed), SummaryRow(synthetics)];
    Tabulate(infra, apm, fargate, lambda, indexed, analyzed, synthetics, c, rows, targetYM);
    Summarise(reports, summary);
  }

  /** The seven reports in table order, each with its summary row. */
  lemma Tabulate(infra: Report, apm: Report, fargate: Report, lambda: Report, indexed: Report,
                 analyzed: Report, synthetics: Report, c: Candidates, rows: seq<Row>, targetYM: string)
    requires IsReportFor(infra, InfraHost, c.infraHost, rows, targetYM)
    requires IsReportFor(apm, APMHost, c.apmHost, rows, targetYM)
    requires IsReportFor(fargate, FargateTask, c.fargateTask, rows, targetYM)
    requires IsReportFor(lambda, LambdaFunction, c.lambdaFunction, rows, targetYM)
    requires IsReportFor(indexed, IndexedLogs, c.indexedLogs, rows, targetYM)
    requires IsReportFor(analyzed, AnalyzedLogs, c.analyzedLogs, rows, targetYM)
    requires IsReportFor(synthetics, SyntheticsAPITest, c.syntheticsAPITest, rows, targetYM)
    ensures var reports := [infra, apm, fargate, lambda, indexed, analyzed, synthetics];
      forall k :: 0 <= k < |Services| ==> IsReportFor(reports[k], Services[k], c.Of(Services[k]), rows, targetYM)
  {
    var reports := [infra, apm, fargate, lambda, indexed, analyzed, synthetics];
    forall k | 0 <= k < |Services|
      ensures IsReportFor(reports[k], Services[k], c.Of(Services[k]), rows, targetYM)
    {
      if k == 0 { assert reports[k] == infra; }
      else if k == 1 { assert reports[k] == apm; }
      else if k == 2 { assert reports[k] == fargate; }
      else if k == 3 { assert reports[k] == lambda; }
      else if k == 4 { assert reports[k] == indexed; }
      else if k == 5 { assert reports[k] == analyzed; }
      else { assert reports[k] == synthetics; }
    }
  }

  /** A summary row per report, in the reports' order. */
  lemma Summarise(reports: seq<Report>, summary: seq<Recommendation>)
    requires |reports| == |summary| == |Services|
    requires forall k :: 0 <= k < |Services| ==>
      reports[k].minIndex < |reports[k].candidates| && reports[k].minIndex < |reports[k].costs|
    requires summary == [SummaryRow(reports[0]), SummaryRow(reports[1]), SummaryRow(reports[2]),
      SummaryRow(reports[3]), SummaryRow(reports[4]), SummaryRow(reports[5]), SummaryRow(reports[6])]
    ensures forall k :: 0 <= k < |Services| ==>
      && reports[k].minIndex < |reports[k].candidates| && reports[k].minIndex < |reports[k].costs|
      && summary[k] == Recommendation(ServiceName(reports[k].resource),
           reports[k].candidates[reports[k].minIndex], reports[k].costs[reports[k].minIndex])
  {
    forall k | 0 <= k < |Services|
      ensures summary[k] == SummaryRow(reports[k])
    {
      if k == 0 {} else if k == 1 {} else if k == 2 {} else if k == 3 {}
      else if k == 4 {} else if k == 5 {} else {}
    }
  }
}
