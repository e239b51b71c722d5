# Datadog commit calculator: a verified model of its core

The program reads a Datadog usage export (one CSV row per hour) and, for a
target month `yyyy-mm`, works out which monthly commitment is cheapest for
each of seven billable resources: Infra hosts, APM hosts, Fargate tasks,
Lambda functions, indexed logs, analyzed logs and Synthetics API tests. Each
resource has a `--commit-*` flag. The flag gives candidate commitments such as
`"1-3,7"`, which expands to 1, 2, 3, 7. Each candidate is priced with the
month-to-month price list, and the first cheapest candidate is reported in a
summary table.

The model follows `main.go` piece by piece:

| module | file | what it models |
|---|---|---|
| `Options` | options.dfy | an `Option` type |
| `Strings` | strings.dfy | Go's `strings.Split` with a one-character separator, and its inverse `Join` |
| `Numbers` | numbers.dfy | `strconv.ParseFloat` on decimal literals, with an ignored error giving 0 |
| `Ranges` | ranges.dfy | `getRange` as a method with its loops, and `Expand`, the function that specifies it |
| `Selection` | selection.dfy | `min` as a method over an array |
| `Calendar` | calendar.dfy | `time.Parse` of the export's timestamps, and `AddDate(0, 1, -day)` on the Gregorian calendar |
| `Usage` | usage.dfy | the record loop of `handler`: period filter, per-candidate excess hours, volume totals and `lastDay` |
| `Pricing` | pricing.dfy | the price constants and the host and volume cost formulas |
| `Recommend` | recommend.dfy | `init`'s range set-up, and `handler` from the aggregated export to the seven reports and the summary rows |

The Go code is imperative, and so is the model:
- `GetRange`, `Min`, `Aggregate` and the price loops are methods with loops and invariants.
- The excess-hour slices are arrays that the loop updates in place.
- Each method is proved against a specification function: `Expand`, `IsFirstMin`, `ExcessSum`, `VolumeSum`, `FirstStamp`, `CostVector`.
- The properties promised about the program are lemmas about those functions.

Go `float64` values are modelled as Dafny `real`, so all arithmetic is exact.

## Model

| member | source | states |
|---|---|---|
| Strings.JoinSplit | main.go:406-408 | joining the pieces of `strings.Split` with the separator gives the original string back |
| Strings.SplitJoin | main.go:406-408 | splitting parts that do not contain the separator, once joined, gives the parts back |
| Strings.SplitWithoutSeparator | main.go:406-408 | a string without the separator splits into itself alone (so `""` gives `[""]`) |
| Strings.SplitConcat | main.go:406-408 | splitting `a + sep + b` gives the pieces of `a` followed by the pieces of `b` |
| Numbers.ParseNatLiteral | main.go:412 | the decimal spelling of a natural number parses to that number |
| Numbers.ParseDecimalLiteral | main.go:412 | `whole.fraction` parses to the value of the whole digits plus the fraction digits scaled by 10^-len |
| Numbers.ParseNumberNonNegative | main.go:412-417 | a cell without a minus sign never parses to a negative value |
| Ranges.GetRange | main.go:403-432 | the method's result is `Expand(t)`: the values of each comma-separated token, concatenated in order |
| Ranges.AppendToken | main.go:408-429 | one pass of the outer loop appends exactly the token's values, or reports that the loop never returns |
| Ranges.AppendSteps | main.go:422-429 | the stepping loop appends `first, first + 1, ..., last` when `last - first` is a whole number |
| Ranges.ExpandEmpty | main.go:412-416 | `getRange("")` is `[0]`: the empty token fails to parse and contributes 0 |
| Ranges.ExpandNumber | main.go:412-416 | a single-number token gives exactly that number |
| Ranges.ExpandUnparseable | main.go:412-416 | a single token without `,` or `-` that `ParseFloat` rejects gives `[0]`, because the error is ignored |
| Ranges.ExpandPair | main.go:417-429 | `a-b` with `a <= b` gives the `b - a + 1` values `a, a + 1, ..., b` in ascending order; `a > b` gives nothing |
| Ranges.ExpandConcat | main.go:406-407 | the expansion of `s1,s2` is the expansion of `s1` followed by that of `s2` |
| Ranges.ConcatStopsAt | main.go:423-429 | a token whose stepping loop does not return stops the whole call from returning |
| Ranges.TokenValuesNonNegative | main.go:408-429 | a single token never yields a negative value, because a `-` always separates bounds |
| Ranges.ExpandNonNegative | main.go:403-432 | every candidate commitment produced is non-negative |
| Ranges.ExpandNumberExample | main.go:413-416 | `"3"` gives `[3]` |
| Ranges.ExpandPairExample | main.go:417-429 | `"1-3"` gives `[1, 2, 3]` |
| Ranges.ExpandReversedExample | main.go:418-420 | `"5-2"` is dropped and gives `[]` |
| Ranges.ExpandListExample | main.go:406-429 | `"1-3,7"` gives `[1, 2, 3, 7]` |
| Ranges.ExpandFractionalExample | main.go:422-429 | `"0.5-2.5"` gives `[0.5, 1.5, 2.5]` |
| Ranges.ExpandDivergentExample | main.go:423-429 | for `"1.5-4"` the stepping loop never meets the upper bound, so the call does not return |
| Ranges.ParseFractionExamples | main.go:412-417 | `"0.5"`, `"2.5"`, `"1.5"` and `"4"` parse to 0.5, 2.5, 1.5 and 4 |
| Selection.Min | main.go:434-444 | the index is the first minimum of the array (in bounds, no element smaller, every earlier element larger) and the returned value is the element there |
| Selection.FirstMinUnique | main.go:434-443 | there is only one first minimum, so `min`'s answer is determined by the slice |
| Calendar.DaysInMonth | main.go:189 | a month has 28 to 31 days, and February has 29 exactly in a leap year |
| Calendar.ParseTimestamp | main.go:188 | a parse that succeeds gives a real calendar date |
| Calendar.ParseOneDigitHourExample | main.go:188 | `"2021-03-15 7:00:00"`, with a one-digit hour, parses to 15 March 2021 |
| Calendar.ParseSpacedExample | main.go:188 | `"2021-03-15  07:00:00"`, with two spaces before the clock, parses to 15 March 2021 |
| Calendar.ParseFractionalSecondExample | main.go:188 | `"2021-03-15 07:00:00.5"`, with a fractional second, parses to 15 March 2021 |
| Calendar.LastDate | main.go:188 | `lastDate`, the zero time on failure, is always a real date |
| Calendar.EndOfMonthIsLastDay | main.go:189 | `AddDate(0, 1, -day)` gives the same month's last day: on or after `day`, with no valid date after it |
| Calendar.ElapsedShareBounds | main.go:194 | the host factor `day / monthDays` lies in (0, 1] and is 1 exactly on the month's last day |
| Calendar.EmptyLastDay | main.go:188-189 | with no in-period row, the zero time gives day 1 of a 31-day month, a factor of 1/31 |
| Calendar.ParseFormatted | main.go:188 | every real date of years 0 to 9999, written in the export's layout, parses back to that date |
| Usage.Aggregate | main.go:128-186 | after the loop, each excess array is, index for index, the in-period sum of `max(0, count - commit)`; the five running sums are the in-period totals; `lastDay` is `FirstStamp`, the first in-period timestamp |
| Usage.AddHostHours | main.go:158-170 | an in-period record moves both excess arrays from the first n rows to the first n + 1 |
| Usage.AddExcess | main.go:159-163 | the candidate loop adds `count - commit` exactly where it is positive |
| Usage.AddVolumes | main.go:172-185 | an in-period record adds its five volume cells to the running sums |
| Usage.ExcessSumNonNegative | main.go:158-163 | every excess entry is >= 0 |
| Usage.ExcessSumZero | main.go:158-163 | an entry is 0 exactly when the candidate covers every in-period count (both directions) |
| Usage.ExcessSumAntitone | main.go:158-163 | a larger candidate never has more excess hours |
| Usage.FirstStampIsFirst | main.go:141-156 | for a non-empty month key, `lastDay` is the timestamp of the first in-period row in file order |
| Usage.FirstStampNone | main.go:154-156 | with no in-period row, `lastDay` stays empty |
| Pricing.RatesOf | main.go:43-67 | every committed and overage rate is positive |
| Pricing.Clamp | main.go:236-238 | the clamped excess is >= 0 and >= the raw excess, and equals it when that is already >= 0 |
| Pricing.HostCostNonNegative | main.go:194-196 | a host price is >= 0 for a non-negative commitment and non-negative excess |
| Pricing.VolumeCostNonNegative | main.go:234-241 | a volume price is >= 0 for a non-negative commitment |
| Pricing.VolumeCostIncreaseBounded | main.go:234-241 | raising a volume commitment by d raises its price by at most d times the committed rate |
| Pricing.VolumeCostDecreaseBounded | main.go:234-241 | when overage costs at most twice the committed rate, raising a volume commitment by d lowers its price by at most d times the committed rate |
| Pricing.HostCostIncreaseBounded | main.go:194-196 | raising a host commitment by d, where the excess can only fall, raises its price by at most d times the committed rate |
| Pricing.HostCostFallUnbounded | main.go:194-196 | for hosts the price can fall by more: 10 more Infra hosts on day 1 of 31 cost 180/31 but can save 7000 excess host-hours, 210 |
| Pricing.VolumeCostLeastAtQuantity | main.go:234-241 | when overage is dearer than commitment, committing exactly the quantity is the cheapest non-negative choice |
| Pricing.VolumeOverageDearer | main.go:53-66 | every volume kind charges more per overage unit than per committed unit, and at most twice as much |
| Pricing.HostCostWithoutOverage | main.go:194-196 | with no excess hours, a host candidate costs its committed price times `day / monthDays` |
| Pricing.HostCostAtMonthEnd | main.go:194-196 | on the last day of the month, the committed term is the plain monthly price |
| Pricing.ProjectionAtMonthEnd | main.go:282-339 | on the last day of the month, the projection to a full month leaves the unit-converted total unscaled |
| Recommend.Init | main.go:94-100 | the seven candidate lists are the expansions of the seven flags, and set-up finishes exactly when every expansion returns |
| Recommend.MonthDays | main.go:188-189 | the month length is positive and at least the day of `lastDate` |
| Recommend.HostShareIsElapsedShare | main.go:188-194 | the host factor `day / monthDays` is the elapsed share of the period date's month: in (0, 1], and 1 exactly on the last day |
| Recommend.HostCosts | main.go:192-197 | the host price loop fills each entry with the committed term scaled by `day / monthDays`, plus the hourly overage on its excess |
| Recommend.VolumeCosts | main.go:232-242 | the volume price loop fills each entry with the committed price plus the overage on the clamped excess of the quantity |
| Recommend.HostReport | main.go:192-198 | a host resource's report holds its `CostVector` and the first cheapest index |
| Recommend.VolumeReport | main.go:232-243 | a volume resource's report holds its `CostVector` and the first cheapest index |
| Recommend.CostVectorNonNegative | main.go:192-339 | every cost vector entry of a non-negative candidate is >= 0 |
| Recommend.CostRaiseBounded | main.go:192-339 | in any cost vector, a larger candidate costs at most the extra commitment, at the committed rate, more |
| Recommend.CostFallBounded | main.go:232-339 | in a volume resource's cost vector, a larger candidate costs at most the extra commitment, at the committed rate, less |
| Recommend.HostCostWithoutExcess | main.go:192-197 | a host candidate that covers every in-period count is charged no overage |
| Recommend.HostCostOnLastDay | main.go:192-197 | on the month's last day, a host candidate costs its full monthly price plus its excess hours at the hourly rate |
| Recommend.Handler | main.go:113-389 | for each of the seven resources, in table order: the report prices every candidate with that resource's formula over the in-period rows and marks the first cheapest; the summary row is `(range[minIndex], cost[minIndex])` |

## Left out

- Reading the CSV file, the `csv` reader and its fatal error paths are not modelled. `Handler` takes the records already read.
- Flag parsing is not modelled. `Init` is given the flag strings.
- The default of `targetYM` from `time.Now()` and the setting of `time.Local` are not modelled. `targetYM` is a parameter.
- Console output, colours, the table writer and `FormatFloat`'s display rounding are not modelled. `Handler` returns the reports and the summary rows that would be printed.
- Floating point is not modelled. Go's float64 rounding is replaced by exact `real` arithmetic. In particular, the stepping loop's `i == last` is exact.
- `strconv.ParseFloat` is modelled only on decimal literals: an optional sign, digits, and an optional point and digits. Exponents, `inf`, `nan`, hexadecimal and underscore forms are treated like any other unparseable text, as 0.
- `time.Parse` is modelled on the one layout the program uses. Year, month, day, minute and second are fixed-width digit fields, one or more spaces separate the date from the clock, the hour has one or two digits, and a fractional second may follow the seconds. Time zones are not modelled, because only the day of the month is used.
- Calendar.ParseTimestamp: the model rejects a year whose four characters are not all digits. Some Go versions accept a leading sign there.
- Ranges.GetRange: a pair whose bounds do not differ by a whole number makes the Go loop run forever. The model returns `None` for it, meaning "does not return", instead of diverging.
- Recommend.Handler: it requires at least one record (`records[1:]` panics on an empty file), every candidate list to be non-empty (`min` reads the first element), every data row to have a timestamp cell, and every row of the target month to hold the 23 columns read from it. In Go, breaking any of these is an index panic.
- Calendar.EmptyLastDay: the code does not guard a month with no in-period row. It then prices hosts at 1/31 of the month, from the zero time, and the volume quantities are divided by day 1. The model keeps this behaviour.
- Recommend.CostRaiseBounded: an entry can grow by at most the extra commitment at the committed rate. The matching lower bound, `Recommend.CostFallBounded`, holds only for the volume kinds, whose overage rate is at most twice the committed one. For hosts, an hour's overage is charged against a month's commitment, so the saving can be much larger (`Pricing.HostCostFallUnbounded`).
