# Pomodoro day allocation, modelled in Dafny

The program splits one working day's effort over the responsibilities that
apply on that day. A responsibility has an account, a description, a
*distribution* over dates and an *effort*. The distribution is either an
inclusive date range (`Continuous`) or a list of dates (`Discrete`). The effort
is either a fixed number of hours (`Absolute`) or a weight (`Relative`).

To allocate a day, the program does four things:

1. It keeps the responsibilities that apply on the date, in their input order.
2. It adds up the relative weights. It subtracts the absolute efforts from the
   day's total, which leaves a *balance*.
3. It jitters the relative weights once. Every weight gets a uniform offset
   from `[-min, min)`, where `min` is the smallest weight. Then the mean offset
   is subtracted from every output, so the sum stays the same.
4. It walks the relevant responsibilities in order and builds one activity for
   each:
   - an absolute effort keeps its value;
   - a relative effort takes `(weight + jitter) / total weight * balance`, and
     its jitter value is popped from the end of the jittered list;
   - every raw effort is rounded to a multiple of the resolution, with halves
     rounding up, using a remainder whose sign follows the dividend;
   - the day's total effort is accumulated as the walk goes.

There are four modules, one per source file:

| module | source file |
|---|---|
| `Responsibilities` | `src/responsibility.rs` |
| `EffortJitter` | `src/jitter.rs` |
| `Activities` | `src/activity.rs` |
| `DayAllocation` | `src/day_at_work.rs` |

Code that only computes values is modelled as functions, with lemmas about
them. The loops of `jitter` and `DayAtWork::new` are methods with loop invariants:
`EffortJitter.Jitter`, and the `DayAllocation` methods `SelectRelevant`,
`Aggregate`, `Resolve` and `New`. Each method is proved equal to a
specification function: `Jittered`, `Relevant`, the aggregate sums, `Day` and
`Allocate`. The properties are then proved about those functions.

How the program's values are modelled:

- Numbers are `real`.
- Dates are `int` day numbers. Only their order and equality are used.
- Strings are copied, not borrowed.
- Rust's floating `%` is written out as `x - y * trunc(x / y)` (`Activities.Rem`).
- The random source is modelled as a sequence of unit samples `u` in `[0, 1)`.
  One sample is drawn per offset, and the offset is `-min + 2 * min * u`. This
  is how a uniform float distribution scales its unit sample. The offset range
  `[-min, min)` is therefore proved, not assumed.

The jitter draws its offsets once; it has no redraw or retry loop
(`src/jitter.rs:26-36`).

## Model

| member | source | states |
|---|---|---|
| `EffortJitter.Min` | src/jitter.rs:15-18 | the minimum is an element of the list and is at most every element |
| `EffortJitter.Sum` | src/jitter.rs:30 | the sum of a list, accumulated from the front as the iterator's `sum` does; its bounds are `SumBounds` |
| `EffortJitter.Mean` | src/jitter.rs:32 | the correction: the sum of the offsets divided by the number of weights; `CountTimesMean` and `MeanBounds` state its properties |
| `EffortJitter.UniformSample` | src/jitter.rs:20-27 | a sample drawn for the range `[low, high)` lies in that range |
| `EffortJitter.SamplesFit` | src/jitter.rs:20-27 | what the jitter needs from its random source: one unit sample in `[0, 1)` per weight, and a positive minimum so that `Uniform`'s range `[-min, min)` is not empty |
| `EffortJitter.Scale` | src/jitter.rs:20 | a unit sample scaled to a positive width lies in `[0, width)` |
| `EffortJitter.Offsets` | src/jitter.rs:24-28 | one offset per weight, each in `[-min, min)` |
| `EffortJitter.Perturbed` | src/jitter.rs:34-36 | the corrected output has one entry per input |
| `EffortJitter.Jittered` | src/jitter.rs:30-36 | the jittered list has the length of the input |
| `EffortJitter.Jitter` | src/jitter.rs:5-39 | the method's two loops and its mean correction compute `Jittered`: empty input gives empty output, otherwise `original[i] + offset[i] - mean(offset)` for every `i` |
| `EffortJitter.JitterEmpty` | src/jitter.rs:8-10 | an empty input gives an empty output |
| `EffortJitter.CountTimesMean` | src/jitter.rs:30-32 | the length times the mean correction is the sum of the offsets |
| `EffortJitter.SumOfPerturbed` | src/jitter.rs:34-36 | subtracting a correction from every output removes `n * correction` from the sum of `original + offset` |
| `EffortJitter.CorrectionKeepsSum` | src/jitter.rs:30-36 | a correction that, taken `n` times, equals the sum of the offsets removes exactly that sum again, so the outputs keep the sum of the weights |
| `EffortJitter.JitterKeepsSum` | src/jitter.rs:30-36 | the jittered weights have the same sum as the weights (the property the unit test at line 51 states) |
| `EffortJitter.SumBounds` | src/jitter.rs:30 | the sum of `n` values from `[low, high)` lies in `[n * low, n * high)` |
| `EffortJitter.MeanBounds` | src/jitter.rs:32 | the mean of values from `[low, high)` lies in `[low, high)`, so the correction lies in `[-min, min)` |
| `EffortJitter.JitterBounded` | src/jitter.rs:20-35 | every jittered weight differs from its weight by less than `2 * min` |
| `EffortJitter.JitterSingleton` | src/jitter.rs:32-35 | a single weight comes back unchanged, whatever its sample |
| `EffortJitter.JitterCanGoNegative` | src/jitter.rs:47-55 | for the test's weights `[1.0, 2.0, 3.0, 4.0]` there are valid samples (`[0.0, 0.99, 0.99, 0.99]`) for which the first output is below zero, so the test's non-negativity check can fail |
| `EffortJitter.ExampleMin` | src/jitter.rs:15-18 | the minimum of the test's weights is 1.0 |
| `EffortJitter.ExampleOffsets` | src/jitter.rs:20-28 | those samples fit the test's weights, and their offsets are `[-1.0, 0.98, 0.98, 0.98]` |
| `EffortJitter.ExampleSum` | src/jitter.rs:30 | those offsets add up to 1.94 |
| `Activities.Trunc` | src/activity.rs:26 | truncation toward zero: below `x` by less than one for `x >= 0`, above `x` by less than one for `x < 0` |
| `Activities.Rem` | src/activity.rs:26 | Rust's floating `%`: the dividend minus the truncated quotient times the divisor; its range is stated by `RemNonNegative` and `RemNegative` |
| `Activities.RawEffort` | src/activity.rs:19-22 | an absolute effort as it stands; a relative weight as `(weight + jitter) / tot_rel_eff * bal_abs_eff` |
| `Activities.Round` | src/activity.rs:24-32 | a remainder below half a step is dropped, any other remainder is filled up to the next step; its properties are the `Round*` lemmas |
| `Activities.From` | src/activity.rs:34-37 | the activity carries the responsibility's account and description |
| `Activities.FromAbsolute` | src/activity.rs:19-20 | an absolute effort is rounded as it stands; the relative total, the balance and the jitter make no difference to the activity |
| `Activities.FromRelative` | src/activity.rs:19-21 | a relative weight takes `(weight + jitter) / tot_rel_eff * bal_abs_eff`, rounded |
| `Activities.FromRounded` | src/activity.rs:19-32 | every activity's effort is a whole number of resolution steps; for a non-negative raw effort it lies within half a step (strictly less than half a step below) |
| `Activities.RemNonNegative` | src/activity.rs:26 | the remainder of a non-negative dividend lies in `[0, resolution)` |
| `Activities.RemNegative` | src/activity.rs:26 | the remainder of a negative dividend lies in `(-resolution, 0]` |
| `Activities.RoundSteps` | src/activity.rs:26-32 | the rounded value is the truncated quotient, or one more, times the resolution |
| `Activities.MultipleOfSteps` | src/activity.rs:26-32 | a whole number of steps is a multiple of the resolution |
| `Activities.TruncWhole` | src/activity.rs:26 | truncating a whole number gives that number |
| `Activities.RoundIsMultiple` | src/activity.rs:26-32 | whatever the raw value, the result is a multiple of the resolution |
| `Activities.RoundNonNegative` | src/activity.rs:26-32 | a non-negative raw value moves by more than minus half a step and at most half a step, and stays non-negative |
| `Activities.RoundTieUp` | src/activity.rs:28-31 | a remainder of exactly half a step rounds up, because the comparison is strict |
| `Activities.RoundOfMultiple` | src/activity.rs:26-29 | a value that already is a multiple of the resolution is returned unchanged |
| `Activities.RoundIdempotent` | src/activity.rs:26-32 | rounding a rounded value changes nothing |
| `Activities.RoundNegative` | src/activity.rs:26-29 | a negative raw value always takes the first branch: it is truncated toward zero onto a step, between the raw value and zero |
| `Activities.FromAbsoluteExample` | src/activity.rs:47-61 | absolute 1.0 at resolution 0.25 gives 1.0, with the fixture's account and description |
| `Activities.FromRelativeExample` | src/activity.rs:63-77 | relative 1.0 with `tot_rel_eff` 2.0, `bal_abs_eff` 6.0 and jitter 0.0 gives 3.0 |
| `DayAllocation.Resolved` | src/day_at_work.rs:65-80 | the walk produces one activity per relevant responsibility |
| `DayAllocation.AppliesOn` | src/day_at_work.rs:31-42 | a range applies unless the date is before `alpha` or after `omega`; a list applies if it contains the date |
| `DayAllocation.Relevant` | src/day_at_work.rs:28-45 | the responsibilities that apply on the date, in input order |
| `DayAllocation.RelativeWeights` | src/day_at_work.rs:52-61 | `jitter_source`: the relative weights, in order |
| `DayAllocation.AbsoluteTotal` | src/day_at_work.rs:54 | the sum of the absolute efforts, which `bal_abs_eff` subtracts from the day's total |
| `DayAllocation.EffortTotal` | src/day_at_work.rs:77 | the sum of the activities' efforts, which `total_effort` accumulates |
| `DayAllocation.JitterArg` | src/day_at_work.rs:70-73 | the jitter value of the `k`th responsibility, without the walk: 0.0 if it is absolute, otherwise the value `j` places from the end of the stack when `j` relative ones come before it |
| `DayAllocation.Day` | src/day_at_work.rs:65-82 | the day: the activities of `Resolved`, the date, and the sum of their efforts as the total |
| `DayAllocation.Allocate` | src/day_at_work.rs:16-83 | the whole allocator: select, take the sum of the weights and the balance, jitter the weights once and resolve; `AllocateIsDay`, `AllocateShape`, `AllocatePairing` and `AllocateRounded` state its properties |
| `DayAllocation.SelectRelevant` | src/day_at_work.rs:28-45 | the filtering loop computes `Relevant`: the responsibilities that apply, in input order |
| `DayAllocation.Aggregate` | src/day_at_work.rs:47-61 | `tot_rel_eff` is the sum of the relevant relative weights, `bal_abs_eff` is the day's total minus the relevant absolute efforts (which may be negative), and `jitter_source` lists the weights in order |
| `DayAllocation.Resolve` | src/day_at_work.rs:63-80 | the pop-and-push loop computes `Day`: the activities of `Resolved`, the date, and their total effort |
| `DayAllocation.New` | src/day_at_work.rs:16-83 | the allocator computes `Allocate` for the given unit samples |
| `DayAllocation.AllocateIsDay` | src/day_at_work.rs:16-83 | the allocated day is the day resolved from the selection, its aggregates and its jittered weights |
| `DayAllocation.ResolvedStep` | src/day_at_work.rs:65-75 | one step of the walk: the activity at position `i`, then the rest with the remaining stack, popped only for a relative effort |
| `DayAllocation.TotalAfterAppend` | src/day_at_work.rs:77-79 | adding an activity and its effort keeps `total_effort` equal to the sum of the activities' efforts |
| `DayAllocation.EffortTotalAppend` | src/day_at_work.rs:77 | appending an activity adds its effort to the sum |
| `DayAllocation.RelevantAppend` | src/day_at_work.rs:30-45 | the selection distributes over concatenation: it is an order-preserving filter |
| `DayAllocation.RelativeWeightsAppend` | src/day_at_work.rs:52-61 | the weight list of a concatenation is the concatenation of the weight lists |
| `DayAllocation.RelativeWeightsCons` | src/day_at_work.rs:52-61 | the weight list of a non-empty list is the head's weight, if relative, then the tail's weights |
| `DayAllocation.RelativeWeightsSingle` | src/day_at_work.rs:53-58 | a single responsibility contributes its weight if it is relative, and nothing otherwise |
| `DayAllocation.RelativePosition` | src/day_at_work.rs:52-58 | a relative responsibility with `j` relative ones before it has its weight at index `j` of `jitter_source` |
| `DayAllocation.PositiveSum` | src/day_at_work.rs:56 | positive weights have a positive sum |
| `DayAllocation.PositiveWeightsPositiveSum` | src/day_at_work.rs:56-63 | when the jitter can draw (positive minimum), `tot_rel_eff` is positive, so no relative share divides by zero |
| `DayAllocation.ContinuousApplies` | src/day_at_work.rs:32-36 | a range applies on a date if and only if `alpha <= date <= omega`, both ends included |
| `DayAllocation.InvertedRangeNeverApplies` | src/day_at_work.rs:33 | a range with `alpha > omega` applies on no date |
| `DayAllocation.DiscreteApplies` | src/day_at_work.rs:37-41 | a list of dates applies if and only if the date is a member; two lists with the same members apply alike, whatever their order and repetitions |
| `DayAllocation.RelevantMembers` | src/day_at_work.rs:28-45 | a responsibility is selected if and only if it is in the input and applies on the date |
| `DayAllocation.RelevantSkips` | src/day_at_work.rs:28-45 | a responsibility that does not apply is dropped from the selection without a trace |
| `DayAllocation.AllocateSkips` | src/day_at_work.rs:28-80 | a responsibility that does not apply changes no sum and no activity: the day is the day without it |
| `DayAllocation.AllocateShape` | src/day_at_work.rs:22-26 | one activity per relevant responsibility, `date` is the input date, and `total_effort` is the sum of the activities' efforts |
| `DayAllocation.ResolvedAt` | src/day_at_work.rs:65-75 | the `k`th activity of the walk is the `k`th responsibility resolved with jitter 0.0 if it is absolute, or with the value `j` places from the end of the stack if it is relative and has `j` relative ones before it |
| `DayAllocation.JitterArgShift` | src/day_at_work.rs:70-73 | after the first responsibility, the remaining stack assigns every later responsibility the same value as the whole stack does |
| `DayAllocation.AllocatePairing` | src/day_at_work.rs:63-75 | the `k`th activity of the day is `Activity::from` of the `k`th relevant responsibility, the day's aggregates and that jitter value: 0.0 for an absolute effort, and index `r - 1 - j` of the jittered weights for the `j`th of `r` relative ones |
| `DayAllocation.ResolvedRounded` | src/day_at_work.rs:65-79 | every activity of the walk carries its responsibility's account and description and a multiple of the resolution |
| `DayAllocation.AllocateRounded` | src/day_at_work.rs:65-79 | every activity of the day carries its responsibility's account and description and a multiple of the resolution |
| `DayAllocation.RelativeRawTotalIs` | src/day_at_work.rs:72 | the raw shares of the relative entries add up to `(sum of weights + sum of jitter values) / tot_rel_eff * bal_abs_eff` |
| `DayAllocation.RelativeRawTotalAbsolute` | src/day_at_work.rs:71 | an absolute entry adds no relative share |
| `DayAllocation.RelativeRawTotalRelative` | src/day_at_work.rs:72 | a relative entry adds its weight and its popped value to the shares |
| `DayAllocation.RelativeRawTotalStep` | src/day_at_work.rs:72 | a relative entry's share is `(weight + popped value) / tot_rel_eff * bal_abs_eff` |
| `DayAllocation.RelativeRawTotal` | src/day_at_work.rs:65-75 | the running total of the relative raw efforts along the walk, popping the stack as the walk does |
| `DayAllocation.SharesFrom` | src/day_at_work.rs:70-72 | the sum, over the relative entries from index `lo` on, of each raw effort taken with its `JitterArg` value |
| `DayAllocation.SharesFromShift` | src/day_at_work.rs:70-73 | after the first responsibility, the shares of the rest with the remaining stack are the shares of the whole |
| `DayAllocation.RelativeRawTotalShares` | src/day_at_work.rs:65-75 | the walk's running total equals the closed-form sum of each relative raw effort taken with its `JitterArg` value, so the pop order and the closed form agree |
| `DayAllocation.SumCons` | src/day_at_work.rs:56 | the sum of a list with a weight in front is that weight plus the sum of the list |
| `DayAllocation.DoubledBalance` | src/day_at_work.rs:63-72 | each relative entry gets its full jittered weight, not an offset, and the jitter keeps the sum, so the relative raw efforts of a day add up to twice `bal_abs_eff` |
| `DayAllocation.NewExample` | src/day_at_work.rs:91-124 | for the unit test's day (2023-01-01, 8.0 hours, resolution 0.25, the team meeting and the timesheet) and any sample, the code yields efforts 1.0 and 14.0 and a total of 15.0 |
| `DayAllocation.ExampleAggregates` | src/day_at_work.rs:28-61 | on 2023-01-01 both fixtures apply, the weights are `[1.0]` and the absolute total is 1.0 |
| `DayAllocation.ExampleDay` | src/day_at_work.rs:63-80 | with total 1.0, balance 7.0 and jittered weights `[1.0]`, the walk gives 1.0 and 14.0, with a total of 15.0 |

## Left out

- `src/main.rs` is not part of this model. It reads arguments, opens and parses the YAML file, parses the date and prints the result: all of that is I/O. Its constants 8.0 and 0.25 appear only as example values.
- Deserialization (the serde derives and tag attributes) is left out. So are the YAML fixtures the tests load. `Activities.TeamMeetings` and `Activities.PrepareTimesheet` restate the fixtures' contents as given in the tests. The timesheet's range (2023-01-01 to 2023-12-31) and its weight 1.0 are sample values, because the fixture file is not part of this model.
- Random number generation (`ThreadRng`, `Uniform`) is replaced by the `samples` parameter of unit samples.
- `Uniform` panics on an empty range, that is, when the smallest weight is not positive. This is the precondition `SamplesFit` (a positive minimum).
- The `unwrap` of the NaN comparison in the minimum is left out. Reals have no NaN.
- IEEE-754 rounding error is left out. The model computes in exact reals, so the sum the test at `src/jitter.rs:51` compares is exactly equal.
- The test at `src/jitter.rs:53-55` checks that every jittered weight is non-negative. This does not follow from the code: a weight can drop below zero, and `JitterCanGoNegative` gives valid samples for the test's own weights that do it. The model proves the bound `JitterBounded` instead.
- The unit test of `DayAtWork::new` expects 7.0 and a total of 8.0 (`src/day_at_work.rs:101-126`). That expectation disagrees with the code. The single relative weight comes back unchanged from the jitter, and it is passed to `Activity::from` as the jitter value, so the code gives 14.0 and 15.0. The model follows the code (`NewExample`).
- The `absolute_effort` of an activity is not always non-negative. A balance below zero gives a negative relative share, which is rounded toward zero (`RoundNegative`).
- A resolution of zero or less is excluded by precondition. Rust would produce NaN or a meaningless rounding there.
- A relative effort with `tot_rel_eff` equal to 0 is excluded by precondition in `Activities.From`. In the allocator it cannot happen, because the jitter's precondition makes every weight positive.
- Rust lifetimes and borrowing are left out: an activity copies its account and description strings.
- `chrono` dates become day numbers. Only comparison and membership are used.
- `DayAtWork` is a datatype. The allocator's local `day` is rebuilt by field update instead of being mutated in place, and `New`'s three loops are three helper methods called in order. The `pop` from the jittered list becomes a dropped last element. `Resolve` takes that list as a precondition of matching length, which is why the pop never fails.
