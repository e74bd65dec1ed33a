/** The allocation of one day: select the responsibilities that apply on the
    date, add up the relative weights and subtract the absolute efforts from the
    day's total, jitter the relative weights once, and resolve one activity per
    selected responsibility while accumulating the day's total effort. */
module DayAllocation {
  import opened Responsibilities
  import opened Activities
  import opened EffortJitter

  datatype DayAtWork = DayAtWork(activities: seq<Activity>, date: Date, totalEffort: real)

  /** Whether a distribution applies on a date: inside the range, or listed. */
  predicate AppliesOn(d: Distribution, date: Date)
  {
    match d
    case Continuous(alpha, omega) => !(date < alpha || date > omega)
    case Discrete(dates) => date in dates
  }

  /** The responsibilities that apply on `date`, in their input order. */
  function Relevant(rs: seq<Responsibility>, date: Date): seq<Responsibility>
  {
    if rs == [] then []
    else
      var r := rs[|rs| - 1];
      Relevant(rs[..|rs| - 1], date) + (if AppliesOn(r.distribution, date) then [r] else [])
  }

  /** The relative weights, in order: the source list of the jitter. */
  function RelativeWeights(rs: seq<Responsibility>): seq<real>
  {
    if rs == [] then []
    else
      var r := rs[|rs| - 1];
      RelativeWeights(rs[..|rs| - 1]) + (if r.effort.Relative? then [r.effort.weight] else [])
  }

  /** The sum of the absolute efforts. */
  function AbsoluteTotal(rs: seq<Responsibility>): real
  {
    if rs == [] then 0.0
    else
      var r := rs[|rs| - 1];
      AbsoluteTotal(rs[..|rs| - 1]) + (if r.effort.Absolute? then r.effort.value else 0.0)
  }

  /** The sum of the efforts of a list of activities. */
  function EffortTotal(activities: seq<Activity>): real
  {
    if activities == [] then 0.0
    else EffortTotal(activities[..|activities| - 1]) + activities[|activities| - 1].absoluteEffort
  }

  /** The activities of the relevant responsibilities, in order, as the
      allocator resolves them: walking forward, an absolute effort gets a jitter
      of 0.0, a relative one gets the value popped from the end of the stack of
      jittered weights. */
  function Resolved(rel: seq<Responsibility>, totRelEff: real, balAbsEff: real,
                    stack: seq<real>, resolution: real): (acts: seq<Activity>)
    requires |stack| == |RelativeWeights(rel)|
    requires |RelativeWeights(rel)| > 0 ==> totRelEff != 0.0
    requires resolution > 0.0
    ensures |acts| == |rel|
    decreases |rel|
  {
    if rel == [] then []
    else
      RelativeWeightsCons(rel);
      var r := rel[0];
      if r.effort.Absolute? then
        [From(r, totRelEff, balAbsEff, 0.0, resolution)]
          + Resolved(rel[1..], totRelEff, balAbsEff, stack, resolution)
      else
        [From(r, totRelEff, balAbsEff, stack[|stack| - 1], resolution)]
          + Resolved(rel[1..], totRelEff, balAbsEff, stack[..|stack| - 1], resolution)
  }

  /** The jitter value the k-th relevant responsibility receives, in closed
      form: 0.0 for an absolute effort, and for the relative effort that has j
      relative ones before it, the j-th value counted from the end. */
  function JitterArg(rel: seq<Responsibility>, k: int, stack: seq<real>): real
    requires 0 <= k < |rel| && |stack| == |RelativeWeights(rel)|
  {
    if rel[k].effort.Absolute? then 0.0
    else
      RelativePosition(rel, k);
      stack[|stack| - 1 - |RelativeWeights(rel[..k])|]
  }

  /** The day resolved from the relevant responsibilities, the aggregates and
      the jittered weights. */
  function Day(date: Date, rel: seq<Responsibility>, totRelEff: real, balAbsEff: real,
               stack: seq<real>, resolution: real): DayAtWork
    requires |stack| == |RelativeWeights(rel)|
    requires |RelativeWeights(rel)| > 0 ==> totRelEff != 0.0
    requires resolution > 0.0
  {
    var acts := Resolved(rel, totRelEff, balAbsEff, stack, resolution);
    DayAtWork(acts, date, EffortTotal(acts))
  }

  /** The day the allocator computes, as a function of its inputs and of the
      unit samples its jitter draws. */
  function Allocate(date: Date, totAbsEff: real, resolution: real,
                    responsibilities: seq<Responsibility>, samples: seq<real>): DayAtWork
    requires resolution > 0.0
    requires SamplesFit(RelativeWeights(Relevant(responsibilities, date)), samples)
  {
    var rel := Relevant(responsibilities, date);
    var weights := RelativeWeights(rel);
    PositiveWeightsPositiveSum(weights);
    Day(date, rel, Sum(weights), totAbsEff - AbsoluteTotal(rel), Jittered(weights, samples), resolution)
  }

  /** The first loop of the allocator: keep the responsibilities whose
      distribution applies on the date. */
  method SelectRelevant(responsibilities: seq<Responsibility>, date: Date)
    returns (relevant: seq<Responsibility>)
    ensures relevant == Relevant(responsibilities, date)
  {
    relevant := [];
    for i := 0 to |responsibilities|
      invariant relevant == Relevant(responsibilities[..i], date)
    {
      var r := responsibilities[i];
      assert responsibilities[..i + 1][..i] == responsibilities[..i];
      match r.distribution {
        case Continuous(alpha, omega) =>
          if date < alpha || date > omega {
            continue;
          }
        case Discrete(dates) =>
          if date !in dates {
            continue;
          }
      }
      relevant := relevant + [r];
    }
    assert responsibilities[..|responsibilities|] == responsibilities;
  }

  /** The second loop of the allocator: add up the relative weights, subtract
      the absolute efforts from the day's total, and collect the weights. */
  method Aggregate(relevant: seq<Responsibility>, totAbsEff: real)
    returns (totRelEff: real, balAbsEff: real, jitterSource: seq<real>)
    ensures jitterSource == RelativeWeights(relevant)
    ensures totRelEff == Sum(RelativeWeights(relevant))
    ensures balAbsEff == totAbsEff - AbsoluteTotal(relevant)
  {
    totRelEff := 0.0;
    balAbsEff := totAbsEff;
    jitterSource := [];
    for i := 0 to |relevant|
      invariant jitterSource == RelativeWeights(relevant[..i])
      invariant totRelEff == Sum(jitterSource)
      invariant balAbsEff == totAbsEff - AbsoluteTotal(relevant[..i])
    {
      assert relevant[..i + 1][..i] == relevant[..i];
      match relevant[i].effort {
        case Absolute(effort) =>
          balAbsEff := balAbsEff - effort;
        case Relative(effort) =>
          totRelEff := totRelEff + effort;
          jitterSource := jitterSource + [effort];
      }
    }
    assert relevant[..|relevant|] == relevant;
  }

  /** The third loop of the allocator: walk the relevant responsibilities in
      order, pop a jitter value from the end for each relative one (0.0 for an
      absolute one), resolve its activity and add its effort to the day. */
  method Resolve(date: Date, relevant: seq<Responsibility>, totRelEff: real, balAbsEff: real,
                 effortJitter: seq<real>, resolution: real) returns (day: DayAtWork)
    requires |effortJitter| == |RelativeWeights(relevant)|
    requires |RelativeWeights(relevant)| > 0 ==> totRelEff != 0.0
    requires resolution > 0.0
    ensures day == Day(date, relevant, totRelEff, balAbsEff, effortJitter, resolution)
  {
    day := DayAtWork([], date, 0.0);
    var remaining := effortJitter;
    for i := 0 to |relevant|
      invariant |remaining| == |RelativeWeights(relevant[i..])| <= |RelativeWeights(relevant)|
      invariant day.activities + Resolved(relevant[i..], totRelEff, balAbsEff, remaining, resolution)
             == Resolved(relevant, totRelEff, balAbsEff, effortJitter, resolution)
      invariant day.date == date
      invariant day.totalEffort == EffortTotal(day.activities)
    {
      var r := relevant[i];
      ResolvedStep(relevant, i, totRelEff, balAbsEff, remaining, resolution);
      var jitter: real;
      ghost var before := remaining;
      match r.effort {
        case Absolute(_) =>
          jitter := 0.0;
        case Relative(_) =>
          jitter := remaining[|remaining| - 1];
          remaining := remaining[..|remaining| - 1];
      }
      var activity := From(r, totRelEff, balAbsEff, jitter, resolution);
      ghost var rest := Resolved(relevant[i + 1..], totRelEff, balAbsEff, remaining, resolution);
      assert [activity] + rest == Resolved(relevant[i..], totRelEff, balAbsEff, before, resolution);
      AppendAssociative(day.activities, [activity], rest);
      ghost var previous := day;
      day := day.(totalEffort := day.totalEffort + activity.absoluteEffort);
      day := day.(activities := day.activities + [activity]);
      TotalAfterAppend(previous, activity, day);
    }
    assert day.activities == Resolved(relevant, totRelEff, balAbsEff, effortJitter, resolution);
  }

  /** The allocator: select the relevant responsibilities, aggregate their
      efforts, jitter the relative weights once, and resolve the activities. */
  method New(date: Date, totAbsEff: real, resolution: real,
             responsibilities: seq<Responsibility>, samples: seq<real>) returns (day: DayAtWork)
    requires resolution > 0.0
    requires SamplesFit(RelativeWeights(Relevant(responsibilities, date)), samples)
    ensures day == Allocate(date, totAbsEff, resolution, responsibilities, samples)
  {
    var relevant := SelectRelevant(responsibilities, date);
    var totRelEff, balAbsEff, jitterSource := Aggregate(relevant, totAbsEff);
    var effortJitter := Jitter(jitterSource, samples);
    PositiveWeightsPositiveSum(jitterSource);
    day := Resolve(date, relevant, totRelEff, balAbsEff, effortJitter, resolution);
    AllocateIsDay(date, totAbsEff, resolution, responsibilities, samples, relevant,
                  totRelEff, balAbsEff, effortJitter);
  }

  /** The allocated day is the day resolved from the selection, its aggregates
      and its jittered weights. */
  lemma {:induction false} AllocateIsDay(date: Date, totAbsEff: real, resolution: real,
                      responsibilities: seq<Responsibility>, samples: seq<real>,
                      relevant: seq<Responsibility>, totRelEff: real, balAbsEff: real,
                      effortJitter: seq<real>)
    requires resolution > 0.0
    requires relevant == Relevant(responsibilities, date)
    requires SamplesFit(RelativeWeights(relevant), samples)
    requires totRelEff == Sum(RelativeWeights(relevant))
    requires balAbsEff == totAbsEff - AbsoluteTotal(relevant)
    requires effortJitter == Jittered(RelativeWeights(relevant), samples)
    requires |RelativeWeights(relevant)| > 0 ==> totRelEff != 0.0
    ensures Allocate(date, totAbsEff, resolution, responsibilities, samples)
         == Day(date, relevant, totRelEff, balAbsEff, effortJitter, resolution)
  {
  }

  // Lemmas about the selection and the weights.

  /** One step of the walk: the activity at position i, then the rest with the
      remaining stack. */
  lemma {:induction false} ResolvedStep(rel: seq<Responsibility>, i: int, totRelEff: real, balAbsEff: real,
                     stack: seq<real>, resolution: real)
    requires 0 <= i < |rel|
    requires |stack| == |RelativeWeights(rel[i..])|
    requires |RelativeWeights(rel)| > 0 ==> totRelEff != 0.0
    requires resolution > 0.0
    ensures |RelativeWeights(rel[i..])| == |RelativeWeights(rel[i + 1..])| + (if rel[i].effort.Relative? then 1 else 0)
    ensures |RelativeWeights(rel[i..])| <= |RelativeWeights(rel)|
    ensures rel[i].effort.Absolute? ==>
      Resolved(rel[i..], totRelEff, balAbsEff, stack, resolution)
        == [From(rel[i], totRelEff, balAbsEff, 0.0, resolution)]
           + Resolved(rel[i + 1..], totRelEff, balAbsEff, stack, resolution)
    ensures rel[i].effort.Relative? ==>
      Resolved(rel[i..], totRelEff, balAbsEff, stack, resolution)
        == [From(rel[i], totRelEff, balAbsEff, stack[|stack| - 1], resolution)]
           + Resolved(rel[i + 1..], totRelEff, balAbsEff, stack[..|stack| - 1], resolution)
  {
    RelativeWeightsCons(rel[i..]);
    assert rel[i..][1..] == rel[i + 1..];
    assert rel == rel[..i] + rel[i..];
    RelativeWeightsAppend(rel[..i], rel[i..]);
  }

  lemma AppendAssociative<T>(a: seq<T>, b: seq<T>, c: seq<T>)
    ensures a + b + c == a + (b + c)
  {
  }

  /** Adding an activity and its effort keeps the day's total in step. */
  lemma {:induction false} TotalAfterAppend(before: DayAtWork, a: Activity, after: DayAtWork)
    requires before.totalEffort == EffortTotal(before.activities)
    requires after.activities == before.activities + [a]
    requires after.totalEffort == before.totalEffort + a.absoluteEffort
    ensures after.totalEffort == EffortTotal(after.activities)
  {
    EffortTotalAppend(before.activities, a);
  }

  lemma EffortTotalAppend(activities: seq<Activity>, a: Activity)
    ensures EffortTotal(activities + [a]) == EffortTotal(activities) + a.absoluteEffort
  {
    assert (activities + [a])[..|activities|] == activities;
  }

  /** Relevance distributes over concatenation: the selection is a filter. */
  lemma {:induction false} RelevantAppend(a: seq<Responsibility>, b: seq<Responsibility>, date: Date)
    ensures Relevant(a + b, date) == Relevant(a, date) + Relevant(b, date)
  {
    if b != [] {
      assert (a + b)[..|a + b| - 1] == a + b[..|b| - 1];
      RelevantAppend(a, b[..|b| - 1], date);
    } else {
      assert a + b == a;
    }
  }

  /** The relative weights of a concatenation are the concatenated weights. */
  lemma {:induction false} RelativeWeightsAppend(a: seq<Responsibility>, b: seq<Responsibility>)
    ensures RelativeWeights(a + b) == RelativeWeights(a) + RelativeWeights(b)
  {
    if b != [] {
      assert (a + b)[..|a + b| - 1] == a + b[..|b| - 1];
      RelativeWeightsAppend(a, b[..|b| - 1]);
    } else {
      assert a + b == a;
    }
  }

  /** The relative weights of a non-empty list: those of its head, then of its tail. */
  lemma RelativeWeightsCons(rs: seq<Responsibility>)
    requires |rs| > 0
    ensures RelativeWeights(rs)
         == (if rs[0].effort.Relative? then [rs[0].effort.weight] else []) + RelativeWeights(rs[1..])
  {
    assert rs == [rs[0]] + rs[1..];
    RelativeWeightsAppend([rs[0]], rs[1..]);
    RelativeWeightsSingle(rs[0]);
  }

  lemma RelativeWeightsSingle(r: Responsibility)
    ensures RelativeWeights([r]) == if r.effort.Relative? then [r.effort.weight] else []
  {
    assert [r][..0] == [];
  }

  /** A relative responsibility at position k has as many relative ones before it
      as its index in the weights, and its weight sits at that index. */
  lemma RelativePosition(rel: seq<Responsibility>, k: int)
    requires 0 <= k < |rel|
    ensures |RelativeWeights(rel[..k])| + (if rel[k].effort.Relative? then 1 else 0)
         <= |RelativeWeights(rel)|
    ensures rel[k].effort.Relative? ==>
      RelativeWeights(rel)[|RelativeWeights(rel[..k])|] == rel[k].effort.weight
  {
    assert rel == rel[..k] + [rel[k]] + rel[k + 1..];
    RelativeWeightsAppend(rel[..k] + [rel[k]], rel[k + 1..]);
    RelativeWeightsAppend(rel[..k], [rel[k]]);
    assert [rel[k]][..0] == [];
  }

  /** Positive weights have a positive sum. */
  lemma {:induction false} PositiveSum(s: seq<real>)
    requires |s| > 0
    requires forall i :: 0 <= i < |s| ==> s[i] > 0.0
    ensures Sum(s) > 0.0
  {
    if |s| > 1 {
      PositiveSum(s[..|s| - 1]);
    }
  }

  /** When the jitter can draw, the relative weights sum to a positive total, so
      the relative shares never divide by zero. */
  lemma PositiveWeightsPositiveSum(weights: seq<real>)
    ensures |weights| > 0 && Min(weights) > 0.0 ==> Sum(weights) > 0.0
  {
    if |weights| > 0 && Min(weights) > 0.0 {
      PositiveSum(weights);
    }
  }

  // The selection.

  /** A range applies on exactly the dates from its start to its end, both
      included. */
  lemma ContinuousApplies(alpha: Date, omega: Date, date: Date)
    ensures AppliesOn(Continuous(alpha, omega), date) <==> alpha <= date <= omega
  {
  }

  /** Nothing orders the ends of a range: an inverted one applies on no date. */
  lemma InvertedRangeNeverApplies(alpha: Date, omega: Date, date: Date)
    requires alpha > omega
    ensures !AppliesOn(Continuous(alpha, omega), date)
  {
  }

  /** A list of dates applies on its members; neither order nor repetition
      matters. */
  lemma DiscreteApplies(dates: seq<Date>, others: seq<Date>, date: Date)
    requires forall d :: d in dates <==> d in others
    ensures AppliesOn(Discrete(dates), date) <==> date in dates
    ensures AppliesOn(Discrete(dates), date) == AppliesOn(Discrete(others), date)
  {
  }

  /** The selection keeps exactly the responsibilities that apply on the date. */
  lemma {:induction false} RelevantMembers(rs: seq<Responsibility>, date: Date)
    ensures forall r :: r in Relevant(rs, date) <==> r in rs && AppliesOn(r.distribution, date)
  {
    if rs != [] {
      RelevantMembers(rs[..|rs| - 1], date);
      assert rs == rs[..|rs| - 1] + [rs[|rs| - 1]];
    }
  }

  /** A responsibility that does not apply is dropped without a trace. */
  lemma {:induction false} RelevantSkips(a: seq<Responsibility>, x: Responsibility,
                                         b: seq<Responsibility>, date: Date)
    requires !AppliesOn(x.distribution, date)
    ensures Relevant(a + [x] + b, date) == Relevant(a + b, date)
  {
    RelevantAppend(a + [x], b, date);
    RelevantAppend(a, [x], date);
    RelevantAppend(a, b, date);
    assert [x][..0] == [];
  }

  /** A responsibility that does not apply on the date changes neither a sum nor
      an activity of the day. */
  lemma {:induction false} AllocateSkips(date: Date, totAbsEff: real, resolution: real,
                                         a: seq<Responsibility>, x: Responsibility,
                                         b: seq<Responsibility>, samples: seq<real>)
    requires resolution > 0.0
    requires !AppliesOn(x.distribution, date)
    requires SamplesFit(RelativeWeights(Relevant(a + b, date)), samples)
    ensures SamplesFit(RelativeWeights(Relevant(a + [x] + b, date)), samples)
    ensures Allocate(date, totAbsEff, resolution, a + [x] + b, samples)
         == Allocate(date, totAbsEff, resolution, a + b, samples)
  {
    RelevantSkips(a, x, b, date);
    var rel := Relevant(a + b, date);
    var weights := RelativeWeights(rel);
    var bal := totAbsEff - AbsoluteTotal(rel);
    var stack := Jittered(weights, samples);
    PositiveWeightsPositiveSum(weights);
    AllocateIsDay(date, totAbsEff, resolution, a + [x] + b, samples, rel, Sum(weights), bal, stack);
    AllocateIsDay(date, totAbsEff, resolution, a + b, samples, rel, Sum(weights), bal, stack);
  }

  // The shape of the day and the pairing of jitter values.

  /** One activity per relevant responsibility, the input date, and a total
      that is the sum of the activities' efforts. */
  lemma AllocateShape(date: Date, totAbsEff: real, resolution: real,
                      responsibilities: seq<Responsibility>, samples: seq<real>)
    requires resolution > 0.0
    requires SamplesFit(RelativeWeights(Relevant(responsibilities, date)), samples)
    ensures var day := Allocate(date, totAbsEff, resolution, responsibilities, samples);
      && |day.activities| == |Relevant(responsibilities, date)|
      && day.date == date
      && day.totalEffort == EffortTotal(day.activities)
  {
  }

  /** The walk pairs the k-th responsibility with the jitter value of the closed
      form: 0.0 for an absolute effort, and the value j places from the end for
      a relative effort with j relative ones before it. */
  lemma {:induction false} ResolvedAt(rel: seq<Responsibility>, totRelEff: real, balAbsEff: real,
                                      stack: seq<real>, resolution: real, k: int)
    requires |stack| == |RelativeWeights(rel)|
    requires |RelativeWeights(rel)| > 0 ==> totRelEff != 0.0
    requires resolution > 0.0
    requires 0 <= k < |rel|
    ensures rel[k].effort.Relative? ==> |RelativeWeights(rel)| > 0
    ensures Resolved(rel, totRelEff, balAbsEff, stack, resolution)[k]
         == From(rel[k], totRelEff, balAbsEff, JitterArg(rel, k, stack), resolution)
    decreases |rel|
  {
    RelativeWeightsCons(rel);
    RelativePosition(rel, k);
    var rest := if rel[0].effort.Absolute? then stack else stack[..|stack| - 1];
    if k == 0 {
      assert rel[..0] == [];
    } else {
      ResolvedAt(rel[1..], totRelEff, balAbsEff, rest, resolution, k - 1);
      JitterArgShift(rel, k, stack);
    }
  }

  /** Past the first responsibility, the closed form of the rest with the
      remaining stack is the closed form of the whole. */
  lemma {:induction false} JitterArgShift(rel: seq<Responsibility>, k: int, stack: seq<real>)
    requires 0 < k < |rel| && |stack| == |RelativeWeights(rel)|
    ensures |RelativeWeights(rel[1..])|
         == |stack| - (if rel[0].effort.Relative? then 1 else 0)
    ensures var rest := if rel[0].effort.Absolute? then stack else stack[..|stack| - 1];
      JitterArg(rel[1..], k - 1, rest) == JitterArg(rel, k, stack)
  {
    RelativeWeightsCons(rel);
    RelativeWeightsCons(rel[..k]);
    assert rel[..k][1..] == rel[1..][..k - 1];
    RelativePosition(rel, k);
  }

  /** The k-th activity of the day is the k-th relevant responsibility resolved
      with the day's aggregates and the jitter value of the closed form. */
  lemma AllocatePairing(date: Date, totAbsEff: real, resolution: real,
                        responsibilities: seq<Responsibility>, samples: seq<real>, k: int)
    requires resolution > 0.0
    requires SamplesFit(RelativeWeights(Relevant(responsibilities, date)), samples)
    requires 0 <= k < |Relevant(responsibilities, date)|
    ensures var rel := Relevant(responsibilities, date);
      var weights := RelativeWeights(rel);
      var day := Allocate(date, totAbsEff, resolution, responsibilities, samples);
      && |day.activities| == |rel|
      && (rel[k].effort.Relative? ==> Sum(weights) != 0.0)
      && day.activities[k]
         == From(rel[k], Sum(weights), totAbsEff - AbsoluteTotal(rel),
                 JitterArg(rel, k, Jittered(weights, samples)), resolution)
  {
    var rel := Relevant(responsibilities, date);
    var weights := RelativeWeights(rel);
    PositiveWeightsPositiveSum(weights);
    RelativePosition(rel, k);
    ResolvedAt(rel, Sum(weights), totAbsEff - AbsoluteTotal(rel), Jittered(weights, samples), resolution, k);
  }

  /** Every activity of the day carries its responsibility's account and
      description and a whole number of resolution steps. */
  lemma AllocateRounded(date: Date, totAbsEff: real, resolution: real,
                        responsibilities: seq<Responsibility>, samples: seq<real>)
    requires resolution > 0.0
    requires SamplesFit(RelativeWeights(Relevant(responsibilities, date)), samples)
    ensures var rel := Relevant(responsibilities, date);
      var day := Allocate(date, totAbsEff, resolution, responsibilities, samples);
      && |day.activities| == |rel|
      && forall k :: 0 <= k < |rel| ==>
           && day.activities[k].account == rel[k].account
           && day.activities[k].description == rel[k].description
           && IsMultipleOf(day.activities[k].absoluteEffort, resolution)
  {
    var rel := Relevant(responsibilities, date);
    var weights := RelativeWeights(rel);
    var bal := totAbsEff - AbsoluteTotal(rel);
    var stack := Jittered(weights, samples);
    PositiveWeightsPositiveSum(weights);
    AllocateIsDay(date, totAbsEff, resolution, responsibilities, samples, rel, Sum(weights), bal, stack);
    ResolvedRounded(rel, Sum(weights), bal, stack, resolution);
  }

  lemma {:induction false} ResolvedRounded(rel: seq<Responsibility>, totRelEff: real, balAbsEff: real,
                                           stack: seq<real>, resolution: real)
    requires |stack| == |RelativeWeights(rel)|
    requires |RelativeWeights(rel)| > 0 ==> totRelEff != 0.0
    requires resolution > 0.0
    ensures var acts := Resolved(rel, totRelEff, balAbsEff, stack, resolution);
      forall k :: 0 <= k < |rel| ==>
        && acts[k].account == rel[k].account
        && acts[k].description == rel[k].description
        && IsMultipleOf(acts[k].absoluteEffort, resolution)
  {
    var acts := Resolved(rel, totRelEff, balAbsEff, stack, resolution);
    forall k | 0 <= k < |rel|
      ensures acts[k].account == rel[k].account
      ensures acts[k].description == rel[k].description
      ensures IsMultipleOf(acts[k].absoluteEffort, resolution)
    {
      ResolvedAt(rel, totRelEff, balAbsEff, stack, resolution, k);
      FromRounded(rel[k], totRelEff, balAbsEff, JitterArg(rel, k, stack), resolution);
    }
  }

  // The relative shares.

  /** The raw efforts of the relative entries of the walk, added up. */
  function RelativeRawTotal(rel: seq<Responsibility>, totRelEff: real, balAbsEff: real,
                            stack: seq<real>): real
    requires |stack| == |RelativeWeights(rel)|
    requires totRelEff != 0.0
    decreases |rel|
  {
    if rel == [] then 0.0
    else
      RelativeWeightsCons(rel);
      var r := rel[0];
      if r.effort.Absolute? then RelativeRawTotal(rel[1..], totRelEff, balAbsEff, stack)
      else
        RawEffort(r.effort, totRelEff, balAbsEff, stack[|stack| - 1])
          + RelativeRawTotal(rel[1..], totRelEff, balAbsEff, stack[..|stack| - 1])
  }

  /** Each relative entry takes its weight plus its jitter value as its share,
      so the shares add up to the weights plus the whole stack. */
  lemma {:induction false} RelativeRawTotalIs(rel: seq<Responsibility>, totRelEff: real,
                                              balAbsEff: real, stack: seq<real>)
    requires |stack| == |RelativeWeights(rel)|
    requires totRelEff != 0.0
    ensures RelativeRawTotal(rel, totRelEff, balAbsEff, stack)
         == (Sum(RelativeWeights(rel)) + Sum(stack)) / totRelEff * balAbsEff
    decreases |rel|
  {
    if rel == [] {
      assert stack == [];
      ZeroShare(totRelEff, balAbsEff);
    } else if rel[0].effort.Absolute? {
      RelativeWeightsCons(rel);
      RelativeRawTotalIs(rel[1..], totRelEff, balAbsEff, stack);
      RelativeRawTotalAbsolute(rel, totRelEff, balAbsEff, stack);
    } else {
      RelativeWeightsCons(rel);
      RelativeRawTotalIs(rel[1..], totRelEff, balAbsEff, stack[..|stack| - 1]);
      RelativeRawTotalRelative(rel, totRelEff, balAbsEff, stack);
    }
  }

  /** The step of an absolute entry: nothing is added. */
  lemma {:induction false} RelativeRawTotalAbsolute(rel: seq<Responsibility>, totRelEff: real,
                                                    balAbsEff: real, stack: seq<real>)
    requires |rel| > 0 && rel[0].effort.Absolute?
    requires |stack| == |RelativeWeights(rel)| && |stack| == |RelativeWeights(rel[1..])|
    requires totRelEff != 0.0
    requires RelativeRawTotal(rel[1..], totRelEff, balAbsEff, stack)
          == (Sum(RelativeWeights(rel[1..])) + Sum(stack)) / totRelEff * balAbsEff
    ensures RelativeRawTotal(rel, totRelEff, balAbsEff, stack)
         == (Sum(RelativeWeights(rel)) + Sum(stack)) / totRelEff * balAbsEff
  {
    RelativeWeightsCons(rel);
    assert RelativeWeights(rel) == RelativeWeights(rel[1..]);
  }

  /** The step of a relative entry: its weight and the popped value join the
      sums. */
  lemma {:induction false} RelativeRawTotalRelative(rel: seq<Responsibility>, totRelEff: real,
                                                    balAbsEff: real, stack: seq<real>)
    requires |rel| > 0 && rel[0].effort.Relative?
    requires |stack| == |RelativeWeights(rel)| && |stack| == |RelativeWeights(rel[1..])| + 1
    requires totRelEff != 0.0
    requires RelativeRawTotal(rel[1..], totRelEff, balAbsEff, stack[..|stack| - 1])
          == (Sum(RelativeWeights(rel[1..])) + Sum(stack[..|stack| - 1])) / totRelEff * balAbsEff
    ensures RelativeRawTotal(rel, totRelEff, balAbsEff, stack)
         == (Sum(RelativeWeights(rel)) + Sum(stack)) / totRelEff * balAbsEff
  {
    var rest := stack[..|stack| - 1];
    var w := rel[0].effort.weight;
    var weights := RelativeWeights(rel[1..]);
    RelativeWeightsCons(rel);
    assert RelativeWeights(rel) == [w] + weights;
    SumCons(w, weights);
    assert Sum(stack) == Sum(rest) + stack[|stack| - 1];
    RelativeRawTotalStep(rel, totRelEff, balAbsEff, stack);
    CombineShares(RelativeRawTotal(rel, totRelEff, balAbsEff, stack),
                  RelativeRawTotal(rel[1..], totRelEff, balAbsEff, rest),
                  w, stack[|stack| - 1], Sum(weights), Sum(rest), Sum(RelativeWeights(rel)), Sum(stack),
                  totRelEff, balAbsEff);
  }

  lemma {:induction false} RelativeRawTotalStep(rel: seq<Responsibility>, totRelEff: real,
                                                balAbsEff: real, stack: seq<real>)
    requires |rel| > 0 && rel[0].effort.Relative?
    requires |stack| == |RelativeWeights(rel)|
    requires totRelEff != 0.0
    ensures |stack| > 0 && |stack| - 1 == |RelativeWeights(rel[1..])|
    ensures RelativeRawTotal(rel, totRelEff, balAbsEff, stack)
         == (rel[0].effort.weight + stack[|stack| - 1]) / totRelEff * balAbsEff
            + RelativeRawTotal(rel[1..], totRelEff, balAbsEff, stack[..|stack| - 1])
  {
    RelativeWeightsCons(rel);
  }

  /** The raw efforts of the relative entries from index `lo` on, each taken
      with the jitter value of the closed form. */
  function SharesFrom(rel: seq<Responsibility>, totRelEff: real, balAbsEff: real,
                      stack: seq<real>, lo: int): real
    requires 0 <= lo <= |rel| && |stack| == |RelativeWeights(rel)|
    requires totRelEff != 0.0
    decreases |rel| - lo
  {
    if lo == |rel| then 0.0
    else
      (if rel[lo].effort.Relative?
       then RawEffort(rel[lo].effort, totRelEff, balAbsEff, JitterArg(rel, lo, stack))
       else 0.0)
      + SharesFrom(rel, totRelEff, balAbsEff, stack, lo + 1)
  }

  /** Past the first responsibility, the shares of the rest with the remaining
      stack are the shares of the whole. */
  lemma {:induction false} SharesFromShift(rel: seq<Responsibility>, totRelEff: real,
                                           balAbsEff: real, stack: seq<real>, lo: int)
    requires 0 < lo <= |rel| && |stack| == |RelativeWeights(rel)|
    requires totRelEff != 0.0
    ensures |RelativeWeights(rel[1..])|
         == |stack| - (if rel[0].effort.Relative? then 1 else 0)
    ensures var rest := if rel[0].effort.Absolute? then stack else stack[..|stack| - 1];
      SharesFrom(rel[1..], totRelEff, balAbsEff, rest, lo - 1)
        == SharesFrom(rel, totRelEff, balAbsEff, stack, lo)
    decreases |rel| - lo
  {
    RelativeWeightsCons(rel);
    if lo < |rel| {
      SharesFromShift(rel, totRelEff, balAbsEff, stack, lo + 1);
      JitterArgShift(rel, lo, stack);
      assert rel[1..][lo - 1] == rel[lo];
    }
  }

  /** The walk's running total of relative raw efforts is the sum, over the
      relative entries, of each raw effort taken with the jitter value of the
      closed form. */
  lemma {:induction false} RelativeRawTotalShares(rel: seq<Responsibility>, totRelEff: real,
                                                  balAbsEff: real, stack: seq<real>)
    requires |stack| == |RelativeWeights(rel)|
    requires totRelEff != 0.0
    ensures RelativeRawTotal(rel, totRelEff, balAbsEff, stack)
         == SharesFrom(rel, totRelEff, balAbsEff, stack, 0)
    decreases |rel|
  {
    if rel != [] {
      RelativeWeightsCons(rel);
      var rest := if rel[0].effort.Absolute? then stack else stack[..|stack| - 1];
      RelativeRawTotalShares(rel[1..], totRelEff, balAbsEff, rest);
      SharesFromShift(rel, totRelEff, balAbsEff, stack, 1);
      assert rel[..0] == [];
    }
  }

  lemma ZeroShare(t: real, bal: real)
    requires t != 0.0
    ensures (0.0 + 0.0) / t * bal == 0.0
  {
  }

  lemma CombineShares(total: real, restTotal: real, w: real, x: real, a: real, b: real,
                      weights: real, stack: real, t: real, bal: real)
    requires t != 0.0
    requires total == (w + x) / t * bal + restTotal
    requires restTotal == (a + b) / t * bal
    requires weights == w + a && stack == b + x
    ensures total == (weights + stack) / t * bal
  {
    assert weights + stack == (w + x) + (a + b);
    ShareAdd(w + x, a + b, t, bal);
  }

  lemma {:induction false} SumCons(x: real, s: seq<real>)
    ensures Sum([x] + s) == x + Sum(s)
  {
    if s != [] {
      assert ([x] + s)[..|s|] == [x] + s[..|s| - 1];
      SumCons(x, s[..|s| - 1]);
    } else {
      assert [x][..0] == [];
    }
  }

  lemma ShareAdd(a: real, c: real, t: real, b: real)
    requires t != 0.0
    ensures a / t * b + c / t * b == (a + c) / t * b
  {
    assert a / t + c / t == (a + c) / t;
  }

  /** The allocator hands each relative entry its full jittered weight, not an
      offset, and the jitter keeps the sum of the weights: so the relative raw
      efforts of a day add up to twice the balance. */
  lemma DoubledBalance(date: Date, totAbsEff: real, responsibilities: seq<Responsibility>,
                       samples: seq<real>)
    requires SamplesFit(RelativeWeights(Relevant(responsibilities, date)), samples)
    requires |RelativeWeights(Relevant(responsibilities, date))| > 0
    ensures var rel := Relevant(responsibilities, date);
      var weights := RelativeWeights(rel);
      && Sum(weights) > 0.0
      && RelativeRawTotal(rel, Sum(weights), totAbsEff - AbsoluteTotal(rel), Jittered(weights, samples))
         == 2.0 * (totAbsEff - AbsoluteTotal(rel))
  {
    var rel := Relevant(responsibilities, date);
    var weights := RelativeWeights(rel);
    var bal := totAbsEff - AbsoluteTotal(rel);
    PositiveWeightsPositiveSum(weights);
    RelativeRawTotalIs(rel, Sum(weights), bal, Jittered(weights, samples));
    JitterKeepsSum(weights, samples);
    Twice(Sum(weights), bal);
  }

  lemma Twice(t: real, b: real)
    requires t != 0.0
    ensures (t + t) / t * b == 2.0 * b
  {
    assert (t + t) / t == 2.0;
  }

  // The day of the unit test: 2023-01-01 with 8.0 to allocate at a resolution
  // of 0.25, the weekly team meeting (absolute 1.0) and the timesheet
  // (relative 1.0, which the jitter passes through unchanged).

  /** Both responsibilities apply, the balance is 7.0, and the single relative
      weight receives its own jittered weight 1.0 as its jitter, so it takes
      (1.0 + 1.0) / 1.0 * 7.0 = 14.0 and the day totals 15.0. */
  lemma NewExample(u: real)
    requires 0.0 <= u < 1.0
    ensures SamplesFit(RelativeWeights(Relevant([TeamMeetings, PrepareTimesheet], 19358)), [u])
    ensures Allocate(19358, 8.0, 0.25, [TeamMeetings, PrepareTimesheet], [u])
         == DayAtWork([Activity("Team meetings", "Weekly team meeting", 1.0),
                       Activity("Non-billable tasks", "Prepare timesheet", 14.0)],
                      19358, 15.0)
  {
    var rs := [TeamMeetings, PrepareTimesheet];
    ExampleAggregates(rs);
    JitterSingleton(1.0, u);
    assert Sum([1.0]) == 1.0 by {
      assert [1.0][..0] == [];
    }
    AllocateIsDay(19358, 8.0, 0.25, rs, [u], rs, 1.0, 7.0, [1.0]);
    ExampleDay(rs);
  }

  lemma ExampleAggregates(rs: seq<Responsibility>)
    requires rs == [TeamMeetings, PrepareTimesheet]
    ensures Relevant(rs, 19358) == rs
    ensures RelativeWeights(rs) == [1.0]
    ensures AbsoluteTotal(rs) == 1.0
  {
    assert rs == [TeamMeetings] + [PrepareTimesheet];
    assert [TeamMeetings][..0] == [] && [PrepareTimesheet][..0] == [];
    assert AppliesOn(TeamMeetings.distribution, 19358) by {
      assert TeamMeetings.distribution.dates[1] == 19358;
    }
    RelevantAppend([TeamMeetings], [PrepareTimesheet], 19358);
    RelativeWeightsAppend([TeamMeetings], [PrepareTimesheet]);
    assert rs[..1] == [TeamMeetings];
    assert Relevant([TeamMeetings], 19358) == [TeamMeetings];
    assert Relevant([PrepareTimesheet], 19358) == [PrepareTimesheet];
    assert RelativeWeights([TeamMeetings]) == [];
    assert RelativeWeights([PrepareTimesheet]) == [1.0];
    assert AbsoluteTotal(rs[..1]) == 1.0;
  }

  lemma ExampleDay(rel: seq<Responsibility>)
    requires rel == [TeamMeetings, PrepareTimesheet]
    ensures RelativeWeights(rel) == [1.0]
    ensures Day(19358, rel, 1.0, 7.0, [1.0], 0.25)
         == DayAtWork([Activity("Team meetings", "Weekly team meeting", 1.0),
                       Activity("Non-billable tasks", "Prepare timesheet", 14.0)],
                      19358, 15.0)
  {
    ExampleAggregates(rel);
    ResolvedStep(rel, 0, 1.0, 7.0, [1.0], 0.25);
    assert rel[0..] == rel;
    assert rel[1..] == [PrepareTimesheet];
    ResolvedStep(rel, 1, 1.0, 7.0, [1.0], 0.25);
    assert rel[2..] == [];
    var a := From(TeamMeetings, 1.0, 7.0, 0.0, 0.25);
    var b := From(PrepareTimesheet, 1.0, 7.0, 1.0, 0.25);
    FromAbsolute(TeamMeetings, 1.0, 7.0, 0.0, 0.0, 0.0, 0.0, 0.25);
    FromAbsoluteExample();
    assert a == Activity("Team meetings", "Weekly team meeting", 1.0);
    FromRelative(PrepareTimesheet, 1.0, 7.0, 1.0, 0.25);
    assert (1.0 + 1.0) / 1.0 * 7.0 == 14.0;
    assert IsMultipleOf(14.0, 0.25) by {
      assert 14.0 / 0.25 == 56.0;
    }
    RoundOfMultiple(14.0, 0.25);
    assert b == Activity("Non-billable tasks", "Prepare timesheet", 14.0);
    assert Resolved(rel, 1.0, 7.0, [1.0], 0.25) == [a, b];
    assert [a, b][..1] == [a];
    assert [a][..0] == [];
    EffortTotalAppend([a], b);
    EffortTotalAppend([], a);
    assert [a, b] == [a] + [b] && [a] == [] + [a];
  }
}
