/** One allocation of effort to a responsibility on one date: the raw effort
    (absolute, or a share of the balance for relative weights), rounded to a
    multiple of the resolution with halves rounding up. */
module Activities {
  import opened Responsibilities

  /** The account and description are copies of the responsibility's own. */
  datatype Activity = Activity(account: string, description: string, absoluteEffort: real)

  /** Rounding toward zero, as a float-to-integer truncation does. */
  function Trunc(x: real): (t: int)
    ensures x >= 0.0 ==> t as real <= x < t as real + 1.0
    ensures x < 0.0 ==> t as real - 1.0 < x <= t as real
  {
    if x >= 0.0 then x.Floor else -((-x).Floor)
  }

  /** The remainder of a floating-point `%`: the dividend minus the truncated
      quotient times the divisor, so that its sign follows the dividend. */
  function Rem(x: real, y: real): real
    requires y != 0.0
  {
    x - y * Trunc(x / y) as real
  }

  /** `x` is a whole number of steps of `res`. */
  predicate IsMultipleOf(x: real, res: real)
    requires res > 0.0
  {
    (x / res).Floor as real == x / res
  }

  /** The raw effort of a responsibility: an absolute effort as it stands, a
      relative weight (plus its jitter) as its share of the balance. */
  function RawEffort(effort: Effort, totRelEff: real, balAbsEff: real, jitter: real): real
    requires effort.Relative? ==> totRelEff != 0.0
  {
    if effort.Absolute? then effort.value
    else (effort.weight + jitter) / totRelEff * balAbsEff
  }

  /** Rounding to a multiple of the resolution: a remainder below half a step
      is dropped, any other remainder is filled up to the next step. */
  function Round(raw: real, resolution: real): real
    requires resolution > 0.0
  {
    var unwantedPrecision := Rem(raw, resolution);
    if unwantedPrecision < resolution * 0.5 then raw - unwantedPrecision
    else raw + (resolution - unwantedPrecision)
  }

  /** The activity of one responsibility on a day whose relative weights sum to
      `totRelEff` and whose absolute efforts leave `balAbsEff`. */
  function From(r: Responsibility, totRelEff: real, balAbsEff: real, jitter: real, resolution: real): (a: Activity)
    requires r.effort.Relative? ==> totRelEff != 0.0
    requires resolution > 0.0
    ensures a.account == r.account && a.description == r.description
  {
    Activity(r.account, r.description, Round(RawEffort(r.effort, totRelEff, balAbsEff, jitter), resolution))
  }

  /** An absolute effort is rounded as it stands: the relative total, the
      balance and the jitter play no part. */
  lemma FromAbsolute(r: Responsibility, totRelEff: real, balAbsEff: real, jitter: real,
                     otherTotRelEff: real, otherBalAbsEff: real, otherJitter: real, resolution: real)
    requires r.effort.Absolute? && resolution > 0.0
    ensures From(r, totRelEff, balAbsEff, jitter, resolution).absoluteEffort
         == Round(r.effort.value, resolution)
    ensures From(r, totRelEff, balAbsEff, jitter, resolution)
         == From(r, otherTotRelEff, otherBalAbsEff, otherJitter, resolution)
  {
  }

  /** A relative weight plus its jitter takes its share of the balance, and the
      share is rounded. */
  lemma FromRelative(r: Responsibility, totRelEff: real, balAbsEff: real, jitter: real, resolution: real)
    requires r.effort.Relative? && totRelEff != 0.0 && resolution > 0.0
    ensures From(r, totRelEff, balAbsEff, jitter, resolution).absoluteEffort
         == Round((r.effort.weight + jitter) / totRelEff * balAbsEff, resolution)
  {
    var raw := RawEffort(r.effort, totRelEff, balAbsEff, jitter);
    assert raw == (r.effort.weight + jitter) / totRelEff * balAbsEff;
  }

  /** Every activity's effort is a whole number of resolution steps, and a
      non-negative raw effort moves by at most half a step (less than half a
      step downward). */
  lemma FromRounded(r: Responsibility, totRelEff: real, balAbsEff: real, jitter: real, resolution: real)
    requires r.effort.Relative? ==> totRelEff != 0.0
    requires resolution > 0.0
    ensures IsMultipleOf(From(r, totRelEff, balAbsEff, jitter, resolution).absoluteEffort, resolution)
    ensures var raw := RawEffort(r.effort, totRelEff, balAbsEff, jitter);
      raw >= 0.0 ==>
        -resolution * 0.5 < From(r, totRelEff, balAbsEff, jitter, resolution).absoluteEffort - raw
                          <= resolution * 0.5
  {
    var raw := RawEffort(r.effort, totRelEff, balAbsEff, jitter);
    RoundIsMultiple(raw, resolution);
    if raw >= 0.0 {
      RoundNonNegative(raw, resolution);
    }
  }

  // Arithmetic steps, each small enough for the solver on its own.

  lemma UnitProduct(y: real, f: real)
    requires y > 0.0 && 0.0 <= f < 1.0
    ensures 0.0 <= y * f < y
  {
  }

  lemma QuotientSign(x: real, y: real)
    requires y > 0.0
    ensures x >= 0.0 <==> x / y >= 0.0
  {
    if x >= 0.0 {
      assert x / y >= 0.0;
    } else {
      assert x / y < 0.0;
    }
  }

  lemma RemScaled(x: real, y: real)
    requires y > 0.0
    ensures Rem(x, y) == y * (x / y - Trunc(x / y) as real)
  {
  }

  lemma FractionBounds(y: real, q: real)
    requires y > 0.0
    ensures q >= 0.0 ==> 0.0 <= y * (q - Trunc(q) as real) < y
    ensures q < 0.0 ==> -y < y * (q - Trunc(q) as real) <= 0.0
  {
    if q >= 0.0 {
      UnitProduct(y, q - Trunc(q) as real);
    } else {
      UnitProduct(y, Trunc(q) as real - q);
      assert y * (q - Trunc(q) as real) == -(y * (Trunc(q) as real - q));
    }
  }

  /** The remainder of a non-negative dividend lies in [0, y). */
  lemma RemNonNegative(x: real, y: real)
    requires y > 0.0 && x >= 0.0
    ensures 0.0 <= Rem(x, y) < y
  {
    QuotientSign(x, y);
    calc {
      Rem(x, y);
    ==  { RemScaled(x, y); }
      y * (x / y - Trunc(x / y) as real);
    <   { FractionBounds(y, x / y); }
      y;
    }
    calc {
      0.0;
    <=  { FractionBounds(y, x / y); }
      y * (x / y - Trunc(x / y) as real);
    ==  { RemScaled(x, y); }
      Rem(x, y);
    }
  }

  /** The remainder of a negative dividend lies in (-y, 0]. */
  lemma RemNegative(x: real, y: real)
    requires y > 0.0 && x < 0.0
    ensures -y < Rem(x, y) <= 0.0
  {
    QuotientSign(x, y);
    calc {
      Rem(x, y);
    ==  { RemScaled(x, y); }
      y * (x / y - Trunc(x / y) as real);
    <=  { FractionBounds(y, x / y); }
      0.0;
    }
    calc {
      -y;
    <   { FractionBounds(y, x / y); }
      y * (x / y - Trunc(x / y) as real);
    ==  { RemScaled(x, y); }
      Rem(x, y);
    }
  }

  /** Dividing a whole number of steps by the step gives back the count. */
  lemma StepsQuotient(a: real, res: real)
    requires res > 0.0
    ensures (a * res) / res == a
  {
  }

  lemma MultipleOfSteps(k: int, res: real)
    requires res > 0.0
    ensures IsMultipleOf(k as real * res, res)
  {
    StepsQuotient(k as real, res);
  }

  /** Trunc of a whole number is that number. */
  lemma TruncWhole(k: int)
    ensures Trunc(k as real) == k
  {
  }

  /** The rounded value is the truncated quotient, or one more, times the step. */
  lemma RoundSteps(raw: real, res: real) returns (k: int)
    requires res > 0.0
    ensures k == Trunc(raw / res) || k == Trunc(raw / res) + 1
    ensures Round(raw, res) == k as real * res
  {
    var t := Trunc(raw / res);
    var rem := Rem(raw, res);
    assert rem == raw - res * t as real;
    if rem < res * 0.5 {
      calc {
        Round(raw, res);
      ==
        raw - rem;
      ==
        t as real * res;
      }
      k := t;
    } else {
      calc {
        Round(raw, res);
      ==
        raw + (res - rem);
      ==
        res + res * t as real;
      ==
        (t + 1) as real * res;
      }
      k := t + 1;
    }
  }

  /** Whatever the raw value, the result is a whole number of resolution steps. */
  lemma RoundIsMultiple(raw: real, res: real)
    requires res > 0.0
    ensures IsMultipleOf(Round(raw, res), res)
  {
    var k := RoundSteps(raw, res);
    MultipleOfSteps(k, res);
  }

  /** A non-negative raw effort is rounded to the nearest step, halves up: the
      result moves it by more than minus half a step and at most half a step. */
  lemma RoundNonNegative(raw: real, res: real)
    requires res > 0.0 && raw >= 0.0
    ensures -res * 0.5 < Round(raw, res) - raw <= res * 0.5
    ensures Round(raw, res) >= 0.0
  {
    RemNonNegative(raw, res);
  }

  /** A remainder of exactly half a step rounds up: a raw value of k and a
      half steps becomes k + 1 steps. */
  lemma RoundTieUp(steps: real, res: real)
    requires res > 0.0 && steps >= 0.0
    requires steps == steps.Floor as real + 0.5
    ensures Round(steps * res, res) == (steps + 0.5) * res
  {
    var k := steps.Floor;
    assert Trunc(steps) == k;
    calc {
      Trunc(steps * res / res);
    ==  { StepsQuotient(steps, res); }
      k;
    }
    calc {
      Rem(steps * res, res);
    ==
      steps * res - res * k as real;
    ==
      res * 0.5;
    }
  }

  /** A value that already is a whole number of steps is left as it is. */
  lemma RoundOfMultiple(raw: real, res: real)
    requires res > 0.0 && IsMultipleOf(raw, res)
    ensures Round(raw, res) == raw
  {
    var k := (raw / res).Floor;
    TruncWhole(k);
    assert res * (raw / res) == raw;
    calc {
      Rem(raw, res);
    ==
      raw - res * k as real;
    ==
      0.0;
    }
  }

  /** Rounding twice is rounding once. */
  lemma RoundIdempotent(raw: real, res: real)
    requires res > 0.0
    ensures Round(Round(raw, res), res) == Round(raw, res)
  {
    RoundIsMultiple(raw, res);
    RoundOfMultiple(Round(raw, res), res);
  }

  /** A negative raw effort always has a remainder below half a step, so it is
      truncated toward zero onto a step: never below the raw value, never above
      zero. */
  lemma RoundNegative(raw: real, res: real)
    requires res > 0.0 && raw < 0.0
    ensures Round(raw, res) == Trunc(raw / res) as real * res
    ensures raw <= Round(raw, res) <= 0.0
  {
    RemNegative(raw, res);
    var t := Trunc(raw / res);
    QuotientSign(raw, res);
    assert t <= 0;
    assert res * t as real <= 0.0;
  }

  // The two responsibilities the unit tests load from their fixtures. Dates are
  // days since 1970-01-01: 19351 is 2022-12-25 and 19358 is 2023-01-01.

  const TeamMeetings := Responsibility(
    "Team meetings", "Weekly team meeting", Discrete([19351, 19358]), Absolute(1.0))

  const PrepareTimesheet := Responsibility(
    "Non-billable tasks", "Prepare timesheet", Continuous(19358, 19722), Relative(1.0))

  /** An absolute effort of 1.0 at a resolution of 0.25 stays 1.0. */
  lemma FromAbsoluteExample()
    ensures From(TeamMeetings, 0.0, 0.0, 0.0, 0.25)
         == Activity("Team meetings", "Weekly team meeting", 1.0)
  {
    RoundOfMultiple(1.0, 0.25);
  }

  /** A weight of 1.0 out of 2.0, with 6.0 to share and no jitter, takes 3.0. */
  lemma FromRelativeExample()
    ensures From(PrepareTimesheet, 2.0, 6.0, 0.0, 0.25)
         == Activity("Non-billable tasks", "Prepare timesheet", 3.0)
  {
    assert RawEffort(PrepareTimesheet.effort, 2.0, 6.0, 0.0) == 3.0;
    RoundOfMultiple(3.0, 0.25);
  }
}
