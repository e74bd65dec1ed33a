/** The input records of the allocation: a responsibility says when it applies
    (its distribution over dates) and how much effort it takes (absolute or
    relative). Dates are day numbers; only their order and equality matter. */
module Responsibilities {

  /** A calendar date as a day number. */
  type Date = int

  /** When a responsibility applies: every date of an inclusive range, or the
      dates of a list (which is unordered and may repeat dates). */
  datatype Distribution =
    | Continuous(alpha: Date, omega: Date)
    | Discrete(dates: seq<Date>)

  /** How much effort a responsibility takes: a fixed amount, or a weight that
      shares what the absolute efforts leave over. */
  datatype Effort =
    | Absolute(value: real)
    | Relative(weight: real)

  datatype Responsibility = Responsibility(
    account: string,
    description: string,
    distribution: Distribution,
    effort: Effort)
}
