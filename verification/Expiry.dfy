/** Authority ceilings: `internal/deployment/expiry.go`. An absent ceiling means unlimited. */
module Expiry {
  import opened Wrappers

  /** Nanoseconds since the zero instant; the database keeps whole microseconds. */
  type Instant = int

  const MICROSECOND: int := 1000
  const MINUTE: int := 60 * 1000 * 1000 * 1000

  function Truncate(t: Instant): (r: Instant)
    ensures t - MICROSECOND < r <= t && r % MICROSECOND == 0
  {
    t - t % MICROSECOND
  }

  /** Whether `a` grants no more than `b`. */
  predicate Within(a: Option<Instant>, b: Option<Instant>) {
    b.Some? ==> a.Some? && a.value <= b.value
  }

  /** The narrower of a ceiling and a candidate instant; the candidate is rounded down, never up. */
  function EarlierExpiry(current: Option<Instant>, candidate: Instant): (r: Option<Instant>)
    ensures r.Some? && Within(r, current) && r.value <= candidate
    ensures r == current || candidate - MICROSECOND < r.value
  {
    var rounded := Truncate(candidate);
    if current.None? || rounded < current.value then Some(rounded) else current
  }

  function Narrow(current: Option<Instant>, candidate: Option<Instant>): (r: Option<Instant>)
    ensures Within(r, current) && Within(r, candidate)
    ensures r.Some? <==> current.Some? || candidate.Some?
  {
    if candidate.None? then current else EarlierExpiry(current, candidate.value)
  }

  /** SQL `LEAST`, which ignores NULL. */
  function Least(a: Option<Instant>, b: Option<Instant>): (r: Option<Instant>)
    ensures Within(r, a) && Within(r, b)
    ensures r == a || r == b
  {
    if a.None? then b else if b.None? || a.value <= b.value then a else b
  }

  /** Five minutes of authority must remain before an executor is prepared. */
  predicate CoversExecution(expiry: Instant, now: Instant) {
    now + 5 * MINUTE <= expiry
  }
}
