/** The suggested fare: an exact rational, rounded once to the nearest increment. */
module Calculation {
  import opened Base
  import opened MarketState

  const RULE := "half_up_once_v1"

  datatype Draft = Draft(
    service: ServiceCode, currency: string,
    base: int, perKm: int, perMinute: int, minimum: int, increment: int)

  datatype Policy = Policy(id: nat, draft: Draft, version: int, rule: string, publishedBy: string)

  /** The draft checks, with the source's loop over the five amounts. */
  method Validate(d: Draft) returns (valid: bool)
    ensures valid <==> ValidDraft(d)
  {
    if d.service == "" || d.currency != "PKR" || d.minimum <= 0 || d.increment <= 0 { return false; }
    var amounts := [d.base, d.perKm, d.perMinute, d.minimum, d.increment];
    for i := 0 to |amounts|
      invariant forall j | 0 <= j < i :: 0 <= amounts[j] <= MAX_FARE_MINOR
    {
      if amounts[i] < 0 || amounts[i] > MAX_FARE_MINOR {
        assert amounts[i] in amounts;
        return false;
      }
    }
    assert amounts[0] == d.base && amounts[1] == d.perKm && amounts[2] == d.perMinute;
    assert amounts[3] == d.minimum && amounts[4] == d.increment;
    return true;
  }

  predicate ValidDraft(d: Draft) {
    && d.service != "" && d.currency == "PKR"
    && 0 <= d.base <= MAX_FARE_MINOR
    && 0 <= d.perKm <= MAX_FARE_MINOR
    && 0 <= d.perMinute <= MAX_FARE_MINOR
    && 0 < d.minimum <= MAX_FARE_MINOR
    && 0 < d.increment <= MAX_FARE_MINOR
  }

  predicate ValidPolicy(p: Policy) {
    ValidDraft(p.draft) && p.rule == RULE
  }

  /** The unrounded fare, per kilometre and per minute. */
  ghost function ExactFare(d: Draft, meters: int, seconds: int): real {
    d.base as real + d.perKm as real * meters as real / 1000.0 + d.perMinute as real * seconds as real / 60.0
  }

  function Times(q: int, increment: int): int {
    q * increment
  }

  ghost predicate IsMultiple(m: int, increment: int) {
    exists q: int :: m == Times(q, increment)
  }

  /** m is the multiple of the increment closest to x, the upper one on a tie. */
  ghost predicate NearestMultiple(m: int, x: real, increment: int)
    requires increment > 0
  {
    && IsMultiple(m, increment)
    && 2.0 * (x - m as real) < increment as real
    && 2.0 * (m as real - x) <= increment as real
  }

  /** What a valid policy charges for a route; None when no fare in range exists. */
  ghost predicate Charges(d: Draft, meters: int, seconds: int, fare: Option<int>)
    requires d.increment > 0
  {
    exists m: int ::
      && NearestMultiple(m, ExactFare(d, meters, seconds), d.increment)
      && var charged := if m < d.minimum then d.minimum else m;
      && fare == if charged > MAX_FARE_MINOR then None else Some(charged)
  }

  method Calculate(p: Policy, meters: int, seconds: int) returns (fare: Result<int>)
    ensures !ValidPolicy(p) ==> fare == Err(InvalidPolicy)
    ensures ValidPolicy(p) && (meters <= 0 || seconds <= 0) ==> fare == Err(InvalidRoute)
    ensures ValidPolicy(p) && meters > 0 && seconds > 0 ==>
      (fare.Ok? || fare == Err(FareOutOfRange))
      && Charges(p.draft, meters, seconds, if fare.Ok? then Some(fare.value) else None)
  {
    var valid := Validate(p.draft);
    if !valid { return Err(InvalidPolicy); }
    if p.rule != RULE { return Err(InvalidPolicy); }
    if meters <= 0 || seconds <= 0 { return Err(InvalidRoute); }
    var raw := p.draft.base * 3000;
    var d := p.draft.perKm * meters;
    d := d * 3;
    raw := raw + d;
    var t := p.draft.perMinute * seconds;
    t := t * 50;
    raw := raw + t;
    var denominator := p.draft.increment * 3000;
    RawIsExact(p.draft, meters, seconds, raw);
    var rounded, remainder := raw / denominator, raw % denominator;
    RoundingIsNearest(raw, p.draft.increment, ExactFare(p.draft, meters, seconds));
    if remainder * 2 >= denominator {
      rounded := rounded + 1;
    }
    rounded := rounded * p.draft.increment;
    ghost var nearest := rounded;
    if rounded < p.draft.minimum {
      rounded := p.draft.minimum;
    }
    assert NearestMultiple(nearest, ExactFare(p.draft, meters, seconds), p.draft.increment);
    if rounded > MAX_FARE_MINOR { return Err(FareOutOfRange); }
    return Ok(rounded);
  }

  /** The common denominator loses nothing, and the accumulator is never negative. */
  lemma RawIsExact(d: Draft, meters: int, seconds: int, raw: int)
    requires d.base >= 0 && d.perKm >= 0 && d.perMinute >= 0 && meters > 0 && seconds > 0
    requires raw == d.base * 3000 + d.perKm * meters * 3 + d.perMinute * seconds * 50
    ensures raw as real == 3000.0 * ExactFare(d, meters, seconds)
    ensures raw >= 0
  {
    var km, minutes := d.perKm * meters, d.perMinute * seconds;
    assert km as real == d.perKm as real * meters as real;
    assert minutes as real == d.perMinute as real * seconds as real;
    assert km >= 0 && minutes >= 0;
  }

  /** One half-up rounding of raw / (3000 * increment) gives the nearest multiple of the increment. */
  lemma RoundingIsNearest(raw: int, increment: int, x: real)
    requires increment > 0 && raw >= 0 && raw as real == 3000.0 * x
    ensures var denominator := increment * 3000;
            var up := if raw % denominator * 2 >= denominator then 1 else 0;
            NearestMultiple((raw / denominator + up) * increment, x, increment)
  {
    var denominator := increment * 3000;
    var q, r := raw / denominator, raw % denominator;
    assert raw == q * denominator + r;
    var up := if r * 2 >= denominator then 1 else 0;
    var m := (q + up) * increment;
    assert m == q * increment + up * increment;
    assert 3000 * m == raw - r + 3000 * up * increment;
    assert 3000.0 * m as real == 3000.0 * x - r as real + (3000 * up * increment) as real;
    assert up == 0 || up * increment == increment;
    assert m == Times(q + up, increment);
  }

  // ---- What the rounding means ----

  lemma NoMultipleBetween(a: int, b: int, increment: int)
    requires increment > 0 && IsMultiple(a, increment) && IsMultiple(b, increment) && a < b + increment
    ensures a <= b
  {
    var i: int :| a == Times(i, increment);
    var j: int :| b == Times(j, increment);
    if i <= j { TimesIsMonotone(i, j, increment); }
    else { TimesIsMonotone(j + 1, i, increment); }
  }

  lemma TimesIsMonotone(i: int, j: int, increment: int)
    requires i <= j && increment > 0
    ensures Times(i, increment) <= Times(j, increment)
  {
    assert (j - i) * increment >= 0;
  }

  /** Rounding keeps order; taken both ways, the nearest multiple is unique. */
  lemma NearestIsMonotone(m: int, n: int, x: real, y: real, increment: int)
    requires increment > 0 && x <= y
    requires NearestMultiple(m, x, increment) && NearestMultiple(n, y, increment)
    ensures m <= n
  {
    NoMultipleBetween(m, n, increment);
  }

  lemma NearestIsUnique(m: int, n: int, x: real, increment: int)
    requires increment > 0 && NearestMultiple(m, x, increment) && NearestMultiple(n, x, increment)
    ensures m == n
  {
    NearestIsMonotone(m, n, x, x, increment);
    NearestIsMonotone(n, m, x, x, increment);
  }

  /** No other multiple of the increment is closer, and on a tie the charged one is the higher. */
  lemma NearestIsClosest(m: int, n: int, x: real, increment: int)
    requires increment > 0 && NearestMultiple(m, x, increment) && IsMultiple(n, increment) && n != m
    ensures var dm, dn := if m as real >= x then m as real - x else x - m as real,
                          if n as real >= x then n as real - x else x - n as real;
            dm < dn || (dm == dn && n < m)
  {
    if n < m { NoMultipleBetween(n, m - increment, increment) by { ShiftMultiple(m, -1, increment); } }
    else { NoMultipleBetween(m + increment, n, increment) by { ShiftMultiple(m, 1, increment); } }
  }

  lemma ShiftMultiple(m: int, steps: int, increment: int)
    requires IsMultiple(m, increment)
    ensures IsMultiple(m + steps * increment, increment)
  {
    var q: int :| m == Times(q, increment);
    assert m + steps * increment == Times(q + steps, increment);
  }

  /** A draft charges one outcome only. */
  lemma ChargeIsUnique(d: Draft, meters: int, seconds: int, a: Option<int>, b: Option<int>)
    requires d.increment > 0 && Charges(d, meters, seconds, a) && Charges(d, meters, seconds, b)
    ensures a == b
  {
    var x := ExactFare(d, meters, seconds);
    var m: int :| NearestMultiple(m, x, d.increment)
      && a == if (if m < d.minimum then d.minimum else m) > MAX_FARE_MINOR then None
              else Some(if m < d.minimum then d.minimum else m);
    var n: int :| NearestMultiple(n, x, d.increment)
      && b == if (if n < d.minimum then d.minimum else n) > MAX_FARE_MINOR then None
              else Some(if n < d.minimum then d.minimum else n);
    NearestIsUnique(m, n, x, d.increment);
  }

  /** A charged fare lies in (0, 10^12], and above the minimum it is within half an increment of the exact fare. */
  lemma ChargeIsClose(d: Draft, meters: int, seconds: int, fare: int)
    requires ValidDraft(d) && Charges(d, meters, seconds, Some(fare))
    ensures 0 < fare <= MAX_FARE_MINOR && d.minimum <= fare
    ensures fare > d.minimum ==>
      && IsMultiple(fare, d.increment)
      && -(d.increment as real) <= 2.0 * (fare as real - ExactFare(d, meters, seconds)) <= d.increment as real
  {
  }

  /** The second tariff and route are at least the first in every respect, with the same rounding. */
  predicate AtMost(d: Draft, e: Draft, meters: int, seconds: int, farther: int, longer: int) {
    && d.base <= e.base && d.perKm <= e.perKm && d.perMinute <= e.perMinute && d.minimum <= e.minimum
    && d.increment == e.increment && meters <= farther && seconds <= longer
  }

  lemma ExactIsMonotone(d: Draft, e: Draft, meters: int, seconds: int, farther: int, longer: int)
    requires ValidDraft(d) && ValidDraft(e) && meters > 0 && seconds > 0
    requires AtMost(d, e, meters, seconds, farther, longer)
    ensures ExactFare(d, meters, seconds) <= ExactFare(e, farther, longer)
  {
    ProductIsMonotone(d.perKm as real, e.perKm as real, meters as real, farther as real);
    ProductIsMonotone(d.perMinute as real, e.perMinute as real, seconds as real, longer as real);
    SumIsMonotone(d.base as real, d.perKm as real * meters as real, d.perMinute as real * seconds as real,
                  e.base as real, e.perKm as real * farther as real, e.perMinute as real * longer as real);
  }

  lemma SumIsMonotone(a: real, b: real, c: real, x: real, y: real, z: real)
    requires a <= x && b <= y && c <= z
    ensures a + b / 1000.0 + c / 60.0 <= x + y / 1000.0 + z / 60.0
  {
  }

  lemma ProductIsMonotone(a: real, b: real, x: real, y: real)
    requires 0.0 <= a <= b && 0.0 <= x <= y
    ensures a * x <= b * y
  {
    assert a * x <= b * x <= b * y;
  }

  /** Fares are monotone in distance, duration, every rate and the minimum; once out of range, always out of range. */
  lemma ChargeIsMonotone(d: Draft, e: Draft, meters: int, seconds: int, farther: int, longer: int,
                         less: Option<int>, more: Option<int>)
    requires ValidDraft(d) && ValidDraft(e) && meters > 0 && seconds > 0
    requires AtMost(d, e, meters, seconds, farther, longer)
    requires Charges(d, meters, seconds, less) && Charges(e, farther, longer, more)
    ensures less.None? ==> more.None?
    ensures less.Some? && more.Some? ==> less.value <= more.value
  {
    hide ExactFare, NearestMultiple;
    ExactIsMonotone(d, e, meters, seconds, farther, longer);
    var x, y := ExactFare(d, meters, seconds), ExactFare(e, farther, longer);
    var m: int :| NearestMultiple(m, x, d.increment)
      && less == if (if m < d.minimum then d.minimum else m) > MAX_FARE_MINOR then None
                 else Some(if m < d.minimum then d.minimum else m);
    var n: int :| NearestMultiple(n, y, e.increment)
      && more == if (if n < e.minimum then e.minimum else n) > MAX_FARE_MINOR then None
                 else Some(if n < e.minimum then e.minimum else n);
    NearestIsMonotone(m, n, x, y, d.increment);
  }
}
