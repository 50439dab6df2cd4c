/**
 The slow correction of the scale's zero while the platform is empty: how far
 it may go, how fast it may move, and where it comes to rest.
*/
module RuntimeZero {
  import opened Prelude

  const INT32_MAX: int := 0x7FFF_FFFF
  const INT32_MIN: int := -0x8000_0000

  datatype Config = Config(deadband: real, dwell: nat, step: real, maximum: real) {
    predicate Valid() {
      0.0 < deadband <= 50.0 && 0 < dwell < TWO_32 && 0.0 < step <= maximum <= deadband
    }
  }

  /** Offsets are those a 24-bit converter can produce. */
  datatype Calibration = Calibration(offset: int, countsPerGram: real) {
    predicate Valid() { countsPerGram != 0.0 && -0x80_0000 <= offset < 0x80_0000 }
  }

  datatype Sample = Sample(filtered: real, stable: bool, overload: bool, measuring: bool)

  datatype Zero = Zero(correction: int, since: Option<nat>)

  const RESET := Zero(0, None)

  function Abs(x: real): real { if x < 0.0 then -x else x }

  function AbsInt(x: int): nat { if x < 0 then -x else x }

  /** Round to nearest, halves away from zero. */
  function Round(x: real): int { if x >= 0.0 then (x + 0.5).Floor else -((-x + 0.5).Floor) }

  function Clamp(x: int, low: int, high: int): int { if x < low then low else if x > high then high else x }

  function BoundedCounts(x: real): int { Round(if x < INT32_MAX as real then x else INT32_MAX as real) }

  function MaximumCounts(k: Config, c: Calibration): int { BoundedCounts(Abs(c.countsPerGram) * k.maximum) }

  function StepCounts(k: Config, c: Calibration): int {
    var step := BoundedCounts(Abs(c.countsPerGram) * k.step);
    if step < 1 then 1 else step
  }

  function EffectiveOffset(c: Calibration, z: Zero): int {
    Clamp(c.offset + z.correction, INT32_MIN, INT32_MAX)
  }

  function Grams(filtered: real, offset: int, c: Calibration): real
    requires c.Valid()
  {
    (filtered - offset as real) / c.countsPerGram
  }

  /** Nothing is being weighed and the reading is close to both zeros. */
  predicate Candidate(k: Config, c: Calibration, z: Zero, s: Sample)
    requires c.Valid()
  {
    && !s.measuring && s.stable && !s.overload
    && Abs(Grams(s.filtered, c.offset, c)) <= k.deadband
    && Abs(Grams(s.filtered, EffectiveOffset(c, z), c)) <= k.deadband
  }

  function Target(k: Config, c: Calibration, s: Sample): int {
    Clamp(Round(s.filtered - c.offset as real), -MaximumCounts(k, c), MaximumCounts(k, c))
  }

  function Moved(k: Config, c: Calibration, correction: int, target: int): int {
    var step := StepCounts(k, c);
    Clamp(correction + Clamp(target - correction, -step, step), -MaximumCounts(k, c), MaximumCounts(k, c))
  }

  function Update(k: Config, c: Option<Calibration>, z: Zero, s: Sample, now: nat): Zero
    requires c.Some? ==> c.value.Valid()
  {
    if c.None? then RESET
    else if !Candidate(k, c.value, z, s) then z.(since := None)
    else if z.since.None? then z.(since := Some(now))
    else if Elapsed32(now, z.since.value) < k.dwell then z
    else Zero(Moved(k, c.value, z.correction, Target(k, c.value, s)), Some(now))
  }

  // ---------------------------------------------------------------- bounded

  lemma RoundMonotone(x: real, y: real)
    requires x <= y
    ensures Round(x) <= Round(y)
  {
    if x >= 0.0 {
      assert (x + 0.5).Floor <= (y + 0.5).Floor;
    } else if y < 0.0 {
      assert (-y + 0.5).Floor <= (-x + 0.5).Floor;
    } else {
      assert (-x + 0.5).Floor >= 0 && (y + 0.5).Floor >= 0;
    }
  }

  lemma RoundNear(x: real)
    ensures -0.5 <= x - Round(x) as real <= 0.5
  {
  }

  lemma ProductNonnegative(x: real, y: real)
    requires x >= 0.0 && y >= 0.0
    ensures x * y >= 0.0
  {
  }

  lemma CountsNonnegative(k: Config, c: Calibration)
    requires k.Valid()
    ensures MaximumCounts(k, c) >= 0 && StepCounts(k, c) >= 1
  {
    ProductNonnegative(Abs(c.countsPerGram), k.maximum);
    RoundMonotone(0.0, if Abs(c.countsPerGram) * k.maximum < INT32_MAX as real then Abs(c.countsPerGram) * k.maximum
                       else INT32_MAX as real);
  }

  predicate Bounded(k: Config, c: Calibration, z: Zero) {
    -MaximumCounts(k, c) <= z.correction <= MaximumCounts(k, c)
  }

  /** With an unchanged calibration the correction never leaves the configured
      maximum, moves by at most one step, and only after a full dwell during
      which the reading stayed near zero. */
  lemma UpdateIsBounded(k: Config, c: Calibration, z: Zero, s: Sample, now: nat)
    requires k.Valid() && c.Valid() && Bounded(k, c, z)
    ensures var v := Update(k, Some(c), z, s, now);
            && Bounded(k, c, v) && AbsInt(v.correction - z.correction) <= StepCounts(k, c)
            && (v.correction != z.correction ==>
                  && z.since.Some? && Elapsed32(now, z.since.value) >= k.dwell && v.since == Some(now)
                  && Candidate(k, c, z, s))
  {
    CountsNonnegative(k, c);
    hide MaximumCounts; hide StepCounts; hide Candidate; hide Target;
  }

  // ---------------------------------------------------------------- how fast

  /** One processed sample at a time that does not wrap. */
  datatype Reading = Reading(sample: Sample, at: nat)

  function Track(k: Config, c: Calibration, readings: seq<Reading>): Zero
    requires c.Valid()
  {
    if readings == [] then RESET
    else
      var r := readings[|readings| - 1];
      Update(k, Some(c), Track(k, c, readings[..|readings| - 1]), r.sample, r.at % TWO_32)
  }

  predicate Ordered(readings: seq<Reading>) {
    forall i, j :: 0 <= i <= j < |readings| ==> readings[i].at <= readings[j].at
  }

  function Times(n: nat, step: int): int { n * step }

  /** The time of the reading that last set `since`, and how many whole dwells
      have passed up to it. */
  lemma {:induction false} PaceHolds(k: Config, c: Calibration, readings: seq<Reading>)
    returns (since: nat, dwells: nat)
    requires k.Valid() && c.Valid() && Ordered(readings) && readings != []
    ensures Bounded(k, c, Track(k, c, readings))
    ensures readings[0].at <= since <= readings[|readings| - 1].at && since >= readings[0].at + Times(dwells, k.dwell)
    ensures Track(k, c, readings).since.Some? ==> Track(k, c, readings).since.value == since % TWO_32
    ensures AbsInt(Track(k, c, readings).correction) <= Times(dwells, StepCounts(k, c))
  {
    CountsNonnegative(k, c);
    hide MaximumCounts; hide StepCounts; hide Candidate; hide Target; hide Times; hide Elapsed32;
    var n := |readings| - 1;
    var r := readings[n];
    if n == 0 {
      OnceMore(0, k.dwell); OnceMore(0, StepCounts(k, c));
      assert Track(k, c, readings[..0]) == RESET;
      since, dwells := r.at, 0;
    } else {
      since, dwells := PaceHolds(k, c, readings[..n]);
      var z := Track(k, c, readings[..n]);
      var v := Track(k, c, readings);
      UpdateIsBounded(k, c, z, r.sample, r.at % TWO_32);
      if v.correction != z.correction {
        TrueElapsed(r.at, since);
        OnceMore(dwells, k.dwell); OnceMore(dwells, StepCounts(k, c));
        since, dwells := r.at, dwells + 1;
      } else if v.since != z.since {
        since := r.at;
      }
    }
  }

  lemma OnceMore(n: nat, step: int)
    ensures Times(n + 1, step) == Times(n, step) + step && Times(0, step) == 0
  {
  }

  lemma TrueElapsed(now: nat, since: nat)
    requires since <= now
    ensures Elapsed32(now % TWO_32, since % TWO_32) <= now - since
  {
    var a, b := now % TWO_32, since % TWO_32;
    var e := Elapsed32(a, b);
    assert a - b == TWO_32 * ((a - b) / TWO_32) + e;
    assert now - since == TWO_32 * (now / TWO_32 - since / TWO_32) + (a - b);
  }

  /** In any time the correction moves by at most one step per full dwell. */
  lemma StepsPerDwell(k: Config, c: Calibration, readings: seq<Reading>)
    requires k.Valid() && c.Valid() && Ordered(readings) && readings != []
    ensures var time := readings[|readings| - 1].at - readings[0].at;
            AbsInt(Track(k, c, readings).correction) <= Times(time / k.dwell, StepCounts(k, c))
  {
    CountsNonnegative(k, c);
    var since, dwells := PaceHolds(k, c, readings);
    var time := readings[|readings| - 1].at - readings[0].at;
    hide Track; hide StepCounts;
    assert dwells <= time / k.dwell by { WholeDwells(time, dwells, k.dwell); }
    TimesMonotone(dwells, time / k.dwell, StepCounts(k, c));
  }

  lemma WholeDwells(time: nat, dwells: nat, dwell: nat)
    requires dwell > 0 && Times(dwells, dwell) <= time
    ensures dwells <= time / dwell
  {
    var q := time / dwell;
    BeyondQuotient(time, dwell);
    if dwells > q {
      TimesMonotone(q + 1, dwells, dwell);
      assert false;
    }
  }

  lemma BeyondQuotient(time: nat, dwell: nat)
    requires dwell > 0
    ensures time < Times(time / dwell + 1, dwell)
  {
    var q := time / dwell;
    assert (q + 1) * dwell == q * dwell + dwell;
  }

  lemma TimesMonotone(a: nat, b: nat, step: nat)
    requires a <= b
    ensures Times(a, step) <= Times(b, step)
  {
    assert b * step == a * step + (b - a) * step;
  }

  // ---------------------------------------------------------------- where it comes to rest

  lemma CloserIsLighter(x: real, y: real, c: real)
    requires c != 0.0 && Abs(x) <= Abs(y)
    ensures Abs(x / c) <= Abs(y / c)
  {
    AbsOfQuotient(x, c);
    AbsOfQuotient(y, c);
    assert Abs(c) > 0.0;
    SameFactor(Abs(x / c), Abs(y / c), Abs(c), Abs(x), Abs(y));
  }

  lemma SameFactor(p: real, q: real, m: real, x: real, y: real)
    requires m > 0.0 && p * m == x && q * m == y && x <= y
    ensures p <= q
  {
    if p > q {
      Expand(p, q, m);
      PositiveProduct(p - q, m);
      assert false;
    }
  }

  lemma Expand(p: real, q: real, c: real)
    ensures (p - q) * c == p * c - q * c
  {
  }

  lemma PositiveProduct(x: real, y: real)
    requires x > 0.0 && y > 0.0
    ensures x * y > 0.0
  {
  }

  lemma AbsOfQuotient(x: real, c: real)
    requires c != 0.0
    ensures Abs(x / c) * Abs(c) == Abs(x)
  {
    var q := x / c;
    assert q * c == x;
    AbsOfProduct(q, c);
  }

  lemma AbsOfProduct(q: real, c: real)
    ensures Abs(q) * Abs(c) == Abs(q * c)
  {
    if q >= 0.0 && c >= 0.0 {
      ProductNonnegative(q, c);
    } else if q < 0.0 && c < 0.0 {
      ProductNonnegative(-q, -c);
      assert (-q) * (-c) == q * c;
    } else if q < 0.0 {
      ProductNonnegative(-q, c);
      assert (-q) * c == -(q * c);
    } else {
      ProductNonnegative(q, -c);
      assert q * (-c) == -(q * c);
    }
  }

  /** A constant, stable reading of an empty platform. */
  predicate Quiet(c: Calibration, s: Sample) {
    !s.measuring && s.stable && !s.overload && -8388608.0 <= s.filtered <= 8388607.0 && c.Valid()
  }

  /** Half-way to the target the reading is nearer to the effective zero than before. */
  lemma NearerToZero(k: Config, c: Calibration, s: Sample, from: int, to: int)
    requires k.Valid() && Quiet(c, s) && Bounded(k, c, Zero(from, None))
    requires from < to < Target(k, c, s) || Target(k, c, s) < to < from
    ensures Abs(s.filtered - EffectiveOffset(c, Zero(to, None)) as real)
         <= Abs(s.filtered - EffectiveOffset(c, Zero(from, None)) as real)
  {
    var x := s.filtered - c.offset as real;
    RoundNear(x);
    var target := Target(k, c, s);
    CountsNonnegative(k, c);
    assert Round(16777216.0) == 16777216 && Round(-16777216.0) == -16777216;
    hide MaximumCounts; hide Round;
    assert target > from ==> x >= target as real - 0.5;
    assert target < from ==> x <= target as real + 0.5;
    RoundMonotone(x, 16777216.0);
    RoundMonotone(-16777216.0, x);
  }

  /** Each full dwell brings the correction one step nearer, or onto the target,
      and short of the target the reading stays a candidate. */
  lemma OneStepNearer(k: Config, c: Calibration, z: Zero, s: Sample, now: nat)
    requires k.Valid() && Quiet(c, s) && Bounded(k, c, z) && Candidate(k, c, z, s)
    requires z.since.Some? && Elapsed32(now, z.since.value) >= k.dwell
    ensures var v := Update(k, Some(c), z, s, now);
            var t := Target(k, c, s);
            && Bounded(k, c, v) && v.since == Some(now)
            && AbsInt(t - v.correction) == (if AbsInt(t - z.correction) <= StepCounts(k, c) then 0
                                            else AbsInt(t - z.correction) - StepCounts(k, c))
            && (v.correction != t ==> Candidate(k, c, v, s))
  {
    UpdateIsBounded(k, c, z, s, now);
    CountsNonnegative(k, c);
    TargetBounded(k, c, s);
    var v := Update(k, Some(c), z, s, now);
    var t := Target(k, c, s);
    hide MaximumCounts; hide StepCounts; hide Target;
    if v.correction != t && v.correction != z.correction {
      NearerToZero(k, c, s, z.correction, v.correction);
      hide EffectiveOffset;
      CloserIsLighter(s.filtered - EffectiveOffset(c, v) as real, s.filtered - EffectiveOffset(c, z) as real,
                      c.countsPerGram);
    }
  }

  lemma TargetBounded(k: Config, c: Calibration, s: Sample)
    requires k.Valid()
    ensures -MaximumCounts(k, c) <= Target(k, c, s) <= MaximumCounts(k, c)
  {
    CountsNonnegative(k, c);
    hide MaximumCounts;
  }

  /** At the target nothing moves any more. */
  lemma RestsAtTarget(k: Config, c: Calibration, z: Zero, s: Sample, now: nat)
    requires k.Valid() && c.Valid() && z.correction == Target(k, c, s)
    ensures Update(k, Some(c), z, s, now).correction == z.correction
  {
    TargetBounded(k, c, s);
    CountsNonnegative(k, c);
    hide MaximumCounts; hide StepCounts; hide Target; hide Candidate;
  }

  function Repeated(k: Config, c: Calibration, z: Zero, s: Sample, times: seq<nat>): Zero
    requires c.Valid()
  {
    if times == [] then z
    else Update(k, Some(c), Repeated(k, c, z, s, times[..|times| - 1]), s, times[|times| - 1])
  }

  /** Consecutive updates lie at least one dwell apart. */
  predicate Spaced(k: Config, since: nat, times: seq<nat>) {
    forall i :: 0 <= i < |times| ==> Elapsed32(times[i], Before(since, times, i)) >= k.dwell
  }

  function Before(since: nat, times: seq<nat>, i: nat): nat
    requires i <= |times|
  {
    if i == 0 then since else times[i - 1]
  }

  /** From any bounded correction with the reading near both zeros, the target
      is reached after distance divided by step adjustments, rounded up, not
      earlier, and kept. */
  lemma {:induction false} ConvergesExactly(k: Config, c: Calibration, z: Zero, s: Sample, times: seq<nat>)
    requires k.Valid() && Quiet(c, s) && Bounded(k, c, z) && Candidate(k, c, z, s)
    requires z.since.Some? && Spaced(k, z.since.value, times)
    ensures var v := Repeated(k, c, z, s, times);
            var t := Target(k, c, s);
            var distance := AbsInt(t - z.correction);
            && Bounded(k, c, v)
            && AbsInt(t - v.correction) == (if distance <= Times(|times|, StepCounts(k, c)) then 0
                                            else distance - Times(|times|, StepCounts(k, c)))
            && (v.correction != t ==>
                  Candidate(k, c, v, s) && v.since == Some(if times == [] then z.since.value else times[|times| - 1]))
  {
    hide MaximumCounts; hide StepCounts; hide Target; hide Candidate; hide Update; hide Elapsed32; hide Bounded;
    if times != [] {
      var n := |times| - 1;
      SpacedPrefix(k, z.since.value, times);
      ConvergesExactly(k, c, z, s, times[..n]);
      var y := Repeated(k, c, z, s, times[..n]);
      NextMultiple(n, StepCounts(k, c));
      assert Before(z.since.value, times, n) == Before(z.since.value, times[..n], n);
      var distance := AbsInt(Target(k, c, s) - z.correction);
      ConvergesStep(k, c, y, s, times[n], distance, Times(n, StepCounts(k, c)));
    }
  }

  lemma SpacedPrefix(k: Config, since: nat, times: seq<nat>)
    requires times != [] && Spaced(k, since, times)
    ensures Spaced(k, since, times[..|times| - 1])
    ensures var n := |times| - 1; Elapsed32(times[n], Before(since, times, n)) >= k.dwell
  {
    hide Elapsed32;
    var n := |times| - 1;
    forall i | 0 <= i < n ensures Elapsed32(times[..n][i], Before(since, times[..n], i)) >= k.dwell {
      assert times[..n][i] == times[i] && Before(since, times[..n], i) == Before(since, times, i);
    }
  }

  lemma ConvergesStep(k: Config, c: Calibration, y: Zero, s: Sample, now: nat, distance: int, covered: int)
    requires k.Valid() && Quiet(c, s) && Bounded(k, c, y)
    requires AbsInt(Target(k, c, s) - y.correction) == if distance <= covered then 0 else distance - covered
    requires y.correction != Target(k, c, s) ==>
               Candidate(k, c, y, s) && y.since.Some? && Elapsed32(now, y.since.value) >= k.dwell
    ensures var v := Update(k, Some(c), y, s, now);
            var reach := covered + StepCounts(k, c);
            && Bounded(k, c, v)
            && AbsInt(Target(k, c, s) - v.correction) == (if distance <= reach then 0 else distance - reach)
            && (v.correction != Target(k, c, s) ==> Candidate(k, c, v, s) && v.since == Some(now))
  {
    CountsNonnegative(k, c);
    hide MaximumCounts; hide StepCounts; hide Target; hide Candidate; hide Update; hide Bounded; hide Elapsed32;
    if y.correction == Target(k, c, s) {
      RestsAtTarget(k, c, y, s, now);
      UpdateIsBounded(k, c, y, s, now);
    } else {
      OneStepNearer(k, c, y, s, now);
    }
  }

  lemma NextMultiple(n: nat, step: int)
    ensures Times(n + 1, step) == Times(n, step) + step
  {
  }

  // ---------------------------------------------------------------- the tracker in place

  class Tracker {
    const config: Config
    var calibration: Option<Calibration>
    var correction: int
    var candidateSince: Option<nat>

    constructor (config: Config)
      ensures View() == RESET && calibration.None? && this.config == config
    {
      this.config := config;
      calibration, correction, candidateSince := None, 0, None;
    }

    function View(): Zero
      reads this
    {
      Zero(correction, candidateSince)
    }

    method Reset()
      modifies `correction, `candidateSince
      ensures View() == RESET
    {
      correction, candidateSince := 0, None;
    }

    method UpdateRuntimeZero(s: Sample, now: nat)
      requires calibration.Some? ==> calibration.value.Valid()
      modifies `correction, `candidateSince
      ensures View() == Update(config, calibration, old(View()), s, now)
    {
      if calibration.None? {
        Reset();
        return;
      }
      var c := calibration.value;
      if !Candidate(config, c, View(), s) {
        candidateSince := None;
        return;
      }
      if candidateSince.None? {
        candidateSince := Some(now);
        return;
      }
      if Elapsed32(now, candidateSince.value) < config.dwell { return; }
      var maximum := MaximumCounts(config, c);
      var step := StepCounts(config, c);
      var target := Clamp(Round(s.filtered - c.offset as real), -maximum, maximum);
      var adjustment := Clamp(target - correction, -step, step);
      correction := Clamp(correction + adjustment, -maximum, maximum);
      candidateSince := Some(now);
    }
  }
}
