/** What the check of a table comes to, in terms of the values, times and settings
    only (hw4cx/include/advdac_cankoz_table_meat.h:163-281). */
module TableBounds {
  import opened CMath
  import opened AdvDac
  import opened DacState
  import opened TableCheck

  // ----- limits -----

  /** q is a / b rounded down, but at least 1. */
  predicate AtLeastOne(q: int, a: int, b: int) {
    q >= 1 && (q == 1 <==> a < 2 * b) && (q > 1 ==> q * b <= a < q * b + b)
  }

  lemma QuotAtLeastOne(a: nat, b: int)
    requires b > 0
    ensures AtLeastOne(Max(1, Quot(a, b)), a, b)
  {
    var q := Quot(a, b);
    QuotBounds(a, b);
    if q >= 2 {
      MulMono(2, q, b);
    } else {
      MulMono(q, 1, b);
    }
  }

  lemma AtLeastOneIsUnique(q: int, r: int, a: int, b: int)
    requires b > 0 && AtLeastOne(q, a, b) && AtLeastOne(r, a, b)
    ensures q == r
  {
    if q < r { MulMono(q + 1, r, b); }
    if r < q { MulMono(r + 1, q, b); }
  }

  /** The speed limit of a table step, per unit of time, is the channel's speed per
      second divided by the units in a second; at least 1. */
  lemma PerStepIs(d: Dev, c: Chan)
    ensures AtLeastOne(PerStep(d, c), Abs(c.spd), d.stepsPerSec)
  {
    QuotAtLeastOne(Abs(c.spd), d.stepsPerSec);
  }

  /** The length of a step in units is its time divided by the time of a unit; at
      least 1. */
  lemma StepUnitsAre(d: Dev, time: int)
    ensures AtLeastOne(StepUnits(d, time), time, d.usecsInStep)
  {
    if time >= 0 { QuotAtLeastOne(time, d.usecsInStep); }
  }

  /** The largest change in n units at p per unit: because of the truncating division
      it exceeds the nominal p * n by n - 1. */
  function StepLimit(p: int, n: int): (m: int)
    requires p >= 1 && n >= 1
    ensures m >= 1
  {
    MulMono(2, p + 1, n);
    (p + 1) * n - 1
  }

  /** The speed test of one step is exactly a bound on the change. */
  lemma StepLimitIff(d: Dev, c: Chan, time: int, x: nat, p: int, n: int)
    requires AtLeastOne(p, Abs(c.spd), d.stepsPerSec) && AtLeastOne(n, time, d.usecsInStep)
    ensures Quot(x, StepUnits(d, time)) <= PerStep(d, c) <==> x <= StepLimit(p, n)
  {
    PerStepIs(d, c);
    StepUnitsAre(d, time);
    AtLeastOneIsUnique(p, PerStep(d, c), Abs(c.spd), d.stepsPerSec);
    AtLeastOneIsUnique(n, StepUnits(d, time), time, d.usecsInStep);
    QuotBounds(x, n);
    var q := Quot(x, n);
    if q <= p {
      MulMono(q, p, n);
    } else {
      MulMono(p + 1, q, n);
    }
  }

  // ----- the check -----

  /** A step towards zero that does not cross it; only a positive speed allows those. */
  predicate Shrinks(spd: int, next: int, prev: int) {
    spd > 0 && (0 <= next < prev || prev < next <= 0)
  }

  lemma DecrementIff(spd: int, next: int, prev: int)
    ensures Decrement(spd, next, prev) <==> Shrinks(spd, next, prev)
  {
  }

  predicate InTable(d: Dev, s: State, l: nat)
    requires l < |s.vals|
  {
    s.vals[l] != [] && s.vals[l][0] > d.disableChan
  }

  /** The value of channel l at step k; a start marker stands for the output's value. */
  function ValueAt(d: Dev, s: State, l: nat, k: nat): int
    requires Shaped(d, s) && l < d.n && k < |s.vals[l]|
  {
    if k == 0 && s.vals[l][0] >= d.startFromCur then s.out[l].cur else s.vals[l][k]
  }

  /** p bounds the channel's change per unit, n[t] is the length of step t. */
  predicate Units(d: Dev, s: State, c: Chan, p: int, n: seq<int>) {
    && AtLeastOne(p, Abs(c.spd), d.stepsPerSec)
    && |n| == |s.times| && forall t :: 0 <= t < |n| ==> AtLeastOne(n[t], s.times[t], d.usecsInStep)
  }

  /** The first value is near enough to the output. */
  predicate StartFits(d: Dev, c: Chan, v: int) {
    v >= d.startFromCur || Shrinks(c.spd, v, c.cur) || Abs(v - c.cur) <= Quot(Abs(c.spd), d.hbFreq)
  }

  predicate StepFits(d: Dev, s: State, l: nat, t: nat, p: int, n: seq<int>)
    requires Shaped(d, s) && l < d.n && Units(d, s, s.out[l], p, n) && 1 <= t < |s.vals[l]| == |s.times|
  {
    var prev, next := ValueAt(d, s, l, t - 1), ValueAt(d, s, l, t);
    Shrinks(s.out[l].spd, next, prev) || Abs(next - prev) <= StepLimit(p, n[t])
  }

  /** The table of one channel may be run. */
  predicate Fits(d: Dev, s: State, l: nat, p: int, n: seq<int>)
    requires Shaped(d, s) && l < d.n && Units(d, s, s.out[l], p, n)
  {
    var c := s.out[l];
    && |s.vals[l]| == |s.times| >= 1
    && (s.vals[l][0] >= d.startFromCur ==> c.rcv)
    && (c.spd != 0 ==> StartFits(d, c, s.vals[l][0]))
    && (c.spd != 0 ==> forall t :: 1 <= t < |s.times| ==> StepFits(d, s, l, t, p, n))
  }

  lemma StepFitsIff(d: Dev, s: State, l: nat, t: nat, p: int, n: seq<int>)
    requires Shaped(d, s) && l < d.n && Units(d, s, s.out[l], p, n) && 1 <= t < |s.vals[l]| == |s.times|
    ensures StepFits(d, s, l, t, p, n) <==> StepOk(d, s, l, t)
  {
    StepLimitIff(d, s.out[l], s.times[t], Abs(s.vals[l][t] - Before(d, s, l, t)), p, n[t]);
  }

  /** One channel passes all the checks exactly when its table fits. */
  lemma FitsIff(d: Dev, s: State, l: nat, p: int, n: seq<int>)
    requires Shaped(d, s) && l < d.n && Units(d, s, s.out[l], p, n) && |s.times| >= 1 && InTable(d, s, l)
    ensures Fits(d, s, l, p, n) <==>
      LengthOk(d, s, l) && CurOk(d, s, l) && FirstOk(d, s, l) && StepsOk(d, s, l, |s.times|)
  {
    if |s.vals[l]| == |s.times| {
      forall t | 1 <= t < |s.times| ensures StepFits(d, s, l, t, p, n) <==> StepOk(d, s, l, t) {
        StepFitsIff(d, s, l, t, p, n);
      }
    }
  }

  /** A table may be activated if and only if it has steps, some channel takes part,
      and the table of every channel that does fits. */
  lemma AcceptableIff(d: Dev, s: State, p: seq<int>, n: seq<int>)
    requires Shaped(d, s) && |p| == d.n && forall l :: 0 <= l < d.n ==> Units(d, s, s.out[l], p[l], n)
    ensures Acceptable(d, s) <==>
      && |s.times| >= 1
      && (exists l :: 0 <= l < d.n && InTable(d, s, l))
      && forall l :: 0 <= l < d.n && InTable(d, s, l) ==> Fits(d, s, l, p[l], n)
  {
    forall l | 0 <= l < d.n ensures InTable(d, s, l) <==> Affected(d, s, l) {
    }
    if |s.times| >= 1 {
      forall l | 0 <= l < d.n && InTable(d, s, l)
        ensures Fits(d, s, l, p[l], n) <==>
          LengthOk(d, s, l) && CurOk(d, s, l) && FirstOk(d, s, l) && StepsOk(d, s, l, |s.times|)
      {
        FitsIff(d, s, l, p[l], n);
      }
    }
  }

  // ----- the values of an accepted table -----

  /** What the limits of steps 1 .. k add up to. */
  function LimitSum(p: int, n: seq<int>, k: nat): (m: nat)
    requires p >= 1 && k < |n| && forall t :: 0 <= t < |n| ==> n[t] >= 1
  {
    if k == 0 then 0 else LimitSum(p, n, k - 1) + StepLimit(p, n[k])
  }

  /** Step k of an accepted, speed-limited channel. */
  lemma AcceptedStep(d: Dev, s: State, l: nat, k: nat, p: int, n: seq<int>)
    requires Shaped(d, s) && Acceptable(d, s) && l < d.n && InTable(d, s, l) && s.out[l].spd != 0
    requires Units(d, s, s.out[l], p, n) && 1 <= k < |s.times|
    ensures LengthOk(d, s, l) && StepFits(d, s, l, k, p, n)
  {
    assert Affected(d, s, l);
    assert LengthOk(d, s, l) && StepsOk(d, s, l, |s.times|);
    assert StepOk(d, s, l, k);
    StepFitsIff(d, s, l, k, p, n);
  }

  /** No step of an accepted table is further from zero than the start plus what
      the step limits add up to; with a negative (two-sided) speed the same sum
      bounds the distance from the start. */
  lemma {:induction false} Excursion(d: Dev, s: State, l: nat, k: nat, p: int, n: seq<int>)
    requires Shaped(d, s) && Acceptable(d, s) && l < d.n && InTable(d, s, l) && s.out[l].spd != 0
    requires Units(d, s, s.out[l], p, n) && k < |s.times|
    ensures LengthOk(d, s, l)
    ensures var start, sum := ValueAt(d, s, l, 0), LimitSum(p, n, k);
      && Abs(ValueAt(d, s, l, k)) <= Abs(start) + sum
      && (s.out[l].spd < 0 ==> Abs(ValueAt(d, s, l, k) - start) <= sum)
  {
    assert Affected(d, s, l) && LengthOk(d, s, l);
    if k > 0 {
      Excursion(d, s, l, k - 1, p, n);
      AcceptedStep(d, s, l, k, p, n);
    }
  }

  /** The same, counted from the output's value before activation. */
  lemma ExcursionFromCur(d: Dev, s: State, l: nat, k: nat, p: int, n: seq<int>)
    requires Shaped(d, s) && Acceptable(d, s) && l < d.n && InTable(d, s, l) && s.out[l].spd != 0
    requires Units(d, s, s.out[l], p, n) && k < |s.times|
    ensures LengthOk(d, s, l)
    ensures var c := s.out[l];
      var sum := Quot(Abs(c.spd), d.hbFreq) + LimitSum(p, n, k);
      && Abs(ValueAt(d, s, l, k)) <= Abs(c.cur) + sum
      && (c.spd < 0 ==> Abs(ValueAt(d, s, l, k) - c.cur) <= sum)
  {
    Excursion(d, s, l, k, p, n);
    assert FirstOk(d, s, l) && Affected(d, s, l);
  }
}
