/** What a table must satisfy to be activated
    (hw4cx/include/advdac_cankoz_table_meat.h:163-281). */
module TableCheck {
  import opened CMath
  import opened AdvDac
  import opened SlowMotion
  import opened DacState

  /** Channel l takes part in the table. */
  predicate Affected(d: Dev, s: State, l: nat)
    requires l < |s.vals|
  {
    |s.vals[l]| > 0 && s.vals[l][0] > d.disableChan
  }

  /** A same-sign step towards zero; a positive speed does not limit those. */
  predicate Decrement(spd: int, next: int, prev: int) {
    && spd > 0
    && Abs(next) < Abs(prev)
    && (next == 0 || (next > 0 && prev > 0) || (next < 0 && prev < 0))
  }

  /** Step 0 means "whatever the output is now". */
  predicate FromCur(d: Dev, s: State, l: nat)
    requires l < |s.vals| && |s.vals[l]| > 0
  {
    s.vals[l][0] >= d.startFromCur
  }

  /** The value channel l is set to before the table runs. */
  function Initial(d: Dev, s: State, l: nat): int
    requires Shaped(d, s) && l < d.n && |s.vals[l]| > 0
  {
    if FromCur(d, s, l) then s.out[l].cur else s.vals[l][0]
  }

  predicate JumpOk(d: Dev, s: State, l: nat)
    requires Shaped(d, s) && l < d.n && |s.vals[l]| > 0
  {
    var c := s.out[l];
    || FromCur(d, s, l)
    || Decrement(c.spd, s.vals[l][0], c.cur)
    || Abs(s.vals[l][0] - c.cur) <= TopSpeed(d, c)
  }

  /** Speed limit per table step unit. */
  function PerStep(d: Dev, c: Chan): (p: int)
    ensures p >= 1
  {
    var p := Quot(Abs(c.spd), d.stepsPerSec);
    if p < 1 then 1 else p
  }

  /** Duration of a step in table step units. */
  function StepUnits(d: Dev, time: int): (n: int)
    ensures n >= 1
  {
    if time < 0 then 1 else
    var n := Quot(time, d.usecsInStep);
    if n < 1 then 1 else n
  }

  /** The value before step t. */
  function Before(d: Dev, s: State, l: nat, t: nat): int
    requires Shaped(d, s) && l < d.n && 1 <= t <= |s.vals[l]|
  {
    if t == 1 then Initial(d, s, l) else s.vals[l][t - 1]
  }

  predicate StepOk(d: Dev, s: State, l: nat, t: nat)
    requires Shaped(d, s) && l < d.n && 1 <= t < |s.vals[l]| && t < |s.times|
  {
    var c := s.out[l];
    var n := StepUnits(d, s.times[t]);
    || Decrement(c.spd, s.vals[l][t], Before(d, s, l, t))
    || Quot(Abs(s.vals[l][t] - Before(d, s, l, t)), n) <= PerStep(d, c)
  }

  // The checks one by one, each for one channel.

  predicate LengthOk(d: Dev, s: State, l: nat)
    requires l < |s.vals|
  {
    Affected(d, s, l) ==> |s.vals[l]| == |s.times|
  }

  predicate CurOk(d: Dev, s: State, l: nat)
    requires Shaped(d, s) && l < d.n
  {
    Affected(d, s, l) && FromCur(d, s, l) ==> s.out[l].rcv
  }

  predicate FirstOk(d: Dev, s: State, l: nat)
    requires Shaped(d, s) && l < d.n
  {
    Affected(d, s, l) && s.out[l].spd != 0 ==> JumpOk(d, s, l)
  }

  predicate StepsOk(d: Dev, s: State, l: nat, upTo: nat)
    requires Shaped(d, s) && l < d.n && LengthOk(d, s, l) && upTo <= |s.times|
  {
    Affected(d, s, l) && s.out[l].spd != 0 ==> forall t :: 1 <= t < upTo ==> StepOk(d, s, l, t)
  }

  // Whole passes over channels 0 .. upTo-1.

  predicate SomeAffected(d: Dev, s: State, upTo: nat)
    requires Shaped(d, s) && upTo <= d.n
  {
    exists l :: 0 <= l < upTo && Affected(d, s, l)
  }

  predicate Lengths(d: Dev, s: State, upTo: nat)
    requires Shaped(d, s) && upTo <= d.n
  {
    forall l :: 0 <= l < upTo ==> LengthOk(d, s, l)
  }

  predicate Curs(d: Dev, s: State, upTo: nat)
    requires Shaped(d, s) && upTo <= d.n
  {
    forall l :: 0 <= l < upTo ==> CurOk(d, s, l)
  }

  predicate Jumps(d: Dev, s: State, upTo: nat)
    requires Shaped(d, s) && upTo <= d.n
  {
    forall l :: 0 <= l < upTo ==> FirstOk(d, s, l)
  }

  predicate AllSteps(d: Dev, s: State, upTo: nat)
    requires Shaped(d, s) && upTo <= d.n && Lengths(d, s, d.n)
  {
    forall l :: 0 <= l < upTo ==> LengthOk(d, s, l) && StepsOk(d, s, l, |s.times|)
  }

  /** The table may be activated. */
  predicate Acceptable(d: Dev, s: State)
    requires Shaped(d, s)
  {
    && |s.times| >= 1
    && SomeAffected(d, s, d.n)
    && Lengths(d, s, d.n)
    && Curs(d, s, d.n)
    && Jumps(d, s, d.n)
    && AllSteps(d, s, d.n)
  }

  /** v names the first check that fails, at the first channel (and step) where it
      does; checks run one after another, each over all the channels. */
  predicate Explains(d: Dev, s: State, v: Status)
    requires Shaped(d, s)
  {
    match v
    case NoTimes => |s.times| < 1
    case NoChannels => |s.times| >= 1 && !SomeAffected(d, s, d.n)
    case BadLength(l) =>
      && |s.times| >= 1 && l < d.n
      && Lengths(d, s, l) && !LengthOk(d, s, l)
    case NoCurrent(l) =>
      && |s.times| >= 1 && l < d.n && Lengths(d, s, d.n)
      && Curs(d, s, l) && !CurOk(d, s, l)
    case FastJump(l) =>
      && |s.times| >= 1 && l < d.n && Lengths(d, s, d.n) && Curs(d, s, d.n)
      && Jumps(d, s, l) && !FirstOk(d, s, l)
    case FastStep(l, t) =>
      && |s.times| >= 1 && l < d.n && Lengths(d, s, d.n) && Curs(d, s, d.n) && Jumps(d, s, d.n)
      && AllSteps(d, s, l)
      && Affected(d, s, l) && s.out[l].spd != 0 && 1 <= t < |s.times|
      && LengthOk(d, s, l) && StepsOk(d, s, l, t) && !StepOk(d, s, l, t)
    case _ => false
  }

  /** A table is refused with at most one explanation, and only if it is not acceptable. */
  lemma ExplanationIsUnique(d: Dev, s: State, v: Status, w: Status)
    requires Shaped(d, s) && Explains(d, s, v) && Explains(d, s, w)
    ensures v == w && !Acceptable(d, s)
  {
    match v
    case BadLength(l) => assert !LengthOk(d, s, l); assert Affected(d, s, l);
    case NoCurrent(l) => assert !CurOk(d, s, l); assert Affected(d, s, l);
    case FastJump(l) => assert !FirstOk(d, s, l); assert Affected(d, s, l);
    case FastStep(l, t) =>
      assert !StepOk(d, s, l, t);
      assert !StepsOk(d, s, l, |s.times|);

      if w.FastStep? {
        assert !StepOk(d, s, w.l, w.step);
        assert !StepsOk(d, s, w.l, |s.times|);

      }
    case _ =>
  }

  // The first failure of each kind.

  lemma {:induction false} FirstBadLength(d: Dev, s: State, upTo: nat) returns (l: nat)
    requires Shaped(d, s) && upTo <= d.n && !Lengths(d, s, upTo)
    ensures l < upTo && Lengths(d, s, l) && !LengthOk(d, s, l)
  {
    if Lengths(d, s, upTo - 1) { l := upTo - 1; } else { l := FirstBadLength(d, s, upTo - 1); }
  }

  lemma {:induction false} FirstBadCur(d: Dev, s: State, upTo: nat) returns (l: nat)
    requires Shaped(d, s) && upTo <= d.n && !Curs(d, s, upTo)
    ensures l < upTo && Curs(d, s, l) && !CurOk(d, s, l)
  {
    if Curs(d, s, upTo - 1) { l := upTo - 1; } else { l := FirstBadCur(d, s, upTo - 1); }
  }

  lemma {:induction false} FirstBadJump(d: Dev, s: State, upTo: nat) returns (l: nat)
    requires Shaped(d, s) && upTo <= d.n && !Jumps(d, s, upTo)
    ensures l < upTo && Jumps(d, s, l) && !FirstOk(d, s, l)
  {
    if Jumps(d, s, upTo - 1) { l := upTo - 1; } else { l := FirstBadJump(d, s, upTo - 1); }
  }

  lemma {:induction false} FirstBadLine(d: Dev, s: State, upTo: nat) returns (l: nat)
    requires Shaped(d, s) && upTo <= d.n && Lengths(d, s, d.n) && !AllSteps(d, s, upTo)
    ensures l < upTo && AllSteps(d, s, l) && LengthOk(d, s, l) && !StepsOk(d, s, l, |s.times|)
  {
    assert forall k | 0 <= k < d.n :: LengthOk(d, s, k);
    assert !(AllSteps(d, s, upTo - 1) && StepsOk(d, s, upTo - 1, |s.times|));
    if AllSteps(d, s, upTo - 1) { l := upTo - 1; } else { l := FirstBadLine(d, s, upTo - 1); }
  }

  lemma {:induction false} FirstBadStep(d: Dev, s: State, l: nat, upTo: nat) returns (t: nat)
    requires Shaped(d, s) && l < d.n && LengthOk(d, s, l) && upTo <= |s.times|
    requires !StepsOk(d, s, l, upTo)
    ensures 1 <= t < upTo && Affected(d, s, l) && s.out[l].spd != 0
    ensures StepsOk(d, s, l, t) && !StepOk(d, s, l, t)
  {
    if StepsOk(d, s, l, upTo - 1) { t := upTo - 1; } else { t := FirstBadStep(d, s, l, upTo - 1); }
  }

  /** A table that is not acceptable always has an explanation. */
  lemma ExplanationExists(d: Dev, s: State)
    requires Shaped(d, s) && !Acceptable(d, s)
    ensures exists v :: Explains(d, s, v)
  {
    var v: Status;
    if |s.times| < 1 {
      v := NoTimes;
    } else if !SomeAffected(d, s, d.n) {
      v := NoChannels;
    } else if !Lengths(d, s, d.n) {
      var l := FirstBadLength(d, s, d.n);
      v := BadLength(l);
    } else if !Curs(d, s, d.n) {
      var l := FirstBadCur(d, s, d.n);
      v := NoCurrent(l);
    } else if !Jumps(d, s, d.n) {
      var l := FirstBadJump(d, s, d.n);
      v := FastJump(l);
    } else {
      var l := FirstBadLine(d, s, d.n);
      var t := FirstBadStep(d, s, l, |s.times|);
      v := FastStep(l, t);
    }
    assert Explains(d, s, v);
  }

  /** The status a refused activation reports. */
  ghost function Verdict(d: Dev, s: State): (v: Status)
    requires Shaped(d, s) && !Acceptable(d, s)
    ensures Explains(d, s, v)
  {
    ExplanationExists(d, s);
    var v :| Explains(d, s, v);
    v
  }
}
