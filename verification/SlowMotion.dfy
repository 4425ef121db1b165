/** Kinetic "slow motion": the plan of a move and what one heartbeat does to one
    channel (hw4cx/include/advdac_slowmo_kinetic_meat.h:40-91 and 144-245). */
module SlowMotion {
  import opened CMath
  import opened AdvDac

  // ----- planning a move -----

  datatype Profile = Profile(mxs: int, crs: int, mns: int, acs: int, dcd: int)

  /** The speed limit per heartbeat. */
  function TopSpeed(d: Dev, c: Chan): nat {
    Quot(Abs(c.spd), d.hbFreq)
  }

  /** Acceleration per heartbeat. */
  function Accel(d: Dev, c: Chan): (a1: int)
    requires c.tac > 0
    ensures 1 <= a1 <= Max(TopSpeed(d, c), 1)
  {
    QuotShrinks(TopSpeed(d, c), c.tac);
    var a1 := Quot(TopSpeed(d, c), c.tac);
    if a1 == 0 then 1 else a1
  }

  /** Starting (and minimal) speed per heartbeat. */
  function StartSpeed(a1: int): (a2: int)
    requires a1 >= 1
    ensures 1 <= a2 <= a1
  {
    if a1 / 2 == 0 then 1 else a1 / 2
  }

  /** Distance covered while accelerating from spd to mxs by a1 each heartbeat; it
      is also what braking from mxs back to spd takes. */
  function Braking(spd: int, mxs: int, a1: int): (dist: nat)
    requires spd >= 1 && a1 >= 1
    decreases mxs - spd
  {
    if spd >= mxs then 0 else spd + Braking(spd + a1, mxs, a1)
  }

  /** The plan of a move: the braking distance is the length of the acceleration,
      but never more than half of the way. */
  function Plan(d: Dev, trg: int, c: Chan): (p: Profile)
    ensures 0 <= p.dcd <= Abs(trg - c.cur) / 2
    ensures c.tac > 0 ==> 1 <= p.mns == p.crs <= Max(p.mxs, 1) && p.mxs == TopSpeed(d, c)
  {
    if c.tac <= 0 then
      Profile(0, 0, 0, 0, 0)
    else
      var mxs := TopSpeed(d, c);
      var a1 := Accel(d, c);
      var a2 := StartSpeed(a1);
      Profile(mxs, a2, a2, a1, Min(Abs(trg - c.cur) / 2, Braking(a2, mxs, a1)))
  }

  /** The accumulation loop computes the plan; on its way the cap at |spd| never
      takes effect.  A move is refused (to be set at once) only at spd==0. */
  method DoCalcMovement(d: Dev, trg: int, ci: Chan) returns (immed: bool, rp: Profile)
    ensures immed <==> ci.spd == 0
    ensures !immed ==> rp == Plan(d, trg, ci)
  {
    if ci.spd == 0 {
      return true, Profile(0, 0, 0, 0, 0);
    }
    if ci.tac <= 0 {
      return false, Profile(0, 0, 0, 0, 0);
    }
    QuotIsDiv(Abs(ci.spd), d.hbFreq);
    var mxs := Abs(ci.spd) / d.hbFreq;
    QuotIsDiv(mxs, ci.tac);
    var a1 := mxs / ci.tac;
    if a1 == 0 { a1 := 1; }
    var a2 := a1 / 2;
    if a2 == 0 { a2 := 1; }
    assert a1 == Accel(d, ci) && a2 == StartSpeed(a1);

    var dHalf := Abs(trg - ci.cur) / 2;
    var pos, spd := 0, a2;
    while pos <= dHalf && spd < mxs
      invariant spd >= 1 && a1 >= 1
      invariant pos + Braking(spd, mxs, a1) == Braking(a2, mxs, a1)
      decreases mxs - spd
    {
      pos := pos + spd;
      CapIsIdle(d, ci, spd);
      spd := spd + a1;
      if spd > Abs(ci.spd) {
        assert false;
      }
    }
    immed := false;
    rp := Profile(mxs, a2, a2, a1, if pos < dHalf then pos else dHalf);
  }

  /** How many heartbeats the acceleration from spd to mxs lasts. */
  function RampLength(spd: int, mxs: int, a1: int): nat
    requires a1 >= 1
  {
    if spd >= mxs then 0 else CeilDiv(mxs - spd, a1)
  }

  /** One more term in front of an arithmetic progression of j terms. */
  lemma ProgressionStep(j: int, spd: int, a1: int)
    ensures 2 * spd + (2 * (j * (spd + a1)) + a1 * (j * (j - 1))) == 2 * ((j + 1) * spd) + a1 * ((j + 1) * j)
  {
    var ja := j * a1;
    assert j * (spd + a1) == j * spd + ja;
    assert (j + 1) * spd == j * spd + spd;
    assert (j + 1) * j == j * (j - 1) + 2 * j;
    assert a1 * (j * (j - 1) + 2 * j) == a1 * (j * (j - 1)) + 2 * ja;
  }

  /** The sum of the arithmetic progression, in closed form. */
  lemma {:induction false} BrakingClosedForm(spd: int, mxs: int, a1: int)
    requires spd >= 1 && a1 >= 1
    ensures var k := RampLength(spd, mxs, a1);
      2 * Braking(spd, mxs, a1) == 2 * (k * spd) + a1 * (k * (k - 1))
    decreases mxs - spd
  {
    if spd < mxs {
      BrakingClosedForm(spd + a1, mxs, a1);
      ProgressionStep(RampLength(spd + a1, mxs, a1), spd, a1);
      assert RampLength(spd, mxs, a1) == RampLength(spd + a1, mxs, a1) + 1;
    }
  }

  /** The whole kinetic plan in terms of the settings, without any loop: top speed,
      acceleration and starting speed per heartbeat, each at least 1 where the move
      needs it, and the braking distance of k heartbeats of acceleration, or half of
      the way if that is less. */
  lemma BrakingDistance(d: Dev, trg: int, c: Chan)
    requires c.tac > 0
    ensures var top := Quot(Abs(c.spd), d.hbFreq);
      var a1 := Max(1, Quot(top, c.tac));
      var a2 := Max(1, Quot(a1, 2));
      var k := if top <= a2 then 0 else CeilDiv(top - a2, a1);
      Plan(d, trg, c) == Profile(top, a2, a2, a1, Min(Abs(trg - c.cur) / 2, k * a2 + a1 * (k * (k - 1)) / 2))
  {
    QuotIsDiv(Accel(d, c), 2);
    BrakingClosedForm(StartSpeed(Accel(d, c)), TopSpeed(d, c), Accel(d, c));
  }

  /** Below the top speed one more acceleration cannot exceed |spd|. */
  lemma CapIsIdle(d: Dev, c: Chan, spd: int)
    requires c.tac > 0 && 1 <= spd < TopSpeed(d, c)
    ensures spd + Accel(d, c) <= Abs(c.spd)
  {
    var mxs := TopSpeed(d, c);
    QuotBounds(Abs(c.spd), d.hbFreq);
    MulMono(2, d.hbFreq, mxs);
  }

  // ----- one heartbeat of one channel -----

  /** How far the next heartbeat may go. */
  function StepSize(d: Dev, c: Chan): int {
    if c.tac > 0 then c.crs else TopSpeed(d, c)
  }

  /** The value a heartbeat sends, moving from dsr towards trg by st. */
  function Toward(c: Chan, st: int): int {
    if c.trg > c.dsr
    then if c.dsr + st >= c.trg then c.trg else c.dsr + st
    else if c.dsr - st <= c.trg then c.trg else c.dsr - st
  }

  function NextVal(d: Dev, c: Chan): int {
    if c.tac <= 0 && c.spd == 0 then c.trg else Toward(c, StepSize(d, c))
  }

  /** This heartbeat sends the final value of the move. */
  predicate Arrives(d: Dev, c: Chan) {
    || (c.tac <= 0 && c.spd == 0)
    || (if c.trg > c.dsr then c.dsr + StepSize(d, c) >= c.trg else c.dsr - StepSize(d, c) <= c.trg)
  }

  function NextSpeed(c: Chan, val: int): int {
    if Abs(c.trg - val) <= c.dcd then
      Max(c.crs - (if c.crs < c.mxs then c.acs else c.mns), c.mns)
    else if c.crs < c.mxs then
      Min(c.crs + c.acs, c.mxs)
    else
      c.crs
  }

  /** The channel after a heartbeat that found isc and nxt set. */
  function Beat(d: Dev, c: Chan): Chan {
    var val := NextVal(d, c);
    c.(crs := if c.tac > 0 then NextSpeed(c, val) else c.crs,
       fin := c.fin || Arrives(d, c),
       nxt := false,
       dsr := val)
  }

  // ----- one readback -----

  /** The channel after a readback of val. */
  function AfterRead(d: Dev, c: Chan, val: int): Chan {
    var isc := c.isc && !c.fin;
    c.(cur := val, rcv := true, nxt := true,
       dsr := if Abs(c.dsr - val) >= d.quant + 1 then val else c.dsr,
       isc := isc,
       fst := c.fst && !isc)
  }

  // ----- lemmas about one channel -----

  /** Remaining distance. */
  function Rem(c: Chan): nat {
    Abs(c.trg - c.dsr)
  }

  /** What every stored profile satisfies: a kinetic plan, or the zeroed one. */
  predicate ProfileOk(c: Chan) {
    && 0 <= c.mns <= c.crs <= Max(c.mxs, c.mns)
    && 0 <= c.mxs && 0 <= c.acs && 0 <= c.dcd
    && c.mns <= Max(c.mxs, 1)
    && (c.mns == 0 ==> c.mxs == 0)
  }

  /** The move can advance: a kinetic plan, a nonzero linear step, or no speed
      limit left. */
  predicate Live(d: Dev, c: Chan) {
    if c.tac > 0 then c.mns >= 1 else c.spd == 0 || Abs(c.spd) >= d.hbFreq
  }

  lemma TopSpeedPositiveIff(d: Dev, c: Chan)
    ensures TopSpeed(d, c) >= 1 <==> Abs(c.spd) >= d.hbFreq
  {
    QuotBounds(Abs(c.spd), d.hbFreq);
  }

  /** A beat goes towards the target by at most the step and never past it; it
      arrives exactly when the step covers what remains. */
  lemma BeatAdvances(d: Dev, c: Chan)
    requires ProfileOk(c)
    ensures var b := Beat(d, c);
      && Between(c.dsr, b.dsr, c.trg)
      && Rem(b) == (if Arrives(d, c) then 0 else Rem(c) - StepSize(d, c))
      && (Arrives(d, c) <==> (c.tac <= 0 && c.spd == 0) || Rem(c) <= StepSize(d, c))
      && b.fin == (c.fin || Arrives(d, c))
      && ProfileOk(b)
      && (c.tac > 0 ==> c.mns <= StepSize(d, c) <= Max(c.mxs, c.mns))
  {
  }

  /** The speed grows up to mxs while more than dcd remains, and falls down to mns
      after. */
  lemma SpeedIsUnimodalStep(d: Dev, c: Chan)
    requires ProfileOk(c) && c.tac > 0
    ensures var b := Beat(d, c);
      && c.mns <= b.crs <= Max(c.mxs, c.mns)
      && (Rem(b) > c.dcd ==> c.crs <= b.crs && (c.acs > 0 ==> c.crs < b.crs || c.crs >= c.mxs))
      && (Rem(b) <= c.dcd ==> b.crs <= c.crs && (c.acs > 0 ==> b.crs < c.crs || c.crs == c.mns))
  {
  }

  /** A kinetic move respects the per-heartbeat limit at every speed setting it
      can have exactly when that limit is not zero: below HEARTBEAT_FREQ the limit
      is 0, yet the move creeps by 1. */
  lemma KineticLimitIff(d: Dev, trg: int, c: Chan)
    requires c.tac > 0
    ensures Plan(d, trg, c).crs <= TopSpeed(d, c) <==> Abs(c.spd) >= d.hbFreq
    ensures Abs(c.spd) < d.hbFreq ==> Plan(d, trg, c).crs == 1
  {
    TopSpeedPositiveIff(d, c);
  }
}
