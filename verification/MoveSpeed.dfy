/** The speed of an undisturbed kinetic move, heartbeat by heartbeat: it climbs by acs
    to the top speed, stays there, and comes down again
    (hw4cx/include/advdac_slowmo_kinetic_meat.h:64-91 and 152-208). */
module MoveSpeed {
  import opened CMath
  import opened AdvDac
  import opened SlowMotion
  import opened MoveCount
  import opened DacState
  import opened DacSpec
  import opened DacSafety
  import opened MoveProgress

  // ----- the profile that is expected -----

  /** The speed after k heartbeats of climbing. */
  function Climbing(mns: int, acs: int, top: int, k: nat): int {
    Min(mns + Times(k, acs), top)
  }

  /** The way covered by k heartbeats of climbing. */
  function Climb(mns: int, acs: int, top: int, k: nat): int {
    if k == 0 then 0 else Climb(mns, acs, top, k - 1) + Climbing(mns, acs, top, k - 1)
  }

  /** The speed after k heartbeats of descending from crs: the first drop from the top
      speed is by mns, any other by acs, and mns is the least. */
  function Falling(crs: int, mxs: int, mns: int, acs: int, k: nat): int {
    if k == 0 then crs
    else if crs >= mxs then Max(crs - mns - Times(k - 1, acs), mns)
    else Max(crs - Times(k, acs), mns)
  }

  function Top(c: Chan): int {
    Max(c.mxs, c.mns)
  }

  // ----- climbing -----

  /** c after k acknowledged heartbeats of a kinetic move that began like c0. */
  predicate Climbs(c0: Chan, c: Chan, k: nat) {
    && c.mns == c0.mns && c.mxs == c0.mxs && c.acs == c0.acs && c.dcd == c0.dcd && c.trg == c0.trg
    && c.tac == c0.tac
    && var way := Climb(c0.mns, c0.acs, Top(c0), k);
    if Rem(c0) - way > c0.dcd
    then Rem(c) == Rem(c0) - way && c.crs == Climbing(c0.mns, c0.acs, Top(c0), k)
    else Rem(c) <= c0.dcd
  }

  lemma BeatClimbs(d: Dev, c0: Chan, c: Chan, k: nat)
    requires ProfileOk(c0) && ProfileOk(c) && c.tac > 0 && Climbs(c0, c, k)
    ensures Climbs(c0, Beat(d, c), k + 1)
  {
    BeatAdvances(d, c);
    ClimbingPositive(c0, k);
  }

  lemma {:induction false} ClimbingPositive(c: Chan, k: nat)
    requires ProfileOk(c)
    ensures Times(k, c.acs) >= 0 && Climbing(c.mns, c.acs, Top(c), k) >= 0
  {
    if k > 0 { ClimbingPositive(c, k - 1); }
  }

  lemma OtherClimbs(d: Dev, c0: Chan, c: Chan, b: Chan, k: nat, v: int)
    requires Climbs(c0, c, k)
    requires SameMove(b, c) || (b == AfterRead(d, c, v) && b.dsr == c.dsr)
    ensures Climbs(c0, b, k)
  {
  }

  lemma StepClimbs(d: Dev, s: State, l: nat, e: Event, t: State, c0: Chan, k: nat)
    requires Inv(d, s) && l < d.n && Step(d, s, e, t) && Undisturbed(d, s, l, e)
    requires ProfileOk(c0) && c0.tac > 0 && Climbs(c0, s.out[l], k)
    ensures l < |t.out| && Climbs(c0, t.out[l], k + Tick(s, l, e))
  {
    var c, b := s.out[l], t.out[l];
    QuietStep(d, s, l, e);
    if Advances(s, l, e) {
      assert ChanInv(d, c);
      BeatClimbs(d, c0, c, k);
    } else {
      OtherClimbs(d, c0, c, b, k, if e.ReadDac? then e.val else 0);
    }
  }

  lemma NextClimbs(h: GoodRun, l: nat, i: nat, j: nat)
    requires Quiet(h, l, i, j) && i < j && h.ss[i].out[l].tac > 0
    requires Climbs(h.ss[i].out[l], h.ss[j - 1].out[l], Beats(h, l, i, j - 1))
    ensures Climbs(h.ss[i].out[l], h.ss[j].out[l], Beats(h, l, i, j))
  {
    RunInv(h, i);
    RunInv(h, j - 1);
    assert ChanInv(h.d, h.ss[i].out[l]);
    StepClimbs(h.d, h.ss[j - 1], l, h.es[j - 1], h.ss[j], h.ss[i].out[l], Beats(h, l, i, j - 1));
  }

  /** From the start of a kinetic move: after k acknowledged heartbeats, and as long as
      the way of k heartbeats of climbing leaves more than dcd, exactly that way is
      covered and the speed is mns + k * acs, at most the top speed; from then on no
      more than dcd remains. */
  lemma {:induction false} SpeedClimbs(h: GoodRun, l: nat, i: nat, j: nat)
    requires Quiet(h, l, i, j) && h.ss[i].out[l].tac > 0 && h.ss[i].out[l].crs == h.ss[i].out[l].mns
    ensures Climbs(h.ss[i].out[l], h.ss[j].out[l], Beats(h, l, i, j))
  {
    if i < j {
      SpeedClimbs(h, l, i, j - 1);
      NextClimbs(h, l, i, j);
    } else {
      RunInv(h, i);
      assert ChanInv(h.d, h.ss[i].out[l]);
    }
  }

  // ----- descending -----

  /** The next heartbeat leaves no more than dcd. */
  predicate Brakes(c: Chan) {
    Rem(c) - c.crs <= c.dcd
  }

  predicate Falls(c0: Chan, c: Chan, k: nat) {
    && c.mns == c0.mns && c.mxs == c0.mxs && c.acs == c0.acs && c.dcd == c0.dcd && c.trg == c0.trg
    && c.tac == c0.tac
    && c.crs == Falling(c0.crs, c0.mxs, c0.mns, c0.acs, k)
    && (if k == 0 then Rem(c) == Rem(c0) else Rem(c) <= c0.dcd)
  }

  lemma BeatFalls(d: Dev, c0: Chan, c: Chan, k: nat)
    requires ProfileOk(c0) && ProfileOk(c) && c.tac > 0 && Brakes(c0) && Falls(c0, c, k)
    ensures Falls(c0, Beat(d, c), k + 1)
  {
    BeatAdvances(d, c);
    ClimbingPositive(c0, k);
    if k > 0 { ClimbingPositive(c0, k - 1); }
  }

  lemma OtherFalls(d: Dev, c0: Chan, c: Chan, b: Chan, k: nat, v: int)
    requires Falls(c0, c, k)
    requires SameMove(b, c) || (b == AfterRead(d, c, v) && b.dsr == c.dsr)
    ensures Falls(c0, b, k)
  {
  }

  lemma StepFalls(d: Dev, s: State, l: nat, e: Event, t: State, c0: Chan, k: nat)
    requires Inv(d, s) && l < d.n && Step(d, s, e, t) && Undisturbed(d, s, l, e)
    requires ProfileOk(c0) && c0.tac > 0 && Brakes(c0) && Falls(c0, s.out[l], k)
    ensures l < |t.out| && Falls(c0, t.out[l], k + Tick(s, l, e))
  {
    var c, b := s.out[l], t.out[l];
    QuietStep(d, s, l, e);
    if Advances(s, l, e) {
      assert ChanInv(d, c);
      BeatFalls(d, c0, c, k);
    } else {
      OtherFalls(d, c0, c, b, k, if e.ReadDac? then e.val else 0);
    }
  }

  lemma NextFalls(h: GoodRun, l: nat, i: nat, j: nat)
    requires Quiet(h, l, i, j) && i < j && h.ss[i].out[l].tac > 0 && Brakes(h.ss[i].out[l])
    requires Falls(h.ss[i].out[l], h.ss[j - 1].out[l], Beats(h, l, i, j - 1))
    ensures Falls(h.ss[i].out[l], h.ss[j].out[l], Beats(h, l, i, j))
  {
    RunInv(h, i);
    RunInv(h, j - 1);
    assert ChanInv(h.d, h.ss[i].out[l]);
    StepFalls(h.d, h.ss[j - 1], l, h.es[j - 1], h.ss[j], h.ss[i].out[l], Beats(h, l, i, j - 1));
  }

  /** From the moment whose next heartbeat leaves no more than dcd, each acknowledged
      heartbeat lowers the speed: by mns from the top speed, by acs below it, never
      under mns. */
  lemma {:induction false} SpeedFalls(h: GoodRun, l: nat, i: nat, j: nat)
    requires Quiet(h, l, i, j) && h.ss[i].out[l].tac > 0 && Brakes(h.ss[i].out[l])
    ensures Falls(h.ss[i].out[l], h.ss[j].out[l], Beats(h, l, i, j))
  {
    if i < j {
      SpeedFalls(h, l, i, j - 1);
      NextFalls(h, l, i, j);
    }
  }

  // ----- closed forms -----

  /** One more term behind an arithmetic progression of n terms. */
  lemma OneTermMore(mns: int, acs: int, n: nat)
    ensures 2 * (n * mns) + acs * (n * (n - 1)) + 2 * (mns + n * acs) == 2 * ((n + 1) * mns) + acs * ((n + 1) * n)
  {
    var p := n * acs;
    assert (n + 1) * mns == n * mns + mns;
    assert (n + 1) * n == n * (n - 1) + 2 * n;
    assert acs * (n * (n - 1) + 2 * n) == acs * (n * (n - 1)) + 2 * p;
  }

  /** Up to the top speed the way is the sum of an arithmetic progression. */
  lemma {:induction false} ClimbClosedForm(mns: int, acs: int, top: int, k: nat)
    requires acs >= 0 && (k > 0 ==> mns + Times(k - 1, acs) <= top)
    ensures 2 * Climb(mns, acs, top, k) == 2 * (k * mns) + acs * (k * (k - 1))
  {
    if k > 0 {
      ClimbClosedForm(mns, acs, top, k - 1);
      TimesIsProduct(k - 1, acs);
      OneTermMore(mns, acs, k - 1);
    }
  }

  /** The top speed is there after exactly RampLength heartbeats. */
  lemma TopIffRampLength(mns: int, mxs: int, acs: int, k: nat)
    requires acs >= 1
    ensures Climbing(mns, acs, Max(mxs, mns), k) == Max(mxs, mns) <==> k >= RampLength(mns, mxs, acs)
  {
    TimesIsProduct(k, acs);
    MulMono(0, acs, k);
    if mns < mxs {
      CeilDivBounds(mxs - mns, acs);
      if k * acs >= mxs - mns {
        CeilDivLeast(mxs - mns, acs, k);
      } else {
        CeilDivGreatest(mxs - mns, acs, k + 1);
      }
    }
  }

  /** Climbing to the top covers the distance that the plan reserves for braking. */
  lemma ClimbIsBraking(mns: int, mxs: int, acs: int)
    requires mns >= 1 && acs >= 1
    ensures Climb(mns, acs, Max(mxs, mns), RampLength(mns, mxs, acs)) == Braking(mns, mxs, acs)
  {
    var k := RampLength(mns, mxs, acs);
    if k > 0 {
      CeilDivBounds(mxs - mns, acs);
      TimesIsProduct(k - 1, acs);
    }
    ClimbClosedForm(mns, acs, Max(mxs, mns), k);
    BrakingClosedForm(mns, mxs, acs);
  }

  // ----- from a set-point on -----

  lemma KineticBegun(d: Dev, s: State, l: nat, req: int, t: State)
    requires l < d.n && Step(d, s, OutWrite(l, req), t)
    requires !s.out[l].lkd && !Fast(d, s.out[l], Clip(d, s.out[l], req))
    ensures l < |t.out| && t.out[l] == Begun(d, s.out[l], Clip(d, s.out[l], req))
  {
  }

  /** The settings of channel c in terms of its speed and acceleration time: top speed,
      acceleration and starting speed per heartbeat, how many heartbeats the
      acceleration takes, and its way. */
  datatype Pace = Pace(top: nat, a1: int, a2: int, k: nat, b: nat)

  function PaceOf(d: Dev, c: Chan): (p: Pace)
    requires c.tac > 0
    ensures p.a1 >= 1 && p.a2 >= 1
    ensures p.top == Quot(Abs(c.spd), d.hbFreq)
    ensures p.a1 == Max(1, Quot(p.top, c.tac)) && p.a2 == Max(1, Quot(p.a1, 2))
    ensures p.k == (if p.top <= p.a2 then 0 else CeilDiv(p.top - p.a2, p.a1))
    ensures 2 * p.b == 2 * (p.k * p.a2) + p.a1 * (p.k * (p.k - 1))
  {
    var top, a1 := TopSpeed(d, c), Accel(d, c);
    var a2 := StartSpeed(a1);
    QuotIsDiv(a1, 2);
    BrakingClosedForm(a2, top, a1);
    Pace(top, a1, a2, RampLength(a2, top, a1), Braking(a2, top, a1))
  }

  predicate HasPace(c0: Chan, p: Pace) {
    && p.a1 >= 1 && p.a2 >= 1
    && c0.mxs == p.top && c0.acs == p.a1 && c0.mns == c0.crs == p.a2 && c0.tac > 0
    && p.k == RampLength(p.a2, p.top, p.a1) && p.b == Braking(p.a2, p.top, p.a1)
    && c0.dcd == Min(Rem(c0) / 2, p.b)
  }

  lemma BegunPace(d: Dev, c: Chan, val: int)
    requires c.tac > 0
    ensures HasPace(Begun(d, c, val), PaceOf(d, c)) && Rem(Begun(d, c, val)) == Abs(val - c.cur)
  {
  }

  /** c after n heartbeats of a move over the distance dist. */
  predicate SpeedsUp(c: Chan, dist: nat, p: Pace, n: nat) {
    dist > 2 * p.b && n <= p.k ==>
      && (c.crs == Max(p.top, p.a2) <==> n == p.k)
      && c.crs == Min(p.a2 + n * p.a1, Max(p.top, p.a2))
      && 2 * (dist - Rem(c)) == 2 * (n * p.a2) + p.a1 * (n * (n - 1))
      && (n == p.k ==> dist - Rem(c) == p.b == c.dcd)
  }

  lemma ClimbsSpeedUp(c0: Chan, c: Chan, p: Pace, n: nat)
    requires Climbs(c0, c, n) && HasPace(c0, p)
    ensures SpeedsUp(c, Rem(c0), p, n)
  {
    PlanClimbs(c0, n);
    ClimbIsBraking(c0.mns, c0.mxs, c0.acs);
  }

  lemma RunSpeedsUp(h: GoodRun, l: nat, i: nat, j: nat, p: Pace)
    requires Quiet(h, l, i, j) && HasPace(h.ss[i].out[l], p)
    ensures SpeedsUp(h.ss[j].out[l], Rem(h.ss[i].out[l]), p, Beats(h, l, i, j))
  {
    SpeedClimbs(h, l, i, j);
    ClimbsSpeedUp(h.ss[i].out[l], h.ss[j].out[l], p, Beats(h, l, i, j));
  }

  /** A set-point at event i starts a kinetic move over a distance of more than twice
      the way b that the acceleration needs.  After k acknowledged heartbeats of
      acceleration, and not before, the output runs at the top speed; it has covered
      exactly b then, and b is what is left for braking. */
  lemma TopSpeedIsReached(h: GoodRun, l: nat, req: int, i: nat, j: nat)
    requires i < |h.es| && h.es[i] == OutWrite(l, req) && Quiet(h, l, i + 1, j)
    requires !h.ss[i].out[l].lkd && h.ss[i].out[l].tac > 0
    requires !Fast(h.d, h.ss[i].out[l], Clip(h.d, h.ss[i].out[l], req))
    ensures var c := h.ss[i].out[l];
      SpeedsUp(h.ss[j].out[l], Abs(Clip(h.d, c, req) - c.cur), PaceOf(h.d, c), Beats(h, l, i + 1, j))
  {
    var e := h.es[i];
    KineticBegun(h.d, h.ss[i], l, req, h.ss[i + 1]);
    BegunPace(h.d, h.ss[i].out[l], Clip(h.d, h.ss[i].out[l], req));
    RunSpeedsUp(h, l, i + 1, j, PaceOf(h.d, h.ss[i].out[l]));
  }

  /** What n heartbeats of climbing come to, for a plan. */
  lemma PlanClimbs(c: Chan, n: nat)
    requires c.mns >= 1 && c.acs >= 1
    ensures var k := RampLength(c.mns, c.mxs, c.acs);
      n <= k ==>
        && (Climbing(c.mns, c.acs, Top(c), n) == Top(c) <==> n == k)
        && Climbing(c.mns, c.acs, Top(c), n) == Min(c.mns + n * c.acs, Top(c))
        && 2 * Climb(c.mns, c.acs, Top(c), n) == 2 * (n * c.mns) + c.acs * (n * (n - 1))
        && Climb(c.mns, c.acs, Top(c), n) <= Climb(c.mns, c.acs, Top(c), k)
  {
    var k := RampLength(c.mns, c.mxs, c.acs);
    TopIffRampLength(c.mns, c.mxs, c.acs, n);
    TimesIsProduct(n, c.acs);
    if n <= k {
      if n > 0 {
        CeilDivBounds(c.mxs - c.mns, c.acs);
        MulMono(n - 1, k - 1, c.acs);
        TimesIsProduct(n - 1, c.acs);
      }
      ClimbClosedForm(c.mns, c.acs, Top(c), n);
      ClimbGrows(c.mns, c.acs, Top(c), n, k);
    }
  }

  lemma {:induction false} ClimbGrows(mns: int, acs: int, top: int, n: nat, k: nat)
    requires n <= k && mns >= 0 && acs >= 0 && top >= 0
    ensures Climb(mns, acs, top, n) <= Climb(mns, acs, top, k)
  {
    if n < k {
      ClimbGrows(mns, acs, top, n, k - 1);
      TimesIsProduct(k - 1, acs);
      MulMono(0, acs, k - 1);
    }
  }
}
