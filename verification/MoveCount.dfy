/** Counting the heartbeats of one undisturbed move of one channel. */
module MoveCount {
  import opened CMath
  import opened AdvDac
  import opened SlowMotion

  /** a and b may differ in table flags and in rcv only. */
  predicate SameMove(a: Chan, b: Chan) {
    a == b.(aff := a.aff, lkd := a.lkd, rcv := a.rcv)
  }

  /** A move from start to trg whose steps are between lo and hi. */
  datatype Move = Move(start: int, trg: int, lo: int, hi: int) {
    function Dist(): nat { Abs(trg - start) }
  }

  /** The move that channel c has ahead of it. */
  function MoveOf(d: Dev, c: Chan): (m: Move)
    ensures ProfileOk(c) ==> 0 <= m.lo <= m.hi
  {
    if c.tac > 0 then Move(c.dsr, c.trg, c.mns, Max(c.mxs, c.mns))
    else if c.spd != 0 then Move(c.dsr, c.trg, TopSpeed(d, c), TopSpeed(d, c))
    else Move(c.dsr, c.trg, Max(Rem(c), 1), Max(Rem(c), 1))
  }

  /** k steps of length x; kept apart from multiplication until the end. */
  function Times(k: nat, x: int): int {
    if k == 0 then 0 else Times(k - 1, x) + x
  }

  lemma {:induction false} TimesIsProduct(k: nat, x: int)
    ensures Times(k, x) == k * x
  {
    if k > 0 {
      TimesIsProduct(k - 1, x);
      assert k * x == (k - 1) * x + x;
    }
  }

  predicate Pace(d: Dev, m: Move, c: Chan) {
    && 0 <= m.lo <= m.hi
    && (if c.tac > 0 then m.lo == c.mns && m.hi == Max(c.mxs, c.mns)
        else if c.spd != 0 then m.lo == m.hi == TopSpeed(d, c)
        else m.lo == m.hi == Max(m.Dist(), 1))
  }

  /** c after k acknowledged heartbeats of move m. */
  predicate Progress(d: Dev, m: Move, c: Chan, k: nat) {
    && Pace(d, m, c) && ProfileOk(c)
    && c.trg == m.trg && Between(m.start, c.dsr, m.trg)
    && (!c.fin ==>
          && c.isc
          && Times(k, m.lo) <= m.Dist() - Rem(c) <= Times(k, m.hi)
          && (k > 0 ==> Rem(c) > 0))
    && (c.fin ==>
          && c.dsr == c.trg && k >= 1
          && m.Dist() <= Times(k, m.hi)
          && (k == 1 || Times(k - 1, m.lo) < m.Dist()))
  }

  lemma ProgressStarts(d: Dev, c: Chan)
    requires ProfileOk(c) && c.isc && !c.fin
    ensures Progress(d, MoveOf(d, c), c, 0)
  {
  }

  lemma BeatProgress(d: Dev, m: Move, c: Chan, k: nat)
    requires Progress(d, m, c, k) && !c.fin
    ensures Progress(d, m, Beat(d, c), k + 1)
  {
    BeatAdvances(d, c);
    if c.tac <= 0 && c.spd == 0 && k > 0 {
      TimesIsProduct(k, m.lo);
      MulMono(1, k, m.lo);
    }
  }

  lemma OtherProgress(d: Dev, m: Move, c: Chan, b: Chan, k: nat, v: int)
    requires Progress(d, m, c, k)
    requires SameMove(b, c) || (b == AfterRead(d, c, v) && b.dsr == c.dsr)
    ensures Progress(d, m, b, k)
  {
  }

  /** The heartbeat counts that progress allows. */
  lemma ProgressBounds(d: Dev, m: Move, c: Chan, k: nat)
    requires Progress(d, m, c, k) && m.lo >= 1
    requires c.isc && c.fin ==> !c.nxt
    ensures k <= Max(1, CeilDiv(m.Dist(), m.lo))
    ensures !c.isc ==> c.dsr == m.trg && Max(1, CeilDiv(m.Dist(), m.hi)) <= k
    ensures c.nxt && k >= Max(1, CeilDiv(m.Dist(), m.lo)) ==> !c.isc
  {
    TimesIsProduct(k, m.lo);
    TimesIsProduct(k, m.hi);
    if c.fin {
      TimesIsProduct(k - 1, m.lo);
      CeilDivLeast(m.Dist(), m.hi, k);
      if k > 1 { CeilDivGreatest(m.Dist(), m.lo, k); }
    } else if k > 0 {
      CeilDivGreatest(m.Dist(), m.lo, k + 1);
    }
  }
}
