/** How a slow move goes when nobody disturbs it: how many heartbeats it takes, and
    exactly when it ends at all. */
module MoveProgress {
  import opened CMath
  import opened AdvDac
  import opened SlowMotion
  import opened MoveCount
  import opened DacState
  import opened TableCheck
  import opened DacSpec
  import opened DacSafety

  // ----- undisturbed runs -----

  /** The event leaves the move of channel l alone: no command for the channel, no
      activation of a table that has it, and a readback close to what was sent. */
  predicate Undisturbed(d: Dev, s: State, l: nat, e: Event)
    requires Shaped(d, s) && l < d.n
  {
    match e
    case ReadDac(k, v) => k == l ==> Abs(v - s.out[l].dsr) <= d.quant
    case OutWrite(k, _) => k != l
    case ImmWrite(k, _) => k != l
    case RateWrite(k, _) => k != l
    case TacWrite(k, _) => k != l
    case Command(cmd, _) => cmd == Activate ==> !Affected(d, s, l)
    case _ => true
  }

  /** Nothing disturbs channel l between states i and j of the run. */
  ghost predicate Quiet(h: GoodRun, l: nat, i: nat, j: nat) {
    && l < h.d.n && i <= j <= |h.es|
    && forall x {:trigger h.es[x]} :: i <= x < j ==> Undisturbed(h.d, h.ss[x], l, h.es[x])
  }

  /** The heartbeat that finds the channel moving and acknowledged. */
  predicate Advances(s: State, l: nat, e: Event) {
    l < |s.out| && e.Heartbeat? && s.out[l].isc && s.out[l].nxt
  }

  function Tick(s: State, l: nat, e: Event): nat {
    if Advances(s, l, e) then 1 else 0
  }

  /** Number of acknowledged heartbeats of channel l between states i and j. */
  ghost function Beats(h: GoodRun, l: nat, i: nat, j: nat): nat
    requires i <= j <= |h.es|
  {
    if i == j then 0 else Beats(h, l, i, j - 1) + Tick(h.ss[j - 1], l, h.es[j - 1])
  }

  lemma LockedSameMove(d: Dev, s: State, l: nat, crunched: seq<byte>)
    requires Shaped(d, s) && l < d.n && !Affected(d, s, l)
    ensures SameMove(Locked(d, s, crunched).out[l], s.out[l])
  {
  }

  lemma ActivationSameMove(d: Dev, s: State, l: nat, crunched: seq<byte>)
    requires Shaped(d, s) && l < d.n && !Affected(d, s, l)
    ensures SameMove(Activation(d, s, crunched).out[l], s.out[l])
  {
    if Acceptable(d, s) {
      LockedSameMove(d, s, l, crunched);
    } else {
      assert SameMove(Marked(d, s)[l], s.out[l]);
    }
  }

  lemma EraseSameMove(s: State, l: nat, wipe: bool, why: Status)
    requires l < |s.out|
    ensures SameMove(Erase(s, wipe, why).out[l], s.out[l])
  {
  }

  lemma StatSameMove(s: State, l: nat, e: Event)
    requires l < |s.out| && e.StatReply?
    ensures |AfterStat(s, e).out| == |s.out|
    ensures SameMove(AfterStat(s, e).out[l], s.out[l])
  {
    EraseSameMove(s, l, false, Ended);
  }

  lemma SentSameMove(s: State, l: nat, k: nat)
    requires l < |s.out| && k < |s.pending|
    ensures |AfterSent(s, k).out| == |s.out|
    ensures SameMove(AfterSent(s, k).out[l], s.out[l])
  {
    EraseSameMove(s.(pending := s.pending[..k] + s.pending[k + 1..]), l, false, Stopped);
  }

  lemma CommandSameMove(d: Dev, s: State, l: nat, cmd: Cmd, crunched: seq<byte>)
    requires Shaped(d, s) && l < d.n && (cmd == Activate ==> !Affected(d, s, l))
    ensures SameMove(AfterCommand(d, s, cmd, crunched).out[l], s.out[l])
  {
    if Enabled(s, cmd) && cmd == Activate { ActivationSameMove(d, s, l, crunched); }
    EraseSameMove(s, l, true, Dropped);
  }

  predicate DeviceEvent(e: Event) {
    e.Command? || e.CommandSent? || e.StatReply? || e.CloseReply?
  }

  lemma DeviceSameMove(d: Dev, s: State, l: nat, e: Event)
    requires Shaped(d, s) && l < d.n && Deliverable(d, s, e) && DeviceEvent(e)
    requires e.Command? && e.cmd == Activate ==> !Affected(d, s, l)
    ensures SameMove(TableNext(d, s, e).out[l], s.out[l])
  {
    match e
    case Command(cmd, crunched) => CommandSameMove(d, s, l, cmd, crunched);
    case CommandSent(k) => SentSameMove(s, l, k);
    case StatReply(_, _, _, _) => StatSameMove(s, l, e);
    case CloseReply(_) => EraseSameMove(s, l, false, SizeMismatch);
  }

  lemma SettingSameMove(d: Dev, s: State, l: nat, e: Event)
    requires Shaped(d, s) && l < d.n && Deliverable(d, s, e) && !DeviceEvent(e)
    ensures SameMove(TableNext(d, s, e).out[l], s.out[l])
  {
    var t := TableNext(d, s, e);
    assert t.out == s.out || t.out == Unread(s.out);
  }

  predicate LineEvent(e: Event) {
    e.ReadDac? || e.OutWrite? || e.ImmWrite? || e.RateWrite? || e.TacWrite?
  }

  lemma QuietLine(d: Dev, s: State, l: nat, e: Event)
    requires Shaped(d, s) && l < d.n && Deliverable(d, s, e) && LineEvent(e) && Undisturbed(d, s, l, e)
    ensures var c, b := s.out[l], Next(d, s, e).out[l];
      if e.ReadDac? && e.l == l then b == AfterRead(d, c, e.val) && b.dsr == c.dsr else b == c
  {
  }

  lemma QuietBeat(d: Dev, s: State, l: nat)
    requires Inv(d, s) && l < d.n
    ensures Next(d, s, Heartbeat).out[l] == AfterBeat(d, s.out[l])
  {
    if s.out[l].isc { MovingBounds(s.out, l); }
  }

  /** What an undisturbing event does to the channel. */
  lemma QuietStep(d: Dev, s: State, l: nat, e: Event)
    requires Inv(d, s) && l < d.n && Deliverable(d, s, e) && Undisturbed(d, s, l, e)
    ensures var c, b := s.out[l], Next(d, s, e).out[l];
      if Advances(s, l, e) then b == Beat(d, c)
      else if e.ReadDac? && e.l == l then b == AfterRead(d, c, e.val) && b.dsr == c.dsr
      else SameMove(b, c)
  {
    if e.Heartbeat? {
      QuietBeat(d, s, l);
    } else if LineEvent(e) {
      QuietLine(d, s, l, e);
    } else if !e.OutRead? && !e.ImmRead? {
      if DeviceEvent(e) { DeviceSameMove(d, s, l, e); } else { SettingSameMove(d, s, l, e); }
    }
  }

  // ----- progress of one move -----

  lemma StepProgress(d: Dev, s: State, l: nat, e: Event, t: State, m: Move, k: nat)
    requires Inv(d, s) && l < d.n && Step(d, s, e, t) && Undisturbed(d, s, l, e)
    requires Progress(d, m, s.out[l], k)
    ensures l < |t.out| && Progress(d, m, t.out[l], k + Tick(s, l, e))
  {
    var c, b := s.out[l], t.out[l];
    QuietStep(d, s, l, e);
    if Advances(s, l, e) {
      assert ChanInv(d, c);
      BeatProgress(d, m, c, k);
    } else {
      OtherProgress(d, m, c, b, k, if e.ReadDac? then e.val else 0);
    }
  }

  lemma NextProgress(h: GoodRun, l: nat, i: nat, j: nat, m: Move)
    requires Quiet(h, l, i, j) && i < j
    requires Progress(h.d, m, h.ss[j - 1].out[l], Beats(h, l, i, j - 1))
    ensures Progress(h.d, m, h.ss[j].out[l], Beats(h, l, i, j))
  {
    RunInv(h, j - 1);
    StepProgress(h.d, h.ss[j - 1], l, h.es[j - 1], h.ss[j], m, Beats(h, l, i, j - 1));
  }

  lemma {:induction false} RunProgress(h: GoodRun, l: nat, i: nat, j: nat, m: Move)
    requires Quiet(h, l, i, j)
    requires Progress(h.d, m, h.ss[i].out[l], 0)
    ensures Progress(h.d, m, h.ss[j].out[l], Beats(h, l, i, j))
  {
    if i < j {
      RunProgress(h, l, i, j - 1, m);
      NextProgress(h, l, i, j, m);
    }
  }

  /** From any moment i of a move m that can advance: the output goes monotonously to
      the target, and after N acknowledged heartbeats, N between the two bounds,
      the move is over with exactly the target sent. */
  lemma MoveBoundsFor(h: GoodRun, l: nat, i: nat, j: nat, m: Move)
    requires Quiet(h, l, i, j) && m == MoveOf(h.d, h.ss[i].out[l])
    requires h.ss[i].out[l].isc && !h.ss[i].out[l].fin && Live(h.d, h.ss[i].out[l])
    ensures m.lo >= 1 && m.hi >= 1
    ensures Between(m.start, h.ss[j].out[l].dsr, m.trg)
    ensures Beats(h, l, i, j) <= Max(1, CeilDiv(m.Dist(), m.lo))
    ensures !h.ss[j].out[l].isc ==>
      h.ss[j].out[l].dsr == m.trg && Max(1, CeilDiv(m.Dist(), m.hi)) <= Beats(h, l, i, j)
    ensures h.ss[j].out[l].nxt && Beats(h, l, i, j) >= Max(1, CeilDiv(m.Dist(), m.lo)) ==> !h.ss[j].out[l].isc
  {
    var c := h.ss[i].out[l];
    RunInv(h, i);
    RunInv(h, j);
    assert ChanInv(h.d, c) && ChanInv(h.d, h.ss[j].out[l]);
    TopSpeedPositiveIff(h.d, c);
    ProgressStarts(h.d, c);
    RunProgress(h, l, i, j, m);
    ProgressBounds(h.d, m, h.ss[j].out[l], Beats(h, l, i, j));
  }

  /** The move that a set-point starts: from the present value to val, not slower
      than the starting speed and not faster than the top speed.  The two are the same
      for a linear move, and both are 1 for a kinetic move whose top speed is 0. */
  function MoveFor(d: Dev, c: Chan, val: int): Move {
    var top := Quot(Abs(c.spd), d.hbFreq);
    var lo := if c.tac > 0 then Max(1, Quot(Max(1, Quot(top, c.tac)), 2)) else top;
    Move(c.cur, val, lo, Max(top, lo))
  }

  /** The speed makes a step: every kinetic one, a linear one from HEARTBEAT_FREQ on. */
  predicate Steps(d: Dev, c: Chan) {
    c.spd != 0 && (c.tac > 0 || Abs(c.spd) >= d.hbFreq)
  }

  lemma MoveOfBegun(d: Dev, c: Chan, val: int)
    requires Steps(d, c)
    ensures MoveOf(d, Begun(d, c, val)) == MoveFor(d, c, val) && Live(d, Begun(d, c, val))
    ensures c.tac > 0 && Abs(c.spd) < d.hbFreq ==> MoveFor(d, c, val) == Move(c.cur, val, 1, 1)
  {
    TopSpeedPositiveIff(d, c);
    if c.tac > 0 { QuotIsDiv(Accel(d, c), 2); }
  }

  lemma BegunBy(d: Dev, s: State, l: nat, req: int, t: State)
    requires l < d.n && Step(d, s, OutWrite(l, req), t)
    requires !s.out[l].lkd && !Fast(d, s.out[l], Clip(d, s.out[l], req)) && Steps(d, s.out[l])
    ensures var m := MoveFor(d, s.out[l], Clip(d, s.out[l], req));
      l < |t.out| && MoveOf(d, t.out[l]) == m && Live(d, t.out[l]) && t.out[l].isc && !t.out[l].fin
  {
    MoveOfBegun(d, s.out[l], Clip(d, s.out[l], req));
  }

  /** A set-point at event i starts a move and nothing disturbs it until j.  If the
      speed makes a step the move m takes between ceil(distance / top speed) and
      ceil(distance / starting speed) acknowledged heartbeats; for a linear move the
      two are the same number. */
  lemma SetpointIsReached(h: GoodRun, l: nat, req: int, i: nat, j: nat, m: Move)
    requires i < |h.es| && h.es[i] == OutWrite(l, req) && Quiet(h, l, i + 1, j)
    requires !h.ss[i].out[l].lkd && Steps(h.d, h.ss[i].out[l])
    requires !Fast(h.d, h.ss[i].out[l], Clip(h.d, h.ss[i].out[l], req))
    requires m == MoveFor(h.d, h.ss[i].out[l], Clip(h.d, h.ss[i].out[l], req))
    ensures m.lo >= 1 && m.hi >= 1
    ensures Between(m.start, h.ss[j].out[l].dsr, m.trg)
    ensures Beats(h, l, i + 1, j) <= Max(1, CeilDiv(m.Dist(), m.lo))
    ensures !h.ss[j].out[l].isc ==>
      h.ss[j].out[l].dsr == m.trg && Max(1, CeilDiv(m.Dist(), m.hi)) <= Beats(h, l, i + 1, j)
    ensures h.ss[j].out[l].nxt && Beats(h, l, i + 1, j) >= Max(1, CeilDiv(m.Dist(), m.lo)) ==> !h.ss[j].out[l].isc
  {
    var e := h.es[i];
    BegunBy(h.d, h.ss[i], l, req, h.ss[i + 1]);
    MoveBoundsFor(h, l, i + 1, j, m);
  }

  /** A move ends if and only if it can advance or is at its target already. */
  lemma FinishesIffLive(h: GoodRun, l: nat, i: nat, j: nat)
    requires Quiet(h, l, i, j) && h.ss[i].out[l].isc && !h.ss[i].out[l].fin
    requires h.ss[j].out[l].nxt && Beats(h, l, i, j) >= Max(1, Rem(h.ss[i].out[l]))
    ensures !h.ss[j].out[l].isc <==> Live(h.d, h.ss[i].out[l]) || Rem(h.ss[i].out[l]) == 0
  {
    var c := h.ss[i].out[l];
    var m := MoveOf(h.d, c);
    if Live(h.d, c) {
      MoveBoundsFor(h, l, i, j, m);
      MulMono(1, m.lo, m.Dist());
      CeilDivLeast(m.Dist(), m.lo, m.Dist());
    } else {
      DeadMove(h, l, i, j);
    }
  }

  /** A move that cannot advance stays where it is, unless it is at its target. */
  lemma DeadMove(h: GoodRun, l: nat, i: nat, j: nat)
    requires Quiet(h, l, i, j) && h.ss[i].out[l].isc && !h.ss[i].out[l].fin
    requires !Live(h.d, h.ss[i].out[l])
    ensures var c, b := h.ss[i].out[l], h.ss[j].out[l];
      && b.dsr == c.dsr
      && (Rem(c) > 0 ==> b.isc)
      && (Rem(c) == 0 && b.nxt && Beats(h, l, i, j) >= 1 ==> !b.isc)
  {
    var c := h.ss[i].out[l];
    RunInv(h, i);
    RunInv(h, j);
    assert ChanInv(h.d, c) && ChanInv(h.d, h.ss[j].out[l]);
    TopSpeedPositiveIff(h.d, c);
    ProgressStarts(h.d, c);
    RunProgress(h, l, i, j, MoveOf(h.d, c));
    TimesIsProduct(Beats(h, l, i, j), 0);
  }

  /** A set-point starts a move that cannot advance exactly when the move is linear,
      the speed is below HEARTBEAT_FREQ and the output does not shrink. */
  lemma StalledBegunIff(d: Dev, c: Chan, val: int)
    ensures !Fast(d, c, val) && !Live(d, Begun(d, c, val)) <==>
      c.tac <= 0 && 0 < Abs(c.spd) < d.hbFreq && !Decrement(c.spd, val, c.cur)
  {
    TopSpeedPositiveIff(d, c);
  }

  lemma StalledBy(d: Dev, s: State, l: nat, req: int, t: State)
    requires l < d.n && Step(d, s, OutWrite(l, req), t)
    requires var c := s.out[l]; !c.lkd && c.tac <= 0 && 0 < Abs(c.spd) < d.hbFreq
    requires !Decrement(s.out[l].spd, Clip(d, s.out[l], req), s.out[l].cur)
    ensures var c := s.out[l];
      l < |t.out| && var b := t.out[l];
      b.isc && !b.fin && !Live(d, b) && b.dsr == c.cur && b.trg == Clip(d, c, req)
  {
    StalledBegunIff(d, s.out[l], Clip(d, s.out[l], req));
  }

  /** Such a set-point at event i is never reached: as long as nothing disturbs the
      move, the output stays where it was, marked as changing. */
  lemma SetpointIsStalled(h: GoodRun, l: nat, req: int, i: nat, j: nat)
    requires i < |h.es| && h.es[i] == OutWrite(l, req) && Quiet(h, l, i + 1, j)
    requires var c := h.ss[i].out[l]; !c.lkd && c.tac <= 0 && 0 < Abs(c.spd) < h.d.hbFreq
    requires !Decrement(h.ss[i].out[l].spd, Clip(h.d, h.ss[i].out[l], req), h.ss[i].out[l].cur)
    requires Clip(h.d, h.ss[i].out[l], req) != h.ss[i].out[l].cur
    ensures h.ss[j].out[l].isc && h.ss[j].out[l].dsr == h.ss[i].out[l].cur
  {
    var e := h.es[i];
    StalledBy(h.d, h.ss[i], l, req, h.ss[i + 1]);
    DeadMove(h, l, i + 1, j);
  }

  /** Rate writes can only leave speeds at which linear moves advance. */
  ghost predicate RatesAreLive(d: Dev) {
    forall v :: StoredRate(d, v) == 0 || Abs(StoredRate(d, v)) >= d.hbFreq
  }

  /** That holds exactly for devices whose quant is not below HEARTBEAT_FREQ: for
      CANDAC16, not for CDAC20, where a client's speed of 5 stalls linear moves. */
  lemma RatesAreLiveIff(d: Dev)
    ensures RatesAreLive(d) <==> d.quant >= d.hbFreq
    ensures RatesAreLive(CANDAC16) && !RatesAreLive(CDAC20)
  {
    if d.quant < d.hbFreq {
      assert StoredRate(d, Max(d.quant, 1)) == Max(d.quant, 1);
    }
    assert StoredRate(CDAC20, 5) == 5;
  }

  /** A linear move stalls for good when a positive TAC is written meanwhile: its
      stored speed is zero. */
  lemma TacWriteStallsLinearMove(h: GoodRun, l: nat, v: int, i: nat, j: nat)
    requires i < |h.es| && h.es[i] == TacWrite(l, v) && v > 0 && Quiet(h, l, i + 1, j)
    requires var c := h.ss[i].out[l]; c.isc && !c.fin && c.mns == 0 && Rem(c) > 0
    ensures h.ss[j].out[l].isc && h.ss[j].out[l].dsr == h.ss[i].out[l].dsr
  {
    var e := h.es[i];
    assert Step(h.d, h.ss[i], e, h.ss[i + 1]);
    DeadMove(h, l, i + 1, j);
  }

  /** After a TAC written during a move the move ends if and only if its stored speed
      is not zero, for a positive TAC, or else its speed makes a step. */
  lemma TacWriteFinishesIff(h: GoodRun, l: nat, v: int, i: nat, j: nat)
    requires i < |h.es| && h.es[i] == TacWrite(l, v) && Quiet(h, l, i + 1, j)
    requires var c := h.ss[i].out[l]; c.isc && !c.fin && Rem(c) > 0
    requires h.ss[j].out[l].nxt && Beats(h, l, i + 1, j) >= Rem(h.ss[i].out[l])
    ensures var c := h.ss[i].out[l];
      !h.ss[j].out[l].isc <==> if v > 0 then c.mns >= 1 else c.spd == 0 || Abs(c.spd) >= h.d.hbFreq
  {
    var e := h.es[i];
    assert Step(h.d, h.ss[i], e, h.ss[i + 1]);
    FinishesIffLive(h, l, i + 1, j);
  }

  // ----- the speed profile -----

  predicate SameProfile(a: Chan, b: Chan) {
    a.mns == b.mns && a.mxs == b.mxs && a.dcd == b.dcd && a.trg == b.trg && a.tac == b.tac
  }

  /** b comes later than c in one move: nearer the target, not slower while more than
      dcd remains, not faster from then on. */
  predicate Later(c: Chan, b: Chan) {
    && SameProfile(c, b)
    && Rem(b) <= Rem(c)
    && (Rem(b) > c.dcd ==> c.crs <= b.crs)
    && (Rem(c) <= c.dcd ==> b.crs <= c.crs)
  }

  lemma StepLater(d: Dev, s: State, l: nat, e: Event, t: State)
    requires Inv(d, s) && l < d.n && Step(d, s, e, t) && Undisturbed(d, s, l, e)
    requires s.out[l].tac > 0
    ensures l < |t.out| && Later(s.out[l], t.out[l])
  {
    assert ChanInv(d, s.out[l]);
    QuietStep(d, s, l, e);
    if Advances(s, l, e) {
      BeatAdvances(d, s.out[l]);
      SpeedIsUnimodalStep(d, s.out[l]);
    }
  }

  lemma NextLater(h: GoodRun, l: nat, i: nat, j: nat)
    requires Quiet(h, l, i, j) && i < j && h.ss[i].out[l].tac > 0
    requires Later(h.ss[i].out[l], h.ss[j - 1].out[l])
    ensures Later(h.ss[i].out[l], h.ss[j].out[l])
  {
    RunInv(h, j - 1);
    StepLater(h.d, h.ss[j - 1], l, h.es[j - 1], h.ss[j]);
  }

  /** The speed of an undisturbed kinetic move is unimodal: between any two of its
      moments it does not fall while more than dcd remains, and does not rise after;
      it is never below mns nor above mxs. */
  lemma {:induction false} SpeedIsUnimodal(h: GoodRun, l: nat, i: nat, j: nat)
    requires Quiet(h, l, i, j) && h.ss[i].out[l].tac > 0
    ensures Later(h.ss[i].out[l], h.ss[j].out[l])
    ensures var b := h.ss[j].out[l]; b.mns <= b.crs <= Max(b.mxs, b.mns)
  {
    RunInv(h, j);
    assert ChanInv(h.d, h.ss[j].out[l]);
    if i < j {
      SpeedIsUnimodal(h, l, i, j - 1);
      NextLater(h, l, i, j);
    }
  }
}
