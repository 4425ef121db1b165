/** What the power supply knows: its readings, latched interlocks and set-point are
    exactly what the events brought. */
module IstReadings {
  import opened CMath
  import opened IstState
  import opened IstSafety
  import opened IstRuns
  import opened IstChart

  // ----- readings -----

  /** Readings that the driver uses. */
  predicate Used(r: Reading) {
    r == ROutCur || r == ROpr || r == RPolarity || (r.RIlk? && r.n < ILK_COUNT)
  }

  function Value(s: Ps, r: Reading): int {
    match r
    case ROutCur => s.outCur
    case ROpr => s.opr
    case RPolarity => s.polarity
    case RIlk(n) => if n < |s.ilk| then s.ilk[n] else 0
    case _ => 0
  }

  lemma TookValue(s: Ps, r: Reading, val: int, x: Reading)
    requires Shaped(s) && Used(x)
    ensures Value(Took(s, r, val), x) == if r == x then val else Value(s, x)
  {
  }

  lemma SameValue(s: Ps, t: Ps, r: Reading)
    requires SameReadings(s, t)
    ensures Value(t, r) == Value(s, r)
  {
  }

  lemma ReactKeeps(s: Ps, r: Reading, val: int, late: bool)
    requires Shaped(s) && (r.RIlk? ==> r.n < ILK_COUNT)
    ensures var t := AfterReading(SodcCb(s, r, val), r, late); SameReadings(s, t) && t.rcvd == s.rcvd
  {
    CbSign(s, r, val);
    CbRcvd(s, r, val);
    var u := SodcCb(s, r, val);
    if HasNext(u.st) { SetStateKeeps(Asked(u, NextOf(u.st)), NextOf(u.st)); }
  }

  lemma CbRcvd(s: Ps, r: Reading, val: int)
    requires Shaped(s) && (r.RIlk? ==> r.n < ILK_COUNT)
    ensures SodcCb(s, r, val).rcvd == s.rcvd
  {
    if r.RIlk? {
      SetStateKeeps(if val != 0 then s.(cIlks := s.cIlks[r.n := val]) else s, INTERLOCK);
    } else {
      SetStateKeeps(s, CUT_OFF);
    }
  }

  lemma UpdateKeeps(s: Ps, r: Reading, val: int, late: bool)
    requires Inv(s) && (r.RIlk? ==> r.n < ILK_COUNT)
    ensures var t := OnUpdate(s, r, val, late); SameReadings(Took(s, r, val), t) && t.rcvd == s.rcvd + {r}
  {
    var t := Took(s, r, val);
    TookOk(s, r, val);
    if s.st == UNKNOWN && Completes(s, r) {
      CompletesIs(s, r, val, late);
      SetStateKeeps(t, DETERMINE);
      DetermineOk(t);
      ReactKeeps(SetState(t, DETERMINE), r, val, late);
    } else {
      UpdateIs(s, r, val, late);
      ReactKeeps(t, r, val, late);
    }
  }

  lemma OtherKeeps(s: Ps, e: Event)
    requires !e.Update?
    ensures var t := Next(s, e); SameReadings(s, t) && t.rcvd == (if e == SubordLost then {} else s.rcvd)
  {
    match e
    case Tick(_) => SetStateKeeps(Asked(s, NextOf(s.st)), NextOf(s.st));
    case SubordLost => LostRcvd(s);
    case WriteIset(v) => SetStateKeeps(s.(outVal := ClipIset(s, v), outValSet := true), RV_ZERO);
    case CmdSwitchOn => SetStateKeeps(s, SW_ON_ENABLE);
    case CmdSwitchOff => SetStateKeeps(s, SW_OFF_DOWN);
    case CmdRstIlks => SetStateKeeps(s, RST_ILK_SET);
    case CmdResetState => SetStateKeeps(s, DETERMINE);
    case CmdResetCIlks =>
  }

  lemma LostRcvd(s: Ps)
    ensures var t := Next(s, SubordLost); SameReadings(s, t) && t.rcvd == {}
  {
    var a := s.(rcvd := {});
    SetStateKeeps(a, UNKNOWN);
    if s.st != UNKNOWN { SetStateIs(a, UNKNOWN); }
  }

  /** The value read last among the first j events, or the one at the beginning. */
  function LastValue(s: Ps, es: seq<Event>, r: Reading, j: nat): int
    requires j <= |es|
  {
    if j == 0 then Value(s, r)
    else if es[j - 1].Update? && es[j - 1].r == r then es[j - 1].val
    else LastValue(s, es, r, j - 1)
  }

  /** The reading has come since the device was last lost, or is there from the
      beginning. */
  predicate HasCome(s: Ps, es: seq<Event>, r: Reading, j: nat)
    requires j <= |es|
  {
    if j == 0 then r in s.rcvd
    else es[j - 1] != SubordLost && ((es[j - 1].Update? && es[j - 1].r == r) || HasCome(s, es, r, j - 1))
  }

  /** The event leads from s to t as far as reading r is concerned. */
  predicate Reads(s: Ps, e: Event, t: Ps, r: Reading) {
    && (Used(r) ==> Value(t, r) == if e.Update? && e.r == r then e.val else Value(s, r))
    && (r in t.rcvd <==> e != SubordLost && ((e.Update? && e.r == r) || r in s.rcvd))
  }

  lemma StepReads(s: Ps, e: Event, r: Reading)
    requires Inv(s) && Deliverable(e)
    ensures Reads(s, e, Next(s, e), r)
  {
    if e.Update? {
      UpdateKeeps(s, e.r, e.val, e.late);
      SameValue(Took(s, e.r, e.val), Next(s, e), r);
      if Used(r) { TookValue(s, e.r, e.val, r); }
    } else {
      OtherKeeps(s, e);
      SameValue(s, Next(s, e), r);
    }
  }

  /** t knows reading r as it is after the first j events from s. */
  predicate SeesLast(s: Ps, es: seq<Event>, r: Reading, j: nat, t: Ps)
    requires j <= |es|
  {
    (Used(r) ==> Value(t, r) == LastValue(s, es, r, j)) && (r in t.rcvd <==> HasCome(s, es, r, j))
  }

  lemma {:induction false} ChainReads(ss: seq<Ps>, es: seq<Event>, r: Reading, j: nat)
    requires |ss| == |es| + 1 && j <= |es|
    requires forall i {:trigger es[i]} :: 0 <= i < j ==> Reads(ss[i], es[i], ss[i + 1], r)
    ensures SeesLast(ss[0], es, r, j, ss[j])
  {
    if j > 0 {
      ChainReads(ss, es, r, j - 1);
      assert Reads(ss[j - 1], es[j - 1], ss[j], r);
    }
  }

  lemma RunStepReads(h: Runs, r: Reading, i: nat)
    requires i < |h.es|
    ensures Reads(h.ss[i], h.es[i], h.ss[i + 1], r)
  {
    RunInv(h, i);
    var e := h.es[i];
    StepReads(h.ss[i], e, r);
  }

  /** In every run the guards see, for each reading, the value that came last; and a
      reading counts as received exactly if it came since the device was last lost. */
  lemma RunReads(h: Runs, r: Reading, j: nat)
    requires j <= |h.es|
    ensures SeesLast(h.ss[0], h.es, r, j, h.ss[j])
  {
    forall i | 0 <= i < j ensures Reads(h.ss[i], h.es[i], h.ss[i + 1], r) {
      RunStepReads(h, r, i);
    }
    ChainReads(h.ss, h.es, r, j);
  }

  /** The picture is complete when every one of the twelve readings has come. */
  lemma CompletesIff(s: Ps, r: Reading)
    ensures Completes(s, r) <==>
      forall x: Reading :: (x.RIlk? ==> x.n < ILK_COUNT) ==> x in s.rcvd + {r}
  {
    if Completes(s, r) {
      forall x: Reading | x.RIlk? ==> x.n < ILK_COUNT ensures x in s.rcvd + {r} {
        assert x in IMPORTANT;
      }
    }
  }

  // ----- latched interlocks -----

  lemma {:induction false} SetStateLatch(s: Ps, nxt: St)
    requires nxt != RST_ILK_DRP
    ensures SetState(s, nxt).cIlks == s.cIlks
    decreases Rank(nxt)
  {
    if nxt != s.st {
      var a := s.(st := nxt);
      ActLatch(a, nxt, s.st);
      if Onward(a, nxt) != nxt {
        SetStateLatch(Act(a, nxt, s.st), Onward(a, nxt));
      } else if HasNext(nxt) && Instant(nxt) {
        SetStateLatch(Act(a, nxt, s.st), NextOf(nxt));
      }
    }
  }

  lemma ActLatch(s: Ps, st: St, prev: St)
    requires st != RST_ILK_DRP
    ensures Act(s, st, prev).cIlks == s.cIlks
  {
    if st == INTERLOCK || st == CUT_OFF { AllOffIs(s, prev); }
  }

  /** Entering the stage that drops the reset lines forgets the latched interlocks. */
  lemma DropLatch(s: Ps)
    requires s.st == RST_ILK_SET
    ensures SetState(s, RST_ILK_DRP).cIlks == seq(|s.cIlks|, i => 0)
  {
    SetStateIs(s, RST_ILK_DRP);
  }

  lemma CbLatch(s: Ps, r: Reading, val: int)
    requires Shaped(s) && s.st != UNKNOWN && (r.RIlk? ==> r.n < ILK_COUNT)
    ensures SodcCb(s, r, val).cIlks == if r.RIlk? && val != 0 then s.cIlks[r.n := val] else s.cIlks
  {
    if r.RIlk? {
      SetStateLatch(if val != 0 then s.(cIlks := s.cIlks[r.n := val]) else s, INTERLOCK);
    } else {
      SetStateLatch(s, CUT_OFF);
    }
  }

  lemma UpdateLatch(s: Ps, r: Reading, val: int, late: bool)
    requires Inv(s) && (r.RIlk? ==> r.n < ILK_COUNT)
    ensures OnUpdate(s, r, val, late).cIlks ==
      if r.RIlk? && val != 0 && (s.st == UNKNOWN ==> Completes(s, r)) then s.cIlks[r.n := val] else s.cIlks
  {
    var t := Took(s, r, val);
    TookOk(s, r, val);
    if s.st == UNKNOWN && Completes(s, r) {
      CompletesIs(s, r, val, late);
      SetStateLatch(t, DETERMINE);
      DetermineOk(t);
      ReactLatch(SetState(t, DETERMINE), r, val, late);
    } else {
      UpdateIs(s, r, val, late);
      if s.st != UNKNOWN { ReactLatch(t, r, val, late); }
    }
  }

  lemma ReactLatch(s: Ps, r: Reading, val: int, late: bool)
    requires Shaped(s) && s.st != UNKNOWN && (r.RIlk? ==> r.n < ILK_COUNT)
    ensures AfterReading(SodcCb(s, r, val), r, late).cIlks ==
      if r.RIlk? && val != 0 then s.cIlks[r.n := val] else s.cIlks
  {
    CbLatch(s, r, val);
    var u := SodcCb(s, r, val);
    if HasNext(u.st) && NextOf(u.st) != RST_ILK_DRP { SetStateLatch(Asked(u, NextOf(u.st)), NextOf(u.st)); }
  }

  /** The latch of interlock n: a nonzero reading sets it, the reset sequence and the
      command to forget clear it, nothing else touches it. */
  lemma LatchIs(s: Ps, e: Event, n: nat)
    requires Inv(s) && Deliverable(e) && n < ILK_COUNT
    ensures var t := Next(s, e);
      |t.cIlks| == ILK_COUNT && t.cIlks[n] ==
        if e.Update? && e.r == RIlk(n) && e.val != 0 && (s.st == UNKNOWN ==> Completes(s, e.r)) then e.val
        else if e == CmdResetCIlks || (e == Tick(true) && s.st == RST_ILK_SET) then 0
        else s.cIlks[n]
  {
    match e
    case Update(r, val, late) => UpdateLatch(s, r, val, late);
    case Tick(_) =>
      if s.st == RST_ILK_SET { DropLatch(s); }
      else { SetStateLatch(Asked(s, NextOf(s.st)), NextOf(s.st)); }
    case SubordLost => SetStateLatch(s.(rcvd := {}), UNKNOWN);
    case WriteIset(v) => SetStateLatch(s.(outVal := ClipIset(s, v), outValSet := true), RV_ZERO);
    case CmdSwitchOn => SetStateLatch(s, SW_ON_ENABLE);
    case CmdSwitchOff => SetStateLatch(s, SW_OFF_DOWN);
    case CmdRstIlks => SetStateLatch(s, RST_ILK_SET);
    case CmdResetState => SetStateLatch(s, DETERMINE);
    case CmdResetCIlks =>
  }

  // ----- the set-point -----

  /** A set-point that the configured window, the device and the supply admit. */
  predicate AdmitsIset(s: Ps, w: int) {
    && (s.minHw < s.maxHw ==> s.minHw <= w <= s.maxHw)
    && -10000305 <= w <= 9999999
    && (w >= 0 || s.reversable || s.bipolar)
  }

  /** If any set-point is admitted, the one kept is admitted and is the nearest such to
      the request. */
  lemma IsetIsNearest(s: Ps, v: int, w: int)
    requires AdmitsIset(s, w)
    ensures AdmitsIset(s, ClipIset(s, v)) && Abs(v - ClipIset(s, v)) <= Abs(v - w)
  {
  }

  /** A request sets the set-point; the first determination takes it from the current
      and the polarity when nothing was requested before; nothing else changes it. */
  lemma SetpointIs(s: Ps, e: Event)
    requires Inv(s) && Deliverable(e)
    ensures var t := Next(s, e);
      match e
      case WriteIset(v) => t.outVal == ClipIset(s, v) && t.outValSet
      case CmdResetState => t.outVal == (if s.outValSet then s.outVal else s.outCur * t.curSign) && t.outValSet
      case Update(r, val, _) =>
        if s.st == UNKNOWN && Completes(s, r) && !s.outValSet
        then t.outVal == (if r == ROutCur then val else s.outCur) * t.curSign && t.outValSet
        else t.outVal == s.outVal && (s.outValSet ==> t.outValSet)
      case _ => t.outVal == s.outVal && t.outValSet == s.outValSet
  {
    match e
    case Update(r, val, late) => UpdateSetpoint(s, r, val, late);
    case Tick(_) => SetStateKeeps(Asked(s, NextOf(s.st)), NextOf(s.st));
    case SubordLost => SetStateKeeps(s.(rcvd := {}), UNKNOWN);
    case WriteIset(v) => SetStateKeeps(s.(outVal := ClipIset(s, v), outValSet := true), RV_ZERO);
    case CmdSwitchOn => SetStateKeeps(s, SW_ON_ENABLE);
    case CmdSwitchOff => SetStateKeeps(s, SW_OFF_DOWN);
    case CmdRstIlks => SetStateKeeps(s, RST_ILK_SET);
    case CmdResetState => DeterminedIs(s);
    case CmdResetCIlks =>
  }

  lemma ReactSetpoint(s: Ps, r: Reading, val: int, late: bool)
    requires Shaped(s) && (r.RIlk? ==> r.n < ILK_COUNT)
    ensures var t := AfterReading(SodcCb(s, r, val), r, late);
      t.outVal == s.outVal && t.outValSet == s.outValSet
  {
    CbSetpoint(s, r, val);
    var u := SodcCb(s, r, val);
    if HasNext(u.st) { SetStateKeeps(Asked(u, NextOf(u.st)), NextOf(u.st)); }
  }

  lemma CbSetpoint(s: Ps, r: Reading, val: int)
    requires Shaped(s) && (r.RIlk? ==> r.n < ILK_COUNT)
    ensures var t := SodcCb(s, r, val); t.outVal == s.outVal && t.outValSet == s.outValSet
  {
    if r.RIlk? {
      SetStateKeeps(if val != 0 then s.(cIlks := s.cIlks[r.n := val]) else s, INTERLOCK);
    } else {
      SetStateKeeps(s, CUT_OFF);
    }
  }

  lemma UpdateSetpoint(s: Ps, r: Reading, val: int, late: bool)
    requires Inv(s) && (r.RIlk? ==> r.n < ILK_COUNT)
    ensures var t := OnUpdate(s, r, val, late);
      if s.st == UNKNOWN && Completes(s, r) && !s.outValSet
      then t.outVal == (if r == ROutCur then val else s.outCur) * t.curSign && t.outValSet
      else t.outVal == s.outVal && (s.outValSet ==> t.outValSet)
  {
    var t := Took(s, r, val);
    TookOk(s, r, val);
    if s.st == UNKNOWN && Completes(s, r) {
      CompletesIs(s, r, val, late);
      DetermineOk(t);
      DeterminedIs(t);
      var u := SetState(t, DETERMINE);
      ReactSetpoint(u, r, val, late);
      ReactSign(u, r, val, late);
    } else {
      UpdateIs(s, r, val, late);
      ReactSetpoint(t, r, val, late);
    }
  }

  // ----- what was sent -----

  function LineValue(ls: Lines, line: Line): int {
    match line
    case OUT => ls.out
    case OUT_IMM => ls.imm
    case SWITCH_ON => ls.sw
    case ENABLE => ls.en
    case RST_B2 => ls.b2
    case RST_B3 => ls.b3
    case REVERSE_ON => ls.revOn
    case REVERSE_OFF => ls.revOff
  }

  /** The value sent last to a line, or the one that the device was left with. */
  function LastSent(left: Lines, log: seq<Sent>, line: Line): int {
    if log == [] then LineValue(left, line)
    else if log[|log| - 1].line == line then log[|log| - 1].val
    else LastSent(left, log[..|log| - 1], line)
  }

  /** The record of lines is what the log says. */
  predicate LinesOk(left: Lines, s: Ps) {
    forall line :: LineValue(s.last, line) == LastSent(left, s.log, line)
  }

  lemma SndLines(left: Lines, s: Ps, prev: St, line: Line, val: int)
    requires LinesOk(left, s)
    ensures LinesOk(left, Snd(s, prev, line, val))
  {
    var t := Snd(s, prev, line, val);
    assert t.log[..|t.log| - 1] == s.log;
    forall x: Line ensures LineValue(t.last, x) == LastSent(left, t.log, x) {
      assert LineValue(s.last, x) == LastSent(left, s.log, x);
    }
  }

  lemma AllOffLines(left: Lines, s: Ps, prev: St)
    requires LinesOk(left, s)
    ensures LinesOk(left, AllOff(s, prev))
  {
    var a := Snd(s, prev, OUT, 0);
    SndLines(left, s, prev, OUT, 0);
    var b := Snd(a, prev, OUT_IMM, 0);
    SndLines(left, a, prev, OUT_IMM, 0);
    var c := Snd(b, prev, SWITCH_ON, 0);
    SndLines(left, b, prev, SWITCH_ON, 0);
    SndLines(left, c, prev, ENABLE, 0);
  }

  lemma SndTwiceLines(left: Lines, s: Ps, prev: St, line: Line, more: Line, val: int, next: int)
    requires LinesOk(left, s)
    ensures LinesOk(left, Snd(Snd(s, prev, line, val), prev, more, next))
  {
    SndLines(left, s, prev, line, val);
    SndLines(left, Snd(s, prev, line, val), prev, more, next);
  }

  lemma ActLines(left: Lines, s: Ps, st: St, prev: St)
    requires LinesOk(left, s)
    ensures LinesOk(left, Act(s, st, prev))
  {
    match st
    case INTERLOCK => AllOffLines(left, s, prev);
    case CUT_OFF => AllOffLines(left, s, prev);
    case RST_ILK_SET => SndTwiceLines(left, s, prev, RST_B2, RST_B3, 1, 1);
    case RST_ILK_DRP => SndTwiceLines(left, s.(cIlks := seq(|s.cIlks|, i => 0)), prev, RST_B2, RST_B3, 0, 0);
    case SW_ON_ENABLE => SndLines(left, s, prev, ENABLE, 1);
    case SW_ON_SET_ON => SndLines(left, s, prev, SWITCH_ON, 1);
    case SW_ON_DRP_ON => SndLines(left, s, prev, SWITCH_ON, 0);
    case SW_ON_UP => SndLines(left, s, prev, OUT, OutFor(s));
    case SW_OFF_DOWN =>
      SndLines(left, s, prev, OUT, 0);
      SndTwiceLines(left, s, prev, OUT, SWITCH_ON, 0, 0);
    case SW_OFF_CHK_I => SndLines(left, s, prev, ENABLE, 0);
    case RV_ZERO => SndLines(left, s.(rqdSign := Sign(s.outVal)), prev, OUT, 0);
    case RV_SET_DO => SndLines(left, s, prev, ReverseLine(s), 1);
    case RV_DRP_DO => SndLines(left, s, prev, ReverseLine(s), 0);
    case _ =>
  }

  lemma {:induction false} SetStateLines(left: Lines, s: Ps, nxt: St)
    requires LinesOk(left, s)
    ensures LinesOk(left, SetState(s, nxt))
    decreases Rank(nxt)
  {
    if nxt != s.st {
      var a := s.(st := nxt);
      ActLines(left, a, nxt, s.st);
      if Onward(a, nxt) != nxt {
        SetStateLines(left, Act(a, nxt, s.st), Onward(a, nxt));
      } else if HasNext(nxt) && Instant(nxt) {
        SetStateLines(left, Act(a, nxt, s.st), NextOf(nxt));
      }
    }
  }

  lemma ReactLines(left: Lines, s: Ps, r: Reading, val: int, late: bool)
    requires LinesOk(left, s) && Shaped(s) && (r.RIlk? ==> r.n < ILK_COUNT)
    ensures LinesOk(left, AfterReading(SodcCb(s, r, val), r, late))
  {
    if r.RIlk? {
      SetStateLines(left, if val != 0 then s.(cIlks := s.cIlks[r.n := val]) else s, INTERLOCK);
    } else {
      SetStateLines(left, s, CUT_OFF);
    }
    var u := SodcCb(s, r, val);
    assert LinesOk(left, u);
    SetStateLines(left, Asked(u, NextOf(u.st)), NextOf(u.st));
  }

  lemma UpdateLines(left: Lines, s: Ps, r: Reading, val: int, late: bool)
    requires LinesOk(left, s) && Inv(s) && (r.RIlk? ==> r.n < ILK_COUNT)
    ensures LinesOk(left, OnUpdate(s, r, val, late))
  {
    var t := Took(s, r, val);
    TookOk(s, r, val);
    if s.st == UNKNOWN && Completes(s, r) {
      CompletesIs(s, r, val, late);
      SetStateLines(left, t, DETERMINE);
      DetermineOk(t);
      ReactLines(left, SetState(t, DETERMINE), r, val, late);
    } else {
      UpdateIs(s, r, val, late);
      ReactLines(left, t, r, val, late);
    }
  }

  lemma IsetLines(left: Lines, s: Ps, v: int)
    requires LinesOk(left, s)
    ensures LinesOk(left, OnIset(s, v))
  {
    var t := s.(outVal := ClipIset(s, v), outValSet := true);
    SetStateLines(left, t, RV_ZERO);
    SndLines(left, t, t.st, OUT, OutFor(t));
  }

  lemma StepLines(left: Lines, s: Ps, e: Event)
    requires Inv(s) && Deliverable(e) && LinesOk(left, s)
    ensures LinesOk(left, Next(s, e))
  {
    match e
    case Update(r, val, late) => UpdateLines(left, s, r, val, late);
    case Tick(_) => SetStateLines(left, Asked(s, NextOf(s.st)), NextOf(s.st));
    case SubordLost => SetStateLines(left, s.(rcvd := {}), UNKNOWN);
    case WriteIset(v) => IsetLines(left, s, v);
    case CmdSwitchOn => SetStateLines(left, s, SW_ON_ENABLE);
    case CmdSwitchOff => SetStateLines(left, s, SW_OFF_DOWN);
    case CmdRstIlks => SetStateLines(left, s, RST_ILK_SET);
    case CmdResetState => SetStateLines(left, s, DETERMINE);
    case CmdResetCIlks =>
  }

  lemma NextLines(left: Lines, h: Runs, j: nat)
    requires 0 < j <= |h.es| && LinesOk(left, h.ss[j - 1])
    ensures LinesOk(left, h.ss[j])
  {
    RunInv(h, j - 1);
    var e := h.es[j - 1];
    StepLines(left, h.ss[j - 1], e);
  }

  /** In every run the value that each line is taken to have is the one sent to it last,
      or what the device was left with. */
  lemma {:induction false} RunLines(left: Lines, h: Runs, j: nat)
    requires j <= |h.es| && h.ss[0].last == left && h.ss[0].log == []
    ensures LinesOk(left, h.ss[j])
  {
    if j > 0 {
      RunLines(left, h, j - 1);
      NextLines(left, h, j);
    }
  }

  /** A value is logged with the circumstances in which it is sent. */
  lemma RecordIs(s: Ps, prev: St, line: Line, val: int)
    requires Shaped(s)
    ensures var t := Snd(s, prev, line, val);
      && |t.log| == |s.log| + 1 && t.log[..|s.log|] == s.log
      && var r := t.log[|s.log|];
      && r.line == line && r.val == val && r.st == s.st && r.from == prev
      && r.wanted == s.outVal && r.sign == s.curSign && r.seenPol == s.seenPol
      && r.outCur == s.outCur && r.outBefore == s.last.out
      && (r.ilkFree <==> forall n :: 0 <= n < ILK_COUNT ==> s.ilk[n] == 0)
  {
  }
}
