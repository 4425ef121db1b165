/** The power supply over whole runs. */
module IstRuns {
  import opened CMath
  import opened IstState
  import opened IstSafety

  // ----- every event -----

  lemma IsetOk(s: Ps, v: int)
    requires Inv(s)
    ensures var t := OnIset(s, v); Inv(t) && t.curSign == s.curSign && (Calm(s) ==> Calm(t))
  {
    var t := s.(outVal := ClipIset(s, v), outValSet := true);
    if t.st == IS_ON || t.st == SW_ON_UP {
      if WrongSign(t) {
        ReverseOk(t);
      } else {
        SndOk(t, t.st, OUT, OutFor(t));
      }
    }
  }

  lemma CommandOk(s: Ps, e: Event)
    requires Inv(s) && (e.CmdSwitchOn? || e.CmdSwitchOff? || e.CmdRstIlks? || e.CmdResetCIlks?)
    ensures var t := Next(s, e); Inv(t) && t.curSign == s.curSign && (Calm(s) ==> Calm(t))
  {
    match e
    case CmdSwitchOn => if Allowed(s, SW_ON_ENABLE) { SwitchOnStageOk(s, SW_ON_ENABLE); }
    case CmdSwitchOff => DownOk(s);
    case CmdRstIlks => if Allowed(s, RST_ILK_SET) { ResetStageOk(s, RST_ILK_SET); }
    case _ =>
  }

  /** Every event keeps the invariant; unless the state is re-determined it also keeps
      the order, and the polarity taken changes only while OUT is 0. */
  lemma StepOk(s: Ps, e: Event)
    requires Inv(s) && Deliverable(e)
    ensures Inv(Next(s, e))
    ensures Calm(s) && !Redetermines(e) ==> Calm(Next(s, e))
    ensures Next(s, e).curSign != s.curSign && !Redetermines(e) && s.st != UNKNOWN ==>
      s.st == RV_DRP_DO && s.last.out == 0 && Next(s, e).last.out == 0
  {
    match e
    case Update(r, val, late) => UpdateOk(s, r, val, late);
    case Tick(late) => if HasNext(s.st) { TryNextOk(s); }
    case WriteIset(v) => IsetOk(s, v);
    case CmdResetState => DetermineOk(s);
    case SubordLost =>
    case _ => CommandOk(s, e);
  }

  // ----- runs -----

  /** A run: the states that the events lead through, one more than events. */
  datatype History = History(ss: seq<Ps>, es: seq<Event>)

  predicate IsRun(h: History) {
    && |h.ss| == |h.es| + 1 && Inv(h.ss[0])
    && forall i {:trigger h.es[i]} :: 0 <= i < |h.es| ==> Deliverable(h.es[i]) && h.ss[i + 1] == Next(h.ss[i], h.es[i])
  }

  /** The record that the constructor of IstDevice sets up begins a run. */
  lemma InitiallyOk(reversable: bool, bipolar: bool, minHw: int, maxHw: int, left: Lines)
    ensures Inv(Initially(reversable, bipolar, minHw, maxHw, left))
  {
  }

  type Runs = h: History | IsRun(h)
    witness History([Initially(false, false, 0, 0, Lines(0, 0, 0, 0, 0, 0, 0, 0))], [])

  /** In every run, resets and losses of the device included: what was sent obeyed
      SentOk when it was sent, and outputs go with states. */
  lemma {:induction false} RunInv(h: Runs, i: nat)
    requires i <= |h.es|
    ensures Inv(h.ss[i])
  {
    if i > 0 {
      RunInv(h, i - 1);
      StepOk(h.ss[i - 1], h.es[i - 1]);
    }
  }

  /** Every value ever sent was in order: OUT and its sign, ENABLE and SWITCH_ON and
      their stages, REVERSE and the zero current. */
  lemma EverythingSentIsOk(h: Runs, i: nat, k: nat)
    requires i <= |h.es| && k < |h.ss[i].log|
    ensures SentOk(h.ss[i].reversable, h.ss[i].log[k])
  {
    RunInv(h, i);
  }

  /** Every event keeps the ordered outputs, except a loss of the device and a
      RESET_STATE that finds them in a place where the state determined does not
      belong. */
  lemma KeepsCalmIff(s: Ps, e: Event)
    requires Inv(s) && Deliverable(e) && Calm(s)
    ensures Calm(Next(s, e)) <==> KeepsCalm(s, e)
  {
    match e
    case CmdResetState => DeterminedIs(s);
    case SubordLost =>
    case _ => StepOk(s, e);
  }

  /** In runs whose events keep the ordered outputs, every state has them. */
  lemma {:induction false} RunCalm(h: Runs, i: nat)
    requires i <= |h.es| && Calm(h.ss[0])
    requires forall k {:trigger h.es[k]} :: 0 <= k < i ==> KeepsCalm(h.ss[k], h.es[k])
    ensures Calm(h.ss[i])
  {
    if i > 0 {
      RunCalm(h, i - 1);
      RunInv(h, i - 1);
      var e := h.es[i - 1];
      KeepsCalmIff(h.ss[i - 1], e);
    }
  }

  /** In such runs: off states have OUT, OUT_IMM, SWITCH_ON and ENABLE at 0; a nonzero
      OUT means up or on, enabled, with the wanted magnitude and the right polarity. */
  lemma OffMeansOff(h: Runs, i: nat)
    requires i <= |h.es| && Calm(h.ss[0])
    requires forall k {:trigger h.es[k]} :: 0 <= k < i ==> KeepsCalm(h.ss[k], h.es[k])
    ensures var s := h.ss[i];
      && (s.st == IS_OFF || s.st == CUT_OFF || s.st == INTERLOCK || ResetStage(s.st) ==> AllZero(s.last))
      && (s.last.out != 0 ==>
            && (s.st == IS_ON || s.st == SW_ON_UP) && s.last.en == 1 && s.last.sw == 0
            && s.last.out == OutFor(s) && (s.reversable ==> Sign(s.outVal) == s.curSign))
      && (s.last.sw != 0 ==> s.st == SW_ON_SET_ON)
  {
    RunCalm(h, i);
    RunInv(h, i);
  }

  /** Determining the state would take another polarity while OUT is not 0. */
  predicate TakesOtherSign(s: Ps) {
    s.last.out != 0 && s.curSign != SignAfter(s)
  }

  predicate SpoilsSign(s: Ps, e: Event) {
    match e
    case CmdResetState => TakesOtherSign(s)
    case Update(r, val, _) =>
      s.st == UNKNOWN && Completes(s, r) && !(r.RIlk? && val != 0) && TakesOtherSign(Took(s, r, val))
    case _ => false
  }

  lemma DeterminedSign(s: Ps)
    requires Inv(s)
    ensures SetState(s, DETERMINE).curSign == SignAfter(s)
  {
    DeterminedIs(s);
  }

  lemma CompletionSignIff(s: Ps, r: Reading, val: int, late: bool)
    requires Inv(s) && s.st == UNKNOWN && (r.RIlk? ==> r.n < ILK_COUNT)
    ensures var t := OnUpdate(s, r, val, late);
      (t.curSign != s.curSign && t.last.out != 0) <==> SpoilsSign(s, Update(r, val, late))
  {
    TookOk(s, r, val);
    if Completes(s, r) {
      CompletesWith(s, r, val, late);
      DetermineOk(Took(s, r, val));
      DeterminedSign(Took(s, r, val));
    } else {
      UpdateIs(s, r, val, late);
    }
  }

  lemma UpdateSignIff(s: Ps, r: Reading, val: int, late: bool)
    requires Inv(s) && (r.RIlk? ==> r.n < ILK_COUNT)
    ensures var t := OnUpdate(s, r, val, late);
      (t.curSign != s.curSign && t.last.out != 0) <==> SpoilsSign(s, Update(r, val, late))
  {
    if s.st == UNKNOWN { CompletionSignIff(s, r, val, late); } else { UpdateOk(s, r, val, late); }
  }

  lemma LostSign(s: Ps)
    ensures Next(s, SubordLost).curSign == s.curSign
  {
    if s.st != UNKNOWN { SetStateIs(s.(rcvd := {}), UNKNOWN); }
  }

  /** An event changes the polarity taken and leaves OUT at another value than 0 if and
      only if it determines the state at such a moment. */
  lemma SpoilsSignIff(s: Ps, e: Event)
    requires Inv(s) && Deliverable(e)
    ensures var t := Next(s, e); (t.curSign != s.curSign && t.last.out != 0) <==> SpoilsSign(s, e)
  {
    match e
    case CmdResetState =>
      DetermineOk(s);
      DeterminedSign(s);
    case Update(r, val, late) => UpdateSignIff(s, r, val, late);
    case Tick(_) => if HasNext(s.st) { TryNextOk(s); }
    case WriteIset(v) => IsetOk(s, v);
    case SubordLost => LostSign(s);
    case _ => CommandOk(s, e);
  }

  /** In every run the polarity taken changes only with OUT at 0, even when the
      set-point is rewritten in the middle of a reversal, except at those moments; and
      without determining the state it changes only in RV_DRP_DO. */
  lemma PolarityChangesAtZero(h: Runs, i: nat)
    requires i < |h.es|
    ensures (h.ss[i + 1].curSign != h.ss[i].curSign && h.ss[i + 1].last.out != 0) <==> SpoilsSign(h.ss[i], h.es[i])
    ensures h.ss[i + 1].curSign != h.ss[i].curSign && !Redetermines(h.es[i]) && h.ss[i].st != UNKNOWN ==>
      h.ss[i].last.out == 0 && h.ss[i + 1].last.out == 0 && h.ss[i].st == RV_DRP_DO
  {
    RunInv(h, i);
    var e := h.es[i];
    SpoilsSignIff(h.ss[i], e);
    StepOk(h.ss[i], e);
  }

  lemma InterlockInReset(s: Ps, n: nat, val: int, late: bool)
    requires Inv(s) && ResetStage(s.st) && n < ILK_COUNT && val != 0
    ensures var t := OnUpdate(s, RIlk(n), val, late); t.st == s.st && AllZero(t.last)
  {
    var t := Took(s, RIlk(n), val);
    assert t.ilk[n] == val && !IlkFree(t);
  }

  /** Once the picture is complete, the reading that completes it included, everything
      is at 0 after any interlock; outside the reset stages it trips at once, and a
      reset stage stays. */
  lemma InterlockTrips(h: Runs, i: nat, n: nat, val: int, late: bool)
    requires i < |h.es| && h.es[i] == Update(RIlk(n), val, late) && val != 0
    requires h.ss[i].st == UNKNOWN ==> Completes(h.ss[i], RIlk(n))
    ensures AllZero(h.ss[i + 1].last)
    ensures h.ss[i + 1].st == if ResetStage(h.ss[i].st) then h.ss[i].st else INTERLOCK
  {
    RunInv(h, i);
    if h.ss[i].st == UNKNOWN {
      CompletesWith(h.ss[i], RIlk(n), val, late);
    } else if ResetStage(h.ss[i].st) {
      InterlockInReset(h.ss[i], n, val, late);
    } else {
      UpdateOk(h.ss[i], RIlk(n), val, late);
    }
  }

  // ----- staying dead -----

  /** Neither enabled nor being switched on. */
  predicate Dead(s: Ps) {
    s.last.en == 0 && s.last.sw == 0 && s.st != SW_ON_ENABLE
  }

  lemma {:induction false} SetStateDead(s: Ps, nxt: St)
    requires Dead(s) && nxt != SW_ON_ENABLE && nxt != SW_ON_SET_ON
    ensures Dead(SetState(s, nxt))
    decreases Rank(nxt)
  {
    if nxt != s.st {
      var a := s.(st := nxt);
      if nxt != DETERMINE { ActKeeps(a, nxt, s.st); }
      if Onward(a, nxt) != nxt {
        SetStateDead(Act(a, nxt, s.st), Onward(a, nxt));
      } else if HasNext(nxt) && Instant(nxt) {
        var t := Act(a, nxt, s.st);
        SetStateDead(Asked(t, NextOf(nxt)), NextOf(nxt));
      }
    }
  }

  lemma CbDead(s: Ps, r: Reading, val: int)
    requires Dead(s) && Shaped(s) && (r.RIlk? ==> r.n < ILK_COUNT)
    ensures Dead(SodcCb(s, r, val))
  {
    if r.RIlk? {
      SetStateDead(if val != 0 then s.(cIlks := s.cIlks[r.n := val]) else s, INTERLOCK);
    } else {
      SetStateDead(s, CUT_OFF);
    }
  }

  lemma TryDead(s: Ps, st: St)
    requires Dead(s) && st != SW_ON_ENABLE && st != SW_ON_SET_ON
    ensures Dead(TryState(s, st))
  {
    SetStateDead(Asked(s, st), st);
  }

  lemma ReactDead(s: Ps, r: Reading, val: int, late: bool)
    requires Dead(s) && Shaped(s) && (r.RIlk? ==> r.n < ILK_COUNT)
    ensures Dead(AfterReading(SodcCb(s, r, val), r, late))
  {
    CbDead(s, r, val);
    var u := SodcCb(s, r, val);
    if NextOf(u.st) != SW_ON_SET_ON { TryDead(u, NextOf(u.st)); }
  }

  lemma StepDead(s: Ps, e: Event)
    requires Inv(s) && Deliverable(e) && Dead(s) && !(e == CmdSwitchOn && Allowed(s, SW_ON_ENABLE))
    ensures Dead(Next(s, e))
  {
    match e
    case Update(r, val, late) =>
      var t := Took(s, r, val);
      TookOk(s, r, val);
      if t.st == UNKNOWN && t.rcvd >= IMPORTANT {
        DetermineOk(t);
        SetStateDead(t, DETERMINE);
        ReactDead(SetState(t, DETERMINE), r, val, late);
      } else {
        ReactDead(t, r, val, late);
      }
    case Tick(_) => if HasNext(s.st) { TryDead(s, NextOf(s.st)); }
    case SubordLost => SetStateDead(s.(rcvd := {}), UNKNOWN);
    case WriteIset(v) => SetStateDead(s.(outVal := ClipIset(s, v), outValSet := true), RV_ZERO);
    case CmdSwitchOn =>
    case CmdSwitchOff => SetStateDead(s, SW_OFF_DOWN);
    case CmdRstIlks => SetStateDead(s, RST_ILK_SET);
    case CmdResetState => SetStateDead(s, DETERMINE);
    case CmdResetCIlks =>
  }

  /** After a trip ENABLE and SWITCH_ON stay 0 until the next switch-on that its guard
      lets through, whatever else happens, resets of the state included. */
  lemma {:induction false} StaysDead(h: Runs, i: nat, j: nat)
    requires i <= j <= |h.es| && Dead(h.ss[i])
    requires forall k {:trigger h.es[k]} :: i <= k < j ==> !(h.es[k] == CmdSwitchOn && Allowed(h.ss[k], SW_ON_ENABLE))
    ensures Dead(h.ss[j])
  {
    if i < j {
      StaysDead(h, i, j - 1);
      RunInv(h, j - 1);
      var e := h.es[j - 1];
      StepDead(h.ss[j - 1], e);
    }
  }

  // ----- what re-determination can spoil -----

  /** RESET_STATE lands in IS_OFF with something left on exactly when OPR is off and
      something was on. */
  lemma ResetMeansOffIff(s: Ps)
    requires Inv(s)
    ensures var t := Next(s, CmdResetState);
      && (t.st == IS_OFF <==> s.opr == 0)
      && ((t.st == IS_OFF ==> AllZero(t.last)) <==> s.opr != 0 || AllZero(s.last))
  {
    DeterminedIs(s);
  }

  /** The outputs are ordered after RESET_STATE exactly when they suit the state that
      is determined, whatever they were before. */
  lemma ResetIsCalmIff(s: Ps)
    requires Inv(s)
    ensures Calm(Next(s, CmdResetState)) <==> SuitsDetermined(s)
  {
    DeterminedIs(s);
  }

  /** The reading that completes the picture determines the state: the outputs are
      ordered then exactly when it is an interlock, or when they suit that state. */
  lemma CompletionIsCalmIff(s: Ps, r: Reading, val: int, late: bool)
    requires Inv(s) && s.st == UNKNOWN && (r.RIlk? ==> r.n < ILK_COUNT) && Completes(s, r)
    ensures Calm(Next(s, Update(r, val, late))) <==> (r.RIlk? && val != 0) || SuitsDetermined(Took(s, r, val))
  {
    CompletesWith(s, r, val, late);
    TookOk(s, r, val);
    DeterminedIs(Took(s, r, val));
  }

  /** RESET_STATE between switching on and OPR leads to IS_OFF at once, with ENABLE and
      in its stage SWITCH_ON left at 1. */
  lemma ResetDuringSwitchOn(s: Ps)
    requires Inv(s) && s.opr == 0 && (s.st == SW_ON_ENABLE || s.st == SW_ON_SET_ON)
    ensures var t := Next(s, CmdResetState);
      t.st == IS_OFF && t.last.en == 1 && (s.st == SW_ON_SET_ON ==> t.last.sw == 1)
  {
    DeterminedIs(s);
  }

  lemma DownFromOn(s: Ps)
    requires s.st == IS_ON
    ensures Next(s, CmdSwitchOff) ==
      var a := Snd(s.(st := SW_OFF_DOWN), IS_ON, OUT, 0);
      if s.outCur == 0 then SetState(a, SW_OFF_CHK_I) else a
  {
    DownIs(s);
    SetStateIs(s, SW_OFF_DOWN);
  }

  /** Switching off from IS_ON ends with SWITCH_ON at 0 exactly when it was 0: this
      path does not drop the line itself. */
  lemma SwitchOffFromOn(s: Ps)
    requires Inv(s) && s.st == IS_ON
    ensures Next(s, CmdSwitchOff).last.sw == 0 <==> s.last.sw == 0
  {
    DownFromOn(s);
    CheckCurrentIs(Snd(s.(st := SW_OFF_DOWN), IS_ON, OUT, 0));
  }

  /** That can happen: RESET_STATE in the middle of the switch-on pulse, with the
      supply already reporting on, leads to IS_ON with SWITCH_ON still raised, and the
      ordered switch-off then ends in IS_OFF with the line at 1. */
  lemma ResetLeavesSwitchOnRaised(s: Ps)
    requires Inv(s) && s.st == SW_ON_SET_ON && s.opr != 0 && s.outCur == 0
    ensures var a := Next(s, CmdResetState);
      var b := Next(a, CmdSwitchOff);
      var c := Next(b, Update(ROpr, 0, true));
      var e := Next(c, Tick(true));
      a.st == IS_ON && b.st == SW_OFF_CHK_I && c.st == SW_OFF_CHK_E && e.st == IS_OFF && e.last.sw == 1
  {
    var a := Next(s, CmdResetState);
    assert a.st == IS_ON && a.last == s.last && a.opr == s.opr && a.outCur == 0;
    OffAtZeroCurrent(a);
    SwitchOffFromOn(a);
    var b := Next(a, CmdSwitchOff);
    CheckEnableEnds(b);
  }

  lemma OffAtZeroCurrent(s: Ps)
    requires s.st == IS_ON && s.outCur == 0 && s.opr != 0
    ensures var t := Next(s, CmdSwitchOff);
      t.st == SW_OFF_CHK_I && t.last.sw == s.last.sw
  {
    DownFromOn(s);
    CheckCurrentIs(Snd(s.(st := SW_OFF_DOWN), IS_ON, OUT, 0));
  }

  lemma CheckEnableEnds(s: Ps)
    requires s.st == SW_OFF_CHK_I
    ensures var c := Next(s, Update(ROpr, 0, true));
      var e := Next(c, Tick(true));
      c.st == SW_OFF_CHK_E && e.st == IS_OFF && e.last == s.last
  {
    var t := Took(s, ROpr, 0);
    assert SodcCb(t, ROpr, 0) == t;
    assert SetState(t, SW_OFF_CHK_E) == t.(st := SW_OFF_CHK_E);
    var c := Next(s, Update(ROpr, 0, true));
    assert c == t.(st := SW_OFF_CHK_E);
  }

  /** The raised REVERSE bit is dropped exactly by the heartbeat that finds the delay
      over; a trip, a switch-off or a reset before that leaves it raised. */
  lemma ReverseBitDroppedIff(s: Ps, e: Event)
    requires Inv(s) && Deliverable(e) && s.st == RV_SET_DO
    ensures var t := Next(s, e);
      ((if s.rqdSign < 0 then t.last.revOn else t.last.revOff) == 0) <==> e == Tick(true)
  {
    match e
    case Update(r, val, late) => ReverseUpdate(s, r, val, late);
    case Tick(late) => ReverseDropOk(s);
    case CmdSwitchOff => ReverseDown(s);
    case _ => ReverseOther(s, e);
  }

  predicate SameReverse(s: Ps, t: Ps) {
    t.last.revOn == s.last.revOn && t.last.revOff == s.last.revOff && t.st != RV_DRP_DO
  }

  lemma ReverseOther(s: Ps, e: Event)
    requires Inv(s) && s.st == RV_SET_DO && !e.Update? && !e.Tick? && !e.CmdSwitchOff?
    ensures SameReverse(s, Next(s, e))
  {
    match e
    case SubordLost => SetStateIs(s.(rcvd := {}), UNKNOWN);
    case CmdResetState => DetermineOk(s);
    case _ =>
  }

  lemma TripIs(s: Ps)
    requires s.st != INTERLOCK
    ensures var t := SetState(s, INTERLOCK); t.st == INTERLOCK && SameReverse(s, t)
  {
    assert SetState(s, INTERLOCK) == AllOff(s.(st := INTERLOCK), s.st);
  }

  lemma ReverseCb(s: Ps, r: Reading, val: int)
    requires Shaped(s) && s.st == RV_SET_DO && (r.RIlk? ==> r.n < ILK_COUNT)
    ensures var t := SodcCb(s, r, val); SameReverse(s, t) && (t.st == RV_SET_DO || t.st == INTERLOCK)
  {
    if r.RIlk? { TripIs(if val != 0 then s.(cIlks := s.cIlks[r.n := val]) else s); }
  }

  lemma ReverseUpdate(s: Ps, r: Reading, val: int, late: bool)
    requires Inv(s) && s.st == RV_SET_DO && (r.RIlk? ==> r.n < ILK_COUNT)
    ensures SameReverse(s, OnUpdate(s, r, val, late))
  {
    TookOk(s, r, val);
    ReverseCb(Took(s, r, val), r, val);
  }

  lemma DownKeepsReverse(s: Ps)
    requires s.st == RV_SET_DO
    ensures SameReverse(s, Entered(s, SW_OFF_DOWN))
  {
    SetStateIs(s, SW_OFF_DOWN);
    ActKeeps(s.(st := SW_OFF_DOWN), SW_OFF_DOWN, s.st);
  }

  lemma ReverseDown(s: Ps)
    requires s.st == RV_SET_DO
    ensures SameReverse(s, SetState(s, SW_OFF_DOWN))
  {
    DownIs(s);
    DownKeepsReverse(s);
    CheckCurrentKeepsReverse(Entered(s, SW_OFF_DOWN));
  }

  lemma CheckCurrentKeepsReverse(s: Ps)
    requires s.st == SW_OFF_DOWN
    ensures SameReverse(s, SetState(s, SW_OFF_CHK_I))
  {
    CheckCurrentIs(s);
  }

  // ----- the log is complete -----

  lemma {:induction false} SetStateLogs(s: Ps, nxt: St)
    ensures s.log <= SetState(s, nxt).log
    decreases Rank(nxt)
  {
    if nxt != s.st {
      var a := s.(st := nxt);
      ActLogs(a, nxt, s.st);
      if Onward(a, nxt) != nxt {
        SetStateLogs(Act(a, nxt, s.st), Onward(a, nxt));
      } else if HasNext(nxt) && Instant(nxt) {
        var t := Act(a, nxt, s.st);
        SetStateLogs(Asked(t, NextOf(nxt)), NextOf(nxt));
      }
    }
  }

  lemma CbLogs(s: Ps, r: Reading, val: int)
    ensures s.log <= SodcCb(s, r, val).log
  {
    if r.RIlk? && val != 0 && r.n < |s.cIlks| {
      SetStateLogs(s.(cIlks := s.cIlks[r.n := val]), INTERLOCK);
    } else {
      SetStateLogs(s, INTERLOCK);
    }
    SetStateLogs(s, CUT_OFF);
  }

  lemma ReactLogs(s: Ps, r: Reading, val: int, late: bool)
    ensures s.log <= AfterReading(SodcCb(s, r, val), r, late).log
  {
    CbLogs(s, r, val);
    var u := SodcCb(s, r, val);
    SetStateLogs(Asked(u, NextOf(u.st)), NextOf(u.st));
  }

  lemma UpdateLogs(s: Ps, r: Reading, val: int, late: bool)
    ensures s.log <= OnUpdate(s, r, val, late).log
  {
    var t := Took(s, r, val);
    SetStateLogs(t, DETERMINE);
    var u := if t.st == UNKNOWN && t.rcvd >= IMPORTANT then SetState(t, DETERMINE) else t;
    assert s.log <= u.log;
    ReactLogs(u, r, val, late);
  }

  /** Nothing sent is ever forgotten: the log only grows. */
  lemma StepLogs(s: Ps, e: Event)
    ensures s.log <= Next(s, e).log
  {
    match e
    case Update(r, val, late) => UpdateLogs(s, r, val, late);
    case Tick(_) => SetStateLogs(Asked(s, NextOf(s.st)), NextOf(s.st));
    case SubordLost => SetStateLogs(s.(rcvd := {}), UNKNOWN);
    case WriteIset(v) => SetStateLogs(s.(outVal := ClipIset(s, v), outValSet := true), RV_ZERO);
    case CmdSwitchOn => SetStateLogs(s, SW_ON_ENABLE);
    case CmdSwitchOff => SetStateLogs(s, SW_OFF_DOWN);
    case CmdRstIlks => SetStateLogs(s, RST_ILK_SET);
    case CmdResetState => SetStateLogs(s, DETERMINE);
    case CmdResetCIlks =>
  }
}
