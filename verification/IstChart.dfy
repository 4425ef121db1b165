/** The state chart of the power supply, event by event, without the engine: where each
    event leads from each state. */
module IstChart {
  import opened CMath
  import opened IstState
  import opened IstSafety
  import opened IstRuns

  // ----- the chart -----

  /** Where the ordered switch-off gets to at once. */
  function DownTo(s: Ps): St {
    if s.outCur != 0 then SW_OFF_DOWN else if s.opr != 0 then SW_OFF_CHK_I else SW_OFF_CHK_E
  }

  /** Where a reversal gets to at once. */
  function ReverseTo(s: Ps): St {
    if s.outCur != 0 then RV_ZERO else RV_SET_DO
  }

  /** The set-point asks for the other polarity than the one taken. */
  predicate Opposite(s: Ps) {
    s.reversable && ((s.outVal > 0 && s.curSign == -1) || (s.outVal < 0 && s.curSign == 1))
  }

  function UpTo(s: Ps): St {
    if Opposite(s) then ReverseTo(s) else SW_ON_UP
  }

  predicate NoInterlock(s: Ps) {
    forall n :: 0 <= n < ILK_COUNT && n < |s.ilk| ==> s.ilk[n] == 0
  }

  /** The current is no more than 305 away from the set-point; above it in magnitude,
      for a reversible supply. */
  predicate Arrived(s: Ps) {
    if s.reversable then Abs(s.outCur) <= Abs(s.outVal) + 305
    else s.outVal - 305 <= s.outCur <= s.outVal + 305
  }

  /** The polarity reading is stable and the one required. */
  predicate Reversed(s: Ps) {
    (s.polarity > 4000000 && s.rqdSign == 1) || (s.polarity < -4000000 && s.rqdSign == -1)
  }

  /** The delay of the state is over. */
  function OnDelay(s: Ps): St {
    match s.st
    case RST_ILK_SET => RST_ILK_DRP
    case RST_ILK_DRP => if NoInterlock(s) then RST_ILK_CHK else s.st
    case RST_ILK_CHK => IS_OFF
    case SW_ON_ENABLE => SW_ON_SET_ON
    case SW_ON_SET_ON => SW_ON_DRP_ON
    case SW_ON_DRP_ON => if s.opr != 0 then UpTo(s) else s.st
    case SW_ON_UP => if Arrived(s) then IS_ON else s.st
    case SW_OFF_CHK_E => IS_OFF
    case RV_SET_DO => RV_DRP_DO
    case RV_DRP_DO => if Reversed(s) then RV_CHK else s.st
    case RV_CHK => if s.opr != 0 then UpTo(s) else s.st
    case _ => s.st
  }

  /** A reading was taken that neither trips nor cuts off. */
  function OnReading(s: Ps, r: Reading, late: bool): St {
    match r
    case ROutCur =>
      if s.st == SW_ON_UP && late && Arrived(s) then IS_ON
      else if s.st == SW_OFF_DOWN && s.outCur == 0 then DownTo(s)
      else if s.st == RV_ZERO && s.outCur == 0 then RV_SET_DO
      else s.st
    case ROpr => if s.st == SW_OFF_CHK_I && s.opr == 0 then SW_OFF_CHK_E else s.st
    case RPolarity => if s.st == RV_DRP_DO && late && Reversed(s) then RV_CHK else s.st
    case RIlk(_) => if s.st == RST_ILK_DRP && late && NoInterlock(s) then RST_ILK_CHK else s.st
    case _ => s.st
  }

  predicate TripsOn(s: Ps, r: Reading, val: int) {
    r.RIlk? && val != 0 && s.st != RST_ILK_SET && s.st != RST_ILK_DRP && s.st != RST_ILK_CHK
  }

  predicate CutsOffOn(s: Ps, r: Reading, val: int) {
    r == ROpr && val == 0 && (s.st == SW_ON_DRP_ON || s.st == SW_ON_UP || s.st == IS_ON)
  }

  function Found(s: Ps): St {
    if s.opr != 0 then IS_ON else IS_OFF
  }

  /** The state that event e leads to. */
  function Chart(s: Ps, e: Event): St {
    match e
    case Update(r, val, late) =>
      var t := Took(s, r, val);
      if s.st == UNKNOWN && !Completes(s, r) then UNKNOWN
      else if TripsOn(s, r, val) then INTERLOCK
      else if s.st == UNKNOWN then Found(t)
      else if CutsOffOn(s, r, val) then CUT_OFF
      else OnReading(t, r, late)
    case Tick(late) => if late then OnDelay(s) else s.st
    case SubordLost => UNKNOWN
    case WriteIset(v) =>
      if (s.st == IS_ON || s.st == SW_ON_UP) && Opposite(s.(outVal := ClipIset(s, v))) then ReverseTo(s) else s.st
    case CmdSwitchOn =>
      if (s.st == IS_OFF || s.st == CUT_OFF || s.st == INTERLOCK) && s.outCur == 0 && NoInterlock(s)
      then SW_ON_ENABLE else s.st
    case CmdSwitchOff =>
      if s.st == SW_OFF_DOWN then SW_OFF_DOWN
      else if s.st == IS_ON || s.st == SW_ON_ENABLE || s.st == SW_ON_SET_ON || s.st == SW_ON_DRP_ON || s.st == SW_ON_UP
              || s.opr != 0 || s.outCur != 0
      then DownTo(s) else s.st
    case CmdRstIlks => if s.st == INTERLOCK || ResetStage(s.st) then RST_ILK_SET else s.st
    case CmdResetState => Found(s)
    case CmdResetCIlks => s.st
  }

  // ----- the engine follows the chart -----

  lemma FreeIff(s: Ps)
    requires Shaped(s)
    ensures IlkFree(s) <==> NoInterlock(s)
  {
  }

  lemma PlainLands(s: Ps, nxt: St)
    requires nxt != s.st && nxt != DETERMINE && nxt != SW_ON_UP
    requires nxt != SW_OFF_DOWN && nxt != SW_OFF_CHK_I && nxt != RV_ZERO
    ensures SetState(s, nxt).st == nxt
  {
    SetStateIs(s, nxt);
  }

  lemma CheckLands(s: Ps)
    requires s.st == SW_OFF_DOWN
    ensures SetState(s, SW_OFF_CHK_I).st == if s.opr != 0 then SW_OFF_CHK_I else SW_OFF_CHK_E
  {
    CheckCurrentIs(s);
  }

  lemma DownLands(s: Ps)
    requires s.st != SW_OFF_DOWN
    ensures SetState(s, SW_OFF_DOWN).st == DownTo(s)
  {
    DownIs(s);
    DownReadings(s);
    if s.outCur == 0 { CheckLands(Entered(s, SW_OFF_DOWN)); }
  }

  lemma DownReadings(s: Ps)
    requires s.st != SW_OFF_DOWN
    ensures var t := Entered(s, SW_OFF_DOWN); t.opr == s.opr && t.outCur == s.outCur && t.st == SW_OFF_DOWN
  {
    SetStateIs(s, SW_OFF_DOWN);
    ActKeeps(s.(st := SW_OFF_DOWN), SW_OFF_DOWN, s.st);
  }

  lemma ReverseLands(s: Ps)
    requires s.st != RV_ZERO
    ensures SetState(s, RV_ZERO).st == ReverseTo(s)
  {
    ReverseIs(s);
    if s.outCur == 0 { PlainLands(Snd(s.(st := RV_ZERO, rqdSign := Sign(s.outVal)), s.st, OUT, 0), RV_SET_DO); }
  }

  lemma UpLands(s: Ps)
    requires SignOk(s) && s.st != SW_ON_UP && s.st != RV_ZERO
    ensures SetState(s, SW_ON_UP).st == UpTo(s)
  {
    if WrongSign(s) { ReverseLands(s.(st := SW_ON_UP)); }
  }

  /** Trying a state that is entered without going on. */
  lemma TryLands(s: Ps, st: St)
    requires st != s.st && st != DETERMINE && st != SW_ON_UP && st != RV_CHK
    requires st != SW_OFF_DOWN && st != SW_OFF_CHK_I && st != RV_ZERO
    ensures TryState(s, st).st == if Allowed(s, st) then st else s.st
  {
    PlainLands(s, st);
  }

  lemma TryUp(s: Ps)
    requires SignOk(s) && s.st != SW_ON_UP && s.st != RV_ZERO
    ensures TryState(s, SW_ON_UP).st == if s.opr != 0 then UpTo(s) else s.st
  {
    UpLands(s);
  }

  lemma TickChart(s: Ps)
    requires Inv(s) && HasNext(s.st) && !Instant(s.st)
    ensures TryState(s, NextOf(s.st)).st == OnDelay(s)
  {
    FreeIff(s);
    var n := NextOf(s.st);
    if n == SW_ON_UP {
      TryUp(s);
    } else if n == RV_CHK {
      AskLands(s);
    } else {
      TryLands(s, n);
    }
  }

  lemma AskLands(s: Ps)
    requires s.st == RV_DRP_DO && SignOk(s) && Abs(s.rqdSign) == 1
    ensures TryState(s, RV_CHK).st == if Reversed(s) then RV_CHK else RV_DRP_DO
  {
    PlainLands(Asked(s, RV_CHK), RV_CHK);
  }

  lemma CurrentChart(s: Ps, late: bool)
    requires Inv(s) && s.st != UNKNOWN
    ensures AfterReading(s, ROutCur, late).st == OnReading(s, ROutCur, late)
  {
    match s.st
    case SW_OFF_DOWN => CheckLands(s);
    case RV_ZERO => TryLands(s, RV_SET_DO);
    case SW_ON_UP => TryLands(s, IS_ON);
    case _ =>
  }

  lemma ReadingChart(s: Ps, r: Reading, late: bool)
    requires Inv(s) && s.st != UNKNOWN
    ensures AfterReading(s, r, late).st == OnReading(s, r, late)
  {
    match r
    case ROutCur => CurrentChart(s, late);
    case ROpr => if s.st == SW_OFF_CHK_I { TryLands(s, SW_OFF_CHK_E); }
    case RPolarity => if s.st == RV_DRP_DO { AskLands(s); }
    case RIlk(_) => InterlockChart(s, r, late);
    case _ =>
  }

  lemma InterlockChart(s: Ps, r: Reading, late: bool)
    requires Inv(s) && s.st != UNKNOWN && r.RIlk?
    ensures AfterReading(s, r, late).st == OnReading(s, r, late)
  {
    FreeIff(s);
    if s.st == RST_ILK_DRP { TryLands(s, RST_ILK_CHK); }
  }

  lemma UpdateChart(s: Ps, r: Reading, val: int, late: bool)
    requires Inv(s) && s.st != UNKNOWN && (r.RIlk? ==> r.n < ILK_COUNT)
    ensures OnUpdate(s, r, val, late).st == Chart(s, Update(r, val, late))
  {
    var t := Took(s, r, val);
    TookOk(s, r, val);
    UpdateIs(s, r, val, late);
    if TripsOn(s, r, val) {
      SodcCbOk(t, r, val);
    } else if CutsOffOn(s, r, val) {
      TripOk(t, CUT_OFF);
    } else {
      QuietCb(t, r, val);
      ReadingChart(SodcCb(t, r, val), r, late);
    }
  }

  /** A reading that neither trips nor cuts off changes at most the latched interlocks. */
  lemma QuietCb(s: Ps, r: Reading, val: int)
    requires Inv(s) && !TripsOn(s, r, val) && !CutsOffOn(s, r, val) && (r.RIlk? ==> r.n < ILK_COUNT)
    ensures var t := SodcCb(s, r, val); Inv(t) && t == s.(cIlks := t.cIlks)
  {
    SodcCbOk(s, r, val);
  }

  lemma UnknownChart(s: Ps, r: Reading, val: int, late: bool)
    requires Inv(s) && s.st == UNKNOWN && (r.RIlk? ==> r.n < ILK_COUNT)
    ensures OnUpdate(s, r, val, late).st == Chart(s, Update(r, val, late))
  {
    TookOk(s, r, val);
    if Completes(s, r) {
      CompletesWith(s, r, val, late);
      DetermineOk(Took(s, r, val));
    } else {
      UpdateIs(s, r, val, late);
    }
  }

  lemma CommandChart(s: Ps, e: Event)
    requires Inv(s) && (e.CmdSwitchOn? || e.CmdSwitchOff? || e.CmdRstIlks?)
    ensures Next(s, e).st == Chart(s, e)
  {
    FreeIff(s);
    match e
    case CmdSwitchOn => if s.st != SW_ON_ENABLE { PlainLands(s, SW_ON_ENABLE); }
    case CmdSwitchOff => if s.st != SW_OFF_DOWN { DownLands(s); }
    case _ => if s.st != RST_ILK_SET { PlainLands(s, RST_ILK_SET); }
  }

  /** Every event leads to the state that the chart says. */
  lemma FollowsChart(s: Ps, e: Event)
    requires Inv(s) && Deliverable(e)
    ensures Next(s, e).st == Chart(s, e)
  {
    match e
    case Update(r, val, late) =>
      if s.st == UNKNOWN { UnknownChart(s, r, val, late); } else { UpdateChart(s, r, val, late); }
    case Tick(late) => if HasNext(s.st) && !Instant(s.st) { TickChart(s); }
    case SubordLost => if s.st != UNKNOWN { PlainLands(s.(rcvd := {}), UNKNOWN); }
    case WriteIset(v) => IsetChart(s, v);
    case CmdResetState => DetermineOk(s);
    case CmdResetCIlks =>
    case _ => CommandChart(s, e);
  }

  lemma IsetChart(s: Ps, v: int)
    requires Inv(s)
    ensures OnIset(s, v).st == Chart(s, WriteIset(v))
  {
    var t := s.(outVal := ClipIset(s, v), outValSet := true);
    if (t.st == IS_ON || t.st == SW_ON_UP) && WrongSign(t) { ReverseLands(t); }
  }

  // ----- what the chart means -----

  lemma CutsOffChart(s: Ps, e: Event)
    requires s.st != CUT_OFF
    ensures Chart(s, e) == CUT_OFF <==>
      e.Update? && e.r == ROpr && e.val == 0 && (s.st == SW_ON_DRP_ON || s.st == SW_ON_UP || s.st == IS_ON)
  {
  }

  lemma TripsChart(s: Ps, e: Event)
    requires s.st != INTERLOCK
    ensures Chart(s, e) == INTERLOCK <==>
      e.Update? && e.r.RIlk? && e.val != 0 && !ResetStage(s.st) && (s.st == UNKNOWN ==> Completes(s, e.r))
  {
  }

  lemma NextSt(h: Runs, i: nat)
    requires i < |h.es|
    ensures Inv(h.ss[i]) && Deliverable(h.es[i]) && h.ss[i + 1] == Next(h.ss[i], h.es[i])
    ensures Inv(h.ss[i + 1]) && h.ss[i + 1].st == Chart(h.ss[i], h.es[i])
  {
    RunInv(h, i);
    RunInv(h, i + 1);
    var e := h.es[i];
    FollowsChart(h.ss[i], e);
  }

  /** In every run an OPR that vanishes while the supply is on, going up or about to
      cuts it off in the same event, with everything at 0; nothing else enters CUT_OFF. */
  lemma CutsOffIff(h: Runs, i: nat)
    requires i < |h.es| && h.ss[i].st != CUT_OFF
    ensures h.ss[i + 1].st == CUT_OFF <==>
      var e, st := h.es[i], h.ss[i].st;
      e.Update? && e.r == ROpr && e.val == 0 && (st == SW_ON_DRP_ON || st == SW_ON_UP || st == IS_ON)
    ensures h.ss[i + 1].st == CUT_OFF ==> AllZero(h.ss[i + 1].last)
  {
    NextSt(h, i);
    CutsOffChart(h.ss[i], h.es[i]);
  }

  /** Only an interlock enters INTERLOCK: outside the reset stages, and not before the
      picture is complete. */
  lemma TripsIff(h: Runs, i: nat)
    requires i < |h.es| && h.ss[i].st != INTERLOCK
    ensures h.ss[i + 1].st == INTERLOCK <==>
      var e, s := h.es[i], h.ss[i];
      e.Update? && e.r.RIlk? && e.val != 0 && !ResetStage(s.st) && (s.st == UNKNOWN ==> Completes(s, e.r))
    ensures h.ss[i + 1].st == INTERLOCK ==> AllZero(h.ss[i + 1].last)
  {
    NextSt(h, i);
    TripsChart(h.ss[i], h.es[i]);
  }

  /** The polarity reading after the event. */
  function PolarityAt(s: Ps, e: Event): int {
    if e.Update? && e.r == RPolarity then e.val else s.polarity
  }

  lemma CheckChart(s: Ps, e: Event)
    requires s.st != RV_CHK && (s.st == RV_DRP_DO ==> Abs(s.rqdSign) == 1)
    ensures Chart(s, e) == RV_CHK <==>
      && s.st == RV_DRP_DO && (e == Tick(true) || (e.Update? && e.r == RPolarity && e.late))
      && Abs(PolarityAt(s, e)) > POLARITY_LEVEL && Sign(PolarityAt(s, e)) == s.rqdSign
  {
  }

  /** RV_CHK is entered only from RV_DRP_DO, when its delay is over, and exactly if the
      polarity read is stable and the one required. */
  lemma EntersCheckIff(h: Runs, i: nat)
    requires i < |h.es| && h.ss[i].st != RV_CHK
    ensures h.ss[i + 1].st == RV_CHK <==>
      var s, e := h.ss[i], h.es[i];
      && s.st == RV_DRP_DO && (e == Tick(true) || (e.Update? && e.r == RPolarity && e.late))
      && Abs(PolarityAt(s, e)) > POLARITY_LEVEL && Sign(PolarityAt(s, e)) == s.rqdSign
  {
    NextSt(h, i);
    CheckChart(h.ss[i], h.es[i]);
  }

  // ----- the polarity taken -----

  /** A stable reading shows the polarity, any other one tells nothing. */
  function SignFrom(pol: int, sign: int): int {
    if pol > 4000000 then 1 else if pol < -4000000 then -1 else sign
  }

  /** t has the polarity that the reading pol shows; a supply that cannot be reversed has
      polarity 1 when its state is determined. */
  predicate TakesFrom(s: Ps, t: Ps, pol: int, fixed: bool) {
    if fixed then t.curSign == 1 && t.seenPol == 0
    else t.curSign == SignFrom(pol, s.curSign) && t.seenPol == (if Abs(pol) > POLARITY_LEVEL then pol else s.seenPol)
  }

  predicate KeepsSign(s: Ps, t: Ps) {
    t.curSign == s.curSign && t.seenPol == s.seenPol
  }

  /** The event looks at the polarity to take it. */
  predicate TakesSign(s: Ps, e: Event) {
    || e == CmdResetState
    || (e.Update? && s.st == UNKNOWN && Completes(s, e.r))
    || (s.st == RV_DRP_DO && (e == Tick(true) || (e.Update? && e.r == RPolarity && e.late)))
  }

  lemma TrySign(s: Ps, st: St)
    requires st != DETERMINE
    ensures if st == RV_CHK then TakesFrom(s, TryState(s, st), s.polarity, false) else KeepsSign(s, TryState(s, st))
  {
    SetStateKeeps(Asked(s, st), st);
  }

  lemma CbSign(s: Ps, r: Reading, val: int)
    requires Shaped(s) && (r.RIlk? ==> r.n < ILK_COUNT)
    ensures var t := SodcCb(s, r, val);
      KeepsSign(s, t) && SameReadings(s, t) && (t.st == s.st || t.st == INTERLOCK || t.st == CUT_OFF)
  {
    if r.RIlk? {
      var a := if val != 0 then s.(cIlks := s.cIlks[r.n := val]) else s;
      SetStateKeeps(a, INTERLOCK);
      if a.st != INTERLOCK { PlainLands(a, INTERLOCK); }
    } else {
      SetStateKeeps(s, CUT_OFF);
      if s.st != CUT_OFF { PlainLands(s, CUT_OFF); }
    }
  }

  lemma ReactSign(s: Ps, r: Reading, val: int, late: bool)
    requires Shaped(s) && s.st != UNKNOWN && (r.RIlk? ==> r.n < ILK_COUNT)
    ensures var t := AfterReading(SodcCb(s, r, val), r, late);
      if s.st == RV_DRP_DO && r == RPolarity && late then TakesFrom(s, t, s.polarity, false) else KeepsSign(s, t)
  {
    CbSign(s, r, val);
    var u := SodcCb(s, r, val);
    if HasNext(u.st) { TrySign(u, NextOf(u.st)); }
  }

  lemma DeterminedTakes(s: Ps)
    requires Inv(s)
    ensures TakesFrom(s, SetState(s, DETERMINE), s.polarity, !s.reversable)
  {
    DeterminedIs(s);
  }

  lemma CompletionSign(s: Ps, r: Reading, val: int, late: bool)
    requires Inv(s) && s.st == UNKNOWN && Completes(s, r) && (r.RIlk? ==> r.n < ILK_COUNT)
    ensures TakesFrom(s, OnUpdate(s, r, val, late), PolarityAt(s, Update(r, val, late)), !s.reversable)
  {
    var t := Took(s, r, val);
    TookOk(s, r, val);
    CompletesIs(s, r, val, late);
    DetermineOk(t);
    DeterminedTakes(t);
    var u := SetState(t, DETERMINE);
    ReactSign(u, r, val, late);
  }

  lemma UpdateSign(s: Ps, r: Reading, val: int, late: bool)
    requires Inv(s) && (r.RIlk? ==> r.n < ILK_COUNT) && !(s.st == UNKNOWN && Completes(s, r))
    ensures var e := Update(r, val, late);
      var t := OnUpdate(s, r, val, late);
      if TakesSign(s, e) then TakesFrom(s, t, PolarityAt(s, e), false) else KeepsSign(s, t)
  {
    TookOk(s, r, val);
    UpdateIs(s, r, val, late);
    if s.st != UNKNOWN { ReactSign(Took(s, r, val), r, val, late); }
  }

  /** The polarity taken is the one that the reading shows at the moments when it is
      looked at, and stays the same at all others. */
  lemma SignIsRead(s: Ps, e: Event)
    requires Inv(s) && Deliverable(e)
    ensures var t := Next(s, e);
      if TakesSign(s, e) then TakesFrom(s, t, PolarityAt(s, e), !s.reversable && (s.st != RV_DRP_DO || e == CmdResetState))
      else KeepsSign(s, t)
  {
    match e
    case Update(r, val, late) =>
      if s.st == UNKNOWN && Completes(s, r) { CompletionSign(s, r, val, late); } else { UpdateSign(s, r, val, late); }
    case Tick(late) => if HasNext(s.st) { TrySign(s, NextOf(s.st)); }
    case CmdResetState => DeterminedTakes(s);
    case SubordLost => SetStateKeeps(s.(rcvd := {}), UNKNOWN);
    case WriteIset(v) => SetStateKeeps(s.(outVal := ClipIset(s, v), outValSet := true), RV_ZERO);
    case CmdSwitchOn => SetStateKeeps(s, SW_ON_ENABLE);
    case CmdSwitchOff => SetStateKeeps(s, SW_OFF_DOWN);
    case CmdRstIlks => SetStateKeeps(s, RST_ILK_SET);
    case CmdResetCIlks =>
  }

  /** In every run a nonzero OUT of a reversible supply goes out with the sign of the
      reading that its polarity was taken from, which was stable. */
  lemma OutHasReadSign(h: Runs, i: nat, k: nat)
    requires i <= |h.es| && k < |h.ss[i].log| && h.ss[i].reversable
    ensures var e := h.ss[i].log[k];
      e.line == OUT && e.val != 0 && e.seenPol != 0 ==>
        e.val == Abs(e.wanted) && Abs(e.seenPol) > POLARITY_LEVEL && (e.wanted > 0 <==> e.seenPol > 0)
  {
    EverythingSentIsOk(h, i, k);
  }
}
