/** Two further invariants of the power supply over whole runs: no interlock stands
    while it is on or going up, and the REVERSE bits exclude each other. */
module IstGuards {
  import opened CMath
  import opened IstState
  import opened IstSafety
  import opened IstRuns

  // ----- interlocks -----

  predicate Powered(st: St) {
    match st
    case SW_ON_ENABLE => true case SW_ON_SET_ON => true case SW_ON_DRP_ON => true case SW_ON_UP => true
    case IS_ON => true case RV_ZERO => true case RV_SET_DO => true case RV_DRP_DO => true case RV_CHK => true
    case _ => false
  }

  /** On or going up only with every interlock reading at zero. */
  predicate IlkSafe(s: Ps) {
    Powered(s.st) ==> IlkFree(s)
  }

  /** Determining the state would find it on with an interlock standing. */
  predicate FindsIlk(s: Ps) {
    s.opr != 0 && !IlkFree(s)
  }

  predicate KeepsIlkSafe(s: Ps, e: Event) {
    match e
    case CmdResetState => !FindsIlk(s)
    case Update(r, val, _) =>
      s.st == UNKNOWN && Completes(s, r) ==> (r.RIlk? && val != 0) || !FindsIlk(Took(s, r, val))
    case _ => true
  }

  /** Entering a state leaves the readings, and leads from off to on only by
      determining. */
  lemma {:induction false} SetStateIlk(s: Ps, nxt: St)
    ensures var t := SetState(s, nxt);
      t.ilk == s.ilk && (!Powered(nxt) && nxt != DETERMINE ==> !Powered(t.st))
    decreases Rank(nxt)
  {
    if nxt != s.st {
      var a := s.(st := nxt);
      if nxt != DETERMINE { ActKeeps(a, nxt, s.st); }
      if Onward(a, nxt) != nxt {
        SetStateIlk(Act(a, nxt, s.st), Onward(a, nxt));
      } else if HasNext(nxt) && Instant(nxt) {
        var t := Act(a, nxt, s.st);
        SetStateIlk(Asked(t, NextOf(nxt)), NextOf(nxt));
      }
    }
  }

  lemma TryIlk(s: Ps, st: St)
    requires IlkSafe(s) && (Powered(st) ==> Powered(s.st)) && st != DETERMINE
    ensures IlkSafe(TryState(s, st))
  {
    SetStateIlk(Asked(s, st), st);
  }

  lemma CbIlk(s: Ps, r: Reading, val: int)
    requires Shaped(s) && (r.RIlk? ==> r.n < ILK_COUNT)
    requires Powered(s.st) ==> IlkFree(s) || (r.RIlk? && val != 0)
    ensures IlkSafe(SodcCb(s, r, val))
  {
    if r.RIlk? {
      SetStateIlk(if val != 0 then s.(cIlks := s.cIlks[r.n := val]) else s, INTERLOCK);
    } else {
      SetStateIlk(s, CUT_OFF);
    }
  }

  lemma ReactIlk(s: Ps, r: Reading, val: int, late: bool)
    requires Shaped(s) && (r.RIlk? ==> r.n < ILK_COUNT)
    requires Powered(s.st) ==> IlkFree(s) || (r.RIlk? && val != 0)
    ensures IlkSafe(AfterReading(SodcCb(s, r, val), r, late))
  {
    CbIlk(s, r, val);
    var u := SodcCb(s, r, val);
    if HasNext(u.st) { TryIlk(u, NextOf(u.st)); }
  }

  lemma DeterminedIlkIff(s: Ps)
    requires Inv(s)
    ensures IlkSafe(SetState(s, DETERMINE)) <==> !FindsIlk(s)
  {
    DetermineOk(s);
    SetStateIlk(s, DETERMINE);
  }

  lemma CompletionIlkIff(s: Ps, r: Reading, val: int, late: bool)
    requires Inv(s) && s.st == UNKNOWN && Completes(s, r) && (r.RIlk? ==> r.n < ILK_COUNT)
    ensures IlkSafe(OnUpdate(s, r, val, late)) <==> (r.RIlk? && val != 0) || !FindsIlk(Took(s, r, val))
  {
    CompletesWith(s, r, val, late);
    TookOk(s, r, val);
    DeterminedIlkIff(Took(s, r, val));
  }

  lemma TookIlk(s: Ps, r: Reading, val: int)
    requires Shaped(s) && IlkSafe(s) && (r.RIlk? ==> r.n < ILK_COUNT)
    ensures var t := Took(s, r, val);
      t.st == s.st && Shaped(t) && (Powered(t.st) ==> IlkFree(t) || (r.RIlk? && val != 0))
  {
  }

  lemma UpdateIlk(s: Ps, r: Reading, val: int, late: bool)
    requires Inv(s) && IlkSafe(s) && (r.RIlk? ==> r.n < ILK_COUNT) && !(s.st == UNKNOWN && Completes(s, r))
    ensures IlkSafe(OnUpdate(s, r, val, late))
  {
    var t := Took(s, r, val);
    TookIlk(s, r, val);
    UpdateIs(s, r, val, late);
    ReactIlk(t, r, val, late);
  }

  /** Every event keeps it, except determining the state of a supply that reports on
      while an interlock stands. */
  lemma KeepsIlkSafeIff(s: Ps, e: Event)
    requires Inv(s) && Deliverable(e) && IlkSafe(s)
    ensures IlkSafe(Next(s, e)) <==> KeepsIlkSafe(s, e)
  {
    match e
    case Update(r, val, late) =>
      if s.st == UNKNOWN && Completes(s, r) {
        CompletionIlkIff(s, r, val, late);
      } else {
        UpdateIlk(s, r, val, late);
      }
    case Tick(_) => if HasNext(s.st) { TryIlk(s, NextOf(s.st)); }
    case WriteIset(v) => SetStateIlk(s.(outVal := ClipIset(s, v), outValSet := true), RV_ZERO);
    case CmdSwitchOn => SetStateIlk(s, SW_ON_ENABLE);
    case CmdSwitchOff => SetStateIlk(s, SW_OFF_DOWN);
    case CmdRstIlks => SetStateIlk(s, RST_ILK_SET);
    case CmdResetState => DeterminedIlkIff(s);
    case _ =>
  }

  /** Then it is on despite the interlock, even when RESET_STATE comes in INTERLOCK. */
  lemma ResetDespiteInterlock(s: Ps)
    requires Inv(s) && FindsIlk(s)
    ensures var t := Next(s, CmdResetState); t.st == IS_ON && !IlkFree(t)
  {
    DeterminedIs(s);
  }

  /** In runs without such a determination the supply is on or going up only with all
      interlocks at zero. */
  lemma {:induction false} RunIlkSafe(h: Runs, i: nat)
    requires i <= |h.es| && IlkSafe(h.ss[0])
    requires forall k {:trigger h.es[k]} :: 0 <= k < i ==> KeepsIlkSafe(h.ss[k], h.es[k])
    ensures IlkSafe(h.ss[i])
  {
    if i > 0 {
      RunIlkSafe(h, i - 1);
      RunInv(h, i - 1);
      var e := h.es[i - 1];
      KeepsIlkSafeIff(h.ss[i - 1], e);
    }
  }

  // ----- the REVERSE bits -----

  /** A bit is raised only towards the other polarity. */
  predicate SuitSign(ls: Lines, sign: int) {
    (ls.revOn != 0 ==> sign == 1) && (ls.revOff != 0 ==> sign == -1)
  }

  predicate BitsOk(s: Ps) {
    && SuitSign(s.last, s.curSign)
    && (s.st == RV_ZERO || s.st == RV_SET_DO ==> s.rqdSign == -s.curSign)
    && (s.st == RV_DRP_DO || s.st == RV_CHK ==> s.last.revOn == 0 && s.last.revOff == 0)
  }

  predicate KeepsBits(s: Ps, e: Event) {
    match e
    case CmdResetState => SuitSign(s.last, SignAfter(s))
    case Update(r, val, _) => s.st == UNKNOWN && Completes(s, r) ==> SuitSign(s.last, SignAfter(Took(s, r, val)))
    case _ => true
  }

  predicate Reversing(st: St) {
    st == RV_ZERO || st == RV_SET_DO || st == RV_DRP_DO || st == RV_CHK
  }

  /** States outside the reversal do not touch the bits. */
  lemma {:induction false} PlainBits(s: Ps, nxt: St)
    requires SuitSign(s.last, s.curSign) && !Reversing(nxt) && nxt != DETERMINE && nxt != SW_ON_UP
    requires s.st != nxt
    ensures BitsOk(SetState(s, nxt))
    decreases Rank(nxt)
  {
    var t := Act(s.(st := nxt), nxt, s.st);
    ActKeeps(s.(st := nxt), nxt, s.st);
    if HasNext(nxt) && Instant(nxt) { PlainBits(t, NextOf(nxt)); }
  }

  lemma RaiseBits(s: Ps)
    requires BitsOk(s) && s.st == RV_ZERO && Abs(s.curSign) == 1
    ensures BitsOk(SetState(s, RV_SET_DO))
  {
  }

  lemma DropBits(s: Ps)
    requires BitsOk(s) && s.st == RV_SET_DO && Abs(s.curSign) == 1
    ensures BitsOk(SetState(s, RV_DRP_DO))
  {
  }

  lemma BeginBits(s: Ps)
    requires SuitSign(s.last, s.curSign) && Abs(s.curSign) == 1 && WrongSign(s) && s.st != RV_ZERO
    ensures BitsOk(SetState(s, RV_ZERO))
  {
    ReverseIs(s);
    if s.outCur == 0 { RaiseBits(Snd(s.(st := RV_ZERO, rqdSign := Sign(s.outVal)), s.st, OUT, 0)); }
  }

  lemma UpBits(s: Ps)
    requires BitsOk(s) && Abs(s.curSign) == 1 && (s.st == SW_ON_DRP_ON || s.st == RV_CHK)
    ensures BitsOk(SetState(s, SW_ON_UP))
  {
    if WrongSign(s) { BeginBits(s.(st := SW_ON_UP)); }
  }

  lemma AskBits(s: Ps)
    requires BitsOk(s) && s.st == RV_DRP_DO
    ensures BitsOk(TryState(s, RV_CHK))
  {
    var a := s.(curSign := SeenSign(s), seenPol := SeenPol(s));
    assert TryState(s, RV_CHK) == if Allowed(s, RV_CHK) then a.(st := RV_CHK) else a;
  }

  lemma TryBits(s: Ps)
    requires BitsOk(s) && Inv(s) && HasNext(s.st)
    ensures BitsOk(TryState(s, NextOf(s.st)))
  {
    match NextOf(s.st)
    case RV_CHK => AskBits(s);
    case SW_ON_UP => if Allowed(s, SW_ON_UP) { UpBits(s); }
    case RV_SET_DO => if Allowed(s, RV_SET_DO) { RaiseBits(s); }
    case RV_DRP_DO => DropBits(s);
    case _ => if Allowed(s, NextOf(s.st)) { PlainBits(s, NextOf(s.st)); }
  }

  lemma TripBits(s: Ps, st: St)
    requires BitsOk(s) && (st == INTERLOCK || st == CUT_OFF)
    ensures BitsOk(SetState(s, st))
  {
    if s.st != st { PlainBits(s, st); }
  }

  lemma ReactBits(s: Ps, r: Reading, val: int, late: bool)
    requires BitsOk(s) && Inv(s) && (r.RIlk? ==> r.n < ILK_COUNT)
    ensures BitsOk(AfterReading(SodcCb(s, r, val), r, late))
  {
    SodcCbOk(s, r, val);
    var u := SodcCb(s, r, val);
    if r.RIlk? {
      TripBits(if val != 0 then s.(cIlks := s.cIlks[r.n := val]) else s, INTERLOCK);
    } else {
      TripBits(s, CUT_OFF);
    }
    assert BitsOk(u);
    if HasNext(u.st) { TryBits(u); }
  }

  lemma DeterminedBitsIff(s: Ps)
    requires Inv(s)
    ensures BitsOk(SetState(s, DETERMINE)) <==> SuitSign(s.last, SignAfter(s))
  {
    DeterminedIs(s);
  }

  lemma TrippedSame(s: Ps)
    requires s.st != INTERLOCK
    ensures var t := SetState(s, INTERLOCK);
      t.st == INTERLOCK && t.last.revOn == s.last.revOn && t.last.revOff == s.last.revOff && t.curSign == s.curSign
  {
    assert SetState(s, INTERLOCK) == AllOff(s.(st := INTERLOCK), s.st);
  }

  lemma TrippedBits(u: Ps)
    requires u.st == IS_ON || u.st == IS_OFF
    ensures BitsOk(SetState(u, INTERLOCK)) <==> BitsOk(u)
  {
    TrippedSame(u);
  }

  lemma CompletionBitsIff(s: Ps, r: Reading, val: int, late: bool)
    requires Inv(s) && s.st == UNKNOWN && Completes(s, r) && (r.RIlk? ==> r.n < ILK_COUNT)
    ensures BitsOk(OnUpdate(s, r, val, late)) <==> SuitSign(s.last, SignAfter(Took(s, r, val)))
  {
    var t := Took(s, r, val);
    TookOk(s, r, val);
    CompletesIs(s, r, val, late);
    DetermineOk(t);
    DeterminedBitsIff(t);
    var u := SetState(t, DETERMINE);
    ReactDetermined(u, r, val, late);
    if r.RIlk? && val != 0 { TrippedBits(u.(cIlks := u.cIlks[r.n := val])); }
  }

  lemma UpdateBits(s: Ps, r: Reading, val: int, late: bool)
    requires BitsOk(s) && Inv(s) && (r.RIlk? ==> r.n < ILK_COUNT) && !(s.st == UNKNOWN && Completes(s, r))
    ensures BitsOk(OnUpdate(s, r, val, late))
  {
    TookOk(s, r, val);
    UpdateIs(s, r, val, late);
    TookBits(s, r, val);
    ReactBits(Took(s, r, val), r, val, late);
  }

  lemma TookBits(s: Ps, r: Reading, val: int)
    requires BitsOk(s)
    ensures BitsOk(Took(s, r, val))
  {
  }

  lemma IsetBits(s: Ps, v: int)
    requires BitsOk(s) && Inv(s)
    ensures BitsOk(OnIset(s, v))
  {
    var t := s.(outVal := ClipIset(s, v), outValSet := true);
    if (t.st == IS_ON || t.st == SW_ON_UP) && WrongSign(t) { BeginBits(t); }
  }

  lemma CommandBits(s: Ps, st: St)
    requires BitsOk(s) && (st == SW_ON_ENABLE || st == SW_OFF_DOWN || st == RST_ILK_SET || st == UNKNOWN)
    ensures BitsOk(SetState(s, st))
  {
    if s.st != st { PlainBits(s, st); }
  }

  /** Every event keeps the bits suited to the polarity, except determining a polarity
      that a raised bit does not suit. */
  lemma KeepsBitsIff(s: Ps, e: Event)
    requires Inv(s) && Deliverable(e) && BitsOk(s)
    ensures BitsOk(Next(s, e)) <==> KeepsBits(s, e)
  {
    match e
    case Update(r, val, late) =>
      if s.st == UNKNOWN && Completes(s, r) {
        CompletionBitsIff(s, r, val, late);
      } else {
        UpdateBits(s, r, val, late);
      }
    case Tick(_) => if HasNext(s.st) { TryBits(s); }
    case WriteIset(v) => IsetBits(s, v);
    case CmdSwitchOn => CommandBits(s, SW_ON_ENABLE);
    case CmdSwitchOff => CommandBits(s, SW_OFF_DOWN);
    case CmdRstIlks => CommandBits(s, RST_ILK_SET);
    case CmdResetState => DeterminedBitsIff(s);
    case SubordLost => CommandBits(s.(rcvd := {}), UNKNOWN);
    case CmdResetCIlks =>
  }

  lemma {:induction false} RunBits(h: Runs, i: nat)
    requires i <= |h.es| && BitsOk(h.ss[0])
    requires forall k {:trigger h.es[k]} :: 0 <= k < i ==> KeepsBits(h.ss[k], h.es[k])
    ensures BitsOk(h.ss[i])
  {
    if i > 0 {
      RunBits(h, i - 1);
      RunInv(h, i - 1);
      var e := h.es[i - 1];
      KeepsBitsIff(h.ss[i - 1], e);
    }
  }

  /** In such runs the two REVERSE bits are never raised together, and a raised bit
      asks for the polarity that the supply does not have. */
  lemma BitsExclude(h: Runs, i: nat)
    requires i <= |h.es| && BitsOk(h.ss[0])
    requires forall k {:trigger h.es[k]} :: 0 <= k < i ==> KeepsBits(h.ss[k], h.es[k])
    ensures h.ss[i].last.revOn == 0 || h.ss[i].last.revOff == 0
    ensures h.ss[i].last.revOn != 0 ==> h.ss[i].curSign == 1
    ensures h.ss[i].last.revOff != 0 ==> h.ss[i].curSign == -1
  {
    RunBits(h, i);
  }
}
