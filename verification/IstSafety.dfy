/** Safety of the power supply over all runs: what was sent when, what state goes
    with which outputs, and when the polarity may change. */
module IstSafety {
  import opened CMath
  import opened IstState

  // ----- the invariants -----

  /** What every value ever sent obeys. */
  predicate SentOk(reversable: bool, e: Sent) {
    match e.line
    case OUT =>
      && (e.val == 0 || e.val == (if reversable then Abs(e.wanted) else e.wanted))
      && (reversable ==> e.val >= 0 && (e.val != 0 ==> Sign(e.wanted) == e.sign))
      && (reversable && e.val != 0 && e.seenPol != 0 ==>
            Sign(e.wanted) == Sign(e.seenPol) && Abs(e.seenPol) > POLARITY_LEVEL)
    case OUT_IMM => e.val == 0
    case ENABLE =>
      || (e.val == 1 && e.st == SW_ON_ENABLE && e.ilkFree && e.outCur == 0)
      || (e.val == 0 && (e.st == INTERLOCK || e.st == CUT_OFF))
      || (e.val == 0 && e.st == SW_OFF_CHK_I && e.outCur == 0 && e.outBefore == 0)
    case SWITCH_ON => e.val == 0 || (e.val == 1 && e.st == SW_ON_SET_ON && e.from == SW_ON_ENABLE)
    case REVERSE_ON => e.val == 0 || (e.val == 1 && e.st == RV_SET_DO && e.outBefore == 0 && e.outCur == 0)
    case REVERSE_OFF => e.val == 0 || (e.val == 1 && e.st == RV_SET_DO && e.outBefore == 0 && e.outCur == 0)
    case RST_B2 => ResetPulse(e)
    case RST_B3 => ResetPulse(e)
  }

  /** The reset lines are raised in one stage and dropped in the next. */
  predicate ResetPulse(e: Sent) {
    (e.val == 1 && e.st == RST_ILK_SET) || (e.val == 0 && e.st == RST_ILK_DRP)
  }

  predicate LogOk(s: Ps) {
    forall k :: 0 <= k < |s.log| ==> SentOk(s.reversable, s.log[k])
  }

  predicate AllZero(ls: Lines) {
    ls.out == 0 && ls.imm == 0 && ls.sw == 0 && ls.en == 0
  }

  function ReverseBit(s: Ps): int {
    if s.rqdSign < 0 then s.last.revOn else s.last.revOff
  }

  /** Outputs that go with a state in every run, whatever happened before. */
  predicate OutputsOk(s: Ps) {
    match s.st
    case INTERLOCK => AllZero(s.last)
    case CUT_OFF => AllZero(s.last)
    case RST_ILK_SET => AllZero(s.last) && s.last.b2 == 1 && s.last.b3 == 1
    case RST_ILK_DRP => AllZero(s.last) && s.last.b2 == 0 && s.last.b3 == 0
    case RST_ILK_CHK => AllZero(s.last) && s.last.b2 == 0 && s.last.b3 == 0
    case SW_ON_ENABLE => s.last.en == 1
    case SW_ON_SET_ON => s.last.en == 1 && s.last.sw == 1
    case SW_ON_DRP_ON => s.last.en == 1 && s.last.sw == 0
    case SW_ON_UP => s.last.out == OutFor(s) && !WrongSign(s)
    case SW_OFF_DOWN => s.last.out == 0
    case SW_OFF_CHK_I => s.last.out == 0 && s.last.en == 0
    case SW_OFF_CHK_E => s.last.out == 0 && s.last.en == 0
    case RV_ZERO => s.last.out == 0 && Abs(s.rqdSign) == 1
    case RV_SET_DO => s.last.out == 0 && Abs(s.rqdSign) == 1 && ReverseBit(s) == 1
    case RV_DRP_DO => s.last.out == 0 && Abs(s.rqdSign) == 1
    case RV_CHK => s.last.out == 0 && s.curSign == s.rqdSign
    case DETERMINE => false
    case _ => true
  }

  /** The polarity taken is that of the reading it came from, which was stable. */
  predicate SignOk(s: Ps) {
    && Abs(s.curSign) == 1
    && (s.seenPol != 0 ==> Abs(s.seenPol) > POLARITY_LEVEL && s.curSign == Sign(s.seenPol))
  }

  predicate Inv(s: Ps) {
    Shaped(s) && LogOk(s) && OutputsOk(s) && SignOk(s)
  }

  /** Outputs that go with a state as long as nothing was re-determined. */
  predicate Ordered(s: Ps) {
    match s.st
    case UNKNOWN => false
    case IS_OFF => AllZero(s.last)
    case SW_ON_ENABLE => s.last.out == 0 && s.last.sw == 0
    case SW_ON_SET_ON => s.last.out == 0
    case SW_ON_DRP_ON => s.last.out == 0
    case SW_ON_UP => s.last.sw == 0 && s.last.en == 1
    case IS_ON => s.last.sw == 0 && s.last.en == 1 && s.last.out == OutFor(s) && !WrongSign(s)
    case SW_OFF_DOWN => s.last.sw == 0
    case SW_OFF_CHK_I => s.last.sw == 0
    case SW_OFF_CHK_E => s.last.sw == 0
    case RV_ZERO => s.last.sw == 0 && s.last.en == 1
    case RV_SET_DO => s.last.sw == 0 && s.last.en == 1
    case RV_DRP_DO => s.last.sw == 0 && s.last.en == 1
    case RV_CHK => s.last.sw == 0 && s.last.en == 1
    case _ => true
  }

  /** IS_OFF also leaves OUT_IMM at 0, which only ever gets 0. */
  predicate Calm(s: Ps) {
    Ordered(s) && s.last.imm == 0
  }

  /** The event re-determines the state from readings, or loses it. */
  predicate Redetermines(e: Event) {
    e == CmdResetState || e == SubordLost
  }

  /** The polarity after determining the state. */
  function SignAfter(s: Ps): int {
    if s.reversable then SeenSign(s) else 1
  }

  /** The set-point after determining the state: the client's, or else the current. */
  function WantedAfter(s: Ps): int {
    if s.outValSet then s.outVal else s.outCur * SignAfter(s)
  }

  /** What was sent last suits the state that the readings determine. */
  predicate SuitsDetermined(s: Ps) {
    var wanted := WantedAfter(s);
    if s.opr == 0 then AllZero(s.last)
    else
      && s.last.sw == 0 && s.last.en == 1 && s.last.imm == 0
      && s.last.out == (if s.reversable then Abs(wanted) else wanted)
      && (s.reversable ==> wanted == 0 || Sign(wanted) == SeenSign(s))
  }

  /** The event leaves ordered outputs ordered. */
  predicate KeepsCalm(s: Ps, e: Event) {
    match e
    case CmdResetState => SuitsDetermined(s)
    case SubordLost => false
    case _ => true
  }

  /** The reading is the last one that was missing. */
  predicate Completes(s: Ps, r: Reading) {
    s.rcvd + {r} >= IMPORTANT
  }

  lemma SndOk(s: Ps, prev: St, line: Line, val: int)
    requires LogOk(s) && SentOk(s.reversable, Record(s, prev, line, val))
    ensures LogOk(Snd(s, prev, line, val))
  {
  }

  lemma AllOffIs(s: Ps, prev: St)
    ensures var t := AllOff(s, prev);
      t == s.(last := s.last.(out := 0, imm := 0, sw := 0, en := 0), log := t.log)
  {
  }

  /** The same but for outputs and the log. */
  predicate SameRecord(s: Ps, t: Ps) {
    t.st == s.st && SameReadings(s, t) && SameSigns(s, t)
  }

  predicate SameReadings(s: Ps, t: Ps) {
    t.ilk == s.ilk && t.opr == s.opr && t.outCur == s.outCur && t.polarity == s.polarity && t.reversable == s.reversable
  }

  /** The polarity taken, its reading and the set-point. */
  predicate SameSigns(s: Ps, t: Ps) {
    t.curSign == s.curSign && t.seenPol == s.seenPol && t.outVal == s.outVal && t.outValSet == s.outValSet
  }

  predicate SameReverseBits(ls: Lines, ms: Lines) {
    ms.revOn == ls.revOn && ms.revOff == ls.revOff
  }

  lemma SndKeeps(s: Ps, prev: St, line: Line, val: int)
    ensures var t := Snd(s, prev, line, val);
      && SameRecord(s, t)
      && (line != ENABLE || val == 0 ==> s.last.en == 0 ==> t.last.en == 0)
      && (line != SWITCH_ON || val == 0 ==> s.last.sw == 0 ==> t.last.sw == 0)
      && (line != REVERSE_ON && line != REVERSE_OFF ==> SameReverseBits(s.last, t.last))
  {
  }

  lemma SndTwice(s: Ps, prev: St, line: Line, more: Line, val: int, next: int)
    requires line != ENABLE && line != SWITCH_ON && line != REVERSE_ON && line != REVERSE_OFF
    requires more == RST_B3 || (more == SWITCH_ON && next == 0)
    ensures var t := Snd(Snd(s, prev, line, val), prev, more, next);
      && SameRecord(s, t) && SameReverseBits(s.last, t.last)
      && (s.last.en == 0 ==> t.last.en == 0) && (s.last.sw == 0 ==> t.last.sw == 0)
  {
    SndKeeps(s, prev, line, val);
    SndKeeps(Snd(s, prev, line, val), prev, more, next);
  }

  lemma ActKeepsRcvd(s: Ps, st: St, prev: St)
    ensures st != UNKNOWN ==> Act(s, st, prev).rcvd == s.rcvd
  {
    if st == INTERLOCK || st == CUT_OFF { AllOffIs(s, prev); }
  }

  /** What entering a state leaves alone. */
  lemma ActKeeps(s: Ps, st: St, prev: St)
    requires st != DETERMINE
    ensures var t := Act(s, st, prev);
      && SameRecord(s, t)
      && (st != SW_ON_ENABLE && s.last.en == 0 ==> t.last.en == 0)
      && (st != SW_ON_SET_ON && s.last.sw == 0 ==> t.last.sw == 0)
      && (st != RV_SET_DO && st != RV_DRP_DO ==> SameReverseBits(s.last, t.last))
  {
    match st
    case INTERLOCK => AllOffIs(s, prev);
    case CUT_OFF => AllOffIs(s, prev);
    case RST_ILK_SET => SndTwice(s, prev, RST_B2, RST_B3, 1, 1);
    case RST_ILK_DRP => SndTwice(s.(cIlks := seq(|s.cIlks|, i => 0)), prev, RST_B2, RST_B3, 0, 0);
    case SW_ON_ENABLE => SndKeeps(s, prev, ENABLE, 1);
    case SW_ON_SET_ON => SndKeeps(s, prev, SWITCH_ON, 1);
    case SW_ON_DRP_ON => SndKeeps(s, prev, SWITCH_ON, 0);
    case SW_ON_UP => SndKeeps(s, prev, OUT, OutFor(s));
    case SW_OFF_DOWN =>
      SndKeeps(s, prev, OUT, 0);
      SndTwice(s, prev, OUT, SWITCH_ON, 0, 0);
    case SW_OFF_CHK_I => SndKeeps(s, prev, ENABLE, 0);
    case RV_ZERO => SndKeeps(s.(rqdSign := Sign(s.outVal)), prev, OUT, 0);
    case RV_SET_DO => SndKeeps(s, prev, ReverseLine(s), 1);
    case RV_DRP_DO => SndKeeps(s, prev, ReverseLine(s), 0);
    case _ =>
  }

  lemma SndLogs(before: seq<Sent>, s: Ps, prev: St, line: Line, val: int)
    requires before <= s.log
    ensures before <= Snd(s, prev, line, val).log
  {
  }

  lemma AllOffLogs(s: Ps, prev: St)
    ensures s.log <= AllOff(s, prev).log
  {
    var a := Snd(s, prev, OUT, 0);
    SndLogs(s.log, s, prev, OUT, 0);
    var b := Snd(a, prev, OUT_IMM, 0);
    SndLogs(s.log, a, prev, OUT_IMM, 0);
    var c := Snd(b, prev, SWITCH_ON, 0);
    SndLogs(s.log, b, prev, SWITCH_ON, 0);
    SndLogs(s.log, c, prev, ENABLE, 0);
  }

  lemma ActLogs(s: Ps, st: St, prev: St)
    ensures s.log <= Act(s, st, prev).log
  {
    match st
    case INTERLOCK => AllOffLogs(s, prev);
    case CUT_OFF => AllOffLogs(s, prev);
    case RST_ILK_SET => SndLogs(s.log, Snd(s, prev, RST_B2, 1), prev, RST_B3, 1);
    case RST_ILK_DRP =>
      var a := s.(cIlks := seq(|s.cIlks|, i => 0));
      SndLogs(s.log, Snd(a, prev, RST_B2, 0), prev, RST_B3, 0);
    case SW_OFF_DOWN => SndLogs(s.log, Snd(s, prev, OUT, 0), prev, SWITCH_ON, 0);
    case _ =>
  }

  // ----- the chains of immediate transitions, spelled out -----

  /** Entering a state that does not go on from within. */
  lemma SetStateIs(s: Ps, nxt: St)
    requires nxt != s.st && nxt != DETERMINE && nxt != SW_ON_UP
    ensures var t := Act(s.(st := nxt), nxt, s.st);
      && t.st == nxt && Entered(s, nxt) == t
      && SetState(s, nxt) ==
           if HasNext(nxt) && Instant(nxt) && Allowed(t, NextOf(nxt))
           then SetState(Asked(t, NextOf(nxt)), NextOf(nxt)) else t
  {
    ActKeeps(s.(st := nxt), nxt, s.st);
  }

  lemma CheckCurrentIs(s: Ps)
    requires s.st == SW_OFF_DOWN
    ensures var b := Snd(s.(st := SW_OFF_CHK_I), SW_OFF_DOWN, ENABLE, 0);
      SetState(s, SW_OFF_CHK_I) == if s.opr == 0 then b.(st := SW_OFF_CHK_E) else b
  {
    var b := Snd(s.(st := SW_OFF_CHK_I), SW_OFF_DOWN, ENABLE, 0);
    SetStateIs(s, SW_OFF_CHK_I);
    SetStateIs(b, SW_OFF_CHK_E);
  }

  lemma DownIs(s: Ps)
    requires s.st != SW_OFF_DOWN
    ensures var t := Entered(s, SW_OFF_DOWN);
      && t.st == SW_OFF_DOWN
      && SetState(s, SW_OFF_DOWN) == if s.outCur == 0 then SetState(t, SW_OFF_CHK_I) else t
  {
    SetStateIs(s, SW_OFF_DOWN);
  }

  lemma ReverseIs(s: Ps)
    requires s.st != RV_ZERO
    ensures var b := Snd(s.(st := RV_ZERO, rqdSign := Sign(s.outVal)), s.st, OUT, 0);
      SetState(s, RV_ZERO) == if s.outCur == 0 then SetState(b, RV_SET_DO) else b
  {
    var b := Snd(s.(st := RV_ZERO, rqdSign := Sign(s.outVal)), s.st, OUT, 0);
    assert Act(s.(st := RV_ZERO), RV_ZERO, s.st) == b;
    SetStateIs(s, RV_ZERO);
  }

  // ----- entering states -----

  lemma AllOffOk(s: Ps, prev: St)
    requires LogOk(s) && (s.st == INTERLOCK || s.st == CUT_OFF)
    ensures LogOk(AllOff(s, prev)) && AllZero(AllOff(s, prev).last)
  {
    var a := Snd(s, prev, OUT, 0);
    SndOk(s, prev, OUT, 0);
    var b := Snd(a, prev, OUT_IMM, 0);
    SndOk(a, prev, OUT_IMM, 0);
    var c := Snd(b, prev, SWITCH_ON, 0);
    SndOk(b, prev, SWITCH_ON, 0);
    SndOk(c, prev, ENABLE, 0);
  }

  lemma TripOk(s: Ps, st: St)
    requires Inv(s) && (st == INTERLOCK || st == CUT_OFF)
    ensures var t := SetState(s, st);
      Inv(t) && t.st == st && AllZero(t.last) && t.curSign == s.curSign && Calm(t)
  {
    if s.st != st { AllOffOk(s.(st := st), s.st); }
  }

  lemma ResetStageOk(s: Ps, st: St)
    requires Inv(s) && ResetStage(st) && AllZero(s.last) && (st == RST_ILK_CHK ==> s.st == RST_ILK_DRP)
    ensures var t := SetState(s, st);
      Inv(t) && t.curSign == s.curSign && (Calm(s) ==> Calm(t))
  {
    if s.st != st {
      var a := s.(st := st);
      if st == RST_ILK_SET {
        SndOk(a, s.st, RST_B2, 1);
        SndOk(Snd(a, s.st, RST_B2, 1), s.st, RST_B3, 1);
      } else if st == RST_ILK_DRP {
        var b := a.(cIlks := seq(|s.cIlks|, i => 0));
        SndOk(b, s.st, RST_B2, 0);
        SndOk(Snd(b, s.st, RST_B2, 0), s.st, RST_B3, 0);
      }
    }
  }

  lemma SwitchOnStageOk(s: Ps, st: St)
    requires Inv(s)
    requires (st == SW_ON_ENABLE && Allowed(s, SW_ON_ENABLE))
          || (st == SW_ON_SET_ON && s.st == SW_ON_ENABLE)
          || (st == SW_ON_DRP_ON && s.st == SW_ON_SET_ON)
    ensures var t := SetState(s, st);
      Inv(t) && t.st == st && t.curSign == s.curSign && (Calm(s) ==> Calm(t))
  {
    var a := s.(st := st);
    match st
    case SW_ON_ENABLE => SndOk(a, s.st, ENABLE, 1);
    case SW_ON_SET_ON => SndOk(a, s.st, SWITCH_ON, 1);
    case _ => SndOk(a, s.st, SWITCH_ON, 0);
  }

  lemma ReverseSetOk(s: Ps)
    requires Inv(s) && s.st == RV_ZERO && s.outCur == 0
    ensures var t := SetState(s, RV_SET_DO);
      Inv(t) && t.st == RV_SET_DO && t.curSign == s.curSign && (Calm(s) ==> Calm(t))
  {
    SndOk(s.(st := RV_SET_DO), RV_ZERO, ReverseLine(s), 1);
  }

  lemma ReverseEnterOk(a: Ps, prev: St)
    requires Shaped(a) && LogOk(Snd(a, prev, OUT, 0)) && SignOk(a)
    requires a.st == RV_ZERO && Abs(a.rqdSign) == 1
    ensures var b := Snd(a, prev, OUT, 0);
      Inv(b) && (a.last.sw == 0 && a.last.en == 1 && a.last.imm == 0 ==> Calm(b))
  {
  }

  /** The reversal begins: OUT goes to 0 first. */
  lemma ReverseOk(s: Ps)
    requires Shaped(s) && LogOk(s) && SignOk(s) && WrongSign(s) && s.st != RV_ZERO
    ensures var t := SetState(s, RV_ZERO);
      && Inv(t) && (t.st == RV_ZERO || t.st == RV_SET_DO) && t.curSign == s.curSign
      && (s.last.sw == 0 && s.last.en == 1 && s.last.imm == 0 ==> Calm(t))
  {
    ReverseIs(s);
    var a := s.(st := RV_ZERO, rqdSign := Sign(s.outVal));
    SndOk(a, s.st, OUT, 0);
    ReverseEnterOk(a, s.st);
    if s.outCur == 0 { ReverseSetOk(Snd(a, s.st, OUT, 0)); }
  }

  /** Up: the wanted value, or the reversal when its sign is the other one. */
  lemma UpOk(s: Ps)
    requires Inv(s) && (s.st == SW_ON_DRP_ON || s.st == RV_CHK)
    ensures var t := SetState(s, SW_ON_UP);
      Inv(t) && t.curSign == s.curSign && (Calm(s) ==> Calm(t))
  {
    var a := s.(st := SW_ON_UP);
    if WrongSign(a) {
      ReverseOk(a);
    } else {
      SndOk(a, s.st, OUT, OutFor(a));
    }
  }

  lemma CheckEnableOk(s: Ps)
    requires Inv(s) && s.st == SW_OFF_CHK_I
    ensures var t := SetState(s, SW_OFF_CHK_E);
      Inv(t) && t.curSign == s.curSign && (Calm(s) ==> Calm(t))
  {
  }

  lemma CheckCurrentOk(s: Ps)
    requires Inv(s) && s.st == SW_OFF_DOWN && s.outCur == 0
    ensures var t := SetState(s, SW_OFF_CHK_I);
      Inv(t) && t.curSign == s.curSign && (Calm(s) ==> Calm(t))
  {
    CheckCurrentIs(s);
    SndOk(s.(st := SW_OFF_CHK_I), s.st, ENABLE, 0);
  }

  lemma DownEnterOk(s: Ps)
    requires Inv(s) && s.st != SW_OFF_DOWN
    ensures var t := Entered(s, SW_OFF_DOWN);
      && Inv(t) && t.st == SW_OFF_DOWN && t.curSign == s.curSign && (Calm(s) ==> Calm(t))
      && (t.last.sw == 0 <==> s.st != IS_ON || s.last.sw == 0)
  {
    var a := s.(st := SW_OFF_DOWN);
    SndOk(a, s.st, OUT, 0);
    SndOk(Snd(a, s.st, OUT, 0), s.st, SWITCH_ON, 0);
  }

  /** Down: OUT to 0, SWITCH_ON to 0 unless it comes from IS_ON. */
  lemma DownOk(s: Ps)
    requires Inv(s)
    ensures var t := SetState(s, SW_OFF_DOWN);
      Inv(t) && t.curSign == s.curSign && (Calm(s) ==> Calm(t))
  {
    if s.st != SW_OFF_DOWN {
      DownEnterOk(s);
      var t := Entered(s, SW_OFF_DOWN);
      if t.outCur == 0 { CheckCurrentOk(t); }
    }
  }

  lemma PlainOk(s: Ps, st: St)
    requires Inv(s)
    requires (st == IS_OFF && (s.st == RST_ILK_CHK || s.st == SW_OFF_CHK_E)) || (st == IS_ON && s.st == SW_ON_UP)
    ensures var t := SetState(s, st);
      Inv(t) && t.curSign == s.curSign && (Calm(s) ==> Calm(t))
  {
  }

  lemma ReverseDropOk(s: Ps)
    requires Inv(s) && s.st == RV_SET_DO
    ensures var t := SetState(s, RV_DRP_DO);
      Inv(t) && t.curSign == s.curSign && t.st == RV_DRP_DO && ReverseBit(t) == 0 && (Calm(s) ==> Calm(t))
  {
    SndOk(s.(st := RV_DRP_DO), RV_SET_DO, ReverseLine(s), 0);
  }

  /** Asking for the polarity may change the sign taken, but only with OUT at 0. */
  lemma AskPolarityOk(s: Ps)
    requires Inv(s) && s.st == RV_DRP_DO
    ensures var t := TryState(s, RV_CHK);
      && Inv(t) && t.last == s.last && s.last.out == 0 && (Calm(s) ==> Calm(t))
  {
    var a := s.(curSign := SeenSign(s), seenPol := SeenPol(s));
    assert TryState(s, RV_CHK) == if Allowed(s, RV_CHK) then a.(st := RV_CHK) else a;
  }

  lemma DetermineOk(s: Ps)
    requires Inv(s)
    ensures var t := SetState(s, DETERMINE);
      && Inv(t) && t.st == (if s.opr != 0 then IS_ON else IS_OFF) && t.last == s.last && t.opr == s.opr
  {
  }

  lemma DeterminedIs(s: Ps)
    requires Inv(s)
    ensures var t := SetState(s, DETERMINE);
      && t == Determined(s).(st := if s.opr != 0 then IS_ON else IS_OFF)
      && (Calm(t) <==> SuitsDetermined(s))
  {
    DetermineOk(s);
    var a := Determined(s.(st := DETERMINE));
    assert s.opr != 0 ==> SetState(a, IS_ON) == a.(st := IS_ON);
    assert s.opr == 0 ==> SetState(a, IS_OFF) == a.(st := IS_OFF);
  }

  /** What entering nxt leaves alone. */
  predicate Kept(s: Ps, t: Ps, nxt: St) {
    && SameReadings(s, t) && (nxt != DETERMINE ==> SameSigns(s, t)) && (nxt != UNKNOWN ==> t.rcvd == s.rcvd)
  }

  lemma ActKept(s: Ps, nxt: St)
    ensures Kept(s, Act(s.(st := nxt), nxt, s.st), nxt)
  {
    if nxt != DETERMINE { ActKeeps(s.(st := nxt), nxt, s.st); }
    ActKeepsRcvd(s.(st := nxt), nxt, s.st);
  }

  /** Readings never change by entering states, and the polarity and the set-point only
      by determining the state. */
  lemma {:induction false} SetStateKeeps(s: Ps, nxt: St)
    ensures Kept(s, SetState(s, nxt), nxt)
    decreases Rank(nxt)
  {
    if nxt != s.st {
      var a := s.(st := nxt);
      var t := Act(a, nxt, s.st);
      ActKept(s, nxt);
      if Onward(a, nxt) != nxt {
        SetStateKeeps(t, Onward(a, nxt));
      } else if HasNext(nxt) && Instant(nxt) {
        SetStateKeeps(t, NextOf(nxt));
      }
    }
  }

  // ----- the engine -----

  /** Trying the next state from a state at rest. */
  lemma TryNextOk(s: Ps)
    requires Inv(s) && HasNext(s.st)
    ensures var t := TryState(s, NextOf(s.st));
      && Inv(t) && (Calm(s) ==> Calm(t))
      && (t.curSign != s.curSign ==> s.st == RV_DRP_DO && s.last.out == 0 && t.last.out == 0)
  {
    var n := NextOf(s.st);
    if n == RV_CHK {
      AskPolarityOk(s);
    } else if Allowed(s, n) {
      match n
      case RST_ILK_DRP => ResetStageOk(s, n);
      case RST_ILK_CHK => ResetStageOk(s, n);
      case SW_ON_SET_ON => SwitchOnStageOk(s, n);
      case SW_ON_DRP_ON => SwitchOnStageOk(s, n);
      case SW_ON_UP => UpOk(s);
      case SW_OFF_CHK_I => CheckCurrentOk(s);
      case SW_OFF_CHK_E => CheckEnableOk(s);
      case RV_SET_DO => ReverseSetOk(s);
      case RV_DRP_DO => ReverseDropOk(s);
      case _ => PlainOk(s, n);
    }
  }

  lemma SodcCbOk(s: Ps, r: Reading, val: int)
    requires Inv(s) && (r.RIlk? ==> r.n < ILK_COUNT)
    ensures var t := SodcCb(s, r, val);
      && Inv(t) && t.curSign == s.curSign && (Calm(s) ==> Calm(t))
      && (r.RIlk? && val != 0 && s.st != UNKNOWN && !ResetStage(s.st) ==> t.st == INTERLOCK)
  {
    if r.RIlk? {
      var t := if val != 0 then s.(cIlks := s.cIlks[r.n := val]) else s;
      TripOk(t, INTERLOCK);
    } else {
      TripOk(s, CUT_OFF);
    }
  }

  /** The driver and then the engine react to a reading that was taken. */
  lemma ReactOk(s: Ps, r: Reading, val: int, late: bool)
    requires Inv(s) && (r.RIlk? ==> r.n < ILK_COUNT)
    ensures var t := AfterReading(SodcCb(s, r, val), r, late);
      && Inv(t) && (Calm(s) ==> Calm(t))
      && (t.curSign != s.curSign ==> s.st == RV_DRP_DO && s.last.out == 0 && t.last.out == 0)
      && (r.RIlk? && val != 0 && s.st != UNKNOWN && !ResetStage(s.st) ==> t.st == INTERLOCK && AllZero(t.last))
  {
    SodcCbOk(s, r, val);
    var u := SodcCb(s, r, val);
    if HasNext(u.st) { TryNextOk(u); }
  }

  lemma TookOk(s: Ps, r: Reading, val: int)
    requires Inv(s) && (r.RIlk? ==> r.n < ILK_COUNT)
    ensures var t := Took(s, r, val);
      Inv(t) && (Calm(s) ==> Calm(t)) && t.st == s.st && t.last == s.last && t.curSign == s.curSign
  {
  }

  lemma UpdateOk(s: Ps, r: Reading, val: int, late: bool)
    requires Inv(s) && (r.RIlk? ==> r.n < ILK_COUNT)
    ensures var t := OnUpdate(s, r, val, late);
      && Inv(t) && (Calm(s) ==> Calm(t))
      && (t.curSign != s.curSign && s.st != UNKNOWN ==> s.st == RV_DRP_DO && s.last.out == 0 && t.last.out == 0)
      && (r.RIlk? && val != 0 && s.st != UNKNOWN && !ResetStage(s.st) ==> t.st == INTERLOCK && AllZero(t.last))
  {
    var t := Took(s, r, val);
    TookOk(s, r, val);
    if t.st == UNKNOWN && t.rcvd >= IMPORTANT {
      DetermineOk(t);
      ReactOk(SetState(t, DETERMINE), r, val, late);
    } else {
      ReactOk(t, r, val, late);
    }
  }

  lemma CompletesIs(s: Ps, r: Reading, val: int, late: bool)
    requires s.st == UNKNOWN && Completes(s, r)
    ensures OnUpdate(s, r, val, late) == AfterReading(SodcCb(SetState(Took(s, r, val), DETERMINE), r, val), r, late)
  {
    assert Took(s, r, val).rcvd == s.rcvd + {r} && Took(s, r, val).st == UNKNOWN;
  }

  lemma UpdateIs(s: Ps, r: Reading, val: int, late: bool)
    requires !(s.st == UNKNOWN && Completes(s, r))
    ensures OnUpdate(s, r, val, late) == AfterReading(SodcCb(Took(s, r, val), r, val), r, late)
  {
    assert Took(s, r, val).rcvd == s.rcvd + {r} && Took(s, r, val).st == s.st;
  }

  lemma ReactDetermined(u: Ps, r: Reading, val: int, late: bool)
    requires Inv(u) && (u.st == IS_ON || u.st == IS_OFF) && (r.RIlk? ==> r.n < ILK_COUNT)
    requires r == ROpr && u.st == IS_ON ==> val != 0
    ensures var t := AfterReading(SodcCb(u, r, val), r, late);
      && (r.RIlk? && val != 0 ==>
            t == SetState(u.(cIlks := u.cIlks[r.n := val]), INTERLOCK)
            && t.st == INTERLOCK && AllZero(t.last) && Calm(t))
      && (!(r.RIlk? && val != 0) ==> t == u)
  {
    if r.RIlk? && val != 0 { TripOk(u.(cIlks := u.cIlks[r.n := val]), INTERLOCK); }
  }

  /** The reading that completes the picture: the state is determined, and an interlock
      trips at once. */
  lemma CompletesWith(s: Ps, r: Reading, val: int, late: bool)
    requires Inv(s) && s.st == UNKNOWN && (r.RIlk? ==> r.n < ILK_COUNT) && Completes(s, r)
    ensures var t := OnUpdate(s, r, val, late);
      && (r.RIlk? && val != 0 ==> t.st == INTERLOCK && AllZero(t.last) && Calm(t))
      && (!(r.RIlk? && val != 0) ==> t == SetState(Took(s, r, val), DETERMINE))
  {
    var t := Took(s, r, val);
    TookOk(s, r, val);
    CompletesIs(s, r, val, late);
    DetermineOk(t);
    ReactDetermined(SetState(t, DETERMINE), r, val, late);
  }
}
