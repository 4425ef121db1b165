/** The reversible power supply (sw4cx/drivers/ist_cdac20_drv.c) on top of the state
    engine (4cx/src/lib/vdev/vdev.c), as a state machine on values. */
module IstState {
  import opened CMath

  datatype St =
    | UNKNOWN | DETERMINE | INTERLOCK | RST_ILK_SET | RST_ILK_DRP | RST_ILK_CHK | CUT_OFF | IS_OFF
    | SW_ON_ENABLE | SW_ON_SET_ON | SW_ON_DRP_ON | SW_ON_UP | IS_ON
    | SW_OFF_DOWN | SW_OFF_CHK_I | SW_OFF_CHK_E
    | RV_ZERO | RV_SET_DO | RV_DRP_DO | RV_CHK

  /** Controlled lines of the subordinate device. */
  datatype Line = OUT | OUT_IMM | SWITCH_ON | ENABLE | RST_B2 | RST_B3 | REVERSE_ON | REVERSE_OFF

  /** Important readings; there are ILK_COUNT interlocks. */
  datatype Reading = ROut | RDcct2 | RPolarity | ROutCur | ROpr | RIlk(n: nat)

  const ILK_COUNT := 7
  const IMPORTANT: set<Reading> :=
    {ROut, RDcct2, RPolarity, ROutCur, ROpr, RIlk(0), RIlk(1), RIlk(2), RIlk(3), RIlk(4), RIlk(5), RIlk(6)}
  const POLARITY_LEVEL := 4000000
  const MAX_ALWD_VAL := 9999999
  const MIN_ALWD_VAL := -10000305

  /** One value sent, with the circumstances. */
  datatype Sent = Sent(line: Line, val: int, st: St, from: St, wanted: int, sign: int, seenPol: int,
                       outCur: int, ilkFree: bool, outBefore: int)

  /** The last value sent to each line; at first whatever the device was left with. */
  datatype Lines = Lines(out: int, imm: int, sw: int, en: int, b2: int, b3: int, revOn: int, revOff: int)

  /** seenPol is the polarity reading that curSign was last taken from, 0 if none. */
  datatype Ps = Ps(
    reversable: bool, bipolar: bool, minHw: int, maxHw: int,
    st: St,
    outCur: int, opr: int, polarity: int, ilk: seq<int>, rcvd: set<Reading>,
    outVal: int, outValSet: bool, curSign: int, rqdSign: int, seenPol: int, cIlks: seq<int>,
    last: Lines, log: seq<Sent>)

  datatype Event =
    | Update(r: Reading, val: int, late: bool)   // late: the delay of the state is over
    | Tick(late: bool)
    | SubordLost
    | WriteIset(val: int)
    | CmdSwitchOn | CmdSwitchOff | CmdRstIlks
    | CmdResetState
    | CmdResetCIlks

  /** The supply right after start: nothing known, nothing sent yet. */
  function Initially(reversable: bool, bipolar: bool, minHw: int, maxHw: int, left: Lines): Ps {
    Ps(reversable, bipolar, minHw, maxHw, UNKNOWN, 0, 0, 0, seq(ILK_COUNT, i => 0), {},
       0, false, 1, 0, 0, seq(ILK_COUNT, i => 0), left, [])
  }

  predicate Shaped(s: Ps) {
    |s.ilk| == ILK_COUNT && |s.cIlks| == ILK_COUNT
  }

  predicate Deliverable(e: Event) {
    e.Update? && e.r.RIlk? ==> e.r.n < ILK_COUNT
  }

  // ----- the state table -----

  /** The state to go to by itself, if any. */
  function NextOf(st: St): (n: St)
  {
    match st
    case RST_ILK_SET => RST_ILK_DRP
    case RST_ILK_DRP => RST_ILK_CHK
    case RST_ILK_CHK => IS_OFF
    case SW_ON_ENABLE => SW_ON_SET_ON
    case SW_ON_SET_ON => SW_ON_DRP_ON
    case SW_ON_DRP_ON => SW_ON_UP
    case SW_ON_UP => IS_ON
    case SW_OFF_DOWN => SW_OFF_CHK_I
    case SW_OFF_CHK_I => SW_OFF_CHK_E
    case SW_OFF_CHK_E => IS_OFF
    case RV_ZERO => RV_SET_DO
    case RV_SET_DO => RV_DRP_DO
    case RV_DRP_DO => RV_CHK
    case RV_CHK => SW_ON_UP
    case _ => st
  }

  predicate HasNext(st: St) {
    NextOf(st) != st
  }

  /** No delay before the next state. */
  predicate Instant(st: St) {
    match st
    case SW_OFF_DOWN => true case SW_OFF_CHK_I => true case RV_ZERO => true
    case _ => !HasNext(st)
  }

  predicate Guarded(st: St) {
    match st
    case RST_ILK_SET => true case RST_ILK_CHK => true case SW_ON_ENABLE => true case SW_ON_UP => true
    case IS_ON => true case SW_OFF_DOWN => true case SW_OFF_CHK_I => true case SW_OFF_CHK_E => true
    case RV_SET_DO => true case RV_CHK => true
    case _ => false
  }

  /** Readings that may let the engine enter state st. */
  predicate Important(st: St, r: Reading) {
    match st
    case RST_ILK_CHK => r.RIlk?
    case IS_ON => r == ROutCur
    case SW_OFF_CHK_I => r == ROutCur
    case SW_OFF_CHK_E => r == ROpr
    case RV_SET_DO => r == ROutCur
    case RV_CHK => r == RPolarity
    case _ => false
  }

  predicate IlkFree(s: Ps) {
    forall n :: 0 <= n < |s.ilk| ==> s.ilk[n] == 0
  }

  /** The sign that the polarity reading shows, or the old one when it is not stable. */
  function SeenSign(s: Ps): int {
    if s.polarity < -POLARITY_LEVEL then -1 else if s.polarity > POLARITY_LEVEL then 1 else s.curSign
  }

  predicate Stable(s: Ps) {
    s.polarity < -POLARITY_LEVEL || s.polarity > POLARITY_LEVEL
  }

  /** May the supply go from state s.st to st? */
  predicate Allowed(s: Ps, st: St) {
    match st
    case RST_ILK_SET => s.st == INTERLOCK || s.st == RST_ILK_SET || s.st == RST_ILK_DRP || s.st == RST_ILK_CHK
    case RST_ILK_CHK => IlkFree(s)
    case SW_ON_ENABLE =>
      (s.st == IS_OFF || s.st == CUT_OFF || s.st == INTERLOCK) && s.outCur == 0 && IlkFree(s)
    case SW_ON_UP => s.opr != 0
    case IS_ON =>
      if s.reversable then Abs(s.outCur) - Abs(s.outVal) <= 305 else Abs(s.outCur - s.outVal) <= 305
    case SW_OFF_DOWN =>
      || s.st == IS_ON || s.st == SW_ON_ENABLE || s.st == SW_ON_SET_ON || s.st == SW_ON_DRP_ON || s.st == SW_ON_UP
      || s.opr != 0 || s.outCur != 0
    case SW_OFF_CHK_I => s.outCur == 0
    case SW_OFF_CHK_E => s.opr == 0
    case RV_SET_DO => s.outCur == 0
    case RV_CHK => Stable(s) && SeenSign(s) == s.rqdSign
    case _ => true
  }

  /** The reading that the polarity comes from when it is taken now. */
  function SeenPol(s: Ps): int {
    if Stable(s) then s.polarity else s.seenPol
  }

  /** Asking for RV_CHK takes over the polarity seen, whatever the answer. */
  function Asked(s: Ps, st: St): Ps {
    if st == RV_CHK then s.(curSign := SeenSign(s), seenPol := SeenPol(s)) else s
  }

  // ----- sending -----

  function SetLine(ls: Lines, line: Line, val: int): Lines {
    match line
    case OUT => ls.(out := val)
    case OUT_IMM => ls.(imm := val)
    case SWITCH_ON => ls.(sw := val)
    case ENABLE => ls.(en := val)
    case RST_B2 => ls.(b2 := val)
    case RST_B3 => ls.(b3 := val)
    case REVERSE_ON => ls.(revOn := val)
    case REVERSE_OFF => ls.(revOff := val)
  }

  function Record(s: Ps, prev: St, line: Line, val: int): Sent {
    Sent(line, val, s.st, prev, s.outVal, s.curSign, s.seenPol, s.outCur, IlkFree(s), s.last.out)
  }

  function Snd(s: Ps, prev: St, line: Line, val: int): Ps {
    s.(last := SetLine(s.last, line, val), log := s.log + [Record(s, prev, line, val)])
  }

  function AllOff(s: Ps, prev: St): Ps {
    Snd(Snd(Snd(Snd(s, prev, OUT, 0), prev, OUT_IMM, 0), prev, SWITCH_ON, 0), prev, ENABLE, 0)
  }

  function OutFor(s: Ps): int {
    if s.reversable then Abs(s.outVal) else s.outVal
  }

  /** The set-point asks for the other polarity. */
  predicate WrongSign(s: Ps) {
    s.reversable && Sign(s.outVal) != 0 && Sign(s.outVal) != s.curSign
  }

  function ReverseLine(s: Ps): Line {
    if s.rqdSign < 0 then REVERSE_ON else REVERSE_OFF
  }

  // ----- entering states -----

  /** Bounds the chain of immediate transitions. */
  function Rank(st: St): nat {
    match st
    case DETERMINE => 4 case SW_ON_UP => 4 case SW_OFF_DOWN => 3
    case SW_OFF_CHK_I => 2 case RV_ZERO => 2 case _ => 1
  }

  function Determined(s: Ps): Ps {
    var sign := if s.reversable then SeenSign(s) else 1;
    s.(curSign := sign,
       seenPol := if s.reversable then SeenPol(s) else 0,
       outVal := if s.outValSet then s.outVal else s.outCur * sign,
       outValSet := true)
  }

  /** What entering st from prev sends and stores; s.st is st already. */
  function Act(s: Ps, st: St, prev: St): Ps {
    match st
    case UNKNOWN => s.(rcvd := {})
    case DETERMINE => Determined(s)
    case INTERLOCK => AllOff(s, prev)
    case RST_ILK_SET => Snd(Snd(s, prev, RST_B2, 1), prev, RST_B3, 1)
    case RST_ILK_DRP =>
      Snd(Snd(s.(cIlks := seq(|s.cIlks|, i => 0)), prev, RST_B2, 0), prev, RST_B3, 0)
    case CUT_OFF => AllOff(s, prev)
    case SW_ON_ENABLE => Snd(s, prev, ENABLE, 1)
    case SW_ON_SET_ON => Snd(s, prev, SWITCH_ON, 1)
    case SW_ON_DRP_ON => Snd(s, prev, SWITCH_ON, 0)
    case SW_ON_UP => if WrongSign(s) then s else Snd(s, prev, OUT, OutFor(s))
    case SW_OFF_DOWN =>
      var t := Snd(s, prev, OUT, 0);
      if prev != IS_ON then Snd(t, prev, SWITCH_ON, 0) else t
    case SW_OFF_CHK_I => Snd(s, prev, ENABLE, 0)
    case RV_ZERO => Snd(s.(rqdSign := Sign(s.outVal)), prev, OUT, 0)
    case RV_SET_DO => Snd(s, prev, ReverseLine(s), 1)
    case RV_DRP_DO => Snd(s, prev, ReverseLine(s), 0)
    case _ => s
  }

  /** The state that entering st goes on to from within, or st itself. */
  function Onward(s: Ps, st: St): St {
    if st == DETERMINE then (if s.opr != 0 then IS_ON else IS_OFF)
    else if st == SW_ON_UP && WrongSign(s) then RV_ZERO
    else st
  }

  /** The swch_to of the state table. */
  function SwchTo(s: Ps, st: St, prev: St): Ps
    decreases Rank(st), 0
  {
    var t := Act(s, st, prev);
    if Onward(s, st) == st then t else SetState(t, Onward(s, st))
  }

  function Entered(s: Ps, nxt: St): Ps
    decreases Rank(nxt), 1
  {
    SwchTo(s.(st := nxt), nxt, s.st)
  }

  /** vdev_set_state(): enter nxt, then go on by itself while there is no delay. */
  function SetState(s: Ps, nxt: St): Ps
    decreases Rank(nxt), 2
  {
    if nxt == s.st then s
    else
      var t := Entered(s, nxt);
      if t.st == nxt && HasNext(nxt) && Instant(nxt) && Allowed(t, NextOf(nxt))
      then SetState(Asked(t, NextOf(nxt)), NextOf(nxt))
      else t
  }

  /** Ask the guard of st and enter it if it agrees. */
  function TryState(s: Ps, st: St): Ps {
    var t := Asked(s, st);
    if Allowed(s, st) then SetState(t, st) else t
  }

  // ----- events -----

  function Took(s: Ps, r: Reading, val: int): Ps {
    var t := s.(rcvd := s.rcvd + {r});
    match r
    case ROutCur => t.(outCur := val)
    case ROpr => t.(opr := val)
    case RPolarity => t.(polarity := val)
    case RIlk(n) => if n < |s.ilk| then t.(ilk := s.ilk[n := val]) else t
    case _ => t
  }

  predicate ResetStage(st: St) {
    st == RST_ILK_SET || st == RST_ILK_DRP || st == RST_ILK_CHK
  }

  /** The driver's own reaction to a reading. */
  function SodcCb(s: Ps, r: Reading, val: int): Ps {
    if s.st == UNKNOWN then s
    else if r.RIlk? then
      var t := if val != 0 && r.n < |s.cIlks| then s.(cIlks := s.cIlks[r.n := val]) else s;
      if val != 0 && !ResetStage(s.st) then SetState(t, INTERLOCK) else t
    else if r == ROpr && val == 0 && (s.st == SW_ON_DRP_ON || s.st == SW_ON_UP || s.st == IS_ON)
    then SetState(s, CUT_OFF)
    else s
  }

  /** The engine's reaction to a reading, after the driver's. */
  function AfterReading(s: Ps, r: Reading, late: bool): Ps {
    if s.st != UNKNOWN && HasNext(s.st) && (Instant(s.st) || late)
       && Important(NextOf(s.st), r) && Guarded(NextOf(s.st))
    then TryState(s, NextOf(s.st))
    else s
  }

  function OnUpdate(s: Ps, r: Reading, val: int, late: bool): Ps {
    var t := Took(s, r, val);
    var u := if t.st == UNKNOWN && t.rcvd >= IMPORTANT then SetState(t, DETERMINE) else t;
    AfterReading(SodcCb(u, r, val), r, late)
  }

  function OnTick(s: Ps, late: bool): Ps {
    if HasNext(s.st) && !Instant(s.st) && late then TryState(s, NextOf(s.st)) else s
  }

  function ClipIset(s: Ps, v: int): int {
    var a := if s.minHw < s.maxHw then Min(Max(v, s.minHw), s.maxHw) else v;
    var b := Max(Min(a, MAX_ALWD_VAL), MIN_ALWD_VAL);
    if b < 0 && !(s.reversable || s.bipolar) then 0 else b
  }

  function OnIset(s: Ps, v: int): Ps {
    var t := s.(outVal := ClipIset(s, v), outValSet := true);
    if t.st == IS_ON || t.st == SW_ON_UP then
      if WrongSign(t) then SetState(t, RV_ZERO) else Snd(t, t.st, OUT, OutFor(t))
    else t
  }

  function Next(s: Ps, e: Event): Ps {
    match e
    case Update(r, val, late) => OnUpdate(s, r, val, late)
    case Tick(late) => OnTick(s, late)
    case SubordLost => SetState(s.(rcvd := {}), UNKNOWN)
    case WriteIset(v) => OnIset(s, v)
    case CmdSwitchOn => if Allowed(s, SW_ON_ENABLE) then SetState(s, SW_ON_ENABLE) else s
    case CmdSwitchOff => if Allowed(s, SW_OFF_DOWN) then SetState(s, SW_OFF_DOWN) else s
    case CmdRstIlks => if Allowed(s, RST_ILK_SET) then SetState(s, RST_ILK_SET) else s
    case CmdResetState => SetState(s, DETERMINE)
    case CmdResetCIlks => s.(cIlks := seq(|s.cIlks|, i => 0))
  }
}
