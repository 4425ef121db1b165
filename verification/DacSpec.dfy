/** The controller as a state machine on values: the next state and the packets
    sent for every event.  The class DacDevice is proved to behave like this. */
module DacSpec {
  import opened CMath
  import opened AdvDac
  import opened SlowMotion
  import opened DacState
  import opened TableCheck

  // ----- the slow-motion half -----

  /** The request may be written at once. */
  predicate Fast(d: Dev, c: Chan, val: int) {
    && (!c.isc || c.spd == 0 || c.tac <= 0)
    && (c.spd == 0 || Decrement(c.spd, val, c.cur) || Abs(val - c.cur) < TopSpeed(d, c))
  }

  /** The channel with a move towards val begun. */
  function Begun(d: Dev, c: Chan, val: int): Chan {
    var p := Plan(d, val, c);
    c.(mxs := p.mxs, crs := p.crs, mns := p.mns, acs := p.acs, dcd := p.dcd,
       dsr := c.cur, trg := val, isc := true, fst := true, fin := false)
  }

  function AfterOut(d: Dev, c: Chan, val: int): Chan {
    if Fast(d, c, val) then c.(isc := false) else Begun(d, c, val)
  }

  function AfterBeat(d: Dev, c: Chan): Chan {
    if c.isc && c.nxt then Beat(d, c) else c
  }

  function BeatSends(d: Dev, c: Chan, l: nat): seq<Out> {
    if c.isc && c.nxt then [Wr(l, NextVal(d, c), Ramp), Rd(l)] else []
  }

  /** What a heartbeat sends for the given channels, in their order. */
  function RampSends(d: Dev, out: seq<Chan>): seq<Out> {
    if out == [] then []
    else RampSends(d, out[..|out| - 1]) + BeatSends(d, out[|out| - 1], |out| - 1)
  }

  // ----- the table half -----

  function ReadsAff(out: seq<Chan>): seq<Out> {
    if out == [] then []
    else ReadsAff(out[..|out| - 1]) + (if out[|out| - 1].aff then [Rd(|out| - 1)] else [])
  }

  function SetMode(s: State, m: Mode): (t: State)
    ensures |t.doTab| == 6
  {
    s.(mode := m, doTab := Switched(m, s.unicast))
  }

  function Released(out: seq<Chan>): (r: seq<Chan>)
    ensures |r| == |out|
  {
    seq(|out|, i requires 0 <= i < |out| => out[i].(aff := false, lkd := false))
  }

  /** n empty tables. */
  function NoValues(n: nat): (vals: seq<seq<int>>)
    ensures |vals| == n
  {
    seq(n, i => [])
  }

  function Erase(s: State, wipe: bool, why: Status): (t: State)
    ensures |t.out| == |s.out| && |t.vals| == |s.vals| && |t.doTab| == 6
  {
    var t := if wipe then s.(times := [], vals := NoValues(|s.vals|)) else s;
    SetMode(t.(out := Released(s.out), status := why), NONE)
  }

  function EraseSends(s: State): seq<Out> {
    [FileCreate(s.tabId), FileClose(s.tabId)] + ReadsAff(s.out) + [StatRq]
  }

  function Marked(d: Dev, s: State): (out: seq<Chan>)
    requires Shaped(d, s)
    ensures |out| == d.n
  {
    seq(d.n, l requires 0 <= l < d.n => s.out[l].(aff := Affected(d, s, l)))
  }

  /** The first affected channel from l on, or n. */
  function FirstAffected(d: Dev, s: State, l: nat): (fc: nat)
    requires Shaped(d, s) && l <= d.n
    ensures l <= fc <= d.n && (fc < d.n ==> Affected(d, s, fc))
    ensures forall i :: l <= i < fc ==> !Affected(d, s, i)
    decreases d.n - l
  {
    if l == d.n || Affected(d, s, l) then l else FirstAffected(d, s, l + 1)
  }

  /** Channels from the first affected one on take the lock from aff; an affected
      channel is taken away from the ramp. */
  function Confiscated(c: Chan, a: bool, reached: bool): Chan {
    c.(aff := a, lkd := if reached then a else c.lkd, isc := c.isc && !a)
  }

  function Taken(d: Dev, s: State): (out: seq<Chan>)
    requires Shaped(d, s)
    ensures |out| == d.n
  {
    var fc := FirstAffected(d, s, 0);
    seq(d.n, l requires 0 <= l < d.n => Confiscated(s.out[l], Affected(d, s, l), fc <= l))
  }

  function Unread(out: seq<Chan>): (r: seq<Chan>)
    ensures |r| == |out|
  {
    seq(|out|, i requires 0 <= i < |out| => out[i].(rcv := false))
  }

  function Unlocked(out: seq<Chan>): (r: seq<Chan>)
    ensures |r| == |out|
  {
    seq(|out|, i requires 0 <= i < |out| => out[i].(lkd := false))
  }

  /** Initial values of the affected channels among 0 .. upTo-1. */
  function Presets(d: Dev, s: State, upTo: nat): seq<Out>
    requires Shaped(d, s) && upTo <= d.n
  {
    if upTo == 0 then []
    else Presets(d, s, upTo - 1) +
         (if Affected(d, s, upTo - 1) then [Wr(upTo - 1, Initial(d, s, upTo - 1), Preset), Rd(upTo - 1)] else [])
  }

  function ChunkLen(left: nat): nat {
    if left > 7 then 7 else left
  }

  /** The file in packets of at most 7 bytes, each followed by a separator. */
  function Chunks(file: seq<byte>): seq<Out> {
    if file == [] then []
    else
      var k := ChunkLen(|file|);
      [FileData(file[..k]), Separator] + Chunks(file[k..])
  }

  function Upload(id: int, file: seq<byte>): seq<Out> {
    [FileCreate(id)] + Chunks(file) + [FileClose(id)]
  }

  /** The table accepted: file built, mode LOAD, channels locked. */
  function Locked(d: Dev, s: State, crunched: seq<byte>): State
    requires Shaped(d, s)
  {
    var out := Taken(d, s);
    s.(file := crunched, out := out, numIsc := s.numIsc + Moving(out) - Moving(s.out),
       mode := LOAD, doTab := Switched(LOAD, s.unicast), status := Activating)
  }

  /** A one-step table is over as soon as the initial values are set. */
  function Finished(t: State): State {
    if |t.times| == 1
    then SetMode(t.(out := Unlocked(t.out), status := OneStepDone), NONE)
    else t
  }

  function FinishSends(t: State): seq<Out> {
    if |t.times| == 1 then [] else Upload(t.tabId, t.file)
  }

  ghost function Activation(d: Dev, s: State, crunched: seq<byte>): (t: State)
    requires Shaped(d, s)
    ensures Shaped(d, t)
  {
    if Acceptable(d, s) then Finished(Locked(d, s, crunched))
    else if |s.times| < 1 then s.(status := NoTimes)
    else s.(out := Marked(d, s), status := Verdict(d, s))
  }

  function ActivationSends(d: Dev, s: State, crunched: seq<byte>): seq<Out>
    requires Shaped(d, s)
  {
    if Acceptable(d, s)
    then Presets(d, s, d.n) + FinishSends(Locked(d, s, crunched))
    else []
  }

  function CmdTarget(cmd: Cmd): Mode {
    match cmd
    case Start => RUNN case Resume => RUNN case Pause => PAUS case _ => NONE
  }

  /** A command whose channel is not "off" is obeyed. */
  predicate Enabled(s: State, cmd: Cmd)
    requires |s.doTab| == 6
  {
    !s.doTab[CmdIndex(cmd)].off
  }

  function SentStatus(s: State, m: Mode): Status {
    if m == PAUS then Pausing else if m == RUNN then Starting else s.status
  }

  /** A speed as stored: values below the quant mean "no limit". */
  function StoredRate(d: Dev, v: int): int {
    if Abs(v) < d.quant then 0 else v
  }

  function ClampTime(d: Dev, v: int): int {
    if v < 0 then 0 else if v > d.maxStepCount * d.usecsInStep then d.maxStepCount * d.usecsInStep else v
  }

  /** A table value as stored: the special markers only in step 0. */
  function StoredVal(d: Dev, c: Chan, step: nat, v: int): int {
    if step == 0 && (v <= d.disableChan || v >= d.startFromCur) then v else Clip(d, c, v)
  }

  function Shorten(d: Dev, vs: seq<int>): seq<int> {
    if |vs| > d.maxSteps then vs[..d.maxSteps] else vs
  }

  function StoredTimes(d: Dev, vs: seq<int>): seq<int> {
    var w := Shorten(d, vs);
    seq(|w|, i requires 0 <= i < |w| => ClampTime(d, w[i]))
  }

  function StoredVals(d: Dev, c: Chan, vs: seq<int>): seq<int> {
    var w := Shorten(d, vs);
    seq(|w|, i requires 0 <= i < |w| => StoredVal(d, c, i, w[i]))
  }

  function ReplySize(data: seq<byte>): int
    requires |data| >= 4
  {
    var lo: int, hi: int := data[2], data[3];
    lo + hi * 256
  }

  // ----- all events -----

  function AllBeaten(d: Dev, out: seq<Chan>): (r: seq<Chan>)
    ensures |r| == |out|
  {
    seq(|out|, i requires 0 <= i < |out| => AfterBeat(d, out[i]))
  }

  function AfterHeartbeat(d: Dev, s: State): State {
    var out := if s.numIsc > 0 then AllBeaten(d, s.out) else s.out;
    var ctr := s.hbtCtr + 1;
    s.(out := out, hbtCtr := if AsksStat(d, s.mode, ctr) then 0 else ctr)
  }

  /** Once a second, while a table is present, the device status is requested. */
  predicate AsksStat(d: Dev, m: Mode, ctr: int) {
    !Normal(m) && (ctr < 0 || ctr >= d.hbFreq)
  }

  function AfterStat(s: State, e: Event): State
    requires e.StatReply?
  {
    if e.dlc < 2 then s
    else if s.mode == RUNN && !e.executing then Erase(s, false, Ended)
    else if s.mode == ACTV && e.executing then SetMode(s, RUNN).(status := SawStart)
    else if s.mode == RUNN && e.paused && !e.resuming then SetMode(s, PAUS).(status := SawPause)
    else if s.mode == PAUS && (e.resuming || !e.paused) then SetMode(s, RUNN).(status := SawResume)
    else s
  }

  function AfterSent(s: State, k: nat): State
    requires k < |s.pending|
  {
    var m := s.pending[k];
    var t := s.(pending := s.pending[..k] + s.pending[k + 1..]);
    if m == NONE then Erase(t, false, Stopped)
    else SetMode(t, m).(status := SentStatus(s, m))
  }

  ghost function AfterCommand(d: Dev, s: State, cmd: Cmd, crunched: seq<byte>): (t: State)
    requires Shaped(d, s)
    ensures Shaped(d, t)
  {
    if !Enabled(s, cmd) then s
    else match cmd
      case Drop => Erase(s, true, Dropped)
      case Activate => Activation(d, s, crunched)
      case _ => s.(pending := s.pending + [CmdTarget(cmd)])
  }

  /** Events of the table half and of the device as a whole. */
  ghost function TableNext(d: Dev, s: State, e: Event): (t: State)
    requires Shaped(d, s) && Deliverable(d, s, e)
    ensures Shaped(d, t)
  {
    match e
    case Command(cmd, crunched) => AfterCommand(d, s, cmd, crunched)
    case TabIdWrite(v) => if Normal(s.mode) then s.(tabId := Min(Max(v, 0), 15)) else s
    case TimesWrite(vs) => if Normal(s.mode) then s.(times := StoredTimes(d, vs)) else s
    case ValsWrite(l, vs) =>
      if Normal(s.mode) then s.(vals := s.vals[l := StoredVals(d, s.out[l], vs)]) else s
    case CloseReply(data) =>
      if |data| < 4 || s.mode != LOAD then s
      else if ReplySize(data) == |s.file| then SetMode(s, ACTV).(status := Ready)
      else Erase(s, false, SizeMismatch)
    case StatReply(_, _, _, _) => AfterStat(s, e)
    case CommandSent(k) => AfterSent(s, k)
    case SoftReset => SetMode(s, NONE)
    case DeviceFound(isReset, unicastOk) =>
      if isReset then SetMode(s.(unicast := unicastOk, out := Unread(s.out)), NONE)
      else s.(unicast := unicastOk)
    case _ => s
  }

  ghost function Next(d: Dev, s: State, e: Event): (t: State)
    requires Shaped(d, s) && Deliverable(d, s, e)
    ensures Shaped(d, t)
  {
    match e
    case Heartbeat => AfterHeartbeat(d, s)
    case ReadDac(l, v) => Put(s, l, AfterRead(d, s.out[l], v))
    case OutWrite(l, v) =>
      if s.out[l].lkd then s else Put(s, l, AfterOut(d, s.out[l], Clip(d, s.out[l], v)))
    case OutRead(l) => s
    case ImmWrite(l, v) => if s.out[l].lkd then s else Put(s, l, s.out[l].(isc := false))
    case ImmRead(l) => s
    case RateWrite(l, v) => Put(s, l, s.out[l].(spd := StoredRate(d, v)))
    case TacWrite(l, v) => Put(s, l, s.out[l].(tac := Min(Max(v, -1), 1000)))
    case _ => TableNext(d, s, e)
  }

  function Sends(d: Dev, s: State, e: Event): seq<Out>
    requires Shaped(d, s) && Deliverable(d, s, e)
  {
    match e
    case Heartbeat =>
      (if s.numIsc > 0 then RampSends(d, s.out) else [])
      + (if s.mode == RUNN then ReadsAff(s.out) else [])
      + (if AsksStat(d, s.mode, s.hbtCtr + 1) then [StatRq] else [])
    case ReadDac(l, v) => []
    case OutWrite(l, v) =>
      var c := s.out[l];
      var val := Clip(d, c, v);
      if c.lkd then [] else (if Fast(d, c, val) then [Wr(l, val, Direct)] else []) + [Rd(l)]
    case OutRead(l) => if s.out[l].lkd then [] else [Rd(l)]
    case ImmWrite(l, v) =>
      if s.out[l].lkd then [] else [Wr(l, Clip(d, s.out[l], v), Immediate), Rd(l)]
    case ImmRead(l) => if s.out[l].lkd then [] else [Rd(l)]
    case Command(cmd, crunched) =>
      if !Enabled(s, cmd) then []
      else (match cmd
        case Drop => EraseSends(s)
        case Activate => ActivationSends(d, s, crunched)
        case _ => [CtlCmd(cmd, s.tabId)])
    case CloseReply(data) =>
      if |data| >= 4 && s.mode == LOAD && ReplySize(data) != |s.file| then EraseSends(s) else []
    case StatReply(dlc, executing, _, _) =>
      if dlc >= 2 && s.mode == RUNN && !executing then EraseSends(s) else []
    case CommandSent(k) =>
      [StatRq] + (if s.pending[k] == NONE then EraseSends(s)
                  else if s.pending[k] == PAUS then ReadsAff(s.out) else [])
    case _ => []
  }

  // ----- runs -----

  /** In state s event e can happen and leads to t. */
  ghost predicate Step(d: Dev, s: State, e: Event, t: State) {
    Shaped(d, s) && Deliverable(d, s, e) && t == Next(d, s, e)
  }

  /** A run: the states that the events lead through, one more than events. */
  datatype History = History(d: Dev, ss: seq<State>, es: seq<Event>)

  ghost predicate IsRun(h: History) {
    && |h.ss| == |h.es| + 1
    && (forall i :: 0 <= i < |h.ss| ==> Shaped(h.d, h.ss[i]))
    && (forall i {:trigger h.es[i]} :: 0 <= i < |h.es| ==> Step(h.d, h.ss[i], h.es[i], h.ss[i + 1]))
  }
}
