/** The controller's state, what can happen to it, and what it sends. */
module DacState {
  import opened AdvDac

  type byte = x: int | 0 <= x < 256

  /** Table modes (hw4cx/include/advdac_cankoz_table_meat.h:14-22). */
  datatype Mode = NONE | PREP | LOAD | ACTV | RUNN | PAUS

  /** Table commands, in the order of their channels. */
  datatype Cmd = Drop | Activate | Start | Stop | Pause | Resume

  /** Appearance of a command channel; an "off" command is not obeyed. */
  datatype Ctl = Ctl(lit: bool, off: bool)

  const PLAIN := Ctl(false, false)
  const GREY := Ctl(false, true)
  const DONE := Ctl(true, true)

  /** Texts of the table status channel. */
  datatype Status =
    | Blank
    | NoTimes | NoChannels | BadLength(l: nat) | NoCurrent(l: nat) | FastJump(l: nat) | FastStep(l: nat, step: nat)
    | Activating | OneStepDone | Ready | SizeMismatch | Ended | Stopped | Dropped
    | SawStart | SawPause | SawResume | Pausing | Starting

  datatype State = State(
    out: seq<Chan>,
    numIsc: int,
    mode: Mode,
    doTab: seq<Ctl>,
    unicast: bool,
    tabId: int,
    times: seq<int>,
    vals: seq<seq<int>>,
    file: seq<byte>,
    hbtCtr: int,
    status: Status,
    pending: seq<Mode>)   // table commands handed to the send queue, not sent yet

  datatype Event =
    | Heartbeat
    | ReadDac(l: nat, val: int)
    | OutWrite(l: nat, val: int)
    | OutRead(l: nat)
    | ImmWrite(l: nat, val: int)
    | ImmRead(l: nat)
    | RateWrite(l: nat, val: int)
    | TacWrite(l: nat, val: int)
    | Command(cmd: Cmd, crunched: seq<byte>)   // crunched: the file ACTIVATE would build
    | TabIdWrite(val: int)
    | TimesWrite(vs: seq<int>)
    | ValsWrite(l: nat, vs: seq<int>)
    | CloseReply(data: seq<byte>)
    | StatReply(dlc: nat, executing: bool, paused: bool, resuming: bool)
    | CommandSent(k: nat)                      // the queue sends pending[k]
    | SoftReset
    | DeviceFound(isReset: bool, unicastOk: bool)

  /** Why a value is written to the DAC. */
  datatype Why = Direct | Immediate | Ramp | Preset

  datatype Out =
    | Wr(l: nat, val: int, why: Why)
    | Rd(l: nat)
    | FileCreate(id: int)
    | FileData(payload: seq<byte>)
    | Separator
    | FileClose(id: int)
    | StatRq
    | CtlCmd(cmd: Cmd, id: int)

  predicate Shaped(d: Dev, s: State) {
    |s.out| == d.n && |s.vals| == d.n && |s.doTab| == 6
  }

  /** The event can be delivered: its line number and queue position exist, and the
      file fits its buffer. */
  predicate Deliverable(d: Dev, s: State, e: Event) {
    match e
    case ReadDac(l, _) => l < d.n
    case OutWrite(l, _) => l < d.n
    case OutRead(l) => l < d.n
    case ImmWrite(l, _) => l < d.n
    case ImmRead(l) => l < d.n
    case RateWrite(l, _) => l < d.n
    case TacWrite(l, _) => l < d.n
    case ValsWrite(l, _) => l < d.n
    case CommandSent(k) => k < |s.pending|
    case Command(_, crunched) => |crunched| <= d.maxFileBytes
    case _ => true
  }

  predicate NoLocks(s: State) {
    forall l :: 0 <= l < |s.out| ==> !s.out[l].lkd
  }

  predicate Normal(m: Mode) {
    m == NONE || m == PREP
  }

  function CmdIndex(c: Cmd): nat {
    match c
    case Drop => 0 case Activate => 1 case Start => 2 case Stop => 3 case Pause => 4 case Resume => 5
  }

  function Controls(m: Mode): seq<Ctl> {
    match m
    case NONE => [PLAIN, PLAIN, GREY, GREY, GREY, GREY]
    case PREP => [PLAIN, PLAIN, GREY, GREY, GREY, GREY]
    case LOAD => [GREY, GREY, GREY, GREY, GREY, GREY]
    case ACTV => [PLAIN, DONE, PLAIN, PLAIN, GREY, GREY]
    case RUNN => [GREY, DONE, DONE, PLAIN, PLAIN, GREY]
    case PAUS => [GREY, DONE, GREY, PLAIN, DONE, PLAIN]
  }

  function Switched(m: Mode, unicast: bool): seq<Ctl> {
    var t := Controls(m);
    if unicast then t else t[4 := t[4].(off := true)][5 := t[5].(off := true)]
  }

  // ----- counting moving channels -----

  function One(b: bool): int {
    if b then 1 else 0
  }

  function Moving(out: seq<Chan>): int {
    if out == [] then 0 else Moving(out[..|out| - 1]) + One(out[|out| - 1].isc)
  }

  lemma {:induction false} MovingPut(out: seq<Chan>, l: nat, c: Chan)
    requires l < |out|
    ensures Moving(out[l := c]) == Moving(out) + One(c.isc) - One(out[l].isc)
  {
    var e := |out| - 1;
    if l < e {
      MovingPut(out[..e], l, c);
      assert out[l := c][..e] == out[..e][l := c];
    } else {
      assert out[l := c][..e] == out[..e];
    }
  }

  lemma {:induction false} MovingSame(a: seq<Chan>, b: seq<Chan>)
    requires |a| == |b| && forall i :: 0 <= i < |a| ==> a[i].isc == b[i].isc
    ensures Moving(a) == Moving(b)
  {
    if a != [] {
      MovingSame(a[..|a| - 1], b[..|a| - 1]);
    }
  }

  lemma {:induction false} MovingBounds(out: seq<Chan>, l: nat)
    requires l < |out|
    ensures 0 <= Moving(out) - One(out[l].isc)
  {
    if l < |out| - 1 {
      MovingBounds(out[..|out| - 1], l);
    } else if |out| > 1 {
      MovingBounds(out[..|out| - 1], 0);
    }
  }

  /** Replace channel l and keep count. */
  function Put(s: State, l: nat, c: Chan): State
    requires l < |s.out|
  {
    s.(out := s.out[l := c], numIsc := s.numIsc + One(c.isc) - One(s.out[l].isc))
  }
}
