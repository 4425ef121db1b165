/** What table commands and the device's status replies do
    (hw4cx/include/advdac_cankoz_table_meat.h:66-99 and 382-535). */
module TableCommands {
  import opened AdvDac
  import opened DacState
  import opened DacSpec
  import opened DacSafety

  /** PAUSE and RESUME are obeyed in the mode just set exactly when the device was
      found to take unicast commands. */
  lemma UnicastControls(s: State, m: Mode)
    ensures Enabled(SetMode(s, m), Pause) <==> m == RUNN && s.unicast
    ensures Enabled(SetMode(s, m), Resume) <==> m == PAUS && s.unicast
  {
  }

  /** A command for the device is waiting to be sent. */
  predicate Queued(s: State, t: State, m: Mode) {
    t == s.(pending := s.pending + [m])
  }

  /** START, STOP, PAUSE and RESUME are sent to the device when they are obeyed and
      change nothing until then; a command that is not obeyed does nothing at all. */
  lemma CommandIsSent(d: Dev, s: State, cmd: Cmd, crunched: seq<byte>)
    requires Inv(d, s) && Deliverable(d, s, Command(cmd, crunched))
    ensures var e := Command(cmd, crunched);
      var t, tx := Next(d, s, e), Sends(d, s, e);
      if !Enabled(s, cmd) then t == s && tx == []
      else match cmd
        case Start => Queued(s, t, RUNN) && tx == [CtlCmd(Start, s.tabId)]
        case Stop => Queued(s, t, NONE) && tx == [CtlCmd(Stop, s.tabId)]
        case Pause => Queued(s, t, PAUS) && tx == [CtlCmd(Pause, s.tabId)]
        case Resume => Queued(s, t, RUNN) && tx == [CtlCmd(Resume, s.tabId)]
        case Drop => t.mode == NONE && NoLocks(t) && t.times == []
        case Activate => true
  {
  }

  /** No table is left: no channel belongs to one or is locked. */
  predicate NoTable(s: State) {
    s.mode == NONE && NoLocks(s) && forall l :: 0 <= l < |s.out| ==> !s.out[l].aff
  }

  /** When a waiting command is sent the mode is the one it waits for, and after STOP no
      table is left; the device is asked for its status. */
  lemma SentIs(d: Dev, s: State, k: nat)
    requires Inv(d, s) && k < |s.pending|
    ensures var t, tx := Next(d, s, CommandSent(k)), Sends(d, s, CommandSent(k));
      && t.mode == s.pending[k] && t.pending == s.pending[..k] + s.pending[k + 1..]
      && (s.pending[k] == NONE ==> NoTable(t))
      && (s.pending[k] != NONE ==> t.out == s.out)
      && StatRq in tx
      && (s.pending[k] == PAUS ==> forall l :: 0 <= l < d.n && s.out[l].aff ==> Rd(l) in tx)
  {
    forall l | 0 <= l < d.n && s.out[l].aff ensures Rd(l) in ReadsAff(s.out) {
      AffIsRead(s.out, l);
    }
  }

  lemma {:induction false} AffIsRead(out: seq<Chan>, l: nat)
    requires l < |out| && out[l].aff
    ensures Rd(l) in ReadsAff(out)
  {
    if l < |out| - 1 { AffIsRead(out[..|out| - 1], l); }
  }

  function Target(cmd: Cmd): Mode {
    match cmd case Start => RUNN case Resume => RUNN case Pause => PAUS case _ => NONE
  }

  /** A command obeyed at event i and sent next has put the table into its mode; after
      STOP nothing is locked. */
  lemma CommandTakesEffect(h: GoodRun, i: nat, cmd: Cmd, crunched: seq<byte>)
    requires i + 1 < |h.es| && h.es[i] == Command(cmd, crunched)
    requires cmd != Drop && cmd != Activate && h.es[i + 1] == CommandSent(|h.ss[i].pending|)
    requires cmd == Start ==> h.ss[i].mode == ACTV
    requires cmd == Stop ==> h.ss[i].mode == ACTV || h.ss[i].mode == RUNN || h.ss[i].mode == PAUS
    requires cmd == Pause ==> h.ss[i].mode == RUNN && h.ss[i].doTab == Switched(RUNN, true)
    requires cmd == Resume ==> h.ss[i].mode == PAUS && h.ss[i].doTab == Switched(PAUS, true)
    ensures Step(h.d, h.ss[i], h.es[i], h.ss[i + 1])
    ensures Sends(h.d, h.ss[i], h.es[i]) == [CtlCmd(cmd, h.ss[i].tabId)]
    ensures h.ss[i + 2].mode == Target(cmd)
    ensures cmd == Stop ==> NoTable(h.ss[i + 2])
    ensures h.ss[i + 2].pending == h.ss[i].pending
  {
    RunInv(h, i);
    RunInv(h, i + 1);
    var e, f := h.es[i], h.es[i + 1];
    assert Step(h.d, h.ss[i], e, h.ss[i + 1]) && Step(h.d, h.ss[i + 1], f, h.ss[i + 2]);
    EnabledIff(h.d, h.ss[i], cmd);
    CommandIsSent(h.d, h.ss[i], cmd, crunched);
    SentIs(h.d, h.ss[i + 1], |h.ss[i].pending|);
  }

  /** The device's status leads the mode: a running table that no longer executes is
      over, and starting, pausing and resuming are followed; nothing else happens. */
  lemma StatusIsFollowed(d: Dev, s: State, dlc: nat, executing: bool, paused: bool, resuming: bool)
    requires Inv(d, s)
    ensures var e := StatReply(dlc, executing, paused, resuming);
      var t := Next(d, s, e);
      && (t.mode == RUNN && s.mode == ACTV <==> dlc >= 2 && s.mode == ACTV && executing)
      && (t.mode == PAUS && s.mode == RUNN <==> dlc >= 2 && s.mode == RUNN && executing && paused && !resuming)
      && (t.mode == RUNN && s.mode == PAUS <==> dlc >= 2 && s.mode == PAUS && (resuming || !paused))
      && (t.mode == NONE && s.mode != NONE <==> dlc >= 2 && s.mode == RUNN && !executing)
      && (s.mode == RUNN && t.mode == NONE ==> NoTable(t) && t.times == s.times && t.vals == s.vals)
      && (t.mode != NONE ==> t.out == s.out)
      && (t.mode == s.mode ==> t == s)
  {
  }

  /** Finding the device tells whether it takes unicast commands; if the device was
      reset, no value is known any more and the mode is NONE. */
  lemma DeviceFoundIs(d: Dev, s: State, isReset: bool, unicastOk: bool, l: nat)
    requires Inv(d, s) && l < d.n
    ensures var t := Next(d, s, DeviceFound(isReset, unicastOk));
      && t.unicast == unicastOk
      && (if isReset then t.mode == NONE && t.out[l] == s.out[l].(rcv := false) else t == s.(unicast := unicastOk))
  {
  }
}
