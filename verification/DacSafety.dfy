/** What every event keeps and what every DAC write obeys, over all runs of both
    halves together. */
module DacSafety {
  import opened CMath
  import opened AdvDac
  import opened SlowMotion
  import opened DacState
  import opened TableCheck
  import opened DacSpec
  import opened DacDevice

  predicate ChanInv(d: Dev, c: Chan) {
    && ProfileOk(c)
    && WindowOverlaps(d, c)
    && InRange(d, c.cur)
    && (c.isc ==> InRange(d, c.dsr) && InRange(d, c.trg))
    && (c.isc && c.fin ==> c.dsr == c.trg && !c.nxt)
    && (c.isc && c.nxt ==> Abs(c.dsr - c.cur) <= d.quant)
    && (c.lkd ==> !c.isc)
  }

  predicate StoredOk(d: Dev, k: nat, v: int) {
    InRange(d, v) || (k == 0 && (v <= d.disableChan || v >= d.startFromCur))
  }

  predicate ValsOk(d: Dev, vs: seq<int>) {
    forall k :: 0 <= k < |vs| ==> StoredOk(d, k, vs[k])
  }

  /** Modes that a command in the send queue may lead to. */
  predicate Awaited(m: Mode) {
    m == NONE || m == RUNN || m == PAUS
  }

  /** The joint invariant of the two halves. */
  predicate Inv(d: Dev, s: State) {
    && Shaped(d, s)
    && s.numIsc == Moving(s.out)
    && (forall l :: 0 <= l < d.n ==> ChanInv(d, s.out[l]))
    && (forall l :: 0 <= l < d.n ==> ValsOk(d, s.vals[l]))
    && (forall k :: 0 <= k < |s.pending| ==> Awaited(s.pending[k]))
    && (s.doTab == Switched(s.mode, true) || s.doTab == Switched(s.mode, false))
  }

  /** Locks belong to affected channels and exist only while a table is loaded. */
  predicate LocksOk(s: State) {
    forall l :: 0 <= l < |s.out| && s.out[l].lkd ==> s.out[l].aff && !Normal(s.mode)
  }

  /** Readbacks lie in the device range. */
  predicate Sane(d: Dev, e: Event) {
    e.ReadDac? ==> InRange(d, e.val)
  }

  /** The device or a client resets the driver. */
  predicate IsReset(e: Event) {
    e.SoftReset? || (e.DeviceFound? && e.isReset)
  }

  // ----- initially -----

  lemma {:induction false} NoneMoving(out: seq<Chan>)
    requires forall l :: 0 <= l < |out| ==> !out[l].isc
    ensures Moving(out) == 0
  {
    if out != [] { NoneMoving(out[..|out| - 1]); }
  }

  lemma InvInitially(d: Dev, cfg: seq<Config>)
    requires |cfg| == d.n
    requires forall l :: 0 <= l < d.n ==> WindowOverlaps(d, Fresh(cfg[l]))
    ensures Inv(d, Initially(d, cfg)) && LocksOk(Initially(d, cfg))
  {
    NoneMoving(Initially(d, cfg).out);
  }

  // ----- one channel -----

  lemma ChanAfterBeat(d: Dev, c: Chan)
    requires ChanInv(d, c)
    ensures ChanInv(d, AfterBeat(d, c)) && AfterBeat(d, c).isc == c.isc
  {
    if c.isc && c.nxt { BeatAdvances(d, c); }
  }

  lemma ChanAfterOut(d: Dev, c: Chan, v: int)
    requires ChanInv(d, c) && !c.lkd
    ensures InRange(d, Clip(d, c, v)) && ChanInv(d, AfterOut(d, c, Clip(d, c, v)))
  {
    ClipInRangeIff(d, c);
    TopSpeedPositiveIff(d, c);
  }

  lemma PutInv(d: Dev, s: State, l: nat, c: Chan)
    requires Inv(d, s) && l < d.n && ChanInv(d, c)
    ensures Inv(d, Put(s, l, c))
  {
    MovingPut(s.out, l, c);
  }

  // ----- events of the slow-motion half -----

  lemma HeartbeatInv(d: Dev, s: State)
    requires Inv(d, s)
    ensures Inv(d, AfterHeartbeat(d, s))
  {
    forall l | 0 <= l < d.n ensures ChanInv(d, AfterBeat(d, s.out[l])) && AfterBeat(d, s.out[l]).isc == s.out[l].isc {
      ChanAfterBeat(d, s.out[l]);
    }
    MovingSame(AllBeaten(d, s.out), s.out);
  }

  lemma LineInv(d: Dev, s: State, e: Event)
    requires Inv(d, s) && Deliverable(d, s, e) && Sane(d, e)
    requires e.ReadDac? || e.OutWrite? || e.ImmWrite? || e.RateWrite? || e.TacWrite?
    ensures Inv(d, Next(d, s, e))
  {
    var c := s.out[e.l];
    match e
    case ReadDac(l, v) => PutInv(d, s, l, AfterRead(d, c, v));
    case OutWrite(l, v) =>
      if !c.lkd {
        ChanAfterOut(d, c, v);
        PutInv(d, s, l, AfterOut(d, c, Clip(d, c, v)));
      }
    case ImmWrite(l, v) => PutInv(d, s, l, c.(isc := false));
    case RateWrite(l, v) => PutInv(d, s, l, c.(spd := StoredRate(d, v)));
    case TacWrite(l, v) => PutInv(d, s, l, c.(tac := Min(Max(v, -1), 1000)));
  }

  // ----- events of the table half -----

  lemma EraseInv(d: Dev, s: State, wipe: bool, why: Status)
    requires Inv(d, s)
    ensures Inv(d, Erase(s, wipe, why)) && LocksOk(Erase(s, wipe, why))
  {
    MovingSame(Released(s.out), s.out);
  }

  /** New table values are in range, whatever is written. */
  lemma StoredValsOk(d: Dev, c: Chan, vs: seq<int>)
    requires WindowOverlaps(d, c)
    ensures ValsOk(d, StoredVals(d, c, vs))
  {
    ClipInRangeIff(d, c);
  }

  lemma LockedInv(d: Dev, s: State, crunched: seq<byte>)
    requires Inv(d, s)
    ensures Inv(d, Locked(d, s, crunched))
  {
    var t := Locked(d, s, crunched);
    forall l | 0 <= l < d.n ensures ChanInv(d, t.out[l]) {
      assert ChanInv(d, s.out[l]);
    }
  }

  lemma FinishedInv(d: Dev, t: State)
    requires Inv(d, t)
    ensures Inv(d, Finished(t))
  {
    MovingSame(Unlocked(t.out), t.out);
  }

  lemma ActivationInv(d: Dev, s: State, crunched: seq<byte>)
    requires Inv(d, s)
    ensures Inv(d, Activation(d, s, crunched))
  {
    if Acceptable(d, s) {
      LockedInv(d, s, crunched);
      FinishedInv(d, Locked(d, s, crunched));
    } else {
      MovingSame(Marked(d, s), s.out);
    }
  }

  lemma ActivationLocks(d: Dev, s: State, crunched: seq<byte>)
    requires Inv(d, s) && LocksOk(s) && Normal(s.mode)
    ensures LocksOk(Activation(d, s, crunched))
  {
  }

  /** In which modes a command is obeyed; PAUSE and RESUME also need controls that were
      set with unicast. */
  lemma EnabledIff(d: Dev, s: State, cmd: Cmd)
    requires Inv(d, s)
    ensures match cmd
      case Drop => Enabled(s, cmd) <==> s.mode == NONE || s.mode == PREP || s.mode == ACTV
      case Activate => Enabled(s, cmd) <==> s.mode == NONE || s.mode == PREP
      case Start => Enabled(s, cmd) <==> s.mode == ACTV
      case Stop => Enabled(s, cmd) <==> s.mode == ACTV || s.mode == RUNN || s.mode == PAUS
      case Pause => Enabled(s, cmd) <==> s.mode == RUNN && s.doTab == Switched(s.mode, true)
      case Resume => Enabled(s, cmd) <==> s.mode == PAUS && s.doTab == Switched(s.mode, true)
  {
  }

  lemma CommandInv(d: Dev, s: State, cmd: Cmd, crunched: seq<byte>)
    requires Inv(d, s)
    ensures Inv(d, AfterCommand(d, s, cmd, crunched))
    ensures LocksOk(s) ==> LocksOk(AfterCommand(d, s, cmd, crunched))
  {
    if Enabled(s, cmd) {
      EnabledIff(d, s, cmd);
      match cmd
      case Drop => EraseInv(d, s, true, Dropped);
      case Activate =>
        ActivationInv(d, s, crunched);
        if LocksOk(s) { ActivationLocks(d, s, crunched); }
      case _ =>
    }
  }

  lemma CloseReplyInv(d: Dev, s: State, data: seq<byte>)
    requires Inv(d, s)
    ensures Inv(d, TableNext(d, s, CloseReply(data)))
    ensures LocksOk(s) ==> LocksOk(TableNext(d, s, CloseReply(data)))
  {
    EraseInv(d, s, false, SizeMismatch);
  }

  lemma StatReplyInv(d: Dev, s: State, e: Event)
    requires Inv(d, s) && e.StatReply?
    ensures Inv(d, AfterStat(s, e))
    ensures LocksOk(s) ==> LocksOk(AfterStat(s, e))
  {
    EraseInv(d, s, false, Ended);
  }

  lemma CommandSentInv(d: Dev, s: State, k: nat)
    requires Inv(d, s) && k < |s.pending|
    ensures Inv(d, AfterSent(s, k))
    ensures LocksOk(s) ==> LocksOk(AfterSent(s, k))
  {
    assert Awaited(s.pending[k]);
    var t := s.(pending := s.pending[..k] + s.pending[k + 1..]);
    assert Inv(d, t);
    if s.pending[k] == NONE { EraseInv(d, t, false, Stopped); }
  }

  lemma ResetInv(d: Dev, s: State, e: Event)
    requires Inv(d, s) && (e.SoftReset? || e.DeviceFound?)
    ensures Inv(d, TableNext(d, s, e))
    ensures LocksOk(s) && !IsReset(e) ==> LocksOk(TableNext(d, s, e))
  {
    MovingSame(Unread(s.out), s.out);
  }

  lemma TableInv(d: Dev, s: State, e: Event)
    requires Inv(d, s) && Deliverable(d, s, e)
    ensures Inv(d, TableNext(d, s, e))
    ensures LocksOk(s) && !IsReset(e) ==> LocksOk(TableNext(d, s, e))
  {
    match e
    case Command(cmd, crunched) => CommandInv(d, s, cmd, crunched);
    case ValsWrite(l, vs) => StoredValsOk(d, s.out[l], vs);
    case CloseReply(data) => CloseReplyInv(d, s, data);
    case StatReply(_, _, _, _) => StatReplyInv(d, s, e);
    case CommandSent(k) => CommandSentInv(d, s, k);
    case SoftReset => ResetInv(d, s, e);
    case DeviceFound(_, _) => ResetInv(d, s, e);
    case _ =>
  }

  // ----- every event, every run -----

  lemma StepInv(d: Dev, s: State, e: Event)
    requires Inv(d, s) && Deliverable(d, s, e) && Sane(d, e)
    ensures Inv(d, Next(d, s, e))
  {
    match e
    case Heartbeat => HeartbeatInv(d, s);
    case ReadDac(_, _) => LineInv(d, s, e);
    case OutWrite(_, _) => LineInv(d, s, e);
    case ImmWrite(_, _) => LineInv(d, s, e);
    case RateWrite(_, _) => LineInv(d, s, e);
    case TacWrite(_, _) => LineInv(d, s, e);
    case OutRead(_) =>
    case ImmRead(_) =>
    case _ => TableInv(d, s, e);
  }

  lemma LineLocks(d: Dev, s: State, e: Event)
    requires Inv(d, s) && LocksOk(s) && Deliverable(d, s, e)
    requires e.ReadDac? || e.OutWrite? || e.ImmWrite? || e.RateWrite? || e.TacWrite?
    ensures LocksOk(Next(d, s, e))
  {
    assert ChanInv(d, s.out[e.l]);
  }

  lemma StepLocks(d: Dev, s: State, e: Event)
    requires Inv(d, s) && LocksOk(s) && Deliverable(d, s, e) && !IsReset(e)
    ensures LocksOk(Next(d, s, e))
  {
    match e
    case Heartbeat =>
    case OutRead(_) =>
    case ImmRead(_) =>
    case ReadDac(_, _) => LineLocks(d, s, e);
    case OutWrite(_, _) => LineLocks(d, s, e);
    case ImmWrite(_, _) => LineLocks(d, s, e);
    case RateWrite(_, _) => LineLocks(d, s, e);
    case TacWrite(_, _) => LineLocks(d, s, e);
    case _ => TableInv(d, s, e);
  }

  ghost predicate IsGood(h: History) {
    IsRun(h) && Inv(h.d, h.ss[0]) && forall i :: 0 <= i < |h.es| ==> Sane(h.d, h.es[i])
  }

  /** Runs that begin with the joint invariant and have readbacks in range. */
  type GoodRun = h: History | IsGood(h)
    ghost witness
      History(CANDAC16.(n := 0), [State([], 0, NONE, Switched(NONE, true), true, 0, [], [], [], 0, Blank, [])], [])

  /** Every run from power-up is such a run when the windows overlap the range. */
  lemma PowerUpIsGood(h: History, cfg: seq<Config>)
    requires IsRun(h) && |cfg| == h.d.n && h.ss[0] == Initially(h.d, cfg)
    requires forall l :: 0 <= l < h.d.n ==> WindowOverlaps(h.d, Fresh(cfg[l]))
    requires forall i :: 0 <= i < |h.es| ==> Sane(h.d, h.es[i])
    ensures IsGood(h) && LocksOk(h.ss[0])
  {
    InvInitially(h.d, cfg);
  }

  /** The joint invariant holds in every state of every run, whatever the order of
      events, late command callbacks and resets included. */
  lemma {:induction false} RunInv(h: GoodRun, i: nat)
    requires i <= |h.es|
    ensures Inv(h.d, h.ss[i])
  {
    if i > 0 {
      RunInv(h, i - 1);
      assert Step(h.d, h.ss[i - 1], h.es[i - 1], h.ss[i]);
      StepInv(h.d, h.ss[i - 1], h.es[i - 1]);
    }
  }

  /** The lock discipline holds in every state of every run without a reset. */
  lemma {:induction false} RunLocks(h: GoodRun, i: nat)
    requires i <= |h.es| && LocksOk(h.ss[0])
    requires forall j :: 0 <= j < i ==> !IsReset(h.es[j])
    ensures LocksOk(h.ss[i])
  {
    if i > 0 {
      RunLocks(h, i - 1);
      RunInv(h, i - 1);
      assert Step(h.d, h.ss[i - 1], h.es[i - 1], h.ss[i]);
      StepLocks(h.d, h.ss[i - 1], h.es[i - 1]);
    }
  }

  /** A reset keeps the lock discipline exactly when nothing was locked: it returns
      the mode to NONE but leaves the locks. */
  lemma ResetKeepsLocksIff(d: Dev, s: State, e: Event)
    requires Inv(d, s) && Deliverable(d, s, e) && IsReset(e)
    ensures LocksOk(Next(d, s, e)) <==> NoLocks(s)
  {
    var t := Next(d, s, e);
    assert forall l :: 0 <= l < d.n ==> t.out[l].lkd == s.out[l].lkd;
  }

  // ----- how long a lock lasts -----

  /** The event takes the lock off channel l: DROP, another table that starts further
      down or is over at once, an answer of the wrong size, the end of execution, or a
      STOP that is sent.  A reset is not among them. */
  predicate Frees(d: Dev, s: State, e: Event, l: nat)
    requires Shaped(d, s) && Deliverable(d, s, e) && l < d.n
  {
    match e
    case Command(cmd, _) =>
      Enabled(s, cmd) &&
        (cmd == Drop
        || (cmd == Activate && Acceptable(d, s)
            && (|s.times| == 1 || (FirstAffected(d, s, 0) <= l && !Affected(d, s, l)))))
    case CloseReply(data) => s.mode == LOAD && |data| >= 4 && ReplySize(data) != |s.file|
    case StatReply(dlc, executing, _, _) => s.mode == RUNN && dlc >= 2 && !executing
    case CommandSent(k) => s.pending[k] == NONE
    case _ => false
  }

  lemma LockedLock(d: Dev, s: State, crunched: seq<byte>, l: nat)
    requires Shaped(d, s) && l < d.n && s.out[l].lkd
    ensures Locked(d, s, crunched).out[l].lkd <==> !(FirstAffected(d, s, 0) <= l && !Affected(d, s, l))
  {
  }

  lemma FinishedLock(t: State, l: nat)
    requires l < |t.out|
    ensures |Finished(t).out| == |t.out|
    ensures Finished(t).out[l].lkd <==> t.out[l].lkd && |t.times| != 1
  {
  }

  lemma ActivationFreesIff(d: Dev, s: State, crunched: seq<byte>, l: nat)
    requires Shaped(d, s) && l < d.n && s.out[l].lkd
    ensures Activation(d, s, crunched).out[l].lkd <==>
      !(Acceptable(d, s) && (|s.times| == 1 || (FirstAffected(d, s, 0) <= l && !Affected(d, s, l))))
  {
    if Acceptable(d, s) {
      LockedLock(d, s, crunched, l);
      FinishedLock(Locked(d, s, crunched), l);
    }
  }

  lemma TableFreesIff(d: Dev, s: State, e: Event, l: nat)
    requires Inv(d, s) && Deliverable(d, s, e) && l < d.n && s.out[l].lkd
    ensures TableNext(d, s, e).out[l].lkd <==> !Frees(d, s, e, l)
  {
    match e
    case Command(cmd, crunched) => if cmd == Activate { ActivationFreesIff(d, s, crunched, l); }
    case _ =>
  }

  /** A locked channel stays locked exactly unless the event frees it. */
  lemma FreesIff(d: Dev, s: State, e: Event, l: nat)
    requires Inv(d, s) && Deliverable(d, s, e) && l < d.n && s.out[l].lkd
    ensures Next(d, s, e).out[l].lkd <==> !Frees(d, s, e, l)
  {
    match e
    case Heartbeat =>
    case ReadDac(_, _) =>
    case OutWrite(_, _) =>
    case OutRead(_) =>
    case ImmWrite(_, _) =>
    case ImmRead(_) =>
    case RateWrite(_, _) =>
    case TacWrite(_, _) =>
    case _ => TableFreesIff(d, s, e, l);
  }

  /** Set-points of either kind change nothing and send nothing. */
  ghost predicate IgnoresSetpoints(d: Dev, s: State, l: nat)
    requires Shaped(d, s) && l < d.n
  {
    forall v :: Ignored(d, s, OutWrite(l, v)) && Ignored(d, s, ImmWrite(l, v))
  }

  ghost predicate Ignored(d: Dev, s: State, e: Event)
    requires Shaped(d, s) && Deliverable(d, s, e)
  {
    Next(d, s, e) == s && Sends(d, s, e) == []
  }

  ghost predicate FreedAt(h: GoodRun, k: nat, l: nat)
    requires k < |h.es| && l < h.d.n
  {
    Step(h.d, h.ss[k], h.es[k], h.ss[k + 1]) && Frees(h.d, h.ss[k], h.es[k], l)
  }

  lemma NextLocked(h: GoodRun, l: nat, k: nat)
    requires k < |h.es| && l < h.d.n && h.ss[k].out[l].lkd
    ensures h.ss[k + 1].out[l].lkd <==> !FreedAt(h, k, l)
  {
    RunInv(h, k);
    var e := h.es[k];
    assert Step(h.d, h.ss[k], e, h.ss[k + 1]);
    FreesIff(h.d, h.ss[k], e, l);
  }

  ghost predicate LockedThrough(h: GoodRun, l: nat, i: nat, j: nat) {
    i <= j <= |h.es| && l < h.d.n && forall x :: i <= x <= j ==> h.ss[x].out[l].lkd
  }

  ghost predicate NotFreed(h: GoodRun, l: nat, i: nat, j: nat) {
    i <= j <= |h.es| && l < h.d.n && forall k :: i <= k < j ==> !FreedAt(h, k, l)
  }

  /** A channel locked at i is locked up to j if and only if nothing between has freed
      it. */
  lemma {:induction false} LockedUntilFreed(h: GoodRun, l: nat, i: nat, j: nat)
    requires i <= j <= |h.es| && l < h.d.n && h.ss[i].out[l].lkd
    ensures LockedThrough(h, l, i, j) <==> NotFreed(h, l, i, j)
  {
    if i < j {
      LockedUntilFreed(h, l, i, j - 1);
      if LockedThrough(h, l, i, j - 1) {
        assert NotFreed(h, l, i, j - 1);
        NextLocked(h, l, j - 1);
      } else {
        assert !NotFreed(h, l, i, j - 1);
      }
    }
  }

  lemma LockedIgnores(d: Dev, s: State, l: nat)
    requires Shaped(d, s) && l < d.n && s.out[l].lkd
    ensures IgnoresSetpoints(d, s, l)
  {
  }

  /** A reset strands a locked channel: the mode is NONE, and until something frees the
      channel it stays locked and ignores set-points.  DROP frees it. */
  lemma StrandedUntilFreed(h: GoodRun, l: nat, i: nat, j: nat)
    requires i < j <= |h.es| && l < h.d.n && h.ss[i].out[l].lkd && IsReset(h.es[i])
    ensures h.ss[i + 1].mode == NONE
    ensures Frees(h.d, h.ss[i + 1], Command(Drop, []), l)
    ensures LockedThrough(h, l, i + 1, j) <==> NotFreed(h, l, i + 1, j)
    ensures h.ss[j].out[l].lkd ==> IgnoresSetpoints(h.d, h.ss[j], l)
  {
    ResetMode(h, i);
    NextLocked(h, l, i);
    LockedUntilFreed(h, l, i + 1, j);
    if h.ss[j].out[l].lkd { LockedIgnores(h.d, h.ss[j], l); }
  }

  lemma ResetMode(h: GoodRun, i: nat)
    requires i < |h.es| && IsReset(h.es[i])
    ensures h.ss[i + 1].mode == NONE && Enabled(h.ss[i + 1], Drop)
  {
    var e := h.es[i];
    assert Step(h.d, h.ss[i], e, h.ss[i + 1]);
  }
}
