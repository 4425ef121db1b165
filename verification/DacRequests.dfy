/** What clients' requests, readbacks and the heartbeat come to, in terms of the values
    and settings only. */
module DacRequests {
  import opened CMath
  import opened AdvDac
  import opened MoveCount
  import opened DacState
  import opened TableCheck
  import opened TableBounds
  import opened DacSpec
  import opened DacSafety
  import opened DacWrites

  // ----- set-points -----

  /** A value that the device and the channel's window both admit. */
  predicate Admissible(d: Dev, c: Chan, w: int) {
    d.minVal <= w <= d.maxVal && (c.min < c.max ==> c.min <= w <= c.max)
  }

  /** val is the admissible value nearest to v. */
  ghost predicate Nearest(d: Dev, c: Chan, v: int, val: int) {
    Admissible(d, c, val) && forall w :: Admissible(d, c, w) ==> Abs(v - val) <= Abs(v - w)
  }

  lemma ClipIsAdmissible(d: Dev, c: Chan, v: int)
    requires WindowOverlaps(d, c)
    ensures Admissible(d, c, Clip(d, c, v))
  {
  }

  lemma NearestIsClip(d: Dev, c: Chan, v: int, val: int)
    requires WindowOverlaps(d, c)
    ensures Nearest(d, c, v, val) <==> val == Clip(d, c, v)
  {
    ClipIsAdmissible(d, c, v);
    forall w | Admissible(d, c, w) ensures Abs(v - Clip(d, c, v)) <= Abs(v - w) {
      ClipIsNearest(d, c, v, w);
    }
    if Nearest(d, c, v, val) {
      assert Abs(v - val) <= Abs(v - Clip(d, c, v));
      assert Admissible(d, c, v) ==> Abs(v - val) <= Abs(v - v);
    }
  }

  /** The set-point val may be written without a slow move. */
  predicate AtOnce(d: Dev, c: Chan, val: int) {
    || c.spd == 0
    || ((!c.isc || c.tac <= 0)
        && (Shrinks(c.spd, val, c.cur) || Abs(val - c.cur) < Quot(Abs(c.spd), d.hbFreq)))
  }

  /** A set-point on an unlocked channel: the nearest admissible value is written and
      any move is over, or else, exactly when it may not be written at once, a move
      from the present value to it begins. */
  lemma SetpointIff(d: Dev, s: State, l: nat, v: int, val: int)
    requires Inv(d, s) && l < d.n && !s.out[l].lkd && Nearest(d, s.out[l], v, val)
    ensures var c, t, tx := s.out[l], Next(d, s, OutWrite(l, v)), Sends(d, s, OutWrite(l, v));
      var b := t.out[l];
      && (AtOnce(d, c, val) ==> tx == [Wr(l, val, Direct), Rd(l)] && b == c.(isc := false))
      && (!AtOnce(d, c, val) ==>
            tx == [Rd(l)] && b.isc && !b.fin && b.trg == val && b.dsr == c.cur && b.nxt == c.nxt && b.cur == c.cur)
  {
    assert ChanInv(d, s.out[l]);
    NearestIsClip(d, s.out[l], v, val);
  }

  /** An immediate set-point on an unlocked channel ends any move and is written. */
  lemma ImmediateIs(d: Dev, s: State, l: nat, v: int, val: int)
    requires Inv(d, s) && l < d.n && !s.out[l].lkd && Nearest(d, s.out[l], v, val)
    ensures Sends(d, s, ImmWrite(l, v)) == [Wr(l, val, Immediate), Rd(l)]
    ensures Next(d, s, ImmWrite(l, v)).out == s.out[l := s.out[l].(isc := false)]
  {
    assert ChanInv(d, s.out[l]);
    NearestIsClip(d, s.out[l], v, val);
  }

  /** A rate is stored as given, or as no limit when it is below the quant; an
      acceleration time as the nearest one in -1 .. 1000. */
  lemma SettingsAre(d: Dev, s: State, l: nat, v: int, w: int)
    requires Inv(d, s) && l < d.n && -1 <= w <= 1000
    ensures var spd := Next(d, s, RateWrite(l, v)).out[l].spd;
      (spd == v || spd == 0) && (spd == 0 <==> v == 0 || Abs(v) < d.quant)
    ensures var tac := Next(d, s, TacWrite(l, v)).out[l].tac;
      -1 <= tac <= 1000 && Abs(v - tac) <= Abs(v - w)
  {
  }

  /** A read request goes out for an unlocked channel, and nothing changes. */
  lemma ReadRequestIs(d: Dev, s: State, l: nat)
    requires Inv(d, s) && l < d.n
    ensures Sends(d, s, OutRead(l)) == Sends(d, s, ImmRead(l)) == if s.out[l].lkd then [] else [Rd(l)]
    ensures Next(d, s, OutRead(l)) == Next(d, s, ImmRead(l)) == s
  {
  }

  // ----- readbacks -----

  /** A readback acknowledges the last write and becomes the present value; the position
      of the ramp is kept within the quant of it; a final write ends the move. */
  lemma ReadbackIs(d: Dev, s: State, l: nat, v: int)
    requires Inv(d, s) && l < d.n
    ensures var c, t := s.out[l], Next(d, s, ReadDac(l, v));
      var b := t.out[l];
      && b.cur == v && b.rcv && b.nxt && (b.isc <==> c.isc && !c.fin)
      && Abs(b.dsr - v) <= d.quant && (b.dsr == v || b.dsr == c.dsr)
      && (Abs(c.dsr - v) <= d.quant ==> b.dsr == c.dsr)
      && b.trg == c.trg && b.crs == c.crs && b.fin == c.fin && b.lkd == c.lkd && b.aff == c.aff
      && (forall m :: 0 <= m < d.n && m != l ==> t.out[m] == s.out[m])
  {
  }

  /** The last value read back for channel l before state j, if there is any since the
      device was last reset. */
  datatype Option<T> = None | Some(value: T)

  ghost function LastRead(h: GoodRun, l: nat, j: nat): Option<int>
    requires j <= |h.es|
  {
    if j == 0 then None
    else match h.es[j - 1]
      case ReadDac(k, v) => if k == l then Some(v) else LastRead(h, l, j - 1)
      case DeviceFound(isReset, _) => if isReset then None else LastRead(h, l, j - 1)
      case _ => LastRead(h, l, j - 1)
  }

  /** The channel's value is the one read back last, and known, unless nothing was. */
  predicate Knows(c: Chan, last: Option<int>) {
    match last
    case None => !c.rcv
    case Some(v) => c.rcv && c.cur == v
  }

  lemma TableKnows(d: Dev, s: State, e: Event, l: nat)
    requires Inv(d, s) && Deliverable(d, s, e) && l < d.n && !e.DeviceFound?
    ensures var b := TableNext(d, s, e).out[l]; b.rcv == s.out[l].rcv && b.cur == s.out[l].cur
  {
    match e
    case Command(cmd, crunched) => if cmd == Activate { ActivationKnows(d, s, crunched, l); }
    case _ =>
  }

  lemma ActivationKnows(d: Dev, s: State, crunched: seq<byte>, l: nat)
    requires Shaped(d, s) && l < d.n
    ensures var b := Activation(d, s, crunched).out[l]; b.rcv == s.out[l].rcv && b.cur == s.out[l].cur
  {
    if Acceptable(d, s) {
      assert Locked(d, s, crunched).out[l] ==
        Confiscated(s.out[l], Affected(d, s, l), FirstAffected(d, s, 0) <= l);
    }
  }

  lemma StepKnows(d: Dev, s: State, e: Event, l: nat)
    requires Inv(d, s) && Deliverable(d, s, e) && l < d.n && !(e.ReadDac? && e.l == l) && !e.DeviceFound?
    ensures var b := Next(d, s, e).out[l]; b.rcv == s.out[l].rcv && b.cur == s.out[l].cur
  {
    match e
    case Heartbeat =>
    case OutRead(_) =>
    case ImmRead(_) =>
    case ReadDac(_, _) => LineKnows(d, s, e, l);
    case OutWrite(_, _) => LineKnows(d, s, e, l);
    case ImmWrite(_, _) => LineKnows(d, s, e, l);
    case RateWrite(_, _) => LineKnows(d, s, e, l);
    case TacWrite(_, _) => LineKnows(d, s, e, l);
    case _ => TableKnows(d, s, e, l);
  }

  lemma LineKnows(d: Dev, s: State, e: Event, l: nat)
    requires Inv(d, s) && Deliverable(d, s, e) && l < d.n
    requires (e.ReadDac? && e.l != l) || e.OutWrite? || e.ImmWrite? || e.RateWrite? || e.TacWrite?
    ensures var b := Next(d, s, e).out[l]; b.rcv == s.out[l].rcv && b.cur == s.out[l].cur
  {
  }

  lemma NextKnows(h: GoodRun, l: nat, j: nat)
    requires 0 < j <= |h.es| && l < h.d.n && Knows(h.ss[j - 1].out[l], LastRead(h, l, j - 1))
    ensures Knows(h.ss[j].out[l], LastRead(h, l, j))
  {
    RunInv(h, j - 1);
    var s, e := h.ss[j - 1], h.es[j - 1];
    assert Step(h.d, s, e, h.ss[j]);
    if !(e.ReadDac? && e.l == l) && !e.DeviceFound? { StepKnows(h.d, s, e, l); }
  }

  /** In every run that begins with nothing known, a channel's value is known exactly if
      it was read back since the last reset of the device, and it is what was read. */
  lemma {:induction false} RunKnows(h: GoodRun, l: nat, j: nat)
    requires j <= |h.es| && l < h.d.n && !h.ss[0].out[l].rcv
    ensures Knows(h.ss[j].out[l], LastRead(h, l, j))
  {
    if j > 0 {
      RunKnows(h, l, j - 1);
      NextKnows(h, l, j);
    }
  }

  // ----- tables written by clients -----

  /** v is stored as w, the nearest value in lo .. hi. */
  predicate Clamped(v: int, lo: int, hi: int, w: int) {
    lo <= w <= hi && (v < lo ==> w == lo) && (v > hi ==> w == hi) && (lo <= v <= hi ==> w == v)
  }

  /** Without a table its number and times are stored, clamped, and at most maxSteps of
      the times. */
  lemma StoredTimesAre(d: Dev, s: State, v: int, vs: seq<int>, k: nat)
    requires Inv(d, s) && Normal(s.mode) && k < |vs| && k < d.maxSteps
    ensures Clamped(v, 0, 15, Next(d, s, TabIdWrite(v)).tabId)
    ensures var ts := Next(d, s, TimesWrite(vs)).times;
      |ts| == Min(|vs|, d.maxSteps) && Clamped(vs[k], 0, d.maxStepCount * d.usecsInStep, ts[k])
  {
    MulMono(0, d.maxStepCount, d.usecsInStep);
  }

  /** So are the values, at most maxSteps of them: each the nearest admissible value,
      except for the markers in step 0. */
  lemma StoredValsAre(d: Dev, s: State, l: nat, vs: seq<int>, k: nat)
    requires Inv(d, s) && Normal(s.mode) && l < d.n && k < |vs| && k < d.maxSteps
    ensures var xs := Next(d, s, ValsWrite(l, vs)).vals[l];
      && |xs| == Min(|vs|, d.maxSteps)
      && (if k == 0 && (vs[0] <= d.disableChan || vs[0] >= d.startFromCur) then xs[0] == vs[0]
          else Nearest(d, s.out[l], vs[k], xs[k]))
  {
    assert ChanInv(d, s.out[l]);
    NearestIsClip(d, s.out[l], vs[k], Clip(d, s.out[l], vs[k]));
  }

  /** With a table nothing of it can be written. */
  lemma LoadedIgnores(d: Dev, s: State, e: Event)
    requires Inv(d, s) && Deliverable(d, s, e) && !Normal(s.mode)
    requires e.TabIdWrite? || e.TimesWrite? || e.ValsWrite?
    ensures Next(d, s, e) == s && Sends(d, s, e) == []
  {
  }

  // ----- reads and status requests -----

  lemma {:induction false} ReadsAffIff(out: seq<Chan>, l: nat)
    ensures Rd(l) in ReadsAff(out) <==> l < |out| && out[l].aff
  {
    if out != [] {
      ReadsAffIff(out[..|out| - 1], l);
      assert l < |out| - 1 ==> out[..|out| - 1][l] == out[l];
    }
  }

  lemma {:induction false} RampReads(d: Dev, out: seq<Chan>, l: nat)
    ensures Rd(l) in RampSends(d, out) <==> l < |out| && out[l].isc && out[l].nxt
  {
    if out != [] {
      RampReads(d, out[..|out| - 1], l);
      assert l < |out| - 1 ==> out[..|out| - 1][l] == out[l];
    }
  }

  /** A heartbeat reads back exactly what it wrote and, while a table runs, the channels
      of the table. */
  lemma HeartbeatReadsIff(d: Dev, s: State, l: nat)
    requires Inv(d, s) && l < d.n
    ensures Rd(l) in Sends(d, s, Heartbeat) <==>
      (s.out[l].isc && s.out[l].nxt) || (s.mode == RUNN && s.out[l].aff)
  {
    RampReads(d, s.out, l);
    ReadsAffIff(s.out, l);
    if s.out[l].isc { MovingBounds(s.out, l); }
  }

  lemma {:induction false} PresetReads(d: Dev, s: State, upTo: nat, l: nat)
    requires Shaped(d, s) && upTo <= d.n
    ensures Rd(l) in Presets(d, s, upTo) <==> l < upTo && InTable(d, s, l)
  {
    if upTo > 0 { PresetReads(d, s, upTo - 1, l); }
  }

  /** An accepted activation writes and reads back exactly the channels of the table. */
  lemma ActivationReadsIff(d: Dev, s: State, file: seq<byte>, l: nat, v: int)
    requires Inv(d, s) && Enabled(s, Activate) && Acceptable(d, s) && l < d.n
    requires Deliverable(d, s, Command(Activate, file))
    ensures var tx := Sends(d, s, Command(Activate, file));
      && (Rd(l) in tx <==> InTable(d, s, l))
      && (Wr(l, v, Preset) in tx <==> InTable(d, s, l) && v == ValueAt(d, s, l, 0))
  {
    PresetReads(d, s, d.n, l);
    PresetIff(d, s, d.n, l, v);
    if Rd(l) in Chunks(file) { ChunksOnly(file, Rd(l)); }
    if Wr(l, v, Preset) in Chunks(file) { ChunksOnly(file, Wr(l, v, Preset)); }
  }

  /** Erasing a table reads back the channels of the table and no others; the table
      itself goes only with DROP. */
  lemma EraseIs(d: Dev, s: State, wipe: bool, why: Status, l: nat)
    requires Inv(d, s) && l < d.n
    ensures Rd(l) in EraseSends(s) <==> s.out[l].aff
    ensures var t := Erase(s, wipe, why);
      && t.mode == NONE && !t.out[l].aff && !t.out[l].lkd
      && (if wipe then t.times == [] && t.vals[l] == [] else t.times == s.times && t.vals == s.vals)
  {
    ReadsAffIff(s.out, l);
  }

  /** Number of heartbeats between states i and j. */
  ghost function Hearts(h: GoodRun, i: nat, j: nat): nat
    requires i <= j <= |h.es|
  {
    if i == j then 0 else Hearts(h, i, j - 1) + if h.es[j - 1].Heartbeat? then 1 else 0
  }

  /** Event j is a heartbeat that asks for the device status. */
  ghost predicate AsksAt(h: GoodRun, j: nat)
    requires j < |h.es|
  {
    h.es[j].Heartbeat? && Shaped(h.d, h.ss[j]) && StatRq in Sends(h.d, h.ss[j], Heartbeat)
  }

  ghost function Asks(h: GoodRun, i: nat, j: nat): nat
    requires i <= j <= |h.es|
  {
    if i == j then 0 else Asks(h, i, j - 1) + if AsksAt(h, j - 1) then 1 else 0
  }

  lemma AsksIff(d: Dev, s: State)
    requires Inv(d, s)
    ensures StatRq in Sends(d, s, Heartbeat) <==> !Normal(s.mode) && (s.hbtCtr + 1 < 0 || s.hbtCtr + 1 >= d.hbFreq)
  {
    if StatRq in RampSends(d, s.out) { RampOnly(d, s.out, StatRq); }
    if StatRq in ReadsAff(s.out) { ReadsOnly(s.out, StatRq); }
  }

  lemma OtherCounter(d: Dev, s: State, e: Event)
    requires Inv(d, s) && Deliverable(d, s, e) && !e.Heartbeat?
    ensures Next(d, s, e).hbtCtr == s.hbtCtr
  {
  }

  lemma NextCounter(h: GoodRun, j: nat)
    requires 0 < j <= |h.es| && !Normal(h.ss[j - 1].mode) && 0 <= h.ss[j - 1].hbtCtr < h.d.hbFreq
    ensures var c := h.ss[j - 1].hbtCtr;
      && 0 <= h.ss[j].hbtCtr < h.d.hbFreq
      && h.ss[j].hbtCtr + (if AsksAt(h, j - 1) then h.d.hbFreq else 0) == c + (if h.es[j - 1].Heartbeat? then 1 else 0)
  {
    RunInv(h, j - 1);
    var e := h.es[j - 1];
    assert Step(h.d, h.ss[j - 1], e, h.ss[j]);
    AsksIff(h.d, h.ss[j - 1]);
    if !e.Heartbeat? { OtherCounter(h.d, h.ss[j - 1], e); }
  }

  /** The requests times HEARTBEAT_FREQ never differ from the heartbeats by a full
      period. */
  ghost predicate OnceASecond(h: GoodRun, i: nat, j: nat)
    requires i <= j <= |h.es|
  {
    && 0 <= h.ss[j].hbtCtr < h.d.hbFreq
    && h.ss[i].hbtCtr + Hearts(h, i, j) == h.ss[j].hbtCtr + Times(Asks(h, i, j), h.d.hbFreq)
  }

  lemma NextOnceASecond(h: GoodRun, i: nat, j: nat)
    requires i < j <= |h.es| && !Normal(h.ss[j - 1].mode) && OnceASecond(h, i, j - 1)
    ensures OnceASecond(h, i, j)
  {
    NextCounter(h, j);
  }

  ghost predicate Loaded(h: GoodRun, i: nat, j: nat) {
    i <= j <= |h.es| && forall x :: i <= x < j ==> !Normal(h.ss[x].mode)
  }

  /** While a table is present the device status is requested by exactly every
      HEARTBEAT_FREQ-th heartbeat. */
  lemma {:induction false} StatusOnceASecond(h: GoodRun, i: nat, j: nat)
    requires Loaded(h, i, j) && 0 <= h.ss[i].hbtCtr < h.d.hbFreq
    ensures OnceASecond(h, i, j)
  {
    if i < j {
      assert Loaded(h, i, j - 1);
      StatusOnceASecond(h, i, j - 1);
      NextOnceASecond(h, i, j);
    }
  }
}
