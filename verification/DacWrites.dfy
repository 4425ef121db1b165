/** Every value ever written to the DAC is in range and no faster than the limits
    allow, and a locked channel is out of reach of clients and of the ramp. */
module DacWrites {
  import opened CMath
  import opened AdvDac
  import opened SlowMotion
  import opened DacState
  import opened TableCheck
  import opened TableBounds
  import opened DacSpec
  import opened DacDevice
  import opened DacSafety

  /** The most one ramp step may change: the speed fixed when a kinetic move began,
      or what the rate allows now. */
  function RampLimit(d: Dev, c: Chan): int {
    if c.tac > 0 then Max(c.mxs, c.mns) else Quot(Abs(c.spd), d.hbFreq)
  }

  /** What holds for a packet sent in state s. */
  predicate WriteOk(d: Dev, s: State, o: Out)
    requires Shaped(d, s)
  {
    o.Wr? ==>
      && o.l < d.n && InRange(d, o.val)
      && var c := s.out[o.l];
      match o.why
      case Direct =>
        && !c.lkd
        && (c.spd == 0 || Shrinks(c.spd, o.val, c.cur) || Abs(o.val - c.cur) < Quot(Abs(c.spd), d.hbFreq))
      case Immediate => !c.lkd
      case Ramp =>
        && !c.lkd && c.isc
        && Between(c.dsr, o.val, c.trg)
        && ((c.tac <= 0 && c.spd == 0) || Abs(o.val - c.dsr) <= RampLimit(d, c))
        && Abs(c.dsr - c.cur) <= d.quant
      case Preset =>
        && InTable(d, s, o.l) && Normal(s.mode)
        && (c.spd == 0 || Shrinks(c.spd, o.val, c.cur) || Abs(o.val - c.cur) <= Quot(Abs(c.spd), d.hbFreq))
  }

  // ----- the shapes of the longer packet sequences -----

  lemma {:induction false} ReadsOnly(out: seq<Chan>, o: Out)
    requires o in ReadsAff(out)
    ensures o.Rd? && o.l < |out| && out[o.l].aff
  {
    if o in ReadsAff(out[..|out| - 1]) { ReadsOnly(out[..|out| - 1], o); }
  }

  lemma {:induction false} RampOnly(d: Dev, out: seq<Chan>, o: Out)
    requires o in RampSends(d, out)
    ensures o.Rd? || (o.Wr? && o.why == Ramp && o.l < |out|
                      && out[o.l].isc && out[o.l].nxt && o.val == NextVal(d, out[o.l]))
  {
    if o in RampSends(d, out[..|out| - 1]) { RampOnly(d, out[..|out| - 1], o); }
  }

  lemma {:induction false} PresetsOnly(d: Dev, s: State, upTo: nat, o: Out)
    requires Shaped(d, s) && upTo <= d.n && o in Presets(d, s, upTo)
    ensures o.Rd? || (o.Wr? && o.why == Preset && o.l < upTo
                      && Affected(d, s, o.l) && o.val == Initial(d, s, o.l))
  {
    if o in Presets(d, s, upTo - 1) { PresetsOnly(d, s, upTo - 1, o); }
  }

  /** A heartbeat writes to exactly the moving, acknowledged channels, one value each. */
  lemma {:induction false} RampIff(d: Dev, out: seq<Chan>, l: nat, v: int)
    ensures Wr(l, v, Ramp) in RampSends(d, out) <==>
      l < |out| && out[l].isc && out[l].nxt && v == NextVal(d, out[l])
  {
    if out != [] {
      RampIff(d, out[..|out| - 1], l, v);
      assert l < |out| - 1 ==> out[..|out| - 1][l] == out[l];
    }
  }

  /** An activation presets exactly the affected channels, each to its initial value. */
  lemma {:induction false} PresetIff(d: Dev, s: State, upTo: nat, l: nat, v: int)
    requires Shaped(d, s) && upTo <= d.n
    ensures Wr(l, v, Preset) in Presets(d, s, upTo) <==>
      l < upTo && InTable(d, s, l) && v == ValueAt(d, s, l, 0)
  {
    if upTo > 0 { PresetIff(d, s, upTo - 1, l, v); }
  }

  lemma {:induction false} ChunksOnly(file: seq<byte>, o: Out)
    requires o in Chunks(file)
    ensures o == Separator || (o.FileData? && 1 <= |o.payload| <= 7)
    decreases |file|
  {
    var k := ChunkLen(|file|);
    if o in Chunks(file[k..]) { ChunksOnly(file[k..], o); }
  }

  // ----- one event -----

  lemma RampWriteOk(d: Dev, s: State, o: Out)
    requires Inv(d, s) && o in RampSends(d, s.out)
    ensures WriteOk(d, s, o)
  {
    RampOnly(d, s.out, o);
    if o.Wr? {
      var c := s.out[o.l];
      assert ChanInv(d, c);
      BeatAdvances(d, c);
    }
  }

  lemma PresetWriteOk(d: Dev, s: State, o: Out)
    requires Inv(d, s) && Acceptable(d, s) && Normal(s.mode) && o in Presets(d, s, d.n)
    ensures WriteOk(d, s, o)
  {
    PresetsOnly(d, s, d.n, o);
    if o.Wr? {
      var l := o.l;
      assert ChanInv(d, s.out[l]);
      assert StoredOk(d, 0, s.vals[l][0]) && FirstOk(d, s, l);
    }
  }

  lemma CommandWriteOk(d: Dev, s: State, cmd: Cmd, crunched: seq<byte>, o: Out)
    requires Inv(d, s) && Deliverable(d, s, Command(cmd, crunched)) && o in Sends(d, s, Command(cmd, crunched))
    ensures WriteOk(d, s, o)
  {
    EnabledIff(d, s, cmd);
    if cmd == Activate {
      if o in Presets(d, s, d.n) {
        PresetWriteOk(d, s, o);
      } else if o in Chunks(crunched) {
        ChunksOnly(crunched, o);
      }
    } else if cmd == Drop && o in ReadsAff(s.out) {
      ReadsOnly(s.out, o);
    }
  }

  lemma StepWriteOk(d: Dev, s: State, e: Event, o: Out)
    requires Inv(d, s) && Deliverable(d, s, e) && o in Sends(d, s, e)
    ensures WriteOk(d, s, o)
  {
    if o in ReadsAff(s.out) {
      ReadsOnly(s.out, o);
    } else {
      match e
      case Heartbeat => if o in RampSends(d, s.out) { RampWriteOk(d, s, o); }
      case OutWrite(l, v) => assert ChanInv(d, s.out[l]); ClipInRangeIff(d, s.out[l]);
      case ImmWrite(l, v) => assert ChanInv(d, s.out[l]); ClipInRangeIff(d, s.out[l]);
      case Command(cmd, crunched) => CommandWriteOk(d, s, cmd, crunched, o);
      case _ =>
    }
  }

  /** A ramp or direct write under a speed limit stays within that limit plus the
      readback tolerance of the last value read back, unless it shrinks the output. */
  lemma NearLastReadback(d: Dev, s: State, o: Out)
    requires Inv(d, s) && WriteOk(d, s, o) && o.Wr? && (o.why == Direct || o.why == Ramp)
    requires s.out[o.l].spd != 0
    ensures var c := s.out[o.l];
      Shrinks(c.spd, o.val, c.cur) || Abs(o.val - c.cur) <= Max(RampLimit(d, c), Quot(Abs(c.spd), d.hbFreq)) + d.quant
  {
  }

  // ----- runs -----

  /** In every run every packet is in order at the moment it is sent. */
  lemma RunWritesOk(h: GoodRun, i: nat, o: Out)
    requires i < |h.es|
    ensures Step(h.d, h.ss[i], h.es[i], h.ss[i + 1])
    ensures o in Sends(h.d, h.ss[i], h.es[i]) ==> WriteOk(h.d, h.ss[i], o)
  {
    RunInv(h, i);
    assert Step(h.d, h.ss[i], h.es[i], h.ss[i + 1]);
    if o in Sends(h.d, h.ss[i], h.es[i]) {
      StepWriteOk(h.d, h.ss[i], h.es[i], o);
    }
  }

  /** From power-up, with windows that overlap the device range and readbacks in
      it, nothing the driver ever writes leaves that range. */
  lemma AllWritesInRange(h: History, cfg: seq<Config>, i: nat, o: Out)
    requires IsRun(h) && |cfg| == h.d.n && h.ss[0] == Initially(h.d, cfg)
    requires forall l :: 0 <= l < h.d.n ==> WindowOverlaps(h.d, Fresh(cfg[l]))
    requires forall j :: 0 <= j < |h.es| ==> Sane(h.d, h.es[j])
    requires i < |h.es|
    ensures Step(h.d, h.ss[i], h.es[i], h.ss[i + 1])
    ensures o in Sends(h.d, h.ss[i], h.es[i]) && o.Wr? ==> o.l < h.d.n && InRange(h.d, o.val)
  {
    PowerUpIsGood(h, cfg);
    RunWritesOk(h, i, o);
  }
}
