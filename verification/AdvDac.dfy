/** The record that both halves of the DAC driver share (hw4cx/include/advdac.h)
    and the constants each device supplies. */
module AdvDac {
  import opened CMath

  /** Device constants: number of channels, HEARTBEAT_FREQ, THE_QUANT,
      MIN_ALWD_VAL, MAX_ALWD_VAL and the DEVSPEC_TABLE_* numbers. */
  datatype Params = Params(
    n: nat,
    hbFreq: int,
    quant: int,
    minVal: int,
    maxVal: int,
    disableChan: int,
    startFromCur: int,
    maxSteps: nat,
    maxStepCount: nat,
    stepsPerSec: int,
    usecsInStep: int,
    maxFileBytes: nat)

  predicate Sound(p: Params) {
    && p.hbFreq >= 2
    && p.quant >= 0
    && p.minVal <= 0 <= p.maxVal
    && p.disableChan < p.minVal
    && p.startFromCur > p.maxVal
    && p.stepsPerSec >= 1
    && p.usecsInStep >= 1
    && p.maxFileBytes < 65536
  }

  const CANDAC16 := Params(16, 10, 305, -10000305, 9999999, -20000000, 20000000, 31, 65535, 100, 10000, 1980)
  const CDAC20 := Params(1, 10, 2, -10000000, 9999999, -20000000, 20000000, 31, 65535, 100, 10000, 240)

  type Dev = p: Params | Sound(p) witness CANDAC16

  /** One output channel.  Flags: rcv current value received, aff affected by
      the table, lkd locked by the table, isc is changing now, nxt next write
      may be sent, fst first step, fin final write was sent. */
  datatype Chan = Chan(
    cur: int, spd: int, min: int, max: int, trg: int, dsr: int,
    tac: int, mxs: int, crs: int, mns: int, acs: int, dcd: int,
    rcv: bool, aff: bool, lkd: bool, isc: bool, nxt: bool, fst: bool, fin: bool)

  predicate InRange(d: Dev, v: int) {
    d.minVal <= v <= d.maxVal
  }

  /** Clip a client's value: the device range first, the channel's window after. */
  function Clip(d: Dev, c: Chan, v: int): int {
    var a := Min(Max(v, d.minVal), d.maxVal);
    if c.min < c.max then Min(Max(a, c.min), c.max) else a
  }

  /** The configured window, when there is one, meets the device range. */
  predicate WindowOverlaps(d: Dev, c: Chan) {
    c.min < c.max ==> c.min <= d.maxVal && d.minVal <= c.max
  }

  /** Clipping keeps every request inside the device range exactly when the
      channel's window overlaps that range. */
  lemma ClipInRangeIff(d: Dev, c: Chan)
    ensures (forall v :: InRange(d, Clip(d, c, v))) <==> WindowOverlaps(d, c)
  {
    if !WindowOverlaps(d, c) {
      assert !InRange(d, Clip(d, c, 0));
    }
  }

  /** A clipped value is the admissible value nearest to the request. */
  lemma ClipIsNearest(d: Dev, c: Chan, v: int, w: int)
    requires WindowOverlaps(d, c)
    requires InRange(d, w) && (c.min < c.max ==> c.min <= w <= c.max)
    ensures c.min < c.max ==> c.min <= Clip(d, c, v) <= c.max
    ensures Abs(v - Clip(d, c, v)) <= Abs(v - w)
  {
  }
}
