/** Reporting of channel ranges (hw4cx/include/advdac_slowmo_kinetic_meat.h:94-142). */
module OutRanges {
  import opened AdvDac

  /** One SetChanRange() call: channels first .. first+count-1 have range lo .. hi. */
  datatype Segment = Segment(first: nat, count: nat, lo: int, hi: int)

  /** The range in force for a channel. */
  function Effective(d: Dev, c: Chan): (int, int) {
    if c.min >= c.max then (d.minVal, d.maxVal) else (c.min, c.max)
  }

  /** It is the range that set-points are clipped to: every clipped value lies in it,
      and the values of the range that the device has are not changed. */
  lemma RangeIsClip(d: Dev, c: Chan, v: int, w: int)
    ensures var (lo, hi) := Effective(d, c);
      && lo <= Clip(d, c, v) <= hi
      && (lo <= w <= hi && InRange(d, w) ==> Clip(d, c, w) == w)
  {
  }

  function End(segs: seq<Segment>): nat {
    if segs == [] then 0 else segs[|segs| - 1].first + segs[|segs| - 1].count
  }

  /** Nonempty segments, each starting where the previous one ends. */
  predicate Tiles(segs: seq<Segment>) {
    forall i :: 0 <= i < |segs| ==> segs[i].count >= 1 && segs[i].first == End(segs[..i])
  }

  /** Every channel of the segment has exactly the segment's range. */
  predicate Uniform(d: Dev, outs: seq<Chan>, g: Segment) {
    && g.first + g.count <= |outs|
    && forall l :: g.first <= l < g.first + g.count ==> Effective(d, outs[l]) == (g.lo, g.hi)
  }

  /** Adjacent segments differ, so that no segment could be longer. */
  predicate Maximal(segs: seq<Segment>) {
    forall i :: 0 < i < |segs| ==> (segs[i - 1].lo, segs[i - 1].hi) != (segs[i].lo, segs[i].hi)
  }

  /** segs is a run-length encoding of the ranges of channels 0 .. upTo-1. */
  predicate Encodes(d: Dev, outs: seq<Chan>, segs: seq<Segment>, upTo: nat) {
    && Tiles(segs) && Maximal(segs) && End(segs) == upTo
    && forall i :: 0 <= i < |segs| ==> Uniform(d, outs, segs[i])
  }

  /** The last segment's range differs from lo .. hi. */
  predicate LastDiffers(segs: seq<Segment>, lo: int, hi: int) {
    segs != [] ==> (segs[|segs| - 1].lo, segs[|segs| - 1].hi) != (lo, hi)
  }

  lemma EncodesOneMore(d: Dev, outs: seq<Chan>, segs: seq<Segment>, g: Segment)
    requires Encodes(d, outs, segs, g.first) && LastDiffers(segs, g.lo, g.hi)
    requires g.count >= 1 && Uniform(d, outs, g)
    ensures Encodes(d, outs, segs + [g], g.first + g.count)
  {
    var more := segs + [g];
    forall i | 0 <= i < |more| ensures more[i].count >= 1 && more[i].first == End(more[..i]) {
      assert more[..i] == segs[..i];
      assert segs[..|segs|] == segs;
    }
  }

  /** Channels below l are reported, except for the open segment g. */
  predicate Open(d: Dev, outs: seq<Chan>, segs: seq<Segment>, g: Segment, l: nat) {
    && g.first + g.count == l && g.count >= 1
    && Encodes(d, outs, segs, g.first) && Uniform(d, outs, g) && LastDiffers(segs, g.lo, g.hi)
  }

  lemma OpenLonger(d: Dev, outs: seq<Chan>, segs: seq<Segment>, g: Segment, l: nat)
    requires Open(d, outs, segs, g, l) && l < |outs| && Effective(d, outs[l]) == (g.lo, g.hi)
    ensures Open(d, outs, segs, g.(count := g.count + 1), l + 1)
  {
  }

  lemma OpenNext(d: Dev, outs: seq<Chan>, segs: seq<Segment>, g: Segment, l: nat, lo: int, hi: int)
    requires Open(d, outs, segs, g, l) && l < |outs| && Effective(d, outs[l]) == (lo, hi) && (lo, hi) != (g.lo, g.hi)
    ensures Open(d, outs, segs + [g], Segment(l, 1, lo, hi), l + 1)
  {
    EncodesOneMore(d, outs, segs, g);
  }

  method ReportOutRanges(d: Dev, outs: seq<Chan>) returns (segs: seq<Segment>)
    ensures Encodes(d, outs, segs, |outs|)
  {
    segs := [];
    var g := Segment(0, 0, 0, 0);
    for l := 0 to |outs|
      invariant l == 0 ==> segs == [] && g.count == 0
      invariant l > 0 ==> Open(d, outs, segs, g, l)
    {
      var lMin, lMax := outs[l].min, outs[l].max;
      if lMin >= lMax {
        lMin, lMax := d.minVal, d.maxVal;
      }
      if g.count == 0 {
        g := Segment(l, 1, lMin, lMax);
      } else if lMin != g.lo || lMax != g.hi {
        OpenNext(d, outs, segs, g, l, lMin, lMax);
        segs := segs + [g];
        g := Segment(l, 1, lMin, lMax);
      } else {
        OpenLonger(d, outs, segs, g, l);
        g := g.(count := g.count + 1);
      }
    }
    if g.count > 0 {
      EncodesOneMore(d, outs, segs, g);
      segs := segs + [g];
    }
  }

  lemma {:induction false} EndIsMonotone(d: Dev, outs: seq<Chan>, segs: seq<Segment>, i: nat, j: nat)
    requires Tiles(segs) && i <= j <= |segs|
    ensures End(segs[..i]) + (j - i) <= End(segs[..j])
    decreases j
  {
    if i < j {
      EndIsMonotone(d, outs, segs, i, j - 1);
      assert segs[..j][j - 1] == segs[j - 1];
    }
  }

  /** A segment stops only at the last channel or before a different range. */
  lemma SegmentStops(d: Dev, outs: seq<Chan>, a: seq<Segment>, i: nat)
    requires Encodes(d, outs, a, |outs|) && i < |a|
    ensures var e := a[i].first + a[i].count;
      e < |outs| ==> Effective(d, outs[e]) != (a[i].lo, a[i].hi)
  {
    var e := a[i].first + a[i].count;
    assert a[..i + 1][i] == a[i];
    assert End(a[..i + 1]) == e;
    if i + 1 == |a| {
      assert a[..i + 1] == a;
    } else {
      assert a[i + 1].first == e && Uniform(d, outs, a[i + 1]);
      assert (a[i + 1 - 1].lo, a[i + 1 - 1].hi) != (a[i + 1].lo, a[i + 1].hi);
    }
  }

  /** Two encodings that agree on their first i segments agree on the next one. */
  lemma NextSegmentAgrees(d: Dev, outs: seq<Chan>, a: seq<Segment>, b: seq<Segment>, i: nat)
    requires Encodes(d, outs, a, |outs|) && Encodes(d, outs, b, |outs|)
    requires i < |a| && i <= |b| && a[..i] == b[..i]
    ensures i < |b| && a[i] == b[i]
  {
    EndIsMonotone(d, outs, a, i, |a|);
    assert a[..|a|] == a && b[..|b|] == b;
    var x, y := a[i], b[i];
    assert Uniform(d, outs, x) && Uniform(d, outs, y);
    assert Effective(d, outs[x.first]) == (x.lo, x.hi);
    assert Effective(d, outs[y.first]) == (y.lo, y.hi);
    assert x.count < y.count ==> Effective(d, outs[x.first + x.count]) == (y.lo, y.hi);
    assert y.count < x.count ==> Effective(d, outs[y.first + y.count]) == (x.lo, x.hi);
    SegmentStops(d, outs, a, i);
    SegmentStops(d, outs, b, i);
  }

  lemma {:induction false} PrefixesAgree(d: Dev, outs: seq<Chan>, a: seq<Segment>, b: seq<Segment>, i: nat)
    requires Encodes(d, outs, a, |outs|) && Encodes(d, outs, b, |outs|)
    requires i <= |a|
    ensures i <= |b| && a[..i] == b[..i]
  {
    if i > 0 {
      PrefixesAgree(d, outs, a, b, i - 1);
      NextSegmentAgrees(d, outs, a, b, i - 1);
      assert a[..i] == a[..i - 1] + [a[i - 1]];
      assert b[..i] == b[..i - 1] + [b[i - 1]];
    }
  }

  /** The encoding is canonical: the ranges determine the reports. */
  lemma EncodingIsUnique(d: Dev, outs: seq<Chan>, a: seq<Segment>, b: seq<Segment>)
    requires Encodes(d, outs, a, |outs|) && Encodes(d, outs, b, |outs|)
    ensures a == b
  {
    PrefixesAgree(d, outs, a, b, |a|);
    PrefixesAgree(d, outs, b, a, |b|);
    assert a[..|a|] == a && b[..|b|] == b;
  }
}
