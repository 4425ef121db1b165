/** The driver's private record and its handlers, statement by statement
    (hw4cx/include/advdac_slowmo_kinetic_meat.h, hw4cx/include/advdac_cankoz_table_meat.h
    and the dispatching code of hw4cx/drivers/can/src/candac16_drv.c).  Each handler
    is proved to do what DacSpec.Next and DacSpec.Sends say. */
module DacDevice {
  import opened CMath
  import opened AdvDac
  import opened SlowMotion
  import opened DacState
  import opened TableCheck
  import opened DacSpec

  /** What the configuration file gives for one channel. */
  datatype Config = Config(spd: int, tac: int, min: int, max: int)

  function Fresh(g: Config): Chan {
    Chan(0, g.spd, g.min, g.max, 0, 0, g.tac, 0, 0, 0, 0, 0, false, false, false, false, false, false, false)
  }

  /** The state right after initialization. */
  function Initially(d: Dev, cfg: seq<Config>): State
    requires |cfg| == d.n
  {
    State(seq(d.n, i requires 0 <= i < d.n => Fresh(cfg[i])), 0, NONE, Switched(NONE, false), false, 0,
          [], NoValues(d.n), [], 0, Blank, [])
  }

  class DacDevice {
    const d: Dev
    const out: array<Chan>
    var numIsc: int
    var tMode: Mode
    var doTab: seq<Ctl>
    var unicast: bool
    var tabId: int
    var tTimes: seq<int>
    var tVals: seq<seq<int>>
    var tFile: seq<byte>
    var hbtCtr: int
    var status: Status
    ghost var pending: seq<Mode>   // commands in the send queue
    ghost var sent: seq<Out>       // everything sent so far

    ghost predicate Valid()
      reads this
    {
      out.Length == d.n && |tVals| == d.n && |doTab| == 6
    }

    ghost function Snap(): (s: State)
      reads this, out
      requires Valid()
      ensures Shaped(d, s)
    {
      State(out[..], numIsc, tMode, doTab, unicast, tabId, tTimes, tVals, tFile, hbtCtr, status, pending)
    }

    constructor (d: Dev, cfg: seq<Config>)
      requires |cfg| == d.n
      ensures Valid() && fresh(out) && this.d == d
      ensures Snap() == Initially(d, cfg) && sent == []
    {
      this.d := d;
      out := new Chan[d.n](i requires 0 <= i < |cfg| => Fresh(cfg[i]));
      numIsc, tMode, doTab, unicast, tabId := 0, NONE, Switched(NONE, false), false, 0;
      tTimes, tVals, tFile, hbtCtr, status := [], NoValues(d.n), [], 0, Blank;
      pending, sent := [], [];
    }

    // ----- the slow-motion half -----

    /** The value a heartbeat sends to a moving, acknowledged channel.  Ascent and
        descent are separate branches. */
    method RampTarget(c: Chan) returns (val: int, fin: bool)
      ensures val == NextVal(d, c) && fin == (c.fin || Arrives(d, c))
    {
      fin := c.fin;
      if c.tac <= 0 && c.spd == 0 {
        val := c.trg;
        fin := true;
      } else {
        var step := if c.tac > 0 then c.crs else TopSpeed(d, c);
        if c.trg > c.dsr {
          val := c.dsr + step;
          if val >= c.trg {
            val := c.trg;
            fin := true;
          }
        } else {
          val := c.dsr - step;
          if val <= c.trg {
            val := c.trg;
            fin := true;
          }
        }
      }
    }

    /** The speed after a kinetic heartbeat that sent val. */
    method RampSpeed(c: Chan, val: int) returns (crs: int)
      ensures crs == NextSpeed(c, val)
    {
      crs := c.crs;
      if Abs(c.trg - val) <= c.dcd {
        crs := crs - (if crs < c.mxs then c.acs else c.mns);
        if crs < c.mns { crs := c.mns; }
      } else if crs < c.mxs {
        crs := crs + c.acs;
        if crs > c.mxs { crs := c.mxs; }
      }
    }

    method BeatLine(l: nat)
      requires Valid() && l < d.n
      modifies out, this`sent
      ensures out[..] == old(out[..])[l := AfterBeat(d, old(out[l]))]
      ensures sent == old(sent) + BeatSends(d, old(out[l]), l)
    {
      if out[l].isc && out[l].nxt {
        var val, fin := RampTarget(out[l]);
        var crs := out[l].crs;
        if out[l].tac > 0 { crs := RampSpeed(out[l], val); }
        sent := sent + [Wr(l, val, Ramp), Rd(l)];
        out[l] := out[l].(crs := crs, fin := fin, nxt := false, dsr := val);
      }
    }

    method HandleSlowmoHbt()
      requires Valid()
      modifies out, this`sent
      ensures out[..] == AllBeaten(d, old(out[..]))
      ensures sent == old(sent) + RampSends(d, old(out[..]))
    {
      ghost var was := out[..];
      for l := 0 to out.Length
        invariant out[..l] == AllBeaten(d, was)[..l] && out[l..] == was[l..]
        invariant sent == old(sent) + RampSends(d, was[..l])
      {
        assert was[..l + 1][..l] == was[..l] && out[l] == was[l];
        BeatLine(l);
      }
      assert was[..out.Length] == was;
    }

    method HandleTableHbt()
      requires Valid()
      modifies this`sent, this`hbtCtr
      ensures hbtCtr == if AsksStat(d, tMode, old(hbtCtr) + 1) then 0 else old(hbtCtr) + 1
      ensures sent == old(sent) + (if tMode == RUNN then ReadsAff(out[..]) else [])
                      + (if AsksStat(d, tMode, old(hbtCtr) + 1) then [StatRq] else [])
    {
      if tMode == RUNN {
        SendReadsAff();
      }
      hbtCtr := hbtCtr + 1;
      if !Normal(tMode) && (hbtCtr < 0 || hbtCtr >= d.hbFreq) {
        hbtCtr := 0;
        sent := sent + [StatRq];
      }
    }

    method SendReadsAff()
      requires Valid()
      modifies this`sent
      ensures sent == old(sent) + ReadsAff(out[..])
    {
      for l := 0 to out.Length
        invariant sent == old(sent) + ReadsAff(out[..l])
      {
        assert out[..l + 1][..l] == out[..l];
        if out[l].aff {
          sent := sent + [Rd(l)];
        }
      }
      assert out[..out.Length] == out[..];
    }

    method RampWhenMoving()
      requires Valid()
      modifies out, this`sent
      ensures out[..] == if numIsc > 0 then AllBeaten(d, old(out[..])) else old(out[..])
      ensures sent == old(sent) + if numIsc > 0 then RampSends(d, old(out[..])) else []
      ensures ReadsAff(out[..]) == ReadsAff(old(out[..]))
    {
      if numIsc > 0 {
        HandleSlowmoHbt();
        ReadsAffSame(old(out[..]), out[..]);
      }
    }

    /** The heartbeat of the driver: the ramp only when something moves. */
    method Heartbeat()
      requires Valid()
      modifies out, this`sent, this`hbtCtr
      ensures Valid()
      ensures Snap() == Next(d, old(Snap()), Event.Heartbeat)
      ensures sent == old(sent) + Sends(d, old(Snap()), Event.Heartbeat)
    {
      ghost var s := Snap();
      RampWhenMoving();
      HandleTableHbt();
      HeartbeatSendsAre(old(sent), s);
    }

    lemma HeartbeatSendsAre(before: seq<Out>, s: State)
      requires Shaped(d, s)
      ensures before
              + (if s.numIsc > 0 then RampSends(d, s.out) else [])
              + (if s.mode == RUNN then ReadsAff(s.out) else [])
              + (if AsksStat(d, s.mode, s.hbtCtr + 1) then [StatRq] else [])
              == before + Sends(d, s, Event.Heartbeat)
    {
      var ramp := if s.numIsc > 0 then RampSends(d, s.out) else [];
      var back := if s.mode == RUNN then ReadsAff(s.out) else [];
      var asks := if AsksStat(d, s.mode, s.hbtCtr + 1) then [StatRq] else [];
      Assoc(before, ramp, back);
      Assoc(before, ramp + back, asks);
    }

    lemma ReadsAffSame(a: seq<Chan>, b: seq<Chan>)
      requires |a| == |b| && forall i :: 0 <= i < |a| ==> a[i].aff == b[i].aff
      ensures ReadsAff(a) == ReadsAff(b)
    {
      if a != [] {
        ReadsAffSame(a[..|a| - 1], b[..|b| - 1]);
      }
    }

    method HandleSlowmoReadDac(l: nat, val: int)
      requires Valid() && l < d.n
      modifies out, this`numIsc
      ensures Valid()
      ensures Snap() == Next(d, old(Snap()), ReadDac(l, val)) && sent == old(sent)
    {
      var ci := out[l];
      ci := ci.(cur := val, rcv := true, nxt := true);
      if Abs(ci.dsr - ci.cur) >= d.quant + 1 {
        ci := ci.(dsr := ci.cur);
      }
      if ci.fin {
        if ci.isc { numIsc := numIsc - 1; }
        ci := ci.(isc := false);
      }
      if ci.isc && ci.fst {
        ci := ci.(fst := false);
      }
      assert ci == AfterRead(d, out[l], val);
      out[l] := ci;
    }

    /** Clipping of a client's value, as the handlers write it out. */
    method ClipRequest(l: nat, req: int) returns (val: int)
      requires Valid() && l < d.n
      ensures val == Clip(d, out[l], req)
    {
      val := req;
      if val < d.minVal { val := d.minVal; }
      if val > d.maxVal { val := d.maxVal; }
      if out[l].min < out[l].max {
        if val < out[l].min { val := out[l].min; }
        if val > out[l].max { val := out[l].max; }
      }
    }

    method StopSlowmo(l: nat)
      requires Valid() && l < d.n
      modifies out, this`numIsc
      ensures out[..] == old(out[..])[l := old(out[l]).(isc := false)]
      ensures numIsc == old(numIsc) - One(old(out[l]).isc)
    {
      if out[l].isc {
        numIsc := numIsc - 1;
        out[l] := out[l].(isc := false);
      }
    }

    /** Begin a slow move.  The branch that would write at once is unreachable. */
    method InitiateSlow(l: nat, val: int)
      requires Valid() && l < d.n && !Fast(d, out[l], val)
      modifies out, this`numIsc
      ensures out[..] == old(out[..])[l := Begun(d, old(out[l]), val)]
      ensures numIsc == old(numIsc) + 1 - One(old(out[l]).isc)
    {
      var ci := out[l];
      var immed, ccr := DoCalcMovement(d, val, ci);
      if immed {
        assert false;
      }
      if !ci.isc { numIsc := numIsc + 1; }
      out[l] := ci.(mxs := ccr.mxs, crs := ccr.crs, mns := ccr.mns, acs := ccr.acs, dcd := ccr.dcd,
                    dsr := ci.cur, trg := val, isc := true, fst := true, fin := false);
    }

    /** How should the change be performed? */
    method MayJustWrite(ci: Chan, val: int) returns (yes: bool)
      ensures yes == Fast(d, ci, val)
    {
      yes := (!ci.isc || ci.spd == 0 || ci.tac <= 0)
             && (ci.spd == 0
                 || (ci.spd > 0 && Abs(val) < Abs(ci.cur)
                     && (val == 0 || (val > 0 && ci.cur > 0) || (val < 0 && ci.cur < 0)))
                 || Abs(val - ci.cur) < TopSpeed(d, ci));
    }

    method SetOrStart(l: nat, val: int)
      requires Valid() && l < d.n
      modifies out, this`numIsc, this`sent
      ensures out[..] == old(out[..])[l := AfterOut(d, old(out[l]), val)]
      ensures numIsc == old(numIsc) + One(out[l].isc) - One(old(out[l]).isc)
      ensures sent == old(sent) + if Fast(d, old(out[l]), val) then [Wr(l, val, Direct)] else []
    {
      var fast := MayJustWrite(out[l], val);
      if fast {
        sent := sent + [Wr(l, val, Direct)];
        StopSlowmo(l);
      } else {
        InitiateSlow(l, val);
      }
    }

    method HandleSlowmoOutWrite(l: nat, req: int)
      requires Valid() && l < d.n
      modifies out, this`sent, this`numIsc
      ensures Valid()
      ensures Snap() == Next(d, old(Snap()), OutWrite(l, req))
      ensures sent == old(sent) + Sends(d, old(Snap()), OutWrite(l, req))
    {
      if out[l].lkd { return; }
      var val := ClipRequest(l, req);
      SetOrStart(l, val);
      sent := sent + [Rd(l)];
    }

    method HandleSlowmoOutImmWrite(l: nat, req: int)
      requires Valid() && l < d.n
      modifies out, this`sent, this`numIsc
      ensures Valid()
      ensures Snap() == Next(d, old(Snap()), ImmWrite(l, req))
      ensures sent == old(sent) + Sends(d, old(Snap()), ImmWrite(l, req))
    {
      if out[l].lkd { return; }
      StopSlowmo(l);
      var val := ClipRequest(l, req);
      sent := sent + [Wr(l, val, Immediate)];
      sent := sent + [Rd(l)];
    }

    method HandleOutRead(l: nat)
      requires Valid() && l < d.n
      modifies this`sent
      ensures sent == old(sent) + Sends(d, old(Snap()), OutRead(l))
      ensures Sends(d, old(Snap()), OutRead(l)) == Sends(d, old(Snap()), ImmRead(l))
    {
      if !out[l].lkd {
        sent := sent + [Rd(l)];
      }
    }

    method HandleSlowmoOutRateWrite(l: nat, req: int)
      requires Valid() && l < d.n
      modifies out
      ensures Snap() == Next(d, old(Snap()), RateWrite(l, req))
    {
      var val := if Abs(req) < d.quant then 0 else req;
      out[l] := out[l].(spd := val);
    }

    method HandleSlowmoOutTacWrite(l: nat, req: int)
      requires Valid() && l < d.n
      modifies out
      ensures Snap() == Next(d, old(Snap()), TacWrite(l, req))
    {
      var val := req;
      if val < -1 { val := -1; }
      if val > 1000 { val := 1000; }
      out[l] := out[l].(tac := val);
    }

    // ----- the table half -----

    method SetTmode(mode: Mode, message: Status)
      requires Valid()
      modifies this`tMode, this`doTab, this`status
      ensures Valid()
      ensures tMode == mode && doTab == Switched(mode, unicast) && status == message
    {
      tMode := mode;
      doTab := Controls(mode);
      if !unicast {
        doTab := doTab[4 := doTab[4].(off := true)];
        doTab := doTab[5 := doTab[5].(off := true)];
      }
      status := message;
    }

    method ReleaseLine(l: nat)
      requires Valid() && l < d.n
      modifies out, this`sent
      ensures out[..] == old(out[..])[l := old(out[l]).(aff := false, lkd := false)]
      ensures sent == old(sent) + if old(out[l]).aff then [Rd(l)] else []
    {
      if out[l].aff {
        sent := sent + [Rd(l)];
      }
      out[l] := out[l].(aff := false, lkd := false);
    }

    /** Re-read and release every channel of the table. */
    method ReleaseChannels()
      requires Valid()
      modifies out, this`sent
      ensures out[..] == Released(old(out[..]))
      ensures sent == old(sent) + ReadsAff(old(out[..]))
    {
      ghost var was := out[..];
      for l := 0 to out.Length
        invariant out[..l] == Released(was)[..l] && out[l..] == was[l..]
        invariant sent == old(sent) + ReadsAff(was[..l])
      {
        assert was[..l + 1][..l] == was[..l] && out[l] == was[l];
        ReleaseLine(l);
      }
      assert was[..out.Length] == was;
    }

    method WipeTable(wipe: bool)
      requires Valid()
      modifies this`tTimes, this`tVals
      ensures tTimes == if wipe then [] else old(tTimes)
      ensures tVals == if wipe then NoValues(d.n) else old(tVals)
    {
      if wipe {
        tTimes := [];
        tVals := NoValues(d.n);
      }
    }

    method RecreateAndRelease(wipe: bool)
      requires Valid()
      modifies out, this`sent, this`tTimes, this`tVals
      ensures out[..] == Released(old(out[..]))
      ensures tTimes == if wipe then [] else old(tTimes)
      ensures tVals == if wipe then NoValues(d.n) else old(tVals)
      ensures sent == old(sent) + EraseSends(old(Snap()))
    {
      ghost var s := Snap();
      sent := sent + [FileCreate(tabId), FileClose(tabId)];
      WipeTable(wipe);
      ReleaseChannels();
      sent := sent + [StatRq];
      EraseSendsIs(old(sent), s);
    }

    method EraseTable(wipeChannels: bool, message: Status)
      requires Valid()
      modifies out, this`sent, this`tTimes, this`tVals, this`tMode, this`doTab, this`status
      ensures Valid()
      ensures Snap() == Erase(old(Snap()), wipeChannels, message)
      ensures sent == old(sent) + EraseSends(old(Snap()))
    {
      RecreateAndRelease(wipeChannels);
      SetTmode(NONE, message);
    }

    lemma EraseSendsIs(before: seq<Out>, s: State)
      ensures before + [FileCreate(s.tabId), FileClose(s.tabId)] + ReadsAff(s.out) + [StatRq] == before + EraseSends(s)
    {
      Assoc(before, [FileCreate(s.tabId), FileClose(s.tabId)], ReadsAff(s.out));
      Assoc(before, [FileCreate(s.tabId), FileClose(s.tabId)] + ReadsAff(s.out), [StatRq]);
    }

    /** Stage 0 of an activation: mark the affected channels and check everything.
        Only the marks and the status may change. */
    method CheckTable() returns (ok: bool, fc: int)
      requires Valid()
      modifies out, this`status
      ensures Valid()
      ensures ok <==> Acceptable(d, old(Snap()))
      ensures !ok ==> Explains(d, old(Snap()), status)
      ensures out[..] == if |tTimes| < 1 then old(out[..]) else Marked(d, old(Snap()))
      ensures ok ==> status == old(status) && fc == FirstAffected(d, old(Snap()), 0) < d.n
    {
      ghost var s := Snap();
      fc := -1;
      if |tTimes| < 1 {
        status := NoTimes;
        return false, fc;
      }
      fc := MarkAffected();
      if fc < 0 {
        status := NoChannels;
        return false, fc;
      }
      ok := CheckShape(s, fc);
      if !ok { return; }
      ok := CheckJumps(s, fc);
      if !ok { return; }
      ok := CheckSteps(s, fc);
    }

    method MarkAffected() returns (fc: int)
      requires Valid()
      modifies out
      ensures out[..] == Marked(d, old(Snap()))
      ensures -1 <= fc < d.n
      ensures fc < 0 <==> !SomeAffected(d, old(Snap()), d.n)
      ensures fc >= 0 ==> Affected(d, old(Snap()), fc)
      ensures forall i :: 0 <= i < fc ==> !Affected(d, old(Snap()), i)
    {
      ghost var s := Snap();
      fc := -1;
      var l := d.n - 1;
      while l >= 0
        invariant -1 <= l < d.n
        invariant forall i :: 0 <= i <= l ==> out[i] == s.out[i]
        invariant forall i :: l < i < d.n ==> out[i] == s.out[i].(aff := Affected(d, s, i))
        invariant fc == -1 || l < fc < d.n
        invariant fc == -1 ==> forall i :: l < i < d.n ==> !Affected(d, s, i)
        invariant fc >= 0 ==> Affected(d, s, fc) && forall i :: l < i < fc ==> !Affected(d, s, i)
      {
        out[l] := out[l].(aff := |tVals[l]| > 0 && tVals[l][0] > d.disableChan);
        if out[l].aff { fc := l; }
        l := l - 1;
      }
    }

    /** s is the state before the activation; only marks have changed since. */
    ghost predicate MarkedFrom(s: State)
      reads this, out
      requires Valid() && Shaped(d, s)
    {
      out[..] == Marked(d, s) && tTimes == s.times && tVals == s.vals
    }

    method CheckShape(ghost s: State, fc: nat) returns (ok: bool)
      requires Valid() && Shaped(d, s) && MarkedFrom(s) && |s.times| >= 1 && fc < d.n
      requires forall i :: 0 <= i < fc ==> !Affected(d, s, i)
      modifies this`status
      ensures Valid()
      ensures ok ==> Lengths(d, s, d.n) && Curs(d, s, d.n) && status == old(status)
      ensures !ok ==> Explains(d, s, status)
    {
      for l := fc to d.n
        invariant Lengths(d, s, l) && status == old(status)
      {
        if out[l].aff && |tVals[l]| != |tTimes| {
          status := BadLength(l);
          return false;
        }
      }
      for l := fc to d.n
        invariant Curs(d, s, l) && status == old(status)
      {
        if out[l].aff && tVals[l][0] >= d.startFromCur && !out[l].rcv {
          status := NoCurrent(l);
          return false;
        }
      }
      ok := true;
    }

    method CheckJumps(ghost s: State, fc: nat) returns (ok: bool)
      requires Valid() && Shaped(d, s) && MarkedFrom(s) && |s.times| >= 1 && fc < d.n
      requires forall i :: 0 <= i < fc ==> !Affected(d, s, i)
      requires Lengths(d, s, d.n) && Curs(d, s, d.n)
      modifies this`status
      ensures Valid()
      ensures ok ==> Jumps(d, s, d.n) && status == old(status)
      ensures !ok ==> Explains(d, s, status)
    {
      for l := fc to d.n
        invariant Jumps(d, s, l) && status == old(status)
      {
        if out[l].aff && out[l].spd != 0 {
          var prevVal := out[l].cur;
          var nextVal := tVals[l][0];
          if nextVal < d.startFromCur
             && !(Decrement(out[l].spd, nextVal, prevVal)
                  || Abs(nextVal - prevVal) <= TopSpeed(d, out[l])) {
            status := FastJump(l);
            return false;
          }
        }
      }
      ok := true;
    }

    method CheckSteps(ghost s: State, fc: nat) returns (ok: bool)
      requires Valid() && Shaped(d, s) && MarkedFrom(s) && |s.times| >= 1 && fc < d.n
      requires forall i :: 0 <= i < fc ==> !Affected(d, s, i)
      requires Lengths(d, s, d.n) && Curs(d, s, d.n) && Jumps(d, s, d.n)
      modifies this`status
      ensures Valid()
      ensures ok ==> AllSteps(d, s, d.n) && status == old(status)
      ensures !ok ==> Explains(d, s, status)
    {
      for l := fc to d.n
        invariant AllSteps(d, s, l) && status == old(status)
      {
        assert LengthOk(d, s, l);
        if out[l].aff && out[l].spd != 0 {
          var perStep := PerStep(d, out[l]);
          var prevVal := tVals[l][0];
          if prevVal >= d.startFromCur { prevVal := out[l].cur; }
          for tr := 1 to |tTimes|
            invariant status == old(status)
            invariant prevVal == Before(d, s, l, tr)
            invariant StepsOk(d, s, l, tr)
          {
            var nsteps := StepUnits(d, tTimes[tr]);
            var nextVal := tVals[l][tr];
            if !(Decrement(out[l].spd, nextVal, prevVal)
                 || Quot(Abs(nextVal - prevVal), nsteps) <= perStep) {
              status := FastStep(l, tr);
              return false;
            }
            assert StepOk(d, s, l, tr);
            prevVal := nextVal;
          }
        }
      }
      ok := true;
    }

    /** Stage 2: lock the affected channels and take them away from the ramp. */
    method LockLine(l: nat)
      requires Valid() && l < d.n
      modifies out, this`numIsc
      ensures var c := old(out[l]);
        out[..] == old(out[..])[l := c.(lkd := c.aff, isc := c.isc && !c.aff)]
      ensures numIsc - Moving(out[..]) == old(numIsc - Moving(out[..]))
    {
      ghost var was := out[..];
      out[l] := out[l].(lkd := out[l].aff);
      if out[l].aff && out[l].isc {
        numIsc := numIsc - 1;
        out[l] := out[l].(isc := false);
      }
      MovingPut(was, l, out[l]);
      assert out[..] == was[l := out[l]];
    }

    /** Channels below l are taken over, the others only marked. */
    ghost predicate LockedUpTo(s: State, l: nat)
      reads this, out
      requires Valid() && Shaped(d, s) && l <= d.n
    {
      && (forall i :: 0 <= i < l ==> out[i] == Taken(d, s)[i])
      && (forall i :: l <= i < d.n ==> out[i] == s.out[i].(aff := Affected(d, s, i)))
    }

    method LockNext(ghost s: State, l: nat)
      requires Valid() && Shaped(d, s) && FirstAffected(d, s, 0) <= l < d.n && LockedUpTo(s, l)
      modifies out, this`numIsc
      ensures LockedUpTo(s, l + 1)
      ensures numIsc - Moving(out[..]) == old(numIsc - Moving(out[..]))
    {
      LockLine(l);
    }

    method LockChannels(ghost s: State, fc: nat)
      requires Valid() && Shaped(d, s) && MarkedFrom(s) && fc == FirstAffected(d, s, 0) < d.n
      modifies out, this`numIsc
      ensures out[..] == Taken(d, s)
      ensures numIsc == old(numIsc) + Moving(Taken(d, s)) - Moving(s.out)
    {
      MovingSame(out[..], s.out);
      for l := fc to d.n
        invariant LockedUpTo(s, l)
        invariant numIsc - Moving(out[..]) == old(numIsc) - Moving(s.out)
      {
        LockNext(s, l);
      }
      assert out[..] == Taken(d, s);
    }

    /** Stage 3: pre-program the initial values. */
    method SendPresets(ghost s: State, fc: nat)
      requires Valid() && Shaped(d, s) && tVals == s.vals && fc == FirstAffected(d, s, 0) < d.n
      requires out[..] == Taken(d, s)
      modifies this`sent
      ensures sent == old(sent) + Presets(d, s, d.n)
    {
      NoPresets(s, fc);
      for l := fc to d.n
        invariant sent == old(sent) + Presets(d, s, l)
      {
        assert out[l] == Taken(d, s)[l];
        PresetLine(s, l);
      }
    }

    lemma NoPresets(s: State, upTo: nat)
      requires Shaped(d, s) && upTo <= d.n
      requires forall i :: 0 <= i < upTo ==> !Affected(d, s, i)
      ensures Presets(d, s, upTo) == []
    {
      if upTo > 0 { NoPresets(s, upTo - 1); }
    }

    method PresetLine(ghost s: State, l: nat)
      requires Valid() && Shaped(d, s) && tVals == s.vals && l < d.n
      requires out[l].aff == Affected(d, s, l) && out[l].cur == s.out[l].cur
      modifies this`sent
      ensures sent == old(sent)
        + if Affected(d, s, l) then [Wr(l, Initial(d, s, l), Preset), Rd(l)] else []
    {
      if out[l].aff {
        var val := if tVals[l][0] < d.startFromCur then tVals[l][0] else out[l].cur;
        sent := sent + [Wr(l, val, Preset), Rd(l)];
      }
    }

    /** Stage 4: send the file, ending with the close request. */
    lemma OneChunkMore(done: seq<Out>, file: seq<byte>, ofs: nat, k: nat)
      requires ofs < |file| && k == ChunkLen(|file| - ofs)
      ensures ofs + k <= |file|
      ensures done + Chunks(file[ofs..]) ==
              done + [FileData(file[ofs..ofs + k]), Separator] + Chunks(file[ofs + k..])
    {
      var rest := file[ofs..];
      assert rest[..k] == file[ofs..ofs + k] && rest[k..] == file[ofs + k..];
      Assoc(done, [FileData(rest[..k]), Separator], Chunks(rest[k..]));
    }

    method UploadFile()
      requires Valid()
      modifies this`sent
      ensures sent == old(sent) + Upload(tabId, tFile)
    {
      ghost var done := sent + [FileCreate(tabId)];
      sent := sent + [FileCreate(tabId)];
      var fOfs := 0;
      assert tFile[0..] == tFile;
      while fOfs < |tFile|
        invariant 0 <= fOfs <= |tFile|
        invariant sent + Chunks(tFile[fOfs..]) == done + Chunks(tFile)
      {
        var fWrn := |tFile| - fOfs;
        if fWrn > 7 { fWrn := 7; }
        OneChunkMore(sent, tFile, fOfs, fWrn);
        Assoc(sent, [FileData(tFile[fOfs..fOfs + fWrn])], [Separator]);
        sent := sent + [FileData(tFile[fOfs..fOfs + fWrn])];
        sent := sent + [Separator];
        fOfs := fOfs + fWrn;
      }
      assert Chunks(tFile[fOfs..]) == [];
      sent := sent + [FileClose(tabId)];
      UploadIs(old(sent));
    }

    lemma UploadIs(before: seq<Out>)
      ensures before + [FileCreate(tabId)] + Chunks(tFile) + [FileClose(tabId)] == before + Upload(tabId, tFile)
    {
      Assoc(before, [FileCreate(tabId)], Chunks(tFile));
      Assoc(before, [FileCreate(tabId)] + Chunks(tFile), [FileClose(tabId)]);
    }

    /** Stages 1 and 2 for a table that passed the check. */
    method EnterLoad(ghost s: State, fc: nat, crunched: seq<byte>)
      requires Valid() && Shaped(d, s) && Snap() == s.(out := Marked(d, s))
      requires fc == FirstAffected(d, s, 0) < d.n
      modifies out, this`numIsc, this`tFile, this`tMode, this`doTab, this`status
      ensures Valid() && Snap() == Locked(d, s, crunched)
    {
      tFile := crunched;
      SetTmode(LOAD, Activating);
      LockChannels(s, fc);
    }

    /** A one-step table is done already; a longer one is sent to the device. */
    method FinishActivation()
      requires Valid()
      modifies out, this`sent, this`tMode, this`doTab, this`status
      ensures Valid()
      ensures Snap() == Finished(old(Snap()))
      ensures sent == old(sent) + FinishSends(old(Snap()))
    {
      if |tTimes| == 1 {
        SetTmode(ACTV, status);
        SetTmode(NONE, OneStepDone);
        UnlockAll();
      } else {
        UploadFile();
      }
    }

    method ActivateAccepted(ghost s: State, fc: nat, crunched: seq<byte>)
      requires Valid() && Shaped(d, s) && Snap() == s.(out := Marked(d, s))
      requires Acceptable(d, s) && fc == FirstAffected(d, s, 0) < d.n
      modifies out, this`sent, this`numIsc, this`tFile, this`tMode, this`doTab, this`status
      ensures Valid()
      ensures Snap() == Finished(Locked(d, s, crunched))
      ensures sent == old(sent) + ActivationSends(d, s, crunched)
    {
      EnterLoad(s, fc, crunched);
      SendPresets(s, fc);
      FinishActivation();
      Assoc(old(sent), Presets(d, s, d.n), FinishSends(Locked(d, s, crunched)));
    }

    method DoTabActivate(crunched: seq<byte>)
      requires Valid()
      modifies this, out
      ensures Valid()
      ensures Snap() == Activation(d, old(Snap()), crunched)
      ensures sent == old(sent) + ActivationSends(d, old(Snap()), crunched)
    {
      ghost var s := Snap();
      var ok, fc := CheckTable();
      if ok {
        ActivateAccepted(s, fc, crunched);
      } else {
        ExplanationIsUnique(d, s, status, Verdict(d, s));
      }
    }

    method UnlockAll()
      requires Valid()
      modifies out
      ensures out[..] == Unlocked(old(out[..]))
    {
      ghost var was := out[..];
      for l := 0 to out.Length
        invariant forall i :: 0 <= i < l ==> out[i] == was[i].(lkd := false)
        invariant forall i :: l <= i < out.Length ==> out[i] == was[i]
      {
        out[l] := out[l].(lkd := false);
      }
    }

    method HandleFileClose(data: seq<byte>)
      requires Valid()
      modifies this, out
      ensures Valid()
      ensures Snap() == Next(d, old(Snap()), CloseReply(data))
      ensures sent == old(sent) + Sends(d, old(Snap()), CloseReply(data))
    {
      if |data| < 4 { return; }
      if tMode == LOAD {
        if ReplySize(data) == |tFile| {
          SetTmode(ACTV, Ready);
        } else {
          EraseTable(false, SizeMismatch);
        }
      }
    }

    method HandleDacStat(dlc: nat, executing: bool, paused: bool, resuming: bool)
      requires Valid()
      modifies out, this`sent, this`tTimes, this`tVals, this`tMode, this`doTab, this`status
      ensures Valid()
      ensures Snap() == Next(d, old(Snap()), StatReply(dlc, executing, paused, resuming))
      ensures sent == old(sent) + Sends(d, old(Snap()), StatReply(dlc, executing, paused, resuming))
    {
      if dlc < 2 { return; }
      if tMode == RUNN && !executing {
        EraseTable(false, Ended);
      } else if tMode == ACTV && executing {
        SetTmode(RUNN, SawStart);
      } else if tMode == RUNN && paused && !resuming {
        SetTmode(PAUS, SawPause);
      } else if tMode == PAUS && (resuming || !paused) {
        SetTmode(RUNN, SawResume);
      }
    }

    /** A START, PAUSE or RESUME command was sent: follow it. */
    method FollowSent(mode: Mode)
      requires Valid() && mode != NONE
      modifies this`sent, this`tMode, this`doTab, this`status
      ensures Valid()
      ensures tMode == mode && doTab == Switched(mode, unicast)
      ensures status == SentStatus(old(Snap()), mode)
      ensures sent == old(sent) + if mode == PAUS then ReadsAff(out[..]) else []
    {
      SetTmode(mode, if mode == PAUS then Pausing else if mode == RUNN then Starting else status);
      if mode == PAUS {
        SendReadsAff();
      }
    }

    method FollowCommand(mode: Mode)
      requires Valid()
      modifies out, this`sent, this`tTimes, this`tVals, this`tMode, this`doTab, this`status
      ensures Valid()
      ensures Snap() == var s := old(Snap());
        if mode == NONE then Erase(s, false, Stopped) else SetMode(s, mode).(status := SentStatus(s, mode))
      ensures sent == old(sent) + var s := old(Snap());
        if mode == NONE then EraseSends(s) else if mode == PAUS then ReadsAff(s.out) else []
    {
      if mode == NONE { EraseTable(false, Stopped); } else { FollowSent(mode); }
    }

    /** The send queue reports that the k-th waiting table command was sent. */
    method OnSendTabCtlCmd(ghost k: nat, mode: Mode)
      requires Valid() && k < |pending| && pending[k] == mode
      modifies out, this`sent, this`pending, this`tTimes, this`tVals, this`tMode, this`doTab, this`status
      ensures Valid()
      ensures Snap() == Next(d, old(Snap()), CommandSent(k))
      ensures sent == old(sent) + Sends(d, old(Snap()), CommandSent(k))
    {
      ghost var s := Snap();
      pending := pending[..k] + pending[k + 1..];
      sent := sent + [StatRq];
      FollowCommand(mode);
      Assoc(old(sent), [StatRq],
            if mode == NONE then EraseSends(s) else if mode == PAUS then ReadsAff(s.out) else []);
    }

    method HandleTableCommand(cmd: Cmd, crunched: seq<byte>)
      requires Valid() && |crunched| <= d.maxFileBytes
      modifies this, out
      ensures Valid()
      ensures Snap() == Next(d, old(Snap()), Command(cmd, crunched))
      ensures sent == old(sent) + Sends(d, old(Snap()), Command(cmd, crunched))
    {
      if !doTab[CmdIndex(cmd)].off {
        match cmd
        case Drop => EraseTable(true, Dropped);
        case Activate => DoTabActivate(crunched);
        case _ =>
          pending := pending + [CmdTarget(cmd)];
          assert Snap() == old(Snap()).(pending := pending);
          sent := sent + [CtlCmd(cmd, tabId)];
      }
    }

    method HandleTabIdWrite(req: int)
      requires Valid()
      modifies this`tabId
      ensures Valid() && Snap() == Next(d, old(Snap()), TabIdWrite(req))
    {
      if Normal(tMode) {
        var val := req;
        if val < 0 { val := 0; }
        if val > 15 { val := 15; }
        tabId := val;
      }
    }

    method HandleTimesWrite(vs: seq<int>)
      requires Valid()
      modifies this`tTimes
      ensures Valid() && Snap() == Next(d, old(Snap()), TimesWrite(vs))
    {
      if Normal(tMode) {
        var nel := |vs|;
        if nel > d.maxSteps { nel := d.maxSteps; }
        var buf := vs[..nel];
        assert buf == Shorten(d, vs);
        for step := 0 to nel
          invariant |buf| == nel
          invariant forall i :: 0 <= i < step ==> buf[i] == ClampTime(d, vs[i])
          invariant forall i :: step <= i < nel ==> buf[i] == vs[i]
        {
          if buf[step] < 0 {
            buf := buf[step := 0];
          }
          if buf[step] > d.maxStepCount * d.usecsInStep {
            buf := buf[step := d.maxStepCount * d.usecsInStep];
          }
        }
        assert buf == StoredTimes(d, vs);
        tTimes := buf;
      }
    }

    method HandleValsWrite(l: nat, vs: seq<int>)
      requires Valid() && l < d.n
      modifies this`tVals
      ensures Valid() && Snap() == Next(d, old(Snap()), ValsWrite(l, vs))
    {
      if Normal(tMode) {
        var nel := |vs|;
        if nel > d.maxSteps { nel := d.maxSteps; }
        var buf := vs[..nel];
        assert buf == Shorten(d, vs);
        for step := 0 to nel
          invariant |buf| == nel
          invariant forall i :: 0 <= i < step ==> buf[i] == StoredVal(d, out[l], i, vs[i])
          invariant forall i :: step <= i < nel ==> buf[i] == vs[i]
          modifies {}
        {
          if !(step == 0 && (buf[0] <= d.disableChan || buf[0] >= d.startFromCur)) {
            var val := ClipRequest(l, buf[step]);
            buf := buf[step := val];
          }
        }
        assert buf == StoredVals(d, out[l], vs);
        tVals := tVals[l := buf];
      }
    }

    method DoSoftReset()
      requires Valid()
      modifies this`tMode, this`doTab, this`status
      ensures Valid() && Snap() == Next(d, old(Snap()), SoftReset) && sent == old(sent)
    {
      SetTmode(NONE, status);
    }

    method ForgetReceived()
      requires Valid()
      modifies out
      ensures out[..] == Unread(old(out[..]))
    {
      ghost var was := out[..];
      for l := 0 to out.Length
        invariant forall i :: 0 <= i < l ==> out[i] == was[i].(rcv := false)
        invariant forall i :: l <= i < out.Length ==> out[i] == was[i]
      {
        out[l] := out[l].(rcv := false);
      }
    }

    method OnDeviceFound(isReset: bool, unicastOk: bool)
      requires Valid()
      modifies out, this`unicast, this`tMode, this`doTab, this`status
      ensures Valid()
      ensures Snap() == Next(d, old(Snap()), DeviceFound(isReset, unicastOk)) && sent == old(sent)
    {
      unicast := unicastOk;
      if isReset {
        ForgetReceived();
        SetTmode(NONE, status);
      }
    }
  }
}
