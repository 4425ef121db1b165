/** The power-supply driver's record, its entry points and the engine's loop, proved
    to behave like IstState.Next (sw4cx/drivers/ist_cdac20_drv.c:195-479 and 661-831,
    4cx/src/lib/vdev/vdev.c:53-125, 197-224 and 383-443). */
module IstDevice {
  import opened CMath
  import opened IstState

  class IstDevice {
    const reversable: bool
    const bipolar: bool
    const minHw: int
    const maxHw: int
    var st: St
    var outCur: int
    var opr: int
    var polarity: int
    var ilk: seq<int>
    var rcvd: set<Reading>
    var outVal: int
    var outValSet: bool
    var curSign: int
    var rqdSign: int
    ghost var seenPol: int   // the polarity reading that curSign was taken from
    var cIlks: seq<int>
    ghost var last: Lines      // last value sent to each line
    ghost var log: seq<Sent>   // everything sent

    ghost predicate Valid()
      reads this
    {
      |ilk| == ILK_COUNT && |cIlks| == ILK_COUNT
    }

    ghost function Snap(): Ps
      reads this
    {
      Ps(reversable, bipolar, minHw, maxHw, st, outCur, opr, polarity, ilk, rcvd,
         outVal, outValSet, curSign, rqdSign, seenPol, cIlks, last, log)
    }

    constructor (reversable: bool, bipolar: bool, minHw: int, maxHw: int, ghost left: Lines)
      ensures Valid() && Snap() == Initially(reversable, bipolar, minHw, maxHw, left)
    {
      this.reversable, this.bipolar, this.minHw, this.maxHw := reversable, bipolar, minHw, maxHw;
      st, rcvd, outCur, opr, polarity := UNKNOWN, {}, 0, 0, 0;
      ilk, cIlks := seq(ILK_COUNT, i => 0), seq(ILK_COUNT, i => 0);
      outVal, outValSet, curSign, rqdSign, seenPol := 0, false, 1, 0, 0;
      last, log := left, [];
    }

    // ----- sending -----

    method SndCVal(ghost prev: St, line: Line, val: int)
      modifies this`last, this`log
      ensures Snap() == Snd(old(Snap()), prev, line, val)
    {
      log := log + [Record(Snap(), prev, line, val)];
      last := SetLine(last, line, val);
    }

    method SwitchAllOff(ghost prev: St)
      modifies this`last, this`log
      ensures Snap() == AllOff(old(Snap()), prev)
    {
      SndCVal(prev, OUT, 0);
      SndCVal(prev, OUT_IMM, 0);
      SndCVal(prev, SWITCH_ON, 0);
      SndCVal(prev, ENABLE, 0);
    }

    method DropCIlks()
      requires Valid()
      modifies this`cIlks
      ensures Valid() && cIlks == seq(|old(cIlks)|, i => 0)
    {
      for x := 0 to ILK_COUNT
        invariant |cIlks| == ILK_COUNT && forall i :: 0 <= i < x ==> cIlks[i] == 0
      {
        cIlks := cIlks[x := 0];
      }
    }

    // ----- guards -----

    method IlksAreFree() returns (free: bool)
      requires Valid()
      ensures free == IlkFree(Snap())
    {
      free := true;
      for x := 0 to ILK_COUNT
        invariant free <==> forall n :: 0 <= n < x ==> ilk[n] == 0
      {
        if ilk[x] != 0 { free := false; }
      }
    }

    /** The guard of RV_CHK: takes over the polarity seen, also when it says no. */
    method IsAlwdRvChk() returns (ok: bool)
      modifies this`curSign, this`seenPol
      ensures ok == Allowed(old(Snap()), RV_CHK) && Snap() == Asked(old(Snap()), RV_CHK)
    {
      seenPol := SeenPol(Snap());
      if polarity < -POLARITY_LEVEL {
        curSign := -1;
      } else if polarity > POLARITY_LEVEL {
        curSign := 1;
      } else {
        return false;
      }
      ok := curSign == rqdSign;
    }

    method IsAlwd(s: St) returns (ok: bool)
      requires Valid()
      modifies this`curSign, this`seenPol
      ensures ok == Allowed(old(Snap()), s) && Snap() == Asked(old(Snap()), s)
    {
      match s
      case RST_ILK_CHK => ok := IlksAreFree();
      case SW_ON_ENABLE =>
        var free := IlksAreFree();
        ok := (st == IS_OFF || st == CUT_OFF || st == INTERLOCK) && outCur == 0 && free;
      case RV_CHK => ok := IsAlwdRvChk();
      case RST_ILK_SET => ok := st == INTERLOCK || st == RST_ILK_SET || st == RST_ILK_DRP || st == RST_ILK_CHK;
      case SW_ON_UP => ok := opr != 0;
      case IS_ON =>
        ok := if reversable then Abs(outCur) - Abs(outVal) <= 305 else Abs(outCur - outVal) <= 305;
      case SW_OFF_DOWN =>
        ok := st == IS_ON || st == SW_ON_ENABLE || st == SW_ON_SET_ON || st == SW_ON_DRP_ON || st == SW_ON_UP
              || opr != 0 || outCur != 0;
      case SW_OFF_CHK_I => ok := outCur == 0;
      case SW_OFF_CHK_E => ok := opr == 0;
      case RV_SET_DO => ok := outCur == 0;
      case _ => ok := true;
    }

    // ----- entering states -----

    method SwchToDetermine()
      requires Valid() && st == DETERMINE
      modifies this
      ensures Valid() && Snap() == SwchTo(old(Snap()), DETERMINE, DETERMINE)
      decreases Rank(DETERMINE), 0
    {
      seenPol := if reversable then SeenPol(Snap()) else 0;
      if reversable {
        if polarity < -POLARITY_LEVEL {
          curSign := -1;
        } else if polarity > POLARITY_LEVEL {
          curSign := 1;
        }
      } else {
        curSign := 1;
      }
      if !outValSet {
        outVal := outCur * curSign;
        outValSet := true;
      }
      assert Snap() == Determined(old(Snap()));
      if opr != 0 { EngineSetState(IS_ON); } else { EngineSetState(IS_OFF); }
    }

    method SwchToUp(ghost prev: St)
      requires Valid() && st == SW_ON_UP
      modifies this
      ensures Valid() && Snap() == SwchTo(old(Snap()), SW_ON_UP, prev)
      decreases Rank(SW_ON_UP), 0
    {
      if reversable && Sign(outVal) != 0 && Sign(outVal) != curSign {
        EngineSetState(RV_ZERO);
        return;
      }
      SndCVal(prev, OUT, if reversable then Abs(outVal) else outVal);
    }

    method SwchToReset(nxt: St, ghost prev: St)
      requires Valid() && (nxt == RST_ILK_SET || nxt == RST_ILK_DRP)
      modifies this`cIlks, this`last, this`log
      ensures Valid() && Snap() == SwchTo(old(Snap()), nxt, prev)
    {
      if nxt == RST_ILK_SET {
        SndCVal(prev, RST_B2, 1);
        SndCVal(prev, RST_B3, 1);
      } else {
        DropCIlks();
        SndCVal(prev, RST_B2, 0);
        SndCVal(prev, RST_B3, 0);
      }
    }

    method SwchToDown(prev: St)
      requires Valid()
      modifies this`last, this`log
      ensures Snap() == SwchTo(old(Snap()), SW_OFF_DOWN, prev)
    {
      SndCVal(prev, OUT, 0);
      if prev != IS_ON { SndCVal(prev, SWITCH_ON, 0); }
    }

    method SwchToReverse(nxt: St, ghost prev: St)
      requires Valid() && (nxt == RV_ZERO || nxt == RV_SET_DO || nxt == RV_DRP_DO)
      modifies this`rqdSign, this`last, this`log
      ensures Snap() == SwchTo(old(Snap()), nxt, prev)
    {
      if nxt == RV_ZERO {
        rqdSign := Sign(outVal);
        assert Snap() == old(Snap()).(rqdSign := Sign(outVal));
        SndCVal(prev, OUT, 0);
      } else {
        var line := if rqdSign < 0 then REVERSE_ON else REVERSE_OFF;
        if nxt == RV_SET_DO { SndCVal(prev, line, 1); } else { SndCVal(prev, line, 0); }
      }
    }

    /** The swch_to of the state table. */
    method CallSwchTo(nxt: St, prev: St)
      requires Valid() && st == nxt
      modifies this
      ensures Valid() && Snap() == SwchTo(old(Snap()), nxt, prev)
      decreases Rank(nxt), 1
    {
      match nxt
      case UNKNOWN => rcvd := {};
      case DETERMINE => SwchToDetermine();
      case INTERLOCK => SwitchAllOff(prev);
      case CUT_OFF => SwitchAllOff(prev);
      case RST_ILK_SET => SwchToReset(nxt, prev);
      case RST_ILK_DRP => SwchToReset(nxt, prev);
      case SW_ON_ENABLE => SndCVal(prev, ENABLE, 1);
      case SW_ON_SET_ON => SndCVal(prev, SWITCH_ON, 1);
      case SW_ON_DRP_ON => SndCVal(prev, SWITCH_ON, 0);
      case SW_ON_UP => SwchToUp(prev);
      case SW_OFF_DOWN => SwchToDown(prev);
      case SW_OFF_CHK_I => SndCVal(prev, ENABLE, 0);
      case RV_ZERO => SwchToReverse(nxt, prev);
      case RV_SET_DO => SwchToReverse(nxt, prev);
      case RV_DRP_DO => SwchToReverse(nxt, prev);
      case _ =>
    }

    method Enter(nxt: St)
      requires Valid()
      modifies this
      ensures Valid() && Snap() == Entered(old(Snap()), nxt)
      decreases Rank(nxt), 2
    {
      var prev := st;
      st := nxt;
      CallSwchTo(nxt, prev);
    }

    /** vdev_set_state(): one state after another as long as there is no delay. */
    method EngineSetState(target: St)
      requires Valid()
      modifies this
      ensures Valid() && Snap() == SetState(old(Snap()), target)
      decreases Rank(target), 3
    {
      var nxt := target;
      var go := true;
      while go
        invariant Valid() && (go ==> Rank(nxt) <= Rank(target))
        invariant (if go then SetState(Snap(), nxt) else Snap()) == SetState(old(Snap()), target)
        decreases go, Rank(nxt)
      {
        if nxt == st { return; }
        Enter(nxt);
        go := false;
        if st == nxt && HasNext(nxt) && Instant(nxt) {
          go := IsAlwd(NextOf(nxt));
          nxt := NextOf(nxt);
        }
      }
    }

    // ----- entry points -----

    method NoteInterlock(n: nat, val: int)
      requires Valid() && n < ILK_COUNT
      modifies this`cIlks
      ensures cIlks == if val != 0 then old(cIlks)[n := val] else old(cIlks)
    {
      if val != 0 && cIlks[n] != val {
        cIlks := cIlks[n := val];
      }
    }

    method OnInterlock(n: nat, val: int)
      requires Valid() && n < ILK_COUNT && st != UNKNOWN
      modifies this
      ensures Valid() && Snap() == SodcCb(old(Snap()), RIlk(n), val)
    {
      NoteInterlock(n, val);
      assert Snap() == old(Snap()).(cIlks := cIlks);
      if val != 0 && st != RST_ILK_SET && st != RST_ILK_DRP && st != RST_ILK_CHK {
        EngineSetState(INTERLOCK);
      }
    }

    method DriverSodcCb(r: Reading, val: int)
      requires Valid() && (r.RIlk? ==> r.n < ILK_COUNT)
      modifies this
      ensures Valid() && Snap() == SodcCb(old(Snap()), r, val)
    {
      if st == UNKNOWN { return; }
      if r.RIlk? {
        OnInterlock(r.n, val);
      } else if r == ROpr && val == 0 && (st == SW_ON_DRP_ON || st == SW_ON_UP || st == IS_ON) {
        EngineSetState(CUT_OFF);
      }
    }

    method TakeReading(r: Reading, val: int)
      requires Valid() && (r.RIlk? ==> r.n < ILK_COUNT)
      modifies this`rcvd, this`outCur, this`opr, this`polarity, this`ilk
      ensures Valid() && Snap() == Took(old(Snap()), r, val)
    {
      rcvd := rcvd + {r};
      match r
      case ROutCur => outCur := val;
      case ROpr => opr := val;
      case RPolarity => polarity := val;
      case RIlk(n) => ilk := ilk[n := val];
      case _ =>
    }

    method TryNext()
      requires Valid()
      modifies this
      ensures Valid() && Snap() == TryState(old(Snap()), NextOf(old(st)))
    {
      var next := NextOf(st);
      var ok := IsAlwd(next);
      if ok { EngineSetState(next); }
    }

    /** sodc_evproc(): a reading arrives; late says whether the delay is over. */
    method OnReading(r: Reading, val: int, late: bool)
      requires Valid() && Deliverable(Update(r, val, late))
      modifies this
      ensures Valid() && Snap() == Next(old(Snap()), Update(r, val, late))
    {
      TakeReading(r, val);
      if st == UNKNOWN && rcvd >= IMPORTANT {
        EngineSetState(DETERMINE);
      }
      DriverSodcCb(r, val);
      if st == UNKNOWN { return; }
      if HasNext(st) && (Instant(st) || late) && Important(NextOf(st), r) && Guarded(NextOf(st)) {
        TryNext();
      }
    }

    /** vdev_work_hbt(). */
    method OnHeartbeat(late: bool)
      requires Valid()
      modifies this
      ensures Valid() && Snap() == Next(old(Snap()), Tick(late))
    {
      if HasNext(st) && !Instant(st) && late { TryNext(); }
    }

    /** stat_evproc(): the subordinate device is lost. */
    method OnSubordLost()
      requires Valid()
      modifies this
      ensures Valid() && Snap() == Next(old(Snap()), SubordLost)
    {
      rcvd := {};
      EngineSetState(UNKNOWN);
    }

    method ClipSetpoint(req: int) returns (val: int)
      ensures val == ClipIset(Snap(), req)
    {
      val := req;
      if minHw < maxHw {
        if val < minHw { val := minHw; }
        if val > maxHw { val := maxHw; }
      }
      if val > MAX_ALWD_VAL { val := MAX_ALWD_VAL; }
      if val < MIN_ALWD_VAL { val := MIN_ALWD_VAL; }
      if val < 0 && !(reversable || bipolar) { val := 0; }
    }

    method WriteSetpoint(req: int)
      requires Valid()
      modifies this
      ensures Valid() && Snap() == Next(old(Snap()), WriteIset(req))
    {
      var val := ClipSetpoint(req);
      outVal := val;
      outValSet := true;
      if st == IS_ON || st == SW_ON_UP {
        if reversable && Sign(outVal) != 0 && Sign(outVal) != curSign {
          EngineSetState(RV_ZERO);
        } else {
          SndCVal(st, OUT, if reversable then Abs(outVal) else outVal);
        }
      }
    }

    /** A command channel tied to a state: obeyed if the guard of the state agrees. */
    method WriteCommand(e: Event, target: St)
      requires Valid()
      requires (e == CmdSwitchOn && target == SW_ON_ENABLE) || (e == CmdSwitchOff && target == SW_OFF_DOWN)
            || (e == CmdRstIlks && target == RST_ILK_SET)
      modifies this
      ensures Valid() && Snap() == Next(old(Snap()), e)
    {
      var ok := IsAlwd(target);
      if ok { EngineSetState(target); }
    }

    method WriteResetState()
      requires Valid()
      modifies this
      ensures Valid() && Snap() == Next(old(Snap()), CmdResetState)
    {
      EngineSetState(DETERMINE);
    }

    method WriteResetCIlks()
      requires Valid()
      modifies this`cIlks
      ensures Valid() && Snap() == Next(old(Snap()), CmdResetCIlks)
    {
      DropCIlks();
    }
  }
}
