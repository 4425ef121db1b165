/** The set-point list walker (sw4cx/drivers/iset_walker_drv.c). */
module Walker {
  import opened CMath

  const MAX_STEPS := 20

  datatype St = UNKNOWN | STOPPED | WALKING

  /** What can be seen from outside. */
  datatype Obs =
    | Began(list: seq<int>)   // START accepted with this list
    | Send(val: int)          // a value sent to the supply
    | Read(val: int)          // a readback of the supply
    | Halted                  // STOP accepted
    | Lost                    // the supply is gone

  datatype Event =
    | OutCur(val: int)
    | OutEcho
    | SubordLost
    | WriteList(vs: seq<int>)
    | Start
    | Stop

  /** list is steps[0..steps_count]; the got flags are the engine's "received". */
  datatype State = State(st: St, step: int, list: seq<int>, gotOut: bool, gotCur: bool, log: seq<Obs>)

  // ----- the driver as functions -----

  function Near(q: int, val: int, target: int): bool {
    Abs(val - target) <= q
  }

  function Say(s: State, o: Obs): State {
    s.(log := s.log + [o])
  }

  function Stopped(s: State): State {
    s.(st := STOPPED, step := -1)
  }

  /** Both readings are there: from UNKNOWN to STOPPED. */
  function Ready(s: State): State {
    if s.st == UNKNOWN && s.gotOut && s.gotCur then Stopped(s) else s
  }

  function OnCur(q: int, s: State, val: int): State {
    var t := Ready(Say(s.(gotCur := true), Read(val)));
    if t.st == WALKING && 0 <= t.step < |t.list| && Near(q, val, t.list[t.step]) then
      if t.step + 1 < |t.list| then Say(t.(step := t.step + 1), Send(t.list[t.step + 1]))
      else Stopped(t.(step := t.step + 1))
    else t
  }

  function OnStart(s: State): State {
    if s.st != STOPPED then s
    else
      var t := Say(s, Began(s.list));
      if s.list == [] then Stopped(t) else Say(t.(st := WALKING, step := 0), Send(s.list[0]))
  }

  function Next(q: int, s: State, e: Event): State {
    match e
    case OutCur(v) => OnCur(q, s, v)
    case OutEcho => Ready(s.(gotOut := true))
    case SubordLost => Say(s.(st := UNKNOWN, gotOut := false, gotCur := false), Lost)
    case WriteList(vs) =>
      if s.st == WALKING then s
      else s.(list := if |vs| > MAX_STEPS then vs[..MAX_STEPS] else vs)
    case Start => OnStart(s)
    case Stop => if s.st == WALKING then Say(Stopped(s), Halted) else s
  }

  // ----- an observer that knows nothing of the driver -----

  /** What a walk should look like: the first value at once, each next value right
      after the previous one has been reached, and nothing else. */
  datatype Watch =
    | Idle
    | Owes(list: seq<int>, i: nat)    // list[i] has to be sent now
    | Waits(list: seq<int>, i: nat)   // list[i] was sent and is not reached yet
    | Bad

  function WatchStep(q: int, w: Watch, o: Obs): Watch {
    match w
    case Idle =>
      (match o
       case Began(list) => if list == [] then Idle else Owes(list, 0)
       case Send(_) => Bad
       case _ => Idle)
    case Owes(list, i) =>
      if i < |list| && o == Send(list[i]) then Waits(list, i) else Bad
    case Waits(list, i) =>
      (match o
       case Began(_) => Bad
       case Send(_) => Bad
       case Read(v) =>
         if i < |list| && list[i] - q <= v <= list[i] + q then (if i + 1 < |list| then Owes(list, i + 1) else Idle)
         else w
       case _ => Idle)
    case Bad => Bad
  }

  function WatchAll(q: int, log: seq<Obs>): Watch {
    if log == [] then Idle else WatchStep(q, WatchAll(q, log[..|log| - 1]), log[|log| - 1])
  }

  /** Values sent since the last START. */
  function SentInWalk(log: seq<Obs>): seq<int> {
    if log == [] then []
    else
      var rest := SentInWalk(log[..|log| - 1]);
      match log[|log| - 1]
      case Began(_) => []
      case Send(v) => rest + [v]
      case _ => rest
  }

  lemma WatchOneMore(q: int, log: seq<Obs>, o: Obs)
    ensures WatchAll(q, log + [o]) == WatchStep(q, WatchAll(q, log), o)
    ensures SentInWalk(log + [o]) ==
      match o case Began(_) => [] case Send(v) => SentInWalk(log) + [v] case _ => SentInWalk(log)
  {
    assert (log + [o])[..|log + [o]| - 1] == log;
  }

  // ----- runs -----

  /** The driver and the observer agree. */
  predicate Inv(q: int, s: State) {
    && |s.list| <= MAX_STEPS
    && (if s.st == WALKING
        then 0 <= s.step < |s.list| && WatchAll(q, s.log) == Waits(s.list, s.step)
             && SentInWalk(s.log) == s.list[..s.step + 1]
        else WatchAll(q, s.log) == Idle)
  }

  /** The value owed is sent. */
  lemma SendOk(q: int, log: seq<Obs>, list: seq<int>, i: nat)
    requires i < |list| && WatchAll(q, log) == Owes(list, i) && SentInWalk(log) == list[..i]
    ensures var more := log + [Send(list[i])];
      WatchAll(q, more) == Waits(list, i) && SentInWalk(more) == list[..i + 1]
  {
    WatchOneMore(q, log, Send(list[i]));
    assert list[..i + 1] == list[..i] + [list[i]];
  }

  lemma ReadOk(q: int, s: State, val: int)
    requires Inv(q, s)
    ensures var more := s.log + [Read(val)];
      && SentInWalk(more) == SentInWalk(s.log)
      && WatchAll(q, more) ==
           if s.st != WALKING then Idle
           else if !Near(q, val, s.list[s.step]) then Waits(s.list, s.step)
           else if s.step + 1 < |s.list| then Owes(s.list, s.step + 1) else Idle
  {
    WatchOneMore(q, s.log, Read(val));
  }

  /** A readback within q of the current value, and no other, sends the next value or
      ends the walk. */
  lemma CurOk(q: int, s: State, val: int)
    requires Inv(q, s)
    ensures var t := OnCur(q, s, val);
      && Inv(q, t)
      && (s.st == WALKING ==>
            if s.list[s.step] - q <= val <= s.list[s.step] + q
            then (if s.step + 1 < |s.list| then t.st == WALKING && t.step == s.step + 1
                  else t.st == STOPPED && SentInWalk(t.log) == s.list)
            else t.st == WALKING && t.step == s.step)
  {
    ReadOk(q, s, val);
    if s.st == WALKING && Near(q, val, s.list[s.step]) {
      if s.step + 1 < |s.list| {
        SendOk(q, s.log + [Read(val)], s.list, s.step + 1);
      } else {
        assert s.list[..s.step + 1] == s.list;
      }
    }
  }

  lemma BeganOk(q: int, s: State)
    requires Inv(q, s) && s.st != WALKING
    ensures var more := s.log + [Began(s.list)];
      && SentInWalk(more) == []
      && WatchAll(q, more) == if s.list == [] then Idle else Owes(s.list, 0)
  {
    WatchOneMore(q, s.log, Began(s.list));
  }

  lemma StartOk(q: int, s: State)
    requires Inv(q, s)
    ensures Inv(q, OnStart(s))
  {
    if s.st == STOPPED {
      BeganOk(q, s);
      if s.list != [] { SendOk(q, s.log + [Began(s.list)], s.list, 0); }
    }
  }

  lemma EndOk(q: int, s: State, t: State, o: Obs)
    requires Inv(q, s) && (o == Lost || o == Halted) && t.st != WALKING && t.list == s.list && t.log == s.log
    ensures Inv(q, Say(t, o))
  {
    WatchOneMore(q, s.log, o);
  }

  /** Every event keeps driver and observer in agreement; a list is frozen while it is
      walked; a walk that ends otherwise than by STOP or loss has sent all of it. */
  lemma StepOk(q: int, s: State, e: Event)
    requires Inv(q, s)
    ensures var t := Next(q, s, e);
      && Inv(q, t)
      && (s.st == WALKING ==> t.list == s.list)
      && (s.st == WALKING && t.st != WALKING && e != Stop && e != SubordLost ==>
            e.OutCur? && t.st == STOPPED && SentInWalk(t.log) == s.list)
  {
    match e
    case OutCur(v) => CurOk(q, s, v);
    case Start => StartOk(q, s);
    case SubordLost => EndOk(q, s, s.(st := UNKNOWN, gotOut := false, gotCur := false), Lost);
    case Stop => EndOk(q, s, Stopped(s), Halted);
    case _ =>
  }

  /** START begins a walk with the first value when the walker is stopped and has a
      list, STOP ends one, and the list written is the first MAX_STEPS values. */
  lemma CommandsAre(q: int, s: State, vs: seq<int>)
    requires Inv(q, s)
    ensures var t := Next(q, s, Start);
      if s.st == STOPPED && s.list != []
      then t.st == WALKING && t.step == 0 && t.log == s.log + [Began(s.list)] + [Send(s.list[0])]
      else t.st == s.st && t.list == s.list
    ensures Next(q, s, Stop).st == if s.st == WALKING then STOPPED else s.st
    ensures var list := Next(q, s, WriteList(vs)).list;
      if s.st == WALKING then list == s.list
      else |list| <= |vs| && list == vs[..|list|] && |list| == Min(20, |vs|)
  {
  }

  /** The walker becomes ready when both readings have come, and the loss of the supply
      makes it unknown again. */
  lemma ReadyIff(q: int, s: State, e: Event)
    requires Inv(q, s)
    ensures Next(q, s, e).st != UNKNOWN <==>
      e != SubordLost && (s.st != UNKNOWN || ((s.gotOut || e == OutEcho) && (s.gotCur || e.OutCur?) && (e.OutCur? || e == OutEcho)))
  {
  }

  function Initially(): State {
    State(UNKNOWN, 0, [], false, false, [])
  }

  function Run(q: int, s: State, es: seq<Event>): State {
    if es == [] then s else Next(q, Run(q, s, es[..|es| - 1]), es[|es| - 1])
  }

  /** In every run the observer never sees anything wrong. */
  lemma {:induction false} RunIsGood(q: int, es: seq<Event>)
    ensures Inv(q, Run(q, Initially(), es)) && WatchAll(q, Run(q, Initially(), es).log) != Bad
  {
    if es != [] {
      RunIsGood(q, es[..|es| - 1]);
      StepOk(q, Run(q, Initially(), es[..|es| - 1]), es[|es| - 1]);
    }
  }

  // ----- when a walk can be finished -----

  /** The number after the device's name in the configuration, if there is one. */
  datatype Number = Absent | Given(n: int)

  const DEFAULT_Q := 305

  /** The tolerance after configuration: the check looks at the tolerance that is there
      already, not at the number given. */
  function Tolerance(number: Number): int {
    if number.Given? && DEFAULT_Q >= 0 then number.n else DEFAULT_Q
  }

  lemma ToleranceIs(number: Number)
    ensures Tolerance(number) == match number case Absent => 305 case Given(n) => n
  {
  }

  /** Nobody stops the walk and the supply stays. */
  predicate Undisturbed(es: seq<Event>) {
    forall e :: e in es ==> e != Stop && e != SubordLost
  }

  /** n readbacks that hit the values from the i-th on exactly. */
  function Hits(list: seq<int>, i: nat, n: nat): seq<Event>
    requires i + n <= |list|
  {
    if n == 0 then [] else Hits(list, i, n - 1) + [OutCur(list[i + n - 1])]
  }

  lemma {:induction false} HitsUndisturbed(list: seq<int>, i: nat, n: nat)
    requires i + n <= |list|
    ensures Undisturbed(Hits(list, i, n))
  {
    if n > 0 { HitsUndisturbed(list, i, n - 1); }
  }

  lemma RunOneMore(q: int, s: State, es: seq<Event>, e: Event)
    ensures Run(q, s, es + [e]) == Next(q, Run(q, s, es), e)
  {
    assert (es + [e])[..|es + [e]| - 1] == es;
  }

  /** The walk of a list is at value i. */
  predicate At(list: seq<int>, i: nat, s: State) {
    s.st == WALKING && s.list == list && s.step == i < |list|
  }

  /** A readback that hits the current value. */
  lemma HitStep(q: int, list: seq<int>, i: nat, s: State)
    requires At(list, i, s) && q >= 0
    ensures var t := Next(q, s, OutCur(list[i]));
      if i + 1 < |list| then At(list, i + 1, t) else t.st == STOPPED
  {
  }

  lemma {:induction false} HitsWalk(q: int, list: seq<int>, i: nat, s: State, n: nat)
    requires At(list, i, s) && q >= 0 && i + n < |list|
    ensures At(list, i + n, Run(q, s, Hits(list, i, n)))
  {
    if n > 0 {
      var before := Hits(list, i, n - 1);
      HitsWalk(q, list, i, s, n - 1);
      RunOneMore(q, s, before, OutCur(list[i + n - 1]));
      HitStep(q, list, i + n - 1, Run(q, s, before));
    }
  }

  lemma HitsFinish(q: int, list: seq<int>, i: nat, s: State, n: nat)
    requires At(list, i, s) && q >= 0 && i + n + 1 == |list|
    ensures Run(q, s, Hits(list, i, n + 1)).st == STOPPED
  {
    var before := Hits(list, i, n);
    HitsWalk(q, list, i, s, n);
    RunOneMore(q, s, before, OutCur(list[i + n]));
    HitStep(q, list, i + n, Run(q, s, before));
  }

  /** With a negative tolerance no readback is ever near, so a walk stays at its value
      in every run without STOP and loss of the supply. */
  lemma {:induction false} StuckForever(q: int, list: seq<int>, i: nat, s: State, es: seq<Event>)
    requires At(list, i, s) && q < 0 && Undisturbed(es)
    ensures At(list, i, Run(q, s, es))
  {
    if es != [] {
      var e, before := es[|es| - 1], es[..|es| - 1];
      assert e in es && forall x :: x in before ==> x in es;
      StuckForever(q, list, i, s, before);
      StuckStep(q, list, i, Run(q, s, before), e);
    }
  }

  lemma StuckStep(q: int, list: seq<int>, i: nat, s: State, e: Event)
    requires At(list, i, s) && q < 0 && e != Stop && e != SubordLost
    ensures At(list, i, Next(q, s, e))
  {
  }

  /** Some run without STOP and loss of the supply ends the walk. */
  ghost predicate CanFinish(q: int, s: State) {
    exists es :: Undisturbed(es) && Run(q, s, es).st != WALKING
  }

  /** A walk can end by itself if and only if the tolerance is not negative. */
  lemma FinishesIffTolerant(q: int, s: State)
    requires s.st == WALKING && 0 <= s.step < |s.list|
    ensures CanFinish(q, s) <==> q >= 0
  {
    if q >= 0 {
      var n := |s.list| - s.step;
      HitsUndisturbed(s.list, s.step, n);
      HitsFinish(q, s.list, s.step, s, n - 1);
    } else {
      forall es | Undisturbed(es) ensures Run(q, s, es).st == WALKING {
        StuckForever(q, s.list, s.step, s, es);
      }
    }
  }

  /** In a driver as configured, a walk can end by itself unless the configuration
      gives a negative number: that number is accepted. */
  lemma ConfiguredFinishesIff(number: Number, s: State)
    requires Inv(Tolerance(number), s) && s.st == WALKING
    ensures CanFinish(Tolerance(number), s) <==> !(number.Given? && number.n < 0)
  {
    FinishesIffTolerant(Tolerance(number), s);
  }

  // ----- the driver's record -----

  class WalkerDevice {
    const q: int
    const steps: array<int>
    var st: St
    var curStep: int
    var stepsCount: int
    var gotOut: bool
    var gotCur: bool
    ghost var log: seq<Obs>

    ghost predicate Valid()
      reads this, steps
    {
      && steps.Length == MAX_STEPS && 0 <= stepsCount <= MAX_STEPS
      && (st == WALKING ==> 0 <= curStep < stepsCount)
    }

    ghost function Snap(): State
      reads this, steps
      requires Valid()
    {
      State(st, curStep, steps[..stepsCount], gotOut, gotCur, log)
    }

    constructor (number: Number)
      ensures Valid() && fresh(steps) && this.q == Tolerance(number) && Snap() == Initially()
    {
      var tolerance := DEFAULT_Q;
      if number.Given? && tolerance >= 0 { tolerance := number.n; }
      this.q := tolerance;
      steps := new int[MAX_STEPS](i => 0);
      st, curStep, stepsCount, gotOut, gotCur, log := UNKNOWN, 0, 0, false, false, [];
    }

    method StartStep()
      requires steps.Length == MAX_STEPS && 0 <= curStep < stepsCount <= MAX_STEPS
      modifies this`log
      ensures log == old(log) + [Send(steps[curStep])]
    {
      log := log + [Send(steps[curStep])];
    }

    method SwchToStopped()
      modifies this`st, this`curStep
      ensures st == STOPPED && curStep == -1
    {
      st := STOPPED;
      curStep := -1;
    }

    method SwchToWalking()
      requires Valid() && st == STOPPED
      modifies this`st, this`curStep, this`log
      ensures Valid() && Snap() == OnStart(old(Snap()))
    {
      log := log + [Began(steps[..stepsCount])];
      st := WALKING;
      if stepsCount <= 0 {
        SwchToStopped();
        return;
      }
      curStep := 0;
      StartStep();
    }

    method BecomeReady()
      modifies this`st, this`curStep
      ensures if old(st) == UNKNOWN && gotOut && gotCur then st == STOPPED && curStep == -1
              else st == old(st) && curStep == old(curStep)
    {
      if st == UNKNOWN && gotOut && gotCur { SwchToStopped(); }
    }

    method OnOutCur(val: int)
      requires Valid()
      modifies this
      ensures Valid() && Snap() == Next(q, old(Snap()), OutCur(val))
    {
      gotCur := true;
      log := log + [Read(val)];
      BecomeReady();
      if st == WALKING && Abs(val - steps[curStep]) <= q {
        curStep := curStep + 1;
        if curStep < stepsCount { StartStep(); } else { SwchToStopped(); }
      }
    }

    method OnOut()
      requires Valid()
      modifies this
      ensures Valid() && Snap() == Next(q, old(Snap()), OutEcho)
    {
      gotOut := true;
      BecomeReady();
    }

    method OnSubordLost()
      requires Valid()
      modifies this
      ensures Valid() && Snap() == Next(q, old(Snap()), SubordLost)
    {
      gotOut, gotCur := false, false;
      st := UNKNOWN;
      log := log + [Lost];
    }

    method WriteListChannel(vs: seq<int>)
      requires Valid()
      modifies this, steps
      ensures Valid() && Snap() == Next(q, old(Snap()), WriteList(vs))
    {
      if st != WALKING {
        stepsCount := |vs|;
        if stepsCount > steps.Length { stepsCount := steps.Length; }
        for i := 0 to stepsCount
          invariant forall k :: 0 <= k < i ==> steps[k] == vs[k]
          modifies steps
        {
          steps[i] := vs[i];
        }
        assert steps[..stepsCount] == vs[..stepsCount];
      }
    }

    method WriteStart()
      requires Valid()
      modifies this
      ensures Valid() && Snap() == Next(q, old(Snap()), Start)
    {
      if st == STOPPED { SwchToWalking(); }
    }

    method WriteStop()
      requires Valid()
      modifies this
      ensures Valid() && Snap() == Next(q, old(Snap()), Stop)
    {
      if st == WALKING {
        SwchToStopped();
        log := log + [Halted];
      }
    }
  }
}
