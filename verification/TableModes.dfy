/** The table mode machine over whole runs
    (hw4cx/include/advdac_cankoz_table_meat.h:66-99, 355-461 and 510-613). */
module TableModes {
  import opened AdvDac
  import opened DacState
  import opened TableCheck
  import opened DacSpec
  import opened DacSafety

  // ----- what is frozen while a table is loaded -----

  /** The table, its file and the set of channels it holds are the same. */
  predicate SameTable(s: State, t: State) {
    && t.times == s.times && t.vals == s.vals && t.file == s.file && t.tabId == s.tabId
    && |t.out| == |s.out|
    && forall l :: 0 <= l < |s.out| ==> t.out[l].aff == s.out[l].aff && t.out[l].lkd == s.out[l].lkd
  }

  lemma CommandSameTable(d: Dev, s: State, cmd: Cmd, crunched: seq<byte>)
    requires Inv(d, s) && !Normal(s.mode) && !Normal(AfterCommand(d, s, cmd, crunched).mode)
    ensures SameTable(s, AfterCommand(d, s, cmd, crunched))
  {
    if Enabled(s, cmd) { EnabledIff(d, s, cmd); }
  }

  lemma TableSameTable(d: Dev, s: State, e: Event)
    requires Inv(d, s) && Deliverable(d, s, e) && !Normal(s.mode) && !Normal(TableNext(d, s, e).mode)
    ensures SameTable(s, TableNext(d, s, e))
  {
    match e
    case Command(cmd, crunched) => CommandSameTable(d, s, cmd, crunched);
    case _ =>
  }

  /** Events of the slow-motion half do not touch the table. */
  predicate TableEvent(e: Event) {
    match e
    case Heartbeat => false case ReadDac(_, _) => false case OutWrite(_, _) => false case ImmWrite(_, _) => false
    case RateWrite(_, _) => false case TacWrite(_, _) => false case OutRead(_) => false case ImmRead(_) => false
    case _ => true
  }

  lemma OtherSameTable(d: Dev, s: State, e: Event)
    requires Shaped(d, s) && Deliverable(d, s, e) && !TableEvent(e)
    ensures SameTable(s, Next(d, s, e))
  {
  }

  lemma StepSameTable(d: Dev, s: State, e: Event, t: State)
    requires Inv(d, s) && Step(d, s, e, t) && !Normal(s.mode) && !Normal(t.mode)
    ensures SameTable(s, t)
  {
    if TableEvent(e) { TableSameTable(d, s, e); } else { OtherSameTable(d, s, e); }
  }

  lemma NextFrozen(h: GoodRun, i: nat, j: nat)
    requires i < j <= |h.es| && !Normal(h.ss[j - 1].mode) && !Normal(h.ss[j].mode)
    requires SameTable(h.ss[i], h.ss[j - 1])
    ensures SameTable(h.ss[i], h.ss[j])
  {
    RunInv(h, j - 1);
    StepSameTable(h.d, h.ss[j - 1], h.es[j - 1], h.ss[j]);
  }

  /** From an activation until the mode is NONE again the table does not change, nor
      does the set of affected and locked channels. */
  lemma {:induction false} TableIsFrozen(h: GoodRun, i: nat, j: nat)
    requires i <= j <= |h.es|
    requires forall x :: i <= x <= j ==> !Normal(h.ss[x].mode)
    ensures SameTable(h.ss[i], h.ss[j])
  {
    if i < j {
      TableIsFrozen(h, i, j - 1);
      NextFrozen(h, i, j);
    }
  }

  // ----- atomic commands -----

  /** A command is sent (its callback runs) before anything else happens. */
  predicate Atomic(s: State, e: Event) {
    s.pending == [] || (|s.pending| == 1 && e == CommandSent(0))
  }

  /** The mode a waiting command will lead to suits the present mode. */
  predicate Suits(m: Mode, next: Mode) {
    match next
    case RUNN => m == ACTV || m == PAUS
    case PAUS => m == RUNN
    case NONE => m == ACTV || m == RUNN || m == PAUS
    case _ => false
  }

  /** The edges of the mode graph, each with what takes it. */
  predicate Edge(d: Dev, s: State, e: Event, t: State)
    requires Shaped(d, s) && Deliverable(d, s, e)
  {
    || t.mode == s.mode
    || (t.mode == LOAD && Normal(s.mode)
        && e.Command? && e.cmd == Activate && Acceptable(d, s) && |s.times| > 1 && t.file == e.crunched)
    || (t.mode == ACTV && s.mode == LOAD
        && e.CloseReply? && |e.data| >= 4 && ReplySize(e.data) == |s.file|)
    || (t.mode == RUNN && s.mode == ACTV
        && ((e.StatReply? && e.executing) || (e.CommandSent? && s.pending[e.k] == RUNN)))
    || (t.mode == PAUS && s.mode == RUNN
        && ((e.StatReply? && e.executing && e.paused && !e.resuming) || (e.CommandSent? && s.pending[e.k] == PAUS)))
    || (t.mode == RUNN && s.mode == PAUS
        && ((e.StatReply? && (e.resuming || !e.paused)) || (e.CommandSent? && s.pending[e.k] == RUNN)))
    || (t.mode == NONE && Ends(d, s, e))
  }

  /** What returns to NONE: DROP, a one-step table, an answer of the wrong size, the
      end of execution, STOP, and a reset. */
  predicate Ends(d: Dev, s: State, e: Event)
    requires Shaped(d, s) && Deliverable(d, s, e)
  {
    match e
    case Command(cmd, _) =>
      || (cmd == Drop && (s.mode == PREP || s.mode == ACTV))
      || (cmd == Activate && s.mode == PREP && Acceptable(d, s) && |s.times| == 1)
    case CloseReply(data) => s.mode == LOAD && |data| >= 4 && ReplySize(data) != |s.file|
    case StatReply(dlc, executing, _, _) => s.mode == RUNN && dlc >= 2 && !executing
    case CommandSent(k) => s.pending[k] == NONE && Suits(s.mode, NONE)
    case SoftReset => true
    case DeviceFound(isReset, _) => isReset
    case _ => false
  }

  lemma CommandEdge(d: Dev, s: State, cmd: Cmd, crunched: seq<byte>)
    requires Inv(d, s) && Deliverable(d, s, Command(cmd, crunched))
    ensures Edge(d, s, Command(cmd, crunched), AfterCommand(d, s, cmd, crunched))
  {
    if Enabled(s, cmd) { EnabledIff(d, s, cmd); }
  }

  lemma SentEdgeIff(d: Dev, s: State, k: nat)
    requires Inv(d, s) && k < |s.pending|
    ensures Edge(d, s, CommandSent(k), AfterSent(s, k)) <==> s.mode == s.pending[k] || Suits(s.mode, s.pending[k])
  {
    assert Awaited(s.pending[k]);
  }

  lemma OtherEdge(d: Dev, s: State, e: Event)
    requires Inv(d, s) && Deliverable(d, s, e) && !e.Command? && !e.CommandSent?
    ensures Edge(d, s, e, Next(d, s, e))
  {
  }

  /** A mode change is an edge of the graph exactly when it is not the callback of a
      waiting command whose mode no longer suits the present one. */
  lemma EdgeIff(d: Dev, s: State, e: Event)
    requires Inv(d, s) && Deliverable(d, s, e)
    ensures Edge(d, s, e, Next(d, s, e)) <==>
      (e.CommandSent? ==> s.mode == s.pending[e.k] || Suits(s.mode, s.pending[e.k]))
  {
    match e
    case Command(cmd, crunched) => CommandEdge(d, s, cmd, crunched);
    case CommandSent(k) => SentEdgeIff(d, s, k);
    case _ => OtherEdge(d, s, e);
  }

  /** The same for every event of every run, resets and late callbacks included. */
  lemma RunEdgeIff(h: GoodRun, i: nat)
    requires i < |h.es|
    ensures Step(h.d, h.ss[i], h.es[i], h.ss[i + 1])
    ensures Edge(h.d, h.ss[i], h.es[i], h.ss[i + 1]) <==>
      (h.es[i].CommandSent? ==>
         var m := h.ss[i].pending[h.es[i].k];
         h.ss[i].mode == m || Suits(h.ss[i].mode, m))
  {
    var e := h.es[i];
    assert Step(h.d, h.ss[i], e, h.ss[i + 1]);
    RunInv(h, i);
    EdgeIff(h.d, h.ss[i], e);
  }

  // ----- runs with atomic commands -----

  /** At most one command waits, and its mode suits the present one. */
  predicate Orderly(s: State) {
    s.pending == [] || (|s.pending| == 1 && Suits(s.mode, s.pending[0]))
  }

  /** While a table is loaded exactly the affected channels are locked. */
  predicate Held(s: State) {
    !Normal(s.mode) ==> forall l :: 0 <= l < |s.out| ==> s.out[l].lkd == s.out[l].aff
  }

  lemma CommandOrderly(d: Dev, s: State, cmd: Cmd, crunched: seq<byte>)
    requires Inv(d, s) && s.pending == []
    ensures var t := AfterCommand(d, s, cmd, crunched);
      Orderly(t) && (LocksOk(s) && Held(s) ==> Held(t))
  {
    if Enabled(s, cmd) { EnabledIff(d, s, cmd); }
  }

  lemma ReplyOrderly(d: Dev, s: State, e: Event)
    requires Inv(d, s) && (e.CloseReply? || e.StatReply?) && s.pending == []
    ensures Orderly(TableNext(d, s, e)) && (Held(s) ==> Held(TableNext(d, s, e)))
  {
  }

  lemma SettingOrderly(d: Dev, s: State, e: Event)
    requires Inv(d, s) && Deliverable(d, s, e) && TableEvent(e) && s.pending == []
    requires !e.Command? && !e.CommandSent? && !e.CloseReply? && !e.StatReply?
    ensures Orderly(TableNext(d, s, e)) && (Held(s) ==> Held(TableNext(d, s, e)))
  {
  }

  lemma LineOrderly(d: Dev, s: State, e: Event)
    requires Inv(d, s) && Deliverable(d, s, e) && !TableEvent(e) && s.pending == []
    ensures Orderly(Next(d, s, e)) && (Held(s) ==> Held(Next(d, s, e)))
  {
    OtherSameTable(d, s, e);
    OtherSameMode(d, s, e);
  }

  lemma OtherSameMode(d: Dev, s: State, e: Event)
    requires Shaped(d, s) && Deliverable(d, s, e) && !TableEvent(e)
    ensures Next(d, s, e).mode == s.mode && Next(d, s, e).pending == s.pending
  {
  }

  lemma OtherOrderly(d: Dev, s: State, e: Event)
    requires Inv(d, s) && Deliverable(d, s, e) && !e.Command? && !e.CommandSent? && s.pending == []
    ensures Orderly(Next(d, s, e)) && (Held(s) ==> Held(Next(d, s, e)))
  {
    if e.CloseReply? || e.StatReply? {
      ReplyOrderly(d, s, e);
    } else if TableEvent(e) {
      SettingOrderly(d, s, e);
    } else {
      LineOrderly(d, s, e);
    }
  }

  lemma StepOrderly(d: Dev, s: State, e: Event, t: State)
    requires Inv(d, s) && Step(d, s, e, t) && Atomic(s, e) && Orderly(s)
    ensures Orderly(t) && (LocksOk(s) && Held(s) ==> Held(t))
  {
    match e
    case Command(cmd, crunched) => CommandOrderly(d, s, cmd, crunched);
    case CommandSent(k) => assert Awaited(s.pending[k]);
    case _ => OtherOrderly(d, s, e);
  }

  ghost predicate AtomicUpTo(h: GoodRun, i: nat) {
    i <= |h.es| && Orderly(h.ss[0]) && forall j :: 0 <= j < i ==> Atomic(h.ss[j], h.es[j])
  }

  lemma NextOrderly(h: GoodRun, i: nat)
    requires i < |h.es| && Atomic(h.ss[i], h.es[i]) && Orderly(h.ss[i])
    ensures Orderly(h.ss[i + 1]) && (LocksOk(h.ss[i]) && Held(h.ss[i]) ==> Held(h.ss[i + 1]))
  {
    RunInv(h, i);
    var e := h.es[i];
    StepOrderly(h.d, h.ss[i], e, h.ss[i + 1]);
  }

  lemma {:induction false} RunOrderly(h: GoodRun, i: nat)
    requires AtomicUpTo(h, i)
    ensures Orderly(h.ss[i])
  {
    if i > 0 {
      assert AtomicUpTo(h, i - 1);
      RunOrderly(h, i - 1);
      NextOrderly(h, i - 1);
    }
  }

  /** With atomic commands every mode change of a run is an edge, across resets too. */
  lemma RunFollowsEdges(h: GoodRun, i: nat)
    requires AtomicUpTo(h, i + 1)
    ensures Step(h.d, h.ss[i], h.es[i], h.ss[i + 1])
    ensures Edge(h.d, h.ss[i], h.es[i], h.ss[i + 1])
  {
    assert Atomic(h.ss[i], h.es[i]);
    RunOrderly(h, i);
    RunEdgeIff(h, i);
  }

  /** With atomic commands and no reset exactly the affected channels are locked from
      an activation until the mode is NONE. */
  lemma {:induction false} RunHeld(h: GoodRun, i: nat)
    requires AtomicUpTo(h, i) && LocksOk(h.ss[0]) && Held(h.ss[0])
    requires forall j :: 0 <= j < i ==> !IsReset(h.es[j])
    ensures Held(h.ss[i])
  {
    if i > 0 {
      assert AtomicUpTo(h, i - 1);
      RunHeld(h, i - 1);
      RunOrderly(h, i - 1);
      RunLocks(h, i - 1);
      NextOrderly(h, i - 1);
    }
  }

  /** One change outside the graph: START is still waiting in the queue when DROP
      erases the table, and its late callback makes the mode RUNN with no table and
      nothing locked. */
  lemma LateStartRunsNothing(d: Dev, s: State)
    requires Inv(d, s) && s.mode == ACTV && s.pending == []
    ensures var s1 := Next(d, s, Command(Start, []));
      var s2 := Next(d, s1, Command(Drop, []));
      && Deliverable(d, s2, CommandSent(0))
      && var s3 := Next(d, s2, CommandSent(0));
      s2.mode == NONE && s3.mode == RUNN && s3.times == [] && NoLocks(s3)
  {
    var s1 := Next(d, s, Command(Start, []));
    assert Enabled(s, Start) && s1 == s.(pending := [RUNN]);
    assert Enabled(s1, Drop);
    var s2 := Next(d, s1, Command(Drop, []));
    assert s2 == Erase(s1, true, Dropped);
  }

  // ----- a refused activation -----

  lemma {:induction false} SomePreset(d: Dev, s: State, upTo: nat)
    requires Shaped(d, s) && upTo <= d.n && SomeAffected(d, s, upTo)
    ensures Presets(d, s, upTo) != []
  {
    if !Affected(d, s, upTo - 1) { SomePreset(d, s, upTo - 1); }
  }

  /** ACTIVATE proceeds exactly when the table is acceptable.  A refusal sends nothing
      and changes nothing but the marks of affected channels and the status, which
      names the first failed check. */
  lemma ActivationIff(d: Dev, s: State, file: seq<byte>)
    requires Inv(d, s) && Enabled(s, Activate) && Deliverable(d, s, Command(Activate, file))
    ensures var t := Next(d, s, Command(Activate, file));
      && (Acceptable(d, s) <==> Sends(d, s, Command(Activate, file)) != [])
      && (Acceptable(d, s) && |s.times| > 1 ==> t.mode == LOAD && t.file == file)
      && (Acceptable(d, s) && |s.times| == 1 ==> t.mode == NONE)
      && (!Acceptable(d, s) ==> Refused(d, s, t))
  {
    EnabledIff(d, s, Activate);
    if Acceptable(d, s) {
      SomePreset(d, s, d.n);
    }
  }

  predicate Refused(d: Dev, s: State, t: State)
    requires Shaped(d, s)
  {
    && t == s.(out := t.out, status := t.status)
    && Explains(d, s, t.status)
    && |t.out| == |s.out|
    && forall l :: 0 <= l < |s.out| ==> t.out[l] == s.out[l].(aff := t.out[l].aff)
  }
}
