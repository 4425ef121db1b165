/** Sending a table file and the device's answer
    (hw4cx/include/advdac_cankoz_table_meat.h:316-332 and 355-380). */
module Upload {
  import opened CMath
  import opened AdvDac
  import opened DacState
  import opened TableCheck
  import opened DacSpec
  import opened DacSafety
  import opened DacWrites

  // ----- a device that reassembles what it is sent -----

  /** What the device holds, and the sizes that its answers to CLOSE still have to
      give, the oldest first. */
  datatype Peer = Peer(got: seq<byte>, due: seq<nat>)

  /** CREATE starts an empty file, each data packet extends it, and CLOSE is answered
      with its size as 16 bits. */
  function Feed(p: Peer, o: Out): Peer {
    match o
    case FileCreate(_) => p.(got := [])
    case FileData(payload) => p.(got := p.got + payload)
    case FileClose(_) => p.(due := p.due + [|p.got| % 65536])
    case _ => p
  }

  function FeedAll(p: Peer, tx: seq<Out>): Peer {
    if tx == [] then p else Feed(FeedAll(p, tx[..|tx| - 1]), tx[|tx| - 1])
  }

  /** The answer that gives a size, low byte first. */
  function Answer(size: nat): (data: seq<byte>)
    requires size < 65536
    ensures |data| == 4 && ReplySize(data) == size
  {
    var lo, hi := size % 256, size / 256;
    [0, 0, lo, hi]
  }

  /** The answer is the one that the device owes next. */
  predicate Honest(p: Peer, data: seq<byte>) {
    |data| >= 4 && p.due != [] && ReplySize(data) == p.due[0]
  }

  /** An answer that is not too short settles the oldest CLOSE. */
  function Settle(p: Peer, e: Event): Peer {
    if e.CloseReply? && |e.data| >= 4 && p.due != [] then p.(due := p.due[1..]) else p
  }

  lemma {:induction false} FeedAppend(p: Peer, a: seq<Out>, b: seq<Out>)
    ensures FeedAll(p, a + b) == FeedAll(FeedAll(p, a), b)
  {
    if b == [] {
      assert a + b == a;
    } else {
      var e := |b| - 1;
      FeedAppend(p, a, b[..e]);
      assert (a + b)[..|a + b| - 1] == a + b[..e];
    }
  }

  lemma FeedPair(p: Peer, a: Out, b: Out)
    ensures FeedAll(p, [a]) == Feed(p, a)
    ensures FeedAll(p, [a, b]) == Feed(Feed(p, a), b)
  {
    assert [a][..0] == [] && [a, b][..1] == [a];
  }

  /** The data packets carry the file, all of it and in order. */
  lemma {:induction false} ChunksCarryFile(p: Peer, file: seq<byte>)
    ensures FeedAll(p, Chunks(file)) == p.(got := p.got + file)
    decreases |file|
  {
    if file != [] {
      var k := ChunkLen(|file|);
      var head := [FileData(file[..k]), Separator];
      FeedAppend(p, head, Chunks(file[k..]));
      FeedPair(p, head[0], head[1]);
      ChunksCarryFile(p.(got := p.got + file[..k]), file[k..]);
      assert p.got + file == p.got + file[..k] + file[k..];
    }
  }

  /** Round trip: whatever the device held before, after the upload it holds the file
      and owes one more answer, with its size; every data packet has 1 to 7 bytes. */
  lemma UploadRoundTrip(p: Peer, id: int, file: seq<byte>)
    ensures FeedAll(p, Upload(id, file)) == Peer(file, p.due + [|file| % 65536])
    ensures forall o :: o in Upload(id, file) && o.FileData? ==> 1 <= |o.payload| <= 7
  {
    var open, close := [FileCreate(id)], [FileClose(id)];
    FeedPair(p, open[0], close[0]);
    FeedPair(p.(got := file), close[0], close[0]);
    FeedAppend(p, open, Chunks(file));
    ChunksCarryFile(p.(got := []), file);
    FeedAppend(p, open + Chunks(file), close);
    forall o | o in Upload(id, file) && o.FileData? ensures 1 <= |o.payload| <= 7 {
      ChunksOnly(file, o);
    }
  }

  /** ceil(size / 7) data packets. */
  lemma {:induction false} ChunkCount(file: seq<byte>)
    ensures |Chunks(file)| == 2 * CeilDiv(|file|, 7)
    decreases |file|
  {
    if file != [] { ChunkCount(file[ChunkLen(|file|)..]); }
  }

  // ----- packets that do not concern the file -----

  predicate FilePacket(o: Out) {
    o.FileCreate? || o.FileData? || o.FileClose?
  }

  lemma {:induction false} NoFilePackets(p: Peer, tx: seq<Out>)
    requires forall o :: o in tx ==> !FilePacket(o)
    ensures FeedAll(p, tx) == p
  {
    if tx != [] {
      assert !FilePacket(tx[|tx| - 1]);
      NoFilePackets(p, tx[..|tx| - 1]);
    }
  }

  /** A command that is sent while the file is being loaded ends the loading. */
  lemma SentLeavesLoad(d: Dev, s: State, k: nat)
    requires Inv(d, s) && k < |s.pending| && s.mode == LOAD
    ensures AfterSent(s, k).mode != LOAD
  {
    assert Awaited(s.pending[k]);
  }

  /** While the file is being loaded nothing else concerns the device's file. */
  lemma LoadIsUndisturbed(d: Dev, s: State, e: Event, p: Peer)
    requires Inv(d, s) && Deliverable(d, s, e) && s.mode == LOAD && Next(d, s, e).mode == LOAD
    ensures FeedAll(p, Sends(d, s, e)) == p && Settle(p, e) == p
  {
    if e.CommandSent? { SentLeavesLoad(d, s, e.k); }
    forall o | o in Sends(d, s, e) ensures !FilePacket(o) {
      match e
      case Heartbeat => if o in RampSends(d, s.out) { RampOnly(d, s.out, o); }
      case Command(cmd, _) => EnabledIff(d, s, cmd);
      case _ =>
    }
    NoFilePackets(p, Sends(d, s, e));
  }

  lemma PresetsKeepFile(d: Dev, s: State, p: Peer)
    requires Shaped(d, s)
    ensures FeedAll(p, Presets(d, s, d.n)) == p
  {
    var pre := Presets(d, s, d.n);
    forall o | o in pre ensures !FilePacket(o) { PresetsOnly(d, s, d.n, o); }
    NoFilePackets(p, pre);
  }

  lemma ActivationSendsAre(d: Dev, s: State, file: seq<byte>)
    requires Shaped(d, s) && Acceptable(d, s) && Enabled(s, Activate) && |s.times| > 1
    requires Deliverable(d, s, Command(Activate, file))
    ensures Sends(d, s, Command(Activate, file)) == Presets(d, s, d.n) + Upload(s.tabId, file)
  {
  }

  lemma PresetsThenUpload(d: Dev, s: State, file: seq<byte>, p: Peer)
    requires Shaped(d, s)
    ensures FeedAll(p, Presets(d, s, d.n) + Upload(s.tabId, file)) == Peer(file, p.due + [|file| % 65536])
  {
    PresetsKeepFile(d, s, p);
    FeedAppend(p, Presets(d, s, d.n), Upload(s.tabId, file));
    UploadRoundTrip(p, s.tabId, file);
  }

  lemma ActivationCarriesFile(d: Dev, s: State, file: seq<byte>, p: Peer)
    requires Shaped(d, s) && Acceptable(d, s) && Enabled(s, Activate) && |s.times| > 1
    requires Deliverable(d, s, Command(Activate, file))
    ensures FeedAll(p, Sends(d, s, Command(Activate, file))) == Peer(file, p.due + [|file|])
  {
    ActivationSendsAre(d, s, file);
    PresetsThenUpload(d, s, file, p);
    assert |file| % 65536 == |file|;
  }

  /** The device at state j, if it was p at state i. */
  ghost function PeerAt(h: GoodRun, i: nat, j: nat, p: Peer): Peer
    requires i <= j <= |h.es|
  {
    if i == j then p
    else
      var e := h.es[j - 1];
      assert Step(h.d, h.ss[j - 1], e, h.ss[j]);
      FeedAll(Settle(PeerAt(h, i, j - 1, p), e), Sends(h.d, h.ss[j - 1], e))
  }

  ghost predicate ActivatedAt(h: GoodRun, i: nat, file: seq<byte>)
    requires i < |h.es|
  {
    && h.es[i] == Command(Activate, file)
    && Enabled(h.ss[i], Activate) && Acceptable(h.d, h.ss[i]) && |h.ss[i].times| > 1
  }

  /** An accepted activation at event i, after which the mode is LOAD up to state j. */
  ghost predicate Loading(h: GoodRun, i: nat, j: nat, file: seq<byte>) {
    && i < j <= |h.es| && ActivatedAt(h, i, file)
    && forall x :: i < x <= j ==> h.ss[x].mode == LOAD
  }

  /** At state j the record and the device both hold the file, and the device owes the
      answer for it after those it owed before. */
  ghost predicate Holds(h: GoodRun, i: nat, j: nat, file: seq<byte>, p: Peer)
    requires i <= j <= |h.es|
  {
    h.ss[j].file == file && PeerAt(h, i, j, p) == Peer(file, p.due + [|file|])
  }

  lemma FileAtActivation(h: GoodRun, i: nat, file: seq<byte>, p: Peer)
    requires Loading(h, i, i + 1, file)
    ensures Holds(h, i, i + 1, file, p)
  {
    var e := h.es[i];
    assert Step(h.d, h.ss[i], e, h.ss[i + 1]);
    ActivationCarriesFile(h.d, h.ss[i], file, p);
  }

  lemma LoadStep(d: Dev, s: State, e: Event, t: State, p: Peer)
    requires Inv(d, s) && Step(d, s, e, t) && s.mode == LOAD && t.mode == LOAD
    ensures t.file == s.file && FeedAll(Settle(p, e), Sends(d, s, e)) == p
  {
    LoadIsUndisturbed(d, s, e, p);
    LoadKeepsFile(d, s, e);
  }

  lemma FileStays(h: GoodRun, i: nat, j: nat, file: seq<byte>, p: Peer)
    requires Loading(h, i, j, file) && i + 1 < j
    requires Holds(h, i, j - 1, file, p)
    ensures Holds(h, i, j, file, p)
  {
    var e := h.es[j - 1];
    RunInv(h, j - 1);
    LoadStep(h.d, h.ss[j - 1], e, h.ss[j], PeerAt(h, i, j - 1, p));
  }

  lemma LoadingBefore(h: GoodRun, i: nat, j: nat, file: seq<byte>)
    requires Loading(h, i, j, file) && i + 1 < j
    ensures Loading(h, i, j - 1, file)
  {
  }

  lemma LoadKeepsFile(d: Dev, s: State, e: Event)
    requires Inv(d, s) && Deliverable(d, s, e) && s.mode == LOAD && Next(d, s, e).mode == LOAD
    ensures Next(d, s, e).file == s.file
  {
    match e
    case Command(cmd, _) => if Enabled(s, cmd) { EnabledIff(d, s, cmd); }
    case _ =>
  }

  lemma NextHolds(h: GoodRun, i: nat, j: nat, file: seq<byte>, p: Peer)
    requires Loading(h, i, j, file) && (i + 1 < j ==> Holds(h, i, j - 1, file, p))
    ensures Holds(h, i, j, file, p)
  {
    if j == i + 1 { FileAtActivation(h, i, file, p); } else { FileStays(h, i, j, file, p); }
  }

  lemma {:induction false} FileWhileLoading(h: GoodRun, i: nat, j: nat, file: seq<byte>, p: Peer)
    requires Loading(h, i, j, file)
    ensures Holds(h, i, j, file, p)
  {
    if i + 1 < j {
      LoadingBefore(h, i, j, file);
      FileWhileLoading(h, i, j - 1, file, p);
    }
    NextHolds(h, i, j, file, p);
  }

  /** What an answer does: LOAD becomes ACTV exactly when the size is right, and
      otherwise NONE with every lock released. */
  lemma AnswerDecides(d: Dev, s: State, data: seq<byte>, t: State)
    requires Step(d, s, CloseReply(data), t) && s.mode == LOAD && |data| >= 4
    ensures t.mode == ACTV <==> ReplySize(data) == |s.file|
    ensures t.mode != ACTV ==> t.mode == NONE && NoLocks(t)
  {
  }

  /** LOAD becomes ACTV if and only if the answer gives the size of the file, and any
      other answer leads to NONE with every lock released. */
  lemma LoadEnds(h: GoodRun, i: nat, j: nat, file: seq<byte>, data: seq<byte>)
    requires Loading(h, i, j, file) && j < |h.es| && h.es[j] == CloseReply(data) && |data| >= 4
    ensures h.ss[j + 1].mode == ACTV <==> ReplySize(data) == |file|
    ensures h.ss[j + 1].mode != ACTV ==> h.ss[j + 1].mode == NONE && NoLocks(h.ss[j + 1])
  {
    FileWhileLoading(h, i, j, file, Peer([], []));
    var e := h.es[j];
    AnswerDecides(h.d, h.ss[j], data, h.ss[j + 1]);
  }

  /** With a device that answers every CLOSE truthfully and in order, the table becomes
      active if and only if at the activation the device owed no answer, or owed one
      that happens to give the size of the new file.  The handler does not look which
      CLOSE is answered, so an older answer ends the loading otherwise. */
  lemma HonestLoadIff(h: GoodRun, i: nat, j: nat, file: seq<byte>, p: Peer, data: seq<byte>)
    requires Loading(h, i, j, file) && j < |h.es| && h.es[j] == CloseReply(data)
    requires Honest(PeerAt(h, i, j, p), data)
    ensures h.ss[j + 1].mode == ACTV <==> p.due == [] || p.due[0] == |file|
    ensures h.ss[j + 1].mode != ACTV ==> h.ss[j + 1].mode == NONE && NoLocks(h.ss[j + 1])
  {
    FileWhileLoading(h, i, j, file, p);
    LoadEnds(h, i, j, file, data);
  }

  /** It happens: a table that has run to its end is activated again before the CLOSE of
      the erasure is answered; that answer, size 0, erases the table. */
  lemma EarlierCloseErases(d: Dev, s: State, file: seq<byte>, p: Peer)
    requires Inv(d, s) && s.mode == RUNN && |s.times| > 1 && 0 < |file| <= d.maxFileBytes && p.due == []
    requires Acceptable(d, Next(d, s, StatReply(2, false, false, false)))
    ensures var end := StatReply(2, false, false, false);
      var s1, p1 := Next(d, s, end), FeedAll(p, Sends(d, s, end));
      var again := Command(Activate, file);
      var s2, p2 := Next(d, s1, again), FeedAll(p1, Sends(d, s1, again));
      var s3 := Next(d, s2, CloseReply(Answer(0)));
      && s1.mode == NONE && s2.mode == LOAD && p2 == Peer(file, [0, |file|]) && Honest(p2, Answer(0))
      && s3.mode == NONE && s3.status == SizeMismatch
  {
    var end := StatReply(2, false, false, false);
    EndErases(d, s, p);
    var s1, p1 := Next(d, s, end), FeedAll(p, Sends(d, s, end));
    AgainErased(d, s1, file, p1);
  }

  lemma AgainErased(d: Dev, s: State, file: seq<byte>, p: Peer)
    requires Inv(d, s) && Enabled(s, Activate) && Acceptable(d, s) && |s.times| > 1
    requires 0 < |file| <= d.maxFileBytes && p.due == [0]
    ensures var again := Command(Activate, file);
      var t, u := Next(d, s, again), FeedAll(p, Sends(d, s, again));
      var w := Next(d, t, CloseReply(Answer(0)));
      && t.mode == LOAD && u == Peer(file, [0, |file|]) && Honest(u, Answer(0))
      && w.mode == NONE && w.status == SizeMismatch
  {
    AgainLoads(d, s, file, p);
    StaleAnswerErases(d, Next(d, s, Command(Activate, file)));
  }

  lemma EndErases(d: Dev, s: State, p: Peer)
    requires Inv(d, s) && s.mode == RUNN
    ensures var end := StatReply(2, false, false, false);
      var s1 := Next(d, s, end);
      && Inv(d, s1) && s1.mode == NONE && Enabled(s1, Activate) && s1.times == s.times
      && FeedAll(p, Sends(d, s, end)) == Peer([], p.due + [0])
  {
    var end := StatReply(2, false, false, false);
    assert Next(d, s, end) == Erase(s, false, Ended) && Sends(d, s, end) == EraseSends(s);
    EraseInv(d, s, false, Ended);
    EraseOwesZero(s, p);
  }

  lemma AgainLoads(d: Dev, s: State, file: seq<byte>, p: Peer)
    requires Inv(d, s) && Enabled(s, Activate) && Acceptable(d, s) && |s.times| > 1 && |file| <= d.maxFileBytes
    ensures var again := Command(Activate, file);
      var t := Next(d, s, again);
      && t.mode == LOAD && t.file == file
      && FeedAll(p, Sends(d, s, again)) == Peer(file, p.due + [|file|])
  {
    ActivationCarriesFile(d, s, file, p);
    assert Next(d, s, Command(Activate, file)) == Locked(d, s, file);
  }

  lemma StaleAnswerErases(d: Dev, s: State)
    requires Shaped(d, s) && s.mode == LOAD && s.file != []
    ensures var t := Next(d, s, CloseReply(Answer(0))); t.mode == NONE && t.status == SizeMismatch
  {
  }

  lemma EraseOwesZero(s: State, p: Peer)
    ensures FeedAll(p, EraseSends(s)) == Peer([], p.due + [0])
  {
    var head, rest := [FileCreate(s.tabId), FileClose(s.tabId)], ReadsAff(s.out) + [StatRq];
    forall o | o in rest ensures !FilePacket(o) {
      if o in ReadsAff(s.out) { ReadsOnly(s.out, o); }
    }
    FeedPair(p, head[0], head[1]);
    FeedAppend(p, head, rest);
    NoFilePackets(Peer([], p.due + [0]), rest);
    assert EraseSends(s) == head + rest;
  }

  // ----- the device's file, event by event -----

  /** The event erases the table. */
  predicate Erases(d: Dev, s: State, e: Event)
    requires Shaped(d, s) && Deliverable(d, s, e)
  {
    match e
    case Command(cmd, _) => cmd == Drop && (s.mode == NONE || s.mode == PREP || s.mode == ACTV)
    case CloseReply(data) => s.mode == LOAD && |data| >= 4 && ReplySize(data) != |s.file|
    case StatReply(dlc, executing, _, _) => s.mode == RUNN && dlc >= 2 && !executing
    case CommandSent(k) => s.pending[k] == NONE
    case _ => false
  }

  /** The event uploads a table. */
  predicate Uploads(d: Dev, s: State, e: Event)
    requires Shaped(d, s) && Deliverable(d, s, e)
  {
    e.Command? && e.cmd == Activate && (s.mode == NONE || s.mode == PREP) && Acceptable(d, s) && |s.times| > 1
  }

  lemma OneStepKeepsFile(d: Dev, s: State, file: seq<byte>, p: Peer)
    requires Inv(d, s) && Deliverable(d, s, Command(Activate, file)) && (Acceptable(d, s) ==> |s.times| == 1)
    ensures FeedAll(p, Sends(d, s, Command(Activate, file))) == p
  {
    PresetsKeepFile(d, s, p);
    if Acceptable(d, s) && Enabled(s, Activate) {
      assert Sends(d, s, Command(Activate, file)) == Presets(d, s, d.n);
    }
  }

  lemma OtherKeepsFile(d: Dev, s: State, e: Event, p: Peer)
    requires Inv(d, s) && Deliverable(d, s, e) && !Erases(d, s, e) && !(e.Command? && e.cmd == Activate)
    ensures FeedAll(p, Sends(d, s, e)) == p
  {
    forall o | o in Sends(d, s, e) ensures !FilePacket(o) {
      if o in ReadsAff(s.out) {
        ReadsOnly(s.out, o);
      } else {
        match e
        case Heartbeat => if o in RampSends(d, s.out) { RampOnly(d, s.out, o); }
        case Command(cmd, _) => EnabledIff(d, s, cmd);
        case _ =>
      }
    }
    NoFilePackets(p, Sends(d, s, e));
  }

  lemma ErasureIs(d: Dev, s: State, e: Event, p: Peer)
    requires Inv(d, s) && Deliverable(d, s, e) && Erases(d, s, e)
    ensures FeedAll(p, Sends(d, s, e)) == Peer([], p.due + [0])
  {
    EraseOwesZero(s, p);
    match e
    case Command(cmd, _) => EnabledIff(d, s, cmd);
    case CommandSent(_) =>
      FeedPair(p, StatRq, StatRq);
      FeedAppend(p, [StatRq], EraseSends(s));
    case _ =>
  }

  /** What the device holds and owes after any event: an empty file when the table is
      erased, the new file when one is uploaded, and what it had in all other cases. */
  lemma FileIs(d: Dev, s: State, e: Event, p: Peer)
    requires Inv(d, s) && Deliverable(d, s, e)
    ensures FeedAll(p, Sends(d, s, e)) ==
      if Erases(d, s, e) then Peer([], p.due + [0])
      else if Uploads(d, s, e) then Peer(e.crunched, p.due + [|e.crunched|])
      else p
  {
    if Erases(d, s, e) {
      ErasureIs(d, s, e, p);
    } else if e.Command? && e.cmd == Activate {
      EnabledIff(d, s, Activate);
      if Uploads(d, s, e) {
        ActivationCarriesFile(d, s, e.crunched, p);
      } else if Enabled(s, Activate) {
        OneStepKeepsFile(d, s, e.crunched, p);
      }
    } else {
      OtherKeepsFile(d, s, e, p);
    }
  }

  /** Every packet that names a table names the present one. */
  predicate Names(o: Out, id: int) {
    match o
    case FileCreate(x) => x == id
    case FileClose(x) => x == id
    case CtlCmd(_, x) => x == id
    case _ => true
  }

  lemma EraseNames(s: State, o: Out)
    requires o in EraseSends(s)
    ensures Names(o, s.tabId)
  {
    if o in ReadsAff(s.out) { ReadsOnly(s.out, o); }
  }

  lemma ActivationNames(d: Dev, s: State, file: seq<byte>, o: Out)
    requires Shaped(d, s) && o in ActivationSends(d, s, file)
    ensures Names(o, s.tabId)
  {
    if o in Presets(d, s, d.n) {
      PresetsOnly(d, s, d.n, o);
    } else if o in Chunks(file) {
      ChunksOnly(file, o);
    }
  }

  lemma PacketsName(d: Dev, s: State, e: Event, o: Out)
    requires Inv(d, s) && Deliverable(d, s, e) && o in Sends(d, s, e)
    ensures Names(o, s.tabId)
  {
    if o in EraseSends(s) {
      EraseNames(s, o);
    } else if o in ReadsAff(s.out) {
      ReadsOnly(s.out, o);
    } else {
      match e
      case Heartbeat => if o in RampSends(d, s.out) { RampOnly(d, s.out, o); }
      case Command(cmd, file) => if cmd == Activate { ActivationNames(d, s, file, o); }
      case _ =>
    }
  }
}
