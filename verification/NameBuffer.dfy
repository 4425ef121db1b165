/** Building the MQTT name map in two passes over a device type's namespace
    (sw4cx/drivers/mqtt_mapping_drv.c:94-160). */
module NameBuffer {

  const NUL := '\0'

  datatype Option<T> = None | Some(value: T)

  /** One namespace line; the name is None when the database cannot give it. */
  datatype Item = Item(chan: nat, name: Option<string>)

  datatype Outcome = Operating | NoName | EmptyMapping

  predicate CText(s: string) {
    NUL !in s
  }

  /** Names are C strings and channel numbers belong to the device. */
  predicate Sane(inst: string, items: seq<Item>, numChans: nat) {
    && CText(inst)
    && forall k :: 0 <= k < |items| ==>
         items[k].chan < numChans && (items[k].name.Some? ==> CText(items[k].name.value))
  }

  // ----- what is to be built -----

  /** No earlier line has the channel of line k. */
  predicate First(items: seq<Item>, k: nat)
    requires k < |items|
  {
    forall p :: 0 <= p < k ==> items[p].chan != items[k].chan
  }

  predicate Listed(items: seq<Item>, c: nat) {
    exists k :: 0 <= k < |items| && items[k].chan == c
  }

  function Slashed(s: string): string {
    seq(|s|, i requires 0 <= i < |s| => if s[i] == '.' then '/' else s[i])
  }

  /** The full name: only the channel's own dots become slashes. */
  function FullName(inst: string, name: string): string {
    inst + "/" + Slashed(name)
  }

  /** A full name byte by byte. */
  lemma FullNameIs(inst: string, name: string, i: nat)
    requires i < |FullName(inst, name)|
    ensures |FullName(inst, name)| == |inst| + 1 + |name|
    ensures FullName(inst, name)[i] ==
      if i < |inst| then inst[i]
      else if i == |inst| || name[i - |inst| - 1] == '.' then '/'
      else name[i - |inst| - 1]
  {
  }

  function NameOf(items: seq<Item>, k: nat): string
    requires k < |items|
  {
    match items[k].name case None => "" case Some(n) => n
  }

  /** The bytes for lines 0 .. k-1. */
  function Layout(inst: string, items: seq<Item>, k: nat): string
    requires k <= |items|
  {
    if k == 0 then ""
    else if First(items, k - 1)
    then Layout(inst, items, k - 1) + FullName(inst, NameOf(items, k - 1)) + [NUL]
    else Layout(inst, items, k - 1)
  }

  /** Number of channels mapped by lines 0 .. k-1. */
  function Used(items: seq<Item>, k: nat): nat
    requires k <= |items|
  {
    if k == 0 then 0 else Used(items, k - 1) + if First(items, k - 1) then 1 else 0
  }

  /** All the names needed by lines 0 .. k-1 exist. */
  predicate Named(items: seq<Item>, k: nat)
    requires k <= |items|
  {
    forall i :: 0 <= i < k && First(items, i) ==> items[i].name.Some?
  }

  /** Where channel c's name begins, after lines 0 .. k-1. */
  function Offset(inst: string, items: seq<Item>, k: nat, c: nat): Option<nat>
    requires k <= |items|
  {
    if k == 0 then None
    else if items[k - 1].chan == c && First(items, k - 1) then Some(|Layout(inst, items, k - 1)|)
    else Offset(inst, items, k - 1, c)
  }

  /** The C string that begins at position at. */
  function CString(buf: string, at: nat): string
    requires at <= |buf|
    decreases |buf| - at
  {
    if at == |buf| || buf[at] == NUL then "" else [buf[at]] + CString(buf, at + 1)
  }

  // ----- the passes -----

  method IsDuplicate(items: seq<Item>, nsline: nat) returns (dup: bool)
    requires nsline < |items|
    ensures dup <==> !First(items, nsline)
  {
    for prline := 0 to nsline
      invariant forall p :: 0 <= p < prline ==> items[p].chan != items[nsline].chan
    {
      if items[nsline].chan == items[prline].chan { return true; }
    }
    dup := false;
  }

  method StrCpy(buf: array<char>, at: nat, s: string)
    requires at + |s| < buf.Length
    modifies buf
    ensures buf[..at] == old(buf[..at]) && buf[at..at + |s|] == s && buf[at + |s|] == NUL
  {
    for i := 0 to |s|
      invariant buf[..at] == old(buf[..at]) && buf[at..at + i] == s[..i]
    {
      buf[at + i] := s[i];
    }
    buf[at + |s|] := NUL;
  }

  /** Turn the dots of the C string at position at into slashes. */
  method Translate(buf: array<char>, at: nat, ghost s: string)
    requires at + |s| < buf.Length && CText(s) && buf[at..at + |s|] == s && buf[at + |s|] == NUL
    modifies buf
    ensures buf[..at] == old(buf[..at]) && buf[at..at + |s|] == Slashed(s) && buf[at + |s|] == NUL
  {
    var cp := at;
    while buf[cp] != NUL
      invariant at <= cp <= at + |s|
      invariant buf[..at] == old(buf[..at]) && buf[at + |s|] == NUL
      invariant forall i :: at <= i < cp ==> buf[i] == Slashed(s)[i - at]
      invariant forall i :: cp <= i < at + |s| ==> buf[i] == s[i - at]
      decreases at + |s| - cp
    {
      if buf[cp] == '.' { buf[cp] := '/'; }
      cp := cp + 1;
    }
    assert cp == at + |s|;
  }

  /** Write one full name and its terminator at position at. */
  method WriteName(buf: array<char>, at: nat, inst: string, name: string)
    requires CText(inst) && CText(name) && at + |inst| + 1 + |name| < buf.Length
    modifies buf
    ensures buf[..at] == old(buf[..at])
    ensures buf[at..at + |inst| + 1 + |name| + 1] == FullName(inst, name) + [NUL]
  {
    var cp := at;
    StrCpy(buf, cp, inst);
    cp := cp + |inst|;
    buf[cp] := '/';
    cp := cp + 1;
    ghost var head := buf[..cp];
    assert head == old(buf[..at]) + inst + "/";
    StrCpy(buf, cp, name);
    Translate(buf, cp, name);
    assert buf[..cp] == head;
    assert buf[at..cp] == head[at..] == inst + "/";
  }

  /** map0 and buf hold what lines 0 .. k-1 ask for. */
  ghost predicate Filled(inst: string, items: seq<Item>, k: nat, map0: array<Option<nat>>, buf: array<char>)
    requires k <= |items|
    reads map0, buf
  {
    && Layout(inst, items, k) <= buf[..]
    && forall c :: 0 <= c < map0.Length ==> map0[c] == Offset(inst, items, k, c)
  }

  method StoreName(inst: string, items: seq<Item>, k: nat, size: nat, buf: array<char>)
    requires k < |items| && CText(inst) && First(items, k) && items[k].name.Some? && CText(items[k].name.value)
    requires size == |Layout(inst, items, k)| && |Layout(inst, items, k + 1)| <= buf.Length
    requires Layout(inst, items, k) <= buf[..]
    modifies buf
    ensures Layout(inst, items, k + 1) <= buf[..]
  {
    var name := items[k].name.value;
    ghost var before := Layout(inst, items, k);
    assert buf[..size] == before;
    WriteName(buf, size, inst, name);
    ghost var next := size + |inst| + 1 + |name| + 1;
    assert buf[..next] == before + (FullName(inst, name) + [NUL]);
  }

  method StoreLine(inst: string, items: seq<Item>, k: nat, size: nat, map0: array<Option<nat>>, buf: array<char>)
    requires k < |items| && Sane(inst, items, map0.Length) && First(items, k) && items[k].name.Some?
    requires size == |Layout(inst, items, k)| && |Layout(inst, items, k + 1)| <= buf.Length
    requires Filled(inst, items, k, map0, buf)
    modifies map0, buf
    ensures Filled(inst, items, k + 1, map0, buf)
  {
    map0[items[k].chan] := Some(size);
    StoreName(inst, items, k, size, buf);
  }

  /** One pass.  Pass 0 only measures; pass 1 fills the map and the buffer that was
      allocated in between. */
  method Pass(stage: nat, inst: string, items: seq<Item>, map0: array<Option<nat>>, buf: array<char>)
    returns (ok: bool, used: nat, size: nat)
    requires stage > 0 ==> Sane(inst, items, map0.Length) && buf.Length == |Layout(inst, items, |items|)|
    requires stage > 0 ==> Filled(inst, items, 0, map0, buf)
    modifies map0, buf
    ensures ok <==> Named(items, |items|)
    ensures ok ==> used == Used(items, |items|) && size == |Layout(inst, items, |items|)|
    ensures ok && stage > 0 ==> Filled(inst, items, |items|, map0, buf)
  {
    used, size := 0, 0;
    for nsline := 0 to |items|
      invariant Named(items, nsline)
      invariant used == Used(items, nsline) && size == |Layout(inst, items, nsline)|
      invariant stage > 0 ==> Filled(inst, items, nsline, map0, buf)
    {
      var dup := IsDuplicate(items, nsline);
      if !dup {
        used := used + 1;
        if items[nsline].name == None {
          return false, used, size;
        }
        if stage > 0 {
          LayoutFits(inst, items, nsline + 1, |items|);
          StoreLine(inst, items, nsline, size, map0, buf);
        }
        size := size + |inst| + 1 + |items[nsline].name.value| + 1;
      }
    }
    ok := true;
  }

  lemma {:induction false} LayoutFits(inst: string, items: seq<Item>, j: nat, k: nat)
    requires j <= k <= |items|
    ensures |Layout(inst, items, j)| <= |Layout(inst, items, k)|
    ensures Layout(inst, items, j) <= Layout(inst, items, k)
    decreases k
  {
    if j < k { LayoutFits(inst, items, j, k - 1); }
  }

  /** The initialization: measure, allocate zeroed memory, fill. */
  method BuildMapping(inst: string, items: seq<Item>, numChans: nat)
    returns (res: Outcome, map0: array<Option<nat>>, buf: array<char>)
    requires Sane(inst, items, numChans)
    ensures res == NoName <==> !Named(items, |items|)
    ensures res == EmptyMapping <==> items == []
    ensures res == Operating ==> map0.Length == numChans && buf[..] == Layout(inst, items, |items|)
    ensures res == Operating ==> forall c :: 0 <= c < numChans ==> map0[c] == Offset(inst, items, |items|, c)
  {
    map0 := new Option<nat>[0];
    buf := new char[0];
    var ok, used, size := Pass(0, inst, items, map0, buf);
    if !ok { return NoName, map0, buf; }
    UsedPositive(items, |items|);
    if used == 0 { return EmptyMapping, map0, buf; }
    map0 := new Option<nat>[numChans](i => None);
    buf := new char[size](i => NUL);
    ok, used, size := Pass(1, inst, items, map0, buf);
    res := Operating;
  }

  lemma {:induction false} UsedPositive(items: seq<Item>, k: nat)
    requires k <= |items|
    ensures Used(items, k) > 0 <==> k > 0
  {
    if k > 1 {
      UsedPositive(items, k - 1);
    } else if k == 1 {
      assert First(items, 0);
    }
  }

  // ----- what the map means -----

  lemma {:induction false} CStringAt(buf: string, at: nat, s: string)
    requires CText(s) && at + |s| < |buf| && buf[at..at + |s|] == s && buf[at + |s|] == NUL
    ensures CString(buf, at) == s
    decreases |s|
  {
    if s != "" {
      assert buf[at] == s[0];
      assert buf[at + 1..at + 1 + |s[1..]|] == s[1..];
      CStringAt(buf, at + 1, s[1..]);
    }
  }

  lemma FullNameIsText(inst: string, name: string)
    requires CText(inst) && CText(name)
    ensures CText(FullName(inst, name))
  {
  }

  /** The name of the first line k of its channel stands at Offset, whole. */
  lemma NameAtOffset(inst: string, items: seq<Item>, k: nat, numChans: nat)
    requires Sane(inst, items, numChans) && Named(items, |items|) && k < |items| && First(items, k)
    ensures var buf, at := Layout(inst, items, |items|), |Layout(inst, items, k)|;
      && at + |FullName(inst, NameOf(items, k))| < |buf|
      && CString(buf, at) == FullName(inst, NameOf(items, k))
  {
    var buf, at := Layout(inst, items, |items|), |Layout(inst, items, k)|;
    var s := FullName(inst, NameOf(items, k));
    LayoutFits(inst, items, k + 1, |items|);
    assert Layout(inst, items, k + 1) == Layout(inst, items, k) + s + [NUL];
    assert buf[..at + |s| + 1] == Layout(inst, items, k + 1);
    assert buf[at..at + |s|] == s by {
      assert buf[at..at + |s|] == buf[..at + |s| + 1][at..at + |s|];
    }
    FullNameIsText(inst, NameOf(items, k));
    CStringAt(buf, at, s);
  }

  lemma {:induction false} OffsetOfFirst(inst: string, items: seq<Item>, k: nat, upTo: nat)
    requires k < upTo <= |items| && First(items, k)
    ensures Offset(inst, items, upTo, items[k].chan) == Some(|Layout(inst, items, k)|)
  {
    if upTo - 1 > k {
      assert items[upTo - 1].chan == items[k].chan ==> !First(items, upTo - 1);
      OffsetOfFirst(inst, items, k, upTo - 1);
    }
  }

  lemma {:induction false} OffsetOfUnlisted(inst: string, items: seq<Item>, c: nat, upTo: nat)
    requires upTo <= |items| && !Listed(items[..upTo], c)
    ensures Offset(inst, items, upTo, c) == None
  {
    if upTo > 0 {
      assert items[..upTo][upTo - 1].chan != c;
      assert forall k :: 0 <= k < upTo - 1 ==> items[..upTo - 1][k] == items[..upTo][k];
      OffsetOfUnlisted(inst, items, c, upTo - 1);
    }
  }

  /** A channel maps to its first name in namespace order, prefixed and with slashes;
      a channel that is not listed stays unmapped. */
  lemma MappingIsRight(inst: string, items: seq<Item>, numChans: nat, c: nat)
    requires Sane(inst, items, numChans) && Named(items, |items|)
    ensures var buf := Layout(inst, items, |items|);
      match Offset(inst, items, |items|, c)
      case None => !Listed(items, c)
      case Some(at) =>
        exists k :: 0 <= k < |items| && items[k].chan == c && First(items, k)
                    && at < |buf| && CString(buf, at) == FullName(inst, NameOf(items, k))
  {
    if Listed(items, c) {
      var j :| 0 <= j < |items| && items[j].chan == c;
      var k := FirstLine(items, j);
      OffsetOfFirst(inst, items, k, |items|);
      NameAtOffset(inst, items, k, numChans);
    } else {
      assert items[..|items|] == items;
      OffsetOfUnlisted(inst, items, c, |items|);
    }
  }

  lemma {:induction false} FirstLine(items: seq<Item>, j: nat) returns (k: nat)
    requires j < |items|
    ensures k <= j && items[k].chan == items[j].chan && First(items, k)
    decreases j
  {
    if First(items, j) {
      k := j;
    } else {
      var p :| 0 <= p < j && items[p].chan == items[j].chan;
      k := FirstLine(items, p);
    }
  }

  /** Names of different lines never overlap, terminators included. */
  lemma NamesAreDisjoint(inst: string, items: seq<Item>, j: nat, k: nat)
    requires j < k < |items| && First(items, j)
    ensures |Layout(inst, items, j)| + |FullName(inst, NameOf(items, j))| + 1 <= |Layout(inst, items, k)|
  {
    LayoutFits(inst, items, j + 1, k);
  }
}
