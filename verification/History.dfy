/** Length-prefixed blobs: the history blob and its writer, and the memory packer and unpacker. */
module History {
  import opened Bytes

  // ---- the format: what stands in front of the rest ----

  function PutI(value: int32, rest: bytes): bytes {
    IntBytes(value) + rest
  }

  function PutB(value: byte, rest: bytes): bytes {
    [value] + rest
  }

  /** A string: its length, then its bytes, no terminator. */
  function PutS(text: bytes, rest: bytes): bytes {
    PutI(ToInt32(|text|), text + rest)
  }

  datatype Read<+T> = Short | Got(value: T, rest: bytes) {
    predicate IsFailure() { Short? }
    function PropagateFailure<U>(): Read<U>
      requires Short?
    {
      Short
    }
    function Extract(): (T, bytes)
      requires Got?
    {
      (value, rest)
    }
  }

  /** PackOut of an int, */
  function GetI(s: bytes): Read<int32> {
    if |s| < 4 then Short else Got(GetInt(s, 0), s[4..])
  }

  /** of a byte, */
  function GetB(s: bytes): Read<byte> {
    if |s| < 1 then Short else Got(s[0], s[1..])
  }

  /** and of a string. */
  function GetS(s: bytes): Read<bytes> {
    var (n, r) :- GetI(s);
    if n < 0 || n > |r| then Short else Got(r[..n], r[n..])
  }

  lemma ReadInt(value: int32, rest: bytes)
    ensures GetI(PutI(value, rest)) == Got(value, rest)
  {
    hide GetInt, IntBytes;
    var s := PutI(value, rest);
    assert s[0..0 + 4] == IntBytes(value);
    GetPutInt(s, 0, value);
  }

  lemma ReadString(text: bytes, rest: bytes)
    requires |text| < TWO_31
    ensures GetS(PutS(text, rest)) == Got(text, rest)
  {
    hide PutI, GetI;
    ReadInt(|text|, text + rest);
  }

  // ---- the history blob ----

  datatype LifeEvent = LifeEvent(eventType: int32, worldTick: int32, ageInTicks: int32, realWorldTime: int32,
                                 lifeStage: int32,
                                 moniker1: bytes, moniker2: bytes, worldName: bytes, worldId: bytes, networkUser: bytes)

  datatype Creature = Creature(gender: int32, genus: int32, variant: int32, mutations: int32, crossovers: int32)

  datatype Solid<T> = Solid(item: T, index: int32)

  datatype Record = Record(moniker: bytes, creature: Option<Creature>, events: seq<Solid<LifeEvent>>,
                           name: bytes, texts: seq<Solid<bytes>>)

  function EventBytes(e: Solid<LifeEvent>, rest: bytes): bytes {
    var i := e.item;
    PutI(i.eventType, PutI(i.worldTick, PutI(i.ageInTicks, PutI(i.realWorldTime, PutI(i.lifeStage,
      PutS(i.moniker1, PutS(i.moniker2, PutS(
        i.worldName, PutS(i.worldId, PutS(i.networkUser, PutI(e.index, rest)))))))))))
  }

  function EventsBytes(es: seq<Solid<LifeEvent>>, rest: bytes): bytes {
    if es == [] then rest else EventBytes(es[0], EventsBytes(es[1..], rest))
  }

  function TextsBytes(ts: seq<Solid<bytes>>, rest: bytes): bytes {
    if ts == [] then rest else PutS(ts[0].item, PutI(ts[0].index, TextsBytes(ts[1..], rest)))
  }

  function CreatureBytes(c: Option<Creature>, rest: bytes): bytes {
    match c
    case None => PutB(0, rest)
    case Some(s) =>
      PutB(1, PutI(s.gender, PutI(s.genus, PutI(s.variant, PutI(s.mutations, PutI(s.crossovers, rest))))))
  }

  /** The documented layout of the blob. */
  function Blob(r: Record): bytes {
    PutS(r.moniker, CreatureBytes(r.creature,
      PutI(ToInt32(|r.events|), EventsBytes(r.events,
        PutS(r.name, PutI(ToInt32(|r.texts|), TextsBytes(r.texts, [])))))))
  }

  // ---- reading it back ----

  function ReadEvent(s0: bytes): Read<Solid<LifeEvent>> {
    var (eventType, s1) :- GetI(s0);
    var (worldTick, s2) :- GetI(s1);
    var (ageInTicks, s3) :- GetI(s2);
    var (realWorldTime, s4) :- GetI(s3);
    var (lifeStage, s5) :- GetI(s4);
    var (moniker1, s6) :- GetS(s5);
    var (moniker2, s7) :- GetS(s6);
    var (worldName, s8) :- GetS(s7);
    var (worldId, s9) :- GetS(s8);
    var (networkUser, s10) :- GetS(s9);
    var (index, s11) :- GetI(s10);
    Got(Solid(LifeEvent(eventType, worldTick, ageInTicks, realWorldTime, lifeStage,
                        moniker1, moniker2, worldName, worldId, networkUser), index), s11)
  }

  function ReadEvents(s: bytes, count: nat): Read<seq<Solid<LifeEvent>>>
    decreases count
  {
    if count == 0 then Got([], s)
    else
      var (e, r) :- ReadEvent(s);
      var (es, t) :- ReadEvents(r, count - 1);
      Got([e] + es, t)
  }

  function ReadTexts(s: bytes, count: nat): Read<seq<Solid<bytes>>>
    decreases count
  {
    if count == 0 then Got([], s)
    else
      var (text, r) :- GetS(s);
      var (index, q) :- GetI(r);
      var (ts, t) :- ReadTexts(q, count - 1);
      Got([Solid(text, index)] + ts, t)
  }

  function ReadCreature(s: bytes): Read<Option<Creature>> {
    var (flag, s0) :- GetB(s);
    if flag == 0 then Got(None, s0)
    else
      var (gender, s1) :- GetI(s0);
      var (genus, s2) :- GetI(s1);
      var (variant, s3) :- GetI(s2);
      var (mutations, s4) :- GetI(s3);
      var (crossovers, s5) :- GetI(s4);
      Got(Some(Creature(gender, genus, variant, mutations, crossovers)), s5)
  }

  /** A record read along the documented layout. */
  function ReadRecord(s: bytes): Read<Record> {
    var (moniker, s1) :- GetS(s);
    var (creature, s2) :- ReadCreature(s1);
    var (eventCount, s3) :- GetI(s2);
    if eventCount < 0 then Short
    else
      var (events, s4) :- ReadEvents(s3, eventCount);
      var (name, s5) :- GetS(s4);
      var (textCount, s6) :- GetI(s5);
      if textCount < 0 then Short
      else
        var (texts, s7) :- ReadTexts(s6, textCount);
        Got(Record(moniker, creature, events, name, texts), s7)
  }

  // ---- the round trip ----

  predicate EventFits(e: LifeEvent) {
    |e.moniker1| < TWO_31 && |e.moniker2| < TWO_31 && |e.worldName| < TWO_31 && |e.worldId| < TWO_31
      && |e.networkUser| < TWO_31
  }

  /** Every length and count fits the int that carries it. */
  predicate Fits(r: Record) {
    && |r.moniker| < TWO_31 && |r.name| < TWO_31 && |r.events| < TWO_31 && |r.texts| < TWO_31
    && (forall i | 0 <= i < |r.events| :: EventFits(r.events[i].item))
    && (forall i | 0 <= i < |r.texts| :: |r.texts[i].item| < TWO_31)
  }

  lemma ReadEventBack(e: Solid<LifeEvent>, rest: bytes)
    requires EventFits(e.item)
    ensures ReadEvent(EventBytes(e, rest)) == Got(e, rest)
  {
    hide PutI, GetI, PutS, GetS;
    var i := e.item;
    var s10 := PutI(e.index, rest);
    var s9 := PutS(i.networkUser, s10);
    var s8 := PutS(i.worldId, s9);
    var s7 := PutS(i.worldName, s8);
    var s6 := PutS(i.moniker2, s7);
    var s5 := PutS(i.moniker1, s6);
    var s4 := PutI(i.lifeStage, s5);
    var s3 := PutI(i.realWorldTime, s4);
    var s2 := PutI(i.ageInTicks, s3);
    var s1 := PutI(i.worldTick, s2);
    ReadInt(e.index, rest);
    ReadString(i.networkUser, s10);
    ReadString(i.worldId, s9);
    ReadString(i.worldName, s8);
    ReadString(i.moniker2, s7);
    ReadString(i.moniker1, s6);
    ReadInt(i.lifeStage, s5);
    ReadInt(i.realWorldTime, s4);
    ReadInt(i.ageInTicks, s3);
    ReadInt(i.worldTick, s2);
    ReadInt(i.eventType, s1);
  }

  lemma {:induction false} ReadEventsBack(es: seq<Solid<LifeEvent>>, rest: bytes)
    requires forall i | 0 <= i < |es| :: EventFits(es[i].item)
    ensures ReadEvents(EventsBytes(es, rest), |es|) == Got(es, rest)
  {
    hide EventBytes, ReadEvent, EventFits;
    if es != [] {
      ReadEventBack(es[0], EventsBytes(es[1..], rest));
      ReadEventsBack(es[1..], rest);
      assert [es[0]] + es[1..] == es;
    }
  }

  lemma {:induction false} ReadTextsBack(ts: seq<Solid<bytes>>, rest: bytes)
    requires forall i | 0 <= i < |ts| :: |ts[i].item| < TWO_31
    ensures ReadTexts(TextsBytes(ts, rest), |ts|) == Got(ts, rest)
  {
    hide PutI, GetI, PutS, GetS;
    if ts != [] {
      var t := TextsBytes(ts[1..], rest);
      ReadString(ts[0].item, PutI(ts[0].index, t));
      ReadInt(ts[0].index, t);
      ReadTextsBack(ts[1..], rest);
      assert [ts[0]] + ts[1..] == ts;
    }
  }

  lemma ReadCreatureBack(c: Option<Creature>, rest: bytes)
    ensures ReadCreature(CreatureBytes(c, rest)) == Got(c, rest)
  {
    hide PutI, GetI;
    if c.Some? {
      var s := c.value;
      var s4 := PutI(s.crossovers, rest);
      var s3 := PutI(s.mutations, s4);
      var s2 := PutI(s.variant, s3);
      var s1 := PutI(s.genus, s2);
      ReadInt(s.crossovers, rest);
      ReadInt(s.mutations, s4);
      ReadInt(s.variant, s3);
      ReadInt(s.genus, s2);
      ReadInt(s.gender, s1);
      assert PutB(1, PutI(s.gender, s1))[1..] == PutI(s.gender, s1);
    } else {
      assert PutB(0, rest)[1..] == rest;
    }
  }

  /** Reading the blob gives back every field, event, index and text, and nothing is left over. */
  lemma ReadBlob(r: Record)
    requires Fits(r)
    ensures ReadRecord(Blob(r)) == Got(r, [])
  {
    hide PutI, GetI, PutS, GetS, CreatureBytes, ReadCreature, EventsBytes, ReadEvents, TextsBytes, ReadTexts, EventFits;
    var s6 := TextsBytes(r.texts, []);
    var s5 := PutI(|r.texts|, s6);
    var s4 := PutS(r.name, s5);
    var s3 := EventsBytes(r.events, s4);
    var s2 := PutI(|r.events|, s3);
    var s1 := CreatureBytes(r.creature, s2);
    ReadString(r.moniker, s1);
    ReadCreatureBack(r.creature, s2);
    ReadInt(|r.events|, s3);
    ReadEventsBack(r.events, s4);
    ReadString(r.name, s5);
    ReadInt(|r.texts|, s6);
    ReadTextsBack(r.texts, []);
  }

  // ---- the writer ----

  /** Two vectors of equal length, item by item. */
  function Solids<T>(items: seq<T>, indices: seq<int32>): (r: seq<Solid<T>>)
    requires |items| == |indices|
    ensures |r| == |items| && forall i | 0 <= i < |r| :: r[i] == Solid(items[i], indices[i])
  {
    seq(|items|, i requires 0 <= i < |items| => Solid(items[i], indices[i]))
  }

  class HistoryTransferOut {
    var moniker: bytes
    var creature: Option<Creature>
    var lifeEvents: seq<LifeEvent>
    var solidIndices: seq<int32>
    var name: bytes
    var userTexts: seq<bytes>
    var userTextIndices: seq<int32>
    var serialised: bool
    var buffer: bytes

    ghost predicate Valid()
      reads this`lifeEvents, this`solidIndices, this`userTexts, this`userTextIndices
    {
      |lifeEvents| == |solidIndices| && |userTexts| == |userTextIndices|
    }

    /** What has been recorded so far. */
    ghost function Recorded(): Record
      requires Valid()
      reads this`moniker, this`creature, this`lifeEvents, this`solidIndices, this`name, this`userTexts,
            this`userTextIndices
    {
      Record(moniker, creature, Solids(lifeEvents, solidIndices), name, Solids(userTexts, userTextIndices))
    }

    constructor ()
      ensures Valid() && !serialised && Recorded() == Record([], None, [], [], [])
    {
      moniker, creature, lifeEvents, solidIndices := [], None, [], [];
      name, userTexts, userTextIndices, serialised, buffer := [], [], [], false, [];
    }

    method WriteMoniker(moniker: bytes)
      requires Valid()
      modifies this`moniker
      ensures Valid() && Recorded() == old(Recorded()).(moniker := moniker)
    {
      this.moniker := moniker;
    }

    method WriteCreatureHistory(creature: Creature)
      requires Valid()
      modifies this`creature
      ensures Valid() && Recorded() == old(Recorded()).(creature := Some(creature))
    {
      this.creature := Some(creature);
    }

    method WriteLifeEvent(event: LifeEvent, solidIndex: int32)
      requires Valid()
      modifies this`lifeEvents, this`solidIndices
      ensures Valid() && Recorded() == old(Recorded()).(events := old(Recorded()).events + [Solid(event, solidIndex)])
    {
      lifeEvents := lifeEvents + [event];
      solidIndices := solidIndices + [solidIndex];
      assert Recorded().events == old(Recorded()).events + [Solid(event, solidIndex)];
    }

    method WriteName(name: bytes)
      requires Valid()
      modifies this`name
      ensures Valid() && Recorded() == old(Recorded()).(name := name)
    {
      this.name := name;
    }

    method WriteUserText(solidIndex: int32, userText: bytes)
      requires Valid()
      modifies this`userTexts, this`userTextIndices
      ensures Valid() && Recorded() == old(Recorded()).(texts := old(Recorded()).texts + [Solid(userText, solidIndex)])
    {
      userTexts := userTexts + [userText];
      userTextIndices := userTextIndices + [solidIndex];
      assert Recorded().texts == old(Recorded()).texts + [Solid(userText, solidIndex)];
    }

    // Each Put is told, as a ghost, what will stand behind the bytes it appends.

    method PutInt(value: int32, ghost rest: bytes)
      modifies this`buffer
      ensures buffer + rest == old(buffer) + PutI(value, rest)
    {
      ghost var before := buffer;
      var v := Unsigned(value);
      buffer := buffer + [v % 0x100];
      buffer := buffer + [v / 0x100 % 0x100];
      buffer := buffer + [v / 0x1_0000 % 0x100];
      buffer := buffer + [v / 0x100_0000 % 0x100];
      ShiftedDigits(v);
      assert buffer == before + IntBytes(value);
      assert (before + IntBytes(value)) + rest == before + (IntBytes(value) + rest);
    }

    method PutByte(value: byte, ghost rest: bytes)
      modifies this`buffer
      ensures buffer + rest == old(buffer) + PutB(value, rest)
    {
      ghost var before := buffer;
      buffer := buffer + [value];
      assert (before + [value]) + rest == before + ([value] + rest);
    }

    method PutString(text: bytes, ghost rest: bytes)
      modifies this`buffer
      ensures buffer + rest == old(buffer) + PutS(text, rest)
    {
      PutInt(ToInt32(|text|), text + rest);
      ghost var middle := buffer;
      buffer := buffer + text;
      assert (middle + text) + rest == middle + (text + rest);
    }

    method PutCreature(ghost rest: bytes)
      modifies this`buffer
      ensures buffer + rest == old(buffer) + CreatureBytes(creature, rest)
    {
      hide PutI, PutB;
      if creature.Some? {
        var s := creature.value;
        ghost var s4 := PutI(s.crossovers, rest);
        ghost var s3 := PutI(s.mutations, s4);
        ghost var s2 := PutI(s.variant, s3);
        ghost var s1 := PutI(s.genus, s2);
        PutByte(1, PutI(s.gender, s1));
        PutInt(s.gender, s1);
        PutInt(s.genus, s2);
        PutInt(s.variant, s3);
        PutInt(s.mutations, s4);
        PutInt(s.crossovers, rest);
      } else {
        PutByte(0, rest);
      }
    }

    method PutEvent(event: LifeEvent, solidIndex: int32, ghost rest: bytes)
      modifies this`buffer
      ensures buffer + rest == old(buffer) + EventBytes(Solid(event, solidIndex), rest)
    {
      hide PutI, PutS;
      ghost var s10 := PutI(solidIndex, rest);
      ghost var s9 := PutS(event.networkUser, s10);
      ghost var s8 := PutS(event.worldId, s9);
      ghost var s7 := PutS(event.worldName, s8);
      ghost var s6 := PutS(event.moniker2, s7);
      ghost var s5 := PutS(event.moniker1, s6);
      ghost var s4 := PutI(event.lifeStage, s5);
      ghost var s3 := PutI(event.realWorldTime, s4);
      ghost var s2 := PutI(event.ageInTicks, s3);
      ghost var s1 := PutI(event.worldTick, s2);
      PutInt(event.eventType, s1);
      PutInt(event.worldTick, s2);
      PutInt(event.ageInTicks, s3);
      PutInt(event.realWorldTime, s4);
      PutInt(event.lifeStage, s5);
      PutString(event.moniker1, s6);
      PutString(event.moniker2, s7);
      PutString(event.worldName, s8);
      PutString(event.worldId, s9);
      PutString(event.networkUser, s10);
      PutInt(solidIndex, rest);
    }

    method PutEvents(ghost rest: bytes)
      requires Valid()
      modifies this`buffer
      ensures buffer + rest == old(buffer) + EventsBytes(Recorded().events, rest)
    {
      hide EventBytes;
      ghost var es := Recorded().events;
      var i := 0;
      while i < |lifeEvents|
        invariant 0 <= i <= |es| == |lifeEvents| == |solidIndices| && es == Recorded().events && Valid()
        invariant buffer + EventsBytes(es[i..], rest) == old(buffer) + EventsBytes(es, rest)
      {
        assert es[i..][0] == es[i] == Solid(lifeEvents[i], solidIndices[i]) && es[i..][1..] == es[i + 1..];
        PutEvent(lifeEvents[i], solidIndices[i], EventsBytes(es[i + 1..], rest));
        i := i + 1;
      }
      assert EventsBytes(es[i..], rest) == rest;
    }

    method PutTexts(ghost rest: bytes)
      requires Valid()
      modifies this`buffer
      ensures buffer + rest == old(buffer) + TextsBytes(Recorded().texts, rest)
    {
      hide PutI, PutS;
      ghost var ts := Recorded().texts;
      var i := 0;
      while i < |userTexts|
        invariant 0 <= i <= |ts| == |userTexts| == |userTextIndices| && ts == Recorded().texts && Valid()
        invariant buffer + TextsBytes(ts[i..], rest) == old(buffer) + TextsBytes(ts, rest)
      {
        assert ts[i..][0] == ts[i] == Solid(userTexts[i], userTextIndices[i]) && ts[i..][1..] == ts[i + 1..];
        ghost var later := TextsBytes(ts[i + 1..], rest);
        PutString(userTexts[i], PutI(userTextIndices[i], later));
        PutInt(userTextIndices[i], later);
        i := i + 1;
      }
      assert TextsBytes(ts[i..], rest) == rest;
    }

    /** Serialises once; what is recorded later does not change the blob. */
    method Serialise()
      requires Valid()
      modifies this`buffer, this`serialised
      ensures Valid() && serialised && Recorded() == old(Recorded())
      ensures buffer == if old(serialised) then old(buffer) else Blob(Recorded())
    {
      hide PutI, PutS, CreatureBytes, EventsBytes, TextsBytes, ToInt32;
      if serialised {
        return;
      }
      serialised := true;
      buffer := [];
      ghost var r := Recorded();
      ghost var s6 := TextsBytes(r.texts, []);
      ghost var s5 := PutI(ToInt32(|r.texts|), s6);
      ghost var s4 := PutS(r.name, s5);
      ghost var s3 := EventsBytes(r.events, s4);
      ghost var s2 := PutI(ToInt32(|r.events|), s3);
      ghost var s1 := CreatureBytes(r.creature, s2);
      PutString(moniker, s1);
      PutCreature(s2);
      PutInt(ToInt32(|lifeEvents|), s3);
      PutEvents(s4);
      PutString(name, s5);
      PutInt(ToInt32(|userTexts|), s6);
      PutTexts([]);
      assert buffer + [] == [] + Blob(r);
      assert buffer + [] == buffer && [] + Blob(r) == Blob(r);
    }

    /** GetAddress: nothing without a moniker. */
    method GetAddress() returns (blob: Option<bytes>)
      requires Valid()
      modifies this`buffer, this`serialised
      ensures Valid() && Recorded() == old(Recorded())
      ensures moniker == [] ==> blob == None && buffer == old(buffer) && serialised == old(serialised)
      ensures moniker != [] ==> serialised && blob == Some(buffer)
                                && buffer == if old(serialised) then old(buffer) else Blob(Recorded())
    {
      if |moniker| == 0 {
        return None;
      }
      Serialise();
      return Some(buffer);
    }

    method GetLength() returns (length: int32)
      requires Valid()
      modifies this`buffer, this`serialised
      ensures Valid() && Recorded() == old(Recorded())
      ensures moniker == [] ==> length == 0 && buffer == old(buffer) && serialised == old(serialised)
      ensures moniker != [] ==> serialised && length == ToInt32(|buffer|)
                                && buffer == if old(serialised) then old(buffer) else Blob(Recorded())
    {
      if |moniker| == 0 {
        return 0;
      }
      Serialise();
      return ToInt32(|buffer|);
    }
  }

  // ---- the unpacker ----

  class NetMemoryUnpack {
    const buffer: bytes
    var read: nat

    ghost predicate Valid()
      reads this
    {
      read <= |buffer|
    }

    ghost function Rest(): bytes
      requires Valid()
      reads this
    {
      buffer[read..]
    }

    constructor (data: bytes)
      ensures Valid() && buffer == data && Rest() == data
    {
      buffer, read := data, 0;
    }

    /** Raw bytes; fails without moving if there are not enough left. */
    method PackOut(size: int) returns (ok: bool, data: bytes)
      requires Valid()
      modifies this
      ensures Valid() && (ok <==> 0 <= size <= |old(Rest())|)
      ensures ok ==> data == old(Rest())[..size] && Rest() == old(Rest())[size..]
      ensures !ok ==> data == [] && read == old(read)
    {
      if size < 0 || read + size > |buffer| {
        return false, [];
      }
      data := buffer[read..read + size];
      read := read + size;
      ok := true;
    }

    method PackOutInt() returns (ok: bool, value: int32)
      requires Valid()
      modifies this
      ensures Valid() && (ok <==> GetI(old(Rest())).Got?)
      ensures ok ==> GetI(old(Rest())) == Got(value, Rest())
      ensures !ok ==> read == old(read)
    {
      hide GetInt;
      value := 0;
      var data;
      ok, data := PackOut(4);
      if ok {
        value := GetInt(data, 0);
        GetIntPrefix(data, Rest(), 0);
        assert old(Rest()) == data + Rest();
      }
    }

    /** A string; a bad length leaves the length consumed. */
    method PackOutString() returns (ok: bool, text: bytes)
      requires Valid()
      modifies this
      ensures Valid() && (ok <==> GetS(old(Rest())).Got?)
      ensures ok ==> GetS(old(Rest())) == Got(text, Rest())
      ensures !ok ==> Rest() == if GetI(old(Rest())).Got? then old(Rest())[4..] else old(Rest())
    {
      text := [];
      var len;
      ghost var s := Rest();
      ok, len := PackOutInt();
      if !ok {
        return;
      }
      ghost var r := Rest();
      assert GetS(s) == if len < 0 || len > |r| then Short else Got(r[..len], r[len..]);
      if len < 0 || read + len > |buffer| {
        return false, text;
      }
      assert buffer[read..][..len] == buffer[read..read + len];
      text := buffer[read..read + len];
      read := read + len;
    }

    method Remaining() returns (n: nat)
      requires Valid()
      ensures n == |Rest()|
    {
      n := |buffer| - read;
    }
  }

  // ---- the packer ----

  class NetMemoryPack {
    const buffer: array<byte>
    const size: nat
    var used: nat

    ghost predicate Valid()
      reads this
    {
      used <= size <= buffer.Length
    }

    ghost function Contents(): bytes
      requires Valid()
      reads this, buffer
    {
      buffer[..used]
    }

    constructor (size: int)
      ensures Valid() && fresh(buffer) && Contents() == [] && this.size == if size < 0 then 0 else size
    {
      this.size := if size < 0 then 0 else size;
      buffer := new byte[(if size < 0 then 0 else size) + 1];
      used := 0;
    }

    /** Data that does not fit is dropped whole. */
    method PackIn(data: bytes)
      requires Valid()
      modifies this, buffer
      ensures Valid() && Contents() == Packed(old(Contents()), size, data)
    {
      ghost var before := buffer[..used];
      if |data| <= 0 {
        assert before + data == before;
        return;
      }
      if used + |data| > size {
        return;
      }
      forall i | 0 <= i < |data| {
        buffer[used + i] := data[i];
      }
      assert buffer[..used] == before;
      assert buffer[used..used + |data|] == data;
      used := used + |data|;
      assert buffer[..used] == before + data;
    }

    method PackInInt(value: int32)
      requires Valid()
      modifies this, buffer
      ensures Valid() && Contents() == Packed(old(Contents()), size, IntBytes(value))
    {
      PackIn(IntBytes(value));
    }

    method PackInString(text: bytes)
      requires Valid()
      modifies this, buffer
      ensures Valid() && Contents() == PackedString(old(Contents()), size, text)
    {
      PackInInt(ToInt32(|text|));
      if |text| > 0 {
        PackIn(text);
      }
    }
  }

  function Packed(contents: bytes, size: nat, data: bytes): bytes {
    if |contents| + |data| <= size then contents + data else contents
  }

  function PackedString(contents: bytes, size: nat, text: bytes): bytes {
    Packed(Packed(contents, size, IntBytes(ToInt32(|text|))), size, text)
  }

  /** A packed string can be read back exactly if there was room for its length and its bytes together:
      with room for the length alone, the length is there and the string is not. */
  lemma PackedStringReads(contents: bytes, size: nat, text: bytes)
    requires |text| < TWO_31 && |contents| <= size
    ensures |contents| <= |PackedString(contents, size, text)|
            && PackedString(contents, size, text)[..|contents|] == contents
    ensures GetS(PackedString(contents, size, text)[|contents|..]) == Got(text, []) <==> |contents| + 4 + |text| <= size
  {
    hide GetInt, IntBytes, ToInt32;
    var r := PackedString(contents, size, text);
    var n := IntBytes(|text|);
    if |contents| + 4 + |text| <= size {
      assert r[|contents|..] == PutS(text, []) by {
        assert r == contents + n + text;
        assert PutS(text, []) == n + (text + []);
      }
      ReadString(text, []);
    } else if |contents| + 4 <= size {
      assert r[|contents|..] == n;
    }
  }

  // ---- reading a whole record with the unpacker ----

  method UnpackByte(u: NetMemoryUnpack) returns (ok: bool, value: byte)
    requires u.Valid()
    modifies u
    ensures u.Valid() && (ok <==> GetB(old(u.Rest())).Got?)
    ensures ok ==> GetB(old(u.Rest())) == Got(value, u.Rest())
  {
    value := 0;
    var data;
    ok, data := u.PackOut(1);
    if ok {
      value := data[0];
    }
  }

  method UnpackCreature(u: NetMemoryUnpack) returns (r: Option<Option<Creature>>)
    requires u.Valid()
    modifies u
    ensures u.Valid() && (r.Some? <==> ReadCreature(old(u.Rest())).Got?)
    ensures r.Some? ==> ReadCreature(old(u.Rest())) == Got(r.value, u.Rest())
  {
    hide GetI, GetB;
    var ok, flag := UnpackByte(u);
    if !ok { return None; }
    if flag == 0 { return Some(None); }
    var gender, genus, variant, mutations, crossovers;
    ok, gender := u.PackOutInt();
    if !ok { return None; }
    ok, genus := u.PackOutInt();
    if !ok { return None; }
    ok, variant := u.PackOutInt();
    if !ok { return None; }
    ok, mutations := u.PackOutInt();
    if !ok { return None; }
    ok, crossovers := u.PackOutInt();
    if !ok { return None; }
    r := Some(Some(Creature(gender, genus, variant, mutations, crossovers)));
  }

  method UnpackEvent(u: NetMemoryUnpack) returns (r: Option<Solid<LifeEvent>>)
    requires u.Valid()
    modifies u
    ensures u.Valid() && (r.Some? <==> ReadEvent(old(u.Rest())).Got?)
    ensures r.Some? ==> ReadEvent(old(u.Rest())) == Got(r.value, u.Rest())
  {
    hide GetI, GetS;
    var eventType, worldTick, ageInTicks, realWorldTime, lifeStage, index;
    var moniker1, moniker2, worldName, worldId, networkUser;
    var ok;
    ok, eventType := u.PackOutInt();
    if !ok { return None; }
    ok, worldTick := u.PackOutInt();
    if !ok { return None; }
    ok, ageInTicks := u.PackOutInt();
    if !ok { return None; }
    ok, realWorldTime := u.PackOutInt();
    if !ok { return None; }
    ok, lifeStage := u.PackOutInt();
    if !ok { return None; }
    ok, moniker1 := u.PackOutString();
    if !ok { return None; }
    ok, moniker2 := u.PackOutString();
    if !ok { return None; }
    ok, worldName := u.PackOutString();
    if !ok { return None; }
    ok, worldId := u.PackOutString();
    if !ok { return None; }
    ok, networkUser := u.PackOutString();
    if !ok { return None; }
    ok, index := u.PackOutInt();
    if !ok { return None; }
    r := Some(Solid(LifeEvent(eventType, worldTick, ageInTicks, realWorldTime, lifeStage,
                              moniker1, moniker2, worldName, worldId, networkUser), index));
  }

  method UnpackEvents(u: NetMemoryUnpack, count: nat) returns (r: Option<seq<Solid<LifeEvent>>>)
    requires u.Valid()
    modifies u
    ensures u.Valid() && (r.Some? <==> ReadEvents(old(u.Rest()), count).Got?)
    ensures r.Some? ==> ReadEvents(old(u.Rest()), count) == Got(r.value, u.Rest())
    decreases count
  {
    hide ReadEvent;
    if count == 0 { return Some([]); }
    var e := UnpackEvent(u);
    if e.None? { return None; }
    var es := UnpackEvents(u, count - 1);
    if es.None? { return None; }
    r := Some([e.value] + es.value);
  }

  method UnpackTexts(u: NetMemoryUnpack, count: nat) returns (r: Option<seq<Solid<bytes>>>)
    requires u.Valid()
    modifies u
    ensures u.Valid() && (r.Some? <==> ReadTexts(old(u.Rest()), count).Got?)
    ensures r.Some? ==> ReadTexts(old(u.Rest()), count) == Got(r.value, u.Rest())
    decreases count
  {
    hide GetI, GetS;
    if count == 0 { return Some([]); }
    var ok, text := u.PackOutString();
    if !ok { return None; }
    var index;
    ok, index := u.PackOutInt();
    if !ok { return None; }
    var ts := UnpackTexts(u, count - 1);
    if ts.None? { return None; }
    r := Some([Solid(text, index)] + ts.value);
  }

  /** Reads a record along the documented layout. */
  method UnpackRecord(u: NetMemoryUnpack) returns (r: Option<Record>)
    requires u.Valid()
    modifies u
    ensures u.Valid() && (r.Some? <==> ReadRecord(old(u.Rest())).Got?)
    ensures r.Some? ==> ReadRecord(old(u.Rest())) == Got(r.value, u.Rest())
  {
    hide GetI, GetS, ReadCreature, ReadEvents, ReadTexts;
    var ok, moniker := u.PackOutString();
    if !ok { return None; }
    var creature := UnpackCreature(u);
    if creature.None? { return None; }
    var eventCount;
    ok, eventCount := u.PackOutInt();
    if !ok || eventCount < 0 { return None; }
    var events := UnpackEvents(u, eventCount);
    if events.None? { return None; }
    var name;
    ok, name := u.PackOutString();
    if !ok { return None; }
    var textCount;
    ok, textCount := u.PackOutInt();
    if !ok || textCount < 0 { return None; }
    var texts := UnpackTexts(u, textCount);
    if texts.None? { return None; }
    r := Some(Record(moniker, creature.value, events.value, name, texts.value));
  }

  /** What the game records and serialises is what a reader of the blob gets, with nothing left over. */
  method ReadBack(out: HistoryTransferOut) returns (r: Option<Record>, remaining: nat)
    requires out.Valid() && out.moniker != [] && !out.serialised && Fits(out.Recorded())
    modifies out
    ensures r == Some(old(out.Recorded())) && remaining == 0
  {
    hide Blob, ReadRecord, Fits;
    ghost var record := out.Recorded();
    var blob := out.GetAddress();
    var u := new NetMemoryUnpack(blob.value);
    ReadBlob(record);
    r := UnpackRecord(u);
    remaining := u.Remaining();
  }
}
