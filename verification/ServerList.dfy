/** The server list a handshake response may carry. */
module ServerList {
  import opened Bytes

  datatype ServerInfo = ServerInfo(host: bytes, name: bytes, port: int32, id: int32)

  /** The end of a zero-terminated text: its terminator, or the end of the data. */
  function TextEnd(raw: bytes, offset: nat): (end: nat)
    ensures offset <= end
    ensures end < |raw| ==> raw[end] == 0
    decreases |raw| - offset
  {
    if offset >= |raw| || raw[offset] == 0 then offset else TextEnd(raw, offset + 1)
  }

  /** Up to `count` entries: port, id, address, name. An entry cut short ends the list. */
  function Entries(raw: bytes, offset: nat, count: nat): seq<ServerInfo>
    decreases count
  {
    if count == 0 || offset + 8 > |raw| then []
    else
      var address := offset + 8;
      var addressEnd := TextEnd(raw, address);
      var name := addressEnd + 1;
      var nameEnd := TextEnd(raw, name);
      if nameEnd + 1 > |raw| then []
      else
        var info := ServerInfo(raw[address..addressEnd], raw[name..nameEnd], GetInt(raw, offset),
                               GetInt(raw, offset + 4));
        [info] + Entries(raw, nameEnd + 1, count - 1)
  }

  /** The servers a handshake response announces; none keeps the old list. */
  function Announced(raw: bytes): seq<ServerInfo> {
    if |raw| >= 60 && GetInt(raw, 48) == 1 && GetInt(raw, 52) == 1 && 0 < GetInt(raw, 56) < 1000
    then Entries(raw, 60, GetInt(raw, 56)) else []
  }

  /** Collects a zero-terminated text; `end` is where its terminator stands, or should have stood. */
  method ReadText(raw: bytes, offset: nat) returns (text: bytes, end: nat)
    ensures end == TextEnd(raw, offset)
    ensures offset <= |raw| ==> end <= |raw| && text == raw[offset..end]
    ensures offset > |raw| ==> end == offset
  {
    text, end := [], offset;
    while end < |raw| && raw[end] != 0
      invariant offset <= end && (offset <= |raw| ==> end <= |raw|)
      invariant offset > |raw| ==> end == offset
      invariant offset <= |raw| ==> text == raw[offset..end]
      invariant TextEnd(raw, end) == TextEnd(raw, offset)
    {
      text := text + [raw[end]];
      end := end + 1;
    }
  }

  /** The loop of HandleHandshakeResponse. Every index it reads is below the end of the data. */
  method ReadServers(raw: bytes) returns (servers: seq<ServerInfo>)
    ensures servers == Announced(raw)
  {
    hide TextEnd;
    servers := [];
    if |raw| < 60 {
      return;
    }
    var flagA, flagB, count := GetInt(raw, 48), GetInt(raw, 52), GetInt(raw, 56);
    if flagA != 1 || flagB != 1 || count <= 0 || count >= 1000 {
      return;
    }
    assert Announced(raw) == Entries(raw, 60, count);
    servers := ReadEntries(raw, count);
  }

  lemma EntryStep(raw: bytes, offset: nat, addressEnd: nat, nameEnd: nat, count: nat)
    requires count > 0 && offset + 8 <= |raw|
    requires addressEnd == TextEnd(raw, offset + 8) && nameEnd == TextEnd(raw, addressEnd + 1)
    ensures Entries(raw, offset, count) ==
            if nameEnd + 1 > |raw| then []
            else
              var info := ServerInfo(raw[offset + 8..addressEnd], raw[addressEnd + 1..nameEnd], GetInt(raw, offset),
                                     GetInt(raw, offset + 4));
              [info] + Entries(raw, nameEnd + 1, count - 1)
  {
  }

  lemma NoEntries(raw: bytes, offset: nat, count: nat)
    requires count == 0 || offset + 8 > |raw|
    ensures Entries(raw, offset, count) == []
  {
  }

  method ReadEntries(raw: bytes, count: nat) returns (servers: seq<ServerInfo>)
    requires |raw| >= 60
    ensures servers == Entries(raw, 60, count)
  {
    hide TextEnd, GetInt, Entries;
    servers := [];
    var offset := 60;
    var i := 0;
    while i < count
      invariant 0 <= i <= count && 60 <= offset <= |raw|
      invariant servers + Entries(raw, offset, count - i) == Entries(raw, 60, count)
    {
      if offset + 8 > |raw| {
        break;
      }
      var port, id := GetInt(raw, offset), GetInt(raw, offset + 4);
      ghost var start := offset;
      offset := offset + 8;
      var address, name;
      address, offset := ReadText(raw, offset);
      ghost var addressEnd := offset;
      offset := offset + 1;
      name, offset := ReadText(raw, offset);
      EntryStep(raw, start, addressEnd, offset, count - i);
      offset := offset + 1;
      if offset > |raw| {
        assert servers + [] == servers;
        return;
      }
      var info := ServerInfo(address, name, port, id);
      assert servers + ([info] + Entries(raw, offset, count - i - 1))
             == (servers + [info]) + Entries(raw, offset, count - i - 1);
      servers := servers + [info];
      i := i + 1;
    }
    NoEntries(raw, offset, count - i);
    assert servers + [] == servers;
  }

  // ---- the encoder and its inverse ----

  predicate Clean(s: ServerInfo) {
    0 !in s.host && 0 !in s.name
  }

  function Encode(s: ServerInfo): bytes {
    IntBytes(s.port) + IntBytes(s.id) + s.host + [0] + s.name + [0]
  }

  function EncodeAll(list: seq<ServerInfo>): bytes {
    if list == [] then [] else Encode(list[0]) + EncodeAll(list[1..])
  }

  lemma {:induction false} TextEndIs(raw: bytes, offset: nat, end: nat)
    requires offset <= end && (end <= |raw| || offset == end)
    requires forall i | offset <= i < end :: raw[i] != 0
    requires end < |raw| ==> raw[end] == 0
    ensures TextEnd(raw, offset) == end
    decreases end - offset
  {
    if offset < end {
      TextEndIs(raw, offset + 1, end);
    }
  }

  lemma TextAt(front: bytes, text: bytes, back: bytes)
    requires 0 !in text
    ensures TextEnd(front + text + [0] + back, |front|) == |front| + |text|
    ensures (front + text + [0] + back)[|front|..|front| + |text|] == text
  {
    var raw, n := front + text + [0] + back, |front|;
    assert raw[n..n + |text|] == text && raw[n + |text|] == 0;
    forall i | n <= i < n + |text| ensures raw[i] != 0 {
      assert raw[i] == text[i - n];
    }
    TextEndIs(raw, n, n + |text|);
  }

  /** A whole entry is read back, and reading goes on right after it. */
  lemma WholeEntry(before: bytes, s: ServerInfo, after: bytes, count: nat)
    requires Clean(s) && count > 0
    ensures Entries(before + Encode(s) + after, |before|, count)
         == [s] + Entries(before + Encode(s) + after, |before| + |Encode(s)|, count - 1)
  {
    hide GetInt, IntBytes, TextEnd, Entries;
    var raw, n := before + Encode(s) + after, |before|;
    EntryNumbers(before, IntBytes(s.port), IntBytes(s.id), s.host + [0] + s.name + [0] + after);
    assert raw == before + IntBytes(s.port) + IntBytes(s.id) + (s.host + [0] + s.name + [0] + after);
    GetPutInt(raw, n, s.port);
    GetPutInt(raw, n + 4, s.id);
    EntryTexts(before + IntBytes(s.port) + IntBytes(s.id), s.host, s.name, after);
    assert raw == before + IntBytes(s.port) + IntBytes(s.id) + s.host + [0] + s.name + [0] + after;
    EntryStep(raw, n, n + 8 + |s.host|, n + 9 + |s.host| + |s.name|, count);
  }

  lemma EntryNumbers(before: bytes, port: bytes, id: bytes, after: bytes)
    requires |port| == 4 && |id| == 4
    ensures var raw, n := before + port + id + after, |before|;
            raw[n..n + 4] == port && raw[n + 4..n + 8] == id
  {
  }

  lemma EntryTexts(front: bytes, host: bytes, name: bytes, after: bytes)
    requires 0 !in host && 0 !in name
    ensures var raw, n, h := front + host + [0] + name + [0] + after, |front|, |host|;
            && TextEnd(raw, n) == n + h && raw[n..n + h] == host
            && TextEnd(raw, n + h + 1) == n + h + 1 + |name| && raw[n + h + 1..n + h + 1 + |name|] == name
  {
    hide TextEnd;
    TextAt(front, host, name + [0] + after);
    assert front + host + [0] + (name + [0] + after) == front + host + [0] + name + [0] + after;
    TextAt(front + host + [0], name, after);
  }

  /** The beginning of an entry, from its first text on, has no end of the second text in it. */
  lemma CutTexts(front: bytes, host: bytes, name: bytes, part: bytes)
    requires 0 !in host && 0 !in name
    requires part <= host + [0] + name
    ensures TextEnd(front + part, TextEnd(front + part, |front|) + 1) >= |front + part|
  {
    var raw, n, h := front + part, |front|, |host|;
    var whole := host + [0] + name;
    assert forall i | 0 <= i < |part| :: raw[n + i] == whole[i];
    if |part| <= h {
      forall i | n <= i < |raw| ensures raw[i] != 0 {
        assert raw[i] == whole[i - n] == host[i - n];
      }
      TextEndIs(raw, n, |raw|);
    } else {
      forall i | n <= i < n + h ensures raw[i] != 0 {
        assert raw[i] == whole[i - n] == host[i - n];
      }
      assert raw[n + h] == whole[h];
      TextEndIs(raw, n, n + h);
      forall i | n + h + 1 <= i < |raw| ensures raw[i] != 0 {
        assert raw[i] == whole[i - n] == name[i - n - h - 1];
      }
      TextEndIs(raw, n + h + 1, |raw|);
    }
  }

  /** An entry cut short anywhere ends the list. */
  lemma CutEntry(before: bytes, s: ServerInfo, part: bytes, count: nat)
    requires Clean(s) && part <= Encode(s) && |part| < |Encode(s)|
    ensures Entries(before + part, |before|, count) == []
  {
    hide GetInt, IntBytes, TextEnd, Entries;
    var raw, n := before + part, |before|;
    if count == 0 || |part| < 8 {
      NoEntries(raw, n, count);
    } else {
      var numbers, texts := IntBytes(s.port) + IntBytes(s.id), s.host + [0] + s.name;
      assert Encode(s) == numbers + texts + [0];
      assert part == numbers + part[8..] && part[8..] <= texts;
      assert raw == (before + numbers) + part[8..];
      CutTexts(before + numbers, s.host, s.name, part[8..]);
      var addressEnd := TextEnd(raw, n + 8);
      EntryStep(raw, n, addressEnd, TextEnd(raw, addressEnd + 1), count);
    }
  }

  /** Cut anywhere, the data yields exactly the entries that are wholly there. */
  lemma {:induction false} CutList(before: bytes, list: seq<ServerInfo>, part: bytes, whole: nat)
    requires forall i | 0 <= i < |list| :: Clean(list[i])
    requires part <= EncodeAll(list)
    requires whole <= |list| && |EncodeAll(list[..whole])| <= |part|
    requires whole < |list| ==> |part| < |EncodeAll(list[..whole + 1])|
    ensures Entries(before + part, |before|, |list|) == list[..whole]
    decreases list
  {
    hide Encode, EncodeAll, Entries, Clean;
    if list == [] {
      NothingEncoded();
      NoEntries(before + part, |before|, 0);
    } else {
      var s, rest, e := list[0], list[1..], Encode(list[0]);
      FirstEncoded(list);
      if whole == 0 {
        NothingEncoded();
        FirstEncoded(list[..1]);
        assert list[..1][1..] == [];
        assert part <= e;
        CutEntry(before, s, part, |list|);
      } else {
        FirstEncoded(list[..whole]);
        assert list[..whole][1..] == rest[..whole - 1];
        if whole < |list| {
          FirstEncoded(list[..whole + 1]);
          assert list[..whole + 1][1..] == rest[..whole];
        }
        var more := part[|e|..];
        assert part == e + more && more <= EncodeAll(rest);
        WholeEntry(before, s, more, |list|);
        CutList(before + e, rest, more, whole - 1);
        assert before + part == before + e + more;
      }
    }
  }

  lemma NothingEncoded()
    ensures EncodeAll([]) == []
  {
  }

  lemma FirstEncoded(list: seq<ServerInfo>)
    requires list != []
    ensures EncodeAll(list) == Encode(list[0]) + EncodeAll(list[1..])
  {
  }

  /** A handshake response with a list of 1 to 999 servers, cut at any byte after the count, announces
      exactly the servers that are wholly there; uncut, the list that was encoded. */
  lemma AnnouncedIsPrefix(prefix: bytes, list: seq<ServerInfo>, cut: nat, whole: nat)
    requires |prefix| == 60 && GetInt(prefix, 48) == 1 && GetInt(prefix, 52) == 1 && GetInt(prefix, 56) == |list|
    requires 0 < |list| < 1000 && forall i | 0 <= i < |list| :: Clean(list[i])
    requires cut <= |EncodeAll(list)|
    requires whole <= |list| && |EncodeAll(list[..whole])| <= cut
    requires whole < |list| ==> cut < |EncodeAll(list[..whole + 1])|
    ensures Announced(prefix + EncodeAll(list)[..cut]) == list[..whole]
  {
    hide Entries, EncodeAll, GetInt;
    var part := EncodeAll(list)[..cut];
    GetIntPrefix(prefix, part, 48);
    GetIntPrefix(prefix, part, 52);
    GetIntPrefix(prefix, part, 56);
    CutList(prefix, list, part, whole);
  }

  lemma AnnouncedIsList(prefix: bytes, list: seq<ServerInfo>)
    requires |prefix| == 60 && GetInt(prefix, 48) == 1 && GetInt(prefix, 52) == 1 && GetInt(prefix, 56) == |list|
    requires 0 < |list| < 1000 && forall i | 0 <= i < |list| :: Clean(list[i])
    ensures Announced(prefix + EncodeAll(list)) == list
  {
    hide Announced, EncodeAll, GetInt;
    assert list[..|list|] == list;
    assert EncodeAll(list)[..|EncodeAll(list)|] == EncodeAll(list);
    AnnouncedIsPrefix(prefix, list, |EncodeAll(list)|, |list|);
  }
}
