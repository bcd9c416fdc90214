/** The NetBabel wire protocol: packet headers, packets sent to the server, packets parsed from it. */
module Protocol {
  import opened Bytes
  import opened Uins

  const MESSAGE: int32 := 0x09
  const HANDSHAKE_RESPONSE: int32 := 0x0A
  const USER_ONLINE: int32 := 0x0D
  const USER_OFFLINE: int32 := 0x0E
  const GET_CLIENT_INFO: int32 := 0x0F
  const ADD_WWR_ENTRY: int32 := 0x10
  const REMOVE_WWR_ENTRY: int32 := 0x11
  const GET_CONNECTION_DETAIL: int32 := 0x13
  const CLIENT_COMMAND: int32 := 0x14
  const GET_STATUS: int32 := 0x18
  const ONLINE_CHANGE: int32 := 0x1D
  const VIRTUAL_CONNECT: int32 := 0x1E
  const VIRTUAL_CIRCUIT: int32 := 0x1F
  const VIRTUAL_CIRCUIT_CLOSE: int32 := 0x20
  const HANDSHAKE: int32 := 0x25
  const MIGRATE: int32 := 0x2A
  const DS_FETCH_RANDOM_USER: int32 := 0x0221
  const DS_FEED_HISTORY: int32 := 0x0321

  const HEADER_SIZE := 32
  const VIRTUAL_CONNECT_ACCEPT: int32 := 0x0E
  const HANDSHAKE_CLIENT_VERSION: int32 := 1
  const HANDSHAKE_PRODUCT_CODE: int32 := 2
  const HANDSHAKE_MAGIC_MODERN: int32 := 20240219
  /** Upper bound on claimed further-data lengths. */
  const MAX_FURTHER_DATA := 32 * 1024 * 1024
  /** NetMessages::MESG_PRAY_FILE */
  const MESG_PRAY_FILE: int32 := 0

  /** The 32-byte packet header; `kind` is the type field. */
  datatype Header = Header(kind: int32, a: int32, b: int32, c: int32, d: int32,
                           ticket: int32, furtherData: int32, e: int32)

  function Fields(h: Header): (r: seq<int32>)
    ensures |r| == 8
  {
    [h.kind, h.a, h.b, h.c, h.d, h.ticket, h.furtherData, h.e]
  }

  /** PacketHeader::Write */
  function WriteHeader(h: Header): (r: bytes)
    ensures |r| == HEADER_SIZE
  {
    Ints(Fields(h))
  }

  /** PacketHeader::Read */
  function ReadHeader(data: bytes): Header
    requires |data| >= HEADER_SIZE
  {
    Header(GetInt(data, 0), GetInt(data, 4), GetInt(data, 8), GetInt(data, 12),
           GetInt(data, 16), GetInt(data, 20), GetInt(data, 24), GetInt(data, 28))
  }

  lemma ReadWriteHeader(h: Header, rest: bytes)
    ensures ReadHeader(WriteHeader(h) + rest) == h
  {
    var f := Fields(h);
    IntsAt(f, rest, 0);
    IntsAt(f, rest, 1);
    IntsAt(f, rest, 2);
    IntsAt(f, rest, 3);
    IntsAt(f, rest, 4);
    IntsAt(f, rest, 5);
    IntsAt(f, rest, 6);
    IntsAt(f, rest, 7);
  }

  lemma ReadHeaderPrefix(data: bytes, more: bytes)
    requires |data| >= HEADER_SIZE
    ensures ReadHeader(data + more) == ReadHeader(data)
  {
    GetIntPrefix(data, more, 0);
    GetIntPrefix(data, more, 4);
    GetIntPrefix(data, more, 8);
    GetIntPrefix(data, more, 12);
    GetIntPrefix(data, more, 16);
    GetIntPrefix(data, more, 20);
    GetIntPrefix(data, more, 24);
    GetIntPrefix(data, more, 28);
  }

  // ---- packets to the server ----

  datatype Packet =
    | Handshake(user: Uin, ticket: int32, nickname: bytes, password: bytes, magic: int32)
    | WwrModify(add: bool, server: Uin, target: Uin)
    | GetClientInfo(server: Uin, target: Uin, ticket: int32)
    | GetConnectionDetail(server: Uin, target: Uin, ticket: int32)
    | AskStatus(server: Uin, ticket: int32)
    | AskRandomUser(server: Uin, user: Uin, ticket: int32)
    | SendHistory(server: Uin, user: Uin, ticket: int32, blob: bytes)
    | Message(server: Uin, user: Uin, target: Uin, payload: bytes)
    | ConnectAccept(server: Uin, initiator: Uin, initiatorVSN: int32, localVSN: int32)
  {
    /** Every length the packet carries fits the int that carries it. */
    predicate Fits() {
      match this
      case Handshake(_, _, nickname, password, _) => |nickname| + 1 < TWO_31 && |password| + 1 < TWO_31
      case SendHistory(_, _, _, blob) => |blob| < TWO_31
      case Message(_, _, _, payload) => |payload| + 24 < TWO_31
      case _ => true
    }

    /** What of the packet travels: a virtual socket number is 16 bits wide. */
    function OnWire(): Packet {
      if ConnectAccept? then this.(initiatorVSN := LowHalf(initiatorVSN), localVSN := LowHalf(localVSN)) else this
    }
  }

  function HeaderOf(p: Packet): Header {
    match p
    case Handshake(user, ticket, _, _, _) => Header(HANDSHAKE, 0, 0, user.uid, user.hid, ticket, 0, 0)
    case WwrModify(add, server, target) =>
      Header(if add then ADD_WWR_ENTRY else REMOVE_WWR_ENTRY, server.uid, server.hid, target.uid, target.hid, 0, 0, 0)
    case GetClientInfo(server, target, ticket) =>
      Header(GET_CLIENT_INFO, server.uid, server.hid, target.uid, target.hid, ticket, 0, 0)
    case GetConnectionDetail(server, target, ticket) =>
      Header(GET_CONNECTION_DETAIL, server.uid, server.hid, target.uid, target.hid, ticket, 0, 0)
    case AskStatus(server, ticket) => Header(GET_STATUS, server.uid, server.hid, 0, 0, ticket, 0, 0)
    case AskRandomUser(server, user, ticket) =>
      Header(DS_FETCH_RANDOM_USER, server.uid, server.hid, user.uid, user.hid, ticket, 0, 3)
    case SendHistory(server, user, ticket, blob) =>
      Header(DS_FEED_HISTORY, server.uid, server.hid, user.uid, user.hid, ticket, ToInt32(|blob|), 0)
    case Message(server, user, _, payload) =>
      Header(MESSAGE, server.uid, server.hid, user.uid, user.hid, 0, ToInt32(24 + |payload|), 0)
    case ConnectAccept(server, initiator, initiatorVSN, localVSN) =>
      Header(CLIENT_COMMAND, server.uid, server.hid, initiator.uid, initiator.hid, 0, 0,
             ToInt32(LowHalf(initiatorVSN) * 0x1_0000 + LowHalf(localVSN)))
  }

  /** The integers between the header and the variable part. */
  function Extras(p: Packet): seq<int32> {
    match p
    case Handshake(_, _, nickname, password, magic) =>
      [HANDSHAKE_CLIENT_VERSION, HANDSHAKE_PRODUCT_CODE, magic, ToInt32(|nickname| + 1), ToInt32(|password| + 1)]
    case Message(_, user, target, payload) =>
      [target.uid, target.hid, ToInt32(24 + |payload|), user.hid, user.uid, ToInt32(|payload|), 0, 1]
    case ConnectAccept(_, _, _, _) => [VIRTUAL_CONNECT_ACCEPT]
    case _ => []
  }

  function Tail(p: Packet): bytes {
    match p
    case Handshake(_, _, nickname, password, _) => nickname + [0] + password + [0]
    case SendHistory(_, _, _, blob) => blob
    case Message(_, _, _, payload) => payload
    case _ => []
  }

  function Layout(h: Header, extras: seq<int32>, tail: bytes): (r: bytes)
    ensures |r| == HEADER_SIZE + 4 * |extras| + |tail|
  {
    WriteHeader(h) + Ints(extras) + tail
  }

  /** The Build* functions: the complete bytes of a packet. */
  function Build(p: Packet): bytes {
    Layout(HeaderOf(p), Extras(p), Tail(p))
  }

  /** How a server finds the end of a packet, from the documented layout alone. */
  function WireSize(s: bytes): Option<nat> {
    if |s| < HEADER_SIZE then None
    else
      var kind := GetInt(s, 0);
      var further := GetInt(s, 24);
      if kind == HANDSHAKE then
        if |s| < 52 || GetInt(s, 44) < 1 || GetInt(s, 48) < 1 then None
        else Some(52 + GetInt(s, 44) as int + GetInt(s, 48) as int)
      else if kind == CLIENT_COMMAND then Some(36)
      else if further < 0 then None
      else if kind == MESSAGE then Some(40 + further)
      else Some(32 + further)
  }

  /** How a server reads the fields of one packet that is there in full. */
  function ReadPacket(s: bytes): Option<Packet>
    requires WireSize(s) == Some(|s|)
  {
    var h := ReadHeader(s);
    var ab, cd := Uin(h.a, h.b), Uin(h.c, h.d);
    if h.kind == HANDSHAKE then
      var n: int := GetInt(s, 44);
      Some(Handshake(cd, h.ticket, s[52..52 + n - 1], s[52 + n..|s| - 1], GetInt(s, 40)))
    else if h.kind == ADD_WWR_ENTRY then Some(WwrModify(true, ab, cd))
    else if h.kind == REMOVE_WWR_ENTRY then Some(WwrModify(false, ab, cd))
    else if h.kind == GET_CLIENT_INFO then Some(GetClientInfo(ab, cd, h.ticket))
    else if h.kind == GET_CONNECTION_DETAIL then Some(GetConnectionDetail(ab, cd, h.ticket))
    else if h.kind == GET_STATUS then Some(AskStatus(ab, h.ticket))
    else if h.kind == DS_FETCH_RANDOM_USER then Some(AskRandomUser(ab, cd, h.ticket))
    else if h.kind == DS_FEED_HISTORY then Some(SendHistory(ab, cd, h.ticket, s[32..]))
    else if h.kind == MESSAGE && |s| >= 64 then
      Some(Message(ab, Uin(GetInt(s, 48), GetInt(s, 44)), Uin(GetInt(s, 32), GetInt(s, 36)), s[64..]))
    else if h.kind == CLIENT_COMMAND && GetInt(s, 32) == VIRTUAL_CONNECT_ACCEPT then
      Some(ConnectAccept(ab, cd, ToUint32(h.e) / 0x1_0000, LowHalf(h.e)))
    else None
  }

  /** Splits a stream into packets; what is left over is an incomplete or unknown packet. */
  function Split(s: bytes): (seq<Packet>, bytes)
    decreases |s|
  {
    match WireSize(s)
    case None => ([], s)
    case Some(n) =>
      if n < HEADER_SIZE || n > |s| || WireSize(s[..n]) != Some(n) then ([], s)
      else
        match ReadPacket(s[..n])
        case None => ([], s)
        case Some(p) =>
          var (more, rest) := Split(s[n..]);
          ([p] + more, rest)
  }

  /** The integers of a laid-out packet stand where the layout says, whatever follows. */
  lemma LayoutHeader(h: Header, extras: seq<int32>, tail: bytes, rest: bytes)
    ensures |Layout(h, extras, tail) + rest| >= HEADER_SIZE + 4 * |extras|
    ensures ReadHeader(Layout(h, extras, tail) + rest) == h
  {
    var after := Ints(extras) + (tail + rest);
    assert Layout(h, extras, tail) + rest == WriteHeader(h) + after;
    ReadWriteHeader(h, after);
  }

  lemma LayoutInt(h: Header, extras: seq<int32>, tail: bytes, rest: bytes, i: nat)
    requires i < |extras|
    ensures GetInt(Layout(h, extras, tail) + rest, 32 + 4 * i) == extras[i]
  {
    hide GetInt, Ints;
    var s := Layout(h, extras, tail) + rest;
    var after := Ints(extras) + (tail + rest);
    assert s[32..|s|] == after;
    IntsAt(extras, tail + rest, i);
    GetIntSlice(s, 32, |s|, 4 * i);
  }

  lemma LayoutTail(h: Header, extras: seq<int32>, tail: bytes)
    ensures Layout(h, extras, tail)[HEADER_SIZE + 4 * |extras|..] == tail
  {
  }

  /** The packet's own integers give its length, whatever follows it. */
  lemma BuiltSize(p: Packet, rest: bytes)
    requires p.Fits()
    ensures WireSize(Build(p) + rest) == Some(|Build(p)|)
  {
    hide GetInt, Ints;
    var h, extras, tail := HeaderOf(p), Extras(p), Tail(p);
    LayoutHeader(h, extras, tail, rest);
    var s := Build(p) + rest;
    assert ReadHeader(s).kind == GetInt(s, 0) && ReadHeader(s).furtherData == GetInt(s, 24);
    if p.Handshake? {
      LayoutInt(h, extras, tail, rest, 3);
      LayoutInt(h, extras, tail, rest, 4);
    }
  }

  lemma HandshakeFields(p: Packet)
    requires p.Fits() && p.Handshake? && WireSize(Build(p)) == Some(|Build(p)|)
    ensures ReadPacket(Build(p)) == Some(p)
  {
    hide GetInt, Ints, WireSize;
    var s, h, extras, tail := Build(p), HeaderOf(p), Extras(p), Tail(p);
    assert s + [] == s;
    LayoutHeader(h, extras, tail, []);
    LayoutInt(h, extras, tail, [], 2);
    LayoutInt(h, extras, tail, [], 3);
    LayoutTail(h, extras, tail);
    var n := |p.nickname|;
    assert s[52..] == tail;
    assert tail[..n] == p.nickname && tail[n + 1..|tail| - 1] == p.password;
    SliceSlice(s, 52, |s|, 0, n);
    SliceSlice(s, 52, |s|, n + 1, |tail| - 1);
    assert s[52..|s|] == tail;
  }

  lemma MessageFields(p: Packet)
    requires p.Fits() && p.Message? && WireSize(Build(p)) == Some(|Build(p)|)
    ensures ReadPacket(Build(p)) == Some(p)
  {
    hide GetInt, Ints, WireSize;
    var s, h, extras, tail := Build(p), HeaderOf(p), Extras(p), Tail(p);
    assert s + [] == s;
    LayoutHeader(h, extras, tail, []);
    LayoutInt(h, extras, tail, [], 0);
    LayoutInt(h, extras, tail, [], 1);
    LayoutInt(h, extras, tail, [], 3);
    LayoutInt(h, extras, tail, [], 4);
    LayoutTail(h, extras, tail);
  }

  lemma AcceptFields(p: Packet)
    requires p.ConnectAccept? && WireSize(Build(p)) == Some(|Build(p)|)
    ensures ReadPacket(Build(p)) == Some(p.OnWire())
  {
    hide GetInt, Ints, WireSize, ToInt32, ToUint32, LowHalf;
    var s, h, extras, tail := Build(p), HeaderOf(p), Extras(p), Tail(p);
    assert s + [] == s;
    LayoutHeader(h, extras, tail, []);
    LayoutInt(h, extras, tail, [], 0);
    var hi: int, lo: int := LowHalf(p.initiatorVSN), LowHalf(p.localVSN);
    HalfOf(hi * 0x1_0000 + lo, hi, lo);
  }

  lemma PlainFields(p: Packet)
    requires p.Fits() && Extras(p) == [] && WireSize(Build(p)) == Some(|Build(p)|)
    ensures ReadPacket(Build(p)) == Some(p)
  {
    hide GetInt, Ints, WireSize;
    assert Build(p) + [] == Build(p);
    LayoutHeader(HeaderOf(p), Extras(p), Tail(p), []);
    LayoutTail(HeaderOf(p), Extras(p), Tail(p));
  }

  /** Every field of a packet, its virtual socket numbers cut to 16 bits, is read back by the server. */
  lemma BuiltFields(p: Packet)
    requires p.Fits()
    ensures WireSize(Build(p)) == Some(|Build(p)|) && ReadPacket(Build(p)) == Some(p.OnWire())
  {
    hide Build, ReadPacket, WireSize;
    assert Build(p) + [] == Build(p);
    BuiltSize(p, []);
    match p
    case Handshake(_, _, _, _, _) => HandshakeFields(p);
    case Message(_, _, _, _) => MessageFields(p);
    case ConnectAccept(_, _, _, _) => AcceptFields(p);
    case _ => PlainFields(p);
  }

  lemma HalfOf(e: int, hi: int, lo: int)
    requires 0 <= hi < 0x1_0000 && 0 <= lo < 0x1_0000 && e == hi * 0x1_0000 + lo
    ensures LowHalf(ToInt32(e)) == lo && ToUint32(ToInt32(e)) / 0x1_0000 == hi
  {
    var t: int := ToInt32(e);
    assert t == e || t == e - TWO_32;
    if t == e - TWO_32 {
      assert t == (hi - 0x1_0000) * 0x1_0000 + lo;
    }
  }

  lemma BuiltLength(p: Packet)
    ensures |Build(p)| >= HEADER_SIZE
  {
  }

  function BuildAll(ps: seq<Packet>): bytes {
    if ps == [] then [] else Build(ps[0]) + BuildAll(ps[1..])
  }

  lemma {:induction false} BuildAllSnoc(ps: seq<Packet>, p: Packet)
    ensures BuildAll(ps + [p]) == BuildAll(ps) + Build(p)
  {
    hide Build;
    if ps != [] {
      assert (ps + [p])[1..] == ps[1..] + [p];
      BuildAllSnoc(ps[1..], p);
    } else {
      assert BuildAll([p]) == Build(p) + BuildAll([]);
    }
  }

  function OnWireAll(ps: seq<Packet>): (r: seq<Packet>)
    ensures |r| == |ps|
  {
    if ps == [] then [] else [ps[0].OnWire()] + OnWireAll(ps[1..])
  }

  predicate AllFit(ps: seq<Packet>) {
    forall i | 0 <= i < |ps| :: ps[i].Fits()
  }

  /** Splitting a stream of whole packets followed by the beginning of another gives back exactly
      those packets and that beginning: outgoing streams are uniquely decodable at every point. */
  lemma {:induction false} SplitBuilt(ps: seq<Packet>, next: Packet, part: bytes)
    requires AllFit(ps) && next.Fits()
    requires part <= Build(next) && |part| < |Build(next)|
    ensures Split(BuildAll(ps) + part) == (OnWireAll(ps), part)
  {
    hide Build, ReadPacket, WireSize;
    if ps == [] {
      assert BuildAll(ps) + part == part;
      PartialPacket(next, part);
    } else {
      var p, more := ps[0], BuildAll(ps[1..]) + part;
      var s := BuildAll(ps) + part;
      assert |Build(p)| >= HEADER_SIZE by { BuiltLength(p); }
      assert s == Build(p) + more;
      BuiltSize(p, more);
      BuiltFields(p);
      assert s[..|Build(p)|] == Build(p) && s[|Build(p)|..] == more;
      SplitBuilt(ps[1..], next, part);
    }
  }

  /** The beginning of a packet is never taken for a whole one. */
  lemma PartialPacket(p: Packet, part: bytes)
    requires p.Fits() && part <= Build(p) && |part| < |Build(p)|
    ensures WireSize(part).None? || WireSize(part).value > |part|
  {
    var rest := Build(p)[|part|..];
    assert Build(p) == part + rest;
    assert Build(p) + [] == Build(p);
    BuiltSize(p, []);
    if |part| >= HEADER_SIZE {
      GetIntPrefix(part, rest, 0);
      GetIntPrefix(part, rest, 24);
      if |part| >= 52 {
        GetIntPrefix(part, rest, 44);
        GetIntPrefix(part, rest, 48);
      }
    }
  }

  // ---- packed messages ----

  datatype Mesg = Mesg(sender: Uin, kind: int32, payload: bytes)

  /** ParsePackedBabelMessage */
  function ParseMessage(data: bytes): Option<Mesg> {
    if |data| < 36 then None
    else
      var length: int := GetInt(data, 12);
      if length < 12 || length > |data| - 24 then None
      else Some(Mesg(Uin(GetInt(data, 8), LowHalf(GetInt(data, 4))), GetInt(data, 28), data[36..24 + length]))
  }

  /** What the relay forwards of a message packet: the target stands between header and body, and is dropped. */
  function Relay(packet: bytes): bytes
    requires |packet| >= 40
  {
    packet[..32] + packet[40..]
  }

  /** A binary message: its own length, its type, a reserved zero, then the contents. */
  function BinaryMessage(kind: int32, contents: bytes): bytes {
    Ints([12, kind, 0]) + contents
  }

  /** The body a relayed message arrives with parses back into sender, type and contents. */
  lemma RelayedMessage(server: Uin, user: Uin, target: Uin, kind: int32, contents: bytes)
    requires |contents| + 36 < TWO_31
    ensures var p := Message(server, user, target, BinaryMessage(kind, contents));
            var r := Relay(Build(p));
            && |r| == HEADER_SIZE + 36 + |contents|
            && ReadHeader(r) == HeaderOf(p)
            && ParseMessage(r[32..]) == Some(Mesg(Uin(user.uid, LowHalf(user.hid)), kind, contents))
  {
    hide Relay, WriteHeader, Ints, ParseMessage;
    var payload := BinaryMessage(kind, contents);
    var p := Message(server, user, target, payload);
    var h, n := HeaderOf(p), |payload|;
    var packed := [24 + n, user.hid, user.uid, n, 0, 1];
    assert Extras(p) == [target.uid, target.hid] + packed;
    RelayedLayout(h, target, packed, payload);
    var all := packed + [12, kind, 0];
    IntsAppend(packed, [12, kind, 0]);
    var body := Ints(packed) + payload;
    assert body == Ints(all) + contents && |Ints(all)| == 36;
    assert Relay(Build(p)) == WriteHeader(h) + body;
    ReadWriteHeader(h, body);
    assert (WriteHeader(h) + body)[32..] == body;
    assert all == [24 + n, user.hid, user.uid, n, 0, 1, 12, kind, 0];
    PackedBody(user, n, kind, contents);
  }

  lemma RelayedLayout(h: Header, target: Uin, packed: seq<int32>, payload: bytes)
    ensures |Layout(h, [target.uid, target.hid] + packed, payload)| >= 40
    ensures Relay(Layout(h, [target.uid, target.hid] + packed, payload)) == WriteHeader(h) + (Ints(packed) + payload)
  {
    hide Ints, WriteHeader;
    IntsAppend([target.uid, target.hid], packed);
    var s := Layout(h, [target.uid, target.hid] + packed, payload);
    assert s == (WriteHeader(h) + Ints([target.uid, target.hid])) + (Ints(packed) + payload);
    assert |WriteHeader(h) + Ints([target.uid, target.hid])| == 40;
  }

  lemma PackedBody(user: Uin, n: int32, kind: int32, contents: bytes)
    requires n == 12 + |contents| && n + 24 < TWO_31
    ensures ParseMessage(Ints([24 + n, user.hid, user.uid, n, 0, 1, 12, kind, 0]) + contents)
         == Some(Mesg(Uin(user.uid, LowHalf(user.hid)), kind, contents))
  {
    hide Ints, GetInt, LowHalf;
    var all: seq<int32> := [24 + n, user.hid, user.uid, n, 0, 1, 12, kind, 0];
    var body := Ints(all) + contents;
    IntsAt(all, contents, 1);
    IntsAt(all, contents, 2);
    IntsAt(all, contents, 3);
    IntsAt(all, contents, 7);
    assert |Ints(all)| == 36 && body[36..24 + n] == contents;
  }

  // ---- short user data ----

  datatype UserData = UserData(uin: Uin, firstName: bytes, lastName: bytes, nickName: bytes)

  /** What a short user data blob is, by the lengths it declares. */
  predicate UserDataFits(data: bytes) {
    && |data| >= 24
    && GetInt(data, 0) <= |data|
    && GetInt(data, 12) >= 0 && GetInt(data, 16) >= 0 && GetInt(data, 20) >= 0
    && 24 + GetInt(data, 12) as int + GetInt(data, 16) as int + GetInt(data, 20) as int <= |data|
  }

  function ParseUser(data: bytes): Option<UserData> {
    if !UserDataFits(data) then None
    else
      var first: int, last: int, nick: int := GetInt(data, 12), GetInt(data, 16), GetInt(data, 20);
      Some(UserData(Uin(GetInt(data, 4), LowHalf(GetInt(data, 8))),
                    data[24..24 + first],
                    data[24 + first..24 + first + last],
                    data[24 + first + last..24 + first + last + nick]))
  }

  /** ParseShortUserData as written, with every local an int: none of its sums or differences can overflow. */
  method ParseShortUserData(data: bytes, size: int32) returns (r: Option<UserData>)
    requires size == |data|
    ensures r == ParseUser(data)
  {
    var fixedSize: int32 := 24;
    if size < fixedSize {
      return None;
    }
    var totalLen: int32 := GetInt(data, 0);
    if totalLen > size {
      return None;
    }
    var uid, hid := GetInt(data, 4), LowHalf(GetInt(data, 8));
    var firstNameLen: int32, lastNameLen: int32, nickNameLen: int32 := GetInt(data, 12), GetInt(data, 16),
      GetInt(data, 20);
    if firstNameLen < 0 || lastNameLen < 0 || nickNameLen < 0 {
      return None;
    }
    var room: int32 := size - fixedSize;
    if firstNameLen > room {
      return None;
    }
    room := room - firstNameLen;
    if lastNameLen > room {
      return None;
    }
    room := room - lastNameLen;
    if nickNameLen > room {
      return None;
    }
    var offset: int32 := fixedSize;
    var firstName := data[offset..offset + firstNameLen];
    offset := offset + firstNameLen;
    var lastName := data[offset..offset + lastNameLen];
    offset := offset + lastNameLen;
    var nickName := data[offset..offset + nickNameLen];
    r := Some(UserData(Uin(uid, hid), firstName, lastName, nickName));
  }

  /** A short user data blob as the server lays it out. */
  function UserBlob(total: int32, uid: int32, hid: int32, first: bytes, last: bytes, nick: bytes, padding: bytes): bytes
    requires |first| < TWO_31 && |last| < TWO_31 && |nick| < TWO_31
  {
    Ints([total, uid, hid, |first|, |last|, |nick|]) + first + last + nick + padding
  }

  /** Every blob whose declared total is not beyond its end is accepted, with all three names. */
  lemma ParseUserBlob(total: int32, uid: int32, hid: int32, first: bytes, last: bytes, nick: bytes, padding: bytes)
    requires |first| < TWO_31 && |last| < TWO_31 && |nick| < TWO_31
    ensures var blob := UserBlob(total, uid, hid, first, last, nick, padding);
            ParseUser(blob) == if total <= |blob| then Some(UserData(Uin(uid, LowHalf(hid)), first, last, nick))
              else None
  {
    var blob := UserBlob(total, uid, hid, first, last, nick, padding);
    var ints := [total, uid, hid, |first|, |last|, |nick|];
    var rest := first + last + nick + padding;
    assert blob == Ints(ints) + rest;
    IntsAt(ints, rest, 0);
    IntsAt(ints, rest, 1);
    IntsAt(ints, rest, 2);
    IntsAt(ints, rest, 3);
    IntsAt(ints, rest, 4);
    IntsAt(ints, rest, 5);
    var f, l, n := |first|, |last|, |nick|;
    assert blob[24..24 + f] == first;
    assert blob[24 + f..24 + f + l] == last;
    assert blob[24 + f + l..24 + f + l + n] == nick;
  }

  /** Nothing else is accepted: an accepted blob is the layout of the names it was read as. */
  lemma ParsedUserIsBlob(data: bytes)
    requires ParseUser(data).Some?
    ensures var u := ParseUser(data).value;
            var end := 24 + |u.firstName| + |u.lastName| + |u.nickName|;
            && end <= |data| && GetInt(data, 0) <= |data|
            && u.uin.hid == LowHalf(GetInt(data, 8))
            && |u.firstName| < TWO_31 && |u.lastName| < TWO_31 && |u.nickName| < TWO_31
            && data == UserBlob(GetInt(data, 0), u.uin.uid, GetInt(data, 8), u.firstName, u.lastName, u.nickName,
                                data[end..])
  {
    hide GetInt, Ints, LowHalf;
    var u := ParseUser(data).value;
    SixInts(data);
    NamesSplit(data, |u.firstName|, |u.lastName|, |u.nickName|);
  }

  lemma SixInts(data: bytes)
    requires |data| >= 24
    ensures Ints([GetInt(data, 0), GetInt(data, 4), GetInt(data, 8), GetInt(data, 12), GetInt(data, 16),
                  GetInt(data, 20)])
         == data[..24]
  {
    hide GetInt, Ints;
    IntsOf(data, [GetInt(data, 0), GetInt(data, 4), GetInt(data, 8), GetInt(data, 12), GetInt(data, 16),
                  GetInt(data, 20)], 0);
  }

  lemma NamesSplit(data: bytes, f: nat, l: nat, n: nat)
    requires 24 + f + l + n <= |data|
    ensures data == data[..24] + data[24..24 + f] + data[24 + f..24 + f + l] + data[24 + f + l..24 + f + l + n]
                    + data[24 + f + l + n..]
  {
  }

  /** A stretch of bytes is the encoding of the integers read from it. */
  lemma {:induction false} IntsOf(data: bytes, ints: seq<int32>, offset: nat)
    requires offset + 4 * |ints| <= |data|
    requires forall i | 0 <= i < |ints| :: GetInt(data, offset + 4 * i) == ints[i]
    ensures Ints(ints) == data[offset..offset + 4 * |ints|]
  {
    if ints != [] {
      assert GetInt(data, offset + 4 * 0) == ints[0];
      PutGetInt(data, offset);
      var rest := ints[1..];
      forall i | 0 <= i < |rest| ensures GetInt(data, offset + 4 + 4 * i) == rest[i] {
        assert GetInt(data, offset + 4 * (i + 1)) == ints[i + 1];
      }
      IntsOf(data, rest, offset + 4);
      assert data[offset..offset + 4] + data[offset + 4..offset + 4 * |ints|] == data[offset..offset + 4 * |ints|];
    }
  }
}
