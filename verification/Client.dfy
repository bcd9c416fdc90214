/** The whole client as a value, and what it does with the bytes a connection brings. */
module Client {
  import opened Bytes
  import opened Uins
  import opened Protocol
  import opened Sockets
  import opened Clock
  import opened Tickets
  import opened Watching
  import opened Spool
  import opened ServerList

  datatype Phase = PhaseIdle | PhaseConnecting | PhaseAwait | PhaseOnline | PhaseFailed
  datatype Error = ErrorUnknown | ErrorOk | ErrorOffline | ErrorBadUser | ErrorAlreadyLoggedIn
                 | ErrorTooManyUsers | ErrorInternal | ErrorNeedsUpdate

  datatype Session = Session(phase: Phase, deadline: uint32, lastError: Error, rawError: int32,
                             nickname: bytes, password: bytes, modern: bool,
                             user: Uin, server: Uin, connectedAt: uint32, servers: seq<ServerInfo>)

  datatype PendingQuery = PendingQuery(ticket: int32, deadline: uint32)
  const NO_QUERY := PendingQuery(0, 0)

  datatype Queries = Queries(fetches: map<bytes, PendingQuery>, random: PendingQuery, status: PendingQuery)

  datatype Incoming = Incoming(user: bytes, kind: int32, payload: bytes)

  /** A packet that was handled and consumed; `reply` if it was taken as a transaction's response. */
  datatype Dispatch = Dispatch(reply: bool, packet: bytes)

  datatype Virtual = Virtual(last: int32, count: nat)

  /** The client's state, the host's clock and disk, and as history: the packets sent on this connection,
      the messages handed to the game, every packet dispatched and where in that log this connection began. */
  datatype Mgr = Mgr(sock: Sock, sent: seq<Packet>, session: Session, tickets: Tickets, vsn: Virtual,
                     watch: Watch, queries: Queries, incoming: seq<Incoming>, handed: seq<Incoming>,
                     disk: Disk, inbox: bytes, outbox: bytes, outboxDirty: bool, nextScan: uint32,
                     clock: nat, naps: seq<Nap>, log: seq<Dispatch>, base: nat)

  /** A manager as constructed. */
  function FreshMgr(kernel: Kernel, disk: Disk, clock: nat, naps: seq<Nap>): Mgr {
    Mgr(Sock(Closed, [], [], 0, 0, 0, kernel, [], [], [], [], []), [],
        Session(PhaseIdle, 0, ErrorUnknown, 0, [], [], true, NO_UIN, NO_UIN, 0, []),
        FreshTickets(), Virtual(0, 0), Watch(map[], {}, [], map[], [], {}, {}, {}),
        Queries(map[], NO_QUERY, NO_QUERY), [], [], disk, [], [], true, 0, clock, naps, [], 0)
  }

  const CONNECT_TIMEOUT := 30000
  const QUERY_TIMEOUT := 10000
  const WWR_ADD_TIMEOUT := 4000
  const USER_ONLINE_TIMEOUT := 5000
  const HISTORY_TIMEOUT := 8000
  const OUTBOX_RESCAN := 5000

  predicate IsOnline(m: Mgr) {
    m.session.phase.PhaseOnline? && m.sock.state.Connected?
  }

  /** The inbound side is as it was: buffer, data still in the kernel, and the log of dispatched packets;
      and no time has passed. */
  predicate SameInput(m: Mgr, r: Mgr) {
    && r.sock.input == m.sock.input && r.sock.kernel.recvs == m.sock.kernel.recvs
    && r.log == m.log && r.base == m.base
    && r.clock == m.clock && r.naps == m.naps
  }

  /** Writes a packet; it succeeded exactly when the socket is connected afterwards. */
  function Send(m: Mgr, p: Packet): (r: Mgr)
    ensures SameInput(m, r) && r.tickets == m.tickets
  {
    m.(sock := WriteSock(m.sock, Build(p)), sent := if m.sock.state.Connected? then m.sent + [p] else m.sent)
  }

  function NextVSN(v: Virtual): Virtual {
    var n := LowHalf(v.last + 1);
    Virtual(if n == 0 then 1 else n, v.count + 1)
  }

  function Negated(code: int32): int32 {
    ToInt32(-(code as int))
  }

  function ConnectionLost(m: Mgr): (r: Mgr)
    ensures SameInput(m, r)
  {
    m.(session := m.session.(lastError := ErrorOffline, rawError := Negated(m.sock.lastError), phase := PhaseIdle),
       sock := CloseSock(m.sock), tickets := Cleared(m.tickets), watch := AllOffline(m.watch))
  }

  function Disconnect(m: Mgr): Mgr {
    m.(session := m.session.(phase := PhaseIdle),
       sock := CloseSock(m.sock), tickets := Cleared(m.tickets), watch := AllOffline(m.watch))
  }

  function MapHandshakeError(code: byte): Error {
    if code == 1 then ErrorAlreadyLoggedIn
    else if code == 3 || code == 6 then ErrorBadUser
    else if code == 0 || code == 7 || code == 13 || code == 15 then ErrorOffline
    else if code == 12 then ErrorTooManyUsers
    else if code == 14 then ErrorNeedsUpdate
    else if code == 16 then ErrorUnknown
    else ErrorInternal
  }

  // ---- framing ----

  datatype Framing = NeedMore | Broken | Whole(size: nat, reply: bool)

  function Arrived(input: bytes, size: nat, reply: bool): Framing {
    if |input| < size then NeedMore else Whole(size, reply)
  }

  /** How far the next packet reaches: by ticket first, then by the type's low byte. */
  function Frame(input: bytes, table: map<int32, Transaction>): (f: Framing)
    ensures f.Whole? ==> HEADER_SIZE <= f.size <= |input|
    ensures f.Whole? && !f.reply ==> f.size <= 48 + MAX_FURTHER_DATA
    ensures f.Whole? && f.reply ==> ReadHeader(input).ticket in table
    ensures f.Whole? ==> 0 <= ReadHeader(input).furtherData
    ensures f.Whole? && f.reply ==>
              f.size == HEADER_SIZE + table[ReadHeader(input).ticket].fixedExtra + ReadHeader(input).furtherData
  {
    if |input| < HEADER_SIZE then NeedMore
    else
      var h := ReadHeader(input);
      var kind := LowByte(h.kind);
      if h.furtherData < 0 || h.furtherData > MAX_FURTHER_DATA then Broken
      else if h.ticket != 0 && h.ticket in table then
        Arrived(input, HEADER_SIZE + table[h.ticket].fixedExtra + h.furtherData, true)
      else if kind == MESSAGE || kind == USER_ONLINE || kind == USER_OFFLINE then
        Arrived(input, HEADER_SIZE + h.furtherData, false)
      else if kind == HANDSHAKE_RESPONSE then
        if |input| < 48 then NeedMore
        else
          var additional: int := GetInt(input, 44);
          if additional < 0 || additional > MAX_FURTHER_DATA then Broken else Arrived(input, 48 + additional, false)
      else if kind == CLIENT_COMMAND then Arrived(input, 36, false)
      else if kind == VIRTUAL_CONNECT then Arrived(input, 44, false)
      else if kind == VIRTUAL_CIRCUIT then Arrived(input, 44 + h.furtherData, false)
      else if kind == ONLINE_CHANGE || kind == VIRTUAL_CIRCUIT_CLOSE || kind == MIGRATE then
        Arrived(input, HEADER_SIZE, false)
      else Broken
  }

  // ---- handlers ----

  /** SendWWRRegistrations: stops at the first failing write. */
  function SendRegistrations(m: Mgr, users: seq<bytes>): (r: Mgr)
    ensures SameInput(m, r) && r.tickets == m.tickets
    decreases |users|
  {
    if users == [] then m
    else
      match Parse(users[0])
      case None => SendRegistrations(m, users[1..])
      case Some(uin) =>
        var s := Send(m.(watch := Register(m.watch, users[0])), WwrModify(true, m.session.server, uin));
        if s.sock.state.Connected? then SendRegistrations(s, users[1..]) else s
  }

  /** A handshake response is a refusal if it carries an error or no server id. */
  predicate Accepts(h: Header, raw: bytes)
    requires |raw| > 1
  {
    raw[1] == 0 && h.a != 0
  }

  function Refuse(m: Mgr, code: byte): (r: Mgr)
    ensures SameInput(m, r) && r.tickets == m.tickets
  {
    m.(session := m.session.(lastError := MapHandshakeError(code), rawError := code, phase := PhaseFailed),
       sock := CloseSock(m.sock))
  }

  function Online(s: Session, now: uint32, h: Header, servers: seq<ServerInfo>): Session {
    s.(server := Uin(h.a, h.b), user := Uin(h.c, h.d), connectedAt := now, lastError := ErrorOk, rawError := 0,
       phase := PhaseOnline, servers := if servers == [] then s.servers else servers)
  }

  /** The session is online; nothing is registered yet. */
  function Entered(m: Mgr, h: Header, raw: bytes): Mgr {
    m.(session := Online(m.session, NowMs(m.clock), h, Announced(raw)))
  }

  function LoggedIn(m: Mgr, h: Header, raw: bytes): (r: Mgr)
    ensures SameInput(m, r) && r.tickets == m.tickets
  {
    var r := SendRegistrations(Entered(m, h, raw), m.watch.usersForWWR);
    r.(watch := r.watch.(usersForWWR := []), outboxDirty := true)
  }

  /** HandleHandshakeResponse: stray ones are ignored. */
  function HandleHandshake(m: Mgr, h: Header, raw: bytes): (r: Mgr)
    requires |raw| > 1
    ensures SameInput(m, r) && r.tickets == m.tickets
  {
    if !m.session.phase.PhaseAwait? then m
    else if Accepts(h, raw) then LoggedIn(m, h, raw)
    else Refuse(m, raw[1])
  }

  /** The acceptance sent back for a virtual connect. */
  function Accepting(m: Mgr, h: Header): Packet {
    ConnectAccept(m.session.server, Uin(h.c, h.d), h.e, NextVSN(m.vsn).last)
  }

  function Deliver(m: Mgr, mesg: Mesg): Mgr {
    if mesg.kind == MESG_PRAY_FILE then
      m.(disk := SpoolPray(m.disk, m.inbox, mesg.sender, mesg.payload))
    else
      m.(incoming := m.incoming + [Incoming(mesg.sender.ToString(), mesg.kind, mesg.payload)])
  }

  /** HandlePacket; the connection may be lost while answering a virtual connect. */
  function HandlePacket(m: Mgr, h: Header, body: bytes): (r: Mgr)
    ensures SameInput(m, r) && (!Drops(m, h) ==> r.tickets == m.tickets)
  {
    var kind := LowByte(h.kind);
    if kind == MESSAGE then
      match ParseMessage(body)
      case Some(mesg) => Deliver(m, mesg)
      case None => m
    else if kind == USER_ONLINE || kind == USER_OFFLINE then
      match ParseUser(body)
      case Some(u) => m.(watch := Update(m.watch, u.uin, kind == USER_ONLINE, u.nickName))
      case None => m
    else if kind == ONLINE_CHANGE then
      m.(watch := Update(m.watch, Uin(h.c, h.d), h.e != 0, []))
    else if kind == VIRTUAL_CONNECT then
      var s := Send(m.(vsn := NextVSN(m.vsn)), Accepting(m, h));
      if s.sock.state.Connected? then s else ConnectionLost(s)
    else m
  }

  /** HandlePacket reports the connection dropped exactly here. */
  predicate Drops(m: Mgr, h: Header) {
    LowByte(h.kind) == VIRTUAL_CONNECT
    && !Send(m.(vsn := NextVSN(m.vsn)), Accepting(m, h)).sock.state.Connected?
  }

  /** The packet leaves the input buffer and enters the log. */
  function Consumed(m: Mgr, reply: bool, size: nat): Mgr
    requires size <= |m.sock.input|
  {
    m.(sock := ConsumeSock(m.sock, size), log := m.log + [Dispatch(reply, m.sock.input[..size])])
  }

  datatype Outcome = Waiting | Dropped(m: Mgr) | Continue(m: Mgr)

  /** One turn of the loop in ProcessInput. */
  function Step(m: Mgr): (o: Outcome)
    ensures o.Continue? ==> |o.m.sock.input| + HEADER_SIZE <= |m.sock.input|
    ensures !o.Waiting? ==> o.m.clock == m.clock && o.m.naps == m.naps
  {
    var input := m.sock.input;
    match Frame(input, m.tickets.table)
    case NeedMore => Waiting
    case Broken => Dropped(ConnectionLost(m))
    case Whole(size, reply) =>
      var h := ReadHeader(input);
      if reply then
        Continue(Consumed(m.(tickets := Answered(m.tickets, h, input[HEADER_SIZE..size])), true, size))
      else if LowByte(h.kind) == HANDSHAKE_RESPONSE then
        Continue(Consumed(HandleHandshake(m, h, input[..size]), false, size))
      else if Drops(m, h) then
        Dropped(HandlePacket(m, h, input[HEADER_SIZE..size]))
      else
        Continue(Consumed(HandlePacket(m, h, input[HEADER_SIZE..size]), false, size))
  }

  /** The client after one turn of the loop. */
  function AfterStep(m: Mgr): Mgr {
    match Step(m)
    case Waiting => m
    case Dropped(n) => n
    case Continue(n) => n
  }

  /** ProcessInput */
  function Process(m: Mgr): (r: Mgr)
    ensures r.clock == m.clock && r.naps == m.naps
    decreases |m.sock.input|
  {
    match Step(m)
    case Waiting => m
    case Dropped(n) => n
    case Continue(n) => Process(n)
  }

  /** ProcessInput ends with the connection dropped. */
  predicate EndsDropped(m: Mgr)
    decreases |m.sock.input|
  {
    match Step(m)
    case Waiting => false
    case Dropped(_) => true
    case Continue(n) => EndsDropped(n)
  }
}
