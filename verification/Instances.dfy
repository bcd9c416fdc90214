/** Runs from a manager as constructed, packet by packet, that show what the client does not promise. */
module Instances {
  import opened Bytes
  import opened Uins
  import opened Protocol
  import opened Sockets
  import opened Clock
  import opened Tickets
  import opened Watching
  import opened Client
  import opened Connection
  import opened Api
  import opened Sound
  import opened LockStep
  import opened LockStepRun
  import opened Answers
  import opened Spool
  import Tables
  import Guarantees

  // ---- what the server sends ----

  /** An accepted login: no error, server id 1. */
  function Hello(): ServerPacket {
    Unsolicited(Header(HANDSHAKE_RESPONSE, 1, 0, 7, 1, 0, 0, 0), Ints([0, 0, 0, 0]))
  }

  /** A user has come online. */
  function Report(uin: Uin): ServerPacket {
    Unsolicited(Header(ONLINE_CHANGE, 0, 0, uin.uid, uin.hid, 0, 0, 1), [])
  }

  lemma HelloIs()
    ensures WellFormed(Hello()) && |Encode(Hello())| == 48 && LowByte(Hello().h.kind) == HANDSHAKE_RESPONSE
    ensures Accepts(Hello().h, Encode(Hello()))
  {
    hide Ints, GetInt;
    NoExtra();
    SecondByte(Hello().h, Ints([0, 0, 0, 0]), 0);
  }

  lemma NoExtra()
    ensures |Ints([0, 0, 0, 0])| == 16 && GetInt(Ints([0, 0, 0, 0]), 12) == 0
  {
    hide GetInt;
    IntsAt([0, 0, 0, 0], [], 3);
    assert Ints([0, 0, 0, 0]) + [] == Ints([0, 0, 0, 0]);
  }

  lemma SecondByte(h: Header, body: bytes, high: byte)
    requires h.kind == 0x100 * high + HANDSHAKE_RESPONSE
    ensures (WriteHeader(h) + body)[1] == high
  {
    hide Ints;
    var rest := [h.a, h.b, h.c, h.d, h.ticket, h.furtherData, h.e];
    assert Fields(h) == [h.kind] + rest;
    IntsAppend([h.kind], rest);
    KindBytes(h.kind, high);
  }

  lemma KindBytes(kind: int32, high: byte)
    requires kind == 0x100 * high + HANDSHAKE_RESPONSE
    ensures |Ints([kind])| == 4 && Ints([kind])[1] == high
  {
    assert Ints([kind]) == IntBytes(kind) + Ints([]);
    assert Digits256(kind, 4) == [kind % 0x100] + Digits256(kind / 0x100, 3);
    assert Digits256(high as int, 3) == [high as int % 0x100] + Digits256(high as int / 0x100, 2);
  }

  // ---- the client between calls ----

  /** Online, nothing buffered to read, and the kernel taking nothing. */
  predicate Calm(m: Mgr) {
    IsOnline(m) && m.sock.input == [] && m.sock.kernel.sends == [] && m.sock.kernel.connects == []
  }

  /** The kernel has this to hand over and nothing else. */
  function Feed(m: Mgr, data: Chunk): Call {
    Host(Kernel([], [Data(data)], [], []), m.clock, m.naps, m.disk)
  }

  /** The next write will fail. */
  function Doom(m: Mgr): Call {
    Host(Kernel([SendError(104)], [], [], []), m.clock, m.naps, m.disk)
  }

  function Answering(m: Mgr, data: Chunk): Call {
    Host(Kernel([], [Data(data)], [], [Writable]), m.clock, m.naps, m.disk)
  }

  /** Connecting, the server answering, and the call that hears the answer. */
  function ConnectCalls(m: Mgr, data: Chunk): seq<Call> {
    [CallConnect([]), Answering(m, data), CallConnect([])]
  }

  lemma ThreeCalls(m: Mgr, a: Call, b: Call, c: Call)
    ensures DoAll(m, [a, b, c]) == Do(Do(Do(m, a), b), c)
  {
    hide Do;
    var m1 := Do(m, a);
    var m2 := Do(m1, b);
    assert [a, b, c][1..] == [b, c] && [b, c][1..] == [c] && [c][1..] == [];
    assert DoAll(m1, [b, c]) == DoAll(m2, [c]);
    assert DoAll(m2, [c]) == DoAll(Do(m2, c), []);
  }

  lemma {:induction false} DoAllConcat(m: Mgr, a: seq<Call>, b: seq<Call>)
    ensures DoAll(m, a + b) == DoAll(DoAll(m, a), b)
    decreases |a|
  {
    hide Do;
    if a == [] {
      assert a + b == b;
    } else {
      assert (a + b)[1..] == a[1..] + b && (a + b)[0] == a[0];
      DoAllConcat(Do(m, a[0]), a[1..], b);
    }
  }

  // ---- connecting ----

  /** The state in which ProcessInput first runs on a new connection, with what the server sent buffered. */
  lemma Reads(m: Mgr, data: Chunk) returns (p: Mgr)
    requires StartsConnection(m) && m.sock.kernel.connects == []
    ensures p.session.phase.PhaseAwait? && p.sock.state.Connected? && p.sock.input == data
    ensures p.sock.kernel == Kernel([], [], [], []) && p.sock.lastError == m.sock.lastError
    ensures p.tickets.table == m.tickets.table && p.tickets.asks == m.tickets.asks
            && p.tickets.answers == m.tickets.answers
    ensures p.tickets.connection == m.tickets.connection + 1 && p.tickets.taken == m.tickets.taken + 1
    ensures p.queries == m.queries && p.watch == m.watch.(usersForWWR := []) && p.base <= |p.log|
    ensures p.clock == m.clock && p.naps == m.naps && p.disk == m.disk
    ensures DoAll(m, ConnectCalls(m, data)) == DeadlineStep(AfterAwait(p))
  {
    hide Build, NowMs, Deadline, TimeAfter, Process;
    var c1 := Do(m, CallConnect([]));
    var c2 := Do(c1, Answering(m, data));
    ThreeCalls(m, CallConnect([]), Answering(m, data), CallConnect([]));
    p := ReadsAnswer(c2, data);
  }

  function AfterAwait(p: Mgr): Mgr {
    var r := Process(p);
    if r.session.phase.PhaseAwait? && !Alive(p.sock) then GiveUp(r, Negated(r.sock.lastError)) else r
  }

  lemma ReadsAnswer(c: Mgr, data: Chunk) returns (p: Mgr)
    requires c.session.phase.PhaseConnecting? && c.sock.state.Connecting? && c.sock.input == [] && c.sock.output == []
    requires c.sock.kernel == Kernel([], [Data(data)], [], [Writable])
    ensures p.session.phase.PhaseAwait? && p.sock.state.Connected? && p.sock.input == data
    ensures p.sock.kernel == Kernel([], [], [], []) && p.sock.lastError == c.sock.lastError
    ensures p.tickets == NextTicket(c.tickets) && p.queries == c.queries && p.watch == c.watch
    ensures p.base == c.base && p.log == c.log && p.clock == c.clock && p.naps == c.naps && p.disk == c.disk
    ensures Do(c, CallConnect([])) == DeadlineStep(AfterAwait(p))
  {
    hide Build, NextTicket, Process, DeadlineStep, PumpSock, WriteSock, PollSock;
    BuiltIsSome(Login(c));
    Reading(c.sock, data, Build(Login(c)));
    NextTicketKeeps(c.tickets);
    var l := LoginStep(c);
    p := l.(sock := PumpSock(l.sock));
  }

  lemma Reading(s: Sock, data: Chunk, packet: bytes)
    requires s.state.Connecting? && s.input == [] && s.output == [] && packet != []
    requires s.kernel == Kernel([], [Data(data)], [], [Writable])
    ensures PollSock(s).state.Connected? && WriteSock(PollSock(s), packet).state.Connected?
    ensures var r := PumpSock(WriteSock(PollSock(s), packet));
            r.state.Connected? && r.input == data && r.kernel == Kernel([], [], [], []) && r.lastError == s.lastError
  {
    hide ToInt32;
    assert Pop([Writable]) == [];
    var w := WriteSock(PollSock(s), packet);
    assert FlushSock(w) == w;
    ReadsOne(w, data);
  }

  lemma ReadsOne(s: Sock, data: Chunk)
    requires s.state.Connected? && s.kernel.recvs == [Data(data)]
    ensures ReadSock(s) == s.(kernel := s.kernel.(recvs := []), bytesReceived := ToInt32(s.bytesReceived + |data|),
                              input := s.input + data, received := s.received + data)
  {
    hide ToInt32;
    var k := s.(kernel := s.kernel.(recvs := s.kernel.recvs[1..]), bytesReceived := ToInt32(s.bytesReceived + |data|),
                input := s.input + data, received := s.received + data);
    assert s.kernel.recvs[1..] == [];
    assert ReadSock(s) == ReadSock(k) == k;
  }

  // ---- one packet alone in the buffer ----

  /** ProcessInput handles a packet that is alone in the buffer, and stops. */
  lemma TakesReply(m: Mgr, p: ServerPacket)
    requires m.sock.input == Encode(p) && p.Response? && WellFormed(p) && Registered(p, m.tickets.table)
    ensures |p.fixed + p.further| == m.tickets.table[p.h.ticket].fixedExtra + p.h.furtherData
    ensures Process(m) == Consumed(m.(tickets := Answered(m.tickets, p.h, p.fixed + p.further)), true, |Encode(p)|)
    ensures Process(m).sock.input == []
  {
    hide Frame, ReadHeader, WriteHeader, Answered;
    assert Encode(p) + [] == Encode(p);
    FrameWhole(p, [], m.tickets.table);
    EncodedHeader(p, []);
    assert m.sock.input[HEADER_SIZE..|Encode(p)|] == p.fixed + p.further;
    var n := Consumed(m.(tickets := Answered(m.tickets, p.h, p.fixed + p.further)), true, |Encode(p)|);
    EmptyWaits(n);
  }

  lemma EmptyWaits(m: Mgr)
    requires m.sock.input == []
    ensures Step(m).Waiting? && Process(m) == m
  {
  }

  lemma TakesReport(m: Mgr, uin: Uin)
    requires m.sock.input == Encode(Report(uin))
    ensures Process(m) == Consumed(m.(watch := Update(m.watch, uin, true, [])), false, HEADER_SIZE)
    ensures Process(m).sock.input == []
  {
    hide Frame, ReadHeader, WriteHeader, Update;
    var p := Report(uin);
    assert Encode(p) + [] == Encode(p);
    FrameWhole(p, [], m.tickets.table);
    EncodedHeader(p, []);
    EmptyWaits(Consumed(m.(watch := Update(m.watch, uin, true, [])), false, HEADER_SIZE));
  }

  lemma TakesHello(m: Mgr)
    requires m.sock.input == Encode(Hello()) && m.session.phase.PhaseAwait? && m.watch.usersForWWR == []
    ensures |Encode(Hello())| == 48
    ensures Process(m) == Consumed(LoggedIn(m, Hello().h, Encode(Hello())), false, 48)
    ensures Process(m).sock == ConsumeSock(m.sock, 48) && Process(m).sock.input == []
    ensures Process(m).session.phase.PhaseOnline?
    ensures Process(m) == m.(sock := Process(m).sock, session := Process(m).session, log := Process(m).log,
                             outboxDirty := true)
    ensures |Process(m).log| == |m.log| + 1
  {
    hide Frame, ReadHeader, Encode, Hello, Accepts, LoggedIn, Consumed, LowByte;
    var p := Hello();
    HelloIs();
    HelloPlain();
    assert Encode(p) + [] == Encode(p);
    FrameWhole(p, [], m.tickets.table);
    EncodedHeader(p, []);
    assert m.sock.input[..48] == Encode(p);
    HelloLogsIn(m);
    EmptyWaits(Consumed(LoggedIn(m, p.h, Encode(p)), false, 48));
  }

  lemma HelloLogsIn(m: Mgr)
    requires m.sock.input == Encode(Hello()) && m.watch.usersForWWR == [] && |Encode(Hello())| == 48
    ensures var r := Consumed(LoggedIn(m, Hello().h, Encode(Hello())), false, 48);
            && r.sock == ConsumeSock(m.sock, 48) && r.sock.input == [] && r.session.phase.PhaseOnline?
            && r == m.(sock := r.sock, session := r.session, log := r.log, outboxDirty := true)
            && |r.log| == |m.log| + 1
  {
    hide Encode, Hello, ServerList.Announced, NowMs;
  }

  lemma HelloPlain()
    ensures Hello().Unsolicited? && Hello().h.ticket == 0
  {
  }

  // ---- logging in, and packets later on ----

  function HelloBytes(): Chunk {
    HelloIs();
    Encode(Hello())
  }

  /** Nothing but the connection is new. */
  predicate Renewed(m: Mgr, r: Mgr) {
    && Calm(r) && r.tickets.table == m.tickets.table && r.tickets.asks == m.tickets.asks
       && r.tickets.answers == m.tickets.answers
    && r.tickets.connection == m.tickets.connection + 1 && r.tickets.taken == m.tickets.taken + 1
    && r.queries == m.queries && r.watch == m.watch.(usersForWWR := []) && r.base <= |r.log|
    && r.clock == m.clock && r.naps == m.naps && r.disk == m.disk
  }

  lemma LogsIn(m: Mgr)
    requires StartsConnection(m) && m.sock.kernel.connects == []
    ensures Renewed(m, DoAll(m, ConnectCalls(m, HelloBytes())))
  {
    hide Process, DoAll, Hello, Encode;
    var p := Reads(m, HelloBytes());
    TakesHello(p);
  }

  /** What a pump makes of one packet the kernel hands over while nothing else is going on. */
  lemma PumpsOne(m: Mgr, data: Chunk) returns (p: Mgr)
    requires Calm(m)
    ensures p == m.(sock := p.sock) && p.sock.state.Connected? && p.sock.input == data
            && p.sock.kernel == Kernel([], [], [], [])
    ensures Process(p).session.phase.PhaseOnline? ==> Pump(Do(m, Feed(m, data))) == Process(p)
  {
    hide Process, ToInt32;
    var f := Do(m, Feed(m, data));
    ReadsOne(f.sock, data);
    assert FlushSock(f.sock) == f.sock;
    p := f.(sock := PumpSock(f.sock));
  }

  // ---- the socket dies unnoticed ----

  lemma Dies(m: Mgr, other: bytes)
    requires Calm(m) && Parse(other).Some?
    ensures var d := DoAll(m, [Doom(m), CallRemoveFromWWR(other)]);
            && d.session.phase.PhaseOnline? && !d.sock.state.Connected? && d.sock.kernel.connects == []
            && d.tickets == m.tickets && d.queries == m.queries && d.watch == Remove(m.watch, other)
            && d.clock == m.clock && d.naps == m.naps && d.disk == m.disk && d.base == m.base && d.log == m.log
  {
    hide Build, Parse, Remove, ToInt32;
    var doomed := Do(m, Doom(m));
    BuiltIsSome(WwrModify(false, doomed.session.server, Parse(other).value));
    assert [Doom(m), CallRemoveFromWWR(other)][1..] == [CallRemoveFromWWR(other)]
           && [CallRemoveFromWWR(other)][1..] == [];
    assert DoAll(doomed, [CallRemoveFromWWR(other)]) == DoAll(Do(doomed, CallRemoveFromWWR(other)), []);
  }

  // ---- a query takes a later connection's answer ----

  /** A response whose bytes the kernel can hand over at once. */
  predicate Handy(p: ServerPacket) {
    p.Response? && WellFormed(p) && |Encode(p)| <= 4096
  }

  function ReplyBytes(p: ServerPacket): Chunk
    requires Handy(p)
  {
    Encode(p)
  }

  /** Connecting again, and a response coming in on the new connection. */
  function LaterCalls(m: Mgr, reply: ServerPacket): seq<Call>
    requires Handy(reply)
  {
    ConnectCalls(m, HelloBytes()) + [Feed(m, ReplyBytes(reply))]
  }

  /** The socket has died unnoticed, and a question still waits under the ticket. */
  predicate DiedAsking(m: Mgr, ticket: int32, kind: Kind, fixedExtra: nat) {
    && AnswersOk(m) && m.session.phase.PhaseOnline? && !m.sock.state.Connected? && m.sock.kernel.connects == []
    && ticket in m.tickets.table && m.tickets.table[ticket] == Started(kind, fixedExtra) && kind != Abandoned
  }

  /** Polling, the client finds the response decoded as the answer, on a later connection than the question. */
  predicate FindsLater(m: Mgr, ticket: int32, tr: Transaction) {
    var t := Pump(m).tickets;
    && Poll(t, ticket) == Finished(tr) && ticket in t.answers && ticket in t.asks
    && t.asks[ticket].connection < t.answers[ticket].connection
  }

  /** From any such moment: connecting again keeps the entry, and whatever the server sends under its ticket
      on the new connection is what the question gets. */
  lemma LaterReplyFiled(m: Mgr, ticket: int32, kind: Kind, reply: ServerPacket)
    requires Handy(reply) && reply.h.ticket == ticket && DiedAsking(m, ticket, kind, |reply.fixed|)
    ensures |reply.fixed + reply.further| == |reply.fixed| + reply.h.furtherData
    ensures var r := DoAll(m, LaterCalls(m, reply));
            && IsOnline(r) && r.queries == m.queries
            && FindsLater(r, ticket, Respond(Started(kind, |reply.fixed|), reply.h, reply.fixed + reply.further))
  {
    hide DoAll, Process, Hello, Encode, TicketAt, Faithful, Respond, QueriesOk;
    var n := DoAll(m, ConnectCalls(m, HelloBytes()));
    LogsIn(m);
    DoAllConcat(m, ConnectCalls(m, HelloBytes()), [Feed(m, ReplyBytes(reply))]);
    OneCall(n, Feed(m, ReplyBytes(reply)));
    assert Feed(n, ReplyBytes(reply)) == Feed(m, ReplyBytes(reply));
    var p := PumpsOne(n, ReplyBytes(reply));
    TakesReply(p, reply);
    RespondKeeps(Started(kind, |reply.fixed|), reply.h, reply.fixed + reply.further);
    OldQuestion(m, ticket);
  }

  lemma RespondKeeps(tr: Transaction, h: Header, body: bytes)
    requires 0 <= h.furtherData && |body| == tr.fixedExtra + h.furtherData
    ensures Respond(tr, h, body).kind == tr.kind && Respond(tr, h, body).done
  {
    hide ParseUser, GetInt;
  }

  lemma OldQuestion(m: Mgr, ticket: int32)
    requires AnswersOk(m) && ticket in m.tickets.table
    ensures ticket in m.tickets.asks && m.tickets.asks[ticket].connection <= m.tickets.connection && ticket != 0
  {
    hide QueriesOk, TicketAt, Decodes;
    assert Faithful(m.tickets, ticket);
  }

  /** The server's answers: to a name query, a request for a random user, and a status query. */
  function NameReply(ticket: int32, nick: bytes): ServerPacket
    requires |nick| < TWO_31 - 24
  {
    Response(Header(0, 0, 0, 0, 0, ticket, 24 + |nick|, 0), [], UserBlob(0, 5, 1, [], [], nick, []))
  }

  function RandomReply(ticket: int32, u: Uin): ServerPacket {
    Response(Header(0, 0, 0, u.uid, u.hid, ticket, 0, 1), [], [])
  }

  function StatusReply(ticket: int32, users: int32): ServerPacket {
    Response(Header(0, 0, 0, 0, 0, ticket, 0, 0), Ints([0, users, 0, 0]), [])
  }

  lemma NameReplyIs(ticket: int32, nick: bytes)
    requires ticket != 0 && |nick| <= 4000
    ensures var p := NameReply(ticket, nick);
            && Handy(p) && p.h.ticket == ticket && p.fixed == []
            && |p.fixed + p.further| == p.h.furtherData
            && var tr := Respond(Started(ClientInfo, 0), p.h, p.fixed + p.further);
               tr.success && tr.resultString == nick
  {
    hide ParseUser;
    ParseUserBlob(0, 5, 1, [], [], nick, []);
    var p := NameReply(ticket, nick);
    assert LowHalf(1) == 1;
    assert p.fixed + p.further == p.further && p.further[0..] == p.further;
  }

  lemma RandomReplyIs(ticket: int32, u: Uin)
    requires ticket != 0
    ensures var p := RandomReply(ticket, u);
            && Handy(p) && p.h.ticket == ticket && p.fixed == [] && p.fixed + p.further == []
            && var tr := Respond(Started(RandomUser, 0), p.h, []); tr.success && tr.resultUin == u
  {
  }

  lemma StatusReplyIs(ticket: int32, users: int32)
    requires ticket != 0
    ensures var p := StatusReply(ticket, users);
            && Handy(p) && p.h.ticket == ticket && |p.fixed| == 16 && p.fixed + p.further == p.fixed
            && var tr := Respond(Started(Status, 16), p.h, p.fixed);
               tr.success && |tr.resultInts| == 4 && tr.resultInts[1] == users
  {
    hide GetInt;
    var ints := [0, users, 0, 0];
    IntsAt(ints, [], 1);
    assert Ints(ints) + [] == Ints(ints);
  }

  lemma LaterNameTaken(m: Mgr, user: bytes, ticket: int32, nick: bytes)
    requires user in m.queries.fetches && m.queries.fetches[user].ticket == ticket
             && DiedAsking(m, ticket, ClientInfo, 0)
    requires Parse(user).Some? && ticket != 0 && |nick| <= 4000 && Handy(NameReply(ticket, nick))
    ensures var r := DoAll(m, LaterCalls(m, NameReply(ticket, nick))); FetchUserData(r, user).value == nick
  {
    hide DoAll, NameReply, Respond, Parse, DiedAsking, Pump, LaterCalls, Handy;
    NameReplyIs(ticket, nick);
    LaterReplyFiled(m, ticket, ClientInfo, NameReply(ticket, nick));
  }

  lemma LaterUserTaken(m: Mgr, ticket: int32, u: Uin)
    requires m.queries.random.ticket == ticket && DiedAsking(m, ticket, RandomUser, 0)
    requires ticket != 0 && Handy(RandomReply(ticket, u))
    ensures var r := DoAll(m, LaterCalls(m, RandomReply(ticket, u))); FetchRandomUser(r).value == u.ToString()
  {
    hide DoAll, RandomReply, Respond, DiedAsking, Pump, Uin.ToString, LaterCalls, Handy;
    RandomReplyIs(ticket, u);
    LaterReplyFiled(m, ticket, RandomUser, RandomReply(ticket, u));
  }

  lemma LaterStatusTaken(m: Mgr, ticket: int32, users: int32)
    requires m.queries.status.ticket == ticket && DiedAsking(m, ticket, Status, 16)
    requires ticket != 0 && Handy(StatusReply(ticket, users))
    ensures var r := DoAll(m, LaterCalls(m, StatusReply(ticket, users)));
            GetStatus(r).value.Some? && GetStatus(r).value.value.usersOnline == users
  {
    hide DoAll, StatusReply, Respond, DiedAsking, Pump, LaterCalls, Handy, ToInt32;
    StatusReplyIs(ticket, users);
    LaterReplyFiled(m, ticket, Status, StatusReply(ticket, users));
  }

  lemma OneCall(m: Mgr, call: Call)
    ensures DoAll(m, [call]) == Do(m, call)
  {
    hide Do;
    assert [call][1..] == [];
    assert DoAll(Do(m, call), []) == Do(m, call);
  }

  /** A name query for the user waits under this ticket. */
  predicate Asking(m: Mgr, user: bytes, ticket: int32) {
    && user in m.queries.fetches && m.queries.fetches[user].ticket == ticket && ticket != 0
    && ticket in m.tickets.table && m.tickets.table[ticket] == Started(ClientInfo, 0)
  }

  lemma AskWaits(m: Mgr, user: bytes)
    requires Calm(m) && Parse(user).Some? && user !in m.queries.fetches && NextTicket(m.tickets).next != 0
    ensures var q := Do(m, CallFetchUserData(user));
            && Calm(q) && Asking(q, user, q.tickets.next)
            && q.tickets.taken == m.tickets.taken + 1 && q.tickets.connection == m.tickets.connection
            && q.clock == m.clock && q.naps == m.naps && q.disk == m.disk
  {
    hide Build, Parse, NextTicket, NowMs, Deadline;
    NextTicketKeeps(m.tickets);
    var a := Asked(m, ClientInfo, 0, user);
    BuiltIsSome(GetClientInfo(m.session.server, Parse(user).value, a.tickets.next));
  }

  /** Logging in, asking, and a write failing unnoticed. */
  function DyingCalls(m: Mgr, user: bytes, other: bytes): seq<Call> {
    ConnectCalls(m, HelloBytes()) + [CallFetchUserData(user)] + [Doom(m), CallRemoveFromWWR(other)]
  }

  lemma DyingRun(kernel: Kernel, disk: Disk, user: bytes, other: bytes) returns (ticket: int32)
    requires kernel.connects == [] && Parse(user).Some? && Parse(other).Some?
    ensures var m := FreshMgr(kernel, disk, 0, []);
            var d := DoAll(m, DyingCalls(m, user, other));
            && AnswersOk(d) && d.session.phase.PhaseOnline? && !d.sock.state.Connected? && d.sock.kernel.connects == []
            && Asking(d, user, ticket) && d.clock == 0 && d.naps == [] && d.disk == disk
  {
    hide DoAll, Hello, Encode, Parse, NextTicket, Do, Remove;
    var m := FreshMgr(kernel, disk, 0, []);
    var n := DoAll(m, ConnectCalls(m, HelloBytes()));
    var q := Do(n, CallFetchUserData(user));
    LogsIn(m);
    SecondTicket(m, ConnectCalls(m, HelloBytes()));
    AskWaits(n, user);
    Dies(q, other);
    OneCall(n, CallFetchUserData(user));
    assert Doom(q) == Doom(m);
    DoAllConcat(m, ConnectCalls(m, HelloBytes()), [CallFetchUserData(user)]);
    DoAllConcat(m, ConnectCalls(m, HelloBytes()) + [CallFetchUserData(user)], [Doom(m), CallRemoveFromWWR(other)]);
    FreshFollows(m, DyingCalls(m, user, other));
    ticket := q.tickets.next;
  }

  lemma FreshFollows(m: Mgr, calls: seq<Call>)
    requires m == FreshMgr(m.sock.kernel, m.disk, m.clock, m.naps) && DoAll(m, calls).tickets.taken <= CYCLE
    ensures AnswersOk(DoAll(m, calls))
  {
    hide DoAll, Grows;
    RunFollows(m, calls);
  }

  lemma SecondTicket(m: Mgr, calls: seq<Call>)
    requires m == FreshMgr(m.sock.kernel, m.disk, m.clock, m.naps) && DoAll(m, calls).tickets.taken < CYCLE
    ensures NextTicket(DoAll(m, calls).tickets).next != 0
  {
    hide DoAll, NextTicket, Faithful, QueriesOk;
    FreshFollows(m, calls);
    FreshTicket(DoAll(m, calls).tickets);
  }

  /** A run from a manager as constructed in which a query takes a later connection's answer. */
  lemma LateRun(kernel: Kernel, disk: Disk, user: bytes, other: bytes, nick: bytes)
    returns (calls: seq<Call>, ticket: int32)
    requires kernel.connects == [] && Parse(user).Some? && Parse(other).Some? && |nick| <= 4000
    ensures TakesLater(DoAll(FreshMgr(kernel, disk, 0, []), calls), user, ticket, nick)
  {
    hide DoAll, Hello, Encode, Parse, NameReply, DyingCalls, AnswersOk, FindsLater, TakesLater, FetchUserData,
         LaterCalls, Respond, Pump, WellFormed;
    var m := FreshMgr(kernel, disk, 0, []);
    var dying := DyingCalls(m, user, other);
    ticket := DyingRun(kernel, disk, user, other);
    var d, reply := DoAll(m, dying), NameReply(ticket, nick);
    NameReplyIs(ticket, nick);
    LaterNameTaken(d, user, ticket, nick);
    LaterReplyFiled(d, ticket, ClientInfo, reply);
    DoAllConcat(m, dying, LaterCalls(d, reply));
    calls := dying + LaterCalls(d, reply);
    FoundIsTaken(DoAll(d, LaterCalls(d, reply)), user, ticket, nick,
                 Respond(Started(ClientInfo, 0), reply.h, reply.fixed + reply.further));
  }

  /** The query gives this name, from an answer of a later connection than the question's. */
  predicate TakesLater(m: Mgr, user: bytes, ticket: int32, nick: bytes) {
    var t := Pump(m).tickets;
    && FetchUserData(m, user).value == nick && ticket in t.answers && ticket in t.asks
    && t.asks[ticket].connection < t.answers[ticket].connection
  }

  lemma FoundIsTaken(m: Mgr, user: bytes, ticket: int32, nick: bytes, tr: Transaction)
    requires FindsLater(m, ticket, tr) && FetchUserData(m, user).value == nick
    ensures TakesLater(m, user, ticket, nick)
  {
    hide Pump, FetchUserData, Poll;
  }

  /** And one that ends offline with an entry in the table. */
  lemma OfflineWithEntries(kernel: Kernel, disk: Disk, user: bytes, other: bytes)
    returns (calls: seq<Call>, ticket: int32)
    requires kernel.connects == [] && Parse(user).Some? && Parse(other).Some?
    ensures var r := DoAll(FreshMgr(kernel, disk, 0, []), calls);
            !IsOnline(r) && !r.session.phase.PhaseOnline? && ticket in r.tickets.table
  {
    hide DoAll, Hello, Encode, Parse, DyingCalls, Do, AnswersOk;
    var m := FreshMgr(kernel, disk, 0, []);
    var dying := DyingCalls(m, user, other);
    ticket := DyingRun(kernel, disk, user, other);
    Tables.ReconnectKeeps(DoAll(m, dying), CallConnect([]));
    OneCall(DoAll(m, dying), CallConnect([]));
    DoAllConcat(m, dying, [CallConnect([])]);
    calls := dying + [CallConnect([])];
  }

  // ---- a presence change is swallowed ----

  /** The user is waited for, not heard of, and nothing is queued. */
  predicate AwaitsNews(w: Watch, user: bytes) {
    user in w.members && user in w.pendingAdds && user !in w.presence && user !in w.changed && user !in w.seen
  }

  lemma AddWaits(m: Mgr, user: bytes)
    requires Calm(m) && Parse(user).Some? && user !in m.watch.pendingAdds
    requires user !in m.watch.presence && user !in m.watch.changed && user !in m.watch.seen
    ensures var r := Do(m, CallAddToWWR(user));
            && Calm(r) && AwaitsNews(r.watch, user) && r.clock == m.clock && r.naps == m.naps && r.disk == m.disk
  {
    hide Build, Parse, NowMs, Deadline;
    BuiltIsSome(WwrModify(true, m.session.server, Parse(user).value));
  }

  /** Called again on the dead socket, the add answers and leaves its entry behind. */
  lemma AddLeaves(m: Mgr, user: bytes)
    requires !IsOnline(m) && Parse(user).Some? && AwaitsNews(m.watch, user)
    ensures var r := Do(m, CallAddToWWR(user));
            && !AddToWWR(m, user).block && r == m.(watch := r.watch) && AwaitsNews(r.watch, user)
               && user !in r.watch.adding
  {
    hide Parse;
  }

  /** The report of the user coming online is taken for the answer to it. */
  lemma ReportSwallowed(m: Mgr, uin: Uin)
    requires Calm(m) && AwaitsNews(m.watch, uin.ToString()) && uin.ToString() !in m.watch.adding
             && |Encode(Report(uin))| <= 4096
    ensures Unnoticed(Do(Do(m, Feed(m, Encode(Report(uin)))), CallGetMessages).watch, uin.ToString())
  {
    hide Process, Encode, Report, Uin.ToString;
    var p := PumpsOne(m, Encode(Report(uin)));
    TakesReport(p, uin);
    var w := Do(Do(m, Feed(m, Encode(Report(uin)))), CallGetMessages).watch;
    Guarantees.DrainSkips(w, uin.ToString());
  }

  /** A watched user, known to be online and not being added, whom the game believes offline once it has
      drained the queue. */
  predicate Unnoticed(w: Watch, user: bytes) {
    user in w.members && user !in w.adding && user !in w.pendingAdds && KnownOnline(w, user) && user !in Drain(w).seen
  }

  lemma ReportIs(uin: Uin)
    ensures |Encode(Report(uin))| == 32
  {
  }

  function ReportBytes(uin: Uin): Chunk {
    Encode(Report(uin))
  }

  function LosingCalls(m: Mgr, uin: Uin, other: bytes): seq<Call> {
    ConnectCalls(m, HelloBytes()) + [CallAddToWWR(uin.ToString())] + [Doom(m), CallRemoveFromWWR(other)]
      + [CallAddToWWR(uin.ToString())]
    + ConnectCalls(m, HelloBytes()) + [Feed(m, ReportBytes(uin)), CallGetMessages]
  }

  /** A run from a manager as constructed that ends with such a user: an add that has to wait, a failing write,
      the add called again, a new connection and login, and the report. */
  lemma LosingRun(kernel: Kernel, disk: Disk, uin: Uin, other: bytes)
    requires kernel.connects == [] && PlainUin(uin) && Parse(other).Some? && other != uin.ToString()
    ensures var m := FreshMgr(kernel, disk, 0, []);
            Unnoticed(DoAll(m, LosingCalls(m, uin, other)).watch, uin.ToString())
  {
    hide DoAll, Hello, Report, Encode, Parse, Do, Uin.ToString, Unnoticed, ConnectCalls;
    var m, user := FreshMgr(kernel, disk, 0, []), uin.ToString();
    var connect := ConnectCalls(m, HelloBytes());
    ParseToString(uin);
    var n := DoAll(m, connect);
    LogsIn(m);
    var a := Do(n, CallAddToWWR(user));
    AddWaits(n, user);
    OneCall(n, CallAddToWWR(user));
    var d := DoAll(a, [Doom(a), CallRemoveFromWWR(other)]);
    Dies(a, other);
    var e := Do(d, CallAddToWWR(user));
    AddLeaves(d, user);
    OneCall(d, CallAddToWWR(user));
    var r := DoAll(e, ConnectCalls(e, HelloBytes()));
    LogsIn(e);
    assert ConnectCalls(e, HelloBytes()) == connect by { SameCalls(e, m); }
    ReportIs(uin);
    ReportSwallowed(r, uin);
    TwoCalls(r, Feed(r, ReportBytes(uin)), CallGetMessages);
    var add, doom, last := [CallAddToWWR(user)], [Doom(m), CallRemoveFromWWR(other)],
      [Feed(m, ReportBytes(uin)), CallGetMessages];
    DoAllConcat(m, connect, add);
    DoAllConcat(m, connect + add, doom);
    DoAllConcat(m, connect + add + doom, add);
    DoAllConcat(m, connect + add + doom + add, connect);
    DoAllConcat(m, connect + add + doom + add + connect, last);
  }

  lemma SameCalls(e: Mgr, m: Mgr)
    requires e.clock == m.clock && e.naps == m.naps && e.disk == m.disk
    ensures ConnectCalls(e, HelloBytes()) == ConnectCalls(m, HelloBytes())
  {
    hide Hello, Encode;
  }

  lemma TwoCalls(m: Mgr, a: Call, b: Call)
    ensures DoAll(m, [a, b]) == Do(Do(m, a), b)
  {
    hide Do;
    assert [a, b][1..] == [b];
    OneCall(Do(m, a), b);
  }

  // ---- a refusal is overturned ----

  /** A refused login with the server's error code, and a peer opening a virtual circuit. */
  function Refusal(code: byte): ServerPacket
    requires code < 0x80
  {
    Unsolicited(Header(0x100 * code + HANDSHAKE_RESPONSE, 0, 0, 0, 0, 0, 0, 0), Ints([0, 0, 0, 0]))
  }

  function Circuit(): ServerPacket {
    Unsolicited(Header(VIRTUAL_CONNECT, 0, 0, 1, 1, 0, 0, 1), Ints([0, 0, 0]))
  }

  lemma RefusalIs(code: byte)
    requires 0 < code < 0x80
    ensures var p := Refusal(code);
            && WellFormed(p) && |Encode(p)| == 48 && LowByte(p.h.kind) == HANDSHAKE_RESPONSE && Encode(p)[1] == code
            && p.Unsolicited? && p.h.ticket == 0
  {
    hide Ints, GetInt;
    NoExtra();
    SecondByte(Refusal(code).h, Ints([0, 0, 0, 0]), code);
  }

  lemma CircuitIs()
    ensures var p := Circuit();
            WellFormed(p) && |Encode(p)| == 44 && LowByte(p.h.kind) == VIRTUAL_CONNECT && p.Unsolicited?
              && p.h.ticket == 0
  {
  }

  function RefusalBytes(code: byte): Chunk
    requires 0 < code < 0x80
  {
    RefusalIs(code);
    CircuitIs();
    Encode(Refusal(code)) + Encode(Circuit())
  }

  /** A run from a manager as constructed: the login is refused, and what the caller sees is a lost connection. */
  lemma OverturnedRun(kernel: Kernel, disk: Disk, code: byte)
    requires kernel.connects == [] && 0 < code < 0x80
    ensures var m := FreshMgr(kernel, disk, 0, []);
            var r := DoAll(m, ConnectCalls(m, RefusalBytes(code)));
            r.session.phase.PhaseIdle? && r.session.lastError == ErrorOffline && r.session.rawError == 0
  {
    hide DoAll, Refusal, Circuit, Encode, Process, LowByte, ReadHeader, Frame;
    var m := FreshMgr(kernel, disk, 0, []);
    var p := Reads(m, RefusalBytes(code));
    RefusalIs(code);
    CircuitIs();
    FrameWhole(Refusal(code), Encode(Circuit()), p.tickets.table);
    EncodedHeader(Refusal(code), Encode(Circuit()));
    assert p.sock.input[..48] == Encode(Refusal(code)) && p.sock.input[48..] == Encode(Circuit());
    assert p.sock.input[1] == Encode(Refusal(code))[1];
    FrameWhole(Circuit(), [], p.tickets.table);
    EncodedHeader(Circuit(), []);
    assert Encode(Circuit()) + [] == Encode(Circuit());
    Tables.RefusalStands(p);
  }

  // ---- a status report is not given ----

  /** The packet a first GetStatus writes is accepted. */
  predicate StatusAsked(m: Mgr) {
    var a := Asked(m, Status, 16, []);
    Send(a, AskStatus(m.session.server, a.tickets.next)).sock.state.Connected?
  }

  /** A call that does not block leaves its outputs unset. */
  predicate Unset(m: Mgr) {
    GetStatus(m).value.None? && !GetStatus(m).block
  }

  /** That happens exactly when it is the first call of a query, made online, and its packet cannot be written. */
  lemma StatusUnset(m: Mgr)
    ensures Unset(m) <==> IsOnline(m) && m.queries.status.ticket == 0 && !StatusAsked(m)
  {
    hide Pump, Start, Send, Poll, TimeAfter, NowMs, Deadline, Measured;
  }

  /** A run from a manager as constructed after which it does. */
  lemma UnsetRun(kernel: Kernel, disk: Disk)
    requires kernel.connects == []
    ensures var m := FreshMgr(kernel, disk, 0, []);
            Unset(DoAll(m, ConnectCalls(m, HelloBytes()) + [Doom(m)]))
  {
    hide DoAll, Hello, Encode, Do, ConnectCalls, Unset;
    var m := FreshMgr(kernel, disk, 0, []);
    var n := DoAll(m, ConnectCalls(m, HelloBytes()));
    LogsIn(m);
    DoAllConcat(m, ConnectCalls(m, HelloBytes()), [Doom(m)]);
    assert Doom(n) == Doom(m);
    OneCall(n, Doom(m));
    DoomedAsk(n);
    StatusUnset(Do(n, Doom(n)));
  }

  lemma DoomedAsk(n: Mgr)
    requires Calm(n)
    ensures var d := Do(n, Doom(n)); IsOnline(d) && d.queries == n.queries && !StatusAsked(d)
  {
    hide Build, Start, ToInt32;
    var d := Do(n, Doom(n));
    BuiltIsSome(AskStatus(d.session.server, Asked(d, Status, 16, []).tickets.next));
  }

  // ---- a spelling that never shows ----

  /** "01+1" is accepted as an address and is not the canonical spelling of it. */
  lemma LeadingZero()
    ensures var user: bytes := [48, 49, 43, 49]; Parse(user).Some? && !Canonical(user)
  {
    hide Atoi;
    var user: bytes := [48, 49, 43, 49];
    assert FirstIndex(user, PLUS) == 2;
    assert Digits(user[..2]) && Digits(user[3..]);
    var u := Parse(user).value;
    assert u.ToString()[0] == Print(u.uid)[0];
    if u.uid >= 0 && Decimal(u.uid)[0] == 48 {
      assert u.ToString()[1] == PLUS;
    }
  }
}
