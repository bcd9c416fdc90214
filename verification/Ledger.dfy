/** Nothing is lost or doubled on the way in: messages reach the game, virtual connects are acknowledged. */
module Ledger {
  import opened Bytes
  import opened Uins
  import opened Protocol
  import opened Sockets
  import opened Clock
  import opened Tickets
  import opened Watching
  import opened Client
  import opened Connection
  import opened Api
  import opened Acts
  import opened Sound

  // ---- what the log says should have happened ----

  predicate Unasked(d: Dispatch, kind: int32) {
    !d.reply && |d.packet| >= HEADER_SIZE && LowByte(ReadHeader(d.packet).kind) == kind
  }

  /** The message a dispatched packet brought for the game, if it brought one. */
  function MailIn(d: Dispatch): seq<Incoming> {
    if !Unasked(d, MESSAGE) then []
    else
      match ParseMessage(d.packet[HEADER_SIZE..])
      case None => []
      case Some(mesg) =>
        if mesg.kind == MESG_PRAY_FILE then [] else [Incoming(mesg.sender.ToString(), mesg.kind, mesg.payload)]
  }

  function MailOf(log: seq<Dispatch>): seq<Incoming> {
    if log == [] then [] else MailOf(log[..|log| - 1]) + MailIn(log[|log| - 1])
  }

  /** The k-th virtual socket number ever taken. */
  function VsnAt(k: nat): int32 {
    if k == 0 then 0 else (k - 1) % 0xFFFF + 1
  }

  /** An acknowledgement: who connected, with which number, and the number given here. */
  datatype Ack = Ack(initiator: Uin, theirs: int32, ours: int32)

  function AcksIn(p: Packet): seq<Ack> {
    if p.ConnectAccept? then [Ack(p.initiator, LowHalf(p.initiatorVSN), p.localVSN)] else []
  }

  /** The acknowledgements sent, as the peer reads them, */
  function AcksOf(sent: seq<Packet>): seq<Ack> {
    if sent == [] then [] else AcksOf(sent[..|sent| - 1]) + AcksIn(sent[|sent| - 1])
  }

  /** and the acknowledgements the dispatched virtual connects call for, numbered on from `start`. */
  function AcksFor(log: seq<Dispatch>, start: nat): (r: seq<Ack>)
    decreases |log|
  {
    if log == [] then []
    else
      var before := AcksFor(log[..|log| - 1], start);
      var d := log[|log| - 1];
      if Unasked(d, VIRTUAL_CONNECT) then
        var h := ReadHeader(d.packet);
        before + [Ack(Uin(h.c, h.d), LowHalf(h.e), VsnAt(start + |before| + 1))]
      else before
  }

  /** The messages handed over, then those waiting, are those the dispatched packets brought, in order. */
  predicate MailOk(m: Mgr) {
    m.handed + m.incoming == MailOf(m.log)
  }

  /** On a connection not yet lost, every dispatched virtual connect has been acknowledged, in order, each
      with the next virtual socket number. */
  predicate CircuitOk(m: Mgr) {
    && m.base <= |m.log|
    && m.vsn.last == VsnAt(m.vsn.count)
    && |AcksOf(m.sent)| <= m.vsn.count
    && (!m.session.phase.PhaseIdle? ==>
          AcksOf(m.sent) == AcksFor(m.log[m.base..], m.vsn.count - |AcksOf(m.sent)|))
  }

  predicate LedgerOk(m: Mgr) {
    MailOk(m) && CircuitOk(m)
  }

  // ---- virtual socket numbers ----

  /** The counter skips zero, so numbers run through 1 to 65535 before repeating. */
  lemma NextVSNIs(v: Virtual)
    requires v.last == VsnAt(v.count)
    ensures NextVSN(v).last == VsnAt(v.count + 1) && NextVSN(v).count == v.count + 1
  {
    if v.count > 0 {
      var n := v.count - 1;
      var q, r := n / 0xFFFF, n % 0xFFFF;
      assert n + 1 == q * 0xFFFF + (r + 1);
      if r + 1 == 0xFFFF {
        assert n + 1 == (q + 1) * 0xFFFF + 0;
      }
    }
  }

  /** A virtual socket number is never zero, and any 65535 consecutive ones are distinct. */
  lemma VsnDistinct(j: nat, k: nat)
    requires 1 <= j < k < j + 0xFFFF
    ensures 1 <= VsnAt(j) <= 0xFFFF && VsnAt(j) != VsnAt(k)
  {
    var a, b := j - 1, k - 1;
    assert a == a / 0xFFFF * 0xFFFF + a % 0xFFFF && b == b / 0xFFFF * 0xFFFF + b % 0xFFFF;
    assert b - a == (b / 0xFFFF - a / 0xFFFF) * 0xFFFF + (b % 0xFFFF - a % 0xFFFF);
  }

  // ---- frames ----

  predicate SameLedger(m: Mgr, r: Mgr) {
    && r.log == m.log && r.base == m.base && r.incoming == m.incoming && r.handed == m.handed
    && r.vsn == m.vsn && AcksOf(r.sent) == AcksOf(m.sent)
    && (m.session.phase.PhaseIdle? ==> r.session.phase.PhaseIdle?)
  }

  lemma SameLedgerKeeps(m: Mgr, r: Mgr)
    requires LedgerOk(m) && SameLedger(m, r)
    ensures LedgerOk(r)
  {
  }

  lemma AcksSnoc(sent: seq<Packet>, p: Packet)
    ensures AcksOf(sent + [p]) == AcksOf(sent) + AcksIn(p)
  {
    assert (sent + [p])[..|sent|] == sent;
  }

  lemma SendLedger(m: Mgr, p: Packet)
    requires !p.ConnectAccept?
    ensures SameLedger(m, Send(m, p))
  {
    hide Build, WriteSock;
    AcksSnoc(m.sent, p);
  }

  lemma {:induction false} RegistrationsLedger(m: Mgr, users: seq<bytes>)
    ensures SameLedger(m, SendRegistrations(m, users))
    decreases |users|
  {
    hide Parse, Register, Send;
    if users != [] {
      RegistrationsLedger(m, users[1..]);
      if Parse(users[0]).Some? {
        var r, p := m.(watch := Register(m.watch, users[0])), WwrModify(true, m.session.server, Parse(users[0]).value);
        SendLedger(r, p);
        RegistrationsLedger(Send(r, p), users[1..]);
      }
    }
  }

  lemma HandshakeLedger(m: Mgr, h: Header, raw: bytes)
    requires |raw| > 1
    ensures SameLedger(m, HandleHandshake(m, h, raw))
  {
    hide SendRegistrations, ServerList.Announced, MapHandshakeError;
    RegistrationsLedger(Entered(m, h, raw), m.watch.usersForWWR);
  }

  // ---- processing input ----

  lemma MailSnoc(log: seq<Dispatch>, d: Dispatch)
    ensures MailOf(log + [d]) == MailOf(log) + MailIn(d)
  {
    assert (log + [d])[..|log|] == log;
  }

  lemma AcksForSnoc(log: seq<Dispatch>, d: Dispatch, start: nat)
    ensures !Unasked(d, VIRTUAL_CONNECT) ==> AcksFor(log + [d], start) == AcksFor(log, start)
    ensures Unasked(d, VIRTUAL_CONNECT) ==>
              var h := ReadHeader(d.packet);
              AcksFor(log + [d], start) == AcksFor(log, start)
                + [Ack(Uin(h.c, h.d), LowHalf(h.e), VsnAt(start + |AcksFor(log, start)| + 1))]
  {
    hide ReadHeader, VsnAt;
    assert (log + [d])[..|log|] == log;
  }

  /** Consuming a packet that calls for no acknowledgement. */
  lemma ConsumedLedger(m: Mgr, r: Mgr, reply: bool, size: nat)
    requires LedgerOk(m) && size <= |m.sock.input| && r.sock.input == m.sock.input
    requires r.log == m.log && r.base == m.base && r.handed == m.handed && r.vsn == m.vsn
             && AcksOf(r.sent) == AcksOf(m.sent)
    requires m.session.phase.PhaseIdle? ==> r.session.phase.PhaseIdle?
    requires !Unasked(Dispatch(reply, m.sock.input[..size]), VIRTUAL_CONNECT)
    requires r.incoming == m.incoming + MailIn(Dispatch(reply, m.sock.input[..size]))
    ensures LedgerOk(Client.Consumed(r, reply, size))
  {
    hide Unasked, MailIn, MailOf, AcksOf, AcksFor, VsnAt;
    var d := Dispatch(reply, m.sock.input[..size]);
    MailSnoc(m.log, d);
    assert (m.log + [d])[m.base..] == m.log[m.base..] + [d];
    AcksForSnoc(m.log[m.base..], d, m.vsn.count - |AcksOf(m.sent)|);
    assert m.handed + (m.incoming + MailIn(d)) == (m.handed + m.incoming) + MailIn(d);
  }

  /** Logging a virtual connect together with its acknowledgement. */
  lemma AcknowledgedCircuit(m: Mgr, r: Mgr, d: Dispatch, p: Packet)
    requires LedgerOk(m) && Unasked(d, VIRTUAL_CONNECT) && MailIn(d) == []
    requires r.log == m.log + [d] && r.base == m.base && r.handed == m.handed && r.incoming == m.incoming
    requires r.sent == m.sent + [p] && r.vsn == NextVSN(m.vsn) && r.session == m.session
    requires var h := ReadHeader(d.packet); AcksIn(p) == [Ack(Uin(h.c, h.d), LowHalf(h.e), r.vsn.last)]
    ensures LedgerOk(r)
  {
    hide VsnAt, NextVSN, LowHalf, ReadHeader, AcksIn, Unasked, MailIn;
    NextVSNIs(m.vsn);
    MailSnoc(m.log, d);
    AcksSnoc(m.sent, p);
    assert r.log[r.base..] == m.log[m.base..] + [d];
    AcksForSnoc(m.log[m.base..], d, m.vsn.count - |AcksOf(m.sent)|);
  }

  /** Consuming a virtual connect that was acknowledged. */
  lemma AcknowledgedLedger(m: Mgr, h: Header, size: nat)
    requires LedgerOk(m) && HEADER_SIZE <= size <= |m.sock.input| && h == ReadHeader(m.sock.input)
    requires LowByte(h.kind) == VIRTUAL_CONNECT && !Drops(m, h)
    ensures LedgerOk(Client.Consumed(Send(m.(vsn := NextVSN(m.vsn)), Accepting(m, h)), false, size))
  {
    hide WriteSock, Build, NextVSN, LowHalf, ReadHeader, LowByte, LedgerOk;
    var n := m.(vsn := NextVSN(m.vsn));
    var d := Dispatch(false, m.sock.input[..size]);
    assert m.sock.input == m.sock.input[..size] + m.sock.input[size..];
    ReadHeaderPrefix(m.sock.input[..size], m.sock.input[size..]);
    assert Unasked(d, VIRTUAL_CONNECT) && !Unasked(d, MESSAGE);
    DeadDrops(n, Accepting(m, h));
    AcknowledgedCircuit(m, Client.Consumed(Send(n, Accepting(m, h)), false, size), d, Accepting(m, h));
  }

  /** A packet that was accepted for writing was written on a live socket. */
  lemma DeadDrops(m: Mgr, p: Packet)
    ensures Send(m, p).sock.state.Connected? ==> m.sock.state.Connected?
  {
  }

  lemma DispatchKind(input: bytes, size: nat, reply: bool, kind: int32)
    requires HEADER_SIZE <= size <= |input|
    ensures Unasked(Dispatch(reply, input[..size]), kind) <==> !reply && LowByte(ReadHeader(input).kind) == kind
  {
    hide ReadHeader, LowByte;
    assert input == input[..size] + input[size..];
    ReadHeaderPrefix(input[..size], input[size..]);
  }

  lemma PlainPacketLedger(m: Mgr, h: Header, size: nat)
    requires LedgerOk(m) && HEADER_SIZE <= size <= |m.sock.input| && h == ReadHeader(m.sock.input)
    requires LowByte(h.kind) != VIRTUAL_CONNECT
    ensures LedgerOk(Client.Consumed(HandlePacket(m, h, m.sock.input[HEADER_SIZE..size]), false, size))
  {
    hide LedgerOk, ReadHeader, LowByte, ParseMessage, ParseUser, Update, Client.Consumed, Spool.SpoolPray;
    var body := m.sock.input[HEADER_SIZE..size];
    assert m.sock.input[..size][HEADER_SIZE..] == body;
    DispatchKind(m.sock.input, size, false, VIRTUAL_CONNECT);
    DispatchKind(m.sock.input, size, false, MESSAGE);
    ConsumedLedger(m, HandlePacket(m, h, body), false, size);
  }

  lemma StepLedger(m: Mgr)
    requires LedgerOk(m)
    ensures LedgerOk(AfterStep(m))
  {
    hide LedgerOk, Frame, HandleHandshake, HandlePacket, Answered, ReadHeader, LowByte, Client.Consumed;
    match Frame(m.sock.input, m.tickets.table)
    case NeedMore =>
    case Broken => LostLedger(m);
    case Whole(size, reply) =>
      var h := ReadHeader(m.sock.input);
      var body := m.sock.input[HEADER_SIZE..size];
      DispatchKind(m.sock.input, size, reply, VIRTUAL_CONNECT);
      DispatchKind(m.sock.input, size, reply, MESSAGE);
      if reply {
        ConsumedLedger(m, m.(tickets := Answered(m.tickets, h, body)), true, size);
      } else if LowByte(h.kind) == HANDSHAKE_RESPONSE {
        HandshakeLedger(m, h, m.sock.input[..size]);
        ConsumedLedger(m, HandleHandshake(m, h, m.sock.input[..size]), false, size);
      } else if LowByte(h.kind) == VIRTUAL_CONNECT {
        ConnectPacket(m, h, body);
        if Drops(m, h) {
          DroppedLedger(m, h);
        } else {
          AcknowledgedLedger(m, h, size);
        }
      } else {
        PlainPacketLedger(m, h, size);
      }
  }

  lemma ConnectPacket(m: Mgr, h: Header, body: bytes)
    requires LowByte(h.kind) == VIRTUAL_CONNECT
    ensures HandlePacket(m, h, body) ==
            var s := Send(m.(vsn := NextVSN(m.vsn)), Accepting(m, h));
            if Drops(m, h) then ConnectionLost(s) else s
  {
    hide Send, ConnectionLost, NextVSN;
  }

  lemma LostLedger(m: Mgr)
    requires LedgerOk(m)
    ensures LedgerOk(ConnectionLost(m)) && LedgerOk(Disconnect(m))
  {
    hide VsnAt, AcksOf, MailOf;
  }

  lemma DroppedLedger(m: Mgr, h: Header)
    requires LedgerOk(m)
    ensures LedgerOk(ConnectionLost(Send(m.(vsn := NextVSN(m.vsn)), Accepting(m, h))))
  {
    hide VsnAt, MailOf, WriteSock, Build, NextVSN;
    NextVSNIs(m.vsn);
    AcksSnoc(m.sent, Accepting(m, h));
  }

  lemma {:induction false} ProcessLedger(m: Mgr)
    requires LedgerOk(m)
    ensures LedgerOk(Process(m))
    decreases |m.sock.input|
  {
    hide LedgerOk, Step;
    StepLedger(m);
    match Step(m)
    case Waiting =>
    case Dropped(n) =>
    case Continue(n) => ProcessLedger(n);
  }

  // ---- connecting and pumping ----

  lemma SockLedger(m: Mgr, s: Sock)
    requires LedgerOk(m)
    ensures LedgerOk(m.(sock := s))
  {
    SameLedgerKeeps(m, m.(sock := s));
  }

  lemma StartConnectingLedger(m: Mgr)
    requires LedgerOk(m)
    ensures LedgerOk(StartConnecting(m))
  {
    hide BeginSock, VsnAt, MailOf;
    assert m.log[|m.log|..] == [];
  }

  lemma PumpLedger(m: Mgr)
    requires LedgerOk(m)
    ensures LedgerOk(Pump(m))
  {
    hide LedgerOk, Process, PumpSock, PollSock, Send, TimeAfter, NextTicket, AcksOf;
    if UnderWay(m) {
      var l := LoginStep(m);
      LoginLedger(m);
      SameLedgerKeeps(m, l);
      var n := l.(sock := PumpSock(l.sock));
      SockLedger(l, n.sock);
      ProcessLedger(n);
      var a := AwaitStep(l);
      if l.session.phase.PhaseAwait? {
        SameLedgerKeeps(Process(n), a);
      }
      SameLedgerKeeps(a, DeadlineStep(a));
    } else if m.session.phase.PhaseOnline? {
      var n := m.(sock := PumpSock(m.sock));
      SockLedger(m, n.sock);
      ProcessLedger(n);
      LostLedger(Process(n));
    }
  }

  lemma LoginLedger(m: Mgr)
    ensures SameLedger(m, LoginStep(m))
  {
    hide PollSock, NextTicket, Send, AcksOf;
    if m.session.phase.PhaseConnecting? {
      var c := m.(sock := PollSock(m.sock), tickets := NextTicket(m.tickets));
      SendLedger(c, Login(m));
    }
  }

  lemma ConnectLedger(m: Mgr, users: seq<bytes>)
    requires LedgerOk(m)
    ensures LedgerOk(ConnectInBackground(m, users))
  {
    hide LedgerOk, PumpConnectPhase, StartConnecting, Pump, AcksOf;
    var n := m.(watch := m.watch.(usersForWWR := users));
    SameLedgerKeeps(m, n);
    StartConnectingLedger(n);
    if UnderWay(m) {
      PumpLedger(m);
      PumpIs(m);
    }
  }

  // ---- the acts ----

  lemma TakeMailLedger(m: Mgr)
    requires LedgerOk(m)
    ensures LedgerOk(Perform(m, TakesMail))
  {
    hide CircuitOk, MailOf;
    var r := Perform(m, TakesMail);
    assert r.handed + [] == r.handed;
    assert CircuitOk(r) by {
      MailIsNoCircuit(m, r);
    }
  }

  lemma MailIsNoCircuit(p: Mgr, r: Mgr)
    requires CircuitOk(p) && r == p.(incoming := r.incoming, handed := r.handed)
    ensures CircuitOk(r)
  {
  }

  lemma UnwatchLedger(m: Mgr, user: bytes)
    requires LedgerOk(m)
    ensures LedgerOk(RemoveFromWWR(m, user))
  {
    hide LedgerOk, Parse, Send, Remove, AcksOf;
    var r := Watched(m, Remove(m.watch, user));
    if Parse(user).Some? {
      SendLedger(r, WwrModify(false, m.session.server, Parse(user).value));
    }
    SameLedgerKeeps(m, RemoveFromWWR(m, user));
  }

  lemma ActLedger(m: Mgr, act: Act)
    requires LedgerOk(m) && Proper(m, act)
    ensures LedgerOk(Perform(m, act))
  {
    hide LedgerOk, Pump, ConnectInBackground, Disconnect, ConnectionLost, Send, Start, Abandon, AfterPoll, AcksOf;
    match act
    case Pumps => PumpLedger(m);
    case Connects(users) => ConnectLedger(m, users);
    case Disconnects => LostLedger(m);
    case Loses => LostLedger(m);
    case TakesMail => TakeMailLedger(m);
    case Writes(packet) =>
      SendLedger(m, packet);
      SameLedgerKeeps(m, Send(m, packet));
    case Unwatches(user) => UnwatchLedger(m, user);
    case Questions(kind, fixedExtra, subject, packet) =>
      SendLedger(Asked(m, kind, fixedExtra, subject), packet);
      SameLedgerKeeps(m, Perform(m, act));
    case _ => SameLedgerKeeps(m, Perform(m, act));
  }

  lemma {:induction false} ScriptLedger(m: Mgr, s: Script)
    requires LedgerOk(m) && AllProper(m, s)
    ensures LedgerOk(Play(m, s))
    decreases s
  {
    hide LedgerOk, Perform, Proper;
    if s.Then? {
      ActLedger(m, s.act);
      ScriptLedger(Perform(m, s.act), s.rest);
    }
  }

  /** Every call keeps the ledger. */
  lemma DoLedger(m: Mgr, call: Call)
    requires LedgerOk(m)
    ensures LedgerOk(Do(m, call))
  {
    hide LedgerOk, Do, ScriptOf, AllProper, Play;
    CallLeads(m, call);
    ScriptLedger(m, ScriptOf(m, call));
  }

  /** Over any run: the game gets every message exactly once and in order, across reconnects, and every
      virtual connect dispatched on a connection not yet lost has been acknowledged with the next number. */
  lemma {:induction false} RunLedger(m: Mgr, calls: seq<Call>)
    requires LedgerOk(m)
    ensures LedgerOk(DoAll(m, calls))
    decreases |calls|
  {
    hide LedgerOk, Do;
    if calls != [] {
      DoLedger(m, calls[0]);
      RunLedger(Do(m, calls[0]), calls[1..]);
    }
  }
}
