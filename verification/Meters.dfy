/** What GetStatus reports of the connection itself: bytes moved since construction, and time since login. */
module Meters {
  import opened Bytes
  import opened Uins
  import opened Protocol
  import opened Sockets
  import opened Clock
  import opened Tickets
  import opened Watching
  import opened Client
  import opened Connection
  import opened Api
  import opened Acts
  import opened Sound
  import opened LockStepRun
  import opened Reports
  import opened Logins

  /** From s to r, on one connection, the counters went on by what moved, in 32 bits. */
  predicate Counted(s: Sock, r: Sock) {
    && s.wire <= r.wire && s.received <= r.received
    && r.bytesSent == ToInt32(s.bytesSent + (|r.wire| - |s.wire|))
    && r.bytesReceived == ToInt32(s.bytesReceived + (|r.received| - |s.received|))
  }

  lemma AddedUp(a: int, x: int, y: int)
    ensures ToInt32(ToInt32(a + x) + y) == ToInt32(a + (x + y))
  {
    var c: int := ToInt32(a + x);
    var k := (c - (a + x)) / TWO_32;
    assert c % TWO_32 == (a + x) % TWO_32;
    SameResidue(c, a + x, y);
  }

  lemma SameResidue(c: int, d: int, y: int)
    requires c % TWO_32 == d % TWO_32
    ensures (c + y) % TWO_32 == (d + y) % TWO_32
  {
    var q, p := c / TWO_32, d / TWO_32;
    assert c == q * TWO_32 + c % TWO_32 && d == p * TWO_32 + d % TWO_32;
    assert c + y == (d + y) + (q - p) * TWO_32;
    Cycles(d + y, q - p);
  }

  lemma Cycles(x: int, k: int)
    ensures (x + k * TWO_32) % TWO_32 == x % TWO_32
  {
    var q, r := x / TWO_32, x % TWO_32;
    assert x + k * TWO_32 == (q + k) * TWO_32 + r;
  }

  lemma CountedOn(s: Sock, n: Sock, r: Sock)
    requires Counted(s, n) && Counted(n, r)
    ensures Counted(s, r)
  {
    hide ToInt32;
    AddedUp(s.bytesSent, |n.wire| - |s.wire|, |r.wire| - |n.wire|);
    AddedUp(s.bytesReceived, |n.received| - |s.received|, |r.received| - |n.received|);
  }

  lemma SameCounted(s: Sock, r: Sock)
    requires r.wire == s.wire && r.received == s.received
    requires r.bytesSent == s.bytesSent && r.bytesReceived == s.bytesReceived
    ensures Counted(s, r)
  {
  }

  // ---- the socket ----

  lemma {:induction false} FlushCounts(s: Sock)
    ensures Counted(s, FlushSock(s))
    decreases |s.output|
  {
    hide Counted;
    SameCounted(s, s);
    if s.state.Connected? && s.output != [] {
      var k := s.(kernel := s.kernel.(sends := Pop(s.kernel.sends)));
      match Head(s.kernel.sends, SendBlocked)
      case Took(count) =>
        var n := Min(count, |s.output|);
        var next := k.(bytesSent := ToInt32(s.bytesSent + n), wire := s.wire + s.output[..n], output := s.output[n..]);
        FlushCounts(next);
        TookCounts(s, next, n);
        CountedOn(s, next, FlushSock(next));
      case _ => SameCounted(s, FlushSock(s));
    }
  }

  lemma TookCounts(s: Sock, next: Sock, n: nat)
    requires n <= |s.output| && next.wire == s.wire + s.output[..n] && next.bytesSent == ToInt32(s.bytesSent + n)
    requires next.received == s.received && next.bytesReceived == s.bytesReceived
    ensures Counted(s, next)
  {
  }

  lemma GotCounts(s: Sock, next: Sock, chunk: bytes)
    requires next.received == s.received + chunk && next.bytesReceived == ToInt32(s.bytesReceived + |chunk|)
    requires next.wire == s.wire && next.bytesSent == s.bytesSent
    ensures Counted(s, next)
  {
  }

  lemma WriteCounts(s: Sock, data: bytes)
    ensures Counted(s, WriteSock(s, data))
  {
    hide Counted, FlushSock;
    SameCounted(s, s);
    if s.state.Connected? && data != [] {
      var n := s.(output := s.output + data, writes := s.writes + [data]);
      SameCounted(s, n);
      FlushCounts(n);
      CountedOn(s, n, FlushSock(n));
      SameCounted(FlushSock(n), WriteSock(s, data));
      CountedOn(s, FlushSock(n), WriteSock(s, data));
    }
  }

  lemma {:induction false} ReadCounts(s: Sock)
    ensures Counted(s, ReadSock(s))
    decreases |s.kernel.recvs|
  {
    hide Counted;
    SameCounted(s, s);
    if s.state.Connected? && s.kernel.recvs != [] {
      var k := s.(kernel := s.kernel.(recvs := s.kernel.recvs[1..]));
      match s.kernel.recvs[0]
      case Data(chunk) =>
        var next := k.(bytesReceived := ToInt32(s.bytesReceived + |chunk|), input := s.input + chunk,
                       received := s.received + chunk);
        ReadCounts(next);
        GotCounts(s, next, chunk);
        CountedOn(s, next, ReadSock(next));
      case _ => SameCounted(s, ReadSock(s));
    }
  }

  lemma PumpCounts(s: Sock)
    ensures Counted(s, PumpSock(s)) && Counted(s, PollSock(s)) && Counted(s, CloseSock(s))
  {
    hide Counted, FlushSock, ReadSock;
    SameCounted(s, PollSock(s));
    SameCounted(s, CloseSock(s));
    if !s.state.Connecting? {
      FlushCounts(s);
      ReadCounts(FlushSock(s));
      CountedOn(s, FlushSock(s), ReadSock(FlushSock(s)));
    }
  }

  // ---- packets and pumps ----

  lemma SendCounts(m: Mgr, p: Packet)
    ensures Counted(m.sock, Send(m, p).sock)
  {
    hide Counted, WriteSock, Build;
    WriteCounts(m.sock, Build(p));
  }

  lemma {:induction false} RegistrationsCount(m: Mgr, users: seq<bytes>)
    ensures Counted(m.sock, SendRegistrations(m, users).sock)
    decreases |users|
  {
    hide Counted, Parse, Send, Register;
    SameCounted(m.sock, m.sock);
    if users != [] && Parse(users[0]).None? {
      RegistrationsCount(m, users[1..]);
    } else if users != [] {
      var n, p := m.(watch := Register(m.watch, users[0])), WwrModify(true, m.session.server, Parse(users[0]).value);
      SendCounts(n, p);
      RegistrationsCount(Send(n, p), users[1..]);
      CountedOn(m.sock, Send(n, p).sock, SendRegistrations(Send(n, p), users[1..]).sock);
    }
  }

  lemma StepCounts(m: Mgr)
    ensures Counted(m.sock, AfterStep(m).sock)
  {
    hide Counted, Frame, Answered, ReadHeader, LowByte, Accepts, Send, ParseMessage, ParseUser, SendRegistrations,
         Spool.SpoolPray, Update, ServerList.Announced, MapHandshakeError, CloseSock, ConsumeSock;
    SameCounted(m.sock, m.sock);
    PumpCounts(m.sock);
    match Frame(m.sock.input, m.tickets.table)
    case Whole(size, reply) =>
      var h, raw := ReadHeader(m.sock.input), m.sock.input[..size];
      var n := if reply then m else if LowByte(h.kind) == HANDSHAKE_RESPONSE then HandleHandshake(m, h, raw)
               else HandlePacket(m, h, m.sock.input[HEADER_SIZE..size]);
      RegistrationsCount(Entered(m, h, raw), m.watch.usersForWWR);
      SendCounts(m.(vsn := NextVSN(m.vsn)), Accepting(m, h));
      PumpCounts(Send(m.(vsn := NextVSN(m.vsn)), Accepting(m, h)).sock);
      CountedOn(m.sock, Send(m.(vsn := NextVSN(m.vsn)), Accepting(m, h)).sock,
                CloseSock(Send(m.(vsn := NextVSN(m.vsn)), Accepting(m, h)).sock));
      assert Counted(m.sock, n.sock);
      ConsumeCounts(n.sock, size);
      CountedOn(m.sock, n.sock, ConsumeSock(n.sock, size));
    case _ =>
  }

  lemma ConsumeCounts(s: Sock, size: nat)
    ensures Counted(s, ConsumeSock(s, size))
  {
    SameCounted(s, ConsumeSock(s, size));
  }

  lemma {:induction false} ProcessCounts(m: Mgr)
    ensures Counted(m.sock, Process(m).sock)
    decreases |m.sock.input|
  {
    hide Counted, Step;
    StepCounts(m);
    SameCounted(m.sock, m.sock);
    if Step(m).Continue? {
      ProcessCounts(Step(m).m);
      CountedOn(m.sock, Step(m).m.sock, Process(m).sock);
    }
  }

  lemma LoginCounts(m: Mgr)
    ensures Counted(m.sock, LoginStep(m).sock)
  {
    hide Counted, PollSock, Send, NextTicket;
    SameCounted(m.sock, m.sock);
    var t := m.(sock := PollSock(m.sock), tickets := NextTicket(m.tickets));
    PumpCounts(m.sock);
    SendCounts(t, Login(m));
    CountedOn(m.sock, t.sock, Send(t, Login(m)).sock);
  }

  lemma PumpMeters(m: Mgr)
    ensures Counted(m.sock, Pump(m).sock)
  {
    hide Counted, Process, PumpSock, LoginStep, TimeAfter, CloseSock;
    SameCounted(m.sock, m.sock);
    if Live(m) {
      var l := if UnderWay(m) then LoginStep(m) else m;
      var n := l.(sock := PumpSock(l.sock));
      LoginCounts(m);
      PumpCounts(l.sock);
      ProcessCounts(n);
      CountedOn(m.sock, l.sock, n.sock);
      CountedOn(m.sock, n.sock, Process(n).sock);
      PumpCounts(Process(n).sock);
      CountedOn(m.sock, Process(n).sock, CloseSock(Process(n).sock));
      CountedOn(m.sock, l.sock, CloseSock(l.sock));
    }
  }

  // ---- calls and runs ----

  lemma ActCounts(m: Mgr, act: Act)
    requires !(act.Connects? && StartsConnection(m))
    ensures Counted(m.sock, Perform(m, act).sock)
  {
    hide Counted, Pump, PumpConnectPhase, Send, CloseSock, Start, Abandon, AfterPoll, AllOffline, Parse, Remove,
         FinishAdd, BeginAdd, AfterNext, NowMs;
    SameCounted(m.sock, m.sock);
    PumpCounts(m.sock);
    match act
    case Pumps => PumpMeters(m);
    case Connects(users) =>
      PumpMeters(m);
      if UnderWay(m) { PumpIs(m); }
    case Writes(packet) => SendCounts(m, packet);
    case Questions(kind, fixedExtra, subject, packet) => SendCounts(Asked(m, kind, fixedExtra, subject), packet);
    case Unwatches(user) =>
      if Parse(user).Some? {
        SendCounts(Watched(m, Remove(m.watch, user)), WwrModify(false, m.session.server, Parse(user).value));
      }
    case Changes(kernel, _, _, _) => SameCounted(m.sock, m.sock.(kernel := kernel));
    case _ =>
  }

  lemma {:induction false} ScriptCounts(m: Mgr, s: Script)
    requires Inner(s)
    ensures Counted(m.sock, Play(m, s).sock)
    decreases s
  {
    hide Counted, Perform;
    SameCounted(m.sock, m.sock);
    if s.Then? {
      var n := Perform(m, s.act);
      ActCounts(m, s.act);
      ScriptCounts(n, s.rest);
      CountedOn(m.sock, n.sock, Play(n, s.rest).sock);
    }
  }

  /** The bytes a call moved, sent and received; beginning a connection moves none. */
  function Moved(m: Mgr, call: Call): (int, int) {
    var r := Do(m, call);
    if call.CallConnect? && StartsConnection(m) then (0, 0)
    else (|r.sock.wire| - |m.sock.wire|, |r.sock.received| - |m.sock.received|)
  }

  function AllMoved(m: Mgr, calls: seq<Call>): (int, int)
    decreases |calls|
  {
    if calls == [] then (0, 0)
    else
      var first, rest := Moved(m, calls[0]), AllMoved(Do(m, calls[0]), calls[1..]);
      (first.0 + rest.0, first.1 + rest.1)
  }

  lemma DoCounts(m: Mgr, call: Call)
    ensures Do(m, call).sock.bytesSent == ToInt32(m.sock.bytesSent + Moved(m, call).0)
    ensures Do(m, call).sock.bytesReceived == ToInt32(m.sock.bytesReceived + Moved(m, call).1)
  {
    hide Do, ScriptOf, AllProper, Play, Inner, Perform, BeginSock;
    if call.CallConnect? || call.Host? {
      OneActIs(m, call);
      if call.CallConnect? && StartsConnection(m) {
        BeginCounts(m, call.users);
      } else {
        ActCounts(m, ActOf(m, call));
      }
    } else {
      CallLeads(m, call);
      ScriptCounts(m, ScriptOf(m, call));
    }
  }

  lemma BeginCounts(m: Mgr, users: seq<bytes>)
    requires StartsConnection(m)
    ensures var r := Perform(m, Connects(users));
            r.sock.bytesSent == m.sock.bytesSent && r.sock.bytesReceived == m.sock.bytesReceived
  {
  }

  /** Over any run the counters stand at all the bytes ever moved, in 32 bits. */
  lemma {:induction false} CountersOverRuns(m: Mgr, calls: seq<Call>)
    ensures var r := DoAll(m, calls);
            && r.sock.bytesSent == ToInt32(m.sock.bytesSent + AllMoved(m, calls).0)
            && r.sock.bytesReceived == ToInt32(m.sock.bytesReceived + AllMoved(m, calls).1)
    decreases |calls|
  {
    hide Do, Moved, ToInt32;
    if calls != [] {
      var n := Do(m, calls[0]);
      DoCounts(m, calls[0]);
      CountersOverRuns(n, calls[1..]);
      AddedUp(m.sock.bytesSent, Moved(m, calls[0]).0, AllMoved(n, calls[1..]).0);
      AddedUp(m.sock.bytesReceived, Moved(m, calls[0]).1, AllMoved(n, calls[1..]).1);
    }
  }

  // ---- the report ----

  /** A difference of clock readings is the real one, in 32 bits. */
  lemma Elapsed(now: nat, since: nat)
    ensures ToInt32(NowMs(now) - NowMs(since)) == ToInt32(now - since)
  {
    var a, b := now / TWO_32, since / TWO_32;
    assert now == a * TWO_32 + now % TWO_32 && since == b * TWO_32 + since % TWO_32;
    assert now - since == (NowMs(now) - NowMs(since)) + (a - b) * TWO_32;
    Cycles(NowMs(now) - NowMs(since), a - b);
  }

  /** A report made online gives what the pump before it left: the bytes counted, and the time since login; and one made
      offline has -1 in every field. */
  lemma ReportIs(m: Mgr)
    ensures var c, p := GetStatus(m), Pump(m);
            c.value.Some? ==>
              if !IsOnline(m) then c.value == Some(Report(-1, -1, -1, -1))
              else
                && c.m.sock == p.sock
                && c.value.value.bytesReceived == p.sock.bytesReceived && c.value.value.bytesSent == p.sock.bytesSent
                && c.value.value.timeOnline == ToInt32(NowMs(p.clock) - p.session.connectedAt)
                && c.m.session == p.session && c.m.clock == p.clock
  {
    hide Pump, Start, Send, Abandon, AfterPoll, TimeAfter, NowMs, ToInt32;
  }

  /** So after a run from construction a report made online gives all the bytes received and all the bytes sent ever
      since, and the milliseconds since the login the responses dispatched tell of, each in 32 bits. */
  lemma ReportOverRuns(m: Mgr, calls: seq<Call>)
    requires Core(m) && Undecided(m) && m.sock.bytesSent == 0 && m.sock.bytesReceived == 0
    requires IsOnline(DoAll(m, calls)) && GetStatus(DoAll(m, calls)).value.Some?
    ensures var r := DoAll(m, calls);
            var report := GetStatus(r).value.value;
            && report.bytesSent == ToInt32(AllMoved(m, calls).0 + Moved(r, CallGetStatus).0)
            && report.bytesReceived == ToInt32(AllMoved(m, calls).1 + Moved(r, CallGetStatus).1)
            && report.timeOnline ==
               ToInt32(NowMs(r.clock) - Remembered(m, calls, IdentityOf(m.session)).connectedAt)
  {
    hide DoAll, GetStatus, Pump, ToInt32, NowMs, Moved, AllMoved, Core, Undecided, Remembered, IsOnline;
    var r := DoAll(m, calls);
    CountersOverRuns(m, calls);
    DoCounts(r, CallGetStatus);
    StatusIs(r);
    ReportIs(r);
    IdentityOverRuns(m, calls);
    PumpKeepsIdentity(r);
    AddedUp(0, AllMoved(m, calls).0, Moved(r, CallGetStatus).0);
    AddedUp(0, AllMoved(m, calls).1, Moved(r, CallGetStatus).1);
  }

  lemma StatusIs(m: Mgr)
    ensures Do(m, CallGetStatus) == GetStatus(m).m
  {
    hide GetStatus;
  }

  lemma PumpKeepsIdentity(m: Mgr)
    requires Core(m) && Undecided(m) && IsOnline(m)
    ensures Pump(m).session.connectedAt == m.session.connectedAt && Pump(m).clock == m.clock
  {
    hide Pump, Core, FirstLogin;
    PumpGoes(m);
  }
}
