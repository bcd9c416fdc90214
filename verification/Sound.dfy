/** What every call keeps: connection phases, the outbound stream, and the whose-wanted register. */
module Sound {
  import opened Bytes
  import opened Uins
  import opened Protocol
  import opened Sockets
  import opened Clock
  import opened Tickets
  import opened Watching
  import opened Client
  import opened Connection
  import opened Api
  import opened Acts

  /** Login has begun on the connection at hand. */
  predicate Talking(m: Mgr) {
    m.session.phase.PhaseAwait? || m.session.phase.PhaseOnline?
  }

  predicate PhaseOk(m: Mgr) {
    && (m.session.phase.PhaseOnline?
        ==> m.session.lastError == ErrorOk && m.session.rawError == 0 && m.session.server.uid != 0)
    && (m.session.phase.PhaseFailed? ==> m.session.lastError != ErrorOk)
    && (m.session.phase.PhaseIdle? || m.session.phase.PhaseFailed? ==> !Alive(m.sock))
    && (m.sock.state.Connecting? ==> m.session.phase.PhaseConnecting?)
  }

  predicate HandshakeFirst(ps: seq<Packet>) {
    && (ps != [] ==> ps[0].Handshake?)
    && forall i | 0 < i < |ps| :: !ps[i].Handshake?
  }

  /** What was written is whole packets, the handshake first and only once, and nothing before it. */
  predicate OutOk(m: Mgr) {
    && Concat(m.sock.writes) == BuildAll(m.sent)
    && HandshakeFirst(m.sent)
    && (Talking(m) ==> m.sent != [])
    && (m.session.phase.PhaseConnecting? ==> m.sent == [])
  }

  ghost predicate Core(m: Mgr) {
    PhaseOk(m) && SockOk(m.sock) && OutOk(m) && WatchOk(m.watch)
  }

  // ---- primitives ----

  /** Tickets, queries, disk, log, clock and mail are no part of it. */
  lemma CoreFrame(m: Mgr, r: Mgr)
    requires Core(m) && WatchOk(r.watch)
    requires r.sock == m.sock && r.sent == m.sent
    requires r.session.phase == m.session.phase && r.session.lastError == m.session.lastError
          && r.session.rawError == m.session.rawError && r.session.server == m.session.server
    ensures Core(r)
  {
  }

  /** A new kernel script changes nothing either. */
  lemma HostCore(m: Mgr, kernel: Kernel)
    requires Core(m)
    ensures Core(m.(sock := m.sock.(kernel := kernel)))
  {
  }

  lemma BuiltIsSome(p: Packet)
    ensures Build(p) != []
  {
    BuiltLength(p);
  }

  lemma SentSnoc(sent: seq<Packet>, writes: seq<bytes>, p: Packet)
    requires Concat(writes) == BuildAll(sent)
    ensures Concat(writes + [Build(p)]) == BuildAll(sent + [p])
  {
    hide Build;
    ConcatSnoc(writes, Build(p));
    BuildAllSnoc(sent, p);
  }

  /** Writing a packet once login has begun, or on a connection that is gone. */
  lemma SendCore(m: Mgr, p: Packet)
    requires Core(m) && !p.Handshake? && (Talking(m) || !m.sock.state.Connected?)
    ensures Core(Send(m, p)) && Send(m, p).session == m.session && Send(m, p).watch == m.watch
  {
    hide Build, WriteSock, Concat, BuildAll, SockOk, WatchOk;
    BuiltIsSome(p);
    WriteKeepsQueues(m.sock, Build(p));
    SentSnoc(m.sent, m.sock.writes, p);
  }

  lemma LostCore(m: Mgr)
    requires Core(m)
    ensures Core(ConnectionLost(m)) && Core(Disconnect(m))
  {
    hide Concat, BuildAll, SockOk, WatchOk, AllOffline;
    CloseKeepsQueues(m.sock);
    AllOfflineKeeps(m.watch);
  }

  lemma GiveUpCore(m: Mgr, rawError: int32)
    requires Core(m) && !Alive(m.sock)
    ensures Core(GiveUp(m, rawError))
  {
  }

  // ---- processing input ----

  lemma {:induction false} RegistrationsCore(m: Mgr, users: seq<bytes>)
    requires Core(m) && Talking(m)
    ensures Core(SendRegistrations(m, users)) && SendRegistrations(m, users).session == m.session
    decreases |users|
  {
    hide Core, Send, Parse, Register;
    if users != [] {
      match Parse(users[0])
      case None => RegistrationsCore(m, users[1..]);
      case Some(uin) =>
        var r := Watched(m, Register(m.watch, users[0]));
        RegisterCore(m, users[0]);
        SendCore(r, WwrModify(true, m.session.server, uin));
        var s := Send(r, WwrModify(true, m.session.server, uin));
        if s.sock.state.Connected? {
          RegistrationsCore(s, users[1..]);
        }
    }
  }

  lemma RegisterCore(m: Mgr, user: bytes)
    requires Core(m)
    ensures Core(Watched(m, Register(m.watch, user)))
  {
    hide WatchOk, Register;
    RegisterKeeps(m.watch, user);
    CoreFrame(m, Watched(m, Register(m.watch, user)));
  }

  lemma HandshakeCore(m: Mgr, h: Header, raw: bytes)
    requires Core(m) && |raw| > 1
    ensures Core(HandleHandshake(m, h, raw))
    ensures HandleHandshake(m, h, raw).session.phase.PhaseConnecting? ==> m.session.phase.PhaseConnecting?
    ensures HandleHandshake(m, h, raw).session.phase.PhaseOnline? ==>
              m.session.phase.PhaseOnline? || (m.session.phase.PhaseAwait? && Accepts(h, raw))
  {
    if m.session.phase.PhaseAwait? {
      if Accepts(h, raw) {
        LoggedInCore(m, h, raw);
      } else {
        RefuseCore(m, raw[1]);
      }
    }
  }

  lemma RefuseCore(m: Mgr, code: byte)
    requires Core(m)
    ensures Core(Refuse(m, code))
  {
    hide Concat, BuildAll, SockOk, WatchOk;
    CloseKeepsQueues(m.sock);
  }

  lemma LoggedInCore(m: Mgr, h: Header, raw: bytes)
    requires Core(m) && m.session.phase.PhaseAwait? && |raw| > 1 && Accepts(h, raw)
    ensures Core(LoggedIn(m, h, raw)) && LoggedIn(m, h, raw).session.phase.PhaseOnline?
  {
    hide SendRegistrations, ServerList.Announced, WatchOk, SockOk, Concat, BuildAll;
    var s := Entered(m, h, raw);
    RegistrationsCore(s, m.watch.usersForWWR);
    var r := SendRegistrations(s, m.watch.usersForWWR);
    NoUsersLeft(r.watch);
    CoreFrame(r, LoggedIn(m, h, raw));
  }

  lemma NoUsersLeft(w: Watch)
    requires WatchOk(w)
    ensures WatchOk(w.(usersForWWR := []))
  {
    var n := w.(usersForWWR := []);
    forall u | Settled(n, u) ensures Synced(n, u) <==> u !in n.missed {
      assert Settled(w, u);
    }
  }

  lemma PacketCore(m: Mgr, h: Header, body: bytes)
    requires Core(m) && !m.session.phase.PhaseConnecting?
    ensures Core(HandlePacket(m, h, body))
    ensures HandlePacket(m, h, body).session.phase == if Drops(m, h) then PhaseIdle else m.session.phase
  {
    hide Core, Send, ParseMessage, ParseUser, Update, ConnectionLost, LowByte;
    AcceptCore(m, h);
    UpdateCore(m, Uin(h.c, h.d), h.e != 0, []);
    if ParseUser(body).Some? {
      var u := ParseUser(body).value;
      UpdateCore(m, u.uin, LowByte(h.kind) == USER_ONLINE, u.nickName);
    }
    if ParseMessage(body).Some? {
      DeliverCore(m, ParseMessage(body).value);
    }
  }

  lemma DeliverCore(m: Mgr, mesg: Mesg)
    requires Core(m)
    ensures Core(Deliver(m, mesg)) && Deliver(m, mesg).session == m.session
  {
    hide Core, WatchOk, Spool.SpoolPray;
    assert WatchOk(m.watch) by { CoreWatch(m); }
    CoreFrame(m, Deliver(m, mesg));
  }

  lemma CoreWatch(m: Mgr)
    requires Core(m)
    ensures WatchOk(m.watch)
  {
  }

  lemma UpdateCore(m: Mgr, uin: Uin, online: bool, nickName: bytes)
    requires Core(m)
    ensures Core(m.(watch := Update(m.watch, uin, online, nickName)))
  {
    hide WatchOk, Update;
    UpdateKeeps(m.watch, uin, online, nickName);
    CoreFrame(m, m.(watch := Update(m.watch, uin, online, nickName)));
  }

  lemma AcceptCore(m: Mgr, h: Header)
    requires Core(m) && !m.session.phase.PhaseConnecting?
    ensures var s := Send(m.(vsn := NextVSN(m.vsn)), Accepting(m, h));
            Core(s) && s.session == m.session && Core(ConnectionLost(s)) && ConnectionLost(s).session.phase.PhaseIdle?
  {
    hide SockOk, OutOk, WatchOk, Send;
    var n := m.(vsn := NextVSN(m.vsn));
    CoreFrame(m, n) by {
      assert WatchOk(n.watch);
    }
    SendCore(n, Accepting(m, h));
    LostCore(Send(n, Accepting(m, h)));
  }

  lemma ConsumedCore(m: Mgr, reply: bool, size: nat)
    requires Core(m) && size <= |m.sock.input|
    ensures Core(Client.Consumed(m, reply, size))
  {
    hide WatchOk, Concat, BuildAll;
    ConsumeKeepsQueues(m.sock, size);
  }

  /** A turn of the loop enters the online phase only by an accepted handshake awaited by the client. */
  predicate AcceptedNow(m: Mgr) {
    var f := Frame(m.sock.input, m.tickets.table);
    && m.session.phase.PhaseAwait?
    && f.Whole? && !f.reply && LowByte(ReadHeader(m.sock.input).kind) == HANDSHAKE_RESPONSE
    && Accepts(ReadHeader(m.sock.input), m.sock.input[..f.size])
  }

  lemma StepCore(m: Mgr)
    requires Core(m) && !m.session.phase.PhaseConnecting?
    ensures Core(AfterStep(m)) && !AfterStep(m).session.phase.PhaseConnecting?
    ensures AfterStep(m).session.phase.PhaseOnline? && !m.session.phase.PhaseOnline? ==> AcceptedNow(m)
  {
    hide Core, Frame, HandleHandshake, HandlePacket, Answered, Drops, ReadHeader, LowByte, Accepts, Client.Consumed,
         ConnectionLost;
    LostCore(m);
    LostPhase(m);
    match Frame(m.sock.input, m.tickets.table)
    case NeedMore =>
    case Broken =>
    case Whole(size, reply) =>
      var h := ReadHeader(m.sock.input);
      var body := m.sock.input[HEADER_SIZE..size];
      if reply {
        var a := m.(tickets := Answered(m.tickets, h, body));
        TicketsCore(m, Answered(m.tickets, h, body));
        ConsumedCore(a, true, size);
        ConsumedSession(a, true, size);
      } else if LowByte(h.kind) == HANDSHAKE_RESPONSE {
        HandshakeCore(m, h, m.sock.input[..size]);
        ConsumedCore(HandleHandshake(m, h, m.sock.input[..size]), false, size);
        ConsumedSession(HandleHandshake(m, h, m.sock.input[..size]), false, size);
      } else {
        PacketCore(m, h, body);
        ConsumedCore(HandlePacket(m, h, body), false, size);
        ConsumedSession(HandlePacket(m, h, body), false, size);
      }
  }

  lemma ConsumedSession(m: Mgr, reply: bool, size: nat)
    requires size <= |m.sock.input|
    ensures Client.Consumed(m, reply, size).session == m.session
  {
  }

  lemma LostPhase(m: Mgr)
    ensures ConnectionLost(m).session.phase.PhaseIdle?
  {
  }

  lemma TicketsCore(m: Mgr, t: Tickets)
    requires Core(m)
    ensures Core(m.(tickets := t))
  {
    hide WatchOk;
    CoreWatch(m);
    CoreFrame(m, m.(tickets := t));
  }

  /** ProcessInput keeps it all, and enters the online phase only by an accepted handshake. */
  lemma {:induction false} ProcessCore(m: Mgr)
    requires Core(m) && !m.session.phase.PhaseConnecting?
    ensures Core(Process(m)) && !Process(m).session.phase.PhaseConnecting?
    ensures Process(m).session.phase.PhaseOnline? && !m.session.phase.PhaseOnline? ==> m.session.phase.PhaseAwait?
    decreases |m.sock.input|
  {
    hide Core, Step, Frame, Accepts, ReadHeader, LowByte;
    StepCore(m);
    match Step(m)
    case Waiting =>
    case Dropped(n) =>
    case Continue(n) =>
      StepPhases(m);
      ProcessCore(n);
  }

  /** No packet brings the client back to waiting for a handshake. */
  lemma StepPhases(m: Mgr)
    ensures AfterStep(m).session.phase.PhaseAwait? ==> m.session.phase.PhaseAwait?
  {
    hide Frame, Answered, ReadHeader, LowByte, Accepts, Send, ParseMessage, ParseUser, SendRegistrations, Deliver;
    match Frame(m.sock.input, m.tickets.table)
    case NeedMore =>
    case Broken =>
    case Whole(size, reply) =>
      var h := ReadHeader(m.sock.input);
      if !reply {
        HandshakePhase(m, h, m.sock.input[..size]);
        PacketPhase(m, h, m.sock.input[HEADER_SIZE..size]);
      }
  }

  lemma {:induction false} RegistrationsSession(m: Mgr, users: seq<bytes>)
    ensures SendRegistrations(m, users).session == m.session
    decreases |users|
  {
    hide Parse, WriteSock, Build, Register;
    if users != [] {
      RegistrationsSession(m, users[1..]);
      if Parse(users[0]).Some? {
        var uin := Parse(users[0]).value;
        RegistrationsSession(Send(m.(watch := Register(m.watch, users[0])), WwrModify(true, m.session.server, uin)),
                             users[1..]);
      }
    }
  }

  lemma HandshakePhase(m: Mgr, h: Header, raw: bytes)
    requires |raw| > 1
    ensures HandleHandshake(m, h, raw).session.phase.PhaseAwait? ==> m.session.phase.PhaseAwait?
  {
  }

  lemma PacketPhase(m: Mgr, h: Header, body: bytes)
    ensures HandlePacket(m, h, body).session.phase.PhaseAwait? ==> m.session.phase.PhaseAwait?
  {
    hide ParseMessage, ParseUser, LowByte, Spool.SpoolPray, WriteSock, Build, Update;
  }

  // ---- connecting and pumping ----

  lemma PumpSockCore(m: Mgr)
    requires Core(m) && Talking(m)
    ensures Core(m.(sock := PumpSock(m.sock)))
    ensures Alive(PumpSock(m.sock)) ==> PumpSock(m.sock).state.Connected?
  {
    hide PumpSock, WatchOk, Concat, BuildAll, SockOk;
    PumpKeepsQueues(m.sock);
  }

  lemma StartConnectingCore(m: Mgr)
    requires Core(m)
    ensures Core(StartConnecting(m))
  {
    hide WatchOk, BeginSock;
    BeginKeepsQueues(m.sock);
  }

  lemma LoginStepCore(m: Mgr)
    requires Core(m)
    ensures Core(LoginStep(m))
    ensures LoginStep(m).session.phase.PhaseOnline? ==> m.session.phase.PhaseOnline?
  {
    hide WatchOk, Concat, Build, SockOk, PollSock, WriteSock, NextTicket, BuildAll;
    if m.session.phase.PhaseConnecting? {
      PollKeepsQueues(m.sock);
      PollStates(m.sock);
      var c := m.(sock := PollSock(m.sock));
      if c.sock.state.Connected? {
        var p := Login(m);
        BuiltIsSome(p);
        WriteKeepsQueues(c.sock, Build(p));
        SentSnoc([], c.sock.writes, p);
      }
    }
  }

  lemma PollStates(s: Sock)
    ensures PollSock(s).state == s.state || s.state.Connecting?
    ensures !PollSock(s).state.Closed? || s.state.Closed?
  {
  }

  lemma AwaitStepCore(m: Mgr)
    requires Core(m)
    ensures Core(AwaitStep(m))
  {
    hide Core, PumpSock, Process;
    if m.session.phase.PhaseAwait? {
      var n := m.(sock := PumpSock(m.sock));
      PumpSockCore(m);
      ProcessCore(n);
      var r := Process(n);
      ProcessKeepsDead(n);
      if r.session.phase.PhaseAwait? && !Alive(n.sock) {
        GiveUpCore(r, Negated(r.sock.lastError));
      }
    }
  }

  /** Handling input never revives a socket. */
  lemma {:induction false} ProcessKeepsDead(m: Mgr)
    requires Core(m) && !m.session.phase.PhaseConnecting?
    ensures !Alive(m.sock) ==> !Alive(Process(m).sock)
    decreases |m.sock.input|
  {
    hide Core, Step;
    StepCore(m);
    StepKeepsDead(m);
    match Step(m)
    case Waiting =>
    case Dropped(n) =>
    case Continue(n) => ProcessKeepsDead(n);
  }

  lemma SendKeepsDead(m: Mgr, p: Packet)
    requires !Alive(m.sock)
    ensures Send(m, p).sock == m.sock
  {
  }

  lemma StepKeepsDead(m: Mgr)
    ensures !Alive(m.sock) ==> !Alive(AfterStep(m).sock)
  {
    hide Frame, Answered, ReadHeader, LowByte, Accepts, Send, ParseMessage, ParseUser, SendRegistrations,
         Spool.SpoolPray, Update;
    if !Alive(m.sock) {
      match Frame(m.sock.input, m.tickets.table)
      case NeedMore =>
      case Broken =>
      case Whole(size, reply) =>
        var h := ReadHeader(m.sock.input);
        if !reply {
          HandshakeKeepsDead(m, h, m.sock.input[..size]);
          SendKeepsDead(m.(vsn := NextVSN(m.vsn)), Accepting(m, h));
        }
    }
  }

  lemma {:induction false} RegistrationsKeepDead(m: Mgr, users: seq<bytes>)
    requires !Alive(m.sock)
    ensures !Alive(SendRegistrations(m, users).sock)
    decreases |users|
  {
    hide Parse, Register, Send;
    if users != [] {
      RegistrationsKeepDead(m, users[1..]);
      if Parse(users[0]).Some? {
        SendKeepsDead(m.(watch := Register(m.watch, users[0])),
                      WwrModify(true, m.session.server, Parse(users[0]).value));
      }
    }
  }

  lemma HandshakeKeepsDead(m: Mgr, h: Header, raw: bytes)
    requires |raw| > 1 && !Alive(m.sock)
    ensures !Alive(HandleHandshake(m, h, raw).sock)
  {
    hide SendRegistrations, ServerList.Announced, MapHandshakeError;
    RegistrationsKeepDead(Entered(m, h, raw), m.watch.usersForWWR);
  }

  lemma DeadlineStepCore(m: Mgr)
    requires Core(m)
    ensures Core(DeadlineStep(m))
  {
    hide WatchOk, Concat, BuildAll, SockOk, TimeAfter;
    CloseKeepsQueues(m.sock);
  }

  lemma PumpCore(m: Mgr)
    requires Core(m)
    ensures Core(Pump(m))
  {
    hide Core, Process, PumpSock, LoginStep, AwaitStep, DeadlineStep, ConnectionLost;
    if UnderWay(m) {
      LoginStepCore(m);
      AwaitStepCore(LoginStep(m));
      DeadlineStepCore(AwaitStep(LoginStep(m)));
    } else if m.session.phase.PhaseOnline? {
      var n := m.(sock := PumpSock(m.sock));
      PumpSockCore(m);
      ProcessCore(n);
      LostCore(Process(n));
    }
  }

  lemma ConnectCore(m: Mgr, users: seq<bytes>)
    requires Core(m)
    ensures Core(ConnectInBackground(m, users))
  {
    hide WatchOk, PumpConnectPhase, StartConnecting, Pump;
    var n := m.(watch := m.watch.(usersForWWR := users));
    UsersCore(m, users);
    StartConnectingCore(n);
    if UnderWay(m) {
      PumpCore(m);
      assert Pump(m) == PumpConnectPhase(m) by { PumpIs(m); }
    }
  }

  lemma PumpIs(m: Mgr)
    requires UnderWay(m)
    ensures Pump(m) == PumpConnectPhase(m)
  {
    hide PumpConnectPhase;
  }

  lemma UsersCore(m: Mgr, users: seq<bytes>)
    requires Core(m)
    ensures Core(m.(watch := m.watch.(usersForWWR := users)))
  {
    var n := m.watch.(usersForWWR := users);
    forall u | Settled(n, u) ensures Synced(n, u) <==> u !in n.missed {
      assert Settled(m.watch, u);
    }
  }

  // ---- the acts ----

  lemma WatchedCore(m: Mgr, w: Watch)
    requires Core(m) && WatchOk(w)
    ensures Core(Watched(m, w))
  {
    hide WatchOk;
    CoreFrame(m, Watched(m, w));
  }

  lemma AwaitsKeeps(w: Watch, user: bytes, deadline: uint32)
    requires WatchOk(w) && user in w.members && user in w.adding
    ensures WatchOk(w.(pendingAdds := w.pendingAdds[user := deadline]))
  {
    var n := w.(pendingAdds := w.pendingAdds[user := deadline]);
    forall u | Settled(n, u) ensures Synced(n, u) <==> u !in n.missed {
      assert Settled(w, u);
    }
  }

  lemma GivesUpKeeps(w: Watch, user: bytes)
    requires WatchOk(w) && user in w.adding
    ensures WatchOk(w.(pendingAdds := w.pendingAdds - {user}))
  {
    var n := w.(pendingAdds := w.pendingAdds - {user});
    forall u | Settled(n, u) ensures Synced(n, u) <==> u !in n.missed {
      assert Settled(w, u);
    }
  }

  lemma RememberCore(m: Mgr, user: bytes, nickName: bytes)
    requires Core(m)
    ensures Core(Remember(m, user, nickName))
  {
    var n := Remember(m, user, nickName).watch;
    forall u | Settled(n, u) ensures Synced(n, u) <==> u !in n.missed {
      assert Settled(m.watch, u);
    }
    CoreFrame(m, Remember(m, user, nickName));
  }

  lemma UnwatchCore(m: Mgr, user: bytes)
    requires Core(m)
    ensures Core(RemoveFromWWR(m, user))
  {
    hide Core, WatchOk, Remove, Parse, Send;
    var r := Watched(m, Remove(m.watch, user));
    CoreWatch(m);
    RemoveKeeps(m.watch, user);
    WatchedCore(m, Remove(m.watch, user));
    if Parse(user).Some? && IsOnline(m) {
      SendCore(r, WwrModify(false, m.session.server, Parse(user).value));
    }
  }

  /** What an act makes of the register. */
  lemma WatchActCore(m: Mgr, act: Act)
    requires Core(m) && Proper(m, act)
    requires act.BeginsAdd? || act.FinishesAdd? || act.AwaitsAdd? || act.GivesUpAdd? || act.TakesChange?
    ensures Core(Perform(m, act))
  {
    hide Core, WatchOk, BeginAdd, FinishAdd, Remove, AfterNext, NowMs, Deadline;
    CoreWatch(m);
    var w := m.watch;
    match act
    case BeginsAdd(user) => BeginAddKeeps(w, user); WatchedCore(m, BeginAdd(w, user));
    case FinishesAdd(user) => FinishAddKeeps(w, user); WatchedCore(m, FinishAdd(w, user));
    case AwaitsAdd(user) =>
      var deadline := Deadline(NowMs(m.clock), WWR_ADD_TIMEOUT);
      AwaitsKeeps(w, user, deadline);
      WatchedCore(m, w.(pendingAdds := w.pendingAdds[user := deadline]));
    case GivesUpAdd(user) => GivesUpKeeps(w, user); WatchedCore(m, w.(pendingAdds := w.pendingAdds - {user}));
    case TakesChange =>
      if w.changed != [] {
        AfterNextKeeps(w);
        WatchedCore(m, AfterNext(w));
      }
  }

  /** The clock, tickets, queries, mail and disk are free, and so are the name and the password. */
  predicate SameCore(m: Mgr, r: Mgr) {
    r.sock == m.sock && r.sent == m.sent && r.watch == m.watch
    && r.session == m.session.(nickname := r.session.nickname, password := r.session.password)
  }

  lemma SameCoreKeeps(m: Mgr, r: Mgr)
    requires Core(m) && SameCore(m, r)
    ensures Core(r)
  {
    hide WatchOk;
    CoreWatch(m);
    CoreFrame(m, r);
  }

  lemma FreeActCore(m: Mgr, act: Act)
    requires Core(m)
    requires act.Waits? || act.Polls? || act.Abandons? || act.Records? || act.TakesMail?
             || act.SetsFiles?
             || act.SetsOutbox? || act.SetsDirectories? || act.SetsUser? || act.Changes?
    ensures Core(Perform(m, act))
  {
    hide Core, Start, Abandon, AfterPoll;
    if act.Changes? {
      HostCore(m, act.kernel);
      SameCoreKeeps(m.(sock := m.sock.(kernel := act.kernel)), Perform(m, act));
    } else {
      SameCoreKeeps(m, Perform(m, act));
    }
  }

  lemma ActCore(m: Mgr, act: Act)
    requires Core(m) && Proper(m, act)
    ensures Core(Perform(m, act))
  {
    hide Core, Pump, ConnectInBackground, Send, ConnectionLost, Disconnect, Remember;
    match act
    case Pumps => PumpCore(m);
    case Connects(users) => ConnectCore(m, users);
    case Disconnects => LostCore(m);
    case Loses => LostCore(m);
    case Writes(packet) => SendCore(m, packet);
    case Questions(kind, fixedExtra, subject, packet) =>
      var a := Asked(m, kind, fixedExtra, subject);
      TicketsCore(m, a.tickets);
      SendCore(a, packet);
    case Remembers(user, nickName) => RememberCore(m, user, nickName);
    case BeginsAdd(_) => WatchActCore(m, act);
    case FinishesAdd(_) => WatchActCore(m, act);
    case AwaitsAdd(_) => WatchActCore(m, act);
    case GivesUpAdd(_) => WatchActCore(m, act);
    case Unwatches(user) => UnwatchCore(m, user);
    case TakesChange => WatchActCore(m, act);
    case _ => FreeActCore(m, act);
  }

  lemma {:induction false} ScriptCore(m: Mgr, s: Script)
    requires Core(m) && AllProper(m, s)
    ensures Core(Play(m, s))
    decreases s
  {
    hide Core, Perform, Proper;
    if s.Then? {
      ActCore(m, s.act);
      ScriptCore(Perform(m, s.act), s.rest);
    }
  }

  /** Every call, and every change of the host's, keeps phases, outbound stream and register sound. */
  lemma DoCore(m: Mgr, call: Call)
    requires Core(m)
    ensures Core(Do(m, call))
  {
    hide Core, Do, ScriptOf, AllProper, Play;
    CallLeads(m, call);
    ScriptCore(m, ScriptOf(m, call));
  }

  // ---- whole runs ----

  /** Over any run of calls, whatever the host and the peer do. */
  lemma {:induction false} RunCore(m: Mgr, calls: seq<Call>)
    requires Core(m)
    ensures Core(DoAll(m, calls))
    decreases |calls|
  {
    hide Core, Do;
    if calls != [] {
      DoCore(m, calls[0]);
      RunCore(Do(m, calls[0]), calls[1..]);
    }
  }
}
