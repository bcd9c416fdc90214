/** What the server is told: every question once and as it was asked, every packet from and to the right ids, and
    nobody followed whom the game has given up. */
module Requests {
  import opened Bytes
  import opened Uins
  import opened Protocol
  import opened Sockets
  import opened Clock
  import opened Tickets
  import opened Watching
  import opened Client
  import opened Connection
  import opened Api
  import opened Acts
  import opened Sound
  import opened LockStepRun
  import opened Reports
  import opened Logins
  import Spool
  import Answers
  import Guarantees

  // ---- reading what was sent ----

  predicate IsQuestion(p: Packet) {
    p.GetClientInfo? || p.GetConnectionDetail? || p.AskStatus? || p.AskRandomUser? || p.SendHistory?
  }

  function QuestionsIn(sent: seq<Packet>): (qs: seq<Packet>)
    ensures forall i | 0 <= i < |qs| :: IsQuestion(qs[i])
  {
    if sent == [] then []
    else QuestionsIn(sent[..|sent| - 1]) + (if IsQuestion(sent[|sent| - 1]) then [sent[|sent| - 1]] else [])
  }

  /** A ticket's place in the order tickets are taken in. */
  function Place(p: Packet): nat
    requires IsQuestion(p)
  {
    Unsigned(p.ticket)
  }

  /** The packet asks exactly what is on record under its ticket, on this connection. */
  predicate Says(s: Session, t: Tickets, p: Packet)
    requires IsQuestion(p)
  {
    && p.ticket in t.asks && t.asks[p.ticket].connection == t.connection && p.server == s.server
    && var ask := t.asks[p.ticket];
       match p
       case GetClientInfo(_, target, _) => ask.kind == ClientInfo && Parse(ask.subject) == Some(target)
       case GetConnectionDetail(_, target, _) => ask.kind == ConnectionDetail && Parse(ask.subject) == Some(target)
       case AskStatus(_, _) => ask.kind == Status
       case AskRandomUser(_, user, _) => ask.kind == RandomUser && user == s.user
       case SendHistory(_, user, _, blob) => ask.kind == History && user == s.user && blob == ask.subject
  }

  /** It goes to the server that logged the client in, and from the client's own id. */
  predicate Addressed(s: Session, p: Packet) {
    && (p.WwrModify? || p.Message? ==> p.server == s.server)
    && (p.Message? ==> p.user == s.user)
  }

  /** Whom the server was asked to follow, and not asked to forget since. */
  function Followed(sent: seq<Packet>): set<Uin> {
    if sent == [] then {}
    else
      var before, p := Followed(sent[..|sent| - 1]), sent[|sent| - 1];
      if !p.WwrModify? then before else if p.add then before + {p.target} else before - {p.target}
  }

  predicate Opening(p: Packet) {
    p.Handshake? || p.ConnectAccept?
  }

  // ---- what holds of it ----

  /** The questions sent on this connection are those on record for it: each as asked, in the order of their tickets,
      none twice and none left out. */
  ghost predicate AskedOk(m: Mgr) {
    var qs := QuestionsIn(m.sent);
    && (forall i | 0 <= i < |qs| :: Says(m.session, m.tickets, qs[i]) && Place(qs[i]) <= m.tickets.taken)
    && (forall i, j | 0 <= i < j < |qs| :: Place(qs[i]) < Place(qs[j]))
    && (forall k | Current(m.tickets, k) :: exists i :: 0 <= i < |qs| && qs[i].ticket == k)
  }

  ghost predicate AddressedOk(m: Mgr) {
    && (forall i | 0 <= i < |m.sent| :: Addressed(m.session, m.sent[i]))
    && (UnderWay(m) ==> forall i | 0 <= i < |m.sent| :: Opening(m.sent[i]))
  }

  /** Someone the game watches goes by this id. */
  predicate Wanted(w: Watch, uin: Uin) {
    exists u :: u in w.members && Parse(u) == Some(uin)
  }

  /** Online, the server follows for the client only whom the game watches. */
  ghost predicate FollowedOk(m: Mgr) {
    IsOnline(m) ==> forall uin | uin in Followed(m.sent) :: Wanted(m.watch, uin)
  }

  ghost predicate TalkOk(m: Mgr) {
    AskedOk(m) && AddressedOk(m) && FollowedOk(m)
  }

  // ---- primitives ----

  lemma SentOne(sent: seq<Packet>, p: Packet)
    ensures QuestionsIn(sent + [p]) == QuestionsIn(sent) + (if IsQuestion(p) then [p] else [])
    ensures Followed(sent + [p]) ==
            if !p.WwrModify? then Followed(sent)
            else if p.add then Followed(sent) + {p.target} else Followed(sent) - {p.target}
  {
    assert (sent + [p])[..|sent|] == sent;
  }

  lemma {:induction false} OnlyOpenings(sent: seq<Packet>)
    requires forall i | 0 <= i < |sent| :: Opening(sent[i])
    ensures QuestionsIn(sent) == [] && Followed(sent) == {}
    decreases |sent|
  {
    if sent != [] {
      OnlyOpenings(sent[..|sent| - 1]);
      assert Opening(sent[|sent| - 1]);
    }
  }

  /** Of all this, only the watched users may have changed. */
  lemma SameTalk(m: Mgr, r: Mgr)
    requires TalkOk(m) && r.sent == m.sent
    requires r.session.server == m.session.server && r.session.user == m.session.user
    requires r.tickets.asks == m.tickets.asks && r.tickets.connection == m.tickets.connection
    requires m.tickets.taken <= r.tickets.taken
    requires m.watch.members <= r.watch.members
    requires (UnderWay(r) ==> UnderWay(m)) && (IsOnline(r) ==> IsOnline(m))
    ensures TalkOk(r)
  {
    hide Parse, QuestionsIn, Followed, Place;
    forall uin | Wanted(m.watch, uin) ensures Wanted(r.watch, uin) {
      var u :| u in m.watch.members && Parse(u) == Some(uin);
      assert u in r.watch.members;
    }
    SameAsked(m, r);
    assert AddressedOk(r) && FollowedOk(r);
  }

  lemma SameAsked(m: Mgr, r: Mgr)
    requires AskedOk(m) && r.sent == m.sent
    requires r.session.server == m.session.server && r.session.user == m.session.user
    requires r.tickets.asks == m.tickets.asks && r.tickets.connection == m.tickets.connection
    requires m.tickets.taken <= r.tickets.taken
    ensures AskedOk(r)
  {
    hide Parse, QuestionsIn, Place;
    var qs := QuestionsIn(m.sent);
    forall i | 0 <= i < |qs| ensures Says(r.session, r.tickets, qs[i]) {
      assert Says(m.session, m.tickets, qs[i]);
    }
    forall k | Current(r.tickets, k) ensures exists i :: 0 <= i < |qs| && qs[i].ticket == k {
      assert Current(m.tickets, k);
    }
  }

  /** Writing a packet that is no question. */
  lemma SendTalks(m: Mgr, p: Packet)
    requires TalkOk(m) && !IsQuestion(p) && Addressed(m.session, p) && (UnderWay(m) ==> Opening(p))
    requires p.WwrModify? && p.add ==> Wanted(m.watch, p.target)
    ensures TalkOk(Send(m, p))
  {
    hide Build, WriteSock, Wanted, QuestionsIn, Followed, Parse, Place;
    var r := Send(m, p);
    SentOne(m.sent, p);
    SendStates(m, p);
    if r.sent == m.sent {
      SameTalk(m, r);
    } else {
      assert QuestionsIn(r.sent) == QuestionsIn(m.sent) + [] == QuestionsIn(m.sent);
      assert AskedOk(r) by {
        assert forall k | Current(r.tickets, k) :: Current(m.tickets, k);
      }
      assert AddressedOk(r);
      assert FollowedOk(r);
    }
  }

  lemma SendStates(m: Mgr, p: Packet)
    ensures Send(m, p).sock.state == m.sock.state || Send(m, p).sock.state.Closed?
  {
    hide Build;
    if m.sock.state.Connected? && Build(p) != [] {
      FlushStates(m.sock.(output := m.sock.output + Build(p), writes := m.sock.writes + [Build(p)]));
    }
  }

  lemma {:induction false} FlushStates(s: Sock)
    ensures FlushSock(s).state == s.state || FlushSock(s).state.Closed?
    decreases |s.output|
  {
    hide ToInt32;
    if s.state.Connected? && s.output != [] && Head(s.kernel.sends, SendBlocked).Took? {
      var n := Min(Head(s.kernel.sends, SendBlocked).count, |s.output|);
      FlushStates(s.(kernel := s.kernel.(sends := Pop(s.kernel.sends)), bytesSent := ToInt32(s.bytesSent + n),
                     wire := s.wire + s.output[..n], output := s.output[n..]));
    }
  }

  /** Putting a question. */
  lemma QuestionTalks(m: Mgr, kind: Kind, fixedExtra: nat, subject: bytes, p: Packet)
    requires TalkOk(m) && TicketsOk(m.tickets) && m.tickets.taken < CYCLE && IsOnline(m)
    requires Puts(Asked(m, kind, fixedExtra, subject), kind, fixedExtra, subject, p)
    ensures TalkOk(Send(Asked(m, kind, fixedExtra, subject), p))
  {
    hide Build, WriteSock, Wanted, QuestionsIn, Followed, Parse, Place;
    var a := Asked(m, kind, fixedExtra, subject);
    var r, n := Send(a, p), a.tickets.next;
    SentOne(m.sent, p);
    SendStates(a, p);
    FreshTicket(m.tickets);
    NewPlace(m.tickets, p, kind, fixedExtra, subject);
    assert AskedOk(r) by {
      QuestionAsked(m, a, p);
    }
  }

  lemma NewPlace(t: Tickets, p: Packet, kind: Kind, fixedExtra: nat, subject: bytes)
    requires TicketsOk(t) && t.taken < CYCLE && IsQuestion(p) && p.ticket == Start(t, kind, fixedExtra, subject).next
    ensures Place(p) == t.taken + 1 && p.ticket !in t.asks
    ensures Start(t, kind, fixedExtra, subject).taken == t.taken + 1
    ensures Start(t, kind, fixedExtra, subject).asks == t.asks[p.ticket := Ask(kind, fixedExtra, subject, t.connection)]
    ensures Start(t, kind, fixedExtra, subject).connection == t.connection
  {
    hide TicketAt, NextTicket;
    NextTicketIs(t);
    NextTicketKeeps(t);
    TakenTickets(t.taken + 1);
  }

  lemma QuestionAsked(m: Mgr, a: Mgr, p: Packet)
    requires AskedOk(m) && IsQuestion(p) && a == m.(tickets := a.tickets) && m.sock.state.Connected?
    requires p.ticket !in m.tickets.asks && Place(p) == m.tickets.taken + 1 == a.tickets.taken
    requires a.tickets.connection == m.tickets.connection && p.ticket in a.tickets.asks
    requires a.tickets.asks == m.tickets.asks[p.ticket := a.tickets.asks[p.ticket]]
    requires Says(a.session, a.tickets, p)
    ensures AskedOk(Send(a, p))
  {
    hide Build, WriteSock, QuestionsIn, Parse, Place;
    SentOne(m.sent, p);
    var r, qs := Send(a, p), QuestionsIn(m.sent);
    assert QuestionsIn(r.sent) == qs + [p];
    forall k | Current(r.tickets, k) ensures exists i :: 0 <= i < |qs + [p]| && (qs + [p])[i].ticket == k {
      if k == p.ticket {
        assert (qs + [p])[|qs|] == p;
      } else {
        assert Current(m.tickets, k);
        var i :| 0 <= i < |qs| && qs[i].ticket == k;
        assert (qs + [p])[i].ticket == k;
      }
    }
  }

  // ---- handling packets ----

  lemma {:induction false} RegistrationsTalk(m: Mgr, users: seq<bytes>)
    requires TalkOk(m) && m.session.phase.PhaseOnline?
    ensures TalkOk(SendRegistrations(m, users))
    decreases |users|
  {
    hide TalkOk, Parse, WriteSock, Build, Synced;
    if users != [] && Parse(users[0]).None? {
      RegistrationsTalk(m, users[1..]);
    } else if users != [] {
      var r, p := m.(watch := Register(m.watch, users[0])), WwrModify(true, m.session.server, Parse(users[0]).value);
      SameTalk(m, r);
      assert users[0] in r.watch.members && Wanted(r.watch, p.target);
      SendTalks(r, p);
      RegistrationsTalk(Send(r, p), users[1..]);
    }
  }

  /** Going online, the client has only opened the connection and answered virtual connects on it. */
  lemma EnteredTalks(m: Mgr, h: Header, raw: bytes)
    requires TalkOk(m) && UnderWay(m)
    ensures TalkOk(Entered(m, h, raw))
  {
    hide ServerList.Announced, Parse, NowMs;
    OnlyOpenings(m.sent);
    assert forall k :: !Current(m.tickets, k);
  }

  lemma HandshakeTalks(m: Mgr, h: Header, raw: bytes)
    requires TalkOk(m) && |raw| > 1
    ensures TalkOk(HandleHandshake(m, h, raw))
  {
    hide TalkOk, SendRegistrations, ServerList.Announced, MapHandshakeError;
    if m.session.phase.PhaseAwait? {
      if Accepts(h, raw) {
        var e := Entered(m, h, raw);
        EnteredTalks(m, h, raw);
        RegistrationsTalk(e, m.watch.usersForWWR);
        SameTalk(SendRegistrations(e, m.watch.usersForWWR), LoggedIn(m, h, raw));
      } else {
        SameTalk(m, Refuse(m, raw[1]));
      }
    }
  }

  lemma LostTalks(m: Mgr)
    requires TalkOk(m)
    ensures TalkOk(ConnectionLost(m)) && TalkOk(Disconnect(m))
  {
    hide TalkOk, AllOffline;
    LostMembers(m.watch);
    SameTalk(m, ConnectionLost(m));
    SameTalk(m, Disconnect(m));
  }

  lemma LostMembers(w: Watch)
    ensures AllOffline(w).members == w.members
  {
  }

  lemma PacketTalks(m: Mgr, h: Header, body: bytes)
    requires TalkOk(m)
    ensures TalkOk(HandlePacket(m, h, body))
  {
    hide TalkOk, ParseUser, ParseMessage, Send, Spool.SpoolPray, LowByte, Uin.ToString, Synced, ConnectionLost;
    var r, n := HandlePacket(m, h, body), m.(vsn := NextVSN(m.vsn));
    SameTalk(m, n);
    SendTalks(n, Accepting(m, h));
    LostTalks(Send(n, Accepting(m, h)));
    if LowByte(h.kind) != VIRTUAL_CONNECT {
      SameTalk(m, r);
    }
  }

  lemma StepTalks(m: Mgr)
    requires TalkOk(m)
    ensures TalkOk(AfterStep(m))
  {
    hide TalkOk, Frame, Respond, HandleHandshake, HandlePacket, Drops, ReadHeader, LowByte, ConnectionLost;
    LostTalks(m);
    match Frame(m.sock.input, m.tickets.table)
    case Whole(size, reply) =>
      var h := ReadHeader(m.sock.input);
      HandshakeTalks(m, h, m.sock.input[..size]);
      PacketTalks(m, h, m.sock.input[HEADER_SIZE..size]);
      if reply {
        SameTalk(m, AfterStep(m));
      } else if LowByte(h.kind) == HANDSHAKE_RESPONSE {
        SameTalk(HandleHandshake(m, h, m.sock.input[..size]), AfterStep(m));
      } else if !Drops(m, h) {
        SameTalk(HandlePacket(m, h, m.sock.input[HEADER_SIZE..size]), AfterStep(m));
      }
    case _ =>
  }

  lemma {:induction false} ProcessTalks(m: Mgr)
    requires TalkOk(m)
    ensures TalkOk(Process(m))
    decreases |m.sock.input|
  {
    hide TalkOk, Step;
    StepTalks(m);
    if Step(m).Continue? {
      ProcessTalks(Step(m).m);
    }
  }

  // ---- pumping and connecting ----

  lemma LoginTalks(m: Mgr)
    requires TalkOk(m)
    ensures TalkOk(LoginStep(m))
  {
    hide TalkOk, PollSock, Send;
    if m.session.phase.PhaseConnecting? {
      var c := m.(sock := PollSock(m.sock));
      var t := c.(tickets := NextTicket(m.tickets));
      NextTicketKeeps(m.tickets);
      SameTalk(m, t);
      SendTalks(t, Login(m));
      SendKeeps(t, Login(m));
      SameTalk(if c.sock.state.Connected? then Send(t, Login(m)) else m, LoginStep(m));
    }
  }

  lemma PumpTalks(m: Mgr)
    requires TalkOk(m) && Core(m)
    ensures TalkOk(Pump(m))
  {
    hide TalkOk, Core, Process, PumpSock, LoginStep, TimeAfter, ConnectionLost;
    if UnderWay(m) {
      var l := LoginStep(m);
      LoginTalks(m);
      var n := l.(sock := PumpSock(l.sock));
      if l.session.phase.PhaseAwait? {
        SameTalk(l, n);
        ProcessTalks(n);
        SameTalk(Process(n), AwaitStep(l));
      }
      SameTalk(AwaitStep(l), Pump(m));
    } else if m.session.phase.PhaseOnline? {
      var n := m.(sock := PumpSock(m.sock));
      PumpSockCore(m);
      PumpedStates(m);
      SameTalk(m, n);
      ProcessTalks(n);
      LostTalks(Process(n));
    }
  }

  /** Pumping does not revive a socket. */
  lemma PumpedStates(m: Mgr)
    requires Core(m) && m.session.phase.PhaseOnline?
    ensures PumpSock(m.sock).state.Connected? ==> m.sock.state.Connected?
  {
    hide SockOk, OutOk, WatchOk, PumpSock;
    assert SockOk(m.sock);
    PumpKeepsQueues(m.sock);
  }

  lemma ConnectTalks(m: Mgr, users: seq<bytes>)
    requires TalkOk(m) && Core(m) && TicketsOk(m.tickets)
    ensures TalkOk(ConnectInBackground(m, users))
  {
    hide TalkOk, Core, TicketsOk, Pump, PumpConnectPhase, BeginSock;
    if UnderWay(m) {
      PumpIs(m);
      PumpTalks(m);
    } else if !IsOnline(m) {
      StartTalks(m.(watch := m.watch.(usersForWWR := users)));
    }
  }

  lemma StartTalks(m: Mgr)
    requires TicketsOk(m.tickets)
    ensures TalkOk(StartConnecting(m))
  {
    hide BeginSock, Parse;
    OnlyOpenings([]);
  }

  // ---- acts, calls and runs ----

  lemma ActTalks(m: Mgr, act: Act)
    requires TalkOk(m) && Core(m) && TicketsOk(m.tickets) && Proper(m, act)
    requires !act.Unwatches? && Perform(m, act).tickets.taken <= CYCLE
    ensures TalkOk(Perform(m, act))
  {
    hide TalkOk, Core, TicketsOk, Pump, ConnectInBackground, Disconnect, ConnectionLost, Send, Start, Abandon,
         AfterPoll;
    match act
    case Pumps => PumpTalks(m);
    case Connects(users) => ConnectTalks(m, users);
    case Disconnects => LostTalks(m);
    case Loses => LostTalks(m);
    case Writes(packet) => SendTalks(m, packet);
    case Questions(kind, fixedExtra, subject, packet) =>
      SendKeeps(Asked(m, kind, fixedExtra, subject), packet);
      Answers.StartTakes(m.tickets, kind, fixedExtra, subject);
      QuestionTalks(m, kind, fixedExtra, subject, packet);
    case _ => QuietTalks(m, act);
  }

  lemma QuietTalks(m: Mgr, act: Act)
    requires TalkOk(m) && !act.Unwatches? && !act.Pumps? && !act.Connects? && !act.Disconnects? && !act.Loses?
    requires !act.Writes? && !act.Questions?
    ensures TalkOk(Perform(m, act))
  {
    hide TalkOk;
    if act.Polls? || act.Abandons? {
      Answers.ForgetTakes(m.tickets, act.ticket);
      ForgetSame(m.tickets, act.ticket);
    }
    SameTalk(m, Perform(m, act));
  }

  lemma ForgetSame(t: Tickets, ticket: int32)
    ensures Abandon(t, ticket).connection == t.connection && AfterPoll(t, ticket).connection == t.connection
  {
  }

  lemma {:induction false} ScriptTalks(m: Mgr, s: Script)
    requires TalkOk(m) && Core(m) && Answers.AnswersOk(m) && AllProper(m, s) && Unwatchful(s)
    requires Play(m, s).tickets.taken <= CYCLE
    ensures TalkOk(Play(m, s))
    decreases s
  {
    hide TalkOk, Core, TicketsOk, Perform, Proper, Answers.QueriesOk;
    if s.Then? {
      var n := Perform(m, s.act);
      Answers.ScriptTakes(n, s.rest);
      Answers.ActFollows(m, s.act);
      ActCore(m, s.act);
      ActTalks(m, s.act);
      ScriptTalks(n, s.rest);
    }
  }

  /** Unwatching a user online tells the server. */
  lemma RemoveTalks(m: Mgr, user: bytes)
    requires TalkOk(m) && Core(m)
    ensures TalkOk(RemoveFromWWR(m, user))
  {
    hide Core, WriteSock, Build, QuestionsIn, Followed, Parse, Place, Wanted;
    var w, r := Watched(m, Remove(m.watch, user)), RemoveFromWWR(m, user);
    OthersWanted(m.watch, user);
    assert AskedOk(w) && AddressedOk(w) by {
      SameAsked(m, w);
    }
    if Parse(user).Some? && IsOnline(m) {
      var p := WwrModify(false, m.session.server, Parse(user).value);
      SentOne(m.sent, p);
      SendStates(w, p);
      assert QuestionsIn(r.sent) == QuestionsIn(m.sent) + [] == QuestionsIn(m.sent);
      assert AskedOk(r) by {
        assert forall k | Current(r.tickets, k) :: Current(m.tickets, k);
      }
    }
  }

  lemma OthersWanted(w: Watch, user: bytes)
    ensures forall uin | Wanted(w, uin) && Parse(user) != Some(uin) :: Wanted(Remove(w, user), uin)
  {
    hide Parse;
    forall uin | Wanted(w, uin) && Parse(user) != Some(uin) ensures Wanted(Remove(w, user), uin) {
      var u :| u in w.members && Parse(u) == Some(uin);
      assert u in Remove(w, user).members;
    }
  }

  lemma DoTalks(m: Mgr, call: Call)
    requires TalkOk(m) && Core(m) && Answers.AnswersOk(m) && Do(m, call).tickets.taken <= CYCLE
    ensures TalkOk(Do(m, call))
  {
    hide TalkOk, Core, Answers.AnswersOk, Do, ScriptOf, AllProper, Play, Unwatchful, RemoveFromWWR, Simple,
         FinishesOnly, IsOnline;
    if call.CallRemoveFromWWR? {
      DoIs(m, call);
      RemoveTalks(m, call.user);
    } else {
      CallLeads(m, call);
      if call.CallAddToWWR? {
        SimpleUnwatchful(m, ScriptOf(m, call), call.user, IsOnline(m) || call.user !in m.watch.pendingAdds);
      } else {
        SimpleUnwatchful(m, ScriptOf(m, call), [], true);
      }
      ScriptTalks(m, ScriptOf(m, call));
    }
  }

  /** Over any run with fewer than 2^32 - 1 tickets: the questions sent on the connection are exactly those on record
      for it, each as it was asked and once; messages and registrations go to the server that logged the client in
      and from its own id; and online the server follows for it only whom the game watches. */
  lemma {:induction false} TalkOverRuns(m: Mgr, calls: seq<Call>)
    requires TalkOk(m) && Core(m) && Answers.AnswersOk(m) && DoAll(m, calls).tickets.taken <= CYCLE
    ensures TalkOk(DoAll(m, calls))
    decreases |calls|
  {
    hide TalkOk, Core, Answers.AnswersOk, Do;
    if calls != [] {
      var n := Do(m, calls[0]);
      Answers.RunTakesOn(n, calls[1..]);
      DoTalks(m, calls[0]);
      DoCore(m, calls[0]);
      Answers.DoFollows(m, calls[0]);
      Answers.FollowsSound(m, n);
      TalkOverRuns(n, calls[1..]);
    }
  }

  lemma FreshTalks(kernel: Kernel, disk: Spool.Disk, clock: nat, naps: seq<Nap>)
    ensures TalkOk(FreshMgr(kernel, disk, clock, naps))
  {
  }

  // ---- what a server reads ----

  lemma {:induction false} ReadAt(ps: seq<Packet>, i: nat)
    requires i < |ps|
    ensures |OnWireAll(ps)| == |ps| && OnWireAll(ps)[i] == ps[i].OnWire()
    decreases |ps|
  {
    if i > 0 {
      ReadAt(ps[1..], i - 1);
    } else if |ps| > 1 {
      ReadAt(ps[1..], 0);
    }
  }

  lemma {:induction false} QuestionIsIn(sent: seq<Packet>, i: nat)
    requires i < |sent| && IsQuestion(sent[i])
    ensures sent[i] in QuestionsIn(sent)
    decreases |sent|
  {
    if i < |sent| - 1 {
      QuestionIsIn(sent[..|sent| - 1], i);
    }
  }

  /** Whatever the server reads off the wire after a run: a question is on record as it stands there, and everything
      it is told comes from this client's own id, under the id it gave itself. */
  lemma ReadOffTheWire(m: Mgr, calls: seq<Call>, i: nat)
    requires TalkOk(m) && Core(m) && Answers.AnswersOk(m) && DoAll(m, calls).tickets.taken <= CYCLE
    requires AllFit(DoAll(m, calls).sent) && i < |Split(DoAll(m, calls).sock.wire).0|
    ensures var r := DoAll(m, calls);
            var p := Split(r.sock.wire).0[i];
            (IsQuestion(p) ==> Says(r.session, r.tickets, p)) && Addressed(r.session, p)
  {
    hide TalkOk, Core, Answers.AnswersOk, DoAll, Split, Build, QuestionsIn, Followed;
    var r := DoAll(m, calls);
    TalkOverRuns(m, calls);
    var k := Guarantees.WireOverRuns(m, calls);
    ReadLength(r.sent[..k]);
    ReadAt(r.sent[..k], i);
    TalkIs(r, i);
  }

  lemma {:induction false} ReadLength(ps: seq<Packet>)
    ensures |OnWireAll(ps)| == |ps|
  {
    if ps != [] {
      ReadLength(ps[1..]);
    }
  }

  lemma TalkIs(m: Mgr, i: nat)
    requires TalkOk(m) && i < |m.sent|
    ensures IsQuestion(m.sent[i]) ==> Says(m.session, m.tickets, m.sent[i])
    ensures Addressed(m.session, m.sent[i])
  {
    hide Parse, QuestionsIn, Place;
    if IsQuestion(m.sent[i]) {
      QuestionIsIn(m.sent, i);
    }
  }

  // ---- whom it is asked to follow ----

  /** A first AddToWWR while online has the server follow the user, if the write goes through; */
  lemma AddIsTold(m: Mgr, user: bytes)
    requires IsOnline(m) && Parse(user).Some? && user !in m.watch.pendingAdds
    ensures var r := AddToWWR(m, user).m;
            user in r.watch.members && (IsOnline(r) ==> Parse(user).value in Followed(r.sent))
  {
    hide Parse, WriteSock, Build, FinishAdd, NowMs, Deadline, Followed;
    SentOne(m.sent, WwrModify(true, m.session.server, Parse(user).value));
    assert forall w: Watch :: FinishAdd(w, user).members == w.members by {
      FinishMembers(user);
    }
  }

  lemma FinishMembers(user: bytes)
    ensures forall w: Watch :: FinishAdd(w, user).members == w.members
  {
  }

  /** and a login everyone ConnectInBackground was given, whose id it can read. */
  lemma {:induction false} RegistrationsTell(m: Mgr, users: seq<bytes>, user: bytes)
    ensures var r := SendRegistrations(m, users);
            && (user in m.watch.members ==> user in r.watch.members)
            && (forall uin | uin in Followed(m.sent) :: uin in Followed(r.sent))
            && (user in users && Parse(user).Some? && r.sock.state.Connected? ==>
                  user in r.watch.members && Parse(user).value in Followed(r.sent))
    decreases |users|
  {
    hide Parse, Synced, Send, Followed;
    if users != [] {
      if Parse(users[0]).None? {
        RegistrationsTell(m, users[1..], user);
      } else {
        var p, n := WwrModify(true, m.session.server, Parse(users[0]).value), m.(watch := Register(m.watch, users[0]));
        var s := Send(n, p);
        SendKeeps(n, p);
        SentByOne(n, p);
        SentOne(m.sent, p);
        RegistrationsTell(s, users[1..], user);
      }
    }
  }

  lemma SentByOne(m: Mgr, p: Packet)
    ensures Send(m, p).sent == if m.sock.state.Connected? then m.sent + [p] else m.sent
    ensures Send(m, p).sock.state.Connected? ==> m.sock.state.Connected?
  {
    SendStates(m, p);
  }

  /** The user is to be followed: on the list for the login, and once online watched and followed. */
  ghost predicate Promised(m: Mgr, user: bytes) {
    && Parse(user).Some?
    && (UnderWay(m) ==> user in m.watch.usersForWWR)
    && (IsOnline(m) ==> user in m.watch.members && Parse(user).value in Followed(m.sent))
  }

  lemma SamePromise(m: Mgr, r: Mgr, user: bytes)
    requires Promised(m, user) && (UnderWay(r) ==> UnderWay(m) && r.watch.usersForWWR == m.watch.usersForWWR)
    requires IsOnline(r) ==> IsOnline(m)
    requires user in m.watch.members ==> user in r.watch.members
    requires Parse(user).value in Followed(m.sent) ==> Parse(user).value in Followed(r.sent)
    ensures Promised(r, user)
  {
  }

  lemma SendPromises(m: Mgr, p: Packet, user: bytes)
    requires Promised(m, user) && (p.WwrModify? ==> p.add)
    ensures Promised(Send(m, p), user)
  {
    hide Parse, Followed;
    SentByOne(m, p);
    SendKeeps(m, p);
    SentOne(m.sent, p);
  }

  lemma StepPromises(m: Mgr, user: bytes)
    requires Promised(m, user)
    ensures Promised(AfterStep(m), user)
  {
    hide Promised, Frame, Respond, HandleHandshake, HandlePacket, Drops, ReadHeader, LowByte, ConnectionLost, Parse,
         Followed;
    LostPromises(m, user);
    match Frame(m.sock.input, m.tickets.table)
    case Whole(size, reply) =>
      var h := ReadHeader(m.sock.input);
      HandshakePromises(m, h, m.sock.input[..size], user);
      PacketPromises(m, h, m.sock.input[HEADER_SIZE..size], user);
      if reply {
        SamePromise(m, AfterStep(m), user);
      } else if LowByte(h.kind) == HANDSHAKE_RESPONSE {
        SamePromise(HandleHandshake(m, h, m.sock.input[..size]), AfterStep(m), user);
      } else if !Drops(m, h) {
        SamePromise(HandlePacket(m, h, m.sock.input[HEADER_SIZE..size]), AfterStep(m), user);
      }
    case _ =>
  }

  lemma LostPromises(m: Mgr, user: bytes)
    requires Promised(m, user)
    ensures Promised(ConnectionLost(m), user) && Promised(Disconnect(m), user)
  {
    hide Parse, Followed, AllOffline;
  }

  lemma HandshakePromises(m: Mgr, h: Header, raw: bytes, user: bytes)
    requires Promised(m, user) && |raw| > 1
    ensures Promised(HandleHandshake(m, h, raw), user)
  {
    hide Parse, Followed, SendRegistrations, ServerList.Announced, MapHandshakeError;
    var e := Entered(m, h, raw);
    RegistrationsTell(e, m.watch.usersForWWR, user);
    RegistrationsSession(e, m.watch.usersForWWR);
  }

  lemma PacketPromises(m: Mgr, h: Header, body: bytes, user: bytes)
    requires Promised(m, user)
    ensures Promised(HandlePacket(m, h, body), user)
  {
    hide Promised, Parse, Followed, ParseUser, ParseMessage, Send, Spool.SpoolPray, LowByte, Uin.ToString, Synced,
         ConnectionLost;
    var r, n := HandlePacket(m, h, body), m.(vsn := NextVSN(m.vsn));
    SamePromise(m, n, user);
    SendPromises(n, Accepting(m, h), user);
    LostPromises(Send(n, Accepting(m, h)), user);
    if LowByte(h.kind) != VIRTUAL_CONNECT {
      SamePromise(m, r, user);
    }
  }

  lemma {:induction false} ProcessPromises(m: Mgr, user: bytes)
    requires Promised(m, user)
    ensures Promised(Process(m), user)
    decreases |m.sock.input|
  {
    hide Promised, Step;
    StepPromises(m, user);
    if Step(m).Continue? {
      ProcessPromises(Step(m).m, user);
    }
  }

  lemma LoginPromises(m: Mgr, user: bytes)
    requires Promised(m, user) && UnderWay(m)
    ensures Promised(LoginStep(m), user)
  {
    hide Promised, PollSock, Send, Parse, Followed, NextTicket;
    var t := m.(sock := PollSock(m.sock), tickets := NextTicket(m.tickets));
    if m.session.phase.PhaseConnecting? {
      SamePromise(m, t, user);
      SendPromises(t, Login(m), user);
      SendKeeps(t, Login(m));
      SamePromise(if t.sock.state.Connected? then Send(t, Login(m)) else m, LoginStep(m), user);
    }
  }

  lemma PumpPromises(m: Mgr, user: bytes)
    requires Promised(m, user) && Core(m)
    ensures Promised(Pump(m), user)
  {
    hide Promised, Core, Process, PumpSock, LoginStep, TimeAfter, ConnectionLost, Parse, Followed;
    if UnderWay(m) {
      var l := LoginStep(m);
      LoginPromises(m, user);
      var n := l.(sock := PumpSock(l.sock));
      if l.session.phase.PhaseAwait? {
        SamePromise(l, n, user);
        ProcessPromises(n, user);
        SamePromise(Process(n), AwaitStep(l), user);
      }
      SamePromise(AwaitStep(l), Pump(m), user);
    } else if m.session.phase.PhaseOnline? {
      var n := m.(sock := PumpSock(m.sock));
      PumpedStates(m);
      SamePromise(m, n, user);
      ProcessPromises(n, user);
      LostPromises(Process(n), user);
    }
  }

  lemma ActPromises(m: Mgr, act: Act, user: bytes)
    requires Promised(m, user) && Core(m) && Proper(m, act) && !act.Unwatches? && !act.Connects?
    ensures Promised(Perform(m, act), user)
  {
    hide Promised, Core, Pump, Disconnect, ConnectionLost, Send, Start, Parse, Followed;
    match act
    case Pumps => PumpPromises(m, user);
    case Disconnects => LostPromises(m, user);
    case Loses => LostPromises(m, user);
    case Writes(packet) => SendPromises(m, packet, user);
    case Questions(kind, fixedExtra, subject, packet) =>
      var a := Asked(m, kind, fixedExtra, subject);
      SamePromise(m, a, user);
      SendPromises(a, packet, user);
    case _ => QuietPromises(m, act, user);
  }

  /** Acts that write nothing. */
  lemma QuietPromises(m: Mgr, act: Act, user: bytes)
    requires Promised(m, user) && !act.Unwatches? && !act.Pumps? && !act.Connects? && !act.Disconnects? && !act.Loses?
    requires !act.Writes? && !act.Questions?
    ensures Promised(Perform(m, act), user)
  {
    hide Promised, Parse, Followed, Abandon, AfterPoll, NowMs, Deadline;
    SamePromise(m, Perform(m, act), user);
  }

  lemma {:induction false} ScriptPromises(m: Mgr, s: Script, user: bytes)
    requires Promised(m, user) && Core(m) && AllProper(m, s) && Unwatchful(s) && Inner(s)
    ensures Promised(Play(m, s), user)
    decreases s
  {
    hide Promised, Core, Perform, Proper;
    if s.Then? {
      ActPromises(m, s.act, user);
      ActCore(m, s.act);
      ScriptPromises(Perform(m, s.act), s.rest, user);
    }
  }

  /** A call that keeps the promise: it does not unwatch the user, in whatever spelling, and if it begins a connection
      its list has them. */
  predicate KeepsPromise(m: Mgr, call: Call, user: bytes) {
    && (call.CallRemoveFromWWR? ==> Parse(call.user) != Parse(user))
    && (call.CallConnect? && StartsConnection(m) ==> user in call.users)
  }

  predicate KeepsPromises(m: Mgr, calls: seq<Call>, user: bytes)
    decreases |calls|
  {
    calls != [] ==> KeepsPromise(m, calls[0], user) && KeepsPromises(Do(m, calls[0]), calls[1..], user)
  }

  lemma ConnectPromises(m: Mgr, users: seq<bytes>, user: bytes)
    requires Core(m) && Parse(user).Some?
    requires if StartsConnection(m) then user in users else Promised(m, user)
    ensures Promised(ConnectInBackground(m, users), user)
  {
    hide Core, Pump, PumpConnectPhase, BeginSock, Parse, Followed;
    if UnderWay(m) {
      PumpIs(m);
      PumpPromises(m, user);
    }
  }

  lemma RemovePromises(m: Mgr, owner: bytes, user: bytes)
    requires Promised(m, user) && Parse(owner) != Parse(user)
    ensures Promised(RemoveFromWWR(m, owner), user)
  {
    hide Parse, Followed, WriteSock, Build;
    var w := Watched(m, Remove(m.watch, owner));
    if Parse(owner).Some? && IsOnline(m) {
      var p := WwrModify(false, m.session.server, Parse(owner).value);
      SentByOne(w, p);
      SentOne(m.sent, p);
    }
  }

  lemma DoPromises(m: Mgr, call: Call, user: bytes)
    requires Promised(m, user) && Core(m) && KeepsPromise(m, call, user)
    ensures Promised(Do(m, call), user)
  {
    hide Promised, Core, Do, ScriptOf, AllProper, Play, Unwatchful, RemoveFromWWR, Simple, FinishesOnly, IsOnline,
         Parse, ConnectInBackground, Inner;
    PromisedParses(m, user);
    if call.CallRemoveFromWWR? {
      DoIs(m, call);
      RemovePromises(m, call.user, user);
    } else if call.CallConnect? {
      OneActIs(m, call);
      ConnectPromises(m, call.users, user);
    } else if call.Host? {
      OneActIs(m, call);
      QuietPromises(m, ActOf(m, call), user);
    } else {
      CallLeads(m, call);
      if call.CallAddToWWR? {
        SimpleUnwatchful(m, ScriptOf(m, call), call.user, IsOnline(m) || call.user !in m.watch.pendingAdds);
      } else {
        SimpleUnwatchful(m, ScriptOf(m, call), [], true);
      }
      ScriptPromises(m, ScriptOf(m, call), user);
    }
  }

  lemma PromisedParses(m: Mgr, user: bytes)
    requires Promised(m, user)
    ensures Parse(user).Some?
  {
  }

  /** Whoever is on the list a connection was begun with is, whenever the client is online in the run that follows,
      watched by it and followed for it by the server, while the game keeps to it. */
  lemma {:induction false} PromiseOverRuns(m: Mgr, calls: seq<Call>, user: bytes)
    requires Promised(m, user) && Core(m) && KeepsPromises(m, calls, user)
    ensures Promised(DoAll(m, calls), user)
    decreases |calls|
  {
    hide Promised, Core, Do, KeepsPromise;
    if calls != [] {
      DoPromises(m, calls[0], user);
      DoCore(m, calls[0]);
      PromiseOverRuns(Do(m, calls[0]), calls[1..], user);
    }
  }

  /** From the call that begins the connection on. */
  lemma ListIsFollowed(m: Mgr, users: seq<bytes>, calls: seq<Call>, user: bytes)
    requires Core(m) && StartsConnection(m) && user in users && Parse(user).Some?
    requires KeepsPromises(ConnectInBackground(m, users), calls, user)
    ensures var r := DoAll(ConnectInBackground(m, users), calls);
            IsOnline(r) ==> user in r.watch.members && Parse(user).value in Followed(r.sent)
  {
    hide Core, DoAll, KeepsPromises, ConnectInBackground, Parse, Followed;
    ConnectPromises(m, users, user);
    ConnectCore(m, users);
    PromiseOverRuns(ConnectInBackground(m, users), calls, user);
  }
}
