/** Logging in: what the client says when it does, and what it takes from the answer. */
module Logins {
  import opened Bytes
  import opened Uins
  import opened Protocol
  import opened Sockets
  import opened Clock
  import opened Tickets
  import opened Watching
  import opened ServerList
  import opened Client
  import opened Connection
  import opened Api
  import opened Acts
  import opened Sound
  import opened LockStepRun
  import opened Reports
  import Guarantees

  // ---- the answer, read off the dispatched packets ----

  /** The first handshake response among the packets dispatched: the first unasked one of type 0x0A. */
  function FirstLogin(log: seq<Dispatch>): Option<bytes> {
    if log == [] then None
    else
      var before, d := FirstLogin(log[..|log| - 1]), log[|log| - 1];
      if before.Some? then before
      else if !d.reply && |d.packet| >= 48 && d.packet[0] == 0x0A then Some(d.packet)
      else None
  }

  /** Who the client is to the server and the server to it, the servers to try, and when it went online. */
  datatype Identity = Identity(server: Uin, user: Uin, servers: seq<ServerInfo>, connectedAt: uint32)

  function IdentityOf(s: Session): Identity {
    Identity(s.server, s.user, s.servers, s.connectedAt)
  }

  /** A handshake response without an error code in its second byte and with a server id. */
  predicate Welcomes(answer: Option<bytes>) {
    answer.Some? && |answer.value| >= 48 && answer.value[1] == 0 && GetInt(answer.value, 4) != 0
  }

  /** What a handshake response gives. */
  function Given(answer: Option<bytes>, now: uint32, before: Identity): Identity {
    if !Welcomes(answer) then before
    else
      var raw := answer.value;
      Identity(Uin(GetInt(raw, 4), GetInt(raw, 8)), Uin(GetInt(raw, 12), GetInt(raw, 16)),
               if Announced(raw) == [] then before.servers else Announced(raw), now)
  }

  /** Until it is decided, the login has not been answered. */
  predicate Undecided(m: Mgr) {
    m.base <= |m.log| && (UnderWay(m) ==> FirstLogin(m.log[m.base..]).None?)
  }

  /** What the game set: the name and password to log in with, the version to speak, the directories. */
  predicate SameSettings(m: Mgr, r: Mgr) {
    && r.session.nickname == m.session.nickname && r.session.password == m.session.password
    && r.session.modern == m.session.modern && r.outbox == m.outbox && r.inbox == m.inbox
  }

  /** From m to r, on one connection, the client took from the first handshake response what it gives. */
  predicate Learns(m: Mgr, r: Mgr) {
    && r.base == m.base <= |m.log| && m.log <= r.log && SameSettings(m, r)
    && IdentityOf(r.session) ==
       (if UnderWay(m) then Given(FirstLogin(r.log[m.base..]), NowMs(m.clock), IdentityOf(m.session))
        else IdentityOf(m.session))
    && (UnderWay(r) ==> UnderWay(m) && r.clock == m.clock)
    && (UnderWay(m) && r.session.phase.PhaseOnline? ==> Welcomes(FirstLogin(r.log[m.base..])))
    && (r.session.phase.PhaseOnline? ==> UnderWay(m) || m.session.phase.PhaseOnline?)
    && Undecided(r)
  }

  lemma {:induction false} FirstLoginOn(a: seq<Dispatch>, b: seq<Dispatch>)
    ensures FirstLogin(a + b) == if FirstLogin(a).Some? then FirstLogin(a) else FirstLogin(b)
    decreases |b|
  {
    if b == [] {
      assert a + b == a;
    } else {
      assert (a + b)[..|a + b| - 1] == a + b[..|b| - 1];
      FirstLoginOn(a, b[..|b| - 1]);
    }
  }

  lemma LearnsOn(m: Mgr, n: Mgr, r: Mgr)
    requires Learns(m, n) && Learns(n, r)
    requires UnderWay(m) && !UnderWay(n) && FirstLogin(n.log[m.base..]).None? ==> r.log == n.log
    ensures Learns(m, r)
  {
    hide FirstLogin, Given, NowMs;
    NotGiven(NowMs(m.clock), IdentityOf(m.session));
    assert r.log[m.base..] == n.log[m.base..] + r.log[|n.log|..];
    FirstLoginOn(n.log[m.base..], r.log[|n.log|..]);
  }

  /** Nothing of it changed. */
  lemma SameLearns(m: Mgr, r: Mgr)
    requires Undecided(m) && r.base == m.base && r.log == m.log && IdentityOf(r.session) == IdentityOf(m.session)
    requires SameSettings(m, r) && (UnderWay(r) ==> UnderWay(m) && r.clock == m.clock)
    requires r.session.phase.PhaseOnline? ==> m.session.phase.PhaseOnline?
    ensures Learns(m, r)
  {
  }

  lemma NotGiven(now: uint32, before: Identity)
    ensures Given(None, now, before) == before
  {
  }

  lemma LogAppends(m: Mgr, d: Dispatch)
    requires m.base <= |m.log|
    ensures FirstLogin((m.log + [d])[m.base..]) ==
            if FirstLogin(m.log[m.base..]).Some? then FirstLogin(m.log[m.base..])
            else if !d.reply && |d.packet| >= 48 && d.packet[0] == 0x0A then Some(d.packet) else None
  {
    assert (m.log + [d])[m.base..] == m.log[m.base..] + [d];
    FirstLoginOn(m.log[m.base..], [d]);
    assert [d][..0] == [];
  }

  // ---- processing input ----

  /** A handshake response the client awaits gives it its identity, or is a refusal; others are ignored. */
  lemma HandshakeGives(m: Mgr, size: nat)
    requires 48 <= size <= |m.sock.input|
    ensures var raw := m.sock.input[..size];
            var r := HandleHandshake(m, ReadHeader(m.sock.input), raw);
            && IdentityOf(r.session) ==
               (if m.session.phase.PhaseAwait? then Given(Some(raw), NowMs(m.clock), IdentityOf(m.session))
                else IdentityOf(m.session))
            && SameSettings(m, r)
            && (if m.session.phase.PhaseAwait?
                then r.session.phase == if Welcomes(Some(raw)) then PhaseOnline else PhaseFailed
                else r.session == m.session)
  {
    hide SendRegistrations, Announced, MapHandshakeError, GetInt, NowMs;
    var raw, rest := m.sock.input[..size], m.sock.input[size..];
    assert m.sock.input == raw + rest;
    GetIntPrefix(raw, rest, 4);
    GetIntPrefix(raw, rest, 8);
    GetIntPrefix(raw, rest, 12);
    GetIntPrefix(raw, rest, 16);
    RegistrationsSession(Entered(m, ReadHeader(m.sock.input), raw), m.watch.usersForWWR);
    RegistrationsDirectories(Entered(m, ReadHeader(m.sock.input), raw), m.watch.usersForWWR);
  }

  lemma {:induction false} RegistrationsDirectories(m: Mgr, users: seq<bytes>)
    ensures SendRegistrations(m, users).outbox == m.outbox && SendRegistrations(m, users).inbox == m.inbox
    decreases |users|
  {
    hide Parse, WriteSock, Build, Register;
    if users != [] {
      RegistrationsDirectories(m, users[1..]);
      if Parse(users[0]).Some? {
        RegistrationsDirectories(Send(m.(watch := Register(m.watch, users[0])),
                                      WwrModify(true, m.session.server, Parse(users[0]).value)), users[1..]);
      }
    }
  }

  lemma PacketIdentity(m: Mgr, h: Header, body: bytes)
    ensures var r := HandlePacket(m, h, body);
            && IdentityOf(r.session) == IdentityOf(m.session) && SameSettings(m, r)
            && (if Drops(m, h) then r.session.phase.PhaseIdle? else r.session == m.session)
  {
    hide LowByte, ParseUser, ParseMessage, WriteSock, Build, Spool.SpoolPray, Update;
  }

  lemma StepLearns(m: Mgr)
    requires Undecided(m) && !m.session.phase.PhaseConnecting?
    ensures Learns(m, AfterStep(m)) && !AfterStep(m).session.phase.PhaseConnecting?
    ensures Step(m).Continue? && UnderWay(m) && !UnderWay(AfterStep(m)) ==>
              FirstLogin(AfterStep(m).log[m.base..]).Some?
  {
    hide Frame, Answered, HandleHandshake, HandlePacket, Drops, ReadHeader, LowByte, FirstLogin, Given,
         AllOffline, NowMs;
    NotGiven(NowMs(m.clock), IdentityOf(m.session));
    match Frame(m.sock.input, m.tickets.table)
    case Whole(size, reply) =>
      var h := ReadHeader(m.sock.input);
      LogAppends(m, Dispatch(reply, m.sock.input[..size]));
      PacketInts(m.sock.input, size);
      PacketIdentity(m, h, m.sock.input[HEADER_SIZE..size]);
      if !reply && LowByte(h.kind) == HANDSHAKE_RESPONSE {
        LoginSize(m, size);
        HandshakeGives(m, size);
      }
    case _ =>
  }

  lemma LoginSize(m: Mgr, size: nat)
    requires Frame(m.sock.input, m.tickets.table) == Whole(size, false)
    requires LowByte(ReadHeader(m.sock.input).kind) == HANDSHAKE_RESPONSE
    ensures size >= 48
  {
    hide ReadHeader, GetInt, LowByte;
  }

  lemma {:induction false} ProcessLearns(m: Mgr)
    requires Undecided(m) && !m.session.phase.PhaseConnecting?
    ensures Learns(m, Process(m))
    decreases |m.sock.input|
  {
    hide Step, Learns, FirstLogin;
    StepLearns(m);
    LearnsUndecided(m, AfterStep(m));
    match Step(m)
    case Waiting => SameLearns(m, m);
    case Dropped(n) =>
    case Continue(n) =>
      ProcessLearns(n);
      LearnsOn(m, n, Process(n));
  }

  lemma LearnsUndecided(m: Mgr, r: Mgr)
    requires Learns(m, r)
    ensures Undecided(r) && r.base == m.base
  {
  }

  // ---- what is sent, and by whom it opens ----

  /** What a client with these settings opens with: its name, its password, the id it remembers, the version it speaks
      and the next ticket. */
  function Greeting(m: Mgr): Packet {
    Handshake(m.session.user, NextTicket(m.tickets).next, m.session.nickname, m.session.password,
              if m.session.modern then 20240219 else 0)
  }

  /** From m to r, on one connection, the client went on sending, and opened with its greeting. */
  predicate Speaks(m: Mgr, r: Mgr) {
    && m.sent <= r.sent
    && (m.sent == [] && r.sent != [] ==> m.session.phase.PhaseConnecting? && r.sent[0] == Greeting(m))
    && (m.sent == [] && r.sent == [] && r.session.phase.PhaseConnecting? ==>
          m.session.phase.PhaseConnecting? && Greeting(r) == Greeting(m))
  }

  /** And once it is neither up nor coming up, nothing more happens on it. */
  predicate Goes(m: Mgr, r: Mgr) {
    Learns(m, r) && Speaks(m, r) && (!Live(m) ==> !Live(r) && r.log == m.log)
  }

  lemma GoesOn(m: Mgr, n: Mgr, r: Mgr)
    requires Goes(m, n) && Goes(n, r)
    ensures Goes(m, r)
  {
    hide Given, FirstLogin, NowMs, NextTicket;
    if UnderWay(m) && !UnderWay(n) && FirstLogin(n.log[m.base..]).None? {
      assert !Live(n);
    }
    LearnsOn(m, n, r);
  }

  lemma SameGoes(m: Mgr, r: Mgr)
    requires Undecided(m) && r.base == m.base && r.log == m.log && r.sent == m.sent && SameSettings(m, r)
    requires r.session == m.session.(lastError := r.session.lastError, rawError := r.session.rawError,
                                     phase := r.session.phase)
    requires r.session.phase == m.session.phase || r.session.phase.PhaseIdle? || r.session.phase.PhaseFailed?
    requires UnderWay(r) ==> r.clock == m.clock && r.tickets.next == m.tickets.next
    ensures Goes(m, r)
  {
    SameLearns(m, r);
  }

  lemma {:induction false} RegistrationsSpeak(m: Mgr, users: seq<bytes>)
    ensures m.sent <= SendRegistrations(m, users).sent
    decreases |users|
  {
    hide Parse, WriteSock, Build, Register;
    if users != [] {
      if Parse(users[0]).None? {
        RegistrationsSpeak(m, users[1..]);
      } else {
        var n := Send(m.(watch := Register(m.watch, users[0])),
                      WwrModify(true, m.session.server, Parse(users[0]).value));
        RegistrationsSpeak(n, users[1..]);
      }
    }
  }

  lemma StepSpeaks(m: Mgr)
    ensures m.sent <= AfterStep(m).sent
  {
    hide Frame, Answered, ReadHeader, LowByte, Accepts, WriteSock, Build, ParseMessage, ParseUser, SendRegistrations,
         Spool.SpoolPray, Update, Announced, MapHandshakeError;
    match Frame(m.sock.input, m.tickets.table)
    case Whole(size, reply) =>
      RegistrationsSpeak(Entered(m, ReadHeader(m.sock.input), m.sock.input[..size]), m.watch.usersForWWR);
    case _ =>
  }

  lemma {:induction false} ProcessSpeaks(m: Mgr)
    ensures m.sent <= Process(m).sent
    decreases |m.sock.input|
  {
    hide Step;
    StepSpeaks(m);
    if Step(m).Continue? {
      ProcessSpeaks(Step(m).m);
    }
  }

  // ---- pumping ----

  lemma LoginGoes(m: Mgr)
    requires Core(m) && Undecided(m)
    ensures Goes(m, LoginStep(m))
  {
    hide PollSock, WriteSock, Build, NextTicket, Given, FirstLogin, SockOk, WatchOk, Concat, BuildAll, NowMs;
    NotGiven(NowMs(m.clock), IdentityOf(m.session));
  }

  lemma ProcessGoes(m: Mgr)
    requires Core(m) && Undecided(m) && Talking(m)
    ensures Learns(m, Process(m)) && Speaks(m, Process(m))
  {
    hide Process, Learns, SockOk, WatchOk, Concat, BuildAll;
    ProcessLearns(m);
    ProcessSpeaks(m);
    assert m.sent != [];
  }

  lemma PumpGoes(m: Mgr)
    requires Core(m) && Undecided(m)
    ensures Goes(m, Pump(m))
  {
    hide Process, PumpSock, LoginStep, TimeAfter, ConnectionLost, Goes, Core, Learns, Speaks;
    if UnderWay(m) {
      var l := LoginStep(m);
      LoginGoes(m);
      LoginStepCore(m);
      GoesUndecided(m, l);
      AwaitGoes(l);
      GoesUndecided(l, AwaitStep(l));
      GoesOn(m, l, AwaitStep(l));
      SameGoes(AwaitStep(l), Pump(m));
      GoesOn(m, AwaitStep(l), Pump(m));
    } else if m.session.phase.PhaseOnline? {
      OnlineGoes(m);
    } else {
      SameGoes(m, m);
    }
  }

  lemma GoesUndecided(m: Mgr, r: Mgr)
    requires Goes(m, r)
    ensures Undecided(r) && r.base == m.base
  {
  }

  lemma AwaitGoes(m: Mgr)
    requires Core(m) && Undecided(m)
    ensures Goes(m, AwaitStep(m))
  {
    hide Process, PumpSock, Core, Learns, Speaks, Undecided;
    if m.session.phase.PhaseAwait? {
      var n := m.(sock := PumpSock(m.sock));
      PumpSockCore(m);
      SameUndecided(m, n);
      ProcessGoes(n);
      var r := Process(n);
      SameNotions(m, n, r);
      FailedToo(m, r, AwaitStep(m));
    } else {
      SameGoes(m, m);
    }
  }

  lemma SameUndecided(m: Mgr, n: Mgr)
    requires Undecided(m) && n == m.(sock := n.sock)
    ensures Undecided(n)
  {
  }

  lemma SameNotions(m: Mgr, n: Mgr, r: Mgr)
    requires Learns(n, r) && Speaks(n, r) && n == m.(sock := n.sock)
    ensures Learns(m, r) && Speaks(m, r)
  {
  }

  /** Giving the connection up teaches the client nothing. */
  lemma FailedToo(m: Mgr, r: Mgr, f: Mgr)
    requires Learns(m, r) && Speaks(m, r) && Live(m) && (f == r || f == GiveUp(r, f.session.rawError))
    ensures Goes(m, f)
  {
    hide Given, FirstLogin;
  }

  lemma OnlineGoes(m: Mgr)
    requires Core(m) && Undecided(m) && m.session.phase.PhaseOnline?
    ensures Goes(m, PumpOnline(m))
  {
    hide Process, PumpSock, Core, Learns, Speaks, Undecided;
    var n := m.(sock := PumpSock(m.sock));
    PumpSockCore(m);
    SameUndecided(m, n);
    ProcessGoes(n);
    SameNotions(m, n, Process(n));
    LostToo(m, Process(n));
  }

  lemma LostToo(m: Mgr, r: Mgr)
    requires Learns(m, r) && Speaks(m, r) && Live(m)
    ensures Goes(m, r) && Goes(m, ConnectionLost(r)) && Goes(m, Disconnect(r))
  {
    hide Given, FirstLogin, AllOffline, CloseSock;
  }

  // ---- acts and calls ----

  lemma ConnectGoes(m: Mgr, users: seq<bytes>)
    requires Core(m) && Undecided(m)
    ensures if StartsConnection(m) then Starting(m, ConnectInBackground(m, users))
            else Goes(m, ConnectInBackground(m, users))
  {
    hide Pump, PumpConnectPhase, BeginSock, Core, Goes;
    if UnderWay(m) {
      PumpIs(m);
      PumpGoes(m);
    } else if IsOnline(m) {
      SameGoes(m, m);
    } else {
      assert m.log[|m.log|..] == [];
    }
  }

  /** A connection begins: nothing is sent or dispatched on it, and nothing forgotten. */
  predicate Starting(m: Mgr, r: Mgr) {
    && r.sent == [] && r.log == m.log && r.base == |m.log| && r.session.user == m.session.user
    && IdentityOf(r.session) == IdentityOf(m.session) && Undecided(r)
    && !r.session.phase.PhaseOnline? && SameSettings(m, r)
  }

  lemma ActGoes(m: Mgr, act: Act)
    requires Core(m) && Undecided(m) && Proper(m, act)
    requires !act.Connects? && !act.Changes? && !act.SetsUser? && !act.SetsDirectories?
    ensures Goes(m, Perform(m, act))
  {
    hide Core, Goes, Pump, Undecided, Disconnect, ConnectionLost, Send;
    match act
    case Pumps => PumpGoes(m);
    case Disconnects => GoneToo(m);
    case Loses => GoneToo(m);
    case Writes(packet) => WriteGoes(m, m, packet);
    case Unwatches(user) => UnwatchGoes(m, user);
    case Questions(kind, fixedExtra, subject, packet) => WriteGoes(m, Asked(m, kind, fixedExtra, subject), packet);
    case _ => InnerGoes(m, act);
  }

  /** Acts that do not touch the connection. */
  lemma InnerGoes(m: Mgr, act: Act)
    requires Undecided(m) && Proper(m, act)
    requires !act.Connects? && !act.Changes? && !act.SetsUser? && !act.SetsDirectories?
    requires !act.Pumps? && !act.Disconnects? && !act.Loses? && !act.Writes? && !act.Questions?
    requires !act.Unwatches?
    ensures Goes(m, Perform(m, act))
  {
    hide Goes, Undecided, Start, Abandon, AfterPoll, Recordable, NewlyAsked;
    if act.Polls? || act.Abandons? {
      SameNext(m.tickets, act.ticket);
    }
    SameGoes(m, Perform(m, act));
  }

  lemma UnwatchGoes(m: Mgr, user: bytes)
    requires Core(m) && Undecided(m)
    ensures Goes(m, RemoveFromWWR(m, user))
  {
    hide Core, Goes, Undecided, Parse, Send, Remove;
    var w := Watched(m, Remove(m.watch, user));
    SameGoes(m, w);
    if Parse(user).Some? && IsOnline(m) {
      WriteGoes(m, w, WwrModify(false, m.session.server, Parse(user).value));
    }
  }

  lemma SameNext(t: Tickets, ticket: int32)
    ensures Abandon(t, ticket).next == t.next && AfterPoll(t, ticket).next == t.next
  {
  }

  lemma GoneToo(m: Mgr)
    requires Undecided(m)
    ensures Goes(m, ConnectionLost(m)) && Goes(m, Disconnect(m))
  {
    SameLearns(m, ConnectionLost(m));
    SameLearns(m, Disconnect(m));
  }

  lemma WriteGoes(m: Mgr, a: Mgr, packet: Packet)
    requires Core(m) && Undecided(m) && IsOnline(m) && a == m.(tickets := a.tickets, watch := a.watch)
    ensures Goes(m, Send(a, packet))
  {
    hide SockOk, WatchOk, Concat, BuildAll, WriteSock, Build;
    SameLearns(m, Send(a, packet));
  }

  /** Neither name, password nor directories are set in it. */
  predicate Fixed(s: Script) {
    s.Then? ==> !s.act.SetsUser? && !s.act.SetsDirectories? && Fixed(s.rest)
  }

  lemma {:induction false} SilentIsFixed(s: Script)
    requires Silent(s)
    ensures Fixed(s)
    decreases s
  {
    if s.Then? {
      SilentIsFixed(s.rest);
    }
  }

  lemma CallIsFixed(m: Mgr, call: Call)
    requires !call.CallSetUser? && !call.CallSetDirectories?
    ensures Fixed(ScriptOf(m, call))
  {
    hide ScriptOf, Silent, Fixed;
    if call.CallFetchUserData? {
      FetchIsFixed(m, call.user);
      ScriptIs(m, call);
    } else if Converses(call) {
      ScriptIs(m, call);
      OnlyFixed(TakesMail);
      OnlyFixed(TakesChange);
      ThenFixed(Pumps, Only(TakesMail));
    } else {
      CallIsSilent(m, call);
      SilentIsFixed(ScriptOf(m, call));
    }
  }

  lemma ScriptIs(m: Mgr, call: Call)
    ensures call.CallFetchUserData? ==> ScriptOf(m, call) == FetchUserDataScript(m, call.user)
    ensures call.CallGetMessages? ==> ScriptOf(m, call) == Then(Pumps, Only(TakesMail))
    ensures call.CallNextChangedUser? ==> ScriptOf(m, call) == Only(TakesChange)
  {
    hide FetchUserDataScript, Only;
  }

  lemma OnlyFixed(act: Act)
    requires !act.SetsUser? && !act.SetsDirectories?
    ensures Fixed(Only(act)) && Fixed(Nil)
  {
  }

  lemma ThenFixed(act: Act, rest: Script)
    requires !act.SetsUser? && !act.SetsDirectories? && Fixed(rest)
    ensures Fixed(Then(act, rest))
  {
  }

  lemma FetchIsFixed(m: Mgr, user: bytes)
    ensures Fixed(FetchUserDataScript(m, user))
  {
    hide Parse, Pump, Start, Poll, TimeAfter, NowMs, Deadline, Only, PollScript, QueryScript, Fixed;
    OnlyFixed(Waits);
    if Parse(user).Some? && user in m.queries.fetches {
      var p, query := Pump(m), m.queries.fetches[user];
      var found := match Poll(p.tickets, query.ticket)
                   case Finished(tr) => Only(Remembers(user, tr.resultString))
                   case _ => Nil;
      if Poll(p.tickets, query.ticket).Finished? {
        OnlyFixed(Remembers(user, Poll(p.tickets, query.ticket).result.resultString));
      }
      PollIsFixed(m, query, p.queries.(fetches := p.queries.fetches - {user}), found);
    } else if Parse(user).Some? && IsOnline(m) {
      var ticket := Asked(m, ClientInfo, 0, user).tickets.next;
      var query := PendingQuery(ticket, Deadline(NowMs(m.clock), QUERY_TIMEOUT));
      var packet := GetClientInfo(m.session.server, Parse(user).value, ticket);
      QueryIsSilent(m, ClientInfo, 0, user, packet, m.queries.(fetches := m.queries.fetches[user := query]), Nil);
      SilentIsFixed(QueryScript(m, ClientInfo, 0, user, packet,
                                  m.queries.(fetches := m.queries.fetches[user := query]), Nil));
    }
  }

  lemma PollIsFixed(m: Mgr, query: PendingQuery, struck: Queries, found: Script)
    requires Fixed(found)
    ensures Fixed(PollScript(m, query, struck, found))
  {
    hide Pump, TimeAfter, NowMs, Only, Fixed;
    OnlyFixed(Records(struck));
    ThenFixed(Records(struck), found);
    ThenFixed(Records(struck), Nil);
    ThenFixed(Polls(query.ticket), Then(Records(struck), found));
    ThenFixed(Polls(query.ticket), Then(Records(struck), Nil));
    ThenFixed(Abandons(query.ticket), Only(Records(struck)));
    ThenFixed(Pumps, PollScript(m, query, struck, found).rest);
  }

  lemma {:induction false} ScriptGoes(m: Mgr, s: Script)
    requires Core(m) && Undecided(m) && AllProper(m, s) && Fixed(s) && Inner(s)
    ensures Goes(m, Play(m, s))
    decreases s
  {
    hide Core, Goes, Undecided, Perform, Proper;
    if s.Then? {
      var n := Perform(m, s.act);
      ActCore(m, s.act);
      ActGoes(m, s.act);
      GoesUndecided(m, n);
      ScriptGoes(n, s.rest);
      GoesOn(m, n, Play(n, s.rest));
    } else {
      SameGoes(m, m);
    }
  }

  /** The host or the game may change what the client is to go by. */
  predicate Resets(m: Mgr, call: Call) {
    call.Host? || call.CallSetUser? || call.CallSetDirectories? || (call.CallConnect? && StartsConnection(m))
  }

  lemma CallGoes(m: Mgr, call: Call)
    requires Core(m) && Undecided(m) && !Resets(m, call)
    ensures Goes(m, Do(m, call))
  {
    hide Core, Goes, Undecided, Do, ScriptOf, AllProper, Play, Inner, Fixed, ConnectInBackground;
    if call.CallConnect? {
      ConnectGoes(m, call.users);
      OneActIs(m, call);
    } else {
      CallLeads(m, call);
      CallIsFixed(m, call);
      ScriptGoes(m, ScriptOf(m, call));
    }
  }

  lemma ResetIs(m: Mgr, call: Call)
    requires Core(m) && Undecided(m) && Resets(m, call)
    ensures var r := Do(m, call);
            && Undecided(r) && r.log == m.log && IdentityOf(r.session) == IdentityOf(m.session)
            && (call.CallConnect? ==> r.sent == [] && r.base == |m.log|)
            && (!call.CallConnect? ==> r.sent == m.sent && r.base == m.base && r.session.phase == m.session.phase)
  {
    hide Core, ConnectInBackground;
    if call.CallConnect? {
      ConnectGoes(m, call.users);
    }
  }

  // ---- runs ----

  /** Who the client and its server are after a run: as the first handshake response of each connection says. */
  function Remembered(m: Mgr, calls: seq<Call>, before: Identity): Identity
    decreases |calls|
  {
    if calls == [] then before
    else
      var r := Do(m, calls[0]);
      var given := if UnderWay(m) && r.base == m.base <= |r.log|
                   then Given(FirstLogin(r.log[m.base..]), NowMs(m.clock), before) else before;
      Remembered(r, calls[1..], given)
  }

  lemma DoRemembers(m: Mgr, call: Call)
    requires Core(m) && Undecided(m)
    ensures var r := Do(m, call);
            && Undecided(r)
            && IdentityOf(r.session) ==
               if UnderWay(m) && r.base == m.base <= |r.log|
               then Given(FirstLogin(r.log[m.base..]), NowMs(m.clock), IdentityOf(m.session)) else IdentityOf(m.session)
  {
    hide Core, Do, FirstLogin, Given;
    NotGiven(NowMs(m.clock), IdentityOf(m.session));
    if Resets(m, call) {
      ResetIs(m, call);
    } else {
      CallGoes(m, call);
    }
  }

  /** Over any run: server id, own id, server list and the time of login are those the handshake responses gave. */
  lemma {:induction false} IdentityOverRuns(m: Mgr, calls: seq<Call>)
    requires Core(m) && Undecided(m)
    ensures Core(DoAll(m, calls)) && Undecided(DoAll(m, calls))
    ensures IdentityOf(DoAll(m, calls).session) == Remembered(m, calls, IdentityOf(m.session))
    decreases |calls|
  {
    hide Core, Do, FirstLogin, Given, Undecided;
    if calls != [] {
      DoRemembers(m, calls[0]);
      DoCore(m, calls[0]);
      IdentityOverRuns(Do(m, calls[0]), calls[1..]);
    }
  }

  /** Online, the ids are the ones in the first handshake response of the connection, which carries no error. */
  lemma {:induction false} OnlineIds(m: Mgr, calls: seq<Call>)
    requires Core(m) && Undecided(m) && Introduced(m)
    ensures Introduced(DoAll(m, calls))
    decreases |calls|
  {
    hide Core, Do, Introduced, Undecided;
    if calls != [] {
      DoIntroduces(m, calls[0]);
      DoRemembers(m, calls[0]);
      DoCore(m, calls[0]);
      OnlineIds(Do(m, calls[0]), calls[1..]);
    }
  }

  predicate Introduced(m: Mgr) {
    m.session.phase.PhaseOnline? ==>
      && m.base <= |m.log|
      && var answer := FirstLogin(m.log[m.base..]);
         && Welcomes(answer)
         && m.session.server == Uin(GetInt(answer.value, 4), GetInt(answer.value, 8))
         && m.session.user == Uin(GetInt(answer.value, 12), GetInt(answer.value, 16))
  }

  lemma DoIntroduces(m: Mgr, call: Call)
    requires Core(m) && Undecided(m) && Introduced(m)
    ensures Introduced(Do(m, call))
  {
    hide Core, Do, FirstLogin, NowMs;
    var r := Do(m, call);
    if Resets(m, call) {
      ResetIs(m, call);
      if call.CallConnect? {
        StartedOffline(m, call);
      }
    } else {
      CallGoes(m, call);
      assert r.log[m.base..] == m.log[m.base..] + r.log[|m.log|..];
      FirstLoginOn(m.log[m.base..], r.log[|m.log|..]);
    }
  }

  lemma StartedOffline(m: Mgr, call: Call)
    requires Core(m) && Undecided(m) && call.CallConnect? && StartsConnection(m)
    ensures !Do(m, call).session.phase.PhaseOnline?
  {
    hide Core, ConnectInBackground;
    ConnectGoes(m, call.users);
  }

  /** The name and password the game set last, and the directories, made to end in a separator. */
  function Chosen(calls: seq<Call>, before: (bytes, bytes)): (bytes, bytes)
    decreases |calls|
  {
    if calls == [] then before
    else Chosen(calls[1..], if calls[0].CallSetUser? then (calls[0].nickname, calls[0].password) else before)
  }

  function Directories(calls: seq<Call>, before: (bytes, bytes)): (bytes, bytes)
    decreases |calls|
  {
    if calls == [] then before
    else
      Directories(calls[1..],
                  if calls[0].CallSetDirectories? then (Ended(calls[0].outbox), Ended(calls[0].inbox)) else before)
  }

  /** A directory with a slash after it, unless it is empty or has a slash or a backslash there. */
  function Ended(directory: bytes): bytes {
    if directory == [] || directory[|directory| - 1] == 47 || directory[|directory| - 1] == 92 then directory
    else directory + [47]
  }

  lemma DoSettings(m: Mgr, call: Call)
    requires Core(m) && Undecided(m)
    ensures var r := Do(m, call);
            && (r.session.nickname, r.session.password) == Chosen([call], (m.session.nickname, m.session.password))
            && (r.outbox, r.inbox) == Directories([call], (m.outbox, m.inbox))
            && (call.CallSetDirectories? ==> r.outboxDirty)
            && r.session.modern == m.session.modern
  {
    hide Core, Do, Ended;
    assert [call][0] == call && [call][1..] == [];
    if Resets(m, call) {
      ResetSettings(m, call);
    } else {
      CallGoes(m, call);
    }
  }

  lemma ResetSettings(m: Mgr, call: Call)
    requires Core(m) && Undecided(m) && Resets(m, call)
    ensures var r := Do(m, call);
            && (r.session.nickname, r.session.password) ==
               (if call.CallSetUser? then (call.nickname, call.password) else (m.session.nickname, m.session.password))
            && (r.outbox, r.inbox) ==
               (if call.CallSetDirectories? then (Ended(call.outbox), Ended(call.inbox)) else (m.outbox, m.inbox))
            && (call.CallSetDirectories? ==> r.outboxDirty)
            && r.session.modern == m.session.modern
  {
    hide Core, ConnectInBackground;
    if call.CallConnect? {
      ConnectGoes(m, call.users);
    }
  }

  /** Over any run they are the ones in effect. */
  lemma {:induction false} SettingsOverRuns(m: Mgr, calls: seq<Call>)
    requires Core(m) && Undecided(m)
    ensures var r := DoAll(m, calls);
            && (r.session.nickname, r.session.password) == Chosen(calls, (m.session.nickname, m.session.password))
            && (r.outbox, r.inbox) == Directories(calls, (m.outbox, m.inbox))
            && r.session.modern == m.session.modern
    decreases |calls|
  {
    hide Core, Do, Ended, Undecided;
    if calls != [] {
      assert [calls[0]][0] == calls[0] && [calls[0]][1..] == [];
      DoSettings(m, calls[0]);
      DoRemembers(m, calls[0]);
      DoCore(m, calls[0]);
      SettingsOverRuns(Do(m, calls[0]), calls[1..]);
    }
  }

  lemma DoSpeaks(m: Mgr, call: Call)
    requires Core(m) && Undecided(m)
    ensures var r := Do(m, call);
            r.sent != [] ==>
              if m.sent != [] then r.sent[0] == m.sent[0]
              else m.session.phase.PhaseConnecting? && r.sent[0] == Greeting(m)
  {
    hide Core, Do, Learns;
    if Resets(m, call) {
      ResetIs(m, call);
    } else {
      CallGoes(m, call);
    }
  }

  /** What has been sent opens with the greeting of the client as it stood, connecting, before one of the calls of the
      run; or it was opened before the run. */
  lemma {:induction false} OpenedOverRuns(m: Mgr, calls: seq<Call>) returns (k: int)
    requires Core(m) && Undecided(m) && DoAll(m, calls).sent != []
    ensures -1 <= k < |calls|
    ensures k < 0 ==> m.sent != [] && DoAll(m, calls).sent[0] == m.sent[0]
    ensures k >= 0 ==> var w := DoAll(m, calls[..k]);
                       w.session.phase.PhaseConnecting? && DoAll(m, calls).sent[0] == Greeting(w)
    decreases |calls|
  {
    hide Core, Do, Undecided, Greeting;
    k := -1;
    if calls != [] {
      var n := Do(m, calls[0]);
      DoSpeaks(m, calls[0]);
      DoRemembers(m, calls[0]);
      DoCore(m, calls[0]);
      k := OpenedOverRuns(n, calls[1..]);
      if k >= 0 {
        assert calls[..k + 1][0] == calls[0] && calls[..k + 1][1..] == calls[1..][..k];
        k := k + 1;
      } else if m.sent == [] {
        k := 0;
        assert calls[..0] == [];
      }
    }
  }

  /** So the first packet a server reads off the wire, after any run on a client that had sent nothing, logs in
      with the name, the password, the id and the version that stood when it was written, under the next ticket. */
  lemma GreetingOverRuns(m: Mgr, calls: seq<Call>) returns (k: int)
    requires Core(m) && Undecided(m) && m.sent == []
    requires AllFit(DoAll(m, calls).sent) && Split(DoAll(m, calls).sock.wire).0 != []
    ensures 0 <= k < |calls|
    ensures var w := DoAll(m, calls[..k]);
            && w.session.phase.PhaseConnecting?
            && Split(DoAll(m, calls).sock.wire).0[0] == Greeting(w)
            && (w.session.nickname, w.session.password)
               == Chosen(calls[..k], (m.session.nickname, m.session.password))
            && w.session.user == Remembered(m, calls[..k], IdentityOf(m.session)).user
  {
    hide Core, DoAll, Undecided, Split, Build, Remembered, Chosen;
    var r := DoAll(m, calls);
    var j := Guarantees.WireOverRuns(m, calls);
    assert j > 0 ==> r.sent[..j][0] == r.sent[0];
    FirstOnWire(r.sent[..j]);
    assert OnWireAll(r.sent[..j]) != [];
    assert r.sent != [];
    k := OpenedOverRuns(m, calls);
    SettingsOverRuns(m, calls[..k]);
    IdentityOverRuns(m, calls[..k]);
  }

  lemma FirstOnWire(ps: seq<Packet>)
    requires ps == [] || ps[0].Handshake?
    ensures OnWireAll(ps) != [] ==> ps != [] && OnWireAll(ps)[0] == ps[0]
  {
  }
}
