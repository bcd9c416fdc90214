/** What the caller is told when a connection does not come about, or is lost. */
module Failures {
  import opened Bytes
  import opened Uins
  import opened Protocol
  import opened Sockets
  import opened Clock
  import opened Tickets
  import opened Watching
  import opened Client
  import opened Connection
  import opened Api
  import opened Sound
  import opened LockStepRun
  import opened Reports
  import opened Logins
  import Replies
  import Requests

  /** Offline, with the socket's error negated: what a lost or failed connection is reported as. */
  predicate SaysLost(m: Mgr) {
    m.session.lastError == ErrorOffline && m.session.rawError == ToInt32(-(m.sock.lastError as int))
  }

  /** The login was answered with a refusal, and its code is what the caller is told. */
  predicate SaysRefused(m: Mgr) {
    m.base <= |m.log|
    && var answer := FirstLogin(m.log[m.base..]);
       && answer.Some? && !Welcomes(answer) && |answer.value| >= 48 && m.session.rawError == answer.value[1]
       && m.session.lastError == MapHandshakeError(answer.value[1])
  }

  /** The codes a server refuses with: 1, already logged on; 3 and 6, name or password; 12, too many users; 14, too
      old a version; 0, 7, 13 and 15, as if offline; 16, unknown; and anything else is an internal error. */
  lemma RefusalCodes(code: byte)
    ensures MapHandshakeError(code) == ErrorAlreadyLoggedIn <==> code == 1
    ensures MapHandshakeError(code) == ErrorBadUser <==> code in {3, 6}
    ensures MapHandshakeError(code) == ErrorTooManyUsers <==> code == 12
    ensures MapHandshakeError(code) == ErrorNeedsUpdate <==> code == 14
    ensures MapHandshakeError(code) == ErrorOffline <==> code in {0, 7, 13, 15}
    ensures MapHandshakeError(code) == ErrorUnknown <==> code == 16
    ensures MapHandshakeError(code) == ErrorInternal <==> code !in {0, 1, 3, 6, 7, 12, 13, 14, 15, 16}
    ensures MapHandshakeError(code) != ErrorOk
  {
  }

  /** Processing input fails a login only by refusal and gives a connection up only as lost; while the login is awaited
      the socket stays as it was. */
  predicate Telling(m: Mgr, r: Mgr) {
    && (r.session.phase.PhaseFailed? ==> SaysRefused(r))
    && (r.session.phase.PhaseIdle? ==> SaysLost(r))
    && (UnderWay(r) ==> r.sock.state == m.sock.state && r.session.deadline == m.session.deadline)
  }

  lemma TellingOn(m: Mgr, n: Mgr, r: Mgr)
    requires Telling(m, n) && Telling(n, r) && (UnderWay(r) ==> UnderWay(n))
    ensures Telling(m, r)
  {
  }

  lemma StepTells(m: Mgr)
    requires Undecided(m) && !m.session.phase.PhaseConnecting? && !m.session.phase.PhaseIdle?
    requires m.session.phase.PhaseFailed? ==> SaysRefused(m)
    ensures Telling(m, AfterStep(m)) && (UnderWay(AfterStep(m)) ==> UnderWay(m))
    ensures AfterStep(m).session.phase.PhaseIdle? <==> Step(m).Dropped?
  {
    hide Frame, Answered, HandleHandshake, HandlePacket, Drops, ReadHeader, LowByte, FirstLogin, SaysRefused, Accepting,
         ConnectionLost, Client.Consumed, ToInt32;
    match Frame(m.sock.input, m.tickets.table)
    case Whole(size, reply) =>
      var h, body := ReadHeader(m.sock.input), m.sock.input[HEADER_SIZE..size];
      if reply {
        ConsumedTells(m, m.(tickets := Answered(m.tickets, h, body)), size, true);
      } else if LowByte(h.kind) == HANDSHAKE_RESPONSE {
        LoginSize(m, size);
        PacketInts(m.sock.input, size);
        AnswerTells(m, size);
      } else if Drops(m, h) {
        DropsLoses(m, h, body);
        LostTells(Send(m.(vsn := NextVSN(m.vsn)), Accepting(m, h)));
      } else {
        PacketStays(m, h, body);
        ConsumedTells(m, HandlePacket(m, h, body), size, false);
      }
    case Broken => LostTells(m);
    case NeedMore =>
  }

  lemma LostTells(m: Mgr)
    ensures ConnectionLost(m).session.phase.PhaseIdle? && SaysLost(ConnectionLost(m))
  {
    hide ToInt32, AllOffline;
  }

  /** A packet that leaves session and socket as they were is consumed. */
  lemma ConsumedTells(m: Mgr, n: Mgr, size: nat, reply: bool)
    requires size <= |m.sock.input| && n.session == m.session && n.sock.state == m.sock.state && n.base == m.base
    requires n.log == m.log && n.sock.input == m.sock.input && m.base <= |m.log|
    requires m.session.phase.PhaseFailed? ==> SaysRefused(m)
    ensures var r := Client.Consumed(n, reply, size);
            && r.session == m.session && r.sock.state == m.sock.state
            && (m.session.phase.PhaseFailed? ==> SaysRefused(r))
  {
    hide FirstLogin, Welcomes, MapHandshakeError;
    LogAppends(m, Dispatch(reply, m.sock.input[..size]));
  }

  /** A handshake response is: a refusal is told as such, if one is awaited. */
  lemma AnswerTells(m: Mgr, size: nat)
    requires Undecided(m) && 48 <= size <= |m.sock.input| && m.sock.input[0] == 0x0A
    requires m.session.phase.PhaseFailed? ==> SaysRefused(m)
    ensures var r := Client.Consumed(HandleHandshake(m, ReadHeader(m.sock.input), m.sock.input[..size]), false, size);
            && (r.session.phase.PhaseFailed? ==> SaysRefused(r) || !m.session.phase.PhaseAwait?)
            && (!m.session.phase.PhaseAwait? ==> r.session == m.session && r.sock.state == m.sock.state)
            && (m.session.phase.PhaseAwait? ==> r.session.phase.PhaseFailed? || r.session.phase.PhaseOnline?)
            && (m.session.phase.PhaseFailed? ==> SaysRefused(r))
  {
    hide HandleHandshake, FirstLogin, Welcomes, MapHandshakeError, ReadHeader;
    LogAppends(m, Dispatch(false, m.sock.input[..size]));
    HandshakeTells(m, size);
  }

  lemma PacketStays(m: Mgr, h: Header, body: bytes)
    requires !Drops(m, h)
    ensures var r := HandlePacket(m, h, body); r.sock.state == m.sock.state && r.session == m.session
  {
    Replies.PacketStays(m, h, body);
  }

  lemma HandshakeTells(m: Mgr, size: nat)
    requires 48 <= size <= |m.sock.input|
    ensures var raw := m.sock.input[..size];
            var r := HandleHandshake(m, ReadHeader(m.sock.input), raw);
            if !m.session.phase.PhaseAwait? then r == m
            else if Welcomes(Some(raw)) then r.session.phase.PhaseOnline?
            else r.session.phase.PhaseFailed? && r.session.rawError == raw[1]
                 && r.session.lastError == MapHandshakeError(raw[1])
  {
    hide SendRegistrations, ServerList.Announced, MapHandshakeError, GetInt, NowMs;
    var raw, rest := m.sock.input[..size], m.sock.input[size..];
    assert m.sock.input == raw + rest;
    GetIntPrefix(raw, rest, 4);
    RegistrationsSession(Entered(m, ReadHeader(m.sock.input), raw), m.watch.usersForWWR);
  }

  lemma {:induction false} ProcessTells(m: Mgr)
    requires Undecided(m) && !m.session.phase.PhaseConnecting? && !m.session.phase.PhaseIdle?
    requires m.session.phase.PhaseFailed? ==> SaysRefused(m)
    ensures Telling(m, Process(m)) && (UnderWay(Process(m)) ==> UnderWay(m))
    decreases |m.sock.input|
  {
    hide Step, Telling, Undecided, SaysRefused;
    StepTells(m);
    StepLearns(m);
    LearnsUndecided(m, AfterStep(m));
    if Step(m).Continue? {
      TellingIs(m, AfterStep(m));
      ProcessTells(Step(m).m);
      TellingOn(m, Step(m).m, Process(m));
    }
  }

  lemma TellingIs(m: Mgr, r: Mgr)
    requires Telling(m, r)
    ensures r.session.phase.PhaseFailed? ==> SaysRefused(r)
  {
  }

  /** A pump of a connection under way: if it is still under way its socket is, and there is time; if it failed, it was
      refused, or ran out of time, or its socket failed; if it went idle, it was lost. The caller is told which. */
  lemma ConnectingTells(m: Mgr)
    requires Core(m) && Undecided(m) && UnderWay(m)
    ensures var r := Pump(m);
            && (UnderWay(r) ==> Alive(r.sock) && !TimeAfter(NowMs(m.clock), m.session.deadline))
            && (r.session.phase.PhaseFailed? ==>
                  || SaysRefused(r)
                  || (SaysLost(r) && !Alive(r.sock))
                  || (r.session.lastError == ErrorOffline && r.session.rawError == 0
                      && TimeAfter(NowMs(m.clock), m.session.deadline)))
            && (r.session.phase.PhaseIdle? ==> SaysLost(r))
            && (r.session.phase.PhaseOnline? ==> r.session.lastError == ErrorOk && r.session.rawError == 0)
  {
    hide Core, Process, PumpSock, LoginStep, TimeAfter, NowMs, SaysRefused, SaysLost, AwaitStep, Undecided;
    var l := LoginStep(m);
    LoginTells(m);
    LoginStepCore(m);
    LoginGoes(m);
    LearnsUndecided(m, l);
    AwaitTells(l);
    AwaitStepCore(l);
    DeadlineTells(AwaitStep(l));
    PumpCore(m);
    OnlineSays(Pump(m));
  }

  lemma OnlineSays(m: Mgr)
    requires Core(m)
    ensures m.session.phase.PhaseOnline? ==> m.session.lastError == ErrorOk && m.session.rawError == 0
  {
  }

  lemma LoginTells(m: Mgr)
    requires Core(m) && UnderWay(m)
    ensures var l := LoginStep(m);
            && (l.session.phase.PhaseFailed? ==> SaysLost(l) && !Alive(l.sock))
            && (l.session.phase.PhaseConnecting? ==> Alive(l.sock)) && l.session.deadline == m.session.deadline
            && (UnderWay(l) || l.session.phase.PhaseFailed?) && l.clock == m.clock
  {
    hide PollSock, Build, NextTicket, ToInt32, SockOk, WatchOk, Concat, BuildAll, WriteSock;
    PollStates(m.sock);
    Requests.SendStates(m.(sock := PollSock(m.sock)), Login(m));
    Requests.SendStates(m.(sock := PollSock(m.sock), tickets := NextTicket(m.tickets)), Login(m));
  }

  lemma AwaitTells(m: Mgr)
    requires Core(m) && Undecided(m)
    ensures var r := AwaitStep(m);
            if !m.session.phase.PhaseAwait? then r == m
            else
              && (r.session.phase.PhaseFailed? ==> SaysRefused(r) || (SaysLost(r) && !Alive(r.sock)))
              && (r.session.phase.PhaseIdle? ==> SaysLost(r))
              && (UnderWay(r) ==> Alive(r.sock) && r.session.deadline == m.session.deadline)
              && !r.session.phase.PhaseConnecting? && r.clock == m.clock
  {
    hide Core, Process, PumpSock, SaysRefused, ToInt32;
    if m.session.phase.PhaseAwait? {
      var n := m.(sock := PumpSock(m.sock));
      SameUndecided(m, n);
      PumpSockCore(m);
      ProcessTells(n);
      ProcessLearns(n);
      ProcessCore(n);
      ProcessKeepsDead(n);
    }
  }

  lemma DeadlineTells(m: Mgr)
    ensures var r := DeadlineStep(m);
            if UnderWay(m) && TimeAfter(NowMs(m.clock), m.session.deadline) then
              r.session.phase.PhaseFailed? && r.session.lastError == ErrorOffline && r.session.rawError == 0
              && !Alive(r.sock)
            else r == m
  {
    hide TimeAfter, NowMs;
  }

  /** A pump online leaves the client online on a live socket, or lost. */
  lemma OnlineTells(m: Mgr)
    requires Core(m) && Undecided(m) && IsOnline(m)
    ensures var r := Pump(m);
            IsOnline(r) || (r.session.phase.PhaseIdle? && SaysLost(r) && !Alive(r.sock))
  {
    hide Core, Process, PumpSock, ToInt32;
    var n := m.(sock := PumpSock(m.sock));
    SameUndecided(m, n);
    PumpSockCore(m);
    ProcessTells(n);
    ProcessStays(n);
    ProcessCore(n);
    IdleIsDead(Process(n));
  }

  lemma IdleIsDead(m: Mgr)
    requires Core(m)
    ensures m.session.phase.PhaseIdle? ==> !Alive(m.sock)
  {
  }

  lemma {:induction false} ProcessStays(m: Mgr)
    requires m.session.phase.PhaseOnline?
    ensures var r := Process(m);
            if r.session.phase.PhaseOnline? then r.sock.state == m.sock.state else r.session.phase.PhaseIdle?
    decreases |m.sock.input|
  {
    hide Step;
    StepStays(m);
    if Step(m).Continue? {
      ProcessStays(Step(m).m);
    }
  }

  lemma StepStays(m: Mgr)
    requires m.session.phase.PhaseOnline?
    ensures var r := AfterStep(m);
            if Step(m).Dropped? then r.session.phase.PhaseIdle?
            else r.session.phase.PhaseOnline? && r.sock.state == m.sock.state
  {
    hide Frame, Answered, HandlePacket, Drops, ReadHeader, LowByte, AllOffline, Accepting;
    match Frame(m.sock.input, m.tickets.table)
    case Whole(size, reply) =>
      var h, body := ReadHeader(m.sock.input), m.sock.input[HEADER_SIZE..size];
      if Drops(m, h) {
        DropsLoses(m, h, body);
      } else {
        PacketStays(m, h, body);
      }
    case _ =>
  }
}
