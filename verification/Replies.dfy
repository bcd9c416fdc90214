/** Every call returns exactly what the answer at hand says: nothing made up, and nothing kept back. */
module Replies {
  import opened Bytes
  import opened Uins
  import opened Protocol
  import opened Sockets
  import opened Clock
  import opened Tickets
  import opened Watching
  import opened Client
  import opened Connection
  import opened Api
  import opened Acts
  import opened Sound
  import opened LockStepRun
  import opened Answers
  import Ledger

  // ---- pumping while a question is pending ----

  /** The question is on the table, and somebody waits for its answer. */
  predicate Open(t: Tickets, ticket: int32) {
    ticket in t.table && t.table[ticket].kind != Abandoned
  }

  lemma StepOpen(m: Mgr, ticket: int32)
    requires Open(m.tickets, ticket) && m.session.phase.PhaseOnline?
    ensures var r := AfterStep(m);
            if Step(m).Dropped? then r.session.phase.PhaseIdle? && r.tickets.table == map[]
            else r.session.phase.PhaseOnline? && r.sock.state == m.sock.state && Open(r.tickets, ticket)
  {
    hide Frame, ReadHeader, LowByte, Send, ParseUser, ParseMessage, Spool.SpoolPray, Update, AllOffline;
    match Frame(m.sock.input, m.tickets.table)
    case Whole(size, reply) =>
      var h, body := ReadHeader(m.sock.input), m.sock.input[HEADER_SIZE..size];
      if reply {
        RespondKind(m.tickets.table[h.ticket], h, body);
      } else if LowByte(h.kind) != HANDSHAKE_RESPONSE && !Drops(m, h) {
        PacketStays(m, h, body);
      }
    case _ =>
  }

  lemma RespondKind(tr: Transaction, h: Header, body: bytes)
    requires 0 <= h.furtherData && |body| == tr.fixedExtra + h.furtherData
    ensures Respond(tr, h, body).kind == tr.kind && Respond(tr, h, body).done
  {
    hide ParseUser, GetInt;
  }

  lemma PacketStays(m: Mgr, h: Header, body: bytes)
    requires !Drops(m, h)
    ensures var r := HandlePacket(m, h, body); r.sock.state == m.sock.state && r.session == m.session
  {
    hide LowByte, Build, ParseUser, ParseMessage, Spool.SpoolPray, Update, WriteSock;
    var n := m.(vsn := NextVSN(m.vsn));
    if LowByte(h.kind) == VIRTUAL_CONNECT {
      Ledger.DeadDrops(n, Accepting(m, h));
    }
  }

  lemma {:induction false} ProcessOpen(m: Mgr, ticket: int32)
    requires Open(m.tickets, ticket) && m.session.phase.PhaseOnline?
    ensures var r := Process(m);
            if r.session.phase.PhaseOnline? then r.sock.state == m.sock.state && Open(r.tickets, ticket)
            else r.session.phase.PhaseIdle? && r.tickets.table == map[]
    decreases |m.sock.input|
  {
    hide Step, Open;
    StepOpen(m, ticket);
    if Step(m).Continue? {
      ProcessOpen(Step(m).m, ticket);
    }
  }

  /** A pump either leaves the client online with the question still on the table, or the connection is lost and the
      table empty. */
  lemma PumpOpen(m: Mgr, ticket: int32)
    requires Core(m) && Open(m.tickets, ticket) && IsOnline(m)
    ensures var p := Pump(m);
            if IsOnline(p) then Open(p.tickets, ticket) else ticket !in p.tickets.table
  {
    hide Core, Process, PumpSock;
    var n := m.(sock := PumpSock(m.sock));
    PumpSockCore(m);
    ProcessOpen(n, ticket);
  }

  /** An open question has an answer on record exactly if it is done. */
  lemma OpenIsDone(t: Tickets, ticket: int32)
    requires TicketsOk(t) && Open(t, ticket)
    ensures t.table[ticket].done <==> ticket in t.answers
  {
    assert Faithful(t, ticket);
  }

  /** The wait ends with the answer exactly if there is one and the client is still online. */
  lemma {:induction false} WaitForDecides(m: Mgr, ticket: int32, deadline: nat)
    requires m.clock < deadline + TWO_31 && deadline <= m.clock + TWO_31
    requires Core(m) && AnswersOk(m) && Open(m.tickets, ticket) && IsOnline(m)
    requires WaitFor(m, ticket, deadline).0.tickets.taken <= CYCLE
    ensures var (r, result) := WaitFor(m, ticket, deadline);
            && (result.Some? <==> IsOnline(r) && ticket in r.tickets.answers)
            && (result.None? && IsOnline(r) ==> deadline <= r.clock)
    decreases deadline - m.clock
  {
    hide Core, TicketsOk, Pump, TimeAfter, NowMs, Grows, QueriesOk, Open, Start;
    PumpTakes(m);
    TimeAfterReal(m.clock, deadline, 0);
    var p := Pump(m);
    PumpOpen(m, ticket);
    PumpCore(m);
    ForgetTakes(p.tickets, ticket);
    if IsOnline(p) {
      OpenIs(p.tickets, ticket);
      if !p.tickets.table[ticket].done && !TimeAfter(NowMs(p.clock), NowMs(deadline)) {
        StillBefore(p.clock, deadline);
        WaitForTakes(Wait(p), ticket, deadline);
        PumpFollows(m);
        SameAnswers(p, Wait(p));
        SameCoreKeeps(p, Wait(p));
        WaitForDecides(Wait(p), ticket, deadline);
      } else {
        PumpFollows(m);
      }
      OpenIsDone(p.tickets, ticket);
    }
  }

  lemma OpenIs(t: Tickets, ticket: int32)
    requires Open(t, ticket)
    ensures ticket in t.table
  {
  }

  // ---- the calls that wait ----

  lemma AskedIsOpen(m: Mgr, kind: Kind, fixedExtra: nat, subject: bytes, p: Packet)
    requires kind != Abandoned && Core(m) && IsOnline(m) && !p.Handshake?
    ensures var s := Send(Asked(m, kind, fixedExtra, subject), p);
            Core(s) && Open(s.tickets, s.tickets.next) && s.session == m.session
  {
    hide Core, Send;
    var a := Asked(m, kind, fixedExtra, subject);
    TicketsCore(m, a.tickets);
    OnlineTalks(m);
    SendCore(a, p);
    SendKeeps(a, p);
  }

  lemma OnlineTalks(m: Mgr)
    requires IsOnline(m)
    ensures Talking(m)
  {
  }

  /** What IsUserOnline goes by without asking. */
  lemma OnlineKnown(m: Mgr, user: bytes)
    ensures var (r, yes) := IsUserOnline(m, user);
            && (Parse(user).None? || !IsOnline(m) ==> r == m && !yes)
            && (Parse(user).Some? && IsOnline(m) && Parse(user).value == m.session.user ==> r == m && yes)
            && (Parse(user).Some? && IsOnline(m) && Parse(user).value != m.session.user && user in m.watch.presence ==>
                  r == m && (yes <==> KnownOnline(m.watch, user)))
  {
    hide Parse, Start, Send, WaitFor, Abandon;
  }

  /** And asking, it says yes exactly if the client is still online and the response to that very question carries an
      address or sets E. */
  lemma OnlineReplies(m: Mgr, user: bytes)
    requires Core(m) && AnswersOk(m) && Parse(user).Some? && IsOnline(m) && Parse(user).value != m.session.user
             && user !in m.watch.presence
    requires IsUserOnline(m, user).0.tickets.taken <= CYCLE
    ensures var (r, yes) := IsUserOnline(m, user);
            var t, ticket := r.tickets, NextTicket(m.tickets).next;
            && Asks(t, ticket, ConnectionDetail, 0, user)
            && (yes <==>
                  && IsOnline(r) && ticket in t.answers
                  && var h := t.answers[ticket].header; (h.a != 0 && h.b != 0) || h.e != 0)
            && (yes ==> t.answers[ticket].header.ticket == ticket)
            && (IsOnline(r) && ticket !in t.answers ==> m.clock + 5000 <= r.clock)
  {
    hide Core, TicketsOk, Start, WriteSock, Build, Parse, WaitFor, Abandon, Grows, QueriesOk, NextTicket, Open, Send;
    var a := Asked(m, ConnectionDetail, 0, user);
    var ticket := a.tickets.next;
    var p := GetConnectionDetail(m.session.server, Parse(user).value, ticket);
    var s := Send(a, p);
    StartTicket(m.tickets, ConnectionDetail, 0, user);
    StartTakes(m.tickets, ConnectionDetail, 0, user);
    SendKeeps(a, p);
    WriteAnswers(a, p);
    ForgetTakes(s.tickets, ticket);
    WaitForTakes(s, ticket, s.clock + USER_ONLINE_TIMEOUT);
    AskFollows(m, ConnectionDetail, 0, user);
    AskedIsOpen(m, ConnectionDetail, 0, user, p);
    if s.sock.state.Connected? {
      SameFollows(m, a, s);
      WaitForDecides(s, ticket, s.clock + USER_ONLINE_TIMEOUT);
      WaitForFollows(s, ticket, s.clock + USER_ONLINE_TIMEOUT);
      AskStays(s.tickets, IsUserOnline(m, user).0.tickets, ticket);
    }
  }

  /** A history upload is confirmed exactly if the client is still online and a response to that very upload came. */
  lemma HistoryReplies(m: Mgr, data: bytes)
    requires Core(m) && AnswersOk(m) && IsOnline(m) && data != []
    requires FeedHistory(m, data).0.tickets.taken <= CYCLE
    ensures var (r, yes) := FeedHistory(m, data);
            var t, ticket := r.tickets, NextTicket(m.tickets).next;
            && Asks(t, ticket, History, 0, data)
            && (yes <==> IsOnline(r) && ticket in t.answers)
            && (yes ==> t.answers[ticket].header.ticket == ticket)
            && (IsOnline(r) && ticket !in t.answers ==> m.clock + 8000 <= r.clock)
  {
    hide Core, TicketsOk, Start, WriteSock, Build, WaitFor, Abandon, Grows, QueriesOk, NextTicket, Open, Send,
         AllOffline;
    var a := Asked(m, History, 0, data);
    var ticket := a.tickets.next;
    var p := SendHistory(m.session.server, m.session.user, ticket, data);
    var s := Send(a, p);
    StartTicket(m.tickets, History, 0, data);
    StartTakes(m.tickets, History, 0, data);
    SendKeeps(a, p);
    WriteAnswers(a, p);
    ForgetTakes(s.tickets, ticket);
    WaitForTakes(s, ticket, s.clock + HISTORY_TIMEOUT);
    AskFollows(m, History, 0, data);
    AskedIsOpen(m, History, 0, data, p);
    if s.sock.state.Connected? {
      SameFollows(m, a, s);
      WaitForDecides(s, ticket, s.clock + HISTORY_TIMEOUT);
      WaitForFollows(s, ticket, s.clock + HISTORY_TIMEOUT);
      AskStays(s.tickets, FeedHistory(m, data).0.tickets, ticket);
    }
  }

  // ---- the calls that poll ----

  /** The name a response gives: that of the user its details are of, if it carries details. */
  function NameIn(a: Answer): bytes {
    if a.header.furtherData <= 0 then []
    else
      match ParseUser(a.body)
      case Some(u) => u.nickName
      case None => []
  }

  /** The answer there is to a question still on the table; none means it is waited for. */
  function AnswerTo(t: Tickets, ticket: int32): Option<Answer> {
    if ticket in t.answers then Some(t.answers[ticket]) else None
  }

  /** A call for a name already asked for returns what the answer says, if it is there after a pump; it asks to be
      called again exactly while it is not, the question stands and there is time; and else it returns nothing. */
  lemma NameReplies(m: Mgr, user: bytes)
    requires AnswersOk(m) && user in m.queries.fetches && Parse(user).Some?
    requires FetchUserData(m, user).m.tickets.taken <= CYCLE
    ensures var c, p, q := FetchUserData(m, user), Pump(m), m.queries.fetches[user];
            if q.ticket !in p.tickets.table then c.value == [] && !c.block
            else
              match AnswerTo(p.tickets, q.ticket)
              case Some(a) => c.value == NameIn(a) && !c.block
              case None => c.value == [] && (c.block <==> !TimeAfter(NowMs(p.clock), q.deadline))
  {
    hide TicketsOk, Pump, TimeAfter, Abandon, AfterPoll, NowMs, Grows, Decodes, ParseUser;
    var p, ticket := Pump(m), m.queries.fetches[user].ticket;
    ForgetTakes(p.tickets, ticket);
    PumpFollows(m);
    RememberTickets(SetFetches(Polling(p, ticket), p.queries.fetches - {user}), user, []);
    QueriesGrow(m.queries, m.tickets, p.tickets);
    DoneIsAnswered(p.tickets, ticket);
    if Poll(p.tickets, ticket).Finished? {
      PolledIsFaithful(p.tickets, ticket);
      NameGiven(p.tickets.answers[ticket], p.tickets.asks[ticket], Poll(p.tickets, ticket).result);
    }
  }

  lemma DoneIsAnswered(t: Tickets, ticket: int32)
    requires TicketsOk(t)
    ensures ticket in t.table ==> (t.table[ticket].done <==> ticket in t.answers)
  {
    if ticket in t.table {
      assert Faithful(t, ticket);
    }
  }

  lemma NameGiven(answer: Answer, ask: Ask, tr: Transaction)
    requires ask.kind == ClientInfo && ask.fixedExtra == 0 && Decodes(answer, ask, tr)
    ensures (if tr.success then tr.resultString else []) == NameIn(answer)
  {
    hide ParseUser;
    assert answer.body[0..] == answer.body;
  }

  /** The same of a random user, */
  lemma RandomReplies(m: Mgr)
    requires AnswersOk(m) && m.queries.random.ticket != 0
    requires FetchRandomUser(m).m.tickets.taken <= CYCLE
    ensures var c, p, q := FetchRandomUser(m), Pump(m), m.queries.random;
            if q.ticket !in p.tickets.table then c.value == [] && !c.block
            else
              match AnswerTo(p.tickets, q.ticket)
              case Some(a) =>
                !c.block && c.value == if a.header.e == 1 then Uin(a.header.c, a.header.d).ToString() else []
              case None => c.value == [] && (c.block <==> !TimeAfter(NowMs(p.clock), q.deadline))
  {
    hide TicketsOk, Pump, TimeAfter, Abandon, AfterPoll, NowMs, Grows, Decodes, Uin.ToString;
    var p, ticket := Pump(m), m.queries.random.ticket;
    ForgetTakes(p.tickets, ticket);
    PumpFollows(m);
    QueriesGrow(m.queries, m.tickets, p.tickets);
    DoneIsAnswered(p.tickets, ticket);
    if Poll(p.tickets, ticket).Finished? {
      PolledIsFaithful(p.tickets, ticket);
      RandomGiven(p.tickets.answers[ticket], p.tickets.asks[ticket], Poll(p.tickets, ticket).result);
    }
  }

  lemma RandomGiven(answer: Answer, ask: Ask, tr: Transaction)
    requires ask.kind == RandomUser && ask.fixedExtra == 0 && Decodes(answer, ask, tr)
    ensures tr.success <==> answer.header.e == 1
    ensures tr.success ==> tr.resultUin == Uin(answer.header.c, answer.header.d)
  {
  }

  /** and of the number of users online. */
  lemma StatusReplies(m: Mgr)
    requires AnswersOk(m) && m.queries.status.ticket != 0 && IsOnline(m)
    requires GetStatus(m).m.tickets.taken <= CYCLE
    ensures var c, p, q := GetStatus(m), Pump(m), m.queries.status;
            && (c.block <==> c.value.None?)
            && if q.ticket !in p.tickets.table then c.value.Some? && c.value.value.usersOnline == 0
               else
                 match AnswerTo(p.tickets, q.ticket)
                 case Some(a) =>
                   |a.body| >= 16 && c.value.Some? && c.value.value.usersOnline == GetInt(a.body, 4)
                 case None =>
                   && (c.block <==> !TimeAfter(NowMs(p.clock), q.deadline))
                   && (!c.block ==> c.value.value.usersOnline == 0)
  {
    hide TicketsOk, Pump, TimeAfter, Abandon, AfterPoll, NowMs, Grows, Decodes, GetInt;
    var p, ticket := Pump(m), m.queries.status.ticket;
    ForgetTakes(p.tickets, ticket);
    PumpFollows(m);
    QueriesGrow(m.queries, m.tickets, p.tickets);
    DoneIsAnswered(p.tickets, ticket);
    if Poll(p.tickets, ticket).Finished? {
      PolledIsFaithful(p.tickets, ticket);
      StatusGiven(p.tickets.answers[ticket], p.tickets.asks[ticket], Poll(p.tickets, ticket).result);
    }
  }

  lemma StatusGiven(answer: Answer, ask: Ask, tr: Transaction)
    requires ask.kind == Status && ask.fixedExtra == 16 && Decodes(answer, ask, tr)
    ensures |answer.body| >= 16 && tr.success && |tr.resultInts| == 4 && tr.resultInts[1] == GetInt(answer.body, 4)
  {
    hide GetInt;
  }
}
