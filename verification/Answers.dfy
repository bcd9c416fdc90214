/** Every answer the game gets is the answer to its own question. */
module Answers {
  import opened Bytes
  import opened Uins
  import opened Protocol
  import opened Sockets
  import opened Clock
  import opened Tickets
  import opened Watching
  import opened Client
  import opened Connection
  import opened Api
  import opened Acts
  import opened LockStepRun
  import opened Sound

  /** Each pending query waits under the ticket its own question took. */
  predicate QueriesOk(q: Queries, t: Tickets) {
    && (forall u | u in q.fetches :: Asks(t, q.fetches[u].ticket, ClientInfo, 0, u))
    && (q.random.ticket != 0 ==> Asks(t, q.random.ticket, RandomUser, 0, []))
    && (q.status.ticket != 0 ==> Asks(t, q.status.ticket, Status, 16, []))
  }

  predicate AnswersOk(m: Mgr) {
    TicketsOk(m.tickets) && QueriesOk(m.queries, m.tickets) && m.base <= |m.log|
  }

  /** Tickets are only ever taken afresh: what was asked stays on record, a ticket once gone stays gone, and
      an answer that is new came in on a connection as late as the earlier state's or later. */
  ghost predicate Grows(t: Tickets, u: Tickets) {
    && t.taken <= u.taken && t.connection <= u.connection
    && (forall k | k in u.answers ::
          (k in t.answers && u.answers[k] == t.answers[k]) || t.connection <= u.answers[k].connection)
    && (forall k | k in t.asks :: k in u.asks && u.asks[k] == t.asks[k])
    && (forall k: int32 | Taken(t, k) && k in u.table :: k in t.table)
    && (forall k: int32 | Dead(t, k) && k in u.answers :: k in t.answers && u.answers[k] == t.answers[k])
  }

  lemma GrowsOn(t: Tickets, u: Tickets, v: Tickets)
    requires Grows(t, u) && Grows(u, v)
    ensures Grows(t, v)
  {
    forall k: int32 | Taken(t, k) && k in v.table ensures k in t.table {
      assert Taken(u, k);
    }
  }

  lemma QueriesGrow(q: Queries, t: Tickets, u: Tickets)
    requires QueriesOk(q, t) && Grows(t, u)
    ensures QueriesOk(q, u)
  {
  }

  lemma DeadGrows(t: Tickets, u: Tickets, ticket: int32)
    requires Grows(t, u) && Dead(t, ticket)
    ensures Dead(u, ticket)
  {
  }

  // ---- primitives ----

  lemma StartGrows(t: Tickets, kind: Kind, fixedExtra: nat, subject: bytes)
    requires TicketsOk(t) && t.taken < CYCLE && kind != Abandoned
    ensures var u := Start(t, kind, fixedExtra, subject);
            && TicketsOk(u) && Grows(t, u) && u.taken == t.taken + 1
            && u.next != 0 && Asks(u, u.next, kind, fixedExtra, subject)
  {
    hide TicketsOk, TicketAt, NextTicket;
    FreshTicket(t);
    NextTicketKeeps(t);
    StartKeeps(t, kind, fixedExtra, subject);
  }

  lemma ForgetGrows(t: Tickets, ticket: int32)
    requires TicketsOk(t)
    ensures TicketsOk(Abandon(t, ticket)) && Grows(t, Abandon(t, ticket)) && Abandon(t, ticket).taken == t.taken
    ensures TicketsOk(AfterPoll(t, ticket)) && Grows(t, AfterPoll(t, ticket)) && AfterPoll(t, ticket).taken == t.taken
    ensures TicketsOk(Cleared(t)) && Grows(t, Cleared(t)) && Cleared(t).taken == t.taken
    ensures AfterPoll(t, ticket).answers == t.answers && AfterPoll(t, ticket).asks == t.asks
  {
    hide TicketsOk;
    AbandonKeeps(t, ticket);
    PollKeeps(t, ticket);
    ClearedKeeps(t);
  }

  lemma AnsweredGrows(t: Tickets, h: Header, body: bytes)
    requires h.ticket in t.table && 0 <= h.furtherData && |body| == t.table[h.ticket].fixedExtra + h.furtherData
    ensures Grows(t, Answered(t, h, body)) && Answered(t, h, body).connection == t.connection
  {
    hide Respond;
  }

  lemma StepGrows(m: Mgr)
    ensures Grows(m.tickets, AfterStep(m).tickets) && AfterStep(m).tickets.connection == m.tickets.connection
  {
    hide Frame, HandleHandshake, HandlePacket, Drops, ReadHeader, LowByte, Answered, Grows;
    GrowsSelf(m.tickets);
    ClearGrows(m.tickets);
    match Frame(m.sock.input, m.tickets.table)
    case Whole(size, reply) =>
      var h, body := ReadHeader(m.sock.input), m.sock.input[HEADER_SIZE..size];
      PacketTickets(m, h, body);
      if reply {
        AnsweredGrows(m.tickets, h, body);
      }
    case _ =>
  }

  lemma {:induction false} ProcessGrows(m: Mgr)
    ensures Grows(m.tickets, Process(m).tickets) && Process(m).tickets.connection == m.tickets.connection
    decreases |m.sock.input|
  {
    hide Step, Grows;
    StepGrows(m);
    match Step(m)
    case Waiting => GrowsSelf(m.tickets);
    case Dropped(n) =>
    case Continue(n) =>
      ProcessGrows(n);
      GrowsOn(m.tickets, n.tickets, Process(n).tickets);
  }

  lemma GrowsSelf(t: Tickets)
    ensures Grows(t, t)
  {
  }

  lemma LoginGrows(m: Mgr)
    ensures Grows(m.tickets, LoginStep(m).tickets) && LoginStep(m).tickets.connection == m.tickets.connection
  {
    hide LoginStep, NextTicket;
    LoginTickets(m);
    NextTicketKeeps(m.tickets);
  }

  lemma PumpGrows(m: Mgr)
    ensures Grows(m.tickets, Pump(m).tickets) && Pump(m).queries == m.queries
    ensures Pump(m).tickets.connection == m.tickets.connection
  {
    hide Process, PumpSock, TimeAfter, LoginStep, Grows;
    GrowsSelf(m.tickets);
    if UnderWay(m) {
      var l := LoginStep(m);
      var n := l.(sock := PumpSock(l.sock));
      LoginGrows(m);
      LoginQueries(m);
      ProcessGrows(n);
      ProcessQueries(n);
      GrowsOn(m.tickets, l.tickets, Process(n).tickets);
    } else if m.session.phase.PhaseOnline? {
      var n := m.(sock := PumpSock(m.sock));
      ProcessGrows(n);
      ProcessQueries(n);
      ClearGrows(Process(n).tickets);
      GrowsOn(m.tickets, Process(n).tickets, Cleared(Process(n).tickets));
    }
  }

  lemma ClearGrows(t: Tickets)
    ensures Grows(t, Cleared(t))
  {
  }

  lemma LoginQueries(m: Mgr)
    ensures LoginStep(m).queries == m.queries
  {
    hide PollSock, WriteSock, Build, NextTicket;
  }

  lemma {:induction false} ProcessQueries(m: Mgr)
    ensures Process(m).queries == m.queries
    decreases |m.sock.input|
  {
    hide Step;
    StepQueries(m);
    match Step(m)
    case Waiting =>
    case Dropped(n) =>
    case Continue(n) => ProcessQueries(n);
  }

  lemma StepQueries(m: Mgr)
    ensures AfterStep(m).queries == m.queries
  {
    hide Frame, Answered, ReadHeader, LowByte, Accepts, WriteSock, Build, ParseMessage, ParseUser, SendRegistrations,
         Spool.SpoolPray, Update;
    match Frame(m.sock.input, m.tickets.table)
    case NeedMore =>
    case Broken =>
    case Whole(size, reply) =>
      if !reply {
        HandshakeQueries(m, ReadHeader(m.sock.input), m.sock.input[..size]);
      }
  }

  lemma {:induction false} RegistrationsQueries(m: Mgr, users: seq<bytes>)
    ensures SendRegistrations(m, users).queries == m.queries
    decreases |users|
  {
    hide Parse, WriteSock, Build, Register;
    if users != [] {
      RegistrationsQueries(m, users[1..]);
      if Parse(users[0]).Some? {
        RegistrationsQueries(Send(m.(watch := Register(m.watch, users[0])),
                                  WwrModify(true, m.session.server, Parse(users[0]).value)), users[1..]);
      }
    }
  }

  lemma HandshakeQueries(m: Mgr, h: Header, raw: bytes)
    requires |raw| > 1
    ensures HandleHandshake(m, h, raw).queries == m.queries
  {
    hide SendRegistrations, ServerList.Announced, MapHandshakeError;
    RegistrationsQueries(Entered(m, h, raw), m.watch.usersForWWR);
  }

  // ---- the relation every call keeps ----

  /** r comes after m: still sound, nothing forgotten, no ticket come back. */
  ghost predicate Follows(m: Mgr, r: Mgr) {
    AnswersOk(r) && Grows(m.tickets, r.tickets)
  }

  lemma PumpFollows(m: Mgr)
    requires AnswersOk(m) && Pump(m).tickets.taken <= CYCLE
    ensures Follows(m, Pump(m)) && Pump(m).queries == m.queries
  {
    hide TicketsOk, Pump, Grows, QueriesOk;
    PumpKeepsTickets(m);
    PumpGrows(m);
    QueriesGrow(m.queries, m.tickets, Pump(m).tickets);
  }

  /** Nothing about tickets or queries changed. */
  lemma SameAnswers(m: Mgr, r: Mgr)
    requires AnswersOk(m) && r.tickets == m.tickets && r.queries == m.queries && r.base <= |r.log|
    ensures Follows(m, r)
  {
    GrowsSelf(m.tickets);
  }

  lemma AskFollows(m: Mgr, kind: Kind, fixedExtra: nat, subject: bytes)
    requires AnswersOk(m) && m.tickets.taken < CYCLE && kind != Abandoned
    ensures Follows(m, Asked(m, kind, fixedExtra, subject))
    ensures var t := Asked(m, kind, fixedExtra, subject).tickets;
            t.next != 0 && Asks(t, t.next, kind, fixedExtra, subject) && t.taken == m.tickets.taken + 1
  {
    hide TicketsOk, Start, Grows, QueriesOk;
    StartGrows(m.tickets, kind, fixedExtra, subject);
    QueriesGrow(m.queries, m.tickets, Asked(m, kind, fixedExtra, subject).tickets);
  }

  /** Tickets may have been taken, and the connection is the same. */
  predicate Takes(t: Tickets, u: Tickets) {
    t.taken <= u.taken && u.connection == t.connection
  }

  /** This call starts connecting. */
  predicate Begins(m: Mgr, call: Call) {
    call.CallConnect? && StartsConnection(m)
  }

  lemma StartTakes(t: Tickets, kind: Kind, fixedExtra: nat, subject: bytes)
    ensures Start(t, kind, fixedExtra, subject).taken == t.taken + 1
            && Start(t, kind, fixedExtra, subject).connection == t.connection
  {
    hide TicketAt;
  }

  lemma ForgetTakes(t: Tickets, ticket: int32)
    ensures Abandon(t, ticket).taken == t.taken && AfterPoll(t, ticket).taken == t.taken && Cleared(t).taken == t.taken
    ensures Takes(t, Abandon(t, ticket)) && Takes(t, AfterPoll(t, ticket))
    ensures Abandon(t, ticket).asks == t.asks && AfterPoll(t, ticket).asks == t.asks
            && AfterPoll(t, ticket).answers == t.answers
  {
  }

  // ---- waiting for an answer ----

  lemma {:induction false} WaitForTakes(m: Mgr, ticket: int32, deadline: nat)
    requires m.clock < deadline + TWO_31 && deadline <= m.clock + TWO_31
    ensures Takes(m.tickets, WaitFor(m, ticket, deadline).0.tickets)
    decreases deadline - m.clock
  {
    hide Pump, TimeAfter, Poll, AfterPoll, Abandon, NowMs, Grows;
    PumpTakes(m);
    var p := Pump(m);
    ForgetTakes(p.tickets, ticket);
    if Poll(p.tickets, ticket).Pending? && IsOnline(p) && !TimeAfter(NowMs(p.clock), NowMs(deadline)) {
      StillBefore(p.clock, deadline);
      WaitForTakes(Wait(p), ticket, deadline);
    }
  }

  lemma PumpTakes(m: Mgr)
    ensures Takes(m.tickets, Pump(m).tickets)
  {
    hide Pump;
    PumpGrows(m);
  }

  /** If the wait ends with a result, it is a response bearing this ticket, decoded as what was asked under it. */
  lemma {:induction false} WaitForFollows(m: Mgr, ticket: int32, deadline: nat)
    requires m.clock < deadline + TWO_31 && deadline <= m.clock + TWO_31
    requires AnswersOk(m) && WaitFor(m, ticket, deadline).0.tickets.taken <= CYCLE
    ensures var (r, result) := WaitFor(m, ticket, deadline);
            && Follows(m, r)
            && (result.Some? ==>
                  ticket in r.tickets.asks && ticket in r.tickets.answers
                    && r.tickets.answers[ticket].header.ticket == ticket
                  && Decodes(r.tickets.answers[ticket], r.tickets.asks[ticket], result.value))
    decreases deadline - m.clock
  {
    hide TicketsOk, Pump, TimeAfter, AfterPoll, Abandon, NowMs, Grows, QueriesOk, Decodes, Poll;
    PumpTakes(m);
    var p := Pump(m);
    ForgetTakes(p.tickets, ticket);
    if Poll(p.tickets, ticket).Pending? && IsOnline(p) && !TimeAfter(NowMs(p.clock), NowMs(deadline)) {
      StillBefore(p.clock, deadline);
      WaitForTakes(Wait(p), ticket, deadline);
      PumpFollows(m);
      SameAnswers(p, Wait(p));
      WaitForFollows(Wait(p), ticket, deadline);
      GrowsOn(m.tickets, p.tickets, WaitFor(m, ticket, deadline).0.tickets);
    } else {
      PumpFollows(m);
      ForgetFollows(m, p, ticket);
      if Poll(p.tickets, ticket).Finished? {
        PolledIsFaithful(p.tickets, ticket);
      }
    }
  }

  lemma ForgetFollows(m: Mgr, p: Mgr, ticket: int32)
    requires Follows(m, p)
    ensures Follows(m, Polling(p, ticket)) && Follows(m, Abandoning(p, ticket))
  {
    hide TicketsOk, Grows, QueriesOk, AfterPoll, Abandon;
    ForgetGrows(p.tickets, ticket);
    QueriesGrow(p.queries, p.tickets, AfterPoll(p.tickets, ticket));
    QueriesGrow(p.queries, p.tickets, Abandon(p.tickets, ticket));
    GrowsOn(m.tickets, p.tickets, AfterPoll(p.tickets, ticket));
    GrowsOn(m.tickets, p.tickets, Abandon(p.tickets, ticket));
  }

  /** A finished transaction is the decoding of a response that bore its ticket. */
  lemma PolledIsFaithful(t: Tickets, ticket: int32)
    requires TicketsOk(t) && Poll(t, ticket).Finished?
    ensures ticket in t.asks && ticket in t.answers && t.answers[ticket].header.ticket == ticket
    ensures Decodes(t.answers[ticket], t.asks[ticket], Poll(t, ticket).result)
  {
    assert Faithful(t, ticket);
  }

  // ---- the answers themselves ----

  /** What a response under a ticket would have to say for a fetched name. */
  predicate NamesUser(t: Tickets, ticket: int32, user: bytes, nickName: bytes) {
    && Asks(t, ticket, ClientInfo, 0, user)
    && ticket in t.answers && t.answers[ticket].header.ticket == ticket
    && ParseUser(t.answers[ticket].body).Some? && ParseUser(t.answers[ticket].body).value.nickName == nickName
  }

  /** A name fetched for a user comes from a response bearing the ticket issued for that very fetch,
      read as user details; a fetch whose ticket has died with its connection can only fail. */
  lemma FetchAnswer(m: Mgr, user: bytes)
    requires AnswersOk(m) && user in m.queries.fetches && Parse(user).Some?
    requires FetchUserData(m, user).m.tickets.taken <= CYCLE
    ensures var r := FetchUserData(m, user);
            && (r.value != [] ==> !r.block && NamesUser(r.m.tickets, m.queries.fetches[user].ticket, user, r.value))
            && (Dead(m.tickets, m.queries.fetches[user].ticket) ==> r.value == [] && !r.block)
  {
    hide TicketsOk, Pump, TimeAfter, Abandon, AfterPoll, NowMs, Grows, Decodes;
    var p, ticket := Pump(m), m.queries.fetches[user].ticket;
    ForgetTakes(p.tickets, ticket);
    PumpFollows(m);
    RememberTickets(SetFetches(Polling(p, ticket), p.queries.fetches - {user}), user, []);
    assert Dead(m.tickets, ticket) ==> Poll(p.tickets, ticket).Missing? by {
      if Dead(m.tickets, ticket) { DeadGrows(m.tickets, p.tickets, ticket); }
    }
    assert Asks(p.tickets, ticket, ClientInfo, 0, user) by {
      QueriesGrow(m.queries, m.tickets, p.tickets);
    }
    if Poll(p.tickets, ticket).Finished? {
      PolledIsFaithful(p.tickets, ticket);
      NameDecoded(p.tickets.answers[ticket], p.tickets.asks[ticket], Poll(p.tickets, ticket).result);
    }
  }

  lemma RememberTickets(m: Mgr, user: bytes, nickName: bytes)
    ensures Remember(m, user, nickName).tickets == m.tickets && Remember(m, user, nickName).queries == m.queries
    ensures Remember(m, user, nickName).log == m.log && Remember(m, user, nickName).base == m.base
  {
  }

  lemma NameDecoded(answer: Answer, ask: Ask, tr: Transaction)
    requires ask.kind == ClientInfo && ask.fixedExtra == 0 && Decodes(answer, ask, tr)
    ensures tr.success ==> ParseUser(answer.body).Some? && ParseUser(answer.body).value.nickName == tr.resultString
  {
    hide ParseUser;
    assert answer.body[0..] == answer.body;
  }

  /** The random user returned is the one named by a response bearing the ticket issued for that request. */
  lemma RandomAnswer(m: Mgr)
    requires AnswersOk(m) && m.queries.random.ticket != 0
    requires FetchRandomUser(m).m.tickets.taken <= CYCLE
    ensures var r, t, k := FetchRandomUser(m), FetchRandomUser(m).m.tickets, m.queries.random.ticket;
            && (r.value != [] ==>
                  && !r.block && Asks(t, k, RandomUser, 0, [])
                  && k in t.answers && t.answers[k].header.ticket == k
                  && t.answers[k].header.e == 1
                     && r.value == Uin(t.answers[k].header.c, t.answers[k].header.d).ToString())
            && (Dead(m.tickets, k) ==> r.value == [] && !r.block)
  {
    hide TicketsOk, Pump, TimeAfter, Abandon, AfterPoll, NowMs, Grows, Decodes;
    var p, ticket := Pump(m), m.queries.random.ticket;
    ForgetTakes(p.tickets, ticket);
    PumpFollows(m);
    assert Dead(m.tickets, ticket) ==> Poll(p.tickets, ticket).Missing? by {
      if Dead(m.tickets, ticket) { DeadGrows(m.tickets, p.tickets, ticket); }
    }
    assert Asks(p.tickets, ticket, RandomUser, 0, []) by {
      QueriesGrow(m.queries, m.tickets, p.tickets);
    }
    if Poll(p.tickets, ticket).Finished? {
      PolledIsFaithful(p.tickets, ticket);
      RandomDecoded(p.tickets.answers[ticket], p.tickets.asks[ticket], Poll(p.tickets, ticket).result);
    }
  }

  lemma RandomDecoded(answer: Answer, ask: Ask, tr: Transaction)
    requires ask.kind == RandomUser && ask.fixedExtra == 0 && Decodes(answer, ask, tr)
    ensures tr.success ==> answer.header.e == 1 && tr.resultUin == Uin(answer.header.c, answer.header.d)
  {
  }

  /** The number of users reported is the second integer of a response bearing the ticket issued for that request. */
  lemma StatusAnswer(m: Mgr)
    requires AnswersOk(m) && m.queries.status.ticket != 0 && IsOnline(m)
    requires GetStatus(m).m.tickets.taken <= CYCLE
    ensures var r, t, k := GetStatus(m), GetStatus(m).m.tickets, m.queries.status.ticket;
            && (r.block <==> r.value.None?)
            && (r.value.Some? && r.value.value.usersOnline != 0 ==>
                  && Asks(t, k, Status, 16, [])
                  && k in t.answers && t.answers[k].header.ticket == k
                  && |t.answers[k].body| >= 16 && r.value.value.usersOnline == GetInt(t.answers[k].body, 4))
            && (Dead(m.tickets, k) ==> r.value.Some? && r.value.value.usersOnline == 0)
  {
    hide TicketsOk, Pump, TimeAfter, Abandon, AfterPoll, NowMs, Grows, Decodes, GetInt;
    var p, ticket := Pump(m), m.queries.status.ticket;
    ForgetTakes(p.tickets, ticket);
    PumpFollows(m);
    assert Dead(m.tickets, ticket) ==> Poll(p.tickets, ticket).Missing? by {
      if Dead(m.tickets, ticket) { DeadGrows(m.tickets, p.tickets, ticket); }
    }
    assert Asks(p.tickets, ticket, Status, 16, []) by {
      QueriesGrow(m.queries, m.tickets, p.tickets);
    }
    if Poll(p.tickets, ticket).Finished? {
      PolledIsFaithful(p.tickets, ticket);
      StatusDecoded(p.tickets.answers[ticket], p.tickets.asks[ticket], Poll(p.tickets, ticket).result);
    }
  }

  lemma StatusDecoded(answer: Answer, ask: Ask, tr: Transaction)
    requires ask.kind == Status && ask.fixedExtra == 16 && Decodes(answer, ask, tr)
    ensures tr.success ==> |answer.body| >= 16 && |tr.resultInts| == 4 && tr.resultInts[1] == GetInt(answer.body, 4)
  {
    hide GetInt;
  }

  // ---- every act and every call ----

  lemma LostFollows(m: Mgr)
    requires AnswersOk(m)
    ensures Follows(m, ConnectionLost(m)) && Follows(m, Disconnect(m))
    ensures forall u | u in m.queries.fetches :: Dead(ConnectionLost(m).tickets, m.queries.fetches[u].ticket)
  {
    ClearGrows(m.tickets);
    QueriesGrow(m.queries, m.tickets, Cleared(m.tickets));
    ClearedKeeps(m.tickets);
  }

  lemma FollowsSelf(m: Mgr)
    requires AnswersOk(m)
    ensures Follows(m, m)
  {
    GrowsSelf(m.tickets);
  }

  lemma FollowsSound(m: Mgr, r: Mgr)
    requires Follows(m, r)
    ensures AnswersOk(r) && m.tickets.taken <= r.tickets.taken
  {
  }

  lemma FollowsOn(m: Mgr, p: Mgr, r: Mgr)
    requires Follows(m, p) && Follows(p, r)
    ensures Follows(m, r)
  {
    hide AnswersOk, Grows;
    GrowsOn(m.tickets, p.tickets, r.tickets);
  }

  lemma SameFollows(m: Mgr, p: Mgr, r: Mgr)
    requires Follows(m, p) && r.tickets == p.tickets && r.queries == p.queries && r.base == p.base && r.log == p.log
    ensures Follows(m, r)
  {
    hide TicketsOk, QueriesOk, Grows;
  }

  lemma StartTicket(t: Tickets, kind: Kind, fixedExtra: nat, subject: bytes)
    ensures Start(t, kind, fixedExtra, subject).next == NextTicket(t).next
  {
  }

  lemma AskStays(t: Tickets, u: Tickets, ticket: int32)
    requires Grows(t, u) && ticket in t.asks
    ensures ticket in u.asks && u.asks[ticket] == t.asks[ticket]
  {
  }

  lemma ConnectFollows(m: Mgr, users: seq<bytes>)
    requires AnswersOk(m) && ConnectInBackground(m, users).tickets.taken <= CYCLE
    ensures Follows(m, ConnectInBackground(m, users))
  {
    hide Pump, Grows, QueriesOk, TicketsOk, PumpConnectPhase, BeginSock;
    GrowsSelf(m.tickets);
    if !IsOnline(m) {
      if UnderWay(m) {
        PumpIs(m);
        PumpFollows(m);
      } else {
        NobodyAsked(m.tickets);
        LiveGrows(m.tickets);
        QueriesGrow(m.queries, m.tickets, NextConnection(m.tickets));
      }
    }
  }

  lemma LiveGrows(t: Tickets)
    ensures Grows(t, NextConnection(t))
  {
  }

  lemma ActFollows(m: Mgr, act: Act)
    requires AnswersOk(m) && Proper(m, act) && Perform(m, act).tickets.taken <= CYCLE
    ensures Follows(m, Perform(m, act))
  {
    hide AnswersOk, Follows, Pump, ConnectInBackground, Disconnect, ConnectionLost, Send, Start, Abandon,
         AfterPoll, Grows, Remember, RemoveFromWWR, Tells, NewlyAsked, Recordable;
    FollowsSelf(m);
    match act
    case Pumps => PumpFollows(m);
    case Connects(users) => ConnectFollows(m, users);
    case Disconnects => LostFollows(m);
    case Loses => LostFollows(m);
    case Questions(kind, fixedExtra, subject, packet) => PutFollows(m, kind, fixedExtra, subject, packet);
    case Polls(ticket) => ForgetFollows(m, m, ticket);
    case Abandons(ticket) => ForgetFollows(m, m, ticket);
    case Unwatches(user) => UnwatchAnswers(m, user); SameFollows(m, m, Perform(m, act));
    case Records(queries) => RecordFollows(m, queries);
    case Writes(packet) => WriteAnswers(m, packet); SameFollows(m, m, Perform(m, act));
    case Remembers(user, nickName) => RememberTickets(m, user, nickName); SameFollows(m, m, Perform(m, act));
    case _ => SameFollows(m, m, Perform(m, act));
  }

  lemma PutFollows(m: Mgr, kind: Kind, fixedExtra: nat, subject: bytes, packet: Packet)
    requires AnswersOk(m) && kind != Abandoned
             && Send(Asked(m, kind, fixedExtra, subject), packet).tickets.taken <= CYCLE
    ensures Follows(m, Send(Asked(m, kind, fixedExtra, subject), packet))
  {
    hide AnswersOk, Follows, Send, Start, Grows;
    var a := Asked(m, kind, fixedExtra, subject);
    StartTakes(m.tickets, kind, fixedExtra, subject);
    WriteAnswers(a, packet);
    AskFollows(m, kind, fixedExtra, subject);
    SameFollows(m, a, Send(a, packet));
  }

  lemma WriteAnswers(m: Mgr, packet: Packet)
    ensures var r := Send(m, packet);
            r.tickets == m.tickets && r.queries == m.queries && r.base == m.base && r.log == m.log
  {
  }

  lemma UnwatchAnswers(m: Mgr, user: bytes)
    ensures var r := RemoveFromWWR(m, user);
            r.tickets == m.tickets && r.queries == m.queries && r.base == m.base && r.log == m.log
  {
    hide Parse;
  }

  lemma RecordFollows(m: Mgr, queries: Queries)
    requires AnswersOk(m) && Proper(m, Records(queries))
    ensures Follows(m, Perform(m, Records(queries)))
  {
    hide TicketsOk, Grows;
    GrowsSelf(m.tickets);
  }

  /** No act gives tickets back, and only one that starts connecting begins a connection. */
  lemma ActTakes(m: Mgr, act: Act)
    ensures m.tickets.taken <= Perform(m, act).tickets.taken
    ensures Perform(m, act).tickets.connection == m.tickets.connection
            + (if act.Connects? && StartsConnection(m) then 1 else 0)
  {
    hide Pump, ConnectInBackground, Start, Abandon, AfterPoll, WriteSock, Build;
    match act
    case Pumps => PumpTakes(m);
    case Connects(users) => ConnectTakes(m, users);
    case Questions(kind, fixedExtra, subject, _) => StartTakes(m.tickets, kind, fixedExtra, subject);
    case Polls(ticket) => ForgetTakes(m.tickets, ticket);
    case Abandons(ticket) => ForgetTakes(m.tickets, ticket);
    case _ =>
  }

  lemma {:induction false} ScriptTakes(m: Mgr, s: Script)
    ensures m.tickets.taken <= Play(m, s).tickets.taken
    ensures Inner(s) ==> Play(m, s).tickets.connection == m.tickets.connection
    decreases s
  {
    hide Perform;
    if s.Then? {
      ActTakes(m, s.act);
      ScriptTakes(Perform(m, s.act), s.rest);
    }
  }

  lemma {:induction false} ScriptFollows(m: Mgr, s: Script)
    requires AnswersOk(m) && AllProper(m, s) && Play(m, s).tickets.taken <= CYCLE
    ensures Follows(m, Play(m, s))
    decreases s
  {
    hide AnswersOk, Follows, Perform, Proper, Grows;
    FollowsSelf(m);
    if s.Then? {
      var n := Perform(m, s.act);
      ScriptTakes(n, s.rest);
      ActFollows(m, s.act);
      FollowsSound(m, n);
      ScriptFollows(n, s.rest);
      FollowsOn(m, n, Play(n, s.rest));
    }
  }

  lemma DoFollows(m: Mgr, call: Call)
    requires AnswersOk(m) && Do(m, call).tickets.taken <= CYCLE
    ensures Follows(m, Do(m, call))
  {
    hide AnswersOk, Follows, Do, ScriptOf, AllProper, Play, Grows;
    CallLeads(m, call);
    ScriptFollows(m, ScriptOf(m, call));
  }

  /** The same of calls. */
  lemma DoTakes(m: Mgr, call: Call)
    ensures m.tickets.taken <= Do(m, call).tickets.taken
    ensures Do(m, call).tickets.connection == m.tickets.connection + (if Begins(m, call) then 1 else 0)
  {
    hide ScriptOf, AllProper, Play, Perform, ConnectInBackground;
    CallLeads(m, call);
    ScriptTakes(m, ScriptOf(m, call));
    if call.CallConnect? {
      ConnectTakes(m, call.users);
    }
  }

  lemma ConnectTakes(m: Mgr, users: seq<bytes>)
    ensures m.tickets.taken <= ConnectInBackground(m, users).tickets.taken
    ensures ConnectInBackground(m, users).tickets.connection == m.tickets.connection
            + (if StartsConnection(m) then 1 else 0)
  {
    hide Pump, PumpConnectPhase, BeginSock;
    PumpTakes(m);
    if UnderWay(m) {
      PumpIs(m);
    }
  }

  // ---- whole runs ----

  lemma {:induction false} RunTakesOn(m: Mgr, calls: seq<Call>)
    ensures m.tickets.taken <= DoAll(m, calls).tickets.taken
    decreases |calls|
  {
    hide Do;
    if calls != [] {
      DoTakes(m, calls[0]);
      RunTakesOn(Do(m, calls[0]), calls[1..]);
    }
  }

  /** Over any run that takes fewer than 2^32 - 1 tickets the table stays faithful, questions stay on record,
      and a ticket that is gone stays gone. */
  lemma {:induction false} RunFollows(m: Mgr, calls: seq<Call>)
    requires AnswersOk(m) && DoAll(m, calls).tickets.taken <= CYCLE
    ensures Follows(m, DoAll(m, calls))
    decreases |calls|
  {
    hide AnswersOk, Follows, Do;
    FollowsSelf(m);
    if calls != [] {
      var n := Do(m, calls[0]);
      RunTakesOn(n, calls[1..]);
      DoFollows(m, calls[0]);
      FollowsSound(m, n);
      RunFollows(n, calls[1..]);
      FollowsOn(m, n, DoAll(n, calls[1..]));
    }
  }

  lemma AskedIsTaken(t: Tickets, ticket: int32)
    requires TicketsOk(t) && ticket in t.asks
    ensures Taken(t, ticket)
  {
  }
}
