/** Whose answer a pending query can take when connections come and go. */
module LateAnswers {
  import opened Bytes
  import opened Clock
  import Acts
  import opened Uins
  import opened Tickets
  import opened Client
  import opened Connection
  import opened Api
  import opened Answers
  import opened LockStepRun
  import opened Tables
  import LockStep
  import Steps = LockStepCalls

  // ---- over any run, with any server ----

  /** A connection is begun while the ticket is still in the table. */
  predicate CarriedOver(m: Mgr, calls: seq<Call>, ticket: int32)
    decreases |calls|
  {
    calls != [] && ((Begins(m, calls[0]) && ticket in m.tickets.table)
                    || CarriedOver(Do(m, calls[0]), calls[1..], ticket))
  }

  /** The ticket's answer, if there is one, came in on the connection its question was asked on, and nothing
      else can any more. */
  predicate OwnOnly(t: Tickets, ticket: int32) {
    && ticket in t.asks && (Current(t, ticket) || Dead(t, ticket))
    && (ticket in t.answers ==> t.answers[ticket].connection == t.asks[ticket].connection)
  }

  /** A query asked on this connection can only ever take an answer of this connection, unless its entry is
      carried over to another. */
  lemma {:induction false} OwnAnswer(m: Mgr, calls: seq<Call>, ticket: int32)
    requires AnswersOk(m) && DoAll(m, calls).tickets.taken <= CYCLE
    requires OwnOnly(m.tickets, ticket) && !CarriedOver(m, calls, ticket)
    ensures OwnOnly(DoAll(m, calls).tickets, ticket)
    decreases |calls|
  {
    hide AnswersOk, Do, OwnOnly, Begins, Grows;
    if calls != [] {
      var n := Do(m, calls[0]);
      RunTakesOn(n, calls[1..]);
      DoTakes(m, calls[0]);
      DoFollows(m, calls[0]);
      OwnStays(m.tickets, n.tickets, ticket, m, n, Begins(m, calls[0]));
      FollowsSound(m, n);
      OwnAnswer(n, calls[1..], ticket);
    }
  }

  lemma OwnStays(t: Tickets, u: Tickets, ticket: int32, m: Mgr, n: Mgr, begins: bool)
    requires t == m.tickets && u == n.tickets && AnswersOk(m) && Follows(m, n) && OwnOnly(t, ticket)
    requires u.connection == t.connection + (if begins then 1 else 0) && (begins ==> ticket !in t.table)
    ensures OwnOnly(u, ticket)
  {
    hide QueriesOk, TicketAt, Faithful;
  }

  /** The connection was begun from the online phase on a dead socket, with the ticket in the table. */
  predicate Reconnected(m: Mgr, calls: seq<Call>, ticket: int32)
    decreases |calls|
  {
    calls != [] && ((Reconnects(m, calls[0]) && ticket in m.tickets.table)
                    || Reconnected(Do(m, calls[0]), calls[1..], ticket))
  }

  /** Nothing else carries an entry over: every other end of a connection empties the table. */
  lemma {:induction false} CarriedByReconnecting(m: Mgr, calls: seq<Call>, ticket: int32, before: set<int32>)
    requires Holds(m, before) && ticket !in before && !Reconnected(m, calls, ticket)
    ensures !CarriedOver(m, calls, ticket)
    decreases |calls|
  {
    hide Do;
    if calls != [] {
      var kept := if Reconnects(m, calls[0]) then m.tickets.table.Keys else before;
      CallHolds(m, calls[0], kept);
      CarriedByReconnecting(Do(m, calls[0]), calls[1..], ticket, kept);
    }
  }

  /** So a query asked on this connection takes a later connection's answer only if one was begun under the
      guard "socket died" of ConnectInBackground, without a loss noticed or a Disconnect in between. */
  lemma LateOnlyAfterReconnecting(m: Mgr, calls: seq<Call>, ticket: int32, before: set<int32>)
    requires AnswersOk(m) && DoAll(m, calls).tickets.taken <= CYCLE
    requires OwnOnly(m.tickets, ticket) && Holds(m, before) && ticket !in before
    ensures var t := DoAll(m, calls).tickets;
            && ticket in t.asks
            && (ticket in t.answers && t.answers[ticket].connection != t.asks[ticket].connection
                ==> Reconnected(m, calls, ticket))
  {
    RunFollows(m, calls);
    hide AnswersOk, DoAll, Reconnected, CarriedOver, Holds;
    if !Reconnected(m, calls, ticket) {
      CarriedByReconnecting(m, calls, ticket, before);
      OwnAnswer(m, calls, ticket);
    }
  }

  /** Carried over unanswered, it can only take an answer of a later connection. */
  lemma LaterAnswer(m: Mgr, call: Call, calls: seq<Call>, ticket: int32)
    requires AnswersOk(m) && DoAll(Do(m, call), calls).tickets.taken <= CYCLE
    requires Begins(m, call) && ticket in m.tickets.table && !m.tickets.table[ticket].done
    ensures var t := DoAll(Do(m, call), calls).tickets;
            ticket in t.asks && (ticket in t.answers ==> t.asks[ticket].connection < t.answers[ticket].connection)
  {
    hide Do, Begins, AnswersOk, DoAll;
    var n := Do(m, call);
    RunTakesOn(n, calls);
    DoTakes(m, call);
    DoFollows(m, call);
    FollowsSound(m, n);
    RunFollows(n, calls);
    BeginFiles(m, call);
    UnansweredBefore(m, ticket);
    LaterOnly(m.tickets, n.tickets, DoAll(n, calls).tickets, ticket);
  }

  lemma LaterOnly(t: Tickets, n: Tickets, u: Tickets, ticket: int32)
    requires Grows(t, n) && Grows(n, u) && n.connection > t.connection && n.answers == t.answers
    requires ticket in t.asks && t.asks[ticket].connection <= t.connection && ticket !in t.answers
    ensures ticket in u.asks && (ticket in u.answers ==> u.asks[ticket].connection < u.answers[ticket].connection)
  {
  }

  lemma UnansweredBefore(m: Mgr, ticket: int32)
    requires AnswersOk(m) && ticket in m.tickets.table && !m.tickets.table[ticket].done
    ensures ticket in m.tickets.asks && ticket !in m.tickets.answers
            && m.tickets.asks[ticket].connection <= m.tickets.connection
  {
    hide QueriesOk, TicketAt, Decodes;
    assert Faithful(m.tickets, ticket);
  }

  lemma BeginFiles(m: Mgr, call: Call)
    requires Begins(m, call)
    ensures Do(m, call).tickets == NextConnection(m.tickets)
  {
    hide Sockets.BeginSock;
  }

  // ---- queries whose entry is gone ----

  /** A query left pending when the table was emptied can only fail, however long the client runs on and
      however often it reconnects. */
  lemma StaleFetchFails(m: Mgr, calls: seq<Call>, user: bytes)
    requires AnswersOk(m) && user in m.queries.fetches && m.queries.fetches[user].ticket !in m.tickets.table
             && Parse(user).Some?
    requires var r := DoAll(m, calls); user in r.queries.fetches && r.queries.fetches[user] == m.queries.fetches[user]
    requires FetchUserData(DoAll(m, calls), user).m.tickets.taken <= CYCLE
    ensures var f := FetchUserData(DoAll(m, calls), user); f.value == [] && !f.block
  {
    hide TicketsOk, FetchUserData, FetchRandomUser, GetStatus, AddToWWR, Grows, Parse, DoAll;
    var r := DoAll(m, calls);
    DoTakes(r, CallFetchUserData(user));
    GoneIsDead(m, calls, m.queries.fetches[user].ticket);
    FetchAnswer(r, user);
  }

  lemma StaleRandomFails(m: Mgr, calls: seq<Call>)
    requires AnswersOk(m) && m.queries.random.ticket != 0 && m.queries.random.ticket !in m.tickets.table
    requires DoAll(m, calls).queries.random == m.queries.random
    requires FetchRandomUser(DoAll(m, calls)).m.tickets.taken <= CYCLE
    ensures var f := FetchRandomUser(DoAll(m, calls)); f.value == [] && !f.block
  {
    hide TicketsOk, FetchUserData, FetchRandomUser, GetStatus, AddToWWR, Grows, DoAll;
    var r := DoAll(m, calls);
    DoTakes(r, CallFetchRandomUser);
    GoneIsDead(m, calls, m.queries.random.ticket);
    RandomAnswer(r);
  }

  lemma StaleStatusFails(m: Mgr, calls: seq<Call>)
    requires AnswersOk(m) && m.queries.status.ticket != 0 && m.queries.status.ticket !in m.tickets.table
    requires DoAll(m, calls).queries.status == m.queries.status && IsOnline(DoAll(m, calls))
    requires GetStatus(DoAll(m, calls)).m.tickets.taken <= CYCLE
    ensures var f := GetStatus(DoAll(m, calls)); f.value.Some? && f.value.value.usersOnline == 0 && !f.block
  {
    hide TicketsOk, FetchUserData, FetchRandomUser, GetStatus, AddToWWR, Grows, DoAll, IsOnline;
    var r := DoAll(m, calls);
    DoTakes(r, CallGetStatus);
    GoneIsDead(m, calls, m.queries.status.ticket);
    StatusAnswer(r);
  }

  lemma GoneIsDead(m: Mgr, calls: seq<Call>, ticket: int32)
    requires AnswersOk(m) && ticket in m.tickets.asks && ticket !in m.tickets.table
             && DoAll(m, calls).tickets.taken <= CYCLE
    ensures AnswersOk(DoAll(m, calls)) && Dead(DoAll(m, calls).tickets, ticket)
  {
    hide TicketsOk, DoAll, Grows, QueriesOk;
    RunFollows(m, calls);
    AskedIsTaken(m.tickets, ticket);
    DeadGrows(m.tickets, DoAll(m, calls).tickets, ticket);
  }

  // ---- with a server that keeps its side ----

  lemma {:induction false} WaitFollows(w: World, ticket: int32, deadline: nat, turns: seq<Steps.Turn>)
    requires w.m.clock < deadline + TWO_31 && deadline <= w.m.clock + TWO_31
    requires AnswersOk(w.m) && Steps.WaitWith(w, ticket, deadline, turns).m.tickets.taken <= CYCLE
    ensures Follows(w.m, Steps.WaitWith(w, ticket, deadline, turns).m)
    decreases deadline - w.m.clock
  {
    hide TimeAfter, NowMs, Pump, AfterPoll, Abandon, Poll, AnswersOk, Follows, Grows;
    var p := Pump(w.m);
    ForgetTakes(p.tickets, ticket);
    if Poll(p.tickets, ticket).Pending? && IsOnline(p) && !TimeAfter(NowMs(p.clock), NowMs(deadline)) {
      StillBefore(p.clock, deadline);
      var n := Steps.FirstTurn(World(Wait(p), w.out), turns);
      Steps.WaitTakes(n, ticket, deadline, Steps.LaterTurns(turns));
      PumpFollows(w.m);
      SameFollows(w.m, p, n.m);
      FollowsSound(w.m, n.m);
      WaitFollows(n, ticket, deadline, Steps.LaterTurns(turns));
      FollowsOn(w.m, n.m, Steps.WaitWith(w, ticket, deadline, turns).m);
    } else {
      PumpFollows(w.m);
      ForgetFollows(w.m, p, ticket);
    }
  }

  lemma MoveFollows(w: World, move: Steps.Move)
    requires AnswersOk(w.m) && Steps.Play(w, move).m.tickets.taken <= CYCLE
    ensures Follows(w.m, Steps.Play(w, move).m)
  {
    hide AnswersOk, Follows, Do, Grows, Steps.AskWith;
    FollowsSelf(w.m);
    if move.Client? {
      var asked := Steps.QuestionOf(w.m, move.call);
      if asked.Some? {
        QuestionFollows(w, asked.value, move.turns);
      } else {
        DoFollows(w.m, move.call);
      }
    }
  }

  lemma QuestionFollows(w: World, q: Steps.Question, turns: seq<Steps.Turn>)
    requires AnswersOk(w.m) && q.timeout < TWO_31 && q.kind != Abandoned
             && (q.lost == Acts.Nil || q.lost == Acts.Only(Acts.Loses))
    requires Steps.AskWith(w, q, turns).m.tickets.taken <= CYCLE
    ensures Follows(w.m, Steps.AskWith(w, q, turns).m)
  {
    hide Start, Abandon, AnswersOk, Follows, Grows, Steps.WaitWith, ConnectionLost, Steps.Writing, Acts.Only;
    var s := Steps.Writing(w.m, q);
    var d := Abandoning(s, s.tickets.next);
    Steps.WritingTickets(w.m, q);
    Steps.PlayLost(d);
    StartTakes(w.m.tickets, q.kind, 0, q.subject);
    ForgetTakes(s.tickets, s.tickets.next);
    Steps.LostTakes(d);
    var n := Steps.FirstTurn(World(s, w.out), turns);
    Steps.WaitTakes(n, s.tickets.next, s.clock + q.timeout, Steps.LaterTurns(turns));
    if w.m.tickets.taken < CYCLE {
      WritingFollows(w.m, q);
      FollowsSound(w.m, s);
      ForgetFollows(w.m, s, s.tickets.next);
      FollowsSound(w.m, d);
      LostFollows(d);
      FollowsOn(w.m, d, ConnectionLost(d));
      if s.sock.state.Connected? {
        SameFollows(w.m, s, n.m);
        FollowsSound(w.m, n.m);
        WaitFollows(n, s.tickets.next, s.clock + q.timeout, Steps.LaterTurns(turns));
        FollowsOn(w.m, n.m, Steps.AskWith(w, q, turns).m);
      }
    }
  }

  lemma WritingFollows(m: Mgr, q: Steps.Question)
    requires AnswersOk(m) && m.tickets.taken < CYCLE && q.kind != Abandoned
    ensures Follows(m, Steps.Writing(m, q))
  {
    hide Start, Send, AnswersOk, Follows, Grows;
    var a := Asked(m, q.kind, 0, q.subject);
    AskFollows(m, q.kind, 0, q.subject);
    WriteAnswers(a, q.packet);
    SameFollows(m, a, Steps.Writing(m, q));
  }

  lemma {:induction false} PlayFollows(w: World, moves: seq<Steps.Move>)
    requires AnswersOk(w.m) && Steps.PlayAll(w, moves).m.tickets.taken <= CYCLE
    ensures Follows(w.m, Steps.PlayAll(w, moves).m)
    decreases |moves|
  {
    hide AnswersOk, Follows, Steps.Play, Grows;
    FollowsSelf(w.m);
    if moves != [] {
      var n := Steps.Play(w, moves[0]);
      Steps.PlayTakes(n, moves[1..]);
      MoveFollows(w, moves[0]);
      FollowsSound(w.m, n.m);
      PlayFollows(n, moves[1..]);
      FollowsOn(w.m, n.m, Steps.PlayAll(n, moves[1..]).m);
    }
  }

  /** A question of an earlier connection, unanswered so far. */
  predicate LeftOver(t: Tickets, ticket: int32) {
    ticket in t.asks && t.asks[ticket].connection < t.connection && ticket !in t.answers
  }

  /** It stays unanswered: the server answers only what was asked on the connection at hand. */
  lemma LeftOverStays(w: World, moves: seq<Steps.Move>, ticket: int32)
    requires Steady(w) && AnswersOk(w.m) && Steps.FairPlay(w, moves)
    requires Steps.PlayAll(w, moves).m.tickets.taken <= CYCLE && LeftOver(w.m.tickets, ticket)
    ensures LeftOver(Steps.PlayAll(w, moves).m.tickets, ticket)
  {
    hide Steady, AnswersOk, Steps.FairPlay, Steps.PlayAll, Steps.PlayDerails, Steps.PumpDerails;
    Steps.LockStepOverCalls(w, moves);
    PlayFollows(w, moves);
    FollowsGrows(w.m, Steps.PlayAll(w, moves).m);
  }

  lemma FollowsGrows(m: Mgr, r: Mgr)
    requires Follows(m, r)
    ensures Grows(m.tickets, r.tickets)
  {
  }

  /** One more call is one more move. */
  lemma CallMove(w: World, call: Call)
    requires Steady(w) && AnswersOk(w.m) && !call.Host? && !call.CallConnect? && Do(w.m, call).tickets.taken <= CYCLE
    ensures Matched(Do(w.m, call).tickets) && Grows(w.m.tickets, Do(w.m, call).tickets)
  {
    hide LockStep.InStep, TicketsOk, Do, Grows, QueriesOk, Steps.MoveDerails, Steps.DoWith, Steps.Fair;
    Steps.AloneFair(w, call);
    Steps.DoAlone(w, call);
    Steps.MoveSteady(w, Steps.Client(call, []));
    DoFollows(w.m, call);
  }

  /** So a pending query of an earlier connection fails, even if its entry was carried over. */
  lemma LeftOverFetchFails(w: World, user: bytes)
    requires Steady(w) && AnswersOk(w.m) && user in w.m.queries.fetches && Parse(user).Some?
    requires LeftOver(w.m.tickets, w.m.queries.fetches[user].ticket)
             && FetchUserData(w.m, user).m.tickets.taken <= CYCLE
    ensures FetchUserData(w.m, user).value == []
  {
    hide Steady, AnswersOk, FetchUserData, Parse;
    CallMove(w, CallFetchUserData(user));
    FetchAnswer(w.m, user);
  }

  lemma LeftOverRandomFails(w: World)
    requires Steady(w) && AnswersOk(w.m) && w.m.queries.random.ticket != 0
    requires LeftOver(w.m.tickets, w.m.queries.random.ticket) && FetchRandomUser(w.m).m.tickets.taken <= CYCLE
    ensures FetchRandomUser(w.m).value == []
  {
    hide Steady, AnswersOk, FetchRandomUser;
    CallMove(w, CallFetchRandomUser);
    RandomAnswer(w.m);
  }

  lemma LeftOverStatusFails(w: World)
    requires Steady(w) && AnswersOk(w.m) && w.m.queries.status.ticket != 0 && IsOnline(w.m)
    requires LeftOver(w.m.tickets, w.m.queries.status.ticket) && GetStatus(w.m).m.tickets.taken <= CYCLE
    ensures GetStatus(w.m).value.Some? ==> GetStatus(w.m).value.value.usersOnline == 0
  {
    hide Steady, AnswersOk, GetStatus, IsOnline;
    CallMove(w, CallGetStatus);
    StatusAnswer(w.m);
  }

  /** The query is on record still, and may be polled once more. */
  predicate NamePending(m: Mgr, r: Mgr, user: bytes) {
    && user in m.queries.fetches && Parse(user).Some? && user in r.queries.fetches
    && r.queries.fetches[user] == m.queries.fetches[user] && FetchUserData(r, user).m.tickets.taken <= CYCLE
  }

  predicate NameFails(r: Mgr, user: bytes) {
    FetchUserData(r, user).value == []
  }

  predicate RandomPending(m: Mgr, r: Mgr) {
    m.queries.random.ticket != 0 && r.queries.random == m.queries.random && FetchRandomUser(r).m.tickets.taken <= CYCLE
  }

  predicate RandomFails(r: Mgr) {
    FetchRandomUser(r).value == []
  }

  predicate StatusPending(m: Mgr, r: Mgr) {
    && m.queries.status.ticket != 0 && r.queries.status == m.queries.status && IsOnline(r)
    && GetStatus(r).m.tickets.taken <= CYCLE
  }

  predicate StatusFails(r: Mgr) {
    GetStatus(r).value.Some? ==> GetStatus(r).value.value.usersOnline == 0
  }

  /** All together, over any run: what earlier connections left unanswered fails, whichever query it was. */
  lemma LeftOverQueriesFail(w: World, moves: seq<Steps.Move>, user: bytes)
    requires Steady(w) && AnswersOk(w.m) && Steps.FairPlay(w, moves)
    requires Steps.PlayAll(w, moves).m.tickets.taken <= CYCLE
    ensures var r, q := Steps.PlayAll(w, moves).m, w.m.queries;
            && (NamePending(w.m, r, user) && LeftOver(w.m.tickets, q.fetches[user].ticket) ==> NameFails(r, user))
            && (RandomPending(w.m, r) && LeftOver(w.m.tickets, q.random.ticket) ==> RandomFails(r))
            && (StatusPending(w.m, r) && LeftOver(w.m.tickets, q.status.ticket) ==> StatusFails(r))
  {
    hide Steady, AnswersOk, Steps.FairPlay, Steps.PlayAll, Steps.PlayDerails, FetchUserData, FetchRandomUser,
         GetStatus, LeftOver, Parse, IsOnline;
    var r, q := Steps.PlayAll(w, moves), w.m.queries;
    Steps.PlaySteady(w, moves);
    PlayFollows(w, moves);
    if NamePending(w.m, r.m, user) && LeftOver(w.m.tickets, q.fetches[user].ticket) {
      LeftOverStays(w, moves, q.fetches[user].ticket);
      LeftOverFetchFails(r, user);
    }
    if RandomPending(w.m, r.m) && LeftOver(w.m.tickets, q.random.ticket) {
      LeftOverStays(w, moves, q.random.ticket);
      LeftOverRandomFails(r);
    }
    if StatusPending(w.m, r.m) && LeftOver(w.m.tickets, q.status.ticket) {
      LeftOverStays(w, moves, q.status.ticket);
      LeftOverStatusFails(r);
    }
  }

  /** What a connection begun over a table with unanswered entries leaves over. */
  lemma BeginLeavesOver(m: Mgr, call: Call, ticket: int32)
    requires AnswersOk(m) && Begins(m, call) && ticket in m.tickets.table && !m.tickets.table[ticket].done
    ensures LeftOver(Do(m, call).tickets, ticket) && Do(m, call).queries == m.queries
  {
    hide AnswersOk;
    BeginFiles(m, call);
    UnansweredBefore(m, ticket);
  }

  /** A question is under way in the table. */
  predicate Unanswered(t: Tickets, ticket: int32) {
    ticket in t.table && !t.table[ticket].done
  }

  /** So from the moment of reconnecting on, with such a server: what was unanswered then fails. */
  lemma ReconnectedQueriesFail(w: World, users: seq<bytes>, moves: seq<Steps.Move>, user: bytes)
    requires Steady(w) && AnswersOk(w.m) && Begins(w.m, CallConnect(users))
    requires var again := Steps.Client(CallConnect(users), []);
             && Steps.Fair(w, again) && Steps.FairPlay(Steps.Play(w, again), moves)
             && Steps.PlayAll(Steps.Play(w, again), moves).m.tickets.taken <= CYCLE
    ensures var r, q := Steps.PlayAll(Steps.Play(w, Steps.Client(CallConnect(users), [])), moves).m, w.m.queries;
            && (NamePending(w.m, r, user) && Unanswered(w.m.tickets, q.fetches[user].ticket) ==> NameFails(r, user))
            && (RandomPending(w.m, r) && Unanswered(w.m.tickets, q.random.ticket) ==> RandomFails(r))
            && (StatusPending(w.m, r) && Unanswered(w.m.tickets, q.status.ticket) ==> StatusFails(r))
  {
    hide Steady, AnswersOk, Steps.FairPlay, Steps.PlayAll, Steps.Fair, LeftOver, Begins, Do,
         FetchUserData, FetchRandomUser, GetStatus, Steps.MoveDerails, Parse, IsOnline;
    var call := CallConnect(users);
    var again := Steps.Client(call, []);
    var n := Steps.Play(w, again);
    Steps.DoAlone(w, call);
    Steps.PlayTakes(n, moves);
    Steps.MoveSteady(w, again);
    MoveFollows(w, again);
    FollowsSound(w.m, n.m);
    LeftOverQueriesFail(n, moves, user);
    var q := w.m.queries;
    if user in q.fetches && Unanswered(w.m.tickets, q.fetches[user].ticket) {
      BeginLeavesOver(w.m, call, q.fetches[user].ticket);
    }
    if Unanswered(w.m.tickets, q.random.ticket) {
      BeginLeavesOver(w.m, call, q.random.ticket);
    }
    if Unanswered(w.m.tickets, q.status.ticket) {
      BeginLeavesOver(w.m, call, q.status.ticket);
    }
  }
}
