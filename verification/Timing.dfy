/** Nothing blocks for ever: connecting, waiting and polling all end by their deadlines on the wrapping clock. */
module Timing {
  import opened Bytes
  import opened Uins
  import opened Protocol
  import opened Sockets
  import opened Clock
  import opened Tickets
  import opened Watching
  import opened Client
  import opened Connection
  import opened Api
  import opened Sound
  import opened Acts
  import opened LockStepRun
  import opened PresenceRuns
  import Answers

  /** Every wait the host still has in store is at most this long. */
  predicate Short(naps: seq<Nap>, bound: nat) {
    bound >= 50 && forall i | 0 <= i < |naps| :: naps[i] <= bound
  }

  /** Milliseconds to the connection deadline, on the wrapping clock. */
  function Left(m: Mgr): nat {
    ToUint32(m.session.deadline - NowMs(m.clock))
  }

  predicate Due(m: Mgr) {
    TimeAfter(NowMs(m.clock), m.session.deadline)
  }

  // ---- what a pump leaves alone ----

  lemma StepDeadline(m: Mgr)
    ensures AfterStep(m).session.deadline == m.session.deadline
    ensures AfterStep(m).clock == m.clock && AfterStep(m).naps == m.naps
  {
    hide Frame, Answered, ReadHeader, LowByte, Accepts, WriteSock, Build, ParseMessage, ParseUser, SendRegistrations,
         Spool.SpoolPray, Update;
    match Frame(m.sock.input, m.tickets.table)
    case NeedMore =>
    case Broken =>
    case Whole(size, reply) =>
      if !reply {
        HandshakeDeadline(m, ReadHeader(m.sock.input), m.sock.input[..size]);
      }
  }

  lemma HandshakeDeadline(m: Mgr, h: Header, raw: bytes)
    requires |raw| > 1
    ensures HandleHandshake(m, h, raw).session.deadline == m.session.deadline
  {
    hide SendRegistrations, ServerList.Announced, MapHandshakeError;
    RegistrationsSession(Entered(m, h, raw), m.watch.usersForWWR);
  }

  lemma {:induction false} ProcessDeadline(m: Mgr)
    ensures Process(m).session.deadline == m.session.deadline
    decreases |m.sock.input|
  {
    hide Step;
    StepDeadline(m);
    match Step(m)
    case Waiting =>
    case Dropped(n) =>
    case Continue(n) => ProcessDeadline(n);
  }

  /** While a connection is under way, polling it keeps its deadline and starts no other. */
  lemma PollKeepsDeadline(m: Mgr)
    requires UnderWay(m)
    ensures var c := ConnectInBackground(m, []);
            && c.session.deadline == m.session.deadline && c.tickets.connection == m.tickets.connection
            && c.clock == m.clock && c.naps == m.naps
            && (UnderWay(c) ==> !Due(c))
  {
    hide LoginStep, AwaitStep, DeadlineStep;
    PumpIs(m);
    Answers.PumpGrows(m);
    LoginDeadline(m);
    AwaitDeadline(LoginStep(m));
    DeadlineHeeded(AwaitStep(LoginStep(m)));
  }

  predicate SameDeadline(m: Mgr, r: Mgr) {
    r.session.deadline == m.session.deadline
  }

  lemma LoginDeadline(m: Mgr)
    ensures SameDeadline(m, LoginStep(m))
  {
    hide PollSock, WriteSock, Build, NextTicket;
  }

  lemma AwaitDeadline(m: Mgr)
    ensures SameDeadline(m, AwaitStep(m))
  {
    hide PumpSock, Process;
    ProcessDeadline(m.(sock := PumpSock(m.sock)));
  }

  lemma DeadlineHeeded(m: Mgr)
    ensures SameDeadline(m, DeadlineStep(m)) && (UnderWay(DeadlineStep(m)) ==> !Due(DeadlineStep(m)))
  {
    hide TimeAfter;
  }

  lemma StartSetsDeadline(m: Mgr, users: seq<bytes>)
    requires !UnderWay(m)
    ensures var c := ConnectInBackground(m, users);
            c.clock == m.clock && c.naps == m.naps && (UnderWay(c) ==> !Due(c) && Left(c) == CONNECT_TIMEOUT)
  {
    hide BeginSock, NowMs;
    TimeAfterReal(m.clock, m.clock, CONNECT_TIMEOUT);
    LeftAfter(NowMs(m.clock), CONNECT_TIMEOUT);
  }

  lemma LeftAfter(now: uint32, timeout: nat)
    requires timeout < TWO_31
    ensures ToUint32(Deadline(now, timeout) - now) == timeout
  {
    var d: int := Deadline(now, timeout);
    assert d == now + timeout || d == now + timeout - TWO_32;
  }

  /** A wait brings the deadline closer, or is the last. */
  lemma WaitShrinks(m: Mgr)
    requires !Due(m)
    ensures Wait(m).session.deadline == m.session.deadline && 0 < Left(m) <= TWO_31
    ensures !Due(Wait(m)) ==> Left(Wait(m)) + (Wait(m).clock - m.clock) == Left(m)
    ensures Wait(m).clock > m.clock
  {
    WindowStep(NowMs(m.clock), m.session.deadline, Head(m.naps, 50));
    Wrapped(m.clock, Head(m.naps, 50));
  }

  lemma WindowStep(now: uint32, deadline: uint32, nap: Nap)
    requires !TimeAfter(now, deadline)
    ensures 0 < ToUint32(deadline - now) <= TWO_31
    ensures !TimeAfter(ToUint32(now + nap), deadline)
            ==> ToUint32(deadline - ToUint32(now + nap)) + nap == ToUint32(deadline - now)
  {
    var later: int := ToUint32(now + nap);
    assert later == now + nap || later == now + nap - TWO_32;
    assert ToUint32(deadline - now) == deadline - now || ToUint32(deadline - now) == deadline - now + TWO_32;
  }

  // ---- Connect ----

  /** The polling loop of Connect. */
  function PollConnect(c: Mgr): Mgr
    requires UnderWay(c) ==> !Due(c)
    decreases if UnderWay(c) then Left(c) + 1 else 0
  {
    hide ConnectInBackground, Wait;
    if !UnderWay(c) then c
    else
      WaitShrinks(c);
      WaitIsUnderWay(c);
      PollKeepsDeadline(Wait(c));
      PollShrinks(c);
      PollConnect(ConnectInBackground(Wait(c), []))
  }

  lemma WaitIsUnderWay(c: Mgr)
    ensures UnderWay(Wait(c)) == UnderWay(c) && Wait(c).tickets == c.tickets
  {
  }

  lemma PollShrinks(c: Mgr)
    requires UnderWay(c) && !Due(c)
    ensures var n := ConnectInBackground(Wait(c), []);
            UnderWay(n) ==> !Due(n) && Left(n) + (n.clock - c.clock) == Left(c) && n.clock > c.clock
  {
    hide ConnectInBackground, TimeAfter, NowMs, ToUint32, Wait;
    WaitIsUnderWay(c);
    WaitShrinks(c);
    PollKeepsDeadline(Wait(c));
  }

  function Connect(m: Mgr): Mgr {
    hide ConnectInBackground;
    ConnectStarts(m);
    PollConnect(ConnectInBackground(m, []))
  }

  lemma ConnectStarts(m: Mgr)
    ensures var c := ConnectInBackground(m, []); UnderWay(c) ==> !Due(c)
  {
    hide ConnectInBackground, Due;
    if UnderWay(m) { PollKeepsDeadline(m); } else { StartSetsDeadline(m, []); }
  }

  /** Polling ends no later than one wait after the deadline, and begins no connection. */
  lemma {:induction false} PollConnectWithin(c: Mgr, bound: nat)
    requires UnderWay(c) ==> !Due(c)
    requires Short(c.naps, bound)
    ensures !UnderWay(PollConnect(c)) && PollConnect(c).tickets.connection == c.tickets.connection
    ensures PollConnect(c).clock <= c.clock + (if UnderWay(c) then Left(c) + bound else 0)
    decreases if UnderWay(c) then Left(c) + 1 else 0
  {
    hide ConnectInBackground, Due, Left;
    if UnderWay(c) {
      var n := ConnectInBackground(Wait(c), []);
      WaitIsUnderWay(c);
      WaitShrinks(c);
      PollKeepsDeadline(Wait(c));
      PollShrinks(c);
      assert Head(c.naps, 50) <= bound;
      PollConnectWithin(n, bound);
    }
  }

  /** Connect ends by its deadline plus one wait, with the connection decided, and begins at most one connection:
      none if it finds the client online or a connection under way, whose deadline then is the one that counts. */
  lemma ConnectWithin(m: Mgr, bound: nat)
    requires Short(m.naps, bound)
    ensures !UnderWay(Connect(m))
    ensures Connect(m).clock <= m.clock + (if UnderWay(m) then Left(m) else CONNECT_TIMEOUT) + bound
    ensures UnderWay(m) && Due(m) ==> Connect(m).clock == m.clock
    ensures Connect(m).tickets.connection == m.tickets.connection + (if StartsConnection(m) then 1 else 0)
  {
    hide ConnectInBackground, Due, Left;
    var c := ConnectInBackground(m, []);
    Answers.ConnectTakes(m, []);
    if UnderWay(m) {
      PollKeepsDeadline(m);
      SameClock(m, c);
    } else {
      StartSetsDeadline(m, []);
    }
    PollConnectWithin(c, bound);
  }

  // ---- waiting for a transaction ----

  /** The wait for a transaction ends no later than one wait after its deadline. */
  lemma {:induction false} WaitForWithin(m: Mgr, ticket: int32, deadline: nat, bound: nat)
    requires m.clock < deadline + TWO_31 && deadline <= m.clock + TWO_31
    requires Short(m.naps, bound) && m.clock <= deadline + bound
    ensures WaitFor(m, ticket, deadline).0.clock <= deadline + bound
    decreases deadline - m.clock
  {
    hide Pump, TimeAfter, Poll, AfterPoll, Abandon, NowMs;
    var p := Pump(m);
    if Poll(p.tickets, ticket).Pending? && IsOnline(p) && !TimeAfter(NowMs(p.clock), NowMs(deadline)) {
      StillBefore(p.clock, deadline);
      assert Head(p.naps, 50) <= bound;
      WaitForWithin(Wait(p), ticket, deadline, bound);
    }
  }

  // ---- polled queries ----

  /** The reading of the clock at a time when a query made at `start` is overdue. */
  predicate Overdue(m: Mgr, start: nat, timeout: nat) {
    start + timeout <= m.clock < start + timeout + TWO_31
  }

  /** A name fetch, random-user or status query made at `start` no longer blocks once its time is up. */
  lemma QueriesUnblock(m: Mgr, user: bytes, start: nat)
    requires Overdue(m, start, QUERY_TIMEOUT)
    ensures user in m.queries.fetches && m.queries.fetches[user].deadline == Deadline(NowMs(start), QUERY_TIMEOUT) ==>
              !FetchUserData(m, user).block
    ensures m.queries.random.ticket != 0 && m.queries.random.deadline == Deadline(NowMs(start), QUERY_TIMEOUT) ==>
              !FetchRandomUser(m).block
    ensures m.queries.status.ticket != 0 && m.queries.status.deadline == Deadline(NowMs(start), QUERY_TIMEOUT) ==>
              !GetStatus(m).block
  {
    hide Pump, Parse, Poll, AfterPoll, Abandon, TimeAfter, NowMs, Deadline;
    TimeAfterReal(m.clock, start, QUERY_TIMEOUT);
  }

  /** And such a query is what the first, blocking call sets up. */
  lemma QueriesBlockUntil(m: Mgr, user: bytes)
    ensures user !in m.queries.fetches && FetchUserData(m, user).block ==>
              user in FetchUserData(m, user).m.queries.fetches
              && FetchUserData(m, user).m.queries.fetches[user].deadline == Deadline(NowMs(m.clock), QUERY_TIMEOUT)
    ensures m.queries.random.ticket == 0 && FetchRandomUser(m).block ==>
              FetchRandomUser(m).m.queries.random.ticket != 0
              && FetchRandomUser(m).m.queries.random.deadline == Deadline(NowMs(m.clock), QUERY_TIMEOUT)
    ensures m.queries.status.ticket == 0 && GetStatus(m).block ==>
              GetStatus(m).m.queries.status.ticket != 0
              && GetStatus(m).m.queries.status.deadline == Deadline(NowMs(m.clock), QUERY_TIMEOUT)
  {
    hide Parse, Start, WriteSock, Build, NowMs, Deadline, Pump, Poll;
    StartIsNotZero(m.tickets, RandomUser, 0);
    StartIsNotZero(m.tickets, Status, 16);
  }

  // ---- the same over runs ----

  datatype Query = Name(user: bytes) | RandomOne | ServerStatus

  /** The record of a pending query. */
  function RecordOf(q: Queries, which: Query): Option<PendingQuery> {
    match which
    case Name(user) => if user in q.fetches then Some(q.fetches[user]) else None
    case RandomOne => if q.random.ticket != 0 then Some(q.random) else None
    case ServerStatus => if q.status.ticket != 0 then Some(q.status) else None
  }

  /** The query stays on record through every act of a script, and of a run. */
  predicate AsksOn(m: Mgr, s: Script, which: Query)
    decreases s
  {
    RecordOf(m.queries, which).Some? && (s.Then? ==> AsksOn(Perform(m, s.act), s.rest, which))
  }

  predicate AsksThroughout(m: Mgr, calls: seq<Call>, which: Query)
    decreases |calls|
  {
    calls != [] ==> AsksOn(m, ScriptOf(m, calls[0]), which) && AsksThroughout(Do(m, calls[0]), calls[1..], which)
  }

  lemma ActKeepsQuery(m: Mgr, act: Act, which: Query)
    requires Proper(m, act) && RecordOf(m.queries, which).Some? && RecordOf(Perform(m, act).queries, which).Some?
    ensures RecordOf(Perform(m, act).queries, which) == RecordOf(m.queries, which)
  {
    hide Pump, ConnectInBackground, Start, Abandon, AfterPoll, WriteSock, Build, Parse, Remove, Puts, Tells, NewlyAsked,
         FinishAdd, AfterNext, AllOffline, NowMs, Deadline;
    match act
    case Pumps => Answers.PumpGrows(m);
    case Connects(users) => ConnectKeepsQueries(m, users);
    case _ =>
  }

  lemma ConnectKeepsQueries(m: Mgr, users: seq<bytes>)
    ensures ConnectInBackground(m, users).queries == m.queries
  {
    hide Pump, PumpConnectPhase, BeginSock;
    Answers.PumpGrows(m);
    if UnderWay(m) {
      PumpIs(m);
    }
  }

  lemma {:induction false} ScriptKeepsQuery(m: Mgr, s: Script, which: Query)
    requires AllProper(m, s) && AsksOn(m, s, which)
    ensures RecordOf(Play(m, s).queries, which) == RecordOf(m.queries, which)
    decreases s
  {
    hide Perform, Proper, RecordOf;
    if s.Then? {
      ActKeepsQuery(m, s.act, which);
      ScriptKeepsQuery(Perform(m, s.act), s.rest, which);
    }
  }

  lemma {:induction false} RunKeepsQuery(m: Mgr, calls: seq<Call>, which: Query)
    requires AsksThroughout(m, calls, which)
    ensures RecordOf(DoAll(m, calls).queries, which) == RecordOf(m.queries, which)
    decreases |calls|
  {
    hide Do, ScriptOf, AsksOn, AllProper, Play, RecordOf;
    if calls != [] {
      CallLeads(m, calls[0]);
      ScriptKeepsQuery(m, ScriptOf(m, calls[0]), which);
      RunKeepsQuery(Do(m, calls[0]), calls[1..], which);
    }
  }

  /** From the first, blocking call of a query on, any run that leaves it pending, however the clock stands within
      the window, ends with a call that unblocks. */
  lemma QueriesUnblockOverRuns(m: Mgr, calls: seq<Call>, user: bytes)
    ensures var f := FetchUserData(m, user);
            (user !in m.queries.fetches && f.block && AsksThroughout(f.m, calls, Name(user))
             && Overdue(DoAll(f.m, calls), m.clock, QUERY_TIMEOUT)) ==> !FetchUserData(DoAll(f.m, calls), user).block
    ensures var f := FetchRandomUser(m);
            (m.queries.random.ticket == 0 && f.block && AsksThroughout(f.m, calls, RandomOne)
             && Overdue(DoAll(f.m, calls), m.clock, QUERY_TIMEOUT)) ==> !FetchRandomUser(DoAll(f.m, calls)).block
    ensures var f := GetStatus(m);
            (m.queries.status.ticket == 0 && f.block && AsksThroughout(f.m, calls, ServerStatus)
             && Overdue(DoAll(f.m, calls), m.clock, QUERY_TIMEOUT)) ==> !GetStatus(DoAll(f.m, calls)).block
  {
    hide FetchUserData, FetchRandomUser, GetStatus, AsksThroughout, DoAll, NowMs, Deadline;
    QueriesBlockUntil(m, user);
    var f, g, h := FetchUserData(m, user).m, FetchRandomUser(m).m, GetStatus(m).m;
    if AsksThroughout(f, calls, Name(user)) && Overdue(DoAll(f, calls), m.clock, QUERY_TIMEOUT) {
      RunKeepsQuery(f, calls, Name(user));
      QueriesUnblock(DoAll(f, calls), user, m.clock);
    }
    if AsksThroughout(g, calls, RandomOne) && Overdue(DoAll(g, calls), m.clock, QUERY_TIMEOUT) {
      RunKeepsQuery(g, calls, RandomOne);
      QueriesUnblock(DoAll(g, calls), user, m.clock);
    }
    if AsksThroughout(h, calls, ServerStatus) && Overdue(DoAll(h, calls), m.clock, QUERY_TIMEOUT) {
      RunKeepsQuery(h, calls, ServerStatus);
      QueriesUnblock(DoAll(h, calls), user, m.clock);
    }
  }

  /** Packets only ever take pending adds away. */
  predicate FewerAdds(w: Watch, v: Watch) {
    forall u | u in v.pendingAdds :: u in w.pendingAdds && v.pendingAdds[u] == w.pendingAdds[u]
  }

  lemma {:induction false} RegistrationsAdds(m: Mgr, users: seq<bytes>)
    ensures SendRegistrations(m, users).watch.pendingAdds == m.watch.pendingAdds
    decreases |users|
  {
    hide Parse, WriteSock, Build;
    if users != [] {
      RegistrationsAdds(m, users[1..]);
      if Parse(users[0]).Some? {
        RegistrationsAdds(Send(m.(watch := Register(m.watch, users[0])),
                               WwrModify(true, m.session.server, Parse(users[0]).value)), users[1..]);
      }
    }
  }

  lemma StepAdds(m: Mgr)
    ensures FewerAdds(m.watch, AfterStep(m).watch)
  {
    hide Frame, Answered, ReadHeader, LowByte, HandleHandshake, HandlePacket, Drops, ConnectionLost;
    match Frame(m.sock.input, m.tickets.table)
    case NeedMore =>
    case Broken => LostAdds(m);
    case Whole(size, reply) =>
      var h, raw := ReadHeader(m.sock.input), m.sock.input[..size];
      if !reply {
        HandshakeAdds(m, h, raw);
        PacketAdds(m, h, m.sock.input[HEADER_SIZE..size]);
      }
  }

  lemma LostAdds(m: Mgr)
    ensures FewerAdds(m.watch, ConnectionLost(m).watch)
  {
  }

  lemma UpdateAdds(w: Watch, uin: Uin, online: bool, nickName: bytes)
    ensures FewerAdds(w, Update(w, uin, online, nickName))
  {
    hide Synced;
  }

  lemma PacketAdds(m: Mgr, h: Header, body: bytes)
    ensures FewerAdds(m.watch, HandlePacket(m, h, body).watch)
  {
    hide LowByte, ParseMessage, ParseUser, WriteSock, Build, Spool.SpoolPray, Update, ConnectionLost;
    UpdateAdds(m.watch, Uin(h.c, h.d), h.e != 0, []);
    LostAdds(Send(m.(vsn := NextVSN(m.vsn)), Accepting(m, h)));
    if ParseUser(body).Some? {
      UpdateAdds(m.watch, ParseUser(body).value.uin, LowByte(h.kind) == USER_ONLINE, ParseUser(body).value.nickName);
    }
  }

  lemma HandshakeAdds(m: Mgr, h: Header, raw: bytes)
    requires |raw| > 1
    ensures HandleHandshake(m, h, raw).watch.pendingAdds == m.watch.pendingAdds
  {
    hide SendRegistrations, ServerList.Announced, MapHandshakeError;
    RegistrationsAdds(Entered(m, h, raw), m.watch.usersForWWR);
  }

  lemma {:induction false} ProcessAdds(m: Mgr)
    ensures FewerAdds(m.watch, Process(m).watch)
    decreases |m.sock.input|
  {
    hide Step;
    StepAdds(m);
    match Step(m)
    case Waiting =>
    case Dropped(n) =>
    case Continue(n) => ProcessAdds(n);
  }

  lemma PumpAdds(m: Mgr)
    ensures FewerAdds(m.watch, Pump(m).watch)
  {
    hide Process, ProcessedBy, Pump, AllOffline;
    PumpIsProcess(m);
    if ProcessedBy(m).Some? {
      ProcessAdds(ProcessedBy(m).value);
      NoAdds(Process(ProcessedBy(m).value).watch);
    }
  }

  lemma NoAdds(w: Watch)
    ensures AllOffline(w).pendingAdds == map[]
  {
  }

  /** An AddToWWR begun at `start` no longer blocks once its time is up. */
  lemma AddUnblocks(m: Mgr, user: bytes, start: nat)
    requires Overdue(m, start, WWR_ADD_TIMEOUT)
    requires user in m.watch.pendingAdds && m.watch.pendingAdds[user] == Deadline(NowMs(start), WWR_ADD_TIMEOUT)
    ensures !AddToWWR(m, user).block
  {
    hide Pump, Parse, FinishAdd, TimeAfter, NowMs, Deadline;
    TimeAfterReal(m.clock, start, WWR_ADD_TIMEOUT);
    PumpAdds(Watched(m, BeginAdd(m.watch, user)));
  }

  /** The user stays waited for through every act of a script, and of a run. */
  predicate WaitsOn(m: Mgr, s: Script, user: bytes)
    decreases s
  {
    user in m.watch.pendingAdds && (s.Then? ==> WaitsOn(Perform(m, s.act), s.rest, user))
  }

  predicate WaitsThroughout(m: Mgr, calls: seq<Call>, user: bytes)
    decreases |calls|
  {
    calls != [] ==> WaitsOn(m, ScriptOf(m, calls[0]), user) && WaitsThroughout(Do(m, calls[0]), calls[1..], user)
  }

  lemma ActKeepsAdd(m: Mgr, act: Act, user: bytes)
    requires Proper(m, act) && user in m.watch.pendingAdds && user in Perform(m, act).watch.pendingAdds
    ensures Perform(m, act).watch.pendingAdds[user] == m.watch.pendingAdds[user]
  {
    hide Pump, PumpConnectPhase, BeginSock, Start, Abandon, AfterPoll, WriteSock, Build;
    PumpAdds(m);
    if UnderWay(m) {
      PumpIs(m);
    }
  }

  lemma {:induction false} ScriptKeepsAdd(m: Mgr, s: Script, user: bytes)
    requires AllProper(m, s) && WaitsOn(m, s, user)
    ensures user in Play(m, s).watch.pendingAdds && Play(m, s).watch.pendingAdds[user] == m.watch.pendingAdds[user]
    decreases s
  {
    hide Perform, Proper;
    if s.Then? {
      ActKeepsAdd(m, s.act, user);
      ScriptKeepsAdd(Perform(m, s.act), s.rest, user);
    }
  }

  lemma {:induction false} RunKeepsAdd(m: Mgr, calls: seq<Call>, user: bytes)
    requires WaitsThroughout(m, calls, user) && user in m.watch.pendingAdds
    ensures var w := DoAll(m, calls).watch; user in w.pendingAdds && w.pendingAdds[user] == m.watch.pendingAdds[user]
    decreases |calls|
  {
    hide Do, ScriptOf, WaitsOn, AllProper, Play;
    if calls != [] {
      CallLeads(m, calls[0]);
      ScriptKeepsAdd(m, ScriptOf(m, calls[0]), user);
      RunKeepsAdd(Do(m, calls[0]), calls[1..], user);
    }
  }

  /** And so over runs: an add that stays pending ends with a call that unblocks. */
  lemma AddUnblocksOverRuns(m: Mgr, calls: seq<Call>, user: bytes)
    requires user !in m.watch.pendingAdds && AddToWWR(m, user).block
    requires WaitsThroughout(AddToWWR(m, user).m, calls, user)
             && Overdue(DoAll(AddToWWR(m, user).m, calls), m.clock, WWR_ADD_TIMEOUT)
    ensures !AddToWWR(DoAll(AddToWWR(m, user).m, calls), user).block
  {
    hide AddToWWR, WaitsThroughout, DoAll, NowMs, Deadline;
    AddBlocksUntil(m, user);
    RunKeepsAdd(AddToWWR(m, user).m, calls, user);
    AddUnblocks(DoAll(AddToWWR(m, user).m, calls), user, m.clock);
  }

  lemma AddBlocksUntil(m: Mgr, user: bytes)
    requires user !in m.watch.pendingAdds && AddToWWR(m, user).block
    ensures var w := AddToWWR(m, user).m.watch;
            user in w.pendingAdds && w.pendingAdds[user] == Deadline(NowMs(m.clock), WWR_ADD_TIMEOUT)
  {
    hide Parse, WriteSock, Build, NowMs, Deadline, FinishAdd, Pump;
  }

  // ---- the blocking form of the random-user query ----

  /** How long a loop around ConnectInBackground can go on. */
  function Patience(m: Mgr): nat {
    if !UnderWay(m) then TWO_31 + 2 else if Due(m) then 0 else Left(m) + 1
  }

  lemma PatienceShrinks(m: Mgr)
    requires UnderWay(ConnectInBackground(m, []))
    ensures Patience(Wait(ConnectInBackground(m, []))) < Patience(m)
  {
    hide ConnectInBackground, TimeAfter, Left, Wait;
    var c := ConnectInBackground(m, []);
    ConnectStarts(m);
    WaitShrinks(c);
    WaitIsUnderWay(c);
    if UnderWay(m) {
      PollKeepsDeadline(m);
      SameClock(m, c);
    } else {
      StartSetsDeadline(m, []);
    }
  }

  lemma SameClock(m: Mgr, c: Mgr)
    requires c.session.deadline == m.session.deadline && c.clock == m.clock
    ensures Left(c) == Left(m) && Due(c) == Due(m)
  {
  }

  function RandomPatience(m: Mgr): nat {
    var q := m.queries.random;
    if q.ticket == 0 then TWO_31 + 2
    else if TimeAfter(NowMs(m.clock), q.deadline) then 0
    else ToUint32(q.deadline - NowMs(m.clock)) + 1
  }

  lemma RandomPatienceShrinks(m: Mgr)
    requires FetchRandomUser(m).block
    ensures RandomPatience(Wait(FetchRandomUser(m).m)) < RandomPatience(m)
  {
    hide FetchRandomUser, TimeAfter, ToUint32;
    var c := FetchRandomUser(m).m;
    RandomWindow(m);
    Wrapped(c.clock, Head(c.naps, 50));
    WindowStep(NowMs(c.clock), c.queries.random.deadline, Head(c.naps, 50));
  }

  lemma RandomWindow(m: Mgr)
    requires FetchRandomUser(m).block
    ensures var c := FetchRandomUser(m).m;
            && c.clock == m.clock && c.queries.random.ticket != 0
            && !TimeAfter(NowMs(c.clock), c.queries.random.deadline)
            && (m.queries.random.ticket != 0 ==> c.queries.random == m.queries.random)
  {
    hide Pump, Start, WriteSock, Build, Poll, AfterPoll, Abandon, NowMs;
    StartIsNotZero(m.tickets, RandomUser, 0);
    Answers.PumpGrows(m);
    TimeAfterReal(m.clock, m.clock, QUERY_TIMEOUT);
  }

  lemma StartIsNotZero(t: Tickets, kind: Kind, fixedExtra: nat)
    ensures Start(t, kind, fixedExtra, []).next != 0
  {
  }

  /** DSFetchRandomUser without a block flag: polls every 50 ms until there is an answer, or none. */
  function BlockingRandomUser(m: Mgr): (Mgr, bytes)
    decreases RandomPatience(m)
  {
    hide FetchRandomUser, Wait, RandomPatience;
    var c := FetchRandomUser(m);
    if !c.block then (c.m, c.value)
    else
      RandomPatienceShrinks(m);
      BlockingRandomUser(Wait(c.m))
  }

  // ---- blocking calls are runs of the others ----

  /** The host lets the wait between two polls pass. */
  function LetWait(m: Mgr): Call {
    Host(m.sock.kernel, Wait(m).clock, Wait(m).naps, m.disk)
  }

  lemma LetWaitWaits(m: Mgr)
    ensures Do(m, LetWait(m)) == Wait(m)
  {
  }

  function PollRun(c: Mgr): seq<Call>
    requires UnderWay(c) ==> !Due(c)
    decreases if UnderWay(c) then Left(c) + 1 else 0
  {
    hide ConnectInBackground, Wait;
    if !UnderWay(c) then []
    else
      WaitShrinks(c);
      WaitIsUnderWay(c);
      PollKeepsDeadline(Wait(c));
      PollShrinks(c);
      [LetWait(c), CallConnect([])] + PollRun(ConnectInBackground(Wait(c), []))
  }

  /** Connect: ConnectInBackground over and over, with waits. */
  function ConnectRun(m: Mgr): seq<Call> {
    hide ConnectInBackground;
    ConnectStarts(m);
    [CallConnect([])] + PollRun(ConnectInBackground(m, []))
  }

  lemma {:induction false} PollIsRun(c: Mgr)
    requires UnderWay(c) ==> !Due(c)
    ensures DoAll(c, PollRun(c)) == PollConnect(c)
    decreases if UnderWay(c) then Left(c) + 1 else 0
  {
    hide ConnectInBackground, Wait, LetWait, Left, Due;
    if UnderWay(c) {
      var n := ConnectInBackground(Wait(c), []);
      WaitShrinks(c);
      WaitIsUnderWay(c);
      PollKeepsDeadline(Wait(c));
      PollShrinks(c);
      LetWaitWaits(c);
      TwoThen(c, LetWait(c), CallConnect([]), PollRun(n));
      PollIsRun(n);
    }
  }

  lemma TwoThen(m: Mgr, a: Call, b: Call, rest: seq<Call>)
    ensures DoAll(m, [a, b] + rest) == DoAll(Do(Do(m, a), b), rest)
  {
    hide Do;
    assert ([a, b] + rest)[1..] == [b] + rest && ([b] + rest)[1..] == rest;
    assert DoAll(Do(m, a), [b] + rest) == DoAll(Do(Do(m, a), b), rest);
  }

  lemma OneThen(m: Mgr, a: Call, rest: seq<Call>)
    ensures DoAll(m, [a] + rest) == DoAll(Do(m, a), rest)
  {
    hide Do;
    assert ([a] + rest)[1..] == rest;
  }

  /** So whatever holds over runs of calls holds of Connect, */
  lemma ConnectIsRun(m: Mgr)
    ensures DoAll(m, ConnectRun(m)) == Connect(m)
  {
    hide ConnectInBackground, DoAll, PollRun, PollConnect;
    ConnectStarts(m);
    var c := ConnectInBackground(m, []);
    OneThen(m, CallConnect([]), PollRun(c));
    PollIsRun(c);
  }

  /** and of DSFetchRandomUser without a block flag. */
  function RandomRun(m: Mgr): seq<Call>
    decreases RandomPatience(m)
  {
    hide FetchRandomUser, Wait, RandomPatience;
    var c := FetchRandomUser(m);
    if !c.block then [CallFetchRandomUser]
    else
      RandomPatienceShrinks(m);
      [CallFetchRandomUser, LetWait(c.m)] + RandomRun(Wait(c.m))
  }

  lemma {:induction false} RandomIsRun(m: Mgr)
    ensures DoAll(m, RandomRun(m)) == BlockingRandomUser(m).0
    ensures var calls := RandomRun(m);
            && calls != [] && calls[|calls| - 1] == CallFetchRandomUser
            && var last := FetchRandomUser(DoAll(m, calls[..|calls| - 1]));
               !last.block && last.value == BlockingRandomUser(m).1
    decreases RandomPatience(m)
  {
    hide FetchRandomUser, Wait, LetWait, RandomPatience;
    var c := FetchRandomUser(m);
    if c.block {
      RandomPatienceShrinks(m);
      LetWaitWaits(c.m);
      var rest := RandomRun(Wait(c.m));
      TwoThen(m, CallFetchRandomUser, LetWait(c.m), rest);
      RandomIsRun(Wait(c.m));
      TwoThen(m, CallFetchRandomUser, LetWait(c.m), rest[..|rest| - 1]);
      assert RandomRun(m)[..|RandomRun(m)| - 1] == [CallFetchRandomUser, LetWait(c.m)] + rest[..|rest| - 1];
    } else {
      assert RandomRun(m)[..0] == [];
      assert [CallFetchRandomUser] + [] == [CallFetchRandomUser];
      OneThen(m, CallFetchRandomUser, []);
    }
  }
}
