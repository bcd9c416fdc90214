/** No transaction is forgotten in the table: each is waited for by a query, or abandoned and owed its response. */
module Leftovers {
  import opened Bytes
  import opened Uins
  import opened Protocol
  import opened Sockets
  import opened Clock
  import opened Tickets
  import opened Watching
  import opened Client
  import opened Connection
  import opened Api
  import opened Sound
  import opened LockStepRun
  import opened Answers
  import opened Replies
  import Spool

  /** A query of the game's waits under this ticket. */
  predicate Waited(q: Queries, ticket: int32) {
    || (exists u :: u in q.fetches && q.fetches[u].ticket == ticket)
    || (q.random.ticket != 0 && q.random.ticket == ticket)
    || (q.status.ticket != 0 && q.status.ticket == ticket)
  }

  predicate Owned(m: Mgr) {
    forall k | k in m.tickets.table :: m.tickets.table[k].kind == Abandoned || Waited(m.queries, k)
  }

  /** The same but for one transaction. */
  predicate OwnedBut(m: Mgr, ticket: int32) {
    forall k | k in m.tickets.table && k != ticket :: m.tickets.table[k].kind == Abandoned || Waited(m.queries, k)
  }

  /** Nothing was added to the table, and nothing taken up again. */
  predicate Fewer(t: Tickets, u: Tickets) {
    forall k | k in u.table :: k in t.table && (u.table[k].kind == t.table[k].kind || u.table[k].kind == Abandoned)
  }

  lemma FewerOwned(m: Mgr, r: Mgr)
    requires Owned(m) && Fewer(m.tickets, r.tickets) && r.queries == m.queries
    ensures Owned(r)
  {
  }

  lemma FewerOwnedBut(m: Mgr, r: Mgr, ticket: int32)
    requires OwnedBut(m, ticket) && Fewer(m.tickets, r.tickets) && r.queries == m.queries
    ensures OwnedBut(r, ticket)
    ensures ticket !in r.tickets.table || r.tickets.table[ticket].kind == Abandoned ==> Owned(r)
  {
  }

  lemma ForgetFewer(t: Tickets, ticket: int32)
    ensures Fewer(t, Abandon(t, ticket)) && Fewer(t, AfterPoll(t, ticket)) && Fewer(t, Cleared(t)) && Fewer(t, t)
    ensures ticket !in Abandon(t, ticket).table || Abandon(t, ticket).table[ticket].kind == Abandoned
    ensures !Poll(t, ticket).Pending? ==> ticket !in AfterPoll(t, ticket).table
  {
  }

  // ---- pumping ----

  lemma StepFewer(m: Mgr)
    ensures Fewer(m.tickets, AfterStep(m).tickets)
  {
    hide Frame, HandleHandshake, HandlePacket, Drops, ReadHeader, LowByte, Respond;
    ForgetFewer(m.tickets, 0);
    match Frame(m.sock.input, m.tickets.table)
    case Whole(size, reply) =>
      var h, body := ReadHeader(m.sock.input), m.sock.input[HEADER_SIZE..size];
      PacketTickets(m, h, body);
      if reply {
        RespondKind(m.tickets.table[h.ticket], h, body);
      }
    case _ =>
  }

  lemma FewerOn(t: Tickets, u: Tickets, v: Tickets)
    requires Fewer(t, u) && Fewer(u, v)
    ensures Fewer(t, v)
  {
  }

  lemma {:induction false} ProcessFewer(m: Mgr)
    ensures Fewer(m.tickets, Process(m).tickets)
    decreases |m.sock.input|
  {
    hide Fewer, Step;
    ForgetFewer(m.tickets, 0);
    StepFewer(m);
    if Step(m).Continue? {
      ProcessFewer(Step(m).m);
      FewerOn(m.tickets, Step(m).m.tickets, Process(m).tickets);
    }
  }

  lemma PumpFewer(m: Mgr)
    ensures Fewer(m.tickets, Pump(m).tickets) && Pump(m).queries == m.queries
  {
    hide Process, PumpSock, LoginStep, TimeAfter, AllOffline;
    PumpGrows(m);
    var l := if UnderWay(m) then LoginStep(m) else m;
    LoginTickets(m);
    NextTicketKeeps(m.tickets);
    ProcessFewer(l.(sock := PumpSock(l.sock)));
  }

  // ---- asking and polling ----

  lemma AskedOwned(m: Mgr, kind: Kind, fixedExtra: nat, subject: bytes, p: Packet)
    requires Owned(m)
    ensures var s := Send(Asked(m, kind, fixedExtra, subject), p);
            && OwnedBut(s, s.tickets.next) && s.queries == m.queries
            && Owned(Abandoning(s, s.tickets.next))
  {
    hide Send;
    var a := Asked(m, kind, fixedExtra, subject);
    var s := Send(a, p);
    NextTicketKeeps(m.tickets);
    WriteAnswers(a, p);
    ForgetFewer(s.tickets, s.tickets.next);
    FewerOwnedBut(s, Abandoning(s, s.tickets.next), s.tickets.next);
  }

  /** Striking off a query whose transaction is gone, or abandoned. */
  lemma StruckOwned(p: Mgr, r: Mgr, ticket: int32)
    requires Owned(p) && Fewer(p.tickets, r.tickets)
    requires ticket !in r.tickets.table || r.tickets.table[ticket].kind == Abandoned
    requires forall k | k != ticket && Waited(p.queries, k) :: Waited(r.queries, k)
    ensures Owned(r)
  {
  }

  lemma FetchStruck(q: Queries, user: bytes)
    requires user in q.fetches
    ensures forall k | k != q.fetches[user].ticket && Waited(q, k) :: Waited(q.(fetches := q.fetches - {user}), k)
  {
    var r := q.(fetches := q.fetches - {user});
    forall k | k != q.fetches[user].ticket && Waited(q, k) ensures Waited(r, k) {
      if u :| u in q.fetches && q.fetches[u].ticket == k {
        assert u in r.fetches;
      }
    }
  }

  lemma FetchRecorded(q: Queries, user: bytes, query: PendingQuery)
    requires user !in q.fetches
    ensures var r := q.(fetches := q.fetches[user := query]);
            Waited(r, query.ticket) && forall k | Waited(q, k) :: Waited(r, k)
  {
    var r := q.(fetches := q.fetches[user := query]);
    assert user in r.fetches && r.fetches[user].ticket == query.ticket;
    forall k | Waited(q, k) ensures Waited(r, k) {
      if u :| u in q.fetches && q.fetches[u].ticket == k {
        assert u in r.fetches && r.fetches[u].ticket == k;
      }
    }
  }

  lemma FetchOwned(m: Mgr, user: bytes)
    requires Owned(m)
    ensures Owned(FetchUserData(m, user).m)
  {
    hide Owned, Fewer, Waited, OwnedBut, Parse, Pump, Start, Send, Abandon, AfterPoll, TimeAfter, NowMs,
         Deadline, Remember;
    if Parse(user).Some? && user in m.queries.fetches {
      var p, ticket := Pump(m), m.queries.fetches[user].ticket;
      PumpFewer(m);
      FewerOwned(m, p);
      ForgetFewer(p.tickets, ticket);
      FetchStruck(m.queries, user);
      var r := FetchUserData(m, user).m;
      PollIs(p.tickets, ticket);
      RememberTickets(SetFetches(Polling(p, ticket), p.queries.fetches - {user}), user,
                      if Poll(p.tickets, ticket).Finished? then Poll(p.tickets, ticket).result.resultString else []);
      if r != p {
        StruckOwned(p, r, ticket);
      }
    } else if Parse(user).Some? && IsOnline(m) {
      var a := Asked(m, ClientInfo, 0, user);
      var packet := GetClientInfo(m.session.server, Parse(user).value, a.tickets.next);
      AskedOwned(m, ClientInfo, 0, user, packet);
      var query := PendingQuery(a.tickets.next, Deadline(NowMs(m.clock), QUERY_TIMEOUT));
      FetchRecorded(m.queries, user, query);
      WriteAnswers(a, packet);
      RecordedOwned(Send(a, packet), m.queries.(fetches := m.queries.fetches[user := query]), a.tickets.next);
    }
  }

  lemma PollIs(t: Tickets, ticket: int32)
    ensures Poll(t, ticket).Missing? ==> ticket !in t.table
    ensures Poll(t, ticket).Finished? ==> ticket in t.table
  {
  }

  /** A question recorded is waited for. */
  lemma RecordedOwned(s: Mgr, q: Queries, ticket: int32)
    requires OwnedBut(s, ticket) && Waited(q, ticket) && forall k | Waited(s.queries, k) :: Waited(q, k)
    ensures Owned(s.(queries := q))
  {
  }

  lemma RandomOwned(m: Mgr)
    requires Owned(m)
    ensures Owned(FetchRandomUser(m).m)
  {
    hide Owned, Fewer, OwnedBut, Pump, Start, Send, Abandon, AfterPoll, TimeAfter, NowMs, Deadline, Uin.ToString;
    var ticket, r := m.queries.random.ticket, FetchRandomUser(m).m;
    if ticket != 0 {
      var p := Pump(m);
      PumpFewer(m);
      FewerOwned(m, p);
      ForgetFewer(p.tickets, ticket);
      PollIs(p.tickets, ticket);
      if r != p {
        StruckOwned(p, r, ticket);
      }
    } else if IsOnline(m) {
      var a := Asked(m, RandomUser, 0, []);
      var packet := AskRandomUser(m.session.server, m.session.user, a.tickets.next);
      AskedOwned(m, RandomUser, 0, [], packet);
      WriteAnswers(a, packet);
      AskedNext(m.tickets, RandomUser, 0, []);
      var s := Send(a, packet);
      if s.sock.state.Connected? {
        RecordedOwned(s, r.queries, a.tickets.next);
      } else {
        SameQueriesOwned(Abandoning(s, a.tickets.next), r);
      }
    }
  }

  lemma SameQueriesOwned(m: Mgr, r: Mgr)
    requires Owned(m) && r.tickets == m.tickets && forall k | Waited(m.queries, k) :: Waited(r.queries, k)
    ensures Owned(r)
  {
  }

  /** A ticket is never zero: the counter skips it. */
  lemma AskedNext(t: Tickets, kind: Kind, fixedExtra: nat, subject: bytes)
    ensures Start(t, kind, fixedExtra, subject).next != 0
  {
  }

  lemma StatusOwned(m: Mgr)
    requires Owned(m)
    ensures Owned(GetStatus(m).m)
  {
    hide Owned, Fewer, OwnedBut, Pump, Start, Send, Abandon, AfterPoll, TimeAfter, NowMs, Deadline, Measured;
    var ticket, r := m.queries.status.ticket, GetStatus(m).m;
    if !IsOnline(m) {
      ForgetFewer(m.tickets, ticket);
      if ticket != 0 {
        StruckOwned(m, r, ticket);
      }
    } else if ticket != 0 {
      var p := Pump(m);
      PumpFewer(m);
      FewerOwned(m, p);
      ForgetFewer(p.tickets, ticket);
      PollIs(p.tickets, ticket);
      if r != p {
        StruckOwned(p, r, ticket);
      }
    } else {
      var a := Asked(m, Status, 16, []);
      var packet := AskStatus(m.session.server, a.tickets.next);
      AskedOwned(m, Status, 16, [], packet);
      WriteAnswers(a, packet);
      AskedNext(m.tickets, Status, 16, []);
      var s := Send(a, packet);
      if s.sock.state.Connected? {
        RecordedOwned(s, r.queries, a.tickets.next);
      } else {
        SameQueriesOwned(Abandoning(s, a.tickets.next), r);
      }
    }
  }

  /** However a wait ends, its transaction is answered, abandoned or gone with the connection. */
  lemma {:induction false} WaitOwned(m: Mgr, ticket: int32, deadline: nat)
    requires m.clock < deadline + TWO_31 && deadline <= m.clock + TWO_31
    requires Core(m) && Open(m.tickets, ticket) && IsOnline(m) && OwnedBut(m, ticket)
    ensures Owned(WaitFor(m, ticket, deadline).0)
    decreases deadline - m.clock
  {
    hide Core, Pump, TimeAfter, NowMs, Open, Owned, OwnedBut, Fewer, Abandon, AfterPoll;
    var p := Pump(m);
    PumpOpen(m, ticket);
    PumpCore(m);
    PumpFewer(m);
    FewerOwnedBut(m, p, ticket);
    ForgetFewer(p.tickets, ticket);
    PollIs(p.tickets, ticket);
    FewerOwnedBut(p, Polling(p, ticket), ticket);
    FewerOwnedBut(p, Abandoning(p, ticket), ticket);
    if Poll(p.tickets, ticket).Pending? && IsOnline(p) && !TimeAfter(NowMs(p.clock), NowMs(deadline)) {
      StillBefore(p.clock, deadline);
      SameCoreKeeps(p, Wait(p));
      WaitedOwned(p, ticket);
      WaitOwned(Wait(p), ticket, deadline);
    } else if Poll(p.tickets, ticket).Pending? {
      PendingIsOpen(p.tickets, ticket);
    }
  }

  lemma PendingIsOpen(t: Tickets, ticket: int32)
    requires Poll(t, ticket).Pending?
    ensures ticket in t.table
  {
  }

  lemma WaitedOwned(p: Mgr, ticket: int32)
    requires OwnedBut(p, ticket)
    ensures OwnedBut(Wait(p), ticket)
  {
  }

  lemma OnlineOwned(m: Mgr, user: bytes)
    requires Owned(m) && Core(m)
    ensures Owned(IsUserOnline(m, user).0)
  {
    hide Owned, OwnedBut, Core, Parse, Start, Send, Abandon, WaitFor, Open;
    if Parse(user).Some? && IsOnline(m) && Parse(user).value != m.session.user && user !in m.watch.presence {
      var a := Asked(m, ConnectionDetail, 0, user);
      var p := GetConnectionDetail(m.session.server, Parse(user).value, a.tickets.next);
      AskedOwned(m, ConnectionDetail, 0, user, p);
      AskedIsOpen(m, ConnectionDetail, 0, user, p);
      WriteAnswers(a, p);
      if Send(a, p).sock.state.Connected? {
        WaitOwned(Send(a, p), a.tickets.next, Send(a, p).clock + USER_ONLINE_TIMEOUT);
      }
    }
  }

  lemma HistoryOwned(m: Mgr, data: bytes)
    requires Owned(m) && Core(m)
    ensures Owned(FeedHistory(m, data).0)
  {
    hide Owned, OwnedBut, Core, Start, Send, Abandon, WaitFor, Open, AllOffline;
    if IsOnline(m) && data != [] {
      var a := Asked(m, History, 0, data);
      var p := SendHistory(m.session.server, m.session.user, a.tickets.next, data);
      AskedOwned(m, History, 0, data, p);
      AskedIsOpen(m, History, 0, data, p);
      WriteAnswers(a, p);
      if Send(a, p).sock.state.Connected? {
        WaitOwned(Send(a, p), a.tickets.next, Send(a, p).clock + HISTORY_TIMEOUT);
      } else {
        EmptyOwned(FeedHistory(m, data).0);
      }
    }
  }

  lemma EmptyOwned(m: Mgr)
    requires m.tickets.table == map[]
    ensures Owned(m)
  {
  }

  // ---- the other calls ----

  predicate Tidier(m: Mgr, r: Mgr) {
    Fewer(m.tickets, r.tickets) && r.queries == m.queries
  }

  lemma PostTidier(m: Mgr, user: bytes, data: bytes)
    ensures Tidier(m, PostDirectMessage(m, user, data).0)
  {
    hide Parse, WriteSock, Build, AllOffline;
  }

  lemma FileTidier(m: Mgr, path: bytes)
    ensures Tidier(m, SendOutboxFile(m, path).0)
  {
    hide UserFromSpoolName, BaseName, PostDirectMessage, RenamedBad;
    var target := UserFromSpoolName(BaseName(path));
    ForgetFewer(m.tickets, 0);
    if target != [] && path in m.disk.files {
      PostTidier(m, target, BinaryMessage(MESG_PRAY_FILE, m.disk.files[path]));
    }
  }

  lemma {:induction false} FilesTidier(m: Mgr, names: seq<bytes>)
    ensures Tidier(m, SendFiles(m, names))
    decreases |names|
  {
    hide SendOutboxFile, Fewer;
    ForgetFewer(m.tickets, 0);
    if names != [] && IsOnline(m) {
      var s := SendOutboxFile(m, m.outbox + names[0]).0;
      FileTidier(m, m.outbox + names[0]);
      FilesTidier(s, names[1..]);
      FewerOn(m.tickets, s.tickets, SendFiles(s, names[1..]).tickets);
    }
  }

  lemma TickTidier(m: Mgr)
    ensures Tidier(m, SendOrdinaryMessages(m))
  {
    hide Pump, SendFiles, WithExtension, TimeAfter, NowMs, Deadline, Fewer;
    var p := Pump(m);
    var s := p.(outboxDirty := false, nextScan := Deadline(NowMs(p.clock), OUTBOX_RESCAN));
    var names := WithExtension(s.disk.listing, DOT_WARP);
    PumpFewer(m);
    FilesTidier(s, names);
    FewerOn(m.tickets, s.tickets, SendFiles(s, names).tickets);
  }

  lemma AddTidier(m: Mgr, user: bytes)
    ensures Tidier(m, AddToWWR(m, user).m)
  {
    hide Parse, Pump, WriteSock, Build, TimeAfter, NowMs, Deadline, Fewer, FinishAdd;
    ForgetFewer(m.tickets, 0);
    PumpFewer(Watched(m, BeginAdd(m.watch, user)));
  }

  lemma ConnectTidier(m: Mgr, users: seq<bytes>)
    ensures Tidier(m, ConnectInBackground(m, users))
  {
    hide Pump, PumpConnectPhase, BeginSock;
    PumpFewer(m);
    if UnderWay(m) {
      PumpIs(m);
    }
  }

  lemma DoOwned(m: Mgr, call: Call)
    requires Owned(m) && Core(m)
    ensures Owned(Do(m, call))
  {
    hide Owned, Core, Fewer, Pump, SendOrdinaryMessages, IsUserOnline, AddToWWR, RemoveFromWWR, FetchUserData,
         FetchRandomUser, GetStatus, PostDirectMessage, FeedHistory, UniqueOutboxFilename, ConnectInBackground,
         Disconnect, NextChangedUser;
    match call
    case CallFetchUserData(user) => FetchOwned(m, user);
    case CallFetchRandomUser => RandomOwned(m);
    case CallGetStatus => StatusOwned(m);
    case CallIsUserOnline(user) => OnlineOwned(m, user);
    case CallFeedHistory(data) => HistoryOwned(m, data);
    case _ =>
      DoTidier(m, call);
      FewerOwned(m, Do(m, call));
  }

  lemma DoTidier(m: Mgr, call: Call)
    requires !call.CallFetchUserData? && !call.CallFetchRandomUser? && !call.CallGetStatus? && !call.CallIsUserOnline?
    requires !call.CallFeedHistory?
    ensures Tidier(m, Do(m, call))
  {
    hide Fewer, Pump, SendOrdinaryMessages, AddToWWR, PostDirectMessage, ConnectInBackground, Parse, Spool.FreeSerial,
         WriteSock, Build, AllOffline, Remove;
    ForgetFewer(m.tickets, 0);
    match call
    case CallConnect(users) => ConnectTidier(m, users);
    case CallSendOrdinaryMessages => TickTidier(m);
    case CallAddToWWR(user) => AddTidier(m, user);
    case CallGetMessages => PumpFewer(m);
    case CallPostDirectMessage(user, data) => PostTidier(m, user, data);
    case _ =>
  }

  /** Over any run: whatever is in the table is waited for by a query of the game's, or was abandoned and stays only
      until its response comes. */
  lemma {:induction false} OwnedOverRuns(m: Mgr, calls: seq<Call>)
    requires Owned(m) && Core(m)
    ensures Owned(DoAll(m, calls))
    decreases |calls|
  {
    hide Owned, Core, Do;
    if calls != [] {
      DoOwned(m, calls[0]);
      DoCore(m, calls[0]);
      OwnedOverRuns(Do(m, calls[0]), calls[1..]);
    }
  }

  lemma FreshOwned(kernel: Kernel, disk: Spool.Disk, clock: nat, naps: seq<Nap>)
    ensures Owned(FreshMgr(kernel, disk, clock, naps))
  {
  }
}
