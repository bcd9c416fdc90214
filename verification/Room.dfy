/** Every search for an unused serial number that a call makes ends: what that takes exactly, and that a disk with
    a serial number left for every byte under way has it, as every packet takes more bytes off the input than it
    adds files to the disk. */
module Rooms {
  import opened Bytes
  import opened Uins
  import opened Protocol
  import opened Sockets
  import opened Clock
  import opened Tickets
  import opened Watching
  import opened Spool
  import opened Client
  import opened Connection
  import opened Api
  import opened Sound
  import opened Acts
  import opened LockStepRun
  import opened Timing

  // ---- when every search ends ----

  /** The search HandlePacket makes for a creature's message, if this is one. */
  ghost predicate PacketEnds(m: Mgr, h: Header, body: bytes) {
    LowByte(h.kind) == MESSAGE && m.inbox != [] ==>
      match ParseMessage(body)
      case Some(mesg) => mesg.kind == MESG_PRAY_FILE ==> HasFree(m.disk.files, m.inbox, mesg.sender)
      case None => true
  }

  ghost predicate StepEnds(m: Mgr) {
    var f := Frame(m.sock.input, m.tickets.table);
    f.Whole? && !f.reply ==> PacketEnds(m, ReadHeader(m.sock.input), m.sock.input[HEADER_SIZE..f.size])
  }

  /** Every search ProcessInput makes, */
  ghost predicate ProcessEnds(m: Mgr)
    decreases |m.sock.input|
  {
    StepEnds(m) && (Step(m).Continue? ==> ProcessEnds(Step(m).m))
  }

  /** a pump, */
  ghost predicate PumpEnds(m: Mgr) {
    ProcessedBy(m).Some? ==> ProcessEnds(ProcessedBy(m).value)
  }

  ghost predicate ActEnds(m: Mgr, act: Act) {
    act.Pumps? || (act.Connects? && UnderWay(m)) ==> PumpEnds(m)
  }

  ghost predicate ScriptEnds(m: Mgr, s: Script)
    decreases s
  {
    s.Then? ==> ActEnds(m, s.act) && ScriptEnds(Perform(m, s.act), s.rest)
  }

  ghost predicate FilenameEnds(m: Mgr, user: bytes) {
    Parse(user).Some? && m.outbox != [] ==> HasFree(m.disk.files, m.outbox, Parse(user).value)
  }

  /** a call, and a run of calls. */
  ghost predicate CallEnds(m: Mgr, call: Call) {
    ScriptEnds(m, ScriptOf(m, call)) && (call.CallUniqueOutboxFilename? ==> FilenameEnds(m, call.user))
  }

  ghost predicate RunEnds(m: Mgr, calls: seq<Call>)
    decreases |calls|
  {
    calls != [] ==> CallEnds(m, calls[0]) && RunEnds(Do(m, calls[0]), calls[1..])
  }

  // ---- a disk with room is enough ----

  /** Files on the disk plus bytes still to be processed. */
  function Load(m: Mgr): nat {
    |m.disk.files| + |m.sock.input|
  }

  lemma {:induction false} RegistrationsDisk(m: Mgr, users: seq<bytes>)
    ensures SendRegistrations(m, users).disk == m.disk
    decreases |users|
  {
    hide Parse, WriteSock, Build, Register;
    if users != [] {
      RegistrationsDisk(m, users[1..]);
      if Parse(users[0]).Some? {
        RegistrationsDisk(Send(m.(watch := Register(m.watch, users[0])),
                               WwrModify(true, m.session.server, Parse(users[0]).value)), users[1..]);
      }
    }
  }

  lemma HandshakeDisk(m: Mgr, h: Header, raw: bytes)
    requires |raw| > 1
    ensures HandleHandshake(m, h, raw).disk == m.disk
  {
    hide SendRegistrations, ServerList.Announced, MapHandshakeError;
    RegistrationsDisk(Entered(m, h, raw), m.watch.usersForWWR);
  }

  lemma PacketDisk(m: Mgr, h: Header, body: bytes)
    ensures |HandlePacket(m, h, body).disk.files| <= |m.disk.files| + 1
  {
    hide LowByte, ParseMessage, ParseUser, WriteSock, Build, SpoolPray, Update;
    if ParseMessage(body).Some? {
      SpoolGrowth(m.disk, m.inbox, ParseMessage(body).value.sender, ParseMessage(body).value.payload);
    }
  }

  lemma StepLoad(m: Mgr)
    ensures !Step(m).Dropped? ==> Load(AfterStep(m)) <= Load(m)
    ensures Step(m).Dropped? ==> AfterStep(m).disk == m.disk && AfterStep(m).sock.input == m.sock.input
    ensures AfterStep(m).sock.kernel.recvs == m.sock.kernel.recvs
  {
    hide Frame, Answered, ReadHeader, LowByte, HandleHandshake, HandlePacket, Drops;
    match Frame(m.sock.input, m.tickets.table)
    case NeedMore =>
    case Broken =>
    case Whole(size, reply) =>
      var h, raw, body := ReadHeader(m.sock.input), m.sock.input[..size], m.sock.input[HEADER_SIZE..size];
      if !reply {
        HandshakeDisk(m, h, raw);
        PacketDisk(m, h, body);
        if Drops(m, h) {
          DroppedDisk(m, h, body);
        }
      }
  }

  lemma DroppedDisk(m: Mgr, h: Header, body: bytes)
    requires Drops(m, h)
    ensures HandlePacket(m, h, body).disk == m.disk
  {
    hide WriteSock, Build, ParseMessage, ParseUser;
  }

  lemma {:induction false} ProcessLoad(m: Mgr)
    ensures Load(Process(m)) <= Load(m) && Process(m).sock.kernel.recvs == m.sock.kernel.recvs
    decreases |m.sock.input|
  {
    hide Step;
    StepLoad(m);
    match Step(m)
    case Waiting =>
    case Dropped(n) =>
    case Continue(n) => ProcessLoad(n);
  }

  /** The disk has a serial number left for every packet that could still arrive. */
  predicate Room(m: Mgr) {
    |m.disk.files| + |m.sock.input| + |DataOf(m.sock.kernel.recvs)| < SERIALS
  }

  lemma PumpSockRoom(m: Mgr)
    requires Room(m)
    ensures Room(m.(sock := PumpSock(m.sock)))
  {
    hide DataOf;
    if m.sock.state.Connecting? {
      PollIsQuiet(m.sock);
    } else {
      ReadMovesData(FlushSock(m.sock));
      assert |PumpSock(m.sock).input + DataOf(PumpSock(m.sock).kernel.recvs)|
             == |m.sock.input + DataOf(m.sock.kernel.recvs)|;
    }
  }

  lemma ProcessRoom(m: Mgr)
    requires Room(m)
    ensures Room(Process(m))
  {
    hide Process;
    ProcessLoad(m);
  }

  lemma LoginRoom(m: Mgr)
    requires Room(m)
    ensures Room(LoginStep(m)) && LoginStep(m).disk == m.disk
  {
    hide PollSock, WriteSock, Build, NextTicket;
    PollIsQuiet(m.sock);
  }

  lemma PumpRoom(m: Mgr)
    requires Room(m)
    ensures Room(Pump(m))
  {
    hide Process, PumpSock, LoginStep, TimeAfter;
    if UnderWay(m) {
      var l := LoginStep(m);
      LoginRoom(m);
      PumpSockRoom(l);
      ProcessRoom(l.(sock := PumpSock(l.sock)));
    } else {
      PumpSockRoom(m);
      ProcessRoom(m.(sock := PumpSock(m.sock)));
    }
  }

  lemma ConnectRoom(m: Mgr, users: seq<bytes>)
    requires Room(m)
    ensures Room(ConnectInBackground(m, users))
  {
    hide PumpConnectPhase, Pump;
    if UnderWay(m) {
      PumpIs(m);
      PumpRoom(m);
    }
  }

  lemma StepHasRoom(m: Mgr)
    requires Load(m) < SERIALS
    ensures StepEnds(m)
  {
    hide Frame, LowByte, ParseMessage, ReadHeader;
    var f := Frame(m.sock.input, m.tickets.table);
    if f.Whole? && !f.reply {
      var mesg := ParseMessage(m.sock.input[HEADER_SIZE..f.size]);
      if mesg.Some? {
        FewFilesLeaveFree(m.disk.files, m.inbox, mesg.value.sender);
      }
    }
  }

  lemma {:induction false} ProcessHasRoom(m: Mgr)
    requires Load(m) < SERIALS
    ensures ProcessEnds(m)
    decreases |m.sock.input|
  {
    hide Step, StepEnds, Load;
    StepHasRoom(m);
    StepLoad(m);
    if Step(m).Continue? {
      ProcessHasRoom(Step(m).m);
    }
  }

  lemma PumpHasRoom(m: Mgr)
    requires Room(m)
    ensures PumpEnds(m)
  {
    hide ProcessEnds, PumpSock, LoginStep;
    if UnderWay(m) {
      var l := LoginStep(m);
      LoginRoom(m);
      PumpSockRoom(l);
      ProcessHasRoom(l.(sock := PumpSock(l.sock)));
    } else {
      PumpSockRoom(m);
      ProcessHasRoom(m.(sock := PumpSock(m.sock)));
    }
  }

  lemma {:induction false} WaitHasRoom(m: Mgr, ticket: int32, deadline: nat)
    requires m.clock < deadline + TWO_31 && deadline <= m.clock + TWO_31 && Room(m)
    ensures ScriptEnds(m, WaitScript(m, ticket, deadline))
    decreases deadline - m.clock
  {
    hide Pump, Room, PumpEnds, Poll, AfterPoll, Abandon, TimeAfter, NowMs, Only;
    PumpHasRoom(m);
    PumpRoom(m);
    var p, s := Pump(m), WaitScript(m, ticket, deadline);
    if Poll(p.tickets, ticket).Pending? && IsOnline(p) && !TimeAfter(NowMs(p.clock), NowMs(deadline)) {
      StillBefore(p.clock, deadline);
      WaitRoom(p);
      WaitHasRoom(Wait(p), ticket, deadline);
      assert ScriptEnds(p, s.rest);
    } else {
      OnlyQuiet(Polls(ticket));
      OnlyQuiet(Abandons(ticket));
      QuietEnds(p, s.rest);
    }
  }

  lemma OnlyQuiet(act: Act)
    requires !act.Pumps? && !act.Connects?
    ensures Quiet(Only(act)) && Quiet(Nil)
  {
  }

  /** Scripts without a pump have no search to make. */
  predicate Quiet(s: Script) {
    s.Then? ==> !s.act.Pumps? && !s.act.Connects? && Quiet(s.rest)
  }

  lemma {:induction false} QuietEnds(m: Mgr, s: Script)
    ensures Quiet(s) ==> ScriptEnds(m, s)
    decreases s
  {
    hide Perform, PumpEnds;
    if s.Then? {
      QuietEnds(Perform(m, s.act), s.rest);
    }
  }

  lemma WaitRoom(m: Mgr)
    requires Room(m)
    ensures Room(Wait(m))
  {
  }

  lemma ThenQuiet(act: Act, rest: Script)
    requires !act.Pumps? && !act.Connects? && Quiet(rest)
    ensures Quiet(Then(act, rest))
  {
  }

  lemma {:induction false} FilesQuiet(m: Mgr, names: seq<bytes>)
    ensures Quiet(FilesScript(m, names))
    decreases |names|
  {
    hide SendOutboxFile, UserFromSpoolName, BaseName, Parse, Send, BinaryMessage, RenamedBad, Quiet, Only;
    OnlyQuiet(Loses);
    if names != [] && IsOnline(m) {
      var path := m.outbox + names[0];
      var next := FilesScript(SendOutboxFile(m, path).0, names[1..]);
      var target := UserFromSpoolName(BaseName(path));
      FilesQuiet(SendOutboxFile(m, path).0, names[1..]);
      ThenQuiet(SetsFiles(RenamedBad(m.disk.files, path)), next);
      ThenQuiet(SetsFiles(m.disk.files - {path}), next);
      if Parse(target).Some? && path in m.disk.files {
        var packet := Message(m.session.server, m.session.user, Parse(target).value,
                              BinaryMessage(MESG_PRAY_FILE, m.disk.files[path]));
        ThenQuiet(Writes(packet), Only(Loses));
        ThenQuiet(Writes(packet), Then(SetsFiles(m.disk.files - {path}), next));
      }
    }
  }

  lemma ScanQuiet(m: Mgr)
    ensures Quiet(ScanScript(m))
  {
    hide FilesScript, WithExtension, TimeAfter, NowMs, Deadline;
    var s := m.(outboxDirty := false, nextScan := Deadline(NowMs(m.clock), OUTBOX_RESCAN));
    FilesQuiet(s, WithExtension(s.disk.listing, DOT_WARP));
  }

  /** A script that pumps first, and then makes no search. */
  lemma PumpThenQuiet(m: Mgr, rest: Script)
    requires Room(m) && Quiet(rest)
    ensures ScriptEnds(m, Then(Pumps, rest))
  {
    hide Room, Pump, PumpEnds, Quiet;
    PumpHasRoom(m);
    QuietEnds(Pump(m), rest);
  }

  lemma PollQuiet(m: Mgr, query: PendingQuery, struck: Queries, found: Script)
    requires Quiet(found)
    ensures Quiet(PollScript(m, query, struck, found).rest)
  {
    hide Pump, Poll, TimeAfter, NowMs, Quiet, Only;
    OnlyQuiet(Records(struck));
    ThenQuiet(Abandons(query.ticket), Only(Records(struck)));
    ThenQuiet(Records(struck), found);
    ThenQuiet(Records(struck), Nil);
    ThenQuiet(Polls(query.ticket), Then(Records(struck), found));
    ThenQuiet(Polls(query.ticket), Then(Records(struck), Nil));
  }

  lemma QueryQuiet(m: Mgr, kind: Kind, fixedExtra: nat, subject: bytes, packet: Packet, asked: Queries, failed: Script)
    requires Quiet(failed)
    ensures Quiet(QueryScript(m, kind, fixedExtra, subject, packet, asked, failed))
  {
    hide Start, Send, Quiet, Only;
    var a := Asked(m, kind, fixedExtra, subject);
    var s := QueryScript(m, kind, fixedExtra, subject, packet, asked, failed);
    OnlyQuiet(Records(asked));
    ThenQuiet(Abandons(a.tickets.next), failed);
    ThenQuiet(Questions(kind, fixedExtra, subject, packet), s.rest);
  }

  lemma AskHasRoom(m: Mgr, kind: Kind, subject: bytes, packet: Packet, timeout: nat, lost: Script)
    requires timeout < TWO_31 && Room(m) && Quiet(lost)
    ensures ScriptEnds(m, AskScript(m, kind, subject, packet, timeout, lost))
  {
    hide Room, Start, Send, Quiet, Abandon, WaitScript, PumpEnds;
    var a := Asked(m, kind, 0, subject);
    var s, script := Send(a, packet), AskScript(m, kind, subject, packet, timeout, lost);
    if s.sock.state.Connected? {
      SameRoom(m, a);
      WriteRoom(a, packet);
      WaitHasRoom(s, a.tickets.next, s.clock + timeout);
    } else {
      ThenQuiet(Abandons(a.tickets.next), lost);
      QuietEnds(s, script.rest);
    }
    assert ScriptEnds(s, script.rest);
  }

  lemma WriteRoom(m: Mgr, packet: Packet)
    requires Room(m)
    ensures Room(Send(m, packet))
  {
    hide WriteSock, Build, DataOf;
  }

  /** A call made on a disk with room makes no search that does not end. */
  lemma CallHasRoom(m: Mgr, call: Call)
    requires Room(m)
    ensures CallEnds(m, call)
  {
    hide Room, ScriptOf, ScriptEnds, FilenameEnds;
    if call.CallUniqueOutboxFilename? {
      FilenameHasRoom(m, call.user);
    }
    ScriptHasRoom(m, call);
  }

  lemma FilenameHasRoom(m: Mgr, user: bytes)
    requires Room(m)
    ensures FilenameEnds(m, user)
  {
    hide Parse;
    if Parse(user).Some? {
      FewFilesLeaveFree(m.disk.files, m.outbox, Parse(user).value);
    }
  }

  lemma ScriptHasRoom(m: Mgr, call: Call)
    requires Room(m)
    ensures ScriptEnds(m, ScriptOf(m, call))
  {
    hide Room, Pump, PumpEnds, ScriptEnds, Quiet, Only, Perform, IsUserOnlineScript, FeedHistoryScript,
         FetchUserDataScript, FetchRandomUserScript, GetStatusScript, AddToWWRScript, PostScript, ScanScript, Parse;
    match call
    case CallSendOrdinaryMessages =>
      ScanQuiet(Pump(m));
      OnlyQuiet(Loses);
      PumpThenQuiet(m, ScriptOf(m, call).rest);
    case CallGetMessages =>
      OnlyQuiet(TakesMail);
      PumpThenQuiet(m, Only(TakesMail));
    case CallConnect(users) =>
      PumpHasRoom(m);
      OneEnds(m, Connects(users));
    case CallIsUserOnline(user) => OnlineHasRoom(m, user);
    case CallFeedHistory(data) => HistoryHasRoom(m, data);
    case CallFetchUserData(user) => FetchHasRoom(m, user);
    case CallFetchRandomUser => RandomHasRoom(m);
    case CallGetStatus => StatusHasRoom(m);
    case CallAddToWWR(user) => AddHasRoom(m, user);
    case _ =>
      PlainQuiet(m, call);
      QuietEnds(m, ScriptOf(m, call));
  }

  lemma OneEnds(m: Mgr, act: Act)
    requires ActEnds(m, act)
    ensures ScriptEnds(m, Only(act))
  {
    hide ActEnds, Perform;
    assert ScriptEnds(Perform(m, act), Nil);
  }

  lemma PlainQuiet(m: Mgr, call: Call)
    requires call.Host? || call.CallSetUser? || call.CallSetDirectories? || call.CallDisconnect?
             || call.CallNextChangedUser?
             || call.CallRemoveFromWWR? || call.CallPostDirectMessage? || call.CallUniqueOutboxFilename?
    ensures Quiet(ScriptOf(m, call))
  {
    hide Parse, Send, UniqueOutboxFilename, EnsureTrailingSeparator, Quiet, Only;
    OnlyQuiet(Loses);
    OnlyQuiet(SetsOutbox(true, m.nextScan));
    match call
    case CallRemoveFromWWR(user) => OnlyQuiet(Unwatches(user));
    case CallPostDirectMessage(user, data) =>
      if Parse(user).Some? && IsOnline(m) {
        var packet := Message(m.session.server, m.session.user, Parse(user).value, data);
        ThenQuiet(Writes(packet), ScriptOf(m, call).rest);
      }
    case CallUniqueOutboxFilename(user) =>
    case _ => OnlyQuiet(ActOf(m, call));
  }

  lemma OnlineHasRoom(m: Mgr, user: bytes)
    requires Room(m)
    ensures ScriptEnds(m, IsUserOnlineScript(m, user))
  {
    hide Room, Parse, Start, AskScript;
    if Parse(user).Some? {
      var ticket := Asked(m, ConnectionDetail, 0, user).tickets.next;
      AskHasRoom(m, ConnectionDetail, user, GetConnectionDetail(m.session.server, Parse(user).value, ticket),
                 USER_ONLINE_TIMEOUT, Nil);
    }
  }

  lemma HistoryHasRoom(m: Mgr, data: bytes)
    requires Room(m)
    ensures ScriptEnds(m, FeedHistoryScript(m, data))
  {
    hide Room, Start, AskScript, ScriptEnds, Quiet, Only;
    OnlyQuiet(Loses);
    QuietEnds(m, Nil);
    var ticket := Asked(m, History, 0, data).tickets.next;
    var packet := SendHistory(m.session.server, m.session.user, ticket, data);
    AskHasRoom(m, History, data, packet, HISTORY_TIMEOUT, Only(Loses));
  }

  lemma FetchHasRoom(m: Mgr, user: bytes)
    requires Room(m)
    ensures ScriptEnds(m, FetchUserDataScript(m, user))
  {
    hide Room, Parse, Pump, Poll, Start, NowMs, Deadline, QueryScript, PollScript, ScriptEnds, Quiet, Only;
    var script := FetchUserDataScript(m, user);
    OnlyQuiet(Loses);
    QuietEnds(m, Nil);
    if Parse(user).Some? && user !in m.queries.fetches && IsOnline(m) {
      var ticket := Asked(m, ClientInfo, 0, user).tickets.next;
      var query := PendingQuery(ticket, Deadline(NowMs(m.clock), QUERY_TIMEOUT));
      QueryQuiet(m, ClientInfo, 0, user, GetClientInfo(m.session.server, Parse(user).value, ticket),
                 m.queries.(fetches := m.queries.fetches[user := query]), Nil);
      QuietEnds(m, script);
    } else if Parse(user).Some? && user in m.queries.fetches {
      var p, query := Pump(m), m.queries.fetches[user];
      var struck := p.queries.(fetches := p.queries.fetches - {user});
      match Poll(p.tickets, query.ticket) {
        case Finished(tr) =>
          OnlyQuiet(Remembers(user, tr.resultString));
          PolledHasRoom(m, query, struck, Only(Remembers(user, tr.resultString)));
        case _ => PolledHasRoom(m, query, struck, Nil);
      }
    }
  }

  lemma PolledHasRoom(m: Mgr, query: PendingQuery, struck: Queries, found: Script)
    requires Room(m) && Quiet(found)
    ensures ScriptEnds(m, PollScript(m, query, struck, found))
  {
    hide Room, Pump, Poll, TimeAfter, NowMs, Quiet, ScriptEnds, Only;
    PollQuiet(m, query, struck, found);
    PumpThenQuiet(m, PollScript(m, query, struck, found).rest);
  }

  lemma RandomHasRoom(m: Mgr)
    requires Room(m)
    ensures ScriptEnds(m, FetchRandomUserScript(m))
  {
    hide Room, Pump, Start, NowMs, Deadline, QueryScript, PollScript, ScriptEnds, Quiet, Only;
    OnlyQuiet(Records(m.queries.(random := NO_QUERY)));
    QuietEnds(m, Nil);
    if m.queries.random.ticket != 0 {
      PolledHasRoom(m, m.queries.random, Pump(m).queries.(random := NO_QUERY), Nil);
    } else if IsOnline(m) {
      var ticket := Asked(m, RandomUser, 0, []).tickets.next;
      var query := PendingQuery(ticket, Deadline(NowMs(m.clock), QUERY_TIMEOUT));
      QueryQuiet(m, RandomUser, 0, [], AskRandomUser(m.session.server, m.session.user, ticket),
                 m.queries.(random := query),
                 Only(Records(m.queries.(random := NO_QUERY))));
      QuietEnds(m, FetchRandomUserScript(m));
    }
  }

  lemma StatusHasRoom(m: Mgr)
    requires Room(m)
    ensures ScriptEnds(m, GetStatusScript(m))
  {
    hide Room, Pump, Start, NowMs, Deadline, QueryScript, PollScript, ScriptEnds, Quiet, Only;
    var struck := m.queries.(status := NO_QUERY);
    OnlyQuiet(Records(struck));
    QuietEnds(m, Nil);
    if !IsOnline(m) {
      ThenQuiet(Abandons(m.queries.status.ticket), Only(Records(struck)));
      QuietEnds(m, GetStatusScript(m));
    } else if m.queries.status.ticket != 0 {
      PolledHasRoom(m, m.queries.status, Pump(m).queries.(status := NO_QUERY), Nil);
    } else {
      var ticket := Asked(m, Status, 16, []).tickets.next;
      var query := PendingQuery(ticket, Deadline(NowMs(m.clock), QUERY_TIMEOUT));
      QueryQuiet(m, Status, 16, [], AskStatus(m.session.server, ticket), m.queries.(status := query),
                 Only(Records(struck)));
      QuietEnds(m, GetStatusScript(m));
    }
  }

  lemma AddHasRoom(m: Mgr, user: bytes)
    requires Room(m)
    ensures ScriptEnds(m, AddToWWRScript(m, user))
  {
    hide Room, Parse, Pump, Send, TimeAfter, NowMs, BeginAdd, PumpEnds, Quiet, Only;
    var script, b := AddToWWRScript(m, user), Watched(m, BeginAdd(m.watch, user));
    OnlyQuiet(FinishesAdd(user));
    OnlyQuiet(AwaitsAdd(user));
    ThenQuiet(GivesUpAdd(user), Only(FinishesAdd(user)));
    if Parse(user).Some? {
      if IsOnline(b) && user in b.watch.pendingAdds {
        SameRoom(m, b);
        PumpThenQuiet(b, script.rest.rest);
      } else if IsOnline(b) {
        ThenQuiet(Writes(WwrModify(true, b.session.server, Parse(user).value)), script.rest.rest);
        QuietEnds(b, script.rest);
      } else {
        QuietEnds(b, script.rest);
      }
    }
  }

  lemma SameRoom(m: Mgr, r: Mgr)
    requires Room(m) && r.disk == m.disk && r.sock == m.sock
    ensures Room(r)
  {
  }

  // ---- where the calls pump ----

  lemma PumpingEnds(m: Mgr, call: Call)
    requires CallEnds(m, call) && (call.CallGetMessages? || call.CallSendOrdinaryMessages?)
    ensures PumpEnds(m)
  {
    hide PumpEnds, Perform, ScanScript;
  }

  lemma BackgroundEnds(m: Mgr, users: seq<bytes>)
    requires CallEnds(m, CallConnect(users))
    ensures UnderWay(m) ==> PumpEnds(m)
  {
    hide PumpEnds, Perform;
  }

  lemma FetchingEnds(m: Mgr, user: bytes)
    requires CallEnds(m, CallFetchUserData(user)) && Parse(user).Some? && user in m.queries.fetches
    ensures PumpEnds(m)
  {
    hide PumpEnds, Perform, Parse;
  }

  lemma FetchingRandomEnds(m: Mgr)
    requires CallEnds(m, CallFetchRandomUser) && m.queries.random.ticket != 0
    ensures PumpEnds(m)
  {
    hide PumpEnds, Perform;
  }

  lemma StatusEnds(m: Mgr)
    requires CallEnds(m, CallGetStatus) && IsOnline(m) && m.queries.status.ticket != 0
    ensures PumpEnds(m)
  {
    hide PumpEnds, Perform;
  }

  lemma AddingEnds(m: Mgr, user: bytes)
    requires CallEnds(m, CallAddToWWR(user))
    ensures var b := Watched(m, BeginAdd(m.watch, user));
            Parse(user).Some? && IsOnline(b) && user in b.watch.pendingAdds ==> PumpEnds(b)
  {
    hide PumpEnds, Pump, Parse, FirstAddScript, BeginAdd;
    var b := Watched(m, BeginAdd(m.watch, user));
    if Parse(user).Some? && IsOnline(b) && user in b.watch.pendingAdds {
      assert ScriptEnds(b, LaterAddScript(b, user));
    }
  }

  /** The searches of a question asked and waited for. */
  lemma AskingEnds(m: Mgr, kind: Kind, subject: bytes, packet: Packet, timeout: nat, lost: Script)
    requires timeout < TWO_31 && ScriptEnds(m, AskScript(m, kind, subject, packet, timeout, lost))
    ensures AskedEnds(m, kind, subject, packet, timeout)
  {
    hide PumpEnds, Start, Send, WaitScript;
    var s := Send(Asked(m, kind, 0, subject), packet);
    assert ScriptEnds(s, AskScript(m, kind, subject, packet, timeout, lost).rest);
  }

  ghost predicate AskedEnds(m: Mgr, kind: Kind, subject: bytes, packet: Packet, timeout: nat)
    requires timeout < TWO_31
  {
    var s := Send(Asked(m, kind, 0, subject), packet);
    s.sock.state.Connected? ==> ScriptEnds(s, WaitScript(s, s.tickets.next, s.clock + timeout))
  }

  lemma OnlineEnds(m: Mgr, user: bytes, uin: Uin)
    requires CallEnds(m, CallIsUserOnline(user))
    requires Parse(user) == Some(uin) && IsOnline(m) && uin != m.session.user && user !in m.watch.presence
    ensures var ticket := Asked(m, ConnectionDetail, 0, user).tickets.next;
            AskedEnds(m, ConnectionDetail, user, GetConnectionDetail(m.session.server, uin, ticket),
                      USER_ONLINE_TIMEOUT)
  {
    hide ScriptEnds, Start, AskScript, Parse;
    var ticket := Asked(m, ConnectionDetail, 0, user).tickets.next;
    AskingEnds(m, ConnectionDetail, user, GetConnectionDetail(m.session.server, uin, ticket), USER_ONLINE_TIMEOUT, Nil);
  }

  lemma HistoryEnds(m: Mgr, data: bytes)
    requires CallEnds(m, CallFeedHistory(data)) && IsOnline(m) && data != []
    ensures var ticket := Asked(m, History, 0, data).tickets.next;
            AskedEnds(m, History, data, SendHistory(m.session.server, m.session.user, ticket, data), HISTORY_TIMEOUT)
  {
    hide ScriptEnds, Start, AskScript;
    var ticket := Asked(m, History, 0, data).tickets.next;
    AskingEnds(m, History, data, SendHistory(m.session.server, m.session.user, ticket, data), HISTORY_TIMEOUT,
               Only(Loses));
  }

  lemma WaitingEnds(m: Mgr, ticket: int32, deadline: nat)
    requires m.clock < deadline + TWO_31 && deadline <= m.clock + TWO_31
             && ScriptEnds(m, WaitScript(m, ticket, deadline))
    ensures PumpEnds(m)
    ensures var p := Pump(m);
            Poll(p.tickets, ticket).Pending? && IsOnline(p) && !TimeAfter(NowMs(p.clock), NowMs(deadline)) ==>
              p.clock < deadline && ScriptEnds(Wait(p), WaitScript(Wait(p), ticket, deadline))
  {
    hide PumpEnds, Pump, Poll, TimeAfter, NowMs, Wait;
    var p, s := Pump(m), WaitScript(m, ticket, deadline);
    if Poll(p.tickets, ticket).Pending? && IsOnline(p) && !TimeAfter(NowMs(p.clock), NowMs(deadline)) {
      StillBefore(p.clock, deadline);
      assert ScriptEnds(p, s.rest);
    }
  }

  lemma RunEndsThen(m: Mgr, call: Call, rest: seq<Call>)
    requires RunEnds(m, [call] + rest)
    ensures CallEnds(m, call) && RunEnds(Do(m, call), rest)
  {
    hide CallEnds, Do;
    assert ([call] + rest)[1..] == rest;
  }

  /** The first call of a polling loop, and the loop after it. */
  lemma ConnectingEnds(m: Mgr)
    requires RunEnds(m, ConnectRun(m))
    ensures CallEnds(m, CallConnect([]))
    ensures var c := ConnectInBackground(m, []); UnderWay(c) ==> RunEnds(Wait(c), ConnectRun(Wait(c)))
  {
    hide CallEnds, RunEnds, ConnectInBackground, Wait, LetWait, Due, Left, UnderWay;
    ConnectStarts(m);
    var c := ConnectInBackground(m, []);
    RunEndsThen(m, CallConnect([]), PollRun(c));
    if UnderWay(c) {
      LetWaitWaits(c);
      PollRunIs(c);
      RunEndsThen(c, LetWait(c), ConnectRun(Wait(c)));
    }
  }

  lemma PollRunIs(c: Mgr)
    requires UnderWay(c) && !Due(c)
    ensures PollRun(c) == [LetWait(c)] + ConnectRun(Wait(c))
  {
    hide ConnectInBackground, Wait, LetWait, Due, Left;
    WaitShrinks(c);
    WaitIsUnderWay(c);
    PollKeepsDeadline(Wait(c));
    PollShrinks(c);
    ConnectStarts(Wait(c));
  }

  lemma RandomEnds(m: Mgr)
    requires RunEnds(m, RandomRun(m))
    ensures CallEnds(m, CallFetchRandomUser)
    ensures var c := FetchRandomUser(m); c.block ==> RunEnds(Wait(c.m), RandomRun(Wait(c.m)))
  {
    hide CallEnds, RunEnds, FetchRandomUser, Wait, LetWait, RandomPatience;
    var c := FetchRandomUser(m);
    if c.block {
      RandomPatienceShrinks(m);
      LetWaitWaits(c.m);
      var rest := RandomRun(Wait(c.m));
      assert RandomRun(m) == [CallFetchRandomUser] + ([LetWait(c.m)] + rest);
      RunEndsThen(m, CallFetchRandomUser, [LetWait(c.m)] + rest);
      RunEndsThen(c.m, LetWait(c.m), rest);
    } else {
      assert RandomRun(m) == [CallFetchRandomUser] + [];
      RunEndsThen(m, CallFetchRandomUser, []);
    }
  }

  /** Logging in leaves what the wait for the answer is given. */
  lemma LoginStays(m: Mgr)
    ensures !UnderWay(m) ==> LoginStep(m) == m
    ensures m.session.phase.PhaseAwait? ==> LoginStep(m) == m
  {
  }

  // ---- blocking calls on a disk with room ----

  lemma ThenRunEnds(m: Mgr, call: Call, rest: seq<Call>)
    requires CallEnds(m, call) && RunEnds(Do(m, call), rest)
    ensures RunEnds(m, [call] + rest)
  {
    hide CallEnds, Do;
    assert ([call] + rest)[1..] == rest;
  }

  lemma {:induction false} PollRunHasRoom(c: Mgr)
    requires Room(c) && (UnderWay(c) ==> !Due(c))
    ensures RunEnds(c, PollRun(c))
    decreases if UnderWay(c) then Left(c) + 1 else 0
  {
    hide ConnectInBackground, Wait, LetWait, Left, Due, Room, CallEnds;
    if UnderWay(c) {
      var n := ConnectInBackground(Wait(c), []);
      WaitShrinks(c);
      WaitIsUnderWay(c);
      PollKeepsDeadline(Wait(c));
      PollShrinks(c);
      LetWaitWaits(c);
      WaitRoom(c);
      ConnectRoom(Wait(c), []);
      PollRunHasRoom(n);
      CallHasRoom(c, LetWait(c));
      CallHasRoom(Wait(c), CallConnect([]));
      ThenRunEnds(Wait(c), CallConnect([]), PollRun(n));
      ThenRunEnds(c, LetWait(c), [CallConnect([])] + PollRun(n));
      assert PollRun(c) == [LetWait(c)] + ([CallConnect([])] + PollRun(n));
    }
  }

  lemma ConnectHasRoom(m: Mgr)
    requires Room(m)
    ensures RunEnds(m, ConnectRun(m))
  {
    hide ConnectInBackground, Room, CallEnds, RunEnds, Due;
    var c := ConnectInBackground(m, []);
    ConnectStarts(m);
    ConnectRoom(m, []);
    PollRunHasRoom(c);
    CallHasRoom(m, CallConnect([]));
    ThenRunEnds(m, CallConnect([]), PollRun(c));
  }

  lemma RandomRoom(m: Mgr)
    requires Room(m)
    ensures Room(FetchRandomUser(m).m)
  {
    hide Pump, Start, WriteSock, Build, Abandon, AfterPoll, Poll, TimeAfter;
    PumpRoom(m);
  }

  lemma {:induction false} RandomRunHasRoom(m: Mgr)
    requires Room(m)
    ensures RunEnds(m, RandomRun(m))
    decreases RandomPatience(m)
  {
    hide FetchRandomUser, Wait, LetWait, RandomPatience, Room, CallEnds, RunEnds;
    var c := FetchRandomUser(m);
    CallHasRoom(m, CallFetchRandomUser);
    RandomRoom(m);
    if c.block {
      RandomPatienceShrinks(m);
      LetWaitWaits(c.m);
      WaitRoom(c.m);
      var rest := RandomRun(Wait(c.m));
      RandomRunHasRoom(Wait(c.m));
      CallHasRoom(c.m, LetWait(c.m));
      ThenRunEnds(c.m, LetWait(c.m), rest);
      ThenRunEnds(m, CallFetchRandomUser, [LetWait(c.m)] + rest);
      assert RandomRun(m) == [CallFetchRandomUser] + ([LetWait(c.m)] + rest);
    } else {
      NothingEnds(c.m);
      ThenRunEnds(m, CallFetchRandomUser, []);
      assert RandomRun(m) == [CallFetchRandomUser] + [];
    }
  }

  lemma NothingEnds(m: Mgr)
    ensures RunEnds(m, [])
  {
  }
}
