/** Every public call is a script of small acts; what each act keeps, each call keeps. */
module Acts {
  import opened Bytes
  import opened Uins
  import opened Protocol
  import opened Sockets
  import opened Clock
  import opened Tickets
  import opened Watching
  import opened Spool
  import opened Client
  import opened Connection
  import opened Api

  datatype Act =
    | Pumps
    | Waits
    | Connects(users: seq<bytes>)
    | Disconnects
    | Loses
    | Writes(packet: Packet)
    | Questions(kind: Kind, fixedExtra: nat, subject: bytes, packet: Packet)
    | Polls(ticket: int32)
    | Abandons(ticket: int32)
    | Records(queries: Queries)
    | BeginsAdd(user: bytes)
    | FinishesAdd(user: bytes)
    | AwaitsAdd(user: bytes)
    | GivesUpAdd(user: bytes)
    | Unwatches(user: bytes)
    | TakesChange
    | Remembers(user: bytes, nickName: bytes)
    | TakesMail
    | SetsFiles(files: map<bytes, bytes>)
    | SetsOutbox(dirty: bool, nextScan: uint32)
    | SetsDirectories(outbox: bytes, inbox: bytes)
    | SetsUser(nickname: bytes, password: bytes)
    | Changes(kernel: Kernel, clock: nat, naps: seq<Nap>, disk: Disk)

  function Perform(m: Mgr, act: Act): Mgr {
    match act
    case Pumps => Pump(m)
    case Waits => Wait(m)
    case Connects(users) => ConnectInBackground(m, users)
    case Disconnects => Disconnect(m)
    case Loses => ConnectionLost(m)
    case Writes(packet) => Send(m, packet)
    case Questions(kind, fixedExtra, subject, packet) => Send(Asked(m, kind, fixedExtra, subject), packet)
    case Polls(ticket) => Polling(m, ticket)
    case Abandons(ticket) => Abandoning(m, ticket)
    case Records(queries) => m.(queries := queries)
    case BeginsAdd(user) => Watched(m, BeginAdd(m.watch, user))
    case FinishesAdd(user) => Watched(m, FinishAdd(m.watch, user))
    case AwaitsAdd(user) =>
      Watched(m, m.watch.(pendingAdds := m.watch.pendingAdds[user := Deadline(NowMs(m.clock), WWR_ADD_TIMEOUT)]))
    case GivesUpAdd(user) => Watched(m, m.watch.(pendingAdds := m.watch.pendingAdds - {user}))
    case Unwatches(user) => RemoveFromWWR(m, user)
    case TakesChange => if m.watch.changed == [] then m else Watched(m, AfterNext(m.watch))
    case Remembers(user, nickName) => Remember(m, user, nickName)
    case TakesMail => m.(incoming := [], handed := m.handed + m.incoming)
    case SetsFiles(files) => SetFiles(m, files)
    case SetsOutbox(dirty, nextScan) => m.(outboxDirty := dirty, nextScan := nextScan)
    case SetsDirectories(outbox, inbox) => m.(outbox := outbox, inbox := inbox, outboxDirty := true)
    case SetsUser(nickname, password) => m.(session := m.session.(nickname := nickname, password := password))
    case Changes(kernel, clock, naps, disk) =>
      m.(sock := m.sock.(kernel := kernel), clock := clock, naps := naps, disk := disk)
  }

  /** Queries are recorded afresh or struck off, never altered. */
  predicate Recordable(q: Queries, r: Queries) {
    && (forall u | u in q.fetches && u in r.fetches :: r.fetches[u] == q.fetches[u])
    && (q.random.ticket == 0 || r.random.ticket == 0 || r.random == q.random)
    && (q.status.ticket == 0 || r.status.ticket == 0 || r.status == q.status)
  }

  /** A record is new only for a question just asked. */
  predicate NewlyAsked(t: Tickets, q: Queries, r: Queries) {
    && (forall u | u in r.fetches && u !in q.fetches :: Asks(t, r.fetches[u].ticket, ClientInfo, 0, u))
    && (q.random.ticket == 0 && r.random.ticket != 0 ==> Asks(t, r.random.ticket, RandomUser, 0, []))
    && (q.status.ticket == 0 && r.status.ticket != 0 ==> Asks(t, r.status.ticket, Status, 16, []))
  }

  /** A packet that puts this question, under the ticket just taken: to the server that logged the client in, about the
      user named or from the client's own id. */
  predicate Puts(m: Mgr, kind: Kind, fixedExtra: nat, subject: bytes, packet: Packet) {
    var server, own, ticket := m.session.server, m.session.user, m.tickets.next;
    && fixedExtra == (if kind == Status then 16 else 0)
    && match kind
       case ClientInfo => Parse(subject).Some? && packet == GetClientInfo(server, Parse(subject).value, ticket)
       case ConnectionDetail =>
         Parse(subject).Some? && packet == GetConnectionDetail(server, Parse(subject).value, ticket)
       case Status => packet == AskStatus(server, ticket)
       case RandomUser => packet == AskRandomUser(server, own, ticket)
       case History => packet == SendHistory(server, own, ticket, subject)
       case Abandoned => false
  }

  /** A packet that tells the server something: a message from the client's own id, or that a user is watched. */
  predicate Tells(m: Mgr, packet: Packet) {
    match packet
    case WwrModify(add, server, target) =>
      add && server == m.session.server && exists u :: u in m.watch.members && Parse(u) == Some(target)
    case Message(server, user, _, _) => server == m.session.server && user == m.session.user
    case _ => false
  }

  /** Where the calls do an act: requests are made and packets written only online, and so on. */
  predicate Proper(m: Mgr, act: Act) {
    match act
    case Waits => IsOnline(m)
    case Writes(packet) => IsOnline(m) && Tells(m, packet)
    case Questions(kind, fixedExtra, subject, packet) =>
      IsOnline(m) && Puts(Asked(m, kind, fixedExtra, subject), kind, fixedExtra, subject, packet)
    case Loses => m.session.phase.PhaseOnline? && !m.sock.state.Connected?
    case Records(queries) => Recordable(m.queries, queries) && NewlyAsked(m.tickets, m.queries, queries)
    case FinishesAdd(user) => user in m.watch.adding
    case AwaitsAdd(user) =>
      && IsOnline(m) && user in m.watch.adding && user in m.watch.members
      && user !in m.watch.pendingAdds && user !in m.watch.presence
    case GivesUpAdd(user) => user in m.watch.adding
    case _ => true
  }

  datatype Script = Nil | Then(act: Act, rest: Script)

  function Play(m: Mgr, s: Script): Mgr
    decreases s
  {
    match s
    case Nil => m
    case Then(act, rest) => Play(Perform(m, act), rest)
  }

  predicate AllProper(m: Mgr, s: Script)
    decreases s
  {
    s.Then? ==> Proper(m, s.act) && AllProper(Perform(m, s.act), s.rest)
  }

  /** Acts other than a change of the host's or a connection begun or polled. */
  predicate Inner(s: Script) {
    s.Then? ==> !s.act.Changes? && !s.act.Connects? && Inner(s.rest)
  }

  /** No AddToWWR is begun or finished in it, and nobody unwatched. */
  predicate Simple(s: Script) {
    s.Then? ==> !s.act.BeginsAdd? && !s.act.FinishesAdd? && !s.act.Unwatches? && Simple(s.rest)
  }

  /** Nothing passes between the client and the game: no change or mail is taken, no name remembered, nothing set. */
  predicate Silent(s: Script) {
    s.Then? ==>
      && !s.act.TakesChange? && !s.act.TakesMail? && !s.act.Remembers?
      && !s.act.SetsUser? && !s.act.SetsDirectories?
      && Silent(s.rest)
  }

  // ---- the scripts ----

  function Only(act: Act): Script {
    Then(act, Nil)
  }

  function WaitScript(m: Mgr, ticket: int32, deadline: nat): Script
    requires m.clock < deadline + TWO_31 && deadline <= m.clock + TWO_31
    decreases deadline - m.clock
  {
    hide TimeAfter, NowMs, Pump, AfterPoll, Abandon;
    var p := Pump(m);
    Then(Pumps,
      match Poll(p.tickets, ticket)
      case Missing => Nil
      case Finished(tr) => Only(Polls(ticket))
      case Pending =>
        if !IsOnline(p) then Nil
        else if TimeAfter(NowMs(p.clock), NowMs(deadline)) then Only(Abandons(ticket))
        else
          StillBefore(p.clock, deadline);
          Then(Waits, WaitScript(Wait(p), ticket, deadline)))
  }

  /** Asking a question and waiting for the answer; `lost` is what a failed write leads to. */
  function AskScript(m: Mgr, kind: Kind, subject: bytes, packet: Packet, timeout: nat, lost: Script): Script
    requires timeout < TWO_31
  {
    var a := Asked(m, kind, 0, subject);
    var s := Send(a, packet);
    Then(Questions(kind, 0, subject, packet),
      if !s.sock.state.Connected? then Then(Abandons(a.tickets.next), lost)
      else WaitScript(s, a.tickets.next, s.clock + timeout))
  }

  function IsUserOnlineScript(m: Mgr, user: bytes): Script {
    match Parse(user)
    case None => Nil
    case Some(uin) =>
      if !IsOnline(m) || uin == m.session.user || user in m.watch.presence then Nil
      else
        var ticket := Asked(m, ConnectionDetail, 0, user).tickets.next;
        AskScript(m, ConnectionDetail, user, GetConnectionDetail(m.session.server, uin, ticket), USER_ONLINE_TIMEOUT,
                  Nil)
  }

  function FeedHistoryScript(m: Mgr, data: bytes): Script {
    if !IsOnline(m) || data == [] then Nil
    else
      var ticket := Asked(m, History, 0, data).tickets.next;
      AskScript(m, History, data, SendHistory(m.session.server, m.session.user, ticket, data), HISTORY_TIMEOUT,
                Only(Loses))
  }

  /** The first call of a polled query: `asked` records it, `failed` withdraws it. */
  function QueryScript(m: Mgr, kind: Kind, fixedExtra: nat, subject: bytes, packet: Packet, asked: Queries,
                       failed: Script): Script {
    var a := Asked(m, kind, fixedExtra, subject);
    Then(Questions(kind, fixedExtra, subject, packet),
      if Send(a, packet).sock.state.Connected? then Only(Records(asked)) else Then(Abandons(a.tickets.next), failed))
  }

  /** A later call; `found` is what follows a success. */
  function PollScript(m: Mgr, query: PendingQuery, struck: Queries, found: Script): Script {
    var p := Pump(m);
    Then(Pumps,
      match Poll(p.tickets, query.ticket)
      case Missing => Only(Records(struck))
      case Finished(tr) => Then(Polls(query.ticket), Then(Records(struck), if tr.success then found else Nil))
      case Pending =>
        if TimeAfter(NowMs(p.clock), query.deadline) then Then(Abandons(query.ticket), Only(Records(struck))) else Nil)
  }

  function FetchUserDataScript(m: Mgr, user: bytes): Script {
    match Parse(user)
    case None => Nil
    case Some(uin) =>
      if user !in m.queries.fetches then
        if !IsOnline(m) then Nil
        else
          var ticket := Asked(m, ClientInfo, 0, user).tickets.next;
          var query := PendingQuery(ticket, Deadline(NowMs(m.clock), QUERY_TIMEOUT));
          QueryScript(m, ClientInfo, 0, user, GetClientInfo(m.session.server, uin, ticket),
                      m.queries.(fetches := m.queries.fetches[user := query]), Nil)
      else
        var p, query := Pump(m), m.queries.fetches[user];
        PollScript(m, query, p.queries.(fetches := p.queries.fetches - {user}),
                   match Poll(p.tickets, query.ticket)
                   case Finished(tr) => Only(Remembers(user, tr.resultString))
                   case _ => Nil)
  }

  function FetchRandomUserScript(m: Mgr): Script {
    if m.queries.random.ticket == 0 then
      if !IsOnline(m) then Nil
      else
        var ticket := Asked(m, RandomUser, 0, []).tickets.next;
        var query := PendingQuery(ticket, Deadline(NowMs(m.clock), QUERY_TIMEOUT));
        QueryScript(m, RandomUser, 0, [], AskRandomUser(m.session.server, m.session.user, ticket),
                    m.queries.(random := query), Only(Records(m.queries.(random := NO_QUERY))))
    else
      PollScript(m, m.queries.random, Pump(m).queries.(random := NO_QUERY), Nil)
  }

  function GetStatusScript(m: Mgr): Script {
    var struck := m.queries.(status := NO_QUERY);
    if !IsOnline(m) then
      if m.queries.status.ticket == 0 then Nil else Then(Abandons(m.queries.status.ticket), Only(Records(struck)))
    else if m.queries.status.ticket == 0 then
      var ticket := Asked(m, Status, 16, []).tickets.next;
      var query := PendingQuery(ticket, Deadline(NowMs(m.clock), QUERY_TIMEOUT));
      QueryScript(m, Status, 16, [], AskStatus(m.session.server, ticket), m.queries.(status := query),
                  Only(Records(struck)))
    else
      PollScript(m, m.queries.status, Pump(m).queries.(status := NO_QUERY), Nil)
  }

  function AddToWWRScript(m: Mgr, user: bytes): Script {
    match Parse(user)
    case None => Nil
    case Some(uin) =>
      var b := Watched(m, BeginAdd(m.watch, user));
      Then(BeginsAdd(user),
        if !IsOnline(b) then Only(FinishesAdd(user))
        else if user !in b.watch.pendingAdds then FirstAddScript(b, user, uin)
        else LaterAddScript(b, user))
  }

  function FirstAddScript(b: Mgr, user: bytes, uin: Uin): Script {
    var packet := WwrModify(true, b.session.server, uin);
    Then(Writes(packet),
      if !Send(b, packet).sock.state.Connected? || user in b.watch.presence then Only(FinishesAdd(user))
      else Only(AwaitsAdd(user)))
  }

  function LaterAddScript(b: Mgr, user: bytes): Script {
    var p := Pump(b);
    Then(Pumps,
      if user !in p.watch.pendingAdds then Only(FinishesAdd(user))
      else if TimeAfter(NowMs(p.clock), p.watch.pendingAdds[user]) then Then(GivesUpAdd(user), Only(FinishesAdd(user)))
      else Nil)
  }

  /** Writing a message; `sent` follows a success. */
  function PostScript(m: Mgr, user: bytes, data: bytes, sent: Script): Script {
    match Parse(user)
    case None => Nil
    case Some(target) =>
      if !IsOnline(m) then Nil
      else
        var packet := Message(m.session.server, m.session.user, target, data);
        Then(Writes(packet), if Send(m, packet).sock.state.Connected? then sent else Only(Loses))
  }

  function FileScript(m: Mgr, path: bytes, next: Script): Script {
    var target := UserFromSpoolName(BaseName(path));
    if target == [] then Then(SetsFiles(RenamedBad(m.disk.files, path)), next)
    else if path !in m.disk.files then next
    else PostScript(m, target, BinaryMessage(MESG_PRAY_FILE, m.disk.files[path]),
                    Then(SetsFiles(m.disk.files - {path}), next))
  }

  function FilesScript(m: Mgr, names: seq<bytes>): Script
    decreases |names|
  {
    if names == [] || !IsOnline(m) then Nil
    else
      var path := m.outbox + names[0];
      FileScript(m, path, FilesScript(SendOutboxFile(m, path).0, names[1..]))
  }

  function ScanScript(m: Mgr): Script {
    if m.outbox == [] || (!m.outboxDirty && !TimeAfter(NowMs(m.clock), m.nextScan)) then Nil
    else
      var s := m.(outboxDirty := false, nextScan := Deadline(NowMs(m.clock), OUTBOX_RESCAN));
      Then(SetsOutbox(false, s.nextScan), FilesScript(s, WithExtension(s.disk.listing, DOT_WARP)))
  }

  function UniqueOutboxFilenameScript(m: Mgr, user: bytes): Script {
    if UniqueOutboxFilename(m, user).1 == [] then Nil else Only(SetsOutbox(true, m.nextScan))
  }

  /** The calls of a single act. */
  function ActOf(m: Mgr, call: Call): Act {
    match call
    case Host(kernel, clock, naps, disk) => Changes(kernel, clock, naps, disk)
    case CallSetUser(nickname, password) => SetsUser(nickname, password)
    case CallSetDirectories(outbox, inbox) =>
      SetsDirectories(EnsureTrailingSeparator(outbox), EnsureTrailingSeparator(inbox))
    case CallConnect(users) => Connects(users)
    case CallDisconnect => Disconnects
    case CallRemoveFromWWR(user) => Unwatches(user)
    case _ => TakesChange
  }

  function ScriptOf(m: Mgr, call: Call): Script {
    match call
    case CallSendOrdinaryMessages => Then(Pumps, if IsOnline(Pump(m)) then ScanScript(Pump(m)) else Nil)
    case CallIsUserOnline(user) => IsUserOnlineScript(m, user)
    case CallAddToWWR(user) => AddToWWRScript(m, user)
    case CallFetchUserData(user) => FetchUserDataScript(m, user)
    case CallFetchRandomUser => FetchRandomUserScript(m)
    case CallGetStatus => GetStatusScript(m)
    case CallPostDirectMessage(user, data) => PostScript(m, user, data, Nil)
    case CallGetMessages => Then(Pumps, Only(TakesMail))
    case CallFeedHistory(data) => FeedHistoryScript(m, data)
    case CallUniqueOutboxFilename(user) => UniqueOutboxFilenameScript(m, user)
    case _ => Only(ActOf(m, call))
  }

  // ---- the scripts do what the calls do ----

  /** The script leads from m to r, properly, without the host or a connection being involved. */
  predicate Leads(m: Mgr, s: Script, r: Mgr) {
    Play(m, s) == r && AllProper(m, s) && Inner(s) && Simple(s)
  }

  /** The same, with the user's AddToWWR finished in it, where `clean` only once the user is not waited for. */
  predicate LeadsAdding(m: Mgr, s: Script, r: Mgr, user: bytes, clean: bool) {
    Play(m, s) == r && AllProper(m, s) && Inner(s) && FinishesOnly(m, s, user, clean)
  }

  predicate FinishesOnly(m: Mgr, s: Script, user: bytes, clean: bool)
    decreases s
  {
    s.Then? ==>
      && !s.act.Unwatches?
      && (s.act.FinishesAdd? ==> s.act.user == user && (clean ==> user !in m.watch.pendingAdds))
      && FinishesOnly(Perform(m, s.act), s.rest, user, clean)
  }

  lemma NilLeads(m: Mgr)
    ensures Leads(m, Nil, m)
  {
  }

  lemma ThenLeads(m: Mgr, act: Act, rest: Script, r: Mgr)
    requires Proper(m, act) && !act.Changes? && !act.Connects? && Leads(Perform(m, act), rest, r)
    requires !act.BeginsAdd? && !act.FinishesAdd? && !act.Unwatches?
    ensures Leads(m, Then(act, rest), r)
  {
  }

  lemma OnlyLeads(m: Mgr, act: Act)
    requires Proper(m, act) && !act.Changes? && !act.Connects?
    requires !act.BeginsAdd? && !act.FinishesAdd? && !act.Unwatches?
    ensures Leads(m, Only(act), Perform(m, act))
  {
    NilLeads(Perform(m, act));
    ThenLeads(m, act, Nil, Perform(m, act));
  }

  lemma {:induction false} WaitLeads(m: Mgr, ticket: int32, deadline: nat)
    requires m.clock < deadline + TWO_31 && deadline <= m.clock + TWO_31
    ensures Leads(m, WaitScript(m, ticket, deadline), WaitFor(m, ticket, deadline).0)
    decreases deadline - m.clock
  {
    hide Pump, AfterPoll, Abandon, TimeAfter, NowMs, Leads, Only;
    var p, s, r := Pump(m), WaitScript(m, ticket, deadline), WaitFor(m, ticket, deadline).0;
    NilLeads(p);
    OnlyLeads(p, Polls(ticket));
    OnlyLeads(p, Abandons(ticket));
    if Poll(p.tickets, ticket).Pending? && IsOnline(p) && !TimeAfter(NowMs(p.clock), NowMs(deadline)) {
      StillBefore(p.clock, deadline);
      WaitLeads(Wait(p), ticket, deadline);
      ThenLeads(p, Waits, WaitScript(Wait(p), ticket, deadline), r);
    }
    ThenLeads(m, Pumps, s.rest, r);
  }

  lemma AskLeads(m: Mgr, kind: Kind, subject: bytes, packet: Packet, timeout: nat, lost: Script, r: Mgr)
    requires timeout < TWO_31 && IsOnline(m) && Puts(Asked(m, kind, 0, subject), kind, 0, subject, packet)
    requires var a := Asked(m, kind, 0, subject);
             var s := Send(a, packet);
             if !s.sock.state.Connected? then Leads(Abandoning(s, a.tickets.next), lost, r)
             else r == WaitFor(s, a.tickets.next, s.clock + timeout).0
    ensures Leads(m, AskScript(m, kind, subject, packet, timeout, lost), r)
  {
    hide Start, Send, Abandon, WaitFor, WaitScript, Leads;
    var a, s := Asked(m, kind, 0, subject), Send(Asked(m, kind, 0, subject), packet);
    var script := AskScript(m, kind, subject, packet, timeout, lost);
    if s.sock.state.Connected? {
      WaitLeads(s, a.tickets.next, s.clock + timeout);
    } else {
      ThenLeads(s, Abandons(a.tickets.next), lost, r);
    }
    ThenLeads(m, Questions(kind, 0, subject, packet), script.rest, r);
  }

  lemma IsUserOnlineLeads(m: Mgr, user: bytes)
    ensures Leads(m, IsUserOnlineScript(m, user), IsUserOnline(m, user).0)
  {
    hide Parse, Start, Send, Abandon, WaitFor, AskScript, Leads;
    NilLeads(m);
    if Parse(user).Some? && IsOnline(m) && Parse(user).value != m.session.user && user !in m.watch.presence {
      var a := Asked(m, ConnectionDetail, 0, user);
      var packet := GetConnectionDetail(m.session.server, Parse(user).value, a.tickets.next);
      SendKeeps(a, packet);
      NilLeads(Abandoning(Send(a, packet), a.tickets.next));
      AskLeads(m, ConnectionDetail, user, packet, USER_ONLINE_TIMEOUT, Nil, IsUserOnline(m, user).0);
    }
  }

  lemma FeedHistoryLeads(m: Mgr, data: bytes)
    ensures Leads(m, FeedHistoryScript(m, data), FeedHistory(m, data).0)
  {
    hide Start, Send, WaitFor, AskScript, ConnectionLost, Abandon, Leads, Only;
    NilLeads(m);
    if IsOnline(m) && data != [] {
      var a := Asked(m, History, 0, data);
      var packet := SendHistory(m.session.server, m.session.user, a.tickets.next, data);
      var s := Send(a, packet);
      SendKeeps(a, packet);
      if !s.sock.state.Connected? {
        OnlyLeads(Abandoning(s, a.tickets.next), Loses);
      }
      AskLeads(m, History, data, packet, HISTORY_TIMEOUT, Only(Loses), FeedHistory(m, data).0);
    }
  }

  lemma SendKeeps(m: Mgr, packet: Packet)
    ensures Send(m, packet).session == m.session && Send(m, packet).queries == m.queries
            && Send(m, packet).watch == m.watch
    ensures Send(m, packet).tickets == m.tickets && Send(m, packet).clock == m.clock
  {
  }

  lemma QueryLeads(m: Mgr, kind: Kind, fixedExtra: nat, subject: bytes, packet: Packet, asked: Queries,
                   failed: Script, r: Mgr)
    requires IsOnline(m) && Puts(Asked(m, kind, fixedExtra, subject), kind, fixedExtra, subject, packet)
    requires Recordable(m.queries, asked)
    requires NewlyAsked(Asked(m, kind, fixedExtra, subject).tickets, m.queries, asked)
    requires var a := Asked(m, kind, fixedExtra, subject);
             var s := Send(a, packet);
             if s.sock.state.Connected? then r == s.(queries := asked)
               else Leads(Abandoning(s, a.tickets.next), failed, r)
    ensures Leads(m, QueryScript(m, kind, fixedExtra, subject, packet, asked, failed), r)
  {
    hide Start, Send, Abandon, Recordable, NewlyAsked, Leads, Only;
    var a, s := Asked(m, kind, fixedExtra, subject), Send(Asked(m, kind, fixedExtra, subject), packet);
    var script := QueryScript(m, kind, fixedExtra, subject, packet, asked, failed);
    SendKeeps(a, packet);
    if s.sock.state.Connected? {
      OnlyLeads(s, Records(asked));
    } else {
      ThenLeads(s, Abandons(a.tickets.next), failed, r);
    }
    ThenLeads(m, Questions(kind, fixedExtra, subject, packet), script.rest, r);
  }

  lemma StartAsks(t: Tickets, kind: Kind, fixedExtra: nat, subject: bytes)
    ensures Asks(Start(t, kind, fixedExtra, subject), Start(t, kind, fixedExtra, subject).next, kind, fixedExtra,
                 subject)
  {
    hide NextTicket;
  }

  lemma PollLeads(m: Mgr, query: PendingQuery, struck: Queries, found: Script, r: Mgr)
    requires Recordable(Pump(m).queries, struck) && forall t :: NewlyAsked(t, Pump(m).queries, struck)
    requires var p := Pump(m);
             match Poll(p.tickets, query.ticket)
             case Missing => r == p.(queries := struck)
             case Finished(tr) =>
               var n := Polling(p, query.ticket).(queries := struck);
               if tr.success then Leads(n, found, r) else r == n
             case Pending =>
               r == if TimeAfter(NowMs(p.clock), query.deadline) then Abandoning(p, query.ticket).(queries := struck)
                 else p
    ensures Leads(m, PollScript(m, query, struck, found), r)
  {
    hide Pump, AfterPoll, Abandon, TimeAfter, NowMs, Recordable, NewlyAsked, Leads, Only;
    var p, script := Pump(m), PollScript(m, query, struck, found);
    var looked, dropped := Polling(p, query.ticket), Abandoning(p, query.ticket);
    NilLeads(p);
    NilLeads(looked.(queries := struck));
    OnlyLeads(p, Records(struck));
    OnlyLeads(dropped, Records(struck));
    ThenLeads(p, Abandons(query.ticket), Only(Records(struck)), dropped.(queries := struck));
    match Poll(p.tickets, query.ticket) {
      case Missing =>
      case Pending =>
      case Finished(tr) =>
        ThenLeads(looked, Records(struck), script.rest.rest.rest, r);
        ThenLeads(p, Polls(query.ticket), script.rest.rest, r);
    }
    ThenLeads(m, Pumps, script.rest, r);
  }

  lemma FetchUserDataLeads(m: Mgr, user: bytes)
    ensures Leads(m, FetchUserDataScript(m, user), FetchUserData(m, user).m)
  {
    hide Parse, Pump, Start, Send, Abandon, AfterPoll, TimeAfter, NowMs, Deadline, Remember, QueryScript,
         PollScript, Leads, Only;
    NilLeads(m);
    if Parse(user).Some? && user !in m.queries.fetches && IsOnline(m) {
      var a := Asked(m, ClientInfo, 0, user);
      var query := PendingQuery(a.tickets.next, Deadline(NowMs(m.clock), QUERY_TIMEOUT));
      var packet := GetClientInfo(m.session.server, Parse(user).value, a.tickets.next);
      SendKeeps(a, packet);
      StartAsks(m.tickets, ClientInfo, 0, user);
      NilLeads(Abandoning(Send(a, packet), a.tickets.next));
      QueryLeads(m, ClientInfo, 0, user, packet, m.queries.(fetches := m.queries.fetches[user := query]), Nil,
                 FetchUserData(m, user).m);
    } else if Parse(user).Some? && user in m.queries.fetches {
      var p, query := Pump(m), m.queries.fetches[user];
      var struck := p.queries.(fetches := p.queries.fetches - {user});
      match Poll(p.tickets, query.ticket) {
        case Finished(tr) =>
          OnlyLeads(Polling(p, query.ticket).(queries := struck), Remembers(user, tr.resultString));
          PollLeads(m, query, struck, Only(Remembers(user, tr.resultString)), FetchUserData(m, user).m);
        case _ =>
          PollLeads(m, query, struck, Nil, FetchUserData(m, user).m);
      }
    }
  }

  lemma FetchRandomUserLeads(m: Mgr)
    ensures Leads(m, FetchRandomUserScript(m), FetchRandomUser(m).m)
  {
    hide Pump, Start, Send, Abandon, AfterPoll, TimeAfter, NowMs, Deadline, Uin.ToString, QueryScript, PollScript,
         Leads, Only;
    var r := FetchRandomUser(m).m;
    NilLeads(m);
    if m.queries.random.ticket != 0 {
      var struck := Pump(m).queries.(random := NO_QUERY);
      NilLeads(Polling(Pump(m), m.queries.random.ticket).(queries := struck));
      PollLeads(m, m.queries.random, struck, Nil, r);
    } else if IsOnline(m) {
      var a := Asked(m, RandomUser, 0, []);
      var query := PendingQuery(a.tickets.next, Deadline(NowMs(m.clock), QUERY_TIMEOUT));
      var packet := AskRandomUser(m.session.server, m.session.user, a.tickets.next);
      var struck := m.queries.(random := NO_QUERY);
      SendKeeps(a, packet);
      StartAsks(m.tickets, RandomUser, 0, []);
      OnlyLeads(Abandoning(Send(a, packet), a.tickets.next), Records(struck));
      QueryLeads(m, RandomUser, 0, [], packet, m.queries.(random := query), Only(Records(struck)), r);
    }
  }

  lemma GetStatusLeads(m: Mgr)
    ensures Leads(m, GetStatusScript(m), GetStatus(m).m)
  {
    hide Pump, Start, Send, Abandon, AfterPoll, TimeAfter, NowMs, Deadline, Measured, QueryScript, PollScript,
         Leads, Only;
    var r, ticket, struck := GetStatus(m).m, m.queries.status.ticket, m.queries.(status := NO_QUERY);
    NilLeads(m);
    if !IsOnline(m) {
      OnlyLeads(Abandoning(m, ticket), Records(struck));
      ThenLeads(m, Abandons(ticket), Only(Records(struck)), Abandoning(m, ticket).(queries := struck));
    } else if ticket != 0 {
      var over := Pump(m).queries.(status := NO_QUERY);
      NilLeads(Polling(Pump(m), ticket).(queries := over));
      PollLeads(m, m.queries.status, over, Nil, r);
    } else {
      var a := Asked(m, Status, 16, []);
      var query := PendingQuery(a.tickets.next, Deadline(NowMs(m.clock), QUERY_TIMEOUT));
      var packet := AskStatus(m.session.server, a.tickets.next);
      SendKeeps(a, packet);
      StartAsks(m.tickets, Status, 16, []);
      OnlyLeads(Abandoning(Send(a, packet), a.tickets.next), Records(struck));
      QueryLeads(m, Status, 16, [], packet, m.queries.(status := query), Only(Records(struck)), r);
    }
  }

  lemma ThenAdding(m: Mgr, act: Act, rest: Script, r: Mgr, user: bytes, clean: bool)
    requires Proper(m, act) && !act.Changes? && !act.Connects? && !act.FinishesAdd? && !act.Unwatches?
             && LeadsAdding(Perform(m, act), rest, r, user, clean)
    ensures LeadsAdding(m, Then(act, rest), r, user, clean)
  {
  }

  lemma NilAdding(m: Mgr, user: bytes, clean: bool)
    ensures LeadsAdding(m, Nil, m, user, clean)
  {
  }

  lemma OnlyAdding(m: Mgr, act: Act, user: bytes, clean: bool)
    requires (act.FinishesAdd? && act.user == user && user in m.watch.adding
              && (clean ==> user !in m.watch.pendingAdds))
             || (act.AwaitsAdd? && Proper(m, act))
    ensures LeadsAdding(m, Only(act), Perform(m, act), user, clean)
  {
    hide FinishAdd, NowMs, Deadline, Perform;
    var n, s := Perform(m, act), Only(act);
    assert Play(n, Nil) == n && AllProper(n, Nil) && FinishesOnly(n, Nil, user, clean) && Inner(Nil);
    assert Play(m, s) == n && AllProper(m, s) && FinishesOnly(m, s, user, clean) && Inner(s);
  }

  lemma AddToWWRLeads(m: Mgr, user: bytes)
    ensures LeadsAdding(m, AddToWWRScript(m, user), AddToWWR(m, user).m, user,
                        IsOnline(m) || user !in m.watch.pendingAdds)
  {
    hide Parse, FirstAdd, LaterAdd, FirstAddScript, LaterAddScript, FinishAdd, LeadsAdding, Only;
    var clean := IsOnline(m) || user !in m.watch.pendingAdds;
    NilAdding(m, user, clean);
    if Parse(user).Some? {
      var b := Watched(m, BeginAdd(m.watch, user));
      if !IsOnline(b) {
        OnlyAdding(b, FinishesAdd(user), user, clean);
      } else if user !in b.watch.pendingAdds {
        FirstAddLeads(b, user, Parse(user).value);
      } else {
        LaterAddLeads(b, user);
      }
      ThenAdding(m, BeginsAdd(user), AddToWWRScript(m, user).rest, AddToWWR(m, user).m, user, clean);
    }
  }

  lemma FirstAddLeads(b: Mgr, user: bytes, uin: Uin)
    requires IsOnline(b) && user in b.watch.adding && user in b.watch.members && user !in b.watch.pendingAdds
    requires Parse(user) == Some(uin)
    ensures LeadsAdding(b, FirstAddScript(b, user, uin), FirstAdd(b, user, uin).m, user, true)
  {
    hide Parse, Send, FinishAdd, NowMs, Deadline, LeadsAdding, Only;
    var packet := WwrModify(true, b.session.server, uin);
    var s := Send(b, packet);
    SendKeeps(b, packet);
    OnlyAdding(s, FinishesAdd(user), user, true);
    if s.sock.state.Connected? && user !in b.watch.presence {
      OnlyAdding(s, AwaitsAdd(user), user, true);
    }
    ThenAdding(b, Writes(packet), FirstAddScript(b, user, uin).rest, FirstAdd(b, user, uin).m, user, true);
  }

  lemma LaterAddLeads(b: Mgr, user: bytes)
    requires user in b.watch.adding
    ensures LeadsAdding(b, LaterAddScript(b, user), LaterAdd(b, user).m, user, true)
  {
    hide Pump, FinishAdd, TimeAfter, NowMs, LeadsAdding, Only;
    var p := Pump(b);
    var dropped := Perform(p, GivesUpAdd(user));
    PumpKeepsAdding(b);
    NilAdding(p, user, true);
    OnlyAdding(dropped, FinishesAdd(user), user, true);
    if user !in p.watch.pendingAdds {
      OnlyAdding(p, FinishesAdd(user), user, true);
    }
    ThenAdding(p, GivesUpAdd(user), Only(FinishesAdd(user)), Perform(dropped, FinishesAdd(user)), user, true);
    ThenAdding(b, Pumps, LaterAddScript(b, user).rest, LaterAdd(b, user).m, user, true);
  }

  lemma PostLeads(m: Mgr, user: bytes, data: bytes, sent: Script, r: Mgr)
    requires var (p, ok) := PostDirectMessage(m, user, data);
             if ok then Leads(p, sent, r) else r == p
    ensures Leads(m, PostScript(m, user, data, sent), r)
  {
    hide Parse, Send, ConnectionLost, Leads, Only;
    NilLeads(m);
    if Parse(user).Some? && IsOnline(m) {
      var packet := Message(m.session.server, m.session.user, Parse(user).value, data);
      var s := Send(m, packet);
      SendKeeps(m, packet);
      if !s.sock.state.Connected? {
        OnlyLeads(s, Loses);
      }
      ThenLeads(m, Writes(packet), PostScript(m, user, data, sent).rest, r);
    }
  }

  lemma FileLeads(m: Mgr, path: bytes, next: Script, r: Mgr)
    requires var (p, ok) := SendOutboxFile(m, path);
             if ok then Leads(p, next, r) else r == p
    ensures Leads(m, FileScript(m, path, next), r)
  {
    hide PostDirectMessage, PostScript, UserFromSpoolName, BaseName, BinaryMessage, RenamedBad, Leads;
    var target := UserFromSpoolName(BaseName(path));
    if target == [] {
      ThenLeads(m, SetsFiles(RenamedBad(m.disk.files, path)), next, r);
    } else if path in m.disk.files {
      var data := BinaryMessage(MESG_PRAY_FILE, m.disk.files[path]);
      var (p, ok) := PostDirectMessage(m, target, data);
      var removed := m.disk.files - {path};
      PostDisk(m, target, data);
      if ok {
        ThenLeads(p, SetsFiles(removed), next, r);
      }
      PostLeads(m, target, data, Then(SetsFiles(removed), next), r);
    }
  }

  lemma PostDisk(m: Mgr, user: bytes, data: bytes)
    ensures PostDirectMessage(m, user, data).0.disk == m.disk
  {
    hide Parse, WriteSock, Build, CloseSock, AllOffline;
  }

  lemma {:induction false} FilesLead(m: Mgr, names: seq<bytes>)
    ensures Leads(m, FilesScript(m, names), SendFiles(m, names))
    decreases |names|
  {
    hide SendOutboxFile, FileScript, Leads;
    NilLeads(m);
    if names != [] && IsOnline(m) {
      var path := m.outbox + names[0];
      var (r, ok) := SendOutboxFile(m, path);
      FilesLead(r, names[1..]);
      FileLeads(m, path, FilesScript(r, names[1..]), SendFiles(m, names));
    }
  }

  lemma ScanLeads(m: Mgr)
    ensures Leads(m, ScanScript(m), ScanOutbox(m))
  {
    hide SendFiles, FilesScript, WithExtension, TimeAfter, NowMs, Deadline, Leads;
    NilLeads(m);
    var s := m.(outboxDirty := false, nextScan := Deadline(NowMs(m.clock), OUTBOX_RESCAN));
    var names := WithExtension(s.disk.listing, DOT_WARP);
    FilesLead(s, names);
    ThenLeads(m, SetsOutbox(false, s.nextScan), FilesScript(s, names), SendFiles(s, names));
  }

  lemma UniqueOutboxFilenameLeads(m: Mgr, user: bytes)
    ensures Leads(m, UniqueOutboxFilenameScript(m, user), UniqueOutboxFilename(m, user).0)
  {
    hide Parse, FreeSerial, Leads, Only;
    NilLeads(m);
    OnlyLeads(m, SetsOutbox(true, m.nextScan));
  }

  /** Every public call is its script. */
  lemma CallLeads(m: Mgr, call: Call)
    ensures Play(m, ScriptOf(m, call)) == Do(m, call) && AllProper(m, ScriptOf(m, call))
    ensures !call.Host? && !call.CallConnect? ==> Inner(ScriptOf(m, call))
    ensures if call.CallAddToWWR? then
              FinishesOnly(m, ScriptOf(m, call), call.user, IsOnline(m) || call.user !in m.watch.pendingAdds)
            else if call.CallRemoveFromWWR? then
              ScriptOf(m, call) == Only(Unwatches(call.user))
            else Simple(ScriptOf(m, call))
  {
    hide SendOrdinaryMessages, IsUserOnline, IsUserOnlineScript, AddToWWR, AddToWWRScript,
         RemoveFromWWR, FetchUserData, FetchUserDataScript, FetchRandomUser, FetchRandomUserScript,
         GetStatus, GetStatusScript, PostDirectMessage, PostScript, FeedHistory, FeedHistoryScript,
         UniqueOutboxFilename, UniqueOutboxFilenameScript, IsOnline, Proper, Perform;
    match call
    case CallSendOrdinaryMessages => OutboxLeads(m);
    case CallIsUserOnline(user) => IsUserOnlineLeads(m, user);
    case CallAddToWWR(user) => AddToWWRLeads(m, user);
    case CallRemoveFromWWR(user) => RemoveFromWWRLeads(m, user);
    case CallFetchUserData(user) => FetchUserDataLeads(m, user);
    case CallFetchRandomUser => FetchRandomUserLeads(m);
    case CallGetStatus => GetStatusLeads(m);
    case CallPostDirectMessage(user, data) =>
      NilLeads(PostDirectMessage(m, user, data).0);
      PostLeads(m, user, data, Nil, PostDirectMessage(m, user, data).0);
    case CallFeedHistory(data) => FeedHistoryLeads(m, data);
    case CallUniqueOutboxFilename(user) => UniqueOutboxFilenameLeads(m, user);
    case _ => PlainLeads(m, call);
  }

  lemma RemoveFromWWRLeads(m: Mgr, user: bytes)
    ensures var s := Only(Unwatches(user)); Play(m, s) == RemoveFromWWR(m, user) && AllProper(m, s) && Inner(s)
  {
    hide RemoveFromWWR;
    OneAct(m, Unwatches(user));
  }

  lemma OutboxLeads(m: Mgr)
    ensures Leads(m, ScriptOf(m, CallSendOrdinaryMessages), SendOrdinaryMessages(m))
  {
    hide Pump, ScanOutbox, ScanScript, Leads;
    var p := Pump(m);
    NilLeads(p);
    ScanLeads(p);
    ThenLeads(m, Pumps, ScriptOf(m, CallSendOrdinaryMessages).rest, SendOrdinaryMessages(m));
  }

  lemma OneAct(m: Mgr, act: Act)
    requires Proper(m, act)
    ensures var s := Only(act);
            && Play(m, s) == Perform(m, act) && AllProper(m, s) && (!act.Changes? && !act.Connects? ==> Inner(s))
            && (!act.BeginsAdd? && !act.FinishesAdd? && !act.Unwatches? ==> Simple(s))
  {
    hide Perform, Proper;
    var n := Perform(m, act);
    assert Play(n, Nil) == n && AllProper(n, Nil) && Inner(Nil) && Simple(Nil);
  }

  /** Calls of one act or two. */
  lemma PlainLeads(m: Mgr, call: Call)
    requires call.Host? || call.CallSetUser? || call.CallSetDirectories? || call.CallConnect? || call.CallDisconnect?
             || call.CallNextChangedUser? || call.CallGetMessages?
    ensures Play(m, ScriptOf(m, call)) == Do(m, call) && AllProper(m, ScriptOf(m, call))
    ensures !call.Host? && !call.CallConnect? ==> Inner(ScriptOf(m, call))
    ensures Simple(ScriptOf(m, call))
  {
    hide Pump, ConnectInBackground, Disconnect, NextChanged, AfterNext, Play, AllProper, Inner, Simple, Only,
         EnsureTrailingSeparator;
    if call.CallGetMessages? {
      OnlyLeads(Pump(m), TakesMail);
      ThenLeads(m, Pumps, Only(TakesMail), Do(m, call));
    } else {
      OneAct(m, ActOf(m, call));
    }
  }

  /** Only these calls take something from the client or tell it something. */
  predicate Converses(call: Call) {
    call.CallNextChangedUser? || call.CallGetMessages? || call.CallFetchUserData? || call.CallSetUser?
    || call.CallSetDirectories?
  }

  lemma {:induction false} WaitIsSilent(m: Mgr, ticket: int32, deadline: nat)
    requires m.clock < deadline + TWO_31 && deadline <= m.clock + TWO_31
    ensures Silent(WaitScript(m, ticket, deadline))
    decreases deadline - m.clock
  {
    hide Pump, TimeAfter, NowMs, Only;
    var p, s := Pump(m), WaitScript(m, ticket, deadline);
    OnlySilent(Polls(ticket));
    OnlySilent(Abandons(ticket));
    if Poll(p.tickets, ticket).Pending? && IsOnline(p) && !TimeAfter(NowMs(p.clock), NowMs(deadline)) {
      StillBefore(p.clock, deadline);
      WaitIsSilent(Wait(p), ticket, deadline);
      assert Silent(s.rest);
    }
  }

  lemma OnlySilent(act: Act)
    requires !act.TakesChange? && !act.TakesMail? && !act.Remembers? && !act.SetsUser? && !act.SetsDirectories?
    ensures Silent(Only(act)) && Silent(Nil)
  {
  }

  lemma AskIsSilent(m: Mgr, kind: Kind, subject: bytes, packet: Packet, timeout: nat, lost: Script)
    requires timeout < TWO_31 && Silent(lost)
    ensures Silent(AskScript(m, kind, subject, packet, timeout, lost))
  {
    hide Start, Send, WaitScript;
    var s := Send(Asked(m, kind, 0, subject), packet);
    var script := AskScript(m, kind, subject, packet, timeout, lost);
    if s.sock.state.Connected? {
      WaitIsSilent(s, Asked(m, kind, 0, subject).tickets.next, s.clock + timeout);
    }
    assert Silent(script.rest);
  }

  lemma {:induction false} FilesAreSilent(m: Mgr, names: seq<bytes>)
    ensures Silent(FilesScript(m, names))
    decreases |names|
  {
    hide SendOutboxFile, FileScript;
    if names != [] && IsOnline(m) {
      var path := m.outbox + names[0];
      FilesAreSilent(SendOutboxFile(m, path).0, names[1..]);
      FileIsSilent(m, path, FilesScript(SendOutboxFile(m, path).0, names[1..]));
    }
  }

  lemma FileIsSilent(m: Mgr, path: bytes, next: Script)
    requires Silent(next)
    ensures Silent(FileScript(m, path, next))
  {
    hide UserFromSpoolName, BaseName, Parse, Send, Only;
    OnlySilent(Loses);
    assert forall files :: Silent(Then(SetsFiles(files), next));
  }

  lemma QueryIsSilent(m: Mgr, kind: Kind, fixedExtra: nat, subject: bytes, packet: Packet, asked: Queries,
                      failed: Script)
    requires Silent(failed)
    ensures Silent(QueryScript(m, kind, fixedExtra, subject, packet, asked, failed))
  {
    hide Start, Send, Only;
    OnlySilent(Records(asked));
    var script := QueryScript(m, kind, fixedExtra, subject, packet, asked, failed);
    assert Silent(script.rest);
  }

  lemma PollIsSilent(m: Mgr, query: PendingQuery, struck: Queries)
    ensures Silent(PollScript(m, query, struck, Nil))
  {
    hide Pump, TimeAfter, NowMs, Only;
    OnlySilent(Records(struck));
    assert Silent(Then(Records(struck), Nil));
    assert Silent(PollScript(m, query, struck, Nil).rest);
  }

  lemma AddIsSilent(m: Mgr, user: bytes)
    ensures Silent(AddToWWRScript(m, user))
  {
    hide Parse, Pump, Send, TimeAfter, NowMs, Only;
    OnlySilent(FinishesAdd(user));
    OnlySilent(AwaitsAdd(user));
    var b := Watched(m, BeginAdd(m.watch, user));
    assert Silent(Then(GivesUpAdd(user), Only(FinishesAdd(user))));
    assert Silent(LaterAddScript(b, user).rest);
    assert forall uin :: Silent(FirstAddScript(b, user, uin).rest);
    assert forall uin :: Silent(FirstAddScript(b, user, uin));
  }

  lemma CallIsSilent(m: Mgr, call: Call)
    requires !Converses(call)
    ensures Silent(ScriptOf(m, call))
  {
    hide Pump, Parse, Start, Send, Poll, AskScript, QueryScript, PollScript, ScanScript, AddToWWRScript,
         UniqueOutboxFilename, Only;
    if call.Host? || call.CallConnect? || call.CallDisconnect? || call.CallRemoveFromWWR? {
      OnlySilent(ActOf(m, call));
    }
    OnlySilent(Loses);
    match call
    case CallIsUserOnline(user) =>
      if Parse(user).Some? {
        var packet := GetConnectionDetail(m.session.server, Parse(user).value,
                                          Asked(m, ConnectionDetail, 0, user).tickets.next);
        AskIsSilent(m, ConnectionDetail, user, packet, USER_ONLINE_TIMEOUT, Nil);
      }
    case CallFeedHistory(data) =>
      var packet := SendHistory(m.session.server, m.session.user, Asked(m, History, 0, data).tickets.next, data);
      AskIsSilent(m, History, data, packet, HISTORY_TIMEOUT, Only(Loses));
    case CallSendOrdinaryMessages => ScanIsSilent(Pump(m));
    case CallAddToWWR(user) => AddIsSilent(m, user);
    case CallFetchRandomUser =>
      var ticket := Asked(m, RandomUser, 0, []).tickets.next;
      var query := PendingQuery(ticket, Deadline(NowMs(m.clock), QUERY_TIMEOUT));
      var struck := Records(m.queries.(random := NO_QUERY));
      OnlySilent(struck);
      PollIsSilent(m, m.queries.random, Pump(m).queries.(random := NO_QUERY));
      QueryIsSilent(m, RandomUser, 0, [], AskRandomUser(m.session.server, m.session.user, ticket),
                    m.queries.(random := query), Only(struck));
    case CallGetStatus =>
      var ticket := Asked(m, Status, 16, []).tickets.next;
      var query := PendingQuery(ticket, Deadline(NowMs(m.clock), QUERY_TIMEOUT));
      var struck := Records(m.queries.(status := NO_QUERY));
      OnlySilent(struck);
      PollIsSilent(m, m.queries.status, Pump(m).queries.(status := NO_QUERY));
      QueryIsSilent(m, Status, 16, [], AskStatus(m.session.server, ticket), m.queries.(status := query), Only(struck));
    case CallUniqueOutboxFilename(user) => OnlySilent(SetsOutbox(true, m.nextScan));
    case _ =>
  }

  lemma ScanIsSilent(m: Mgr)
    ensures Silent(ScanScript(m))
  {
    hide FilesScript, WithExtension, TimeAfter, NowMs;
    var s := m.(outboxDirty := false, nextScan := Deadline(NowMs(m.clock), OUTBOX_RESCAN));
    FilesAreSilent(s, WithExtension(s.disk.listing, DOT_WARP));
  }

  // ---- what a pump leaves alone of the register ----

  predicate SameAdding(w: Watch, r: Watch) {
    r.adding == w.adding && w.members <= r.members
  }

  lemma {:induction false} RegistrationsAdding(m: Mgr, users: seq<bytes>)
    ensures SameAdding(m.watch, SendRegistrations(m, users).watch)
    decreases |users|
  {
    hide Parse, WriteSock, Build, Synced;
    if users != [] {
      RegistrationsAdding(m, users[1..]);
      if Parse(users[0]).Some? {
        RegistrationsAdding(Send(m.(watch := Register(m.watch, users[0])),
                                 WwrModify(true, m.session.server, Parse(users[0]).value)), users[1..]);
      }
    }
  }

  lemma HandshakeAdding(m: Mgr, h: Header, raw: bytes)
    requires |raw| > 1
    ensures SameAdding(m.watch, HandleHandshake(m, h, raw).watch)
  {
    hide SendRegistrations, ServerList.Announced, MapHandshakeError;
    RegistrationsAdding(Entered(m, h, raw), m.watch.usersForWWR);
  }

  lemma StepAdding(m: Mgr)
    ensures SameAdding(m.watch, AfterStep(m).watch)
  {
    hide Frame, Answered, ReadHeader, LowByte, Accepts, WriteSock, Build, ParseMessage, ParseUser, HandleHandshake,
         Spool.SpoolPray, Uin.ToString, Synced;
    match Frame(m.sock.input, m.tickets.table)
    case Whole(size, reply) => HandshakeAdding(m, ReadHeader(m.sock.input), m.sock.input[..size]);
    case _ =>
  }

  lemma {:induction false} ProcessAdding(m: Mgr)
    ensures SameAdding(m.watch, Process(m).watch)
    decreases |m.sock.input|
  {
    hide Step;
    StepAdding(m);
    if Step(m).Continue? {
      ProcessAdding(Step(m).m);
    }
  }

  lemma PumpKeepsAdding(m: Mgr)
    ensures SameAdding(m.watch, Pump(m).watch)
  {
    hide Process, PumpSock, TimeAfter, LoginStep, SameAdding;
    LoginAdding(m);
    LostAdding(m.watch);
    var l := LoginStep(m);
    ProcessAdding(l.(sock := PumpSock(l.sock)));
    ProcessAdding(m.(sock := PumpSock(m.sock)));
    LostAdding(Process(m.(sock := PumpSock(m.sock))).watch);
  }

  lemma LoginAdding(m: Mgr)
    ensures LoginStep(m).watch == m.watch
  {
    hide PollSock, WriteSock, Build, NextTicket;
  }

  lemma LostAdding(w: Watch)
    ensures forall v: Watch :: SameAdding(v, w) ==> SameAdding(v, AllOffline(w))
    ensures SameAdding(w, w)
  {
  }
}
