/** The calls the game makes: the whose-wanted register, queries, messages and the outbox. */
module Api {
  import opened Bytes
  import opened Uins
  import opened Protocol
  import opened Sockets
  import opened Clock
  import opened Tickets
  import opened Watching
  import opened Spool
  import opened Client
  import opened Connection

  /** The client after a call, what the call returned, and whether it is to be made again. */
  datatype Called<T> = Called(m: Mgr, value: T, block: bool)

  // ---- whose wanted ----

  function Watched(m: Mgr, w: Watch): Mgr {
    m.(watch := w)
  }

  function FinishedAdd(m: Mgr, user: bytes): Called<()> {
    Called(Watched(m, FinishAdd(m.watch, user)), (), false)
  }

  /** The first call of an AddToWWR while online: asks the server unless the user's state is known. */
  function FirstAdd(b: Mgr, user: bytes, uin: Uin): Called<()> {
    var s := Send(b, WwrModify(true, b.session.server, uin));
    if !s.sock.state.Connected? || user in b.watch.presence then FinishedAdd(s, user)
    else
      var pending := s.watch.pendingAdds[user := Deadline(NowMs(s.clock), WWR_ADD_TIMEOUT)];
      Called(Watched(s, s.watch.(pendingAdds := pending)), (), true)
  }

  /** A later call: the report arrived, or time ran out, or neither. */
  function LaterAdd(b: Mgr, user: bytes): Called<()> {
    var p := Pump(b);
    if user !in p.watch.pendingAdds then FinishedAdd(p, user)
    else if TimeAfter(NowMs(p.clock), p.watch.pendingAdds[user]) then
      FinishedAdd(Watched(p, p.watch.(pendingAdds := p.watch.pendingAdds - {user})), user)
    else Called(p, (), true)
  }

  function AddToWWR(m: Mgr, user: bytes): Called<()> {
    match Parse(user)
    case None => Called(m, (), false)
    case Some(uin) =>
      var b := Watched(m, BeginAdd(m.watch, user));
      if !IsOnline(b) then FinishedAdd(b, user)
      else if user !in b.watch.pendingAdds then FirstAdd(b, user, uin)
      else LaterAdd(b, user)
  }

  function RemoveFromWWR(m: Mgr, user: bytes): Mgr {
    var r := Watched(m, Remove(m.watch, user));
    match Parse(user)
    case None => r
    case Some(uin) => if IsOnline(r) then Send(r, WwrModify(false, r.session.server, uin)) else r
  }

  /** NextChangedUserWWR; nothing if no change is queued. */
  function NextChangedUser(m: Mgr): Called<Option<(bytes, bool)>> {
    if m.watch.changed == [] then Called(m, None, false)
    else Called(Watched(m, AfterNext(m.watch)), Some(NextChanged(m.watch)), false)
  }

  // ---- requests ----

  function Asked(m: Mgr, kind: Kind, fixedExtra: nat, subject: bytes): Mgr {
    m.(tickets := Start(m.tickets, kind, fixedExtra, subject))
  }

  function Abandoning(m: Mgr, ticket: int32): Mgr {
    m.(tickets := Abandon(m.tickets, ticket))
  }

  function Polling(m: Mgr, ticket: int32): Mgr {
    m.(tickets := AfterPoll(m.tickets, ticket))
  }

  /** The wait of 50 ms, or as long as the host made it. */
  function Wait(m: Mgr): Mgr {
    m.(clock := m.clock + Head(m.naps, 50), naps := Pop(m.naps))
  }

  /** WaitForTransaction: pumps until the response is there, the connection is gone, or time is up. */
  function WaitFor(m: Mgr, ticket: int32, deadline: nat): (Mgr, Option<Transaction>)
    requires m.clock < deadline + TWO_31 && deadline <= m.clock + TWO_31
    decreases deadline - m.clock
  {
    hide TimeAfter, NowMs, Pump, AfterPoll, Abandon;
    var p := Pump(m);
    match Poll(p.tickets, ticket)
    case Missing => (p, None)
    case Finished(tr) => (Polling(p, ticket), Some(tr))
    case Pending =>
      if !IsOnline(p) then (p, None)
      else if TimeAfter(NowMs(p.clock), NowMs(deadline)) then (Abandoning(p, ticket), None)
      else
        StillBefore(p.clock, deadline);
        WaitFor(Wait(p), ticket, deadline)
  }

  function IsUserOnline(m: Mgr, user: bytes): (Mgr, bool) {
    match Parse(user)
    case None => (m, false)
    case Some(uin) =>
      if !IsOnline(m) then (m, false)
      else if uin == m.session.user then (m, true)
      else if user in m.watch.presence then (m, m.watch.presence[user].online)
      else
        var a := Asked(m, ConnectionDetail, 0, user);
        var ticket := a.tickets.next;
        var s := Send(a, GetConnectionDetail(m.session.server, uin, ticket));
        if !s.sock.state.Connected? then (Abandoning(s, ticket), false)
        else
          var (r, result) := WaitFor(s, ticket, s.clock + USER_ONLINE_TIMEOUT);
          (r, result.Some? && result.value.success)
  }

  function FeedHistory(m: Mgr, data: bytes): (Mgr, bool) {
    if !IsOnline(m) || data == [] then (m, false)
    else
      var a := Asked(m, History, 0, data);
      var ticket := a.tickets.next;
      var s := Send(a, SendHistory(m.session.server, m.session.user, ticket, data));
      if !s.sock.state.Connected? then (ConnectionLost(Abandoning(s, ticket)), false)
      else
        var (r, result) := WaitFor(s, ticket, s.clock + HISTORY_TIMEOUT);
        (r, result.Some? && result.value.success)
  }

  function SetFetches(m: Mgr, fetches: map<bytes, PendingQuery>): Mgr {
    m.(queries := m.queries.(fetches := fetches))
  }

  /** A fetched nick name is remembered for anyone watching the user. */
  function Remember(m: Mgr, user: bytes, nickName: bytes): Mgr {
    if user in m.watch.presence && nickName != [] then
      Watched(m, m.watch.(presence := m.watch.presence[user := m.watch.presence[user].(nickName := nickName)]))
    else m
  }

  function FetchUserData(m: Mgr, user: bytes): Called<bytes> {
    match Parse(user)
    case None => Called(m, [], false)
    case Some(uin) =>
      if user !in m.queries.fetches then
        if !IsOnline(m) then Called(m, [], false)
        else
          var a := Asked(m, ClientInfo, 0, user);
          var ticket := a.tickets.next;
          var s := Send(a, GetClientInfo(m.session.server, uin, ticket));
          if !s.sock.state.Connected? then Called(Abandoning(s, ticket), [], false)
          else
            var query := PendingQuery(ticket, Deadline(NowMs(m.clock), QUERY_TIMEOUT));
            Called(SetFetches(s, s.queries.fetches[user := query]), [], true)
      else
        var query := m.queries.fetches[user];
        var p := Pump(m);
        var forgotten := p.queries.fetches - {user};
        match Poll(p.tickets, query.ticket)
        case Missing => Called(SetFetches(p, forgotten), [], false)
        case Finished(tr) =>
          var n := SetFetches(Polling(p, query.ticket), forgotten);
          if tr.success then Called(Remember(n, user, tr.resultString), tr.resultString, false)
            else Called(n, [], false)
        case Pending =>
          if TimeAfter(NowMs(p.clock), query.deadline) then
            Called(SetFetches(Abandoning(p, query.ticket), forgotten), [], false)
          else Called(p, [], true)
  }

  function SetRandom(m: Mgr, query: PendingQuery): Mgr {
    m.(queries := m.queries.(random := query))
  }

  function FetchRandomUser(m: Mgr): Called<bytes> {
    var query := m.queries.random;
    if query.ticket == 0 then
      if !IsOnline(m) then Called(m, [], false)
      else
        var a := Asked(m, RandomUser, 0, []);
        var ticket := a.tickets.next;
        var s := Send(a, AskRandomUser(m.session.server, m.session.user, ticket));
        if !s.sock.state.Connected? then Called(SetRandom(Abandoning(s, ticket), NO_QUERY), [], false)
        else Called(SetRandom(s, PendingQuery(ticket, Deadline(NowMs(m.clock), QUERY_TIMEOUT))), [], true)
    else
      var p := Pump(m);
      match Poll(p.tickets, query.ticket)
      case Missing => Called(SetRandom(p, NO_QUERY), [], false)
      case Finished(tr) =>
        Called(SetRandom(Polling(p, query.ticket), NO_QUERY), if tr.success then tr.resultUin.ToString() else [], false)
      case Pending =>
        if TimeAfter(NowMs(p.clock), query.deadline) then
          Called(SetRandom(Abandoning(p, query.ticket), NO_QUERY), [], false)
        else Called(p, [], true)
  }

  datatype Report = Report(timeOnline: int32, usersOnline: int32, bytesReceived: int32, bytesSent: int32)

  function SetStatus(m: Mgr, query: PendingQuery): Mgr {
    m.(queries := m.queries.(status := query))
  }

  /** Time online and byte counts are measured here; only the number of users comes from the server. */
  function Measured(now: uint32, connectedAt: uint32, s: Sock, usersOnline: int32): Report {
    Report(ToInt32(now - connectedAt), usersOnline, s.bytesReceived, s.bytesSent)
  }

  function Reported(m: Mgr, usersOnline: int32): Option<Report> {
    Some(Measured(NowMs(m.clock), m.session.connectedAt, m.sock, usersOnline))
  }

  function StartStatus(m: Mgr): Called<Option<Report>> {
    var a := Asked(m, Status, 16, []);
    var ticket := a.tickets.next;
    var s := Send(a, AskStatus(m.session.server, ticket));
    if !s.sock.state.Connected? then Called(SetStatus(Abandoning(s, ticket), NO_QUERY), None, false)
    else Called(SetStatus(s, PendingQuery(ticket, Deadline(NowMs(m.clock), QUERY_TIMEOUT))), None, true)
  }

  function PollStatus(m: Mgr): Called<Option<Report>> {
    var query := m.queries.status;
    var p := Pump(m);
    match Poll(p.tickets, query.ticket)
    case Missing => Called(SetStatus(p, NO_QUERY), Reported(p, 0), false)
    case Finished(tr) =>
      var users := if tr.success && |tr.resultInts| == 4 then tr.resultInts[1] else 0;
      Called(SetStatus(Polling(p, query.ticket), NO_QUERY), Reported(p, users), false)
    case Pending =>
      if TimeAfter(NowMs(p.clock), query.deadline) then
        Called(SetStatus(Abandoning(p, query.ticket), NO_QUERY), Reported(p, 0), false)
      else Called(p, None, true)
  }

  /** GetStatus; nothing where the source leaves its outputs as they were. */
  function GetStatus(m: Mgr): Called<Option<Report>> {
    if !IsOnline(m) then
      var ticket := m.queries.status.ticket;
      var r := if ticket != 0 then SetStatus(Abandoning(m, ticket), NO_QUERY) else m;
      Called(r, Some(Report(-1, -1, -1, -1)), false)
    else if m.queries.status.ticket == 0 then StartStatus(m)
    else PollStatus(m)
  }

  // ---- messages and the outbox ----

  function PostDirectMessage(m: Mgr, user: bytes, data: bytes): (Mgr, bool) {
    match Parse(user)
    case None => (m, false)
    case Some(target) =>
      if !IsOnline(m) then (m, false)
      else
        var s := Send(m, Message(m.session.server, m.session.user, target, data));
        if s.sock.state.Connected? then (s, true) else (ConnectionLost(s), false)
  }

  /** GetMessages hands over everything that has come in. */
  function GetMessages(m: Mgr): (Mgr, seq<Incoming>) {
    var p := Pump(m);
    (p.(incoming := [], handed := p.handed + p.incoming), p.incoming)
  }

  function SetDirectories(m: Mgr, outbox: bytes, inbox: bytes): Mgr {
    m.(outbox := EnsureTrailingSeparator(outbox), inbox := EnsureTrailingSeparator(inbox), outboxDirty := true)
  }

  /** ReturnUniqueOutboxFilename; on a disk where every serial number is in use the search would not end. */
  function UniqueOutboxFilename(m: Mgr, user: bytes): (Mgr, bytes) {
    match Parse(user)
    case None => (m, [])
    case Some(target) =>
      if m.outbox == [] then (m, [])
      else
        match FreeSerial(m.disk.files, m.outbox, target, m.disk.seconds, SERIALS)
        case None => (m, [])
        case Some(serial) => (m.(outboxDirty := true), SpoolPath(m.outbox, serial, target))
  }

  function SetFiles(m: Mgr, files: map<bytes, bytes>): Mgr {
    m.(disk := m.disk.(files := files))
  }

  /** A file whose name carries no address is renamed out of the way. */
  function RenamedBad(files: map<bytes, bytes>, path: bytes): map<bytes, bytes> {
    var rest := files - {path + DOT_BAD};
    if path in rest then (rest - {path})[path + DOT_BAD := rest[path]] else rest
  }

  /** SendOutboxFile; false on connection trouble. */
  function SendOutboxFile(m: Mgr, path: bytes): (Mgr, bool) {
    var target := UserFromSpoolName(BaseName(path));
    if target == [] then (SetFiles(m, RenamedBad(m.disk.files, path)), true)
    else if path !in m.disk.files then (m, true)
    else
      var (p, ok) := PostDirectMessage(m, target, BinaryMessage(MESG_PRAY_FILE, m.disk.files[path]));
      if ok then (SetFiles(p, p.disk.files - {path}), true) else (p, false)
  }

  function EndsWith(name: bytes, extension: bytes): bool {
    |name| > |extension| && name[|name| - |extension|..] == extension
  }

  function WithExtension(names: seq<bytes>, extension: bytes): seq<bytes> {
    if names == [] then []
    else (if EndsWith(names[0], extension) then [names[0]] else []) + WithExtension(names[1..], extension)
  }

  function SendFiles(m: Mgr, names: seq<bytes>): Mgr
    decreases |names|
  {
    if names == [] || !IsOnline(m) then m
    else
      var (r, ok) := SendOutboxFile(m, m.outbox + names[0]);
      if ok then SendFiles(r, names[1..]) else r
  }

  function ScanOutbox(m: Mgr): Mgr {
    if m.outbox == [] then m
    else if !m.outboxDirty && !TimeAfter(NowMs(m.clock), m.nextScan) then m
    else
      var s := m.(outboxDirty := false, nextScan := Deadline(NowMs(m.clock), OUTBOX_RESCAN));
      SendFiles(s, WithExtension(s.disk.listing, DOT_WARP))
  }

  /** The per-tick pump. */
  function SendOrdinaryMessages(m: Mgr): Mgr {
    var p := Pump(m);
    if IsOnline(p) then ScanOutbox(p) else p
  }

  // ---- runs of calls ----

  datatype Call =
    | Host(kernel: Kernel, clock: nat, naps: seq<Nap>, disk: Disk)
    | CallSetUser(nickname: bytes, password: bytes)
    | CallSetDirectories(outbox: bytes, inbox: bytes)
    | CallConnect(users: seq<bytes>)
    | CallDisconnect
    | CallSendOrdinaryMessages
    | CallIsUserOnline(user: bytes)
    | CallAddToWWR(user: bytes)
    | CallRemoveFromWWR(user: bytes)
    | CallNextChangedUser
    | CallFetchUserData(user: bytes)
    | CallFetchRandomUser
    | CallGetStatus
    | CallPostDirectMessage(user: bytes, data: bytes)
    | CallGetMessages
    | CallFeedHistory(data: bytes)
    | CallUniqueOutboxFilename(user: bytes)

  /** One call, or one change of the host's: new answers from the kernel, time, files. */
  function Do(m: Mgr, call: Call): Mgr {
    match call
    case Host(kernel, clock, naps, disk) => m.(sock := m.sock.(kernel := kernel), clock := clock, naps := naps,
                                               disk := disk)
    case CallSetUser(nickname, password) => m.(session := m.session.(nickname := nickname, password := password))
    case CallSetDirectories(outbox, inbox) => SetDirectories(m, outbox, inbox)
    case CallConnect(users) => ConnectInBackground(m, users)
    case CallDisconnect => Disconnect(m)
    case CallSendOrdinaryMessages => SendOrdinaryMessages(m)
    case CallIsUserOnline(user) => IsUserOnline(m, user).0
    case CallAddToWWR(user) => AddToWWR(m, user).m
    case CallRemoveFromWWR(user) => RemoveFromWWR(m, user)
    case CallNextChangedUser => NextChangedUser(m).m
    case CallFetchUserData(user) => FetchUserData(m, user).m
    case CallFetchRandomUser => FetchRandomUser(m).m
    case CallGetStatus => GetStatus(m).m
    case CallPostDirectMessage(user, data) => PostDirectMessage(m, user, data).0
    case CallGetMessages => GetMessages(m).0
    case CallFeedHistory(data) => FeedHistory(m, data).0
    case CallUniqueOutboxFilename(user) => UniqueOutboxFilename(m, user).0
  }

  function DoAll(m: Mgr, calls: seq<Call>): Mgr
    decreases |calls|
  {
    if calls == [] then m else DoAll(Do(m, calls[0]), calls[1..])
  }
}
