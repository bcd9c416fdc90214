/** The network manager as the source has it: an object whose methods update its fields in place. Each method
    is proved to do to the object what the corresponding function does to its value. Steps that touch several
    fields come in pairs: one stated on its group of fields, and one that says the rest of the object is unchanged. */
module Manager {
  import opened Bytes
  import opened Uins
  import opened Protocol
  import opened Sockets
  import opened Clock
  import T = Tickets
  import opened Tickets
  import opened Watching
  import opened Spool
  import opened ServerList
  import opened Client
  import opened Connection
  import opened Api
  import Acts
  import opened Hosts
  import opened Rooms
  import opened Timing
  import opened Sound
  import Ledger
  import Answers
  import LockStepRun
  import Reports
  import Told
  import Logins
  import Requests
  import Leftovers

  class DSNetManager {
    const socket: NetNatsueSocket
    const host: Host

    var phase: Phase
    var connectDeadline: uint32
    var lastError: Error
    var rawError: int32
    var nickname: bytes
    var password: bytes
    var modern: bool
    var userUIN: Uin
    var serverUIN: Uin
    var connectedAtMs: uint32
    var servers: seq<ServerInfo>

    var nextTicketNumber: int32
    var transactions: map<int32, Transaction>
    ghost var taken: nat
    ghost var asks: map<int32, Ask>
    ghost var connection: nat
    ghost var answers: map<int32, Answer>

    var nextVSN: int32
    ghost var vsnCount: nat

    var presence: map<bytes, Presence>
    var wwrMembers: set<bytes>
    var changedUsers: seq<bytes>
    var pendingWWRAdds: map<bytes, uint32>
    var usersForWWR: seq<bytes>
    ghost var seen: set<bytes>
    ghost var adding: set<bytes>
    ghost var missed: set<bytes>

    var pendingUserFetches: map<bytes, PendingQuery>
    var randomUserQuery: PendingQuery
    var statusQuery: PendingQuery

    var incomingMessages: seq<Incoming>
    ghost var handed: seq<Incoming>

    var inboxDirectory: bytes
    var outboxDirectory: bytes
    var outboxDirty: bool
    var nextOutboxScan: uint32

    ghost var sent: seq<Packet>
    ghost var log: seq<Dispatch>
    ghost var base: nat

    ghost function SessionView(): Session
      reads this`phase, this`connectDeadline, this`lastError, this`rawError, this`nickname, this`password, this`modern,
            this`userUIN, this`serverUIN, this`connectedAtMs, this`servers
    {
      Session(phase, connectDeadline, lastError, rawError, nickname, password, modern, userUIN, serverUIN,
              connectedAtMs, servers)
    }

    ghost function TicketsView(): Tickets
      reads this`nextTicketNumber, this`transactions, this`taken, this`asks, this`connection, this`answers
    {
      T.Tickets.Tickets(nextTicketNumber, transactions, taken, asks, connection, answers)
    }

    ghost function WatchView(): Watch
      reads this`presence, this`wwrMembers, this`changedUsers, this`pendingWWRAdds, this`usersForWWR,
            this`seen, this`adding, this`missed
    {
      Watch(presence, wwrMembers, changedUsers, pendingWWRAdds, usersForWWR, seen, adding, missed)
    }

    ghost function QueriesView(): Queries
      reads this`pendingUserFetches, this`randomUserQuery, this`statusQuery
    {
      Queries(pendingUserFetches, randomUserQuery, statusQuery)
    }

    /** The object as a value. */
    ghost function View(): Mgr
      reads this, socket, host
    {
      Mgr(socket.View(), sent, SessionView(), TicketsView(), Virtual(nextVSN, vsnCount), WatchView(),
          QueriesView(), incomingMessages, handed,
          host.DiskView(), inboxDirectory, outboxDirectory, outboxDirty, nextOutboxScan, host.clock, host.naps,
            log, base)
    }

    /** A fresh manager is sound in every respect. */
    constructor (host: Host, kernel: Kernel)
      ensures this.host == host && fresh(socket)
      ensures View() == FreshMgr(kernel, host.DiskView(), host.clock, host.naps)
      ensures Core(View()) && Ledger.LedgerOk(View()) && Answers.AnswersOk(View())
      ensures LockStepRun.Steady(LockStepRun.World(View(), []))
      ensures Reports.Hushed(View()) && Logins.Undecided(View()) && Requests.TalkOk(View())
      ensures Leftovers.Owned(View())
      ensures forall user :: Told.Unseen(View(), user)
    {
      hide Core, Ledger.LedgerOk, Answers.AnswersOk, LockStepRun.Steady, Reports.Hushed, Logins.Undecided,
           Requests.TalkOk, Leftovers.Owned, Told.Unseen;
      this.host := host;
      socket := new NetNatsueSocket(kernel);
      phase, connectDeadline, lastError, rawError := PhaseIdle, 0, ErrorUnknown, 0;
      nickname, password, modern, userUIN, serverUIN, connectedAtMs, servers := [], [], true, NO_UIN, NO_UIN, 0, [];
      nextTicketNumber, transactions, taken, asks, connection, answers := 0, map[], 0, map[], 0, map[];
      nextVSN, vsnCount := 0, 0;
      presence, wwrMembers, changedUsers, pendingWWRAdds, usersForWWR := map[], {}, [], map[], [];
      seen, adding, missed := {}, {}, {};
      pendingUserFetches, randomUserQuery, statusQuery := map[], NO_QUERY, NO_QUERY;
      incomingMessages, handed := [], [];
      inboxDirectory, outboxDirectory, outboxDirty, nextOutboxScan := [], [], true, 0;
      sent, log, base := [], [], 0;
      new;
      FreshIsSound(kernel, host.DiskView(), host.clock, host.naps);
    }

    // ---- tickets ----

    method CountTicket()
      modifies this`nextTicketNumber, this`taken
      ensures TicketsView() == T.NextTicket(old(TicketsView()))
    {
      hide ToInt32;
      nextTicketNumber := ToInt32(nextTicketNumber + 1);
      if nextTicketNumber == 0 {
        nextTicketNumber := ToInt32(nextTicketNumber + 1);
      }
      taken := taken + 1;
    }

    method NextTicket() returns (ticket: int32)
      modifies this`nextTicketNumber, this`taken
      ensures View() == old(View()).(tickets := T.NextTicket(old(View()).tickets)) && ticket == nextTicketNumber
    {
      hide T.NextTicket;
      CountTicket();
      return nextTicketNumber;
    }

    method CountVirtual()
      modifies this`nextVSN, this`vsnCount
      ensures Virtual(nextVSN, vsnCount) == NextVSN(old(Virtual(nextVSN, vsnCount)))
    {
      hide LowHalf;
      nextVSN := LowHalf(nextVSN + 1);
      if nextVSN == 0 {
        nextVSN := 1;
      }
      vsnCount := vsnCount + 1;
    }

    method NextVirtual() returns (vsn: int32)
      modifies this`nextVSN, this`vsnCount
      ensures View() == old(View()).(vsn := NextVSN(old(View()).vsn)) && vsn == nextVSN
    {
      hide NextVSN;
      CountVirtual();
      return nextVSN;
    }

    method Register(ticket: int32, kind: Kind, fixedExtra: nat, ghost subject: bytes)
      modifies this`transactions, this`asks
      ensures TicketsView() == old(TicketsView()).(table := old(transactions)[ticket := Started(kind, fixedExtra)],
                asks := old(asks)[ticket := Ask(kind, fixedExtra, subject, connection)])
    {
      transactions := transactions[ticket := Started(kind, fixedExtra)];
      asks := asks[ticket := Ask(kind, fixedExtra, subject, connection)];
    }

    method Enlist(ticket: int32, kind: Kind, fixedExtra: nat, ghost subject: bytes)
      modifies this`transactions, this`asks
      ensures var t := old(View()).tickets;
              View() == old(View()).(
                tickets := t.(table := t.table[ticket := Started(kind, fixedExtra)],
                              asks := t.asks[ticket := Ask(kind, fixedExtra, subject, t.connection)]))
    {
      Register(ticket, kind, fixedExtra, subject);
    }

    method StartTransaction(kind: Kind, fixedExtra: nat, ghost subject: bytes) returns (ticket: int32)
      modifies this`nextTicketNumber, this`taken, this`transactions, this`asks
      ensures View() == Asked(old(View()), kind, fixedExtra, subject) && ticket == nextTicketNumber
    {
      hide T.NextTicket;
      NextTicketKeeps(TicketsView());
      ticket := NextTicket();
      Enlist(ticket, kind, fixedExtra, subject);
    }

    method AbandonTransaction(ticket: int32)
      modifies this`transactions
      ensures View() == Abandoning(old(View()), ticket)
    {
      if ticket !in transactions {
        return;
      }
      if transactions[ticket].done {
        transactions := transactions - {ticket};
        return;
      }
      transactions := transactions[ticket := transactions[ticket].(kind := Abandoned)];
    }

    method PollTransaction(ticket: int32) returns (completed: bool, result: Option<Transaction>, stillPending: bool)
      modifies this`transactions
      ensures View() == Polling(old(View()), ticket)
      ensures match Poll(old(TicketsView()), ticket)
              case Missing => completed && result.None? && !stillPending
              case Pending => !completed && result.None? && stillPending
              case Finished(tr) => completed && result == Some(tr) && !stillPending
    {
      if ticket !in transactions {
        return true, None, false;
      }
      if !transactions[ticket].done {
        return false, None, true;
      }
      result := Some(transactions[ticket]);
      transactions := transactions - {ticket};
      completed, stillPending := true, false;
    }

    /** Files the response in the table; an abandoned request's entry then goes. */
    method FileResponse(header: Header, body: bytes)
      requires header.ticket in transactions && 0 <= header.furtherData
      requires |body| == transactions[header.ticket].fixedExtra + header.furtherData
      modifies this`transactions, this`answers
      ensures TicketsView() == Answered(old(TicketsView()), header, body)
    {
      hide ParseUser, GetInt;
      var tr := transactions[header.ticket];
      tr := tr.(done := true, success := false);
      match tr.kind {
        case ClientInfo =>
          if header.furtherData > 0 && |body| >= header.furtherData {
            var userData := ParseUser(body[tr.fixedExtra..]);
            if userData.Some? {
              tr := tr.(success := true, resultUin := userData.value.uin, resultString := userData.value.nickName);
            }
          }
        case ConnectionDetail =>
          tr := tr.(success := (header.a != 0 && header.b != 0) || header.e != 0);
        case Status =>
          if |body| >= 16 {
            tr := tr.(success := true,
                      resultInts := [GetInt(body, 0), GetInt(body, 4), GetInt(body, 8), GetInt(body, 12)]);
          }
        case RandomUser =>
          if header.e == 1 {
            tr := tr.(success := true, resultUin := Uin(header.c, header.d));
          }
        case History =>
          tr := tr.(success := true);
        case Abandoned =>
      }
      transactions := transactions[header.ticket := tr];
      answers := answers[header.ticket := Answer(header, body, connection)];
      if tr.kind == Abandoned {
        transactions := transactions - {header.ticket};
        assert transactions == Without(old(transactions), header.ticket);
      }
    }

    method HandleTransactionResponse(header: Header, body: bytes)
      requires header.ticket in transactions && 0 <= header.furtherData
      requires |body| == transactions[header.ticket].fixedExtra + header.furtherData
      modifies this`transactions, this`answers
      ensures View() == old(View()).(tickets := Answered(old(View()).tickets, header, body))
    {
      hide Answered;
      assert View() == old(View());
      FileResponse(header, body);
    }

    // ---- writing ----

    method WritePacket(packet: Packet) returns (ok: bool)
      modifies this`sent, socket
      ensures View() == Send(old(View()), packet)
      ensures ok <==> socket.state.Connected?
    {
      hide Build, WriteSock;
      BuiltIsSome(packet);
      var bytes := Build(packet);
      if socket.state.Connected? {
        sent := sent + [packet];
      }
      ok := socket.Write(bytes);
    }

    // ---- presence ----

    ghost method NoteMiss(user: bytes)
      modifies this`missed
      ensures WatchView() == Miss(old(WatchView()), user)
    {
      missed := if Synced(WatchView(), user) then missed - {user} else missed + {user};
    }

    /** Queues a change, once. */
    method QueueChange(key: bytes)
      modifies this`changedUsers, this`missed
      ensures WatchView() == if key in old(changedUsers) then old(WatchView())
                             else old(WatchView()).(changed := old(changedUsers) + [key], missed := old(missed) - {key})
    {
      var i := 0;
      while i < |changedUsers|
        invariant 0 <= i <= |changedUsers| && key !in changedUsers[..i]
      {
        if changedUsers[i] == key {
          return;
        }
        i := i + 1;
      }
      changedUsers := changedUsers + [key];
      missed := missed - {key};
    }

    /** Records a user's state; reports whether it is a different one. */
    method SetPresence(key: bytes, online: bool, nickName: bytes) returns (changed: bool)
      modifies this`presence
      ensures var before := if key in old(presence) then old(presence)[key] else Presence(false, []);
              && WatchView() == old(WatchView()).(presence :=
                   old(presence)[key := Presence(online, if nickName != [] then nickName else before.nickName)])
              && changed == (before.online != online)
    {
      var entry := if key in presence then presence[key] else Presence(false, []);
      changed := entry.online != online;
      entry := entry.(online := online);
      if nickName != [] {
        entry := entry.(nickName := nickName);
      }
      presence := presence[key := entry];
    }

    /** The report a pending AddToWWR is waiting for: it tells the state itself. */
    method AnswerPending(key: bytes)
      modifies this`pendingWWRAdds, this`missed
      ensures var done := old(WatchView()).(pendingAdds := old(pendingWWRAdds) - {key});
              WatchView() == if key in old(adding) then done else Miss(done, key)
    {
      hide Miss;
      pendingWWRAdds := pendingWWRAdds - {key};
      if key !in adding {
        NoteMiss(key);
      }
    }

    method UpdateWatch(uin: Uin, online: bool, nickName: bytes)
      modifies this`presence, this`pendingWWRAdds, this`changedUsers, this`missed
      ensures WatchView() == Update(old(WatchView()), uin, online, nickName)
    {
      hide Uin.ToString, Miss;
      var key := uin.ToString();
      var changed := SetPresence(key, online, nickName);
      if key in pendingWWRAdds {
        AnswerPending(key);
        return;
      }
      if changed && key in wwrMembers {
        QueueChange(key);
      }
    }

    method UpdatePresence(uin: Uin, online: bool, nickName: bytes)
      modifies this`presence, this`pendingWWRAdds, this`changedUsers, this`missed
      ensures View() == Watched(old(View()), Update(old(WatchView()), uin, online, nickName))
    {
      hide Update;
      UpdateWatch(uin, online, nickName);
    }

    method MarkPresenceOffline()
      modifies this`presence
      ensures presence == map k | k in old(presence) :: old(presence)[k].(online := false)
    {
      var left := presence.Keys;
      while left != {}
        invariant left <= presence.Keys == old(presence).Keys
        invariant forall k | k in presence :: presence[k] == if k in left then old(presence)[k]
                  else old(presence)[k].(online := false)
        decreases |left|
      {
        var k :| k in left;
        presence := presence[k := presence[k].(online := false)];
        left := left - {k};
      }
    }

    method MarkEveryoneOffline()
      modifies this`presence, this`changedUsers, this`pendingWWRAdds, this`seen, this`missed
      ensures WatchView() == AllOffline(old(WatchView()))
    {
      MarkPresenceOffline();
      changedUsers, pendingWWRAdds := [], map[];
      seen, missed := {}, {};
    }

    ghost method NoteRegistered(user: bytes, before: Watch)
      requires WatchView() == before.(members := before.members + {user})
      modifies this`seen, this`missed
      ensures WatchView() == Watching.Register(before, user)
    {
      if user in before.members {
        assert before.members + {user} == before.members;
      } else {
        seen := seen - {user};
        if user !in adding {
          NoteMiss(user);
        }
      }
    }

    method RegisterUser(user: bytes)
      modifies this`wwrMembers, this`seen, this`missed
      ensures WatchView() == Watching.Register(old(WatchView()), user)
    {
      hide Watching.Register;
      wwrMembers := wwrMembers + {user};
      NoteRegistered(user, old(WatchView()));
    }

    method WatchUser(user: bytes)
      modifies this`wwrMembers, this`seen, this`missed
      ensures View() == Watched(old(View()), Watching.Register(old(View()).watch, user))
    {
      hide Watching.Register;
      RegisterUser(user);
    }

    method SendWWRRegistrations(users: seq<bytes>)
      modifies this`wwrMembers, this`seen, this`missed, this`sent, socket
      ensures View() == SendRegistrations(old(View()), users)
    {
      hide Parse, Watching.Register, Send;
      var i := 0;
      while i < |users|
        invariant 0 <= i <= |users|
        invariant SendRegistrations(View(), users[i..]) == SendRegistrations(old(View()), users)
      {
        assert users[i..][0] == users[i] && users[i..][1..] == users[i + 1..];
        var ok, uin := FromString(users[i]);
        if ok {
          WatchUser(users[i]);
          ok := WritePacket(WwrModify(true, serverUIN, uin));
          if !ok {
            return;
          }
        }
        i := i + 1;
      }
      assert users[i..] == [];
    }

    // ---- session ----

    method DropConnection()
      modifies this`phase, socket
      ensures View() == old(View()).(sock := CloseSock(old(View()).sock),
                                     session := old(View()).session.(phase := PhaseIdle))
    {
      socket.Close();
      phase := PhaseIdle;
    }

    method ForgetTransactions()
      modifies this`transactions
      ensures View() == old(View()).(tickets := Cleared(old(View()).tickets))
    {
      transactions := map[];
    }

    method EveryoneOffline()
      modifies this`presence, this`changedUsers, this`pendingWWRAdds, this`seen, this`missed
      ensures View() == Watched(old(View()), AllOffline(old(View()).watch))
    {
      hide AllOffline;
      MarkEveryoneOffline();
    }

    method Disconnect()
      modifies this`phase, this`transactions, this`presence, this`changedUsers, this`pendingWWRAdds, this`seen,
               this`missed, socket
      ensures View() == Client.Disconnect(old(View()))
    {
      hide AllOffline, CloseSock;
      DropConnection();
      ForgetTransactions();
      EveryoneOffline();
    }

    method Note(error: Error, code: int32, now: Phase)
      modifies this`lastError, this`rawError, this`phase
      ensures SessionView() == old(SessionView()).(lastError := error, rawError := code, phase := now)
    {
      lastError := error;
      rawError := code;
      phase := now;
    }

    method Enter(error: Error, code: int32, now: Phase)
      modifies this`lastError, this`rawError, this`phase
      ensures View() == old(View()).(
                session := old(View()).session.(lastError := error, rawError := code, phase := now))
    {
      Note(error, code, now);
    }

    method ConnectionLost()
      modifies this`lastError, this`rawError, this`phase, this`transactions, this`presence, this`changedUsers,
               this`pendingWWRAdds,
               this`seen, this`missed, socket
      ensures View() == Client.ConnectionLost(old(View()))
    {
      hide AllOffline, CloseSock, Cleared;
      Enter(ErrorOffline, Negated(socket.lastSystemError), phase);
      Disconnect();
    }

    method GoOnline(header: Header, announced: seq<ServerInfo>)
      modifies this`serverUIN, this`userUIN, this`connectedAtMs, this`lastError, this`rawError, this`phase, this`servers
      ensures SessionView() == Client.Online(old(SessionView()), NowMs(host.clock), header, announced)
    {
      hide NowMs;
      serverUIN := Uin(header.a, header.b);
      userUIN := Uin(header.c, header.d);
      connectedAtMs := NowMs(host.clock);
      lastError := ErrorOk;
      rawError := 0;
      phase := PhaseOnline;
      if announced != [] {
        servers := announced;
      }
    }

    method EnterOnline(header: Header, announced: seq<ServerInfo>)
      modifies this`serverUIN, this`userUIN, this`connectedAtMs, this`lastError, this`rawError, this`phase, this`servers
      ensures View() == old(View()).(
                session := Client.Online(old(View()).session, NowMs(host.clock), header, announced))
    {
      hide Client.Online, NowMs;
      GoOnline(header, announced);
    }

    method SetUsersForWWR(users: seq<bytes>)
      modifies this`usersForWWR
      ensures View() == Watched(old(View()), old(View()).watch.(usersForWWR := users))
    {
      usersForWWR := users;
    }

    method AcceptLogin(header: Header, raw: bytes)
      modifies this`serverUIN, this`userUIN, this`connectedAtMs, this`lastError, this`rawError, this`phase,
               this`servers,
               this`wwrMembers, this`seen, this`missed, this`sent, this`usersForWWR, this`outboxDirty, socket
      ensures View() == LoggedIn(old(View()), header, raw)
    {
      hide SendRegistrations, Announced, SameInput, Client.Online, NowMs;
      var announced := ReadServers(raw);
      EnterOnline(header, announced);
      SendWWRRegistrations(usersForWWR);
      SetUsersForWWR([]);
      outboxDirty := true;
    }

    /** A stray response is ignored; a refusal closes the connection. */
    method HandleHandshakeResponse(header: Header, raw: bytes)
      requires |raw| > 1
      modifies this, socket
      ensures View() == HandleHandshake(old(View()), header, raw)
    {
      hide LoggedIn, MapHandshakeError;
      if phase != PhaseAwait {
        return;
      }
      var errorCode := raw[1];
      if errorCode != 0 || header.a == 0 {
        Enter(MapHandshakeError(errorCode), errorCode, PhaseFailed);
        socket.Close();
        return;
      }
      AcceptLogin(header, raw);
    }

    // ---- packets ----

    method SpoolPrayFile(sender: Uin, payload: bytes)
      requires inboxDirectory != [] ==> HasFree(host.files, inboxDirectory, sender)
      modifies host
      ensures View() == old(View()).(disk := SpoolPray(old(View()).disk, inboxDirectory, sender, payload))
    {
      hide FreeSerial;
      if inboxDirectory == [] {
        return;
      }
      var serial, path := host.UnusedSerial(inboxDirectory, sender);
      var stored := host.WriteWholeFileAtomic(path, payload);
    }

    method HandlePacket(header: Header, body: bytes) returns (ok: bool)
      requires PacketEnds(View(), header, body) && |body| < TWO_31
      modifies this, socket, host
      ensures View() == Client.HandlePacket(old(View()), header, body)
      ensures ok <==> !Drops(old(View()), header)
    {
      hide ParseMessage, ParseUser, Update, Send, SpoolPray, NextVSN, Client.ConnectionLost;
      var kind := LowByte(header.kind);
      ok := true;
      if kind == MESSAGE {
        var mesg := ParseMessage(body);
        if mesg.Some? {
          if mesg.value.kind == MESG_PRAY_FILE {
            SpoolPrayFile(mesg.value.sender, mesg.value.payload);
          } else {
            incomingMessages := incomingMessages
              + [Incoming(mesg.value.sender.ToString(), mesg.value.kind, mesg.value.payload)];
          }
        }
      } else if kind == USER_ONLINE || kind == USER_OFFLINE {
        var userData := ParseShortUserData(body, |body|);
        if userData.Some? {
          UpdatePresence(userData.value.uin, kind == USER_ONLINE, userData.value.nickName);
        }
      } else if kind == ONLINE_CHANGE {
        UpdatePresence(Uin(header.c, header.d), header.e != 0, []);
      } else if kind == VIRTUAL_CONNECT {
        var vsn := NextVirtual();
        ok := WritePacket(ConnectAccept(serverUIN, Uin(header.c, header.d), header.e, vsn));
        if !ok {
          ConnectionLost();
        }
      }
    }

    /** Where the packet at the front of the buffer ends: by its ticket if that is registered, else by type. */
    method FrameInput(input: bytes) returns (f: Framing)
      ensures f == Frame(input, transactions)
    {
      hide GetInt;
      if |input| < HEADER_SIZE {
        return NeedMore;
      }
      var header := ReadHeader(input);
      if header.furtherData < 0 || header.furtherData > MAX_FURTHER_DATA {
        return Broken;
      }
      var totalSize: int := -1;
      var registered := header.ticket != 0 && header.ticket in transactions;
      if registered {
        totalSize := HEADER_SIZE + transactions[header.ticket].fixedExtra + header.furtherData;
      } else {
        var kind := LowByte(header.kind);
        if kind == MESSAGE || kind == USER_ONLINE || kind == USER_OFFLINE {
          totalSize := HEADER_SIZE + header.furtherData;
        } else if kind == HANDSHAKE_RESPONSE {
          if |input| < 48 {
            return NeedMore;
          }
          var additional: int := GetInt(input, 44);
          if additional < 0 || additional > MAX_FURTHER_DATA {
            return Broken;
          }
          totalSize := 48 + additional;
        } else if kind == CLIENT_COMMAND {
          totalSize := 36;
        } else if kind == VIRTUAL_CONNECT {
          totalSize := 44;
        } else if kind == VIRTUAL_CIRCUIT {
          totalSize := 44 + header.furtherData;
        } else if kind == ONLINE_CHANGE || kind == VIRTUAL_CIRCUIT_CLOSE || kind == MIGRATE {
          totalSize := HEADER_SIZE;
        } else {
          return Broken;
        }
      }
      if |input| < totalSize {
        return NeedMore;
      }
      return Whole(totalSize, registered);
    }

    method Consume(reply: bool, size: nat)
      requires size <= |socket.input| && size > 0
      modifies this`log, socket
      ensures View() == Client.Consumed(old(View()), reply, size)
    {
      log := log + [Dispatch(reply, socket.input[..size])];
      socket.ConsumeInput(size);
    }

    method ProcessInput()
      requires ProcessEnds(View())
      modifies this, socket, host
      ensures View() == Process(old(View()))
    {
      hide Frame, ReadHeader, Answered, HandleHandshake, Client.HandlePacket, Client.Consumed, Drops, LowByte,
           Client.ConnectionLost, PacketEnds;
      while true
        invariant Process(View()) == Process(old(View()))
        invariant ProcessEnds(View())
        decreases |socket.input|
      {
        ghost var m := View();
        var input := socket.input;
        var f := FrameInput(input);
        if f.NeedMore? {
          return;
        }
        if f.Broken? {
          ConnectionLost();
          return;
        }
        var header := ReadHeader(input);
        var body := input[HEADER_SIZE..f.size];
        if f.reply {
          HandleTransactionResponse(header, body);
        } else if LowByte(header.kind) == HANDSHAKE_RESPONSE {
          HandleHandshakeResponse(header, input[..f.size]);
        } else {
          var ok := HandlePacket(header, body);
          if !ok {
            return;
          }
        }
        Consume(f.reply, f.size);
        assert Step(m) == Continue(View());
      }
    }

    // ---- connecting ----

    method GiveUpWith(code: int32)
      modifies this`lastError, this`rawError, this`phase
      ensures View() == GiveUp(old(View()), code)
    {
      Enter(ErrorOffline, code, PhaseFailed);
    }

    ghost method NoteNewConnection()
      modifies this`sent, this`base, this`connection
      ensures View() == old(View()).(sent := [], base := |old(View()).log|,
                                     tickets := NextConnection(old(View()).tickets))
    {
      ForgetSent();
      MarkLog();
      CountConnection();
    }

    ghost method ForgetSent()
      modifies this`sent
      ensures View() == old(View()).(sent := [])
    {
      sent := [];
    }

    ghost method MarkLog()
      modifies this`base
      ensures View() == old(View()).(base := |old(View()).log|)
    {
      base := |log|;
    }

    ghost method CountConnection()
      modifies this`connection
      ensures View() == old(View()).(tickets := NextConnection(old(View()).tickets))
    {
      connection := connection + 1;
    }

    method AwaitConnection()
      modifies this`phase, this`connectDeadline
      ensures View() == old(View()).(
                session := old(View()).session.(phase := PhaseConnecting,
                                                deadline := Deadline(NowMs(host.clock), CONNECT_TIMEOUT)))
    {
      hide Deadline, NowMs;
      assert View() == old(View());
      phase := PhaseConnecting;
      connectDeadline := Deadline(NowMs(host.clock), CONNECT_TIMEOUT);
    }

    method BeginConnect() returns (ok: bool)
      modifies socket
      ensures View() == old(View()).(sock := BeginSock(old(View()).sock)) && (ok <==> Alive(View().sock))
    {
      hide BeginSock;
      ok := socket.BeginConnect();
    }

    method PumpConnect() returns (state: SockState)
      modifies socket
      ensures View() == old(View()).(sock := PollSock(old(View()).sock)) && state == View().sock.state
    {
      hide PollSock;
      state := socket.PumpConnect();
    }

    method StartConnecting()
      modifies this`sent, this`base, this`connection, this`phase, this`connectDeadline, this`lastError,
               this`rawError, socket
      ensures View() == Connection.StartConnecting(old(View()))
    {
      hide BeginSock, NowMs, Deadline, Negated;
      NoteNewConnection();
      var ok := BeginConnect();
      if !ok {
        GiveUpWith(Negated(socket.lastSystemError));
        return;
      }
      AwaitConnection();
    }

    method AwaitHandshakeResponse()
      modifies this`phase
      ensures View() == old(View()).(session := old(View()).session.(phase := PhaseAwait))
    {
      phase := PhaseAwait;
    }

    /** Logs in once the connection stands. */
    method LogIn()
      modifies this, socket
      ensures View() == LoginStep(old(View()))
    {
      hide PollSock, T.NextTicket, Send, Negated, GiveUp;
      if phase != PhaseConnecting {
        return;
      }
      var state := PumpConnect();
      if state == Connected {
        ghost var login := Login(old(View()));
        var ticket := NextTicket();
        var ok := WritePacket(Handshake(userUIN, ticket, nickname, password,
                                        if modern then HANDSHAKE_MAGIC_MODERN else 0));
        if !ok {
          GiveUpWith(Negated(socket.lastSystemError));
          return;
        }
        AwaitHandshakeResponse();
      } else if state != Connecting {
        GiveUpWith(Negated(socket.lastSystemError));
      }
    }

    /** Moves bytes both ways, then handles everything that arrived, even if the peer then hung up. */
    method PumpAndProcess() returns (alive: bool)
      requires ProcessEnds(View().(sock := PumpSock(View().sock)))
      modifies this, socket, host
      ensures var p := old(View()).(sock := PumpSock(old(View()).sock));
              View() == Process(p) && (alive <==> Alive(p.sock))
    {
      hide PumpSock, Process, ProcessEnds;
      alive := socket.Pump();
      ProcessInput();
    }

    method AwaitHandshake()
      requires phase == PhaseAwait ==> ProcessEnds(View().(sock := PumpSock(View().sock)))
      modifies this, socket, host
      ensures View() == AwaitStep(old(View()))
    {
      hide PumpSock, Process, Negated, ProcessEnds;
      if phase == PhaseAwait {
        var alive := PumpAndProcess();
        if phase == PhaseAwait && !alive {
          GiveUpWith(Negated(socket.lastSystemError));
        }
      }
    }

    method HeedDeadline()
      modifies this, socket
      ensures View() == DeadlineStep(old(View()))
    {
      hide TimeAfter, NowMs;
      if (phase == PhaseConnecting || phase == PhaseAwait) && TimeAfter(NowMs(host.clock), connectDeadline) {
        socket.Close();
        GiveUpWith(0);
      }
    }

    method PumpConnectPhase()
      requires UnderWay(View()) ==> PumpEnds(View())
      modifies this, socket, host
      ensures View() == Connection.PumpConnectPhase(old(View()))
    {
      hide LoginStep, AwaitStep, DeadlineStep, PumpSock, ProcessEnds;
      LoginStays(View());
      LogIn();
      AwaitHandshake();
      HeedDeadline();
    }

    method Pump()
      requires PumpEnds(View())
      modifies this, socket, host
      ensures View() == Connection.Pump(old(View()))
    {
      hide Connection.PumpConnectPhase, PumpSock, Process, Client.ConnectionLost, ProcessEnds;
      if phase == PhaseConnecting || phase == PhaseAwait {
        PumpConnectPhase();
        return;
      }
      if phase != PhaseOnline {
        return;
      }
      var alive := PumpAndProcess();
      if !alive && phase == PhaseOnline {
        ConnectionLost();
      }
    }

    predicate Online()
      reads this, socket
    {
      phase == PhaseOnline && socket.state == Connected
    }

    method ConnectInBackground(users: seq<bytes>) returns (block: bool)
      requires CallEnds(View(), CallConnect(users))
      modifies this, socket, host
      ensures View() == Connection.ConnectInBackground(old(View()), users)
      ensures block <==> UnderWay(View())
    {
      hide Connection.PumpConnectPhase, Connection.StartConnecting, CallEnds, PumpEnds;
      if Online() {
        return false;
      }
      if phase == PhaseIdle || phase == PhaseFailed || phase == PhaseOnline {
        SetUsersForWWR(users);
        StartConnecting();
      } else {
        BackgroundEnds(View(), users);
        PumpConnectPhase();
      }
      block := phase == PhaseConnecting || phase == PhaseAwait;
    }

    method Sleep()
      modifies host
      ensures View() == Wait(old(View()))
    {
      host.Sleep();
    }

    /** Connect, blocking; its termination is part of what is proved. */
    method Connect() returns (online: bool)
      requires RunEnds(View(), ConnectRun(View()))
      modifies this, socket, host
      ensures View() == Timing.Connect(old(View())) && online == IsOnline(View())
    {
      hide Connection.ConnectInBackground, Wait, CallEnds, RunEnds, ConnectRun, Patience, Due;
      ghost var start := View();
      ConnectStarts(start);
      var block := true;
      while true
        invariant RunEnds(View(), ConnectRun(View()))
        invariant var c := Connection.ConnectInBackground(View(), []);
                  (UnderWay(c) ==> !Due(c)) && PollConnect(c) == Timing.Connect(start)
        decreases Patience(View())
      {
        ghost var m := View();
        ConnectingEnds(m);
        block := ConnectInBackground([]);
        if !block {
          break;
        }
        PatienceShrinks(m);
        Sleep();
        ConnectStarts(View());
      }
      online := Online();
    }

    // ---- the whose-wanted register ----

    method Member(user: bytes)
      modifies this`wwrMembers, this`adding
      ensures WatchView() == BeginAdd(old(WatchView()), user)
    {
      wwrMembers := wwrMembers + {user};
      adding := adding + {user};
    }

    method BeginAdding(user: bytes)
      modifies this`wwrMembers, this`adding
      ensures View() == Watched(old(View()), BeginAdd(old(View()).watch, user))
    {
      hide BeginAdd;
      Member(user);
    }

    ghost method NoteAdded(user: bytes)
      modifies this`seen, this`adding, this`missed
      ensures WatchView() == FinishAdd(old(WatchView()), user)
    {
      seen := if KnownOnline(WatchView(), user) then seen + {user} else seen - {user};
      adding, missed := adding - {user}, missed - {user};
    }

    ghost method FinishAdding(user: bytes)
      modifies this`seen, this`adding, this`missed
      ensures View() == Watched(old(View()), FinishAdd(old(View()).watch, user))
    {
      hide FinishAdd;
      NoteAdded(user);
    }

    method SetPendingAdds(pending: map<bytes, uint32>)
      modifies this`pendingWWRAdds
      ensures View() == Watched(old(View()), old(View()).watch.(pendingAdds := pending))
    {
      pendingWWRAdds := pending;
    }

    method BeginAddToWWR(user: bytes, uin: Uin) returns (block: bool)
      modifies this, socket
      ensures var c := FirstAdd(old(View()), user, uin); View() == c.m && block == c.block
    {
      hide Send, FinishAdd, NowMs, Deadline;
      var alreadyKnown := user in presence;
      SendPresence(View(), WwrModify(true, serverUIN, uin));
      var ok := WritePacket(WwrModify(true, serverUIN, uin));
      if !ok || alreadyKnown {
        FinishAdding(user);
        return false;
      }
      SetPendingAdds(pendingWWRAdds[user := Deadline(NowMs(host.clock), WWR_ADD_TIMEOUT)]);
      return true;
    }

    method PollAddToWWR(user: bytes) returns (block: bool)
      requires PumpEnds(View())
      modifies this, socket, host
      ensures var c := LaterAdd(old(View()), user); View() == c.m && block == c.block
    {
      hide Connection.Pump, FinishAdd, TimeAfter, NowMs, PumpEnds;
      Pump();
      if user !in pendingWWRAdds {
        FinishAdding(user);
        return false;
      }
      if TimeAfter(NowMs(host.clock), pendingWWRAdds[user]) {
        SetPendingAdds(pendingWWRAdds - {user});
        FinishAdding(user);
        return false;
      }
      return true;
    }

    method AddToWWR(user: bytes) returns (block: bool)
      requires CallEnds(View(), CallAddToWWR(user))
      modifies this, socket, host
      ensures var c := Api.AddToWWR(old(View()), user); View() == c.m && block == c.block
    {
      hide Parse, FirstAdd, LaterAdd, FinishAdd, BeginAdd, CallEnds, PumpEnds;
      AddingEnds(View(), user);
      block := false;
      var ok, uin := FromString(user);
      if !ok {
        return;
      }
      BeginAddKeepsRest(old(WatchView()), user);
      BeginAdding(user);
      if !Online() {
        FinishAdding(user);
      } else if user !in pendingWWRAdds {
        block := BeginAddToWWR(user, uin);
      } else {
        block := PollAddToWWR(user);
      }
    }

    method DropUser(user: bytes)
      modifies this`wwrMembers, this`pendingWWRAdds, this`presence, this`seen, this`adding, this`missed
      ensures WatchView() == Remove(old(WatchView()), user)
    {
      wwrMembers := wwrMembers - {user};
      pendingWWRAdds := pendingWWRAdds - {user};
      presence := presence - {user};
      seen, adding, missed := seen - {user}, adding - {user}, missed - {user};
    }

    method Unwatch(user: bytes)
      modifies this`wwrMembers, this`pendingWWRAdds, this`presence, this`seen, this`adding, this`missed
      ensures View() == Watched(old(View()), Remove(old(View()).watch, user))
    {
      hide Remove;
      DropUser(user);
    }

    method RemoveFromWWR(user: bytes)
      modifies this, socket
      ensures View() == Api.RemoveFromWWR(old(View()), user)
    {
      hide Parse, Send, Remove;
      Unwatch(user);
      var ok, uin := FromString(user);
      if !ok {
        return;
      }
      if !Online() {
        return;
      }
      ok := WritePacket(WwrModify(false, serverUIN, uin));
    }

    method TakeChange() returns (change: (bytes, bool))
      requires changedUsers != []
      modifies this`changedUsers, this`seen, this`missed
      ensures WatchView() == AfterNext(old(WatchView())) && change == NextChanged(old(WatchView()))
    {
      var user := changedUsers[0];
      changedUsers := changedUsers[1..];
      var online := if user in presence then presence[user].online else false;
      seen := if online then seen + {user} else seen - {user};
      missed := missed - {user};
      return (user, online);
    }

    method PopChange() returns (change: (bytes, bool))
      requires changedUsers != []
      modifies this`changedUsers, this`seen, this`missed
      ensures View() == Watched(old(View()), AfterNext(old(View()).watch)) && change == NextChanged(old(View()).watch)
    {
      hide AfterNext, NextChanged;
      assert View() == old(View());
      change := TakeChange();
    }

    method NextChangedUserWWR() returns (change: Option<(bytes, bool)>)
      modifies this`changedUsers, this`seen, this`missed
      ensures var c := NextChangedUser(old(View())); View() == c.m && change == c.value
    {
      hide AfterNext, NextChanged;
      if changedUsers == [] {
        return None;
      }
      var next := PopChange();
      return Some(next);
    }

    // ---- queries ----

    /** WaitForTransaction; nothing if the connection dropped or time ran out. */
    method WaitForTransaction(ticket: int32, timeout: nat) returns (result: Option<Transaction>)
      requires timeout < TWO_31
      requires ScriptEnds(View(), Acts.WaitScript(View(), ticket, host.clock + timeout))
      modifies this, socket, host
      ensures var (m, r) := WaitFor(old(View()), ticket, old(host.clock) + timeout); View() == m && result == r
    {
      hide Connection.Pump, Poll, AfterPoll, Abandon, TimeAfter, NowMs, PumpEnds, ScriptEnds, Acts.WaitScript, Wait;
      ghost var start := View();
      ghost var due := host.clock + timeout;
      var deadline := Deadline(NowMs(host.clock), timeout);
      TimeAfterReal(host.clock, host.clock, timeout);
      while true
        invariant host.clock < due + TWO_31 && due <= host.clock + TWO_31
        invariant ScriptEnds(View(), Acts.WaitScript(View(), ticket, due))
        invariant WaitFor(View(), ticket, due) == WaitFor(start, ticket, start.clock + timeout)
        decreases due - host.clock
      {
        ghost var m := View();
        WaitingEnds(m, ticket, due);
        Pump();
        var completed, stillPending;
        ghost var p := View();
        completed, result, stillPending := PollTransaction(ticket);
        if completed {
          MissingIsKept(p, ticket);
          return;
        }
        PendingIsKept(p, ticket);
        if !Online() {
          return;
        }
        if TimeAfter(NowMs(host.clock), deadline) {
          AbandonTransaction(ticket);
          return;
        }
        StillBefore(host.clock, due);
        WaitLater(View());
        Sleep();
      }
    }

    method IsUserOnline(user: bytes) returns (online: bool)
      requires CallEnds(View(), CallIsUserOnline(user))
      modifies this, socket, host
      ensures var (m, r) := Api.IsUserOnline(old(View()), user); View() == m && online == r
    {
      hide Parse, Start, Send, Abandon, WaitFor, CallEnds, ScriptEnds, Acts.WaitScript;
      var ok, uin := FromString(user);
      if !ok {
        return false;
      }
      if !Online() {
        return false;
      }
      if uin == userUIN {
        return true;
      }
      if user in presence {
        return presence[user].online;
      }
      OnlineEnds(View(), user, uin);
      var ticket := StartTransaction(ConnectionDetail, 0, user);
      ghost var a := View();
      ok := WritePacket(GetConnectionDetail(serverUIN, uin, ticket));
      if !ok {
        AbandonTransaction(ticket);
        return false;
      }
      var result := WaitForTransaction(ticket, USER_ONLINE_TIMEOUT);
      online := result.Some? && result.value.success;
    }

    method DSFeedHistory(data: bytes) returns (confirmed: bool)
      requires CallEnds(View(), CallFeedHistory(data))
      modifies this, socket, host
      ensures var (m, r) := FeedHistory(old(View()), data); View() == m && confirmed == r
    {
      hide Start, Send, Abandon, WaitFor, CallEnds, ScriptEnds, Acts.WaitScript, Client.ConnectionLost;
      if !Online() || |data| == 0 {
        return false;
      }
      HistoryEnds(View(), data);
      var ticket := StartTransaction(History, 0, data);
      ghost var a := View();
      var ok := WritePacket(SendHistory(serverUIN, userUIN, ticket, data));
      if !ok {
        AbandonTransaction(ticket);
        ConnectionLost();
        return false;
      }
      var result := WaitForTransaction(ticket, HISTORY_TIMEOUT);
      confirmed := result.Some? && result.value.success;
    }

    method RememberNickName(user: bytes, nickName: bytes)
      modifies this`presence
      ensures View() == Remember(old(View()), user, nickName)
    {
      if user in presence && nickName != [] {
        presence := presence[user := presence[user].(nickName := nickName)];
      }
    }

    method SetPendingFetches(fetches: map<bytes, PendingQuery>)
      modifies this`pendingUserFetches
      ensures View() == SetFetches(old(View()), fetches)
    {
      pendingUserFetches := fetches;
    }

    method FetchUserData(user: bytes) returns (nickName: bytes, block: bool)
      requires CallEnds(View(), CallFetchUserData(user))
      modifies this, socket, host
      ensures var c := Api.FetchUserData(old(View()), user); View() == c.m && nickName == c.value && block == c.block
    {
      hide Parse, Connection.Pump, Start, Send, Abandon, AfterPoll, Remember, TimeAfter, NowMs, Deadline,
           CallEnds, PumpEnds;
      block, nickName := false, [];
      var ok, uin := FromString(user);
      if !ok {
        return;
      }
      if user !in pendingUserFetches {
        if !Online() {
          return;
        }
        var ticket := StartTransaction(ClientInfo, 0, user);
        var query := PendingQuery(ticket, Deadline(NowMs(host.clock), QUERY_TIMEOUT));
        ok := WritePacket(GetClientInfo(serverUIN, uin, ticket));
        if !ok {
          AbandonTransaction(ticket);
          return;
        }
        SetPendingFetches(pendingUserFetches[user := query]);
        block := true;
        return;
      }
      var query := pendingUserFetches[user];
      FetchingEnds(View(), user);
      PumpQueries(View());
      Pump();
      var completed, result, stillPending;
      ghost var p := View();
      completed, result, stillPending := PollTransaction(query.ticket);
      if completed {
        MissingIsKept(p, query.ticket);
        SetPendingFetches(pendingUserFetches - {user});
        if result.Some? && result.value.success {
          nickName := result.value.resultString;
          RememberNickName(user, nickName);
        }
        return;
      }
      PendingIsKept(p, query.ticket);
      if TimeAfter(NowMs(host.clock), query.deadline) {
        AbandonTransaction(query.ticket);
        SetPendingFetches(pendingUserFetches - {user});
        return;
      }
      block := true;
    }

    method SetRandomQuery(query: PendingQuery)
      modifies this`randomUserQuery
      ensures View() == SetRandom(old(View()), query)
    {
      randomUserQuery := query;
    }

    method DSFetchRandomUser() returns (user: bytes, block: bool)
      requires CallEnds(View(), CallFetchRandomUser)
      modifies this, socket, host
      ensures var c := FetchRandomUser(old(View())); View() == c.m && user == c.value && block == c.block
    {
      hide Connection.Pump, Start, Send, Abandon, AfterPoll, TimeAfter, NowMs, Deadline, CallEnds, PumpEnds,
           Uin.ToString;
      block, user := false, [];
      if randomUserQuery.ticket == 0 {
        if !Online() {
          return;
        }
        var ticket := StartTransaction(RandomUser, 0, []);
        var query := PendingQuery(ticket, Deadline(NowMs(host.clock), QUERY_TIMEOUT));
        var ok := WritePacket(AskRandomUser(serverUIN, userUIN, ticket));
        if !ok {
          AbandonTransaction(ticket);
          SetRandomQuery(NO_QUERY);
          return;
        }
        SetRandomQuery(query);
        block := true;
        return;
      }
      FetchingRandomEnds(View());
      PumpQueries(View());
      Pump();
      var query := randomUserQuery;
      var completed, result, stillPending;
      ghost var p := View();
      completed, result, stillPending := PollTransaction(query.ticket);
      if completed {
        MissingIsKept(p, query.ticket);
        SetRandomQuery(NO_QUERY);
        if result.Some? && result.value.success {
          user := result.value.resultUin.ToString();
        }
        return;
      }
      PendingIsKept(p, query.ticket);
      if TimeAfter(NowMs(host.clock), query.deadline) {
        AbandonTransaction(query.ticket);
        SetRandomQuery(NO_QUERY);
        return;
      }
      block := true;
    }

    /** The form without a block flag polls until it unblocks; its termination is part of what is proved. */
    method DSFetchRandomUserNow() returns (user: bytes)
      requires RunEnds(View(), RandomRun(View()))
      modifies this, socket, host
      ensures var (m, r) := BlockingRandomUser(old(View())); View() == m && user == r
    {
      hide FetchRandomUser, Wait, CallEnds, RunEnds, RandomRun, RandomPatience;
      ghost var start := View();
      var block := true;
      user := [];
      while true
        invariant RunEnds(View(), RandomRun(View()))
        invariant BlockingRandomUser(View()) == BlockingRandomUser(start)
        decreases RandomPatience(View())
      {
        ghost var m := View();
        RandomEnds(m);
        user, block := DSFetchRandomUser();
        if !block {
          break;
        }
        RandomPatienceShrinks(m);
        Sleep();
      }
    }

    method SetStatusQuery(query: PendingQuery)
      modifies this`statusQuery
      ensures View() == SetStatus(old(View()), query)
    {
      statusQuery := query;
    }

    method StartStatus() returns (block: bool)
      modifies this, socket
      ensures var c := Api.StartStatus(old(View())); View() == c.m && None == c.value && block == c.block
    {
      hide Start, Send, Abandon, NowMs, Deadline;
      var ticket := StartTransaction(Status, 16, []);
      var query := PendingQuery(ticket, Deadline(NowMs(host.clock), QUERY_TIMEOUT));
      block := WritePacket(AskStatus(serverUIN, ticket));
      if !block {
        AbandonTransaction(ticket);
        query := NO_QUERY;
      }
      SetStatusQuery(query);
    }

    method Measure(usersOnline: int32) returns (report: Report)
      ensures report == Measured(NowMs(host.clock), connectedAtMs, socket.View(), usersOnline)
    {
      hide ToInt32, NowMs;
      report := Report(ToInt32(NowMs(host.clock) - connectedAtMs), usersOnline, socket.bytesReceived, socket.bytesSent);
    }

    /** The query is over: what is reported then. */
    method FinishStatus(usersOnline: int32) returns (report: Option<Report>)
      modifies this`statusQuery
      ensures View() == SetStatus(old(View()), NO_QUERY) && report == Reported(old(View()), usersOnline)
    {
      hide Measured, NowMs;
      SetStatusQuery(NO_QUERY);
      var measured := Measure(usersOnline);
      report := Some(measured);
    }

    method PollStatus() returns (report: Option<Report>, block: bool)
      requires PumpEnds(View())
      modifies this, socket, host
      ensures var c := Api.PollStatus(old(View())); View() == c.m && report == c.value && block == c.block
    {
      hide Connection.Pump, Abandon, AfterPoll, TimeAfter, NowMs, PumpEnds, Measured, SetStatus;
      PumpQueries(View());
      Pump();
      var query := statusQuery;
      var completed, result, stillPending;
      ghost var p := View();
      completed, result, stillPending := PollTransaction(query.ticket);
      if completed {
        MissingIsKept(p, query.ticket);
        var usersOnline := if result.Some? && result.value.success && |result.value.resultInts| == 4
                           then result.value.resultInts[1] else 0;
        report := FinishStatus(usersOnline);
        return report, false;
      }
      PendingIsKept(p, query.ticket);
      if TimeAfter(NowMs(host.clock), query.deadline) {
        AbandonTransaction(query.ticket);
        report := FinishStatus(0);
        return report, false;
      }
      return None, true;
    }

    method GetStatus() returns (report: Option<Report>, block: bool)
      requires CallEnds(View(), CallGetStatus)
      modifies this, socket, host
      ensures var c := Api.GetStatus(old(View())); View() == c.m && report == c.value && block == c.block
    {
      hide Api.StartStatus, Api.PollStatus, Abandon, CallEnds, PumpEnds;
      block, report := false, None;
      if !Online() {
        report := Some(Report(-1, -1, -1, -1));
        if statusQuery.ticket != 0 {
          AbandonTransaction(statusQuery.ticket);
          SetStatusQuery(NO_QUERY);
        }
      } else if statusQuery.ticket == 0 {
        block := StartStatus();
      } else {
        StatusEnds(View());
        report, block := PollStatus();
      }
    }

    // ---- messages and the outbox ----

    method PostDirectMessage(user: bytes, data: bytes) returns (ok: bool)
      modifies this, socket
      ensures var (m, r) := Api.PostDirectMessage(old(View()), user, data); View() == m && ok == r
    {
      hide Parse, Send, Client.ConnectionLost;
      var target;
      ok, target := FromString(user);
      if !ok {
        return false;
      }
      if !Online() {
        return false;
      }
      ok := WritePacket(Message(serverUIN, userUIN, target, data));
      if !ok {
        ConnectionLost();
        return false;
      }
    }

    method TakeMessage() returns (message: Incoming)
      requires incomingMessages != []
      modifies this`incomingMessages, this`handed
      ensures message == old(incomingMessages)[0]
      ensures View() == old(View()).(incoming := old(incomingMessages)[1..], handed := old(handed) + [message])
    {
      assert View() == old(View());
      message := incomingMessages[0];
      handed := handed + [message];
      incomingMessages := incomingMessages[1..];
    }

    method HandOver() returns (messages: seq<Incoming>)
      modifies this`incomingMessages, this`handed
      ensures messages == old(incomingMessages)
      ensures View() == old(View()).(incoming := [], handed := old(handed) + messages)
    {
      messages := [];
      while incomingMessages != []
        invariant messages + incomingMessages == old(incomingMessages)
        invariant View() == old(View()).(incoming := incomingMessages, handed := old(handed) + messages)
        decreases |incomingMessages|
      {
        var message := TakeMessage();
        messages := messages + [message];
      }
    }

    method GetMessages() returns (messages: seq<Incoming>)
      requires CallEnds(View(), CallGetMessages)
      modifies this, socket, host
      ensures var (m, r) := Api.GetMessages(old(View())); View() == m && messages == r
    {
      hide Connection.Pump, CallEnds, PumpEnds;
      PumpingEnds(View(), CallGetMessages);
      Pump();
      messages := HandOver();
    }

    method SetDirectories(outbox: bytes, inbox: bytes)
      modifies this`outboxDirectory, this`inboxDirectory, this`outboxDirty
      ensures View() == Api.SetDirectories(old(View()), outbox, inbox)
    {
      assert View() == old(View());
      outboxDirectory := EnsureTrailingSeparator(outbox);
      outboxDirty := true;
      inboxDirectory := EnsureTrailingSeparator(inbox);
    }

    method ReturnUniqueOutboxFilename(user: bytes) returns (path: bytes)
      requires CallEnds(View(), CallUniqueOutboxFilename(user))
      modifies this`outboxDirty
      ensures var (m, r) := UniqueOutboxFilename(old(View()), user); View() == m && path == r
    {
      hide Parse, FreeSerial;
      var ok, target := FromString(user);
      if !ok || outboxDirectory == [] {
        return [];
      }
      var serial;
      serial, path := host.UnusedSerial(outboxDirectory, target);
      outboxDirty := true;
    }

    method SendOutboxFile(path: bytes) returns (ok: bool)
      modifies this, socket, host
      ensures var (m, r) := Api.SendOutboxFile(old(View()), path); View() == m && ok == r
    {
      hide UserFromSpoolName, BaseName, Api.PostDirectMessage, RenamedBad;
      var target := UserFromSpoolName(BaseName(path));
      if target == [] {
        host.MoveAside(path);
        return true;
      }
      if path !in host.files {
        return true;
      }
      var contents := host.files[path];
      var payload := Ints([12, MESG_PRAY_FILE, 0]) + contents;
      ok := PostDirectMessage(target, payload);
      if !ok {
        return false;
      }
      host.Remove(path);
    }

    method NextScan(now: uint32)
      modifies this`outboxDirty, this`nextOutboxScan
      ensures View() == old(View()).(outboxDirty := false, nextScan := Deadline(now, OUTBOX_RESCAN))
    {
      assert View() == old(View());
      outboxDirty := false;
      nextOutboxScan := Deadline(now, OUTBOX_RESCAN);
    }

    method ScanOutbox()
      modifies this, socket, host
      ensures View() == Api.ScanOutbox(old(View()))
    {
      hide Api.SendOutboxFile, WithExtension, TimeAfter, NowMs, Deadline;
      if outboxDirectory == [] {
        return;
      }
      var now := NowMs(host.clock);
      if !outboxDirty && !TimeAfter(now, nextOutboxScan) {
        return;
      }
      NextScan(now);
      var names := host.ListFilesWithExtension(DOT_WARP);
      ghost var s := View();
      var i := 0;
      while i < |names|
        invariant 0 <= i <= |names|
        invariant SendFiles(View(), names[i..]) == SendFiles(s, names)
      {
        assert names[i..][0] == names[i] && names[i..][1..] == names[i + 1..];
        if !Online() {
          return;
        }
        var ok := SendOutboxFile(outboxDirectory + names[i]);
        if !ok {
          return;
        }
        i := i + 1;
      }
      assert names[i..] == [];
    }

    /** The per-tick pump. */
    method SendOrdinaryMessages()
      requires CallEnds(View(), CallSendOrdinaryMessages)
      modifies this, socket, host
      ensures View() == Api.SendOrdinaryMessages(old(View()))
    {
      hide Connection.Pump, Api.ScanOutbox, CallEnds, PumpEnds;
      PumpingEnds(View(), CallSendOrdinaryMessages);
      Pump();
      if Online() {
        ScanOutbox();
      }
    }
  }

  // ---- small facts the methods use ----

  lemma SendPresence(m: Mgr, p: Packet)
    ensures Send(m, p).watch == m.watch && Send(m, p).session == m.session
  {
  }

  lemma BeginAddKeepsRest(w: Watch, user: bytes)
    ensures BeginAdd(w, user).presence == w.presence && BeginAdd(w, user).pendingAdds == w.pendingAdds
  {
  }

  lemma WaitLater(m: Mgr)
    ensures m.clock < Wait(m).clock < m.clock + TWO_31
  {
  }

  /** A manager as constructed satisfies every invariant of runs. */
  lemma FreshIsSound(kernel: Kernel, disk: Disk, clock: nat, naps: seq<Nap>)
    ensures var m := FreshMgr(kernel, disk, clock, naps);
            && Core(m) && Ledger.LedgerOk(m) && Answers.AnswersOk(m) && LockStepRun.Steady(LockStepRun.World(m, []))
            && Reports.Hushed(m) && Logins.Undecided(m) && Requests.TalkOk(m) && Leftovers.Owned(m)
            && forall user :: Told.Unseen(m, user)
  {
    hide LockStepRun.Steady, Requests.TalkOk;
    LockStepRun.FreshIsSteady(FreshMgr(kernel, disk, clock, naps));
    Requests.FreshTalks(kernel, disk, clock, naps);
  }

  lemma PendingIsKept(m: Mgr, ticket: int32)
    requires Poll(m.tickets, ticket).Pending?
    ensures Polling(m, ticket) == m
  {
  }

  lemma MissingIsKept(m: Mgr, ticket: int32)
    ensures Poll(m.tickets, ticket).Missing? ==> Polling(m, ticket) == m
  {
  }

  lemma PumpQueries(m: Mgr)
    ensures Connection.Pump(m).queries == m.queries
  {
    hide Connection.Pump;
    Answers.PumpGrows(m);
  }

}
