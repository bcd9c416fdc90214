/** What the game is told: every message once and in order, and the state of everyone it watches. */
module Told {
  import opened Bytes
  import opened Uins
  import opened Protocol
  import opened Sockets
  import opened Clock
  import opened Tickets
  import opened Watching
  import opened Client
  import opened Connection
  import opened Api
  import opened Acts
  import opened Sound
  import opened LockStepRun
  import opened PresenceRuns
  import opened Reports
  import opened Ledger

  // ---- what the calls of a run return ----

  /** All the messages the GetMessages calls of a run return, in order. */
  function MailTold(m: Mgr, calls: seq<Call>): seq<Incoming>
    decreases |calls|
  {
    if calls == [] then []
    else (if calls[0].CallGetMessages? then GetMessages(m).1 else []) + MailTold(Do(m, calls[0]), calls[1..])
  }

  /** What NextChangedUserWWR returns, called again until there is nothing more. */
  function Collected(m: Mgr): seq<(bytes, bool)>
    decreases |m.watch.changed|
  {
    var c := NextChangedUser(m);
    match c.value
    case None => []
    case Some(change) => if |c.m.watch.changed| < |m.watch.changed| then [change] + Collected(c.m) else []
  }

  /** The last of such answers about a user. */
  function LastTold(changes: seq<(bytes, bool)>, user: bytes): Option<bool> {
    if changes == [] then None
    else
      var (u, online) := changes[|changes| - 1];
      if u == user then Some(online) else LastTold(changes[..|changes| - 1], user)
  }

  /** What the game takes a user's state to be after a call, going by what the call returned. A finished AddToWWR
      has it read the state; with the connection everyone it watches goes offline, and so starts out whoever it no
      longer watches or a login begins to watch. */
  function Believes(m: Mgr, call: Call, user: bytes, before: bool): bool {
    var r := Do(m, call);
    if call.CallNextChangedUser? then
      match NextChangedUser(m).value
      case Some((u, online)) => if u == user then online else before
      case None => before
    else if call == CallAddToWWR(user) && Parse(user).Some? then
      if AddToWWR(m, user).block then before else KnownOnline(r.watch, user)
    else if r.session.phase.PhaseIdle? || call == CallRemoveFromWWR(user) then false
    else if user in r.watch.members && user !in m.watch.members then false
    else before
  }

  function Belief(m: Mgr, calls: seq<Call>, user: bytes, before: bool): bool
    decreases |calls|
  {
    if calls == [] then before else Belief(Do(m, calls[0]), calls[1..], user, Believes(m, calls[0], user, before))
  }

  /** The last AddToWWR of the user asked to be called again, and they were not unwatched since. */
  function Waiting(m: Mgr, calls: seq<Call>, user: bytes, before: bool): bool
    decreases |calls|
  {
    if calls == [] then before
    else
      Waiting(Do(m, calls[0]), calls[1..], user,
              if calls[0] == CallAddToWWR(user) && Parse(user).Some? then AddToWWR(m, user).block
              else if calls[0] == CallRemoveFromWWR(user) then false
              else before)
  }

  // ---- one answer, and all of them ----

  lemma NextIsTold(m: Mgr)
    ensures var c := NextChangedUser(m);
            && (c.value.None? <==> m.watch.changed == [])
            && (c.value.None? ==> c.m == m)
            && (c.value.Some? ==>
                  var (u, online) := c.value.value;
                  && m.watch.changed == [u] + c.m.watch.changed && online == KnownOnline(m.watch, u)
                  && c.m.watch.presence == m.watch.presence
                  && (u in c.m.watch.seen <==> online)
                  && (forall v | v != u :: v in c.m.watch.seen <==> v in m.watch.seen))
  {
  }

  lemma LastToldFirst(change: (bytes, bool), rest: seq<(bytes, bool)>, user: bytes)
    ensures LastTold([change] + rest, user) ==
            if LastTold(rest, user).Some? then LastTold(rest, user)
            else if change.0 == user then Some(change.1) else None
    decreases |rest|
  {
    var all := [change] + rest;
    if rest == [] {
      assert all == [change] && all[..0] == [];
    } else {
      assert all[..|all| - 1] == [change] + rest[..|rest| - 1];
      LastToldFirst(change, rest[..|rest| - 1], user);
    }
  }

  /** Everyone queued is reported once, in the order of the queue and with the state they are in. */
  lemma {:induction false} CollectedIsQueue(m: Mgr, user: bytes)
    requires NoDuplicates(m.watch.changed)
    ensures |Collected(m)| == |m.watch.changed|
    ensures forall i | 0 <= i < |Collected(m)| :: Collected(m)[i].0 == m.watch.changed[i]
    ensures LastTold(Collected(m), user) ==
            if user in m.watch.changed then Some(KnownOnline(m.watch, user)) else None
    decreases |m.watch.changed|
  {
    hide NextChangedUser, LastTold;
    NextIsTold(m);
    var c := NextChangedUser(m);
    if c.value.Some? {
      var change, rest := c.value.value, Collected(c.m);
      RestOfQueue(m.watch.changed, c.m.watch.changed, user);
      CollectedIsQueue(c.m, user);
      LastToldFirst(change, rest, user);
      assert Collected(m) == [change] + rest;
      forall i | 0 <= i < |Collected(m)| ensures Collected(m)[i].0 == m.watch.changed[i] {
        if i > 0 {
          assert Collected(m)[i] == rest[i - 1];
        }
      }
    } else {
      NothingTold(user);
    }
  }

  lemma NothingTold(user: bytes)
    ensures LastTold([], user) == None
  {
  }

  lemma RestOfQueue(queue: seq<bytes>, rest: seq<bytes>, user: bytes)
    requires queue != [] && queue == [queue[0]] + rest && NoDuplicates(queue)
    ensures NoDuplicates(rest) && queue[0] !in rest
    ensures user in queue <==> user == queue[0] || user in rest
  {
    assert forall i | 0 <= i < |rest| :: rest[i] == queue[i + 1];
  }

  // ---- between the game's calls ----

  /** From m to r nothing was handed to the game; it went on believing what it did about the user, unless the
      connection went or a login began to watch them. */
  predicate Kept(m: Mgr, r: Mgr, user: bytes) {
    && r.handed == m.handed
    && (user in r.watch.adding <==> user in m.watch.adding)
    && (user in m.watch.members ==> user in r.watch.members)
    && (user in r.watch.seen <==>
          && user in m.watch.seen && !r.session.phase.PhaseIdle?
          && (user in r.watch.members ==> user in m.watch.members))
  }

  /** And no connection was begun. */
  predicate Apart(m: Mgr, r: Mgr, user: bytes) {
    Kept(m, r, user) && (m.session.phase.PhaseIdle? ==> r.session.phase.PhaseIdle?)
  }

  /** The game believes nobody online that it has no connection to hear of. */
  predicate Unseen(m: Mgr, user: bytes) {
    m.session.phase.PhaseIdle? ==> user !in m.watch.seen
  }

  lemma ApartOn(m: Mgr, n: Mgr, r: Mgr, user: bytes)
    requires Apart(m, n, user) && Apart(n, r, user)
    ensures Apart(m, r, user)
  {
  }

  lemma SameApart(m: Mgr, r: Mgr, user: bytes)
    requires Unseen(m, user) && r.watch.seen == m.watch.seen && r.watch.adding == m.watch.adding
    requires r.watch.members == m.watch.members && r.handed == m.handed
    requires r.session.phase.PhaseIdle? <==> m.session.phase.PhaseIdle?
    ensures Apart(m, r, user) && Unseen(r, user)
  {
  }

  lemma {:induction false} RegistrationsApart(m: Mgr, users: seq<bytes>, user: bytes)
    requires Unseen(m, user) && !m.session.phase.PhaseIdle?
    ensures Apart(m, SendRegistrations(m, users), user)
    decreases |users|
  {
    hide Parse, WriteSock, Build, Apart, Synced;
    SameApart(m, m, user);
    if users != [] {
      if Parse(users[0]).None? {
        RegistrationsApart(m, users[1..], user);
      } else {
        var n := Send(m.(watch := Register(m.watch, users[0])),
                      WwrModify(true, m.session.server, Parse(users[0]).value));
        assert Apart(m, n, user) by { RegisterApart(m, n, users[0], user); }
        RegistrationsApart(n, users[1..], user);
        ApartOn(m, n, SendRegistrations(n, users[1..]), user);
      }
    }
  }

  lemma RegisterApart(m: Mgr, n: Mgr, owner: bytes, user: bytes)
    requires !m.session.phase.PhaseIdle? && n.session == m.session && n.handed == m.handed
    requires n.watch == Register(m.watch, owner)
    ensures Apart(m, n, user)
  {
    hide Synced;
  }

  lemma HandshakeApart(m: Mgr, h: Header, raw: bytes, user: bytes)
    requires |raw| > 1 && Unseen(m, user) && !m.session.phase.PhaseIdle?
    ensures Apart(m, HandleHandshake(m, h, raw), user) && !HandleHandshake(m, h, raw).session.phase.PhaseIdle?
  {
    hide SendRegistrations, ServerList.Announced, MapHandshakeError;
    RegistrationsApart(Entered(m, h, raw), m.watch.usersForWWR, user);
    RegistrationsSession(Entered(m, h, raw), m.watch.usersForWWR);
  }

  lemma PacketApart(m: Mgr, h: Header, body: bytes, user: bytes)
    requires Unseen(m, user) && !m.session.phase.PhaseIdle?
    ensures Apart(m, HandlePacket(m, h, body), user)
  {
    hide ParseUser, ParseMessage, WriteSock, Build, Spool.SpoolPray, LowByte, Uin.ToString, Synced;
  }

  lemma StepApart(m: Mgr, user: bytes)
    requires Unseen(m, user) && !m.session.phase.PhaseIdle?
    ensures Apart(m, AfterStep(m), user)
  {
    hide Frame, Answered, HandleHandshake, HandlePacket, Drops, ReadHeader, LowByte;
    match Frame(m.sock.input, m.tickets.table)
    case Whole(size, reply) =>
      var h := ReadHeader(m.sock.input);
      HandshakeApart(m, h, m.sock.input[..size], user);
      PacketApart(m, h, m.sock.input[HEADER_SIZE..size], user);
    case _ =>
  }

  lemma {:induction false} ProcessApart(m: Mgr, user: bytes)
    requires Hushed(m) && Unseen(m, user) && !m.session.phase.PhaseIdle?
    ensures Apart(m, Process(m), user)
    decreases |m.sock.input|
  {
    hide Step, Apart, Hushed;
    SameApart(m, m, user);
    StepApart(m, user);
    StepReported(m, user);
    if Step(m).Continue? {
      ProcessApart(Step(m).m, user);
      ApartOn(m, Step(m).m, Process(m), user);
    }
  }

  lemma LostApart(m: Mgr, user: bytes)
    ensures Apart(m, ConnectionLost(m), user) && Apart(m, Disconnect(m), user)
  {
  }

  lemma LoginApart(m: Mgr)
    requires UnderWay(m)
    ensures LoginStep(m).handed == m.handed
  {
    hide PollSock, WriteSock, Build, NextTicket;
  }

  lemma PumpApart(m: Mgr, user: bytes)
    requires Hushed(m) && Unseen(m, user)
    ensures Apart(m, Pump(m), user) && Unseen(Pump(m), user)
  {
    hide Process, PumpSock, LoginStep, TimeAfter, ConnectionLost, Apart, Hushed;
    SameApart(m, m, user);
    if UnderWay(m) {
      var l := LoginStep(m);
      var n := l.(sock := PumpSock(l.sock));
      LoginApart(m);
      LoginWatch(m);
      SameApart(m, l, user);
      SameApart(m, n, user);
      SameHushed(m, n);
      ProcessApart(n, user);
      ApartOn(m, n, Process(n), user);
      var p := if l.session.phase.PhaseAwait? then Process(n) else l;
      ApartSeen(m, p, user);
      SameApart(p, AwaitStep(l), user);
      SameApart(p, Pump(m), user);
      ApartOn(m, p, Pump(m), user);
    } else if m.session.phase.PhaseOnline? {
      var n := m.(sock := PumpSock(m.sock));
      SameApart(m, n, user);
      SameHushed(m, n);
      ProcessApart(n, user);
      ApartOn(m, n, Process(n), user);
      LostApart(Process(n), user);
      ApartOn(m, Process(n), ConnectionLost(Process(n)), user);
    }
    ApartSeen(m, Pump(m), user);
  }

  lemma ApartSeen(m: Mgr, r: Mgr, user: bytes)
    requires Apart(m, r, user)
    ensures Unseen(r, user)
  {
  }

  // ---- acts and calls ----

  lemma ConnectApart(m: Mgr, users: seq<bytes>, user: bytes)
    requires Hushed(m) && Unseen(m, user)
    ensures Kept(m, ConnectInBackground(m, users), user) && Unseen(ConnectInBackground(m, users), user)
  {
    hide Hushed, Pump, PumpConnectPhase, BeginSock;
    if UnderWay(m) {
      PumpIs(m);
      PumpApart(m, user);
    }
  }

  lemma ActApart(m: Mgr, act: Act, user: bytes)
    requires Hushed(m) && Unseen(m, user) && Proper(m, act)
    requires !act.BeginsAdd? && !act.FinishesAdd? && !act.Unwatches? && !act.TakesChange? && !act.TakesMail?
    requires !act.Connects?
    ensures Apart(m, Perform(m, act), user) && Unseen(Perform(m, act), user)
  {
    hide Hushed, Pump, Start, Abandon, AfterPoll, WriteSock, Build, NowMs, Deadline, Proper;
    match act
    case Pumps => PumpApart(m, user);
    case Disconnects => LostApart(m, user);
    case Loses => LostApart(m, user);
    case _ => SameApart(m, Perform(m, act), user);
  }

  lemma {:induction false} ScriptApart(m: Mgr, s: Script, user: bytes)
    requires Hushed(m) && Unseen(m, user) && AllProper(m, s) && Silent(s) && Simple(s) && Inner(s)
    ensures Apart(m, Play(m, s), user)
    decreases s
  {
    hide Hushed, Apart, Unseen, Perform, Proper;
    if s.Then? {
      var n := Perform(m, s.act);
      ActApart(m, s.act, user);
      ActReported(m, s.act, user);
      ScriptApart(n, s.rest, user);
      ApartOn(m, n, Play(n, s.rest), user);
    } else {
      SameApart(m, m, user);
    }
  }

  /** What a call hands over, tells and leaves the game waiting for, going by what it returns. */
  predicate Tallies(m: Mgr, call: Call, user: bytes) {
    var r := Do(m, call);
    && r.handed == m.handed + (if call.CallGetMessages? then GetMessages(m).1 else [])
    && (user in r.watch.seen <==> Believes(m, call, user, user in m.watch.seen))
    && (user in r.watch.adding <==> Waiting(m, [call], user, user in m.watch.adding))
  }

  lemma NoneWaiting(m: Mgr, call: Call, user: bytes)
    ensures Waiting(m, [call], user, user in m.watch.adding) ==
            if call == CallAddToWWR(user) && Parse(user).Some? then AddToWWR(m, user).block
            else if call == CallRemoveFromWWR(user) then false
            else user in m.watch.adding
  {
    hide Parse, AddToWWR, Do;
    assert [call][0] == call && [call][1..] == [];
  }

  /** What a call of AddToWWR leaves the game believing, by whether it is to be called again. */
  predicate AddLeaves(b: Mgr, c: Called<()>, owner: bytes, user: bytes) {
    && c.m.handed == b.handed
    && (owner != user ==> Apart(b, c.m, user))
    && (owner == user ==>
          (user in c.m.watch.seen <==> if c.block then user in b.watch.seen else KnownOnline(c.m.watch, user)))
  }

  lemma FinishLeaves(b: Mgr, p: Mgr, owner: bytes, user: bytes)
    requires Apart(b, p, user) && Unseen(p, user)
    ensures AddLeaves(b, FinishedAdd(p, owner), owner, user)
  {
  }

  lemma FirstAddLeaves(b: Mgr, owner: bytes, uin: Uin, user: bytes)
    requires Unseen(b, user) && IsOnline(b)
    ensures AddLeaves(b, FirstAdd(b, owner, uin), owner, user)
  {
    hide Send, FinishedAdd, NowMs, Deadline, KnownOnline;
    var p := WwrModify(true, b.session.server, uin);
    SendKeeps(b, p);
    SendHands(b, p);
    SameApart(b, Send(b, p), user);
    FinishLeaves(b, Send(b, p), owner, user);
  }

  lemma SendHands(m: Mgr, p: Packet)
    ensures Send(m, p).handed == m.handed
  {
  }

  lemma LaterAddLeaves(b: Mgr, owner: bytes, user: bytes)
    requires Hushed(b) && Unseen(b, user) && IsOnline(b) && (owner == user ==> user in b.watch.members)
    ensures AddLeaves(b, LaterAdd(b, owner), owner, user)
  {
    hide Pump, FinishedAdd, TimeAfter, NowMs, KnownOnline, Hushed;
    var p := Pump(b);
    var given := Watched(p, p.watch.(pendingAdds := p.watch.pendingAdds - {owner}));
    PumpReported(b, user);
    PumpApart(b, user);
    WaitedNotIdle(p, owner);
    SameApart(p, given, user);
    ApartOn(b, p, given, user);
    FinishLeaves(b, p, owner, user);
    FinishLeaves(b, given, owner, user);
  }

  lemma AddTold(m: Mgr, owner: bytes, user: bytes)
    requires Hushed(m) && Unseen(m, user)
    ensures var c := AddToWWR(m, owner);
            && c.m.handed == m.handed
            && (Parse(owner).None? ==> c.m == m)
            && (owner != user ==> Apart(m, c.m, user))
            && (owner == user && Parse(user).Some? ==>
                  && (c.block ==> (user in c.m.watch.seen <==> user in m.watch.seen))
                  && (!c.block ==> (user in c.m.watch.seen <==> KnownOnline(c.m.watch, user))))
  {
    hide Parse, FirstAdd, LaterAdd, FinishedAdd, Hushed, KnownOnline;
    var b := Watched(m, BeginAdd(m.watch, owner));
    SameApart(m, m, user);
    if Parse(owner).Some? {
      SameHushed(m, b);
      SameApart(b, b, user);
      FinishLeaves(b, b, owner, user);
      if IsOnline(b) {
        FirstAddLeaves(b, owner, Parse(owner).value, user);
        LaterAddLeaves(b, owner, user);
      }
      if owner != user {
        ApartOn(m, b, AddToWWR(m, owner).m, user);
      }
    }
  }

  lemma WaitedNotIdle(m: Mgr, user: bytes)
    requires Hushed(m)
    ensures user in m.watch.pendingAdds ==> !m.session.phase.PhaseIdle?
  {
  }

  lemma RemoveTold(m: Mgr, owner: bytes, user: bytes)
    ensures var r := RemoveFromWWR(m, owner);
            && r.handed == m.handed && r.session == m.session
            && r.watch == Remove(m.watch, owner)
  {
    hide Parse, WriteSock, Build, Remove;
  }

  lemma ApartTallies(m: Mgr, call: Call, user: bytes)
    requires Kept(m, Do(m, call), user)
    requires !call.CallGetMessages? && !call.CallNextChangedUser? && call != CallRemoveFromWWR(user)
    requires call != CallAddToWWR(user)
    ensures Tallies(m, call, user)
  {
    hide Do, Parse, AddToWWR, RemoveFromWWR;
    NoneWaiting(m, call, user);
    assert m.handed + [] == m.handed;
  }

  lemma FetchApart(m: Mgr, owner: bytes, user: bytes)
    requires Hushed(m) && Unseen(m, user)
    ensures Apart(m, FetchUserData(m, owner).m, user) && Unseen(FetchUserData(m, owner).m, user)
  {
    hide FetchUserData, Pump, Hushed, Apart;
    var r := FetchUserData(m, owner).m;
    PumpApart(m, user);
    FetchIs(m, owner);
    if r.watch == m.watch && r.session == m.session && r.handed == m.handed {
      SameApart(m, r, user);
    } else {
      SameApart(Pump(m), r, user);
      ApartOn(m, Pump(m), r, user);
    }
    ApartSeen(m, r, user);
  }

  lemma AddTallies(m: Mgr, owner: bytes, user: bytes)
    requires Hushed(m) && Unseen(m, user)
    ensures Tallies(m, CallAddToWWR(owner), user) && Unseen(Do(m, CallAddToWWR(owner)), user)
  {
    hide Hushed, Parse, AddToWWR;
    var call, r := CallAddToWWR(owner), AddToWWR(m, owner).m;
    NoneWaiting(m, call, user);
    AddTold(m, owner, user);
    AddWaits(m, user);
    DoReported(m, call, user);
    if owner != user {
      ApartTallies(m, call, user);
      ApartSeen(m, r, user);
    } else if Parse(user).None? {
      SameApart(m, m, user);
    } else {
      WaitedNotIdle(r, user);
    }
  }

  /** Nobody is known to be online once idle. */
  lemma DoReported(m: Mgr, call: Call, user: bytes)
    requires Hushed(m)
    ensures Hushed(Do(m, call))
    ensures Do(m, call).session.phase.PhaseIdle? ==> !KnownOnline(Do(m, call).watch, user)
  {
    hide Do, About;
    DoKnown(m, call, user);
  }

  lemma RemoveTallies(m: Mgr, owner: bytes, user: bytes)
    requires Hushed(m) && Unseen(m, user)
    ensures Tallies(m, CallRemoveFromWWR(owner), user) && Unseen(Do(m, CallRemoveFromWWR(owner)), user)
  {
    hide Hushed, Parse, RemoveFromWWR;
    var call := CallRemoveFromWWR(owner);
    NoneWaiting(m, call, user);
    RemoveTold(m, owner, user);
    assert m.handed + [] == m.handed;
  }

  lemma NextTallies(m: Mgr, user: bytes)
    requires Hushed(m) && Unseen(m, user)
    ensures Tallies(m, CallNextChangedUser, user) && Unseen(Do(m, CallNextChangedUser), user)
  {
    hide NextChangedUser;
    var call, c := CallNextChangedUser, NextChangedUser(m);
    NoneWaiting(m, call, user);
    NextIsTold(m);
    NextKeeps(m);
    assert m.handed + [] == m.handed;
  }

  lemma NextKeeps(m: Mgr)
    ensures var r := NextChangedUser(m).m;
            r.handed == m.handed && r.session == m.session && r.watch.adding == m.watch.adding
  {
  }

  lemma MessagesTally(m: Mgr, user: bytes)
    requires Hushed(m) && Unseen(m, user)
    ensures Tallies(m, CallGetMessages, user) && Unseen(Do(m, CallGetMessages), user)
  {
    hide Hushed, Pump;
    NoneWaiting(m, CallGetMessages, user);
    PumpApart(m, user);
  }

  lemma DoTold(m: Mgr, call: Call, user: bytes)
    requires Hushed(m) && Unseen(m, user)
    ensures Tallies(m, call, user) && Unseen(Do(m, call), user)
  {
    hide Hushed, Do, Parse, AddToWWR, RemoveFromWWR, FetchUserData, ScriptOf, AllProper, Play, Silent, Inner, Simple,
         Pump, ConnectInBackground, Remove;
    var r := Do(m, call);
    NoneWaiting(m, call, user);
    DoIs(m, call);
    match call
    case CallAddToWWR(owner) => AddTallies(m, owner, user);
    case CallRemoveFromWWR(owner) => RemoveTallies(m, owner, user);
    case CallNextChangedUser => NextTallies(m, user);
    case CallGetMessages => MessagesTally(m, user);
    case CallConnect(users) =>
      ConnectApart(m, users, user);
      OneActIs(m, call);
      ApartTallies(m, call, user);
    case CallFetchUserData(owner) =>
      FetchApart(m, owner, user);
      ApartTallies(m, call, user);
    case Host(_, _, _, _) =>
      OneActIs(m, call);
      SameApart(m, r, user);
      ApartTallies(m, call, user);
    case CallSetUser(_, _) =>
      OneActIs(m, call);
      SameApart(m, r, user);
      ApartTallies(m, call, user);
    case CallSetDirectories(_, _) =>
      OneActIs(m, call);
      SameApart(m, r, user);
      ApartTallies(m, call, user);
    case _ =>
      CallLeads(m, call);
      CallIsSilent(m, call);
      ScriptApart(m, ScriptOf(m, call), user);
      ApartTallies(m, call, user);
      ApartSeen(m, r, user);
  }

  // ---- runs ----

  /** Over any run, the messages the game was handed and those still waiting are exactly those the packets
      dispatched brought, in order and each once. */
  lemma MailOverRuns(m: Mgr, calls: seq<Call>)
    requires LedgerOk(m) && Hushed(m) && Unseen(m, [])
    ensures var r := DoAll(m, calls);
            m.handed + MailTold(m, calls) + r.incoming == MailOf(r.log)
  {
    hide LedgerOk, Hushed, DoAll;
    RunLedger(m, calls);
    RunTold(m, calls, []);
    LedgerIs(DoAll(m, calls));
  }

  lemma LedgerIs(m: Mgr)
    requires LedgerOk(m)
    ensures m.handed + m.incoming == MailOf(m.log)
  {
  }

  lemma {:induction false} RunTold(m: Mgr, calls: seq<Call>, user: bytes)
    requires Hushed(m) && Unseen(m, user)
    ensures Hushed(DoAll(m, calls)) && Unseen(DoAll(m, calls), user)
    ensures DoAll(m, calls).handed == m.handed + MailTold(m, calls)
    ensures user in DoAll(m, calls).watch.seen <==> Belief(m, calls, user, user in m.watch.seen)
    ensures user in DoAll(m, calls).watch.adding <==> Waiting(m, calls, user, user in m.watch.adding)
    decreases |calls|
  {
    hide Hushed, Unseen, Do, Believes, GetMessages;
    if calls == [] {
      assert m.handed + [] == m.handed;
    } else {
      var n := Do(m, calls[0]);
      DoTold(m, calls[0], user);
      DoKnown(m, calls[0], user);
      WaitingOn(m, calls, user, user in m.watch.adding);
      RunTold(n, calls[1..], user);
    }
  }

  lemma WaitingOn(m: Mgr, calls: seq<Call>, user: bytes, before: bool)
    requires calls != []
    ensures Waiting(m, calls, user, before)
         == Waiting(Do(m, calls[0]), calls[1..], user, Waiting(m, [calls[0]], user, before))
  {
    hide Do, Parse, AddToWWR;
    assert [calls[0]][0] == calls[0] && [calls[0]][1..] == [];
  }

  /** What the game takes a user's state to be when it has called NextChangedUserWWR until there was nothing more. */
  function Finally(m: Mgr, calls: seq<Call>, user: bytes): bool {
    var told := LastTold(Collected(DoAll(m, calls)), user);
    if told.Some? then told.value else Belief(m, calls, user, user in m.watch.seen)
  }

  /** Over a run that spares the user: going only by what its calls returned, the game then has the state of the
      user right, if they are watched and no AddToWWR of theirs is under way. */
  lemma TheGameIsRight(m: Mgr, calls: seq<Call>, user: bytes)
    requires Core(m) && Hushed(m) && Unseen(m, user) && Tidy(m.watch, user) && RunSpares(m, calls, user)
    ensures var r := DoAll(m, calls);
            user in r.watch.members && !Waiting(m, calls, user, user in m.watch.adding) ==>
              Finally(m, calls, user) == KnownOnline(r.watch, user)
  {
    hide DoAll, RunSpares, Hushed, Unseen, Waiting, Belief, Collected, LastTold, Core, Tidy;
    var r := DoAll(m, calls);
    RunCore(m, calls);
    RunTidy(m, calls, user);
    RunTold(m, calls, user);
    QueueIsOk(r, user);
    CollectedIsQueue(r, user);
  }

  lemma QueueIsOk(m: Mgr, user: bytes)
    requires Core(m) && Tidy(m.watch, user)
    ensures NoDuplicates(m.watch.changed)
    ensures user in m.watch.members && user !in m.watch.adding ==> Synced(m.watch, user)
  {
    assert user in m.watch.members && user !in m.watch.adding ==> Settled(m.watch, user);
  }

  /** The game can be sure of it by minding its calls. */
  lemma TheGameIsRightByCalls(m: Mgr, calls: seq<Call>, user: bytes)
    requires Core(m) && Hushed(m) && Unseen(m, user) && Tidy(m.watch, user) && Listed(m.watch, user)
    requires CallsSpare(m, calls, user)
    ensures var r := DoAll(m, calls);
            user in r.watch.members && !Waiting(m, calls, user, user in m.watch.adding) ==>
              Finally(m, calls, user) == KnownOnline(r.watch, user)
  {
    hide DoAll, RunSpares, CallsSpare, Hushed, Unseen, Waiting, Finally, Core, Tidy, Listed;
    CallsSpareRuns(m, calls, user);
    TheGameIsRight(m, calls, user);
  }

  // ---- whoever is not watched is not heard of ----

  /** The user is not watched, about to be, waited for or queued. */
  predicate Gone(w: Watch, user: bytes) {
    user !in w.members && user !in w.usersForWWR && user !in w.pendingAdds && user !in w.changed
  }

  /** Unwatching leaves the user gone exactly if no change of theirs is queued already, and no list waiting for the
      login has them. */
  lemma RemovedIsGone(m: Mgr, user: bytes)
    ensures Gone(RemoveFromWWR(m, user).watch, user) <==> user !in m.watch.changed && user !in m.watch.usersForWWR
  {
    hide Parse, WriteSock, Build;
  }

  lemma {:induction false} RegistrationsGone(m: Mgr, users: seq<bytes>, user: bytes)
    requires Gone(m.watch, user) && user !in users
    ensures Gone(SendRegistrations(m, users).watch, user)
    decreases |users|
  {
    hide Parse, WriteSock, Build, Synced;
    if users != [] && Parse(users[0]).None? {
      RegistrationsGone(m, users[1..], user);
    } else if users != [] {
      assert users[0] in users;
      RegistrationsGone(Send(m.(watch := Register(m.watch, users[0])),
                             WwrModify(true, m.session.server, Parse(users[0]).value)), users[1..], user);
    }
  }

  lemma HandshakeGone(m: Mgr, h: Header, raw: bytes, user: bytes)
    requires |raw| > 1 && Gone(m.watch, user)
    ensures Gone(HandleHandshake(m, h, raw).watch, user)
  {
    hide SendRegistrations, ServerList.Announced, MapHandshakeError;
    RegistrationsGone(Entered(m, h, raw), m.watch.usersForWWR, user);
  }

  lemma PacketGone(m: Mgr, h: Header, body: bytes, user: bytes)
    requires Gone(m.watch, user)
    ensures Gone(HandlePacket(m, h, body).watch, user)
  {
    hide Gone, ParseUser, ParseMessage, WriteSock, Build, Spool.SpoolPray, LowByte, Update, AllOffline;
    LostGone(m.watch, user);
    UpdateGone(m.watch, Uin(h.c, h.d), h.e != 0, [], user);
    if ParseUser(body).Some? {
      UpdateGone(m.watch, ParseUser(body).value.uin, LowByte(h.kind) == USER_ONLINE,
                 ParseUser(body).value.nickName, user);
    }
  }

  lemma UpdateGone(w: Watch, uin: Uin, online: bool, nickName: bytes, user: bytes)
    requires Gone(w, user)
    ensures Gone(Update(w, uin, online, nickName), user)
  {
    hide Uin.ToString, Synced;
  }

  lemma LostGone(w: Watch, user: bytes)
    requires Gone(w, user)
    ensures Gone(AllOffline(w), user)
  {
  }

  lemma StepGone(m: Mgr, user: bytes)
    requires Gone(m.watch, user)
    ensures Gone(AfterStep(m).watch, user)
  {
    hide Frame, Answered, HandleHandshake, HandlePacket, Drops, ReadHeader, LowByte;
    match Frame(m.sock.input, m.tickets.table)
    case Whole(size, reply) =>
      HandshakeGone(m, ReadHeader(m.sock.input), m.sock.input[..size], user);
      PacketGone(m, ReadHeader(m.sock.input), m.sock.input[HEADER_SIZE..size], user);
    case _ =>
  }

  lemma {:induction false} ProcessGone(m: Mgr, user: bytes)
    requires Gone(m.watch, user)
    ensures Gone(Process(m).watch, user)
    decreases |m.sock.input|
  {
    hide Step, Gone;
    StepGone(m, user);
    if Step(m).Continue? {
      ProcessGone(Step(m).m, user);
    }
  }

  lemma PumpGone(m: Mgr, user: bytes)
    requires Gone(m.watch, user)
    ensures Gone(Pump(m).watch, user)
  {
    hide Pump, ProcessedBy, Process;
    PumpIsProcess(m);
    if ProcessedBy(m).Some? {
      ProcessGone(ProcessedBy(m).value, user);
    }
  }

  lemma ActGone(m: Mgr, act: Act, user: bytes)
    requires Gone(m.watch, user) && Proper(m, act) && !(act.BeginsAdd? && act.user == user)
    requires act.Connects? ==> user !in act.users
    ensures Gone(Perform(m, act).watch, user)
  {
    hide Gone, Pump, ConnectInBackground, Send, Start, Abandon, AfterPoll, Parse;
    match act
    case Pumps => PumpGone(m, user);
    case Connects(users) => ConnectGone(m, users, user);
    case Writes(packet) => SendKeeps(m, packet);
    case Questions(kind, fixedExtra, subject, packet) => SendKeeps(Asked(m, kind, fixedExtra, subject), packet);
    case _ => QuietGone(m, act, user);
  }

  lemma ConnectGone(m: Mgr, users: seq<bytes>, user: bytes)
    requires Gone(m.watch, user) && user !in users
    ensures Gone(ConnectInBackground(m, users).watch, user)
  {
    hide Pump, PumpConnectPhase, BeginSock;
    if UnderWay(m) {
      PumpIs(m);
      PumpGone(m, user);
    }
  }

  lemma QuietGone(m: Mgr, act: Act, user: bytes)
    requires Gone(m.watch, user) && Proper(m, act) && !(act.BeginsAdd? && act.user == user)
    requires !act.Pumps? && !act.Connects? && !act.Writes? && !act.Questions?
    ensures Gone(Perform(m, act).watch, user)
  {
    hide Start, Abandon, AfterPoll, Parse, WriteSock, Build, NowMs, Deadline, KnownOnline;
  }

  /** The user is not added in it. */
  predicate Unbegun(s: Script, user: bytes) {
    s.Then? ==> !(s.act.BeginsAdd? && s.act.user == user) && Unbegun(s.rest, user)
  }

  lemma {:induction false} SimpleUnbegun(s: Script, user: bytes)
    requires Simple(s)
    ensures Unbegun(s, user)
    decreases s
  {
    if s.Then? {
      SimpleUnbegun(s.rest, user);
    }
  }

  lemma {:induction false} ScriptGone(m: Mgr, s: Script, user: bytes)
    requires Gone(m.watch, user) && AllProper(m, s) && Unbegun(s, user)
    requires Inner(s)
    ensures Gone(Play(m, s).watch, user)
    decreases s
  {
    hide Gone, Perform, Proper;
    if s.Then? {
      ActGone(m, s.act, user);
      ScriptGone(Perform(m, s.act), s.rest, user);
    }
  }

  lemma AddGone(m: Mgr, owner: bytes, user: bytes)
    requires Gone(m.watch, user) && owner != user
    ensures Gone(AddToWWR(m, owner).m.watch, user)
  {
    hide Parse, Pump, WriteSock, Build, TimeAfter, NowMs, Deadline, KnownOnline;
    PumpGone(Watched(m, BeginAdd(m.watch, owner)), user);
  }

  /** The user is neither added nor on a list to be registered. */
  predicate LeavesAlone(call: Call, user: bytes) {
    call != CallAddToWWR(user) && (call.CallConnect? ==> user !in call.users)
  }

  lemma DoGone(m: Mgr, call: Call, user: bytes)
    requires Gone(m.watch, user) && LeavesAlone(call, user)
    ensures Gone(Do(m, call).watch, user)
  {
    hide Gone, Do, AddToWWR, ScriptOf, Play, AllProper, Inner, Simple, Unbegun;
    CallLeads(m, call);
    if call.CallAddToWWR? {
      AddGone(m, call.user, user);
      AddIs(m, call.user);
    } else if call.CallRemoveFromWWR? {
      RemoveOtherGone(m, call.user, user);
      DoIs(m, call);
    } else if call.CallConnect? || call.Host? {
      ActGone(m, ActOf(m, call), user);
      OneActIs(m, call);
    } else {
      SimpleUnbegun(ScriptOf(m, call), user);
      ScriptGone(m, ScriptOf(m, call), user);
    }
  }

  lemma AddIs(m: Mgr, user: bytes)
    ensures Do(m, CallAddToWWR(user)) == AddToWWR(m, user).m
  {
    hide AddToWWR;
  }

  lemma RemoveOtherGone(m: Mgr, owner: bytes, user: bytes)
    requires Gone(m.watch, user)
    ensures Gone(RemoveFromWWR(m, owner).watch, user)
  {
    hide Parse, WriteSock, Build;
  }

  /** Over any run that does not add them again such a user stays out of the register, and no answer of
      NextChangedUserWWR is about them. */
  lemma {:induction false} GoneOverRuns(m: Mgr, calls: seq<Call>, user: bytes)
    requires Gone(m.watch, user) && forall i | 0 <= i < |calls| :: LeavesAlone(calls[i], user)
    ensures var r := DoAll(m, calls);
            && Gone(r.watch, user)
            && match NextChangedUser(r).value
               case Some((u, _)) => u != user
               case None => true
    decreases |calls|
  {
    hide Do, LeavesAlone;
    if calls != [] {
      DoGone(m, calls[0], user);
      GoneOverRuns(Do(m, calls[0]), calls[1..], user);
    }
  }
}
