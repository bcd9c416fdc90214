/** What the client holds about a user is what the packets dispatched about them said. */
module Reports {
  import opened Bytes
  import opened Uins
  import opened Protocol
  import opened Sockets
  import opened Clock
  import opened Tickets
  import opened Watching
  import opened Client
  import opened Connection
  import opened Api
  import opened Acts
  import opened Sound
  import opened LockStepRun
  import opened PresenceRuns
  import Timing

  // ---- reading the dispatched packets ----

  /** What a packet says about a user. */
  datatype News = News(user: bytes, online: bool, nickName: bytes)

  /** A packet of type 0x0D or 0x0E carries the user's details, one of type 0x1D their id in fields C and D
      and their state in field E; no other says anything. */
  function NewsIn(d: Dispatch): Option<News> {
    if d.reply || |d.packet| < 32 then None
    else if d.packet[0] == 0x0D || d.packet[0] == 0x0E then
      match ParseUser(d.packet[32..])
      case Some(u) => Some(News(u.uin.ToString(), d.packet[0] == 0x0D, u.nickName))
      case None => None
    else if d.packet[0] == 0x1D then
      Some(News(Uin(GetInt(d.packet, 12), GetInt(d.packet, 16)).ToString(), GetInt(d.packet, 28) != 0, []))
    else None
  }

  /** What is known about a user after a packet, from what was known before; a nick name outlives reports without
      one. */
  function Heard(known: Option<Presence>, d: Dispatch, user: bytes): Option<Presence> {
    match NewsIn(d)
    case None => known
    case Some(n) =>
      if n.user != user then known
      else Some(Presence(n.online, if n.nickName != [] || known.None? then n.nickName else known.value.nickName))
  }

  function HeardAll(known: Option<Presence>, log: seq<Dispatch>, user: bytes): Option<Presence> {
    if log == [] then known else Heard(HeardAll(known, log[..|log| - 1], user), log[|log| - 1], user)
  }

  /** Whether the last packet about the user, if any, had them online. */
  function LastSaid(log: seq<Dispatch>, user: bytes): Option<bool> {
    if log == [] then None
    else
      match NewsIn(log[|log| - 1])
      case Some(n) => if n.user == user then Some(n.online) else LastSaid(log[..|log| - 1], user)
      case None => LastSaid(log[..|log| - 1], user)
  }

  function About(w: Watch, user: bytes): Option<Presence> {
    if user in w.presence then Some(w.presence[user]) else None
  }

  function Offline(known: Option<Presence>): Option<Presence> {
    if known.None? then None else Some(known.value.(online := false))
  }

  lemma {:induction false} HeardConcat(known: Option<Presence>, a: seq<Dispatch>, b: seq<Dispatch>, user: bytes)
    ensures HeardAll(known, a + b, user) == HeardAll(HeardAll(known, a, user), b, user)
    decreases |b|
  {
    hide Heard;
    if b == [] {
      assert a + b == a;
    } else {
      var n := |b| - 1;
      assert (a + b)[..|a + b| - 1] == a + b[..n];
      HeardConcat(known, a, b[..n], user);
    }
  }

  lemma HeardOne(known: Option<Presence>, d: Dispatch, user: bytes)
    ensures HeardAll(known, [d], user) == Heard(known, d, user)
  {
    hide Heard;
    assert [d][..0] == [];
  }

  lemma {:induction false} HeardIsLastSaid(known: Option<Presence>, log: seq<Dispatch>, user: bytes)
    ensures var h := HeardAll(known, log, user);
            match LastSaid(log, user)
            case Some(online) => h.Some? && h.value.online == online
            case None => h == known
    decreases |log|
  {
    hide NewsIn;
    if log != [] {
      HeardIsLastSaid(known, log[..|log| - 1], user);
    }
  }

  // ---- the register's own state ----

  /** Nobody waited for has been heard of; and idle, nobody is online, waited for or queued. */
  ghost predicate Hushed(m: Mgr) {
    && (forall u | u in m.watch.pendingAdds :: u !in m.watch.presence)
    && (m.session.phase.PhaseIdle? ==>
          m.watch.changed == [] && m.watch.pendingAdds == map[] && forall u :: !KnownOnline(m.watch, u))
  }

  /** From m to r, what is held about the user went by the packets dispatched in between, and with the
      connection they went offline. */
  predicate Reported(m: Mgr, r: Mgr, user: bytes) {
    && m.log <= r.log
    && About(r.watch, user) ==
       var heard := HeardAll(About(m.watch, user), r.log[|m.log|..], user);
       if r.session.phase.PhaseIdle? then Offline(heard) else heard
  }

  /** Idle, the client stays idle and dispatches nothing. */
  predicate Rests(m: Mgr, r: Mgr) {
    m.session.phase.PhaseIdle? ==> r.session.phase.PhaseIdle? && r.log == m.log
  }

  /** Nothing of it changed. */
  lemma SameReported(m: Mgr, r: Mgr, user: bytes)
    requires Hushed(m) && r.log == m.log && About(r.watch, user) == About(m.watch, user)
    requires r.session.phase.PhaseIdle? ==> m.session.phase.PhaseIdle?
    ensures Reported(m, r, user)
  {
    assert m.log[|m.log|..] == [];
    assert About(m.watch, user).Some? && m.session.phase.PhaseIdle? ==> !KnownOnline(m.watch, user);
  }

  lemma ReportedOn(m: Mgr, n: Mgr, r: Mgr, user: bytes)
    requires Reported(m, n, user) && Reported(n, r, user) && Rests(n, r)
    ensures Reported(m, r, user)
  {
    hide HeardAll, Heard;
    assert r.log[|m.log|..] == n.log[|m.log|..] + r.log[|n.log|..];
    HeardConcat(About(m.watch, user), n.log[|m.log|..], r.log[|n.log|..], user);
    if n.session.phase.PhaseIdle? {
      assert r.log[|m.log|..] == n.log[|m.log|..];
      assert r.log[|n.log|..] == [];
      HeardNone(About(n.watch, user), user);
    }
  }

  lemma HeardNone(known: Option<Presence>, user: bytes)
    ensures HeardAll(known, [], user) == known
  {
  }

  // ---- handling packets ----

  /** Each packet does to the register what it says, and to nobody else. */
  lemma PacketHeard(m: Mgr, h: Header, size: nat, user: bytes)
    requires HEADER_SIZE <= size <= |m.sock.input| && h == ReadHeader(m.sock.input)
    requires LowByte(h.kind) != HANDSHAKE_RESPONSE && !Drops(m, h)
    ensures var r := HandlePacket(m, h, m.sock.input[HEADER_SIZE..size]);
            && About(r.watch, user) == Heard(About(m.watch, user), Dispatch(false, m.sock.input[..size]), user)
            && r.session == m.session && r.watch.usersForWWR == m.watch.usersForWWR
  {
    hide ParseUser, ParseMessage, WriteSock, Build, Spool.SpoolPray, Uin.ToString, Synced, GetInt, LowByte, Update;
    var packet, body := m.sock.input[..size], m.sock.input[HEADER_SIZE..size];
    assert packet[32..] == body;
    PacketInts(m.sock.input, size);
    UpdateAbout(m.watch, Uin(h.c, h.d), h.e != 0, [], user);
    if ParseUser(body).Some? {
      var u := ParseUser(body).value;
      UpdateAbout(m.watch, u.uin, packet[0] == 0x0D, u.nickName, user);
    }
  }

  /** The type is the packet's first byte; fields C, D and E stand at 12, 16 and 28. */
  lemma PacketInts(input: bytes, size: nat)
    requires HEADER_SIZE <= size <= |input|
    ensures var h, packet := ReadHeader(input), input[..size];
            && LowByte(h.kind) == packet[0] && h.c == GetInt(packet, 12) && h.d == GetInt(packet, 16)
            && h.e == GetInt(packet, 28)
  {
    hide GetInt;
    assert input == input[..size] + input[size..];
    GetIntPrefix(input[..size], input[size..], 0);
    GetIntPrefix(input[..size], input[size..], 12);
    GetIntPrefix(input[..size], input[size..], 16);
    GetIntPrefix(input[..size], input[size..], 28);
    FirstByte(input[..size]);
  }

  lemma FirstByte(data: bytes)
    requires |data| >= 4
    ensures LowByte(GetInt(data, 0)) == data[0]
  {
    var s, i := data[0..4], GetInt(data, 0);
    PutGetInt(data, 0);
    assert IntBytes(i)[0] == Unsigned(i) % 0x100;
  }

  lemma UpdateAbout(w: Watch, uin: Uin, online: bool, nickName: bytes, user: bytes)
    ensures About(Update(w, uin, online, nickName), user) ==
            if user != uin.ToString() then About(w, user)
            else
              var before := About(w, user);
              Some(Presence(online, if nickName != [] || before.None? then nickName else before.value.nickName))
    ensures Update(w, uin, online, nickName).usersForWWR == w.usersForWWR
  {
    hide Uin.ToString, Synced;
  }

  lemma UpdateHushed(w: Watch, uin: Uin, online: bool, nickName: bytes)
    requires forall u | u in w.pendingAdds :: u !in w.presence
    ensures forall u | u in Update(w, uin, online, nickName).pendingAdds
            :: u !in Update(w, uin, online, nickName).presence
  {
    hide Uin.ToString, Synced;
  }

  /** Logging in leaves what is held about users alone. */
  lemma HandshakeHeard(m: Mgr, h: Header, raw: bytes)
    requires |raw| > 1
    ensures var r := HandleHandshake(m, h, raw);
            && r.watch.presence == m.watch.presence && r.watch.pendingAdds == m.watch.pendingAdds
            && (r.session.phase.PhaseIdle? ==> m.session.phase.PhaseIdle?)
            && (m.session.phase.PhaseIdle? ==> r == m)
  {
    hide SendRegistrations, ServerList.Announced, MapHandshakeError;
    HandshakeSpelled(m, h, raw);
    RegistrationsSession(Entered(m, h, raw), m.watch.usersForWWR);
    Timing.HandshakeAdds(m, h, raw);
  }

  /** A turn of the loop. */
  lemma StepReported(m: Mgr, user: bytes)
    requires Hushed(m) && !m.session.phase.PhaseIdle?
    ensures Reported(m, AfterStep(m), user) && Hushed(AfterStep(m))
    ensures AfterStep(m).session.phase.PhaseIdle? <==> Step(m).Dropped?
  {
    hide Hushed, Frame, Answered, HandleHandshake, HandlePacket, Drops, ReadHeader, LowByte, Heard, HeardAll, Accepting,
         Client.ConnectionLost, Client.Consumed;
    var r := AfterStep(m);
    match Frame(m.sock.input, m.tickets.table)
    case NeedMore => SameReported(m, m, user);
    case Broken => LostReported(m, m, user);
    case Whole(size, reply) =>
      var h, body := ReadHeader(m.sock.input), m.sock.input[HEADER_SIZE..size];
      var d := Dispatch(reply, m.sock.input[..size]);
      HeardOne(About(m.watch, user), d, user);
      NoNews(d, About(m.watch, user), user);
      if reply {
        SameHushed(m, m.(tickets := Answered(m.tickets, h, body)));
        ConsumedReported(m, m.(tickets := Answered(m.tickets, h, body)), size, true, user);
      } else if LowByte(h.kind) == HANDSHAKE_RESPONSE {
        PacketInts(m.sock.input, size);
        HandshakeHeard(m, h, m.sock.input[..size]);
        SameHushed(m, HandleHandshake(m, h, m.sock.input[..size]));
        ConsumedReported(m, HandleHandshake(m, h, m.sock.input[..size]), size, false, user);
      } else if Drops(m, h) {
        LostReported(m, Send(m.(vsn := NextVSN(m.vsn)), Accepting(m, h)), user);
        DropsLoses(m, h, body);
      } else {
        PacketHeard(m, h, size, user);
        PacketHushed(m, h, body);
        ConsumedReported(m, HandlePacket(m, h, body), size, false, user);
      }
  }

  lemma NoNews(d: Dispatch, known: Option<Presence>, user: bytes)
    ensures d.reply || (|d.packet| > 0 && d.packet[0] == 0x0A) ==> Heard(known, d, user) == known
  {
  }

  lemma SameHushed(m: Mgr, n: Mgr)
    requires Hushed(m) && n.watch.presence == m.watch.presence && n.watch.pendingAdds == m.watch.pendingAdds
    requires n.session.phase.PhaseIdle? ==> m.session.phase.PhaseIdle? && n.watch.changed == m.watch.changed
    ensures Hushed(n)
  {
    assert forall u :: KnownOnline(n.watch, u) == KnownOnline(m.watch, u);
  }

  /** A handled packet is consumed and logged. */
  lemma ConsumedReported(m: Mgr, n: Mgr, size: nat, reply: bool, user: bytes)
    requires size <= |m.sock.input| && n.sock.input == m.sock.input && n.log == m.log
    requires Hushed(n) && !n.session.phase.PhaseIdle?
    requires var d := Dispatch(reply, m.sock.input[..size]);
             About(n.watch, user) == Heard(About(m.watch, user), d, user)
    ensures var r := Client.Consumed(n, reply, size);
            Reported(m, r, user) && Hushed(r) && r.session == n.session
  {
    hide Heard, HeardAll;
    var d := Dispatch(reply, m.sock.input[..size]);
    HeardOne(About(m.watch, user), d, user);
    assert (m.log + [d])[|m.log|..] == [d];
  }

  lemma DropsLoses(m: Mgr, h: Header, body: bytes)
    requires Drops(m, h)
    ensures HandlePacket(m, h, body) == ConnectionLost(Send(m.(vsn := NextVSN(m.vsn)), Accepting(m, h)))
  {
    hide Send, ConnectionLost;
  }

  lemma PacketHushed(m: Mgr, h: Header, body: bytes)
    requires Hushed(m) && !m.session.phase.PhaseIdle? && !Drops(m, h)
    ensures Hushed(HandlePacket(m, h, body)) && HandlePacket(m, h, body).session == m.session
  {
    hide ParseUser, ParseMessage, WriteSock, Build, Spool.SpoolPray, LowByte, Update;
    UpdateHushed(m.watch, Uin(h.c, h.d), h.e != 0, []);
    if ParseUser(body).Some? {
      UpdateHushed(m.watch, ParseUser(body).value.uin, LowByte(h.kind) == USER_ONLINE, ParseUser(body).value.nickName);
    }
  }

  lemma LostReported(m: Mgr, n: Mgr, user: bytes)
    requires n.watch == m.watch && n.log == m.log
    ensures Reported(m, ConnectionLost(n), user) && Hushed(ConnectionLost(n))
    ensures Reported(m, Disconnect(n), user) && Hushed(Disconnect(n))
    ensures ConnectionLost(n).session.phase.PhaseIdle?
    ensures Rests(m, ConnectionLost(n)) && Rests(m, Disconnect(n))
  {
    assert m.log[|m.log|..] == [];
  }

  lemma {:induction false} ProcessReported(m: Mgr, user: bytes)
    requires Hushed(m) && !m.session.phase.PhaseIdle?
    ensures Reported(m, Process(m), user) && Hushed(Process(m))
    decreases |m.sock.input|
  {
    hide Hushed, Reported, Step;
    StepReported(m, user);
    if Step(m).Continue? {
      var n := Step(m).m;
      ProcessReported(n, user);
      ReportedOn(m, n, Process(n), user);
    }
  }

  // ---- a pump ----

  lemma LoginWatch(m: Mgr)
    requires UnderWay(m)
    ensures LoginStep(m).watch == m.watch && LoginStep(m).log == m.log && !LoginStep(m).session.phase.PhaseIdle?
    ensures LoginStep(m).session.phase.PhaseOnline? ==> m.session.phase.PhaseOnline?
  {
    hide PollSock, WriteSock, Build, NextTicket;
  }

  /** Only the connection, the clock's verdict or the phase, short of idle, changed. */
  lemma PhaseReported(m: Mgr, n: Mgr, r: Mgr, user: bytes)
    requires Reported(m, n, user) && Hushed(n) && r.watch == n.watch && r.log == n.log
    requires r.session.phase.PhaseIdle? <==> n.session.phase.PhaseIdle?
    ensures Reported(m, r, user) && Hushed(r)
  {
    hide HeardAll;
  }

  lemma PumpReported(m: Mgr, user: bytes)
    requires Hushed(m)
    ensures Reported(m, Pump(m), user) && Hushed(Pump(m)) && Rests(m, Pump(m))
  {
    hide Hushed, Reported, Process, PumpSock, LoginStep, TimeAfter, ConnectionLost;
    SameReported(m, m, user);
    if UnderWay(m) {
      var l := LoginStep(m);
      LoginWatch(m);
      PhaseReported(m, m, l, user);
      if l.session.phase.PhaseAwait? {
        var n := l.(sock := PumpSock(l.sock));
        PhaseReported(m, l, n, user);
        ProcessReported(n, user);
        ReportedOn(m, n, Process(n), user);
      }
      PhaseReported(m, if l.session.phase.PhaseAwait? then Process(l.(sock := PumpSock(l.sock))) else l,
                    AwaitStep(l), user);
      PhaseReported(m, AwaitStep(l), Pump(m), user);
    } else if m.session.phase.PhaseOnline? {
      var n := m.(sock := PumpSock(m.sock));
      PhaseReported(m, m, n, user);
      ProcessReported(n, user);
      ReportedOn(m, n, Process(n), user);
      LostReported(Process(n), Process(n), user);
      if Process(n).session.phase.PhaseOnline? {
        ReportedOn(m, Process(n), ConnectionLost(Process(n)), user);
      }
    }
  }

  // ---- acts, calls and runs ----

  lemma ConnectReported(m: Mgr, users: seq<bytes>, user: bytes)
    requires Hushed(m)
    ensures Reported(m, ConnectInBackground(m, users), user) && Hushed(ConnectInBackground(m, users))
  {
    hide Hushed, Reported, Pump, PumpConnectPhase, BeginSock;
    var r := ConnectInBackground(m, users);
    SameReported(m, m, user);
    if StartsConnection(m) {
      SameReported(m, r, user);
      SameHushed(m, r);
    } else if UnderWay(m) {
      PumpIs(m);
      PumpReported(m, user);
    }
  }

  /** Acts that change nothing held about users. */
  lemma QuietAct(m: Mgr, act: Act)
    requires Hushed(m) && Proper(m, act) && !act.Unwatches? && !act.Remembers?
    requires !act.Pumps? && !act.Connects? && !act.Disconnects? && !act.Loses?
    ensures Hushed(Perform(m, act)) && Perform(m, act).log == m.log
    ensures Perform(m, act).watch.presence == m.watch.presence
    ensures Perform(m, act).session.phase == m.session.phase
  {
    hide Start, Abandon, AfterPoll, WriteSock, Build, NowMs, Deadline;
    var r := Perform(m, act);
    assert forall u :: KnownOnline(r.watch, u) == KnownOnline(m.watch, u);
  }

  lemma ActReported(m: Mgr, act: Act, user: bytes)
    requires Hushed(m) && Proper(m, act) && !act.Unwatches? && !act.Remembers?
    ensures Reported(m, Perform(m, act), user) && Hushed(Perform(m, act))
    ensures !act.Connects? ==> Rests(m, Perform(m, act))
  {
    hide Hushed, Reported, Pump, ConnectInBackground, Proper, Send, RemoveFromWWR, FinishAdd, AfterNext, NowMs,
         Deadline, Start, Abandon, AfterPoll, ConnectionLost, Disconnect;
    match act
    case Pumps => PumpReported(m, user);
    case Connects(users) => ConnectReported(m, users, user);
    case Disconnects => LostReported(m, m, user);
    case Loses => LostReported(m, m, user);
    case _ =>
      QuietAct(m, act);
      SameReported(m, Perform(m, act), user);
  }

  /** No watched user is given up in it. */
  predicate Unwatchful(s: Script) {
    s.Then? ==> !s.act.Unwatches? && Unwatchful(s.rest)
  }

  lemma {:induction false} ScriptReported(m: Mgr, s: Script, user: bytes)
    requires Hushed(m) && AllProper(m, s) && Silent(s) && Unwatchful(s) && Inner(s)
    ensures Reported(m, Play(m, s), user) && Hushed(Play(m, s)) && Rests(m, Play(m, s))
    decreases s
  {
    hide Hushed, Reported, Perform, Proper;
    SameReported(m, m, user);
    if s.Then? {
      var n := Perform(m, s.act);
      ActReported(m, s.act, user);
      ScriptReported(n, s.rest, user);
      ReportedOn(m, n, Play(n, s.rest), user);
    }
  }

  lemma {:induction false} SimpleUnwatchful(m: Mgr, s: Script, user: bytes, clean: bool)
    requires Simple(s) || FinishesOnly(m, s, user, clean)
    ensures Unwatchful(s)
    decreases s
  {
    hide Perform;
    if s.Then? {
      SimpleUnwatchful(Perform(m, s.act), s.rest, user, clean);
    }
  }

  lemma OneActReported(m: Mgr, call: Call, user: bytes)
    requires Hushed(m)
    requires call.Host? || call.CallConnect? || call.CallSetUser? || call.CallSetDirectories?
             || call.CallNextChangedUser? || call.CallGetMessages?
    ensures Reported(m, Do(m, call), user) && Hushed(Do(m, call))
  {
    hide Hushed, Reported, Pump, ConnectInBackground, Perform;
    if call.CallGetMessages? {
      PumpReported(m, user);
      PhaseReported(m, Pump(m), Do(m, call), user);
    } else {
      ActReported(m, ActOf(m, call), user);
      OneActIs(m, call);
    }
  }

  lemma OneActIs(m: Mgr, call: Call)
    requires call.Host? || call.CallConnect? || call.CallSetUser? || call.CallSetDirectories?
             || call.CallNextChangedUser?
    ensures Do(m, call) == Perform(m, ActOf(m, call))
  {
    hide ConnectInBackground, NextChanged, AfterNext;
  }

  /** A call but the two that unwatch a user or remember a name. */
  lemma CallReported(m: Mgr, call: Call, user: bytes)
    requires Hushed(m) && !call.CallRemoveFromWWR? && !call.CallFetchUserData?
    ensures Reported(m, Do(m, call), user) && Hushed(Do(m, call))
  {
    hide Hushed, Reported, Do, ScriptOf, AllProper, Play, Silent, Unwatchful, Inner, Simple, FinishesOnly, IsOnline;
    if call.Host? || call.CallConnect? || Converses(call) {
      OneActReported(m, call, user);
    } else {
      var s := ScriptOf(m, call);
      CallLeads(m, call);
      CallIsSilent(m, call);
      if call.CallAddToWWR? {
        SimpleUnwatchful(m, s, call.user, IsOnline(m) || call.user !in m.watch.pendingAdds);
      } else {
        SimpleUnwatchful(m, s, user, true);
      }
      ScriptReported(m, s, user);
    }
  }

  lemma RemoveReported(m: Mgr, owner: bytes, user: bytes)
    requires Hushed(m)
    ensures var r := RemoveFromWWR(m, owner);
            && Hushed(r) && r.log == m.log && r.session == m.session
            && About(r.watch, user) == if user == owner then None else About(m.watch, user)
  {
    hide Parse, WriteSock, Build;
    var r := RemoveFromWWR(m, owner);
    assert forall u :: KnownOnline(r.watch, u) ==> KnownOnline(m.watch, u);
  }

  /** A name fetched is remembered for the user it was fetched for. */
  function Named(known: Option<Presence>, nickName: bytes): Option<Presence> {
    if known.Some? && nickName != [] then Some(known.value.(nickName := nickName)) else known
  }

  /** Being asked a name does not change what is held but by the name returned. */
  lemma FetchReported(m: Mgr, owner: bytes, user: bytes)
    requires Hushed(m)
    ensures var c := FetchUserData(m, owner);
            && Hushed(c.m) && m.log <= c.m.log
            && About(c.m.watch, user) ==
               var heard := HeardAll(About(m.watch, user), c.m.log[|m.log|..], user);
               var known := if c.m.session.phase.PhaseIdle? then Offline(heard) else heard;
               if user == owner then Named(known, c.value) else known
  {
    hide Reported, Hushed, Parse, Pump, Start, WriteSock, Build, Abandon, AfterPoll, Poll, TimeAfter, NowMs, Deadline,
         HeardAll;
    SameReported(m, m, user);
    PumpReported(m, user);
    FetchIs(m, owner);
    var c := FetchUserData(m, owner);
    var p := if c.m.log == m.log && c.m.watch == m.watch && c.m.session == m.session && c.value == [] then m
             else Pump(m);
    NamedHushed(p, c.m, owner, c.value);
    assert Reported(m, p, user);
    ReportedIs(m, p, user);
  }

  lemma ReportedIs(m: Mgr, r: Mgr, user: bytes)
    requires Reported(m, r, user)
    ensures m.log <= r.log
    ensures About(r.watch, user) ==
            var heard := HeardAll(About(m.watch, user), r.log[|m.log|..], user);
            if r.session.phase.PhaseIdle? then Offline(heard) else heard
  {
  }

  /** FetchUserData leaves the register as it is, or as a pump leaves it, but for the name it returns. */
  lemma FetchIs(m: Mgr, owner: bytes)
    ensures var c := FetchUserData(m, owner);
            || (c.m.watch == m.watch && c.m.log == m.log && c.m.session == m.session && c.value == []
                && c.m.handed == m.handed)
            || (c.m.watch == Remember(Pump(m), owner, c.value).watch && c.m.log == Pump(m).log
                && c.m.session == Pump(m).session && c.m.handed == Pump(m).handed)
  {
    hide Parse, Pump, Start, WriteSock, Build, Abandon, AfterPoll, Poll, TimeAfter, NowMs, Deadline;
  }

  lemma NamedHushed(p: Mgr, r: Mgr, owner: bytes, nickName: bytes)
    requires Hushed(p) && r.session == p.session && r.watch == Remember(p, owner, nickName).watch
    ensures Hushed(r)
    ensures forall u ::
              About(r.watch, u) == if u == owner then Named(About(p.watch, u), nickName) else About(p.watch, u)
  {
    assert forall u :: KnownOnline(r.watch, u) == KnownOnline(p.watch, u);
  }

  /** What is to be held about a user after a run: each call adds what the packets it dispatched say, a connection
      lost or given up takes the user offline, unwatching forgets them, and a name returned for them is kept. */
  function Known(m: Mgr, calls: seq<Call>, user: bytes, before: Option<Presence>): Option<Presence>
    decreases |calls|
  {
    if calls == [] then before
    else
      var r := Do(m, calls[0]);
      if |r.log| < |m.log| then None
      else
        var heard := HeardAll(before, r.log[|m.log|..], user);
        var known := if r.session.phase.PhaseIdle? then Offline(heard) else heard;
        Known(r, calls[1..], user,
              if calls[0] == CallRemoveFromWWR(user) then None
              else if calls[0] == CallFetchUserData(user) then Named(known, FetchUserData(m, user).value)
              else known)
  }

  lemma DoKnown(m: Mgr, call: Call, user: bytes)
    requires Hushed(m)
    ensures Hushed(Do(m, call)) && m.log <= Do(m, call).log
    ensures About(Do(m, call).watch, user) == Known(m, [call], user, About(m.watch, user))
  {
    hide Hushed, HeardAll, Do, RemoveFromWWR, FetchUserData;
    var r := Do(m, call);
    match call
    case CallRemoveFromWWR(owner) =>
      DoIs(m, call);
      RemoveReported(m, owner, user);
      SameReported(m, m, user);
      assert r.log[|m.log|..] == m.log[|m.log|..];
    case CallFetchUserData(owner) =>
      DoIs(m, call);
      FetchReported(m, owner, user);
    case _ =>
      CallReported(m, call, user);
  }

  lemma DoIs(m: Mgr, call: Call)
    ensures call.CallRemoveFromWWR? ==> Do(m, call) == RemoveFromWWR(m, call.user)
    ensures call.CallFetchUserData? ==> Do(m, call) == FetchUserData(m, call.user).m
  {
    hide RemoveFromWWR, FetchUserData;
  }

  /** Over any run, what is held about any user is exactly that. */
  lemma {:induction false} PresenceOverRuns(m: Mgr, calls: seq<Call>, user: bytes)
    requires Hushed(m)
    ensures Hushed(DoAll(m, calls))
    ensures About(DoAll(m, calls).watch, user) == Known(m, calls, user, About(m.watch, user))
    decreases |calls|
  {
    hide Hushed, Do, HeardAll;
    if calls != [] {
      DoKnown(m, calls[0], user);
      PresenceOverRuns(Do(m, calls[0]), calls[1..], user);
      assert [calls[0]][0] == calls[0] && [calls[0]][1..] == [];
    }
  }

  // ---- the last word ----

  /** The connection outlasts every call of the run, and the user is not unwatched in it. */
  predicate Undisturbed(m: Mgr, calls: seq<Call>, user: bytes)
    decreases |calls|
  {
    calls != [] ==>
      && !Do(m, calls[0]).session.phase.PhaseIdle? && calls[0] != CallRemoveFromWWR(user)
      && Undisturbed(Do(m, calls[0]), calls[1..], user)
  }

  lemma NamedKeepsState(known: Option<Presence>, nickName: bytes)
    ensures Named(known, nickName).Some? <==> known.Some?
    ensures known.Some? ==> Named(known, nickName).value.online == known.value.online
  {
  }

  /** So, since the connection was last lost or the user unwatched, a user counts as online exactly if the last
      packet dispatched about them said so; before the first such packet, as before. */
  lemma {:induction false} LastWordCounts(m: Mgr, calls: seq<Call>, user: bytes)
    requires Hushed(m) && Undisturbed(m, calls, user)
    ensures m.log <= DoAll(m, calls).log
    ensures KnownOnline(DoAll(m, calls).watch, user) ==
            match LastSaid(DoAll(m, calls).log[|m.log|..], user)
            case Some(online) => online
            case None => KnownOnline(m.watch, user)
    decreases |calls|
  {
    hide Hushed, Do, HeardAll, NewsIn;
    if calls == [] {
      assert m.log[|m.log|..] == [];
    } else {
      var n, r := Do(m, calls[0]), DoAll(m, calls);
      CallsWord(m, calls[0], user);
      LastWordCounts(n, calls[1..], user);
      assert r.log[|m.log|..] == n.log[|m.log|..] + r.log[|n.log|..];
      LastSaidConcat(n.log[|m.log|..], r.log[|n.log|..], user);
    }
  }

  lemma CallsWord(m: Mgr, call: Call, user: bytes)
    requires Hushed(m) && !Do(m, call).session.phase.PhaseIdle? && call != CallRemoveFromWWR(user)
    ensures Hushed(Do(m, call)) && m.log <= Do(m, call).log
    ensures KnownOnline(Do(m, call).watch, user) ==
            match LastSaid(Do(m, call).log[|m.log|..], user)
            case Some(online) => online
            case None => KnownOnline(m.watch, user)
  {
    hide Hushed, Do, HeardAll, LastSaid, FetchUserData;
    var n := Do(m, call);
    DoKnown(m, call, user);
    assert [call][0] == call && [call][1..] == [];
    HeardIsLastSaid(About(m.watch, user), n.log[|m.log|..], user);
    NamedKeepsState(HeardAll(About(m.watch, user), n.log[|m.log|..], user), FetchUserData(m, user).value);
  }

  lemma {:induction false} LastSaidConcat(a: seq<Dispatch>, b: seq<Dispatch>, user: bytes)
    ensures LastSaid(a + b, user) == if LastSaid(b, user).Some? then LastSaid(b, user) else LastSaid(a, user)
    decreases |b|
  {
    hide NewsIn;
    if b == [] {
      assert a + b == a;
    } else {
      assert (a + b)[..|a + b| - 1] == a + b[..|b| - 1];
      LastSaidConcat(a, b[..|b| - 1], user);
    }
  }

  // ---- AddToWWR waits for the first word ----

  /** AddToWWR asks to be called again exactly while the user is waited for, which is only ever until something is
      heard of them. */
  lemma AddWaits(m: Mgr, user: bytes)
    requires Hushed(m)
    ensures var c := AddToWWR(m, user);
            && (c.block <==> Parse(user).Some? && IsOnline(m) && user in c.m.watch.pendingAdds)
            && (c.block ==> user !in c.m.watch.presence && user in c.m.watch.adding)
            && (Parse(user).Some? && !c.block ==> user !in c.m.watch.adding)
  {
    hide Parse, Pump, WriteSock, Build, TimeAfter, NowMs, Deadline, Synced, Hushed;
    var b := Watched(m, BeginAdd(m.watch, user));
    SameHushed(m, b);
    PumpReported(b, user);
    PumpKeepsAdding(b);
    StillWaited(Pump(b), user);
  }

  lemma StillWaited(m: Mgr, user: bytes)
    requires Hushed(m)
    ensures user in m.watch.pendingAdds ==> user !in m.watch.presence
  {
  }

  /** The user is waited for, or something was heard of them. */
  predicate Tracked(w: Watch, user: bytes) {
    user in w.pendingAdds || user in w.presence
  }

  lemma UpdateTracks(w: Watch, uin: Uin, online: bool, nickName: bytes, user: bytes)
    requires Tracked(w, user)
    ensures Tracked(Update(w, uin, online, nickName), user)
  {
    hide Uin.ToString, Synced;
  }

  lemma PacketTracks(m: Mgr, h: Header, body: bytes, user: bytes)
    requires Tracked(m.watch, user) && !Drops(m, h)
    ensures Tracked(HandlePacket(m, h, body).watch, user)
  {
    hide Tracked, ParseUser, ParseMessage, WriteSock, Build, Spool.SpoolPray, LowByte, Update;
    UpdateTracks(m.watch, Uin(h.c, h.d), h.e != 0, [], user);
    if ParseUser(body).Some? {
      UpdateTracks(m.watch, ParseUser(body).value.uin, LowByte(h.kind) == USER_ONLINE,
                   ParseUser(body).value.nickName, user);
    }
  }

  lemma StepTracks(m: Mgr, user: bytes)
    requires Tracked(m.watch, user) && !m.session.phase.PhaseIdle?
    ensures !Step(m).Dropped? ==> Tracked(AfterStep(m).watch, user)
  {
    hide Frame, Answered, HandleHandshake, HandlePacket, Drops, ReadHeader, LowByte;
    match Frame(m.sock.input, m.tickets.table)
    case Whole(size, reply) =>
      var h := ReadHeader(m.sock.input);
      HandshakeHeard(m, h, m.sock.input[..size]);
      if !Drops(m, h) {
        PacketTracks(m, h, m.sock.input[HEADER_SIZE..size], user);
      }
    case _ =>
  }

  lemma {:induction false} ProcessTracks(m: Mgr, user: bytes)
    requires Hushed(m) && !m.session.phase.PhaseIdle? && Tracked(m.watch, user)
    ensures !Process(m).session.phase.PhaseIdle? ==> Tracked(Process(m).watch, user)
    decreases |m.sock.input|
  {
    hide Hushed, Step, Tracked;
    StepTracks(m, user);
    StepReported(m, user);
    if Step(m).Continue? {
      ProcessTracks(Step(m).m, user);
    }
  }

  /** AddToWWR gives a user up only when the time is up, unless something was heard of them or the connection went. */
  lemma AddIsPatient(m: Mgr, user: bytes)
    requires Hushed(m) && Parse(user).Some? && IsOnline(m) && user in m.watch.pendingAdds
    ensures var c := AddToWWR(m, user);
            !c.block && IsOnline(c.m) && user !in c.m.watch.presence ==>
              TimeAfter(NowMs(m.clock), m.watch.pendingAdds[user])
  {
    hide Hushed, Parse, Process, PumpSock, TimeAfter, NowMs, FinishAdd, Tracked, AllOffline, CloseSock;
    var b := Watched(m, BeginAdd(m.watch, user));
    var n := b.(sock := PumpSock(b.sock));
    SameHushed(m, n);
    TracksIs(n.watch, user);
    ProcessTracks(n, user);
    Timing.PumpAdds(b);
    TracksIs(Pump(b).watch, user);
    FinishHeard(Pump(b).watch, user);
  }

  lemma TracksIs(w: Watch, user: bytes)
    ensures Tracked(w, user) <==> user in w.pendingAdds || user in w.presence
  {
  }

  lemma FinishHeard(w: Watch, user: bytes)
    ensures FinishAdd(w, user).presence == w.presence
    ensures FinishAdd(w.(pendingAdds := w.pendingAdds - {user}), user).presence == w.presence
  {
  }
}
