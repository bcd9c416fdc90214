/** No presence change is lost, over any run in which nobody leaves a pending AddToWWR behind. */
module PresenceRuns {
  import opened Bytes
  import opened Uins
  import opened Protocol
  import opened Sockets
  import opened Clock
  import opened Tickets
  import opened Watching
  import opened Client
  import opened Connection
  import opened Api
  import opened Sound
  import opened Acts
  import opened LockStepRun

  /** Nothing of the user's is swallowed, and no add of theirs was left behind. */
  predicate Tidy(w: Watch, user: bytes) {
    user !in w.missed && (user in w.pendingAdds ==> user in w.adding)
  }

  /** A login that starts to watch the user finds them unknown or offline; or it does not start to. */
  predicate LoginSpares(w: Watch, user: bytes) {
    user in w.usersForWWR ==> user in w.members || user in w.adding || user in w.changed || !KnownOnline(w, user)
  }

  predicate LoginsSpare(m: Mgr, user: bytes)
    decreases |m.sock.input|
  {
    (AcceptedNow(m) ==> LoginSpares(m.watch, user)) && (Step(m).Continue? ==> LoginsSpare(Step(m).m, user))
  }

  predicate PumpSpares(m: Mgr, user: bytes) {
    ProcessedBy(m).Some? ==> LoginsSpare(ProcessedBy(m).value, user)
  }

  predicate ActSpares(m: Mgr, act: Act, user: bytes) {
    && (act == FinishesAdd(user) ==> user !in m.watch.pendingAdds)
    && (act.Pumps? || (act.Connects? && UnderWay(m)) ==> PumpSpares(m, user))
  }

  predicate ScriptSpares(m: Mgr, s: Script, user: bytes)
    decreases s
  {
    s.Then? ==> ActSpares(m, s.act, user) && ScriptSpares(Perform(m, s.act), s.rest, user)
  }

  /** In this run no AddToWWR of the user answers while its entry stays behind, and every login spares them. */
  predicate RunSpares(m: Mgr, calls: seq<Call>, user: bytes)
    decreases |calls|
  {
    calls != [] ==> ScriptSpares(m, ScriptOf(m, calls[0]), user) && RunSpares(Do(m, calls[0]), calls[1..], user)
  }

  // ---- a pump ----

  lemma {:induction false} RegistrationsTidy(m: Mgr, users: seq<bytes>, user: bytes)
    requires Tidy(m.watch, user)
    requires user in users ==>
               user in m.watch.members || user in m.watch.adding || user in m.watch.changed
               || !KnownOnline(m.watch, user)
    ensures Tidy(SendRegistrations(m, users).watch, user)
    decreases |users|
  {
    hide Parse, WriteSock, Build;
    if users != [] && Parse(users[0]).None? {
      RegistrationsTidy(m, users[1..], user);
    } else if users != [] {
      var r := m.(watch := Register(m.watch, users[0]));
      assert user == users[0] ==> user in users;
      RegistrationsTidy(Send(r, WwrModify(true, m.session.server, Parse(users[0]).value)), users[1..], user);
    }
  }

  lemma UpdateTidy(w: Watch, uin: Uin, online: bool, nickName: bytes, user: bytes)
    requires Tidy(w, user)
    ensures Tidy(Update(w, uin, online, nickName), user)
  {
    hide Uin.ToString;
  }

  lemma LoginTidy(m: Mgr, h: Header, raw: bytes, user: bytes)
    requires Tidy(m.watch, user) && LoginSpares(m.watch, user)
    ensures Tidy(LoggedIn(m, h, raw).watch, user)
  {
    hide SendRegistrations, ServerList.Announced;
    RegistrationsTidy(Entered(m, h, raw), m.watch.usersForWWR, user);
  }

  lemma StepTidy(m: Mgr, user: bytes)
    requires Tidy(m.watch, user) && (AcceptedNow(m) ==> LoginSpares(m.watch, user))
    ensures Tidy(AfterStep(m).watch, user)
  {
    hide Frame, Answered, ReadHeader, LowByte, Accepts, WriteSock, Build, ParseMessage, ParseUser, Spool.SpoolPray,
         LoggedIn, Update, LoginSpares;
    match Frame(m.sock.input, m.tickets.table)
    case Whole(size, reply) =>
      var h, raw, body := ReadHeader(m.sock.input), m.sock.input[..size], m.sock.input[HEADER_SIZE..size];
      if AcceptedNow(m) {
        LoginTidy(m, h, raw, user);
      }
      PacketTidy(m, h, body, user);
    case _ =>
  }

  lemma PacketTidy(m: Mgr, h: Header, body: bytes, user: bytes)
    requires Tidy(m.watch, user)
    ensures Tidy(HandlePacket(m, h, body).watch, user)
  {
    hide LowByte, WriteSock, Build, ParseMessage, ParseUser, Spool.SpoolPray, Update;
    if ParseUser(body).Some? {
      var u := ParseUser(body).value;
      UpdateTidy(m.watch, u.uin, LowByte(h.kind) == USER_ONLINE, u.nickName, user);
    }
    UpdateTidy(m.watch, Uin(h.c, h.d), h.e != 0, [], user);
  }

  lemma {:induction false} ProcessTidy(m: Mgr, user: bytes)
    requires Tidy(m.watch, user) && LoginsSpare(m, user)
    ensures Tidy(Process(m).watch, user)
    decreases |m.sock.input|
  {
    hide Step, Tidy, AcceptedNow, LoginSpares;
    StepTidy(m, user);
    if Step(m).Continue? {
      ProcessTidy(Step(m).m, user);
    }
  }

  /** A pump is what ProcessInput makes of what it is given, if it runs; the connection may be lost after it. */
  lemma PumpIsProcess(m: Mgr)
    ensures var w := Pump(m).watch;
            if ProcessedBy(m).None? then w == m.watch
            else
              var p := ProcessedBy(m).value;
              p.watch == m.watch && (w == Process(p).watch || w == AllOffline(Process(p).watch))
  {
    hide Process, PumpSock, TimeAfter, LoginStep, AllOffline;
    LoginAdding(m);
  }

  lemma PumpTidy(m: Mgr, user: bytes)
    requires Tidy(m.watch, user) && PumpSpares(m, user)
    ensures Tidy(Pump(m).watch, user)
  {
    hide Pump, ProcessedBy, Process, LoginsSpare;
    PumpIsProcess(m);
    if ProcessedBy(m).Some? {
      ProcessTidy(ProcessedBy(m).value, user);
    }
  }

  // ---- acts, scripts, runs ----

  lemma ActTidy(m: Mgr, act: Act, user: bytes)
    requires Tidy(m.watch, user) && ActSpares(m, act, user) && Proper(m, act)
    ensures Tidy(Perform(m, act).watch, user)
  {
    hide Pump, PumpConnectPhase, PumpSpares, WriteSock, Build, BeginSock, Start, Abandon, AfterPoll;
    match act
    case Pumps => PumpTidy(m, user);
    case Connects(users) =>
      if UnderWay(m) {
        PumpIs(m);
        PumpTidy(m, user);
      }
    case _ =>
  }

  lemma {:induction false} ScriptTidy(m: Mgr, s: Script, user: bytes)
    requires Tidy(m.watch, user) && ScriptSpares(m, s, user) && AllProper(m, s)
    ensures Tidy(Play(m, s).watch, user)
    decreases s
  {
    hide Tidy, ActSpares, Proper, Perform;
    if s.Then? {
      ActTidy(m, s.act, user);
      ScriptTidy(Perform(m, s.act), s.rest, user);
    }
  }

  lemma {:induction false} RunTidy(m: Mgr, calls: seq<Call>, user: bytes)
    requires Tidy(m.watch, user) && RunSpares(m, calls, user)
    ensures Tidy(DoAll(m, calls).watch, user)
    decreases |calls|
  {
    hide Tidy, ScriptOf, Do, ScriptSpares, AllProper, Play;
    if calls != [] {
      CallLeads(m, calls[0]);
      ScriptTidy(m, ScriptOf(m, calls[0]), user);
      RunTidy(Do(m, calls[0]), calls[1..], user);
    }
  }

  /** Over such a run the queue holds nobody twice, and draining it tells the game the state of the user, if
      they are watched and not being added. */
  lemma NoLostChanges(m: Mgr, calls: seq<Call>, user: bytes)
    requires Core(m) && Tidy(m.watch, user) && RunSpares(m, calls, user)
    ensures var w := DoAll(m, calls).watch;
            && NoDuplicates(w.changed) && Drain(w).changed == []
            && (user in w.members && user !in w.adding ==> (user in Drain(w).seen <==> KnownOnline(w, user)))
  {
    hide DoAll, RunSpares;
    RunCore(m, calls);
    RunTidy(m, calls, user);
    DrainedIsCurrent(DoAll(m, calls).watch);
  }

  // ---- what the game can do to be sure of it ----

  /** Calls that spare the user: AddToWWR is not called offline while they are waited for; a list handed to
      ConnectInBackground has only users already watched as far as they are concerned; and they are not
      unwatched while such a list waits for the login. */
  predicate CallSpares(m: Mgr, call: Call, user: bytes) {
    && (call == CallAddToWWR(user) ==> IsOnline(m) || user !in m.watch.pendingAdds)
    && (call.CallConnect? && user in call.users ==> user in m.watch.members)
    && (call == CallRemoveFromWWR(user) ==> user !in m.watch.usersForWWR)
  }

  predicate CallsSpare(m: Mgr, calls: seq<Call>, user: bytes)
    decreases |calls|
  {
    calls != [] ==> CallSpares(m, calls[0], user) && CallsSpare(Do(m, calls[0]), calls[1..], user)
  }

  /** Nobody is waiting to be watched by the next login but users watched already. */
  predicate Listed(w: Watch, user: bytes) {
    user in w.usersForWWR ==> user in w.members
  }

  lemma {:induction false} RegistrationsListed(m: Mgr, users: seq<bytes>)
    ensures SendRegistrations(m, users).watch.usersForWWR == m.watch.usersForWWR
    decreases |users|
  {
    hide Parse, WriteSock, Build, Synced;
    if users != [] {
      RegistrationsListed(m, users[1..]);
      if Parse(users[0]).Some? {
        RegistrationsListed(Send(m.(watch := Register(m.watch, users[0])),
                                 WwrModify(true, m.session.server, Parse(users[0]).value)), users[1..]);
      }
    }
  }

  lemma HandshakeListed(m: Mgr, h: Header, raw: bytes)
    requires |raw| > 1
    ensures HandleHandshake(m, h, raw).watch.usersForWWR in {m.watch.usersForWWR, []}
  {
    hide SendRegistrations, ServerList.Announced, MapHandshakeError;
    RegistrationsListed(Entered(m, h, raw), m.watch.usersForWWR);
  }

  lemma StepListed(m: Mgr)
    ensures AfterStep(m).watch.usersForWWR in {m.watch.usersForWWR, []}
  {
    hide Frame, Answered, ReadHeader, LowByte, Accepts, WriteSock, Build, ParseMessage, ParseUser, HandleHandshake,
         Spool.SpoolPray, Uin.ToString, Synced;
    match Frame(m.sock.input, m.tickets.table)
    case Whole(size, reply) => HandshakeListed(m, ReadHeader(m.sock.input), m.sock.input[..size]);
    case _ =>
  }

  lemma {:induction false} ProcessListed(m: Mgr, user: bytes)
    requires Listed(m.watch, user)
    ensures LoginsSpare(m, user) && Listed(Process(m).watch, user)
    decreases |m.sock.input|
  {
    hide Step, AcceptedNow;
    StepListed(m);
    StepAdding(m);
    if Step(m).Continue? {
      ProcessListed(Step(m).m, user);
    }
  }

  lemma PumpListed(m: Mgr, user: bytes)
    requires Listed(m.watch, user)
    ensures PumpSpares(m, user) && Listed(Pump(m).watch, user)
  {
    hide Pump, ProcessedBy, Process, LoginsSpare;
    PumpIsProcess(m);
    if ProcessedBy(m).Some? {
      ProcessListed(ProcessedBy(m).value, user);
    }
  }

  lemma ActListed(m: Mgr, act: Act, user: bytes)
    requires Listed(m.watch, user) && (act == Unwatches(user) ==> user !in m.watch.usersForWWR)
    requires act.Connects? && user in act.users ==> user in m.watch.members
    ensures Listed(Perform(m, act).watch, user)
    ensures act.Pumps? || (act.Connects? && UnderWay(m)) ==> PumpSpares(m, user)
  {
    hide Pump, ConnectInBackground, PumpSpares, WriteSock, Build, Start, Abandon, AfterPoll;
    match act
    case Pumps => PumpListed(m, user);
    case Connects(users) => ConnectListed(m, users, user);
    case _ =>
  }

  lemma ConnectListed(m: Mgr, users: seq<bytes>, user: bytes)
    requires Listed(m.watch, user) && (user in users ==> user in m.watch.members)
    ensures Listed(ConnectInBackground(m, users).watch, user)
    ensures UnderWay(m) ==> PumpSpares(m, user)
  {
    hide Pump, PumpConnectPhase, PumpSpares, BeginSock;
    if UnderWay(m) {
      PumpIs(m);
      PumpListed(m, user);
    }
  }

  lemma {:induction false} ScriptListed(m: Mgr, s: Script, user: bytes, owner: bytes, clean: bool)
    requires Listed(m.watch, user) && Inner(s)
    requires Simple(s) || (FinishesOnly(m, s, owner, clean) && (owner == user ==> clean))
    ensures ScriptSpares(m, s, user) && Listed(Play(m, s).watch, user)
    decreases s
  {
    hide Perform, PumpSpares, Listed;
    if s.Then? {
      ActListed(m, s.act, user);
      ScriptListed(Perform(m, s.act), s.rest, user, owner, clean);
    }
  }

  lemma CallListed(m: Mgr, call: Call, user: bytes)
    requires Listed(m.watch, user) && CallSpares(m, call, user)
    ensures ScriptSpares(m, ScriptOf(m, call), user) && Listed(Do(m, call).watch, user)
  {
    hide Perform, PumpSpares, Listed, Do, AddToWWRScript, IsOnline, Simple, Inner, FinishesOnly;
    var s := ScriptOf(m, call);
    CallLeads(m, call);
    if call.CallRemoveFromWWR? || call.Host? || call.CallConnect? {
      ActListed(m, s.act, user);
      var n := Perform(m, s.act);
      RestInner(s);
      ScriptListed(n, s.rest, user, user, true);
    } else {
      ScriptListed(m, s, user, if call.CallAddToWWR? then call.user else user,
                   call.CallAddToWWR? ==> IsOnline(m) || call.user !in m.watch.pendingAdds);
    }
  }

  lemma RestInner(s: Script)
    requires s.Then?
    ensures s.rest.Nil? ==> Inner(s.rest) && Simple(s.rest)
    ensures Inner(s) ==> Inner(s.rest)
  {
  }

  /** So the game need only mind its calls. */
  lemma {:induction false} CallsSpareRuns(m: Mgr, calls: seq<Call>, user: bytes)
    requires Listed(m.watch, user) && CallsSpare(m, calls, user)
    ensures RunSpares(m, calls, user)
    decreases |calls|
  {
    hide Listed, Do, CallSpares, ScriptSpares, ScriptOf;
    if calls != [] {
      CallListed(m, calls[0], user);
      CallsSpareRuns(Do(m, calls[0]), calls[1..], user);
    }
  }

  lemma NoLostChangesByCalls(m: Mgr, calls: seq<Call>, user: bytes)
    requires Core(m) && Tidy(m.watch, user) && Listed(m.watch, user) && CallsSpare(m, calls, user)
    ensures var w := DoAll(m, calls).watch;
            && NoDuplicates(w.changed) && Drain(w).changed == []
            && (user in w.members && user !in w.adding ==> (user in Drain(w).seen <==> KnownOnline(w, user)))
  {
    hide DoAll, RunSpares, CallsSpare, Core, Tidy, Listed;
    CallsSpareRuns(m, calls, user);
    NoLostChanges(m, calls, user);
  }

  // ---- spellings ----

  /** Every key of the presence table is the canonical spelling of an identity. */
  ghost predicate Spelled(w: Watch) {
    forall k | k in w.presence :: IsSpelling(k)
  }

  ghost predicate IsSpelling(key: bytes) {
    exists uin: Uin :: key == uin.ToString()
  }

  lemma UpdateSpelled(w: Watch, uin: Uin, online: bool, nickName: bytes)
    requires Spelled(w)
    ensures Spelled(Update(w, uin, online, nickName))
  {
    hide Uin.ToString;
    assert IsSpelling(uin.ToString());
  }

  lemma {:induction false} RegistrationsSpelled(m: Mgr, users: seq<bytes>)
    ensures SendRegistrations(m, users).watch.presence == m.watch.presence
    decreases |users|
  {
    hide Parse, WriteSock, Build, Synced;
    if users != [] {
      RegistrationsSpelled(m, users[1..]);
      if Parse(users[0]).Some? {
        var r := m.(watch := Register(m.watch, users[0]));
        RegistrationsSpelled(Send(r, WwrModify(true, m.session.server, Parse(users[0]).value)), users[1..]);
      }
    }
  }

  lemma HandshakeSpelled(m: Mgr, h: Header, raw: bytes)
    requires |raw| > 1
    ensures HandleHandshake(m, h, raw).watch.presence == m.watch.presence
  {
    hide SendRegistrations, ServerList.Announced, MapHandshakeError;
    RegistrationsSpelled(Entered(m, h, raw), m.watch.usersForWWR);
  }

  lemma PacketSpelled(m: Mgr, h: Header, body: bytes)
    requires Spelled(m.watch)
    ensures Spelled(HandlePacket(m, h, body).watch)
  {
    hide LowByte, WriteSock, Build, ParseMessage, ParseUser, Spool.SpoolPray, Update, IsSpelling;
    if ParseUser(body).Some? {
      var u := ParseUser(body).value;
      UpdateSpelled(m.watch, u.uin, LowByte(h.kind) == USER_ONLINE, u.nickName);
    }
    UpdateSpelled(m.watch, Uin(h.c, h.d), h.e != 0, []);
  }

  lemma StepSpelled(m: Mgr)
    requires Spelled(m.watch)
    ensures Spelled(AfterStep(m).watch)
  {
    hide Frame, Answered, ReadHeader, LowByte, HandleHandshake, HandlePacket, Drops, IsSpelling;
    match Frame(m.sock.input, m.tickets.table)
    case Whole(size, reply) =>
      HandshakeSpelled(m, ReadHeader(m.sock.input), m.sock.input[..size]);
      PacketSpelled(m, ReadHeader(m.sock.input), m.sock.input[HEADER_SIZE..size]);
    case _ =>
  }

  lemma {:induction false} ProcessSpelled(m: Mgr)
    requires Spelled(m.watch)
    ensures Spelled(Process(m).watch)
    decreases |m.sock.input|
  {
    hide Step, Spelled;
    StepSpelled(m);
    if Step(m).Continue? {
      ProcessSpelled(Step(m).m);
    }
  }

  lemma PumpSpelled(m: Mgr)
    requires Spelled(m.watch)
    ensures Spelled(Pump(m).watch)
  {
    hide Pump, ProcessedBy, Process, IsSpelling;
    PumpIsProcess(m);
    if ProcessedBy(m).Some? {
      ProcessSpelled(ProcessedBy(m).value);
    }
  }

  lemma ActSpelled(m: Mgr, act: Act)
    requires Spelled(m.watch)
    ensures Spelled(Perform(m, act).watch)
  {
    hide Spelled, Pump, ConnectInBackground, Send, Start, Abandon, AfterPoll, ConnectionLost, Disconnect, RemoveFromWWR,
         Remember, FinishAdd;
    LostKeys(m);
    match act
    case Pumps => PumpSpelled(m);
    case Connects(users) => ConnectSpelled(m, users);
    case Unwatches(user) => RemovedKeys(m, user);
    case Remembers(user, nickName) => RememberedKeys(m, user, nickName);
    case Writes(packet) => SendKeeps(m, packet);
    case Questions(kind, fixedExtra, subject, packet) => SendKeeps(Asked(m, kind, fixedExtra, subject), packet);
    case FinishesAdd(user) => FinishedKeys(m.watch, user);
    case Disconnects =>
    case Loses =>
    case _ =>
      SamePresence(m, act);
      FewerSpelled(m.watch, Perform(m, act).watch);
  }

  lemma SamePresence(m: Mgr, act: Act)
    requires !act.Pumps? && !act.Connects? && !act.Unwatches? && !act.Remembers? && !act.Writes? && !act.Questions?
    requires !act.FinishesAdd? && !act.Disconnects? && !act.Loses?
    ensures Perform(m, act).watch.presence == m.watch.presence
  {
    hide Start, Abandon, AfterPoll, NowMs, Deadline;
  }

  lemma LostKeys(m: Mgr)
    requires Spelled(m.watch)
    ensures Spelled(ConnectionLost(m).watch) && Spelled(Disconnect(m).watch)
  {
    FewerSpelled(m.watch, ConnectionLost(m).watch);
    FewerSpelled(m.watch, Disconnect(m).watch);
  }

  lemma RemovedKeys(m: Mgr, user: bytes)
    requires Spelled(m.watch)
    ensures Spelled(RemoveFromWWR(m, user).watch)
  {
    hide Parse, WriteSock, Build;
    FewerSpelled(m.watch, RemoveFromWWR(m, user).watch);
  }

  lemma RememberedKeys(m: Mgr, user: bytes, nickName: bytes)
    requires Spelled(m.watch)
    ensures Spelled(Remember(m, user, nickName).watch)
  {
    FewerSpelled(m.watch, Remember(m, user, nickName).watch);
  }

  lemma FinishedKeys(w: Watch, user: bytes)
    requires Spelled(w)
    ensures Spelled(FinishAdd(w, user))
  {
    FewerSpelled(w, FinishAdd(w, user));
  }

  lemma FewerSpelled(w: Watch, v: Watch)
    requires Spelled(w) && v.presence.Keys <= w.presence.Keys
    ensures Spelled(v)
  {
    hide IsSpelling;
  }

  lemma ConnectSpelled(m: Mgr, users: seq<bytes>)
    requires Spelled(m.watch)
    ensures Spelled(ConnectInBackground(m, users).watch)
  {
    hide Pump, PumpConnectPhase, BeginSock, Spelled;
    SameSpelled(m.watch, m.watch.(usersForWWR := users));
    if UnderWay(m) {
      PumpIs(m);
      PumpSpelled(m);
    }
  }

  lemma SameSpelled(w: Watch, v: Watch)
    requires Spelled(w) && v.presence == w.presence
    ensures Spelled(v)
  {
  }

  lemma {:induction false} ScriptSpelled(m: Mgr, s: Script)
    requires Spelled(m.watch)
    ensures Spelled(Play(m, s).watch)
    decreases s
  {
    hide Spelled, Perform;
    if s.Then? {
      ActSpelled(m, s.act);
      ScriptSpelled(Perform(m, s.act), s.rest);
    }
  }

  lemma {:induction false} RunSpelled(m: Mgr, calls: seq<Call>)
    requires Spelled(m.watch)
    ensures Spelled(DoAll(m, calls).watch)
    decreases |calls|
  {
    hide Spelled, ScriptOf, Do, Play;
    if calls != [] {
      CallLeads(m, calls[0]);
      ScriptSpelled(m, ScriptOf(m, calls[0]));
      RunSpelled(Do(m, calls[0]), calls[1..]);
    }
  }

  /** So a user watched under an accepted spelling that is not the canonical one is never heard of, over any run. */
  lemma OtherSpellingsNeverShow(m: Mgr, calls: seq<Call>, user: bytes)
    requires Spelled(m.watch) && Parse(user).Some? && !Canonical(user)
    ensures user !in DoAll(m, calls).watch.presence && !KnownOnline(DoAll(m, calls).watch, user)
  {
    hide DoAll, Parse, Uin.ToString;
    RunSpelled(m, calls);
    if user in DoAll(m, calls).watch.presence {
      var uin: Uin :| user == uin.ToString();
      ParseToString(uin);
      assert false;
    }
  }
}
