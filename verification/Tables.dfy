/** When the table of transactions is empty, and what outlives a refused login. */
module Tables {
  import opened Bytes
  import opened Uins
  import opened Protocol
  import opened Sockets
  import opened Clock
  import opened Tickets
  import opened Watching
  import opened Client
  import opened Connection
  import opened Api
  import opened Sound
  import opened Acts
  import opened LockStepRun
  import Answers

  // ---- offline, the table holds only what a connection from the online phase carried over ----

  /** Connecting under the guard "socket died": the online phase has not been left, so nothing was cleared. */
  predicate Reconnects(m: Mgr, call: Call) {
    Answers.Begins(m, call) && m.session.phase.PhaseOnline?
  }

  /** The tickets carried over by the last such connecting and not taken out since; none once idle. */
  function Carried(m: Mgr, calls: seq<Call>, before: set<int32>): set<int32>
    decreases |calls|
  {
    if calls == [] then before
    else
      var n := Do(m, calls[0]);
      Carried(n, calls[1..], (if Reconnects(m, calls[0]) then m.tickets.table.Keys else before) * n.tickets.table.Keys)
  }

  /** Outside the online phase the table holds only tickets in `kept`; idle, it is empty. */
  predicate Holds(m: Mgr, kept: set<int32>) {
    && (m.session.phase.PhaseIdle? ==> m.tickets.table == map[])
    && (!m.session.phase.PhaseOnline? ==> m.tickets.table.Keys <= kept)
  }

  lemma StepHolds(m: Mgr, kept: set<int32>)
    requires Holds(m, kept)
    ensures Holds(AfterStep(m), kept)
  {
    hide Frame, ReadHeader, LowByte, Respond, HandlePacket, Drops, HandleHandshake, AllOffline;
    match Frame(m.sock.input, m.tickets.table)
    case Whole(size, reply) =>
      HandshakePhases(m, ReadHeader(m.sock.input), m.sock.input[..size]);
      PacketHolds(m, ReadHeader(m.sock.input), m.sock.input[HEADER_SIZE..size], kept);
    case _ =>
  }

  lemma PacketHolds(m: Mgr, h: Header, body: bytes, kept: set<int32>)
    requires Holds(m, kept)
    ensures Holds(HandlePacket(m, h, body), kept)
  {
    hide LowByte, WriteSock, Build, ParseMessage, ParseUser, Spool.SpoolPray, Uin.ToString, AllOffline, Update;
  }

  lemma HandshakePhases(m: Mgr, h: Header, raw: bytes)
    requires |raw| > 1
    ensures var p := HandleHandshake(m, h, raw).session.phase;
            p == m.session.phase || (m.session.phase.PhaseAwait? && (p.PhaseOnline? || p.PhaseFailed?))
  {
    hide SendRegistrations, ServerList.Announced, MapHandshakeError;
    RegistrationsSession(Entered(m, h, raw), m.watch.usersForWWR);
  }

  lemma {:induction false} ProcessHolds(m: Mgr, kept: set<int32>)
    requires Holds(m, kept)
    ensures Holds(Process(m), kept)
    decreases |m.sock.input|
  {
    hide Step, Holds;
    StepHolds(m, kept);
    if Step(m).Continue? {
      ProcessHolds(Step(m).m, kept);
    }
  }

  lemma LoginHolds(m: Mgr, kept: set<int32>)
    requires Holds(m, kept) && UnderWay(m)
    ensures Holds(LoginStep(m), kept) && !LoginStep(m).session.phase.PhaseIdle?
  {
    hide PollSock, WriteSock, Build, NextTicket;
    NextTicketKeeps(m.tickets);
  }

  lemma PumpHolds(m: Mgr, kept: set<int32>)
    requires Holds(m, kept)
    ensures Holds(Pump(m), kept)
  {
    hide Process, PumpSock, TimeAfter, LoginStep, AllOffline;
    if UnderWay(m) {
      LoginHolds(m, kept);
      var l := LoginStep(m);
      ProcessHolds(l.(sock := PumpSock(l.sock)), kept);
    } else {
      ProcessHolds(m.(sock := PumpSock(m.sock)), kept);
    }
  }

  lemma ActHolds(m: Mgr, act: Act, kept: set<int32>)
    requires Holds(m, kept) && Proper(m, act)
    requires act.Connects? && StartsConnection(m) && m.session.phase.PhaseOnline? ==> m.tickets.table.Keys <= kept
    ensures Holds(Perform(m, act), kept)
  {
    hide Pump, PumpConnectPhase, WriteSock, Build, BeginSock, NextTicket, Poll, Parse, Remove, Puts, Tells, Recordable,
         NewlyAsked, FinishAdd, AfterNext, AllOffline, NowMs, Deadline, RemoveFromWWR;
    match act
    case Pumps => PumpHolds(m, kept);
    case Connects(users) =>
      if UnderWay(m) {
        PumpIs(m);
        PumpHolds(m, kept);
      }
    case Unwatches(user) => UnwatchHolds(m, user, kept);
    case _ =>
  }

  lemma UnwatchHolds(m: Mgr, user: bytes, kept: set<int32>)
    requires Holds(m, kept)
    ensures Holds(RemoveFromWWR(m, user), kept)
  {
    hide Parse, WriteSock, Build, Remove;
  }

  lemma {:induction false} ScriptHolds(m: Mgr, s: Script, kept: set<int32>)
    requires Holds(m, kept) && AllProper(m, s) && Inner(s)
    ensures Holds(Play(m, s), kept)
    decreases s
  {
    hide Holds, Proper, Perform;
    if s.Then? {
      ActHolds(m, s.act, kept);
      ScriptHolds(Perform(m, s.act), s.rest, kept);
    }
  }

  lemma CallHolds(m: Mgr, call: Call, kept: set<int32>)
    requires Holds(m, kept)
    requires Reconnects(m, call) ==> m.tickets.table.Keys <= kept
    ensures Holds(Do(m, call), kept)
  {
    hide Holds, ScriptOf, Play, AllProper, Inner, Perform;
    if call.Host? || call.CallConnect? {
      SingleAct(m, call);
      ActHolds(m, if call.CallConnect? then Connects(call.users)
               else Changes(call.kernel, call.clock, call.naps, call.disk), kept);
    } else {
      CallLeads(m, call);
      ScriptHolds(m, ScriptOf(m, call), kept);
    }
  }

  lemma SingleAct(m: Mgr, call: Call)
    ensures call.CallConnect? ==> Do(m, call) == Perform(m, Connects(call.users))
    ensures call.Host? ==> Do(m, call) == Perform(m, Changes(call.kernel, call.clock, call.naps, call.disk))
  {
    hide ConnectInBackground;
  }

  /** Over any run: outside the online phase the table holds exactly what was carried over. So it is empty
      there if and only if nothing was. */
  lemma {:induction false} OfflineTable(m: Mgr, calls: seq<Call>, before: set<int32>)
    requires Holds(m, before) && before <= m.tickets.table.Keys
    ensures var r := DoAll(m, calls);
            && (r.session.phase.PhaseIdle? ==> r.tickets.table == map[])
            && (!r.session.phase.PhaseOnline? ==> r.tickets.table.Keys == Carried(m, calls, before))
    decreases |calls|
  {
    hide Do, Reconnects;
    if calls != [] {
      var n := Do(m, calls[0]);
      var kept := if Reconnects(m, calls[0]) then m.tickets.table.Keys else before;
      CallHolds(m, calls[0], kept);
      OfflineTable(n, calls[1..], kept * n.tickets.table.Keys);
    }
  }

  /** Nothing is carried over by a run in which no connection is begun from the online phase with entries
      in the table. */
  predicate NeverCarries(m: Mgr, calls: seq<Call>)
    decreases |calls|
  {
    calls != [] ==>
      (Reconnects(m, calls[0]) ==> m.tickets.table == map[]) && NeverCarries(Do(m, calls[0]), calls[1..])
  }

  lemma {:induction false} NothingCarried(m: Mgr, calls: seq<Call>)
    requires NeverCarries(m, calls)
    ensures Carried(m, calls, {}) == {}
    decreases |calls|
  {
    hide Do, Reconnects;
    if calls != [] {
      var n := Do(m, calls[0]);
      assert (if Reconnects(m, calls[0]) then m.tickets.table.Keys else {}) * n.tickets.table.Keys == {};
      NothingCarried(n, calls[1..]);
    }
  }

  /** And connecting from the online phase keeps the table whatever it holds. */
  lemma ReconnectKeeps(m: Mgr, call: Call)
    requires Reconnects(m, call)
    ensures Do(m, call).tickets.table == m.tickets.table && !IsOnline(Do(m, call))
            && !Do(m, call).session.phase.PhaseOnline?
  {
    hide StartConnecting, PumpConnectPhase;
    StartingKeeps(m.(watch := m.watch.(usersForWWR := call.users)));
  }

  lemma StartingKeeps(m: Mgr)
    ensures StartConnecting(m).tickets.table == m.tickets.table && !StartConnecting(m).session.phase.PhaseOnline?
  {
    hide BeginSock;
  }

  // ---- after a refused login ----

  /** The first whole packet is a login's refusal. */
  predicate RefusedNow(m: Mgr) {
    var f := Frame(m.sock.input, m.tickets.table);
    && m.session.phase.PhaseAwait?
    && f.Whole? && !f.reply && LowByte(ReadHeader(m.sock.input).kind) == HANDSHAKE_RESPONSE
    && !Accepts(ReadHeader(m.sock.input), m.sock.input[..f.size])
  }

  /** Among the whole packets in the bytes comes a virtual connect, or they end in a header that makes no
      sense; an abandoned request's entry goes with its response. */
  predicate Overturns(input: bytes, table: map<int32, Transaction>)
    decreases |input|
  {
    match Frame(input, table)
    case NeedMore => false
    case Broken => true
    case Whole(size, reply) =>
      var h := ReadHeader(input);
      if !reply && LowByte(h.kind) == VIRTUAL_CONNECT then true
      else
        var left := if reply && table[h.ticket].kind == Abandoned then table - {h.ticket} else table;
        Overturns(input[size..], left)
  }

  /** Overturning depends on the table only through tickets, lengths and what was abandoned. */
  predicate FramedAlike(a: map<int32, Transaction>, b: map<int32, Transaction>) {
    a.Keys == b.Keys
    && forall k | k in a :: a[k].fixedExtra == b[k].fixedExtra && (a[k].kind == Abandoned <==> b[k].kind == Abandoned)
  }

  lemma FrameAlike(input: bytes, a: map<int32, Transaction>, b: map<int32, Transaction>)
    requires FramedAlike(a, b)
    ensures Frame(input, a) == Frame(input, b)
  {
    hide ReadHeader, LowByte, GetInt;
  }

  lemma {:induction false} OverturnsAlike(input: bytes, a: map<int32, Transaction>, b: map<int32, Transaction>)
    requires FramedAlike(a, b)
    ensures Overturns(input, a) == Overturns(input, b)
    decreases |input|
  {
    hide Frame, ReadHeader, LowByte;
    FrameAlike(input, a, b);
    match Frame(input, a)
    case Whole(size, reply) =>
      var k := ReadHeader(input).ticket;
      if reply && a[k].kind == Abandoned {
        OverturnsAlike(input[size..], a - {k}, b - {k});
      } else {
        OverturnsAlike(input[size..], a, b);
      }
    case _ =>
  }

  predicate Refused(m: Mgr, error: Error, code: int32) {
    m.session.phase.PhaseFailed? && m.session.lastError == error && m.session.rawError == code
      && !m.sock.state.Connected?
  }

  /** The connection is reported lost. */
  predicate Lost(m: Mgr, systemError: int32) {
    m.session.phase.PhaseIdle? && m.session.lastError == ErrorOffline && m.session.rawError == Negated(systemError)
  }

  /** On the closed socket a turn of the loop leaves the refusal alone, or replaces it by a lost connection. */
  lemma StepAfterRefusal(m: Mgr, error: Error, code: int32)
    requires Refused(m, error, code)
    ensures Step(m).Continue? ==>
              Refused(Step(m).m, error, code)
              && Overturns(m.sock.input, m.tickets.table) == Overturns(Step(m).m.sock.input, Step(m).m.tickets.table)
    ensures Step(m).Dropped? ==>
              Overturns(m.sock.input, m.tickets.table)
              && Lost(Step(m).m, m.sock.lastError)
    ensures Step(m).Waiting? ==> !Overturns(m.sock.input, m.tickets.table)
    ensures Step(m).Continue? ==> Step(m).m.sock.lastError == m.sock.lastError
  {
    hide Frame, ReadHeader, LowByte, ParseMessage, ParseUser, Build, AllOffline, Update, Spool.SpoolPray, ToInt32;
    var input, table := m.sock.input, m.tickets.table;
    match Frame(input, table)
    case Whole(size, reply) =>
      var h := ReadHeader(input);
      BuiltIsSome(Accepting(m, h));
      if reply {
        var n := Answered(m.tickets, h, input[HEADER_SIZE..size]).table;
        var left := if table[h.ticket].kind == Abandoned then table - {h.ticket} else table;
        AnsweredAlike(m.tickets, h, input[HEADER_SIZE..size]);
        OverturnsAlike(input[size..], n, left);
      }
    case _ =>
  }

  lemma AnsweredAlike(t: Tickets, h: Header, body: bytes)
    requires h.ticket in t.table && 0 <= h.furtherData && |body| == t.table[h.ticket].fixedExtra + h.furtherData
    ensures FramedAlike(Answered(t, h, body).table,
                        if t.table[h.ticket].kind == Abandoned then t.table - {h.ticket} else t.table)
  {
    hide ParseUser, GetInt;
  }

  lemma {:induction false} ProcessAfterRefusal(m: Mgr, error: Error, code: int32)
    requires Refused(m, error, code)
    ensures Overturns(m.sock.input, m.tickets.table) ==>
              Lost(Process(m), m.sock.lastError)
    ensures !Overturns(m.sock.input, m.tickets.table) ==> Refused(Process(m), error, code)
    decreases |m.sock.input|
  {
    hide Step, Refused, Overturns;
    StepAfterRefusal(m, error, code);
    if Step(m).Continue? {
      ProcessAfterRefusal(Step(m).m, error, code);
    }
  }

  /** A refusal stands after ProcessInput if and only if no whole virtual connect and no broken header is
      buffered behind it; otherwise the connection is reported lost in its place. */
  lemma RefusalStands(m: Mgr)
    requires RefusedNow(m)
    ensures var input, code := m.sock.input, m.sock.input[1];
            var size := Frame(input, m.tickets.table).size;
            && (Refused(Process(m), MapHandshakeError(code), code) <==> !Overturns(input[size..], m.tickets.table))
            && (Overturns(input[size..], m.tickets.table) ==>
                  Lost(Process(m), m.sock.lastError))
  {
    hide Frame, ReadHeader, LowByte, MapHandshakeError, Overturns, Process;
    var code := m.sock.input[1];
    assert m.sock.input[..Frame(m.sock.input, m.tickets.table).size][1] == code;
    var n := Step(m).m;
    RefusedProcess(m);
    ProcessAfterRefusal(n, MapHandshakeError(code), code);
  }

  lemma RefusedProcess(m: Mgr)
    requires RefusedNow(m)
    ensures Step(m).Continue? && Process(m) == Process(Step(m).m)
  {
    hide Frame, ReadHeader, LowByte, MapHandshakeError;
  }
}
