/** Lock-step over runs of the public calls: no turn of the input loop in any of them meets bytes it cannot
    make sense of, and every answer belongs to the connection it came in on. */
module LockStepCalls {
  import opened Bytes
  import opened Uins
  import opened Clock
  import opened Protocol
  import opened Sockets
  import opened Tickets
  import opened Watching
  import opened Client
  import opened Connection
  import opened Api
  import opened LockStep
  import opened LockStepRun
  import opened Acts
  import Answers

  /** What lock-step depends on. */
  predicate SameSides(m: Mgr, r: Mgr) {
    && r.tickets == m.tickets && r.log == m.log && r.base == m.base
    && r.sock.input == m.sock.input && DataOf(r.sock.kernel.recvs) == DataOf(m.sock.kernel.recvs)
    && (Live(r) ==> Live(m))
  }

  lemma SameSteady(m: Mgr, r: Mgr, out: seq<ServerPacket>)
    requires Steady(World(m, out)) && SameSides(m, r)
    ensures Steady(World(r, out))
  {
    hide Stream, Lawful, AnsweredBefore, Owed, TicketsOk;
  }

  lemma LostSteady(m: Mgr, out: seq<ServerPacket>)
    requires Steady(World(m, out))
    ensures Steady(World(ConnectionLost(m), out)) && Steady(World(Disconnect(m), out))
  {
    hide InStep, TicketsOk, AllOffline, CloseSock;
    ClearedKeeps(m.tickets);
  }

  // ---- derailing ----

  /** Pumping here, ProcessInput meets a length it finds berserk or a type it does not know. */
  predicate PumpDerails(m: Mgr) {
    ProcessedBy(m).Some? && Derails(ProcessedBy(m).value)
  }

  predicate ActDerails(m: Mgr, act: Act) {
    (act.Pumps? || (act.Connects? && UnderWay(m))) && PumpDerails(m)
  }

  predicate ScriptDerails(m: Mgr, s: Script)
    decreases s
  {
    s.Then? && (ActDerails(m, s.act) || ScriptDerails(Perform(m, s.act), s.rest))
  }

  /** Some pump of this call, however deep in a wait, derails. */
  predicate CallDerails(m: Mgr, call: Call) {
    ScriptDerails(m, ScriptOf(m, call))
  }

  // ---- acts and scripts ----

  lemma ActSteady(m: Mgr, act: Act, out: seq<ServerPacket>)
    requires Steady(World(m, out)) && Proper(m, act) && !act.Changes? && !act.Connects?
    requires Perform(m, act).tickets.taken <= CYCLE
    ensures Steady(World(Perform(m, act), out)) && !ActDerails(m, act)
  {
    hide Steady, Pump, PumpDerails, Start, Abandon, AfterPoll, Send, ConnectionLost, Disconnect, RemoveFromWWR,
         Puts, Tells;
    var w := World(m, out);
    match act
    case Pumps =>
      EventSteady(w, DoPump);
      PumpStays(m, out);
    case Questions(kind, fixedExtra, subject, packet) => 
      Answers.WriteAnswers(Asked(m, kind, fixedExtra, subject), packet);
      QuestionSteady(m, kind, fixedExtra, subject, packet, out);
    case Polls(ticket) => EventSteady(w, DoPoll(ticket));
    case Abandons(ticket) => EventSteady(w, DoAbandon(ticket));
    case Writes(packet) => EventSteady(w, DoSend(packet));
    case Unwatches(user) => UnwatchSteady(m, user, out);
    case Loses => LostSteady(m, out);
    case Disconnects => LostSteady(m, out);
    case _ =>
      SilentSides(m, act);
      SameSteady(m, Perform(m, act), out);
  }

  lemma QuestionSteady(m: Mgr, kind: Kind, fixedExtra: nat, subject: bytes, packet: Packet, out: seq<ServerPacket>)
    requires Steady(World(m, out)) && Proper(m, Questions(kind, fixedExtra, subject, packet))
    requires Asked(m, kind, fixedExtra, subject).tickets.taken <= CYCLE
    ensures Steady(World(Send(Asked(m, kind, fixedExtra, subject), packet), out))
  {
    hide Steady, Start, Send;
    var w := World(m, out);
    Answers.StartTakes(m.tickets, kind, fixedExtra, subject);
    Answers.WriteAnswers(Asked(m, kind, fixedExtra, subject), packet);
    EventSteady(w, DoStart(kind, fixedExtra, subject));
    EventSteady(Apply(w, DoStart(kind, fixedExtra, subject)), DoSend(packet));
  }

  lemma UnwatchSteady(m: Mgr, user: bytes, out: seq<ServerPacket>)
    requires Steady(World(m, out)) && RemoveFromWWR(m, user).tickets.taken <= CYCLE
    ensures Steady(World(RemoveFromWWR(m, user), out))
  {
    hide Steady, Parse, Send, Remove;
    Answers.UnwatchAnswers(m, user);
    var r := Watched(m, Remove(m.watch, user));
    SameSteady(m, r, out);
    if Parse(user).Some? && IsOnline(m) {
      EventSteady(World(r, out), DoSend(WwrModify(false, m.session.server, Parse(user).value)));
    }
  }

  lemma PumpStays(m: Mgr, out: seq<ServerPacket>)
    requires Steady(World(m, out))
    ensures !PumpDerails(m)
  {
    hide InStep, Derails, LoginStep, PumpSock, TicketsOk, Matched;
    if Live(m) {
      PumpInStep(m, out);
    }
  }

  /** Acts that touch neither the stream nor the table. */
  lemma SilentSides(m: Mgr, act: Act)
    ensures act.Waits? || act.Records? || act.BeginsAdd? || act.FinishesAdd? || act.AwaitsAdd? || act.GivesUpAdd?
            || act.TakesChange? || act.Remembers? || act.TakesMail? || act.SetsFiles?
            || act.SetsOutbox? || act.SetsDirectories? || act.SetsUser? ==>
              SameSides(m, Perform(m, act))
  {
    hide DataOf;
  }

  lemma {:induction false} ScriptSteady(m: Mgr, s: Script, out: seq<ServerPacket>)
    requires Steady(World(m, out)) && AllProper(m, s) && Inner(s) && Acts.Play(m, s).tickets.taken <= CYCLE
    ensures Steady(World(Acts.Play(m, s), out)) && !ScriptDerails(m, s)
    decreases s
  {
    hide Steady, Perform, Proper, ActDerails;
    if s.Then? {
      Answers.ScriptTakes(Perform(m, s.act), s.rest);
      ActSteady(m, s.act, out);
      ScriptSteady(Perform(m, s.act), s.rest, out);
    }
  }

  // ---- waiting while the server sends ----

  /** What happens while the client waits: the server sends packets, and the kernel has new answers. */
  datatype Turn = Turn(sent: seq<ServerPacket>, kernel: Kernel)

  function Happen(w: World, turn: Turn): World {
    World(w.m.(sock := w.m.sock.(kernel := turn.kernel)), w.out + turn.sent)
  }

  function FirstTurn(w: World, turns: seq<Turn>): World {
    if turns == [] then w else Happen(w, turns[0])
  }

  function LaterTurns(turns: seq<Turn>): seq<Turn> {
    if turns == [] then [] else turns[1..]
  }

  /** WaitForTransaction, with a turn of the others at every wait. */
  function WaitWith(w: World, ticket: int32, deadline: nat, turns: seq<Turn>): World
    requires w.m.clock < deadline + TWO_31 && deadline <= w.m.clock + TWO_31
    decreases deadline - w.m.clock
  {
    hide TimeAfter, NowMs, Pump, AfterPoll, Abandon;
    var p := Pump(w.m);
    match Poll(p.tickets, ticket)
    case Missing => World(p, w.out)
    case Finished(tr) => World(Polling(p, ticket), w.out)
    case Pending =>
      if !IsOnline(p) then World(p, w.out)
      else if TimeAfter(NowMs(p.clock), NowMs(deadline)) then World(Abandoning(p, ticket), w.out)
      else
        StillBefore(p.clock, deadline);
        WaitWith(FirstTurn(World(Wait(p), w.out), turns), ticket, deadline, LaterTurns(turns))
  }

  /** A question asked and waited for, and what follows if it cannot be written. */
  datatype Question = Question(kind: Kind, subject: bytes, packet: Packet, timeout: nat, lost: Script)

  /** The calls that wait for an answer, when they do. */
  function QuestionOf(m: Mgr, call: Call): (q: Option<Question>)
    ensures q.Some? ==> q.value.timeout < TWO_31 && q.value.kind != Abandoned && IsOnline(m)
    ensures q.Some? ==> !q.value.packet.Handshake? && !q.value.packet.ConnectAccept?
    ensures q.Some? ==> q.value.lost == Nil || q.value.lost == Only(Loses)
  {
    match call
    case CallIsUserOnline(user) =>
      if Parse(user).None? || !IsOnline(m) || Parse(user).value == m.session.user || user in m.watch.presence then None
      else
        var ticket := Asked(m, ConnectionDetail, 0, user).tickets.next;
        var packet := GetConnectionDetail(m.session.server, Parse(user).value, ticket);
        Some(Question(ConnectionDetail, user, packet, USER_ONLINE_TIMEOUT, Nil))
    case CallFeedHistory(data) =>
      if !IsOnline(m) || data == [] then None
      else
        var ticket := Asked(m, History, 0, data).tickets.next;
        var packet := SendHistory(m.session.server, m.session.user, ticket, data);
        Some(Question(History, data, packet, HISTORY_TIMEOUT, Only(Loses)))
    case _ => None
  }

  function Writing(m: Mgr, q: Question): Mgr {
    Send(Asked(m, q.kind, 0, q.subject), q.packet)
  }

  /** The others' first turn comes between the write and the first pump. */
  function AskWith(w: World, q: Question, turns: seq<Turn>): World
    requires q.timeout < TWO_31
  {
    var s := Writing(w.m, q);
    if !s.sock.state.Connected? then World(Acts.Play(Abandoning(s, s.tickets.next), q.lost), w.out)
    else WaitWith(FirstTurn(World(s, w.out), turns), s.tickets.next, s.clock + q.timeout, LaterTurns(turns))
  }

  /** A call with the others' turns in it. */
  function DoWith(w: World, call: Call, turns: seq<Turn>): World {
    match QuestionOf(w.m, call)
    case Some(q) => AskWith(w, q, turns)
    case None => World(Do(w.m, call), if Answers.Begins(w.m, call) then [] else w.out)
  }

  lemma {:induction false} WaitAlone(w: World, ticket: int32, deadline: nat)
    requires w.m.clock < deadline + TWO_31 && deadline <= w.m.clock + TWO_31
    ensures WaitWith(w, ticket, deadline, []) == World(WaitFor(w.m, ticket, deadline).0, w.out)
    decreases deadline - w.m.clock
  {
    hide TimeAfter, NowMs, Pump, AfterPoll, Abandon;
    var p := Pump(w.m);
    if Poll(p.tickets, ticket).Pending? && IsOnline(p) && !TimeAfter(NowMs(p.clock), NowMs(deadline)) {
      StillBefore(p.clock, deadline);
      WaitAlone(World(Wait(p), w.out), ticket, deadline);
    }
  }

  /** Without turns of the others it is the call. */
  lemma DoAlone(w: World, call: Call)
    ensures DoWith(w, call, []) == World(Do(w.m, call), if Answers.Begins(w.m, call) then [] else w.out)
  {
    hide Parse, Start, Send, Abandon, WaitFor, WaitWith, ConnectionLost;
    if QuestionOf(w.m, call).Some? {
      var q := QuestionOf(w.m, call).value;
      var s := Writing(w.m, q);
      WaitAlone(World(s, w.out), s.tickets.next, s.clock + q.timeout);
      PlayLost(Abandoning(s, s.tickets.next));
      WritingTickets(w.m, q);
    }
  }

  lemma PlayLost(m: Mgr)
    ensures Acts.Play(m, Nil) == m && Acts.Play(m, Only(Loses)) == ConnectionLost(m)
  {
    hide ConnectionLost;
    assert Acts.Play(ConnectionLost(m), Nil) == ConnectionLost(m);
  }

  lemma WritingTickets(m: Mgr, q: Question)
    ensures Writing(m, q).tickets == Start(m.tickets, q.kind, 0, q.subject) && Writing(m, q).clock == m.clock
  {
    hide Start;
  }

  // ---- fairness and derailing in it ----

  ghost predicate FairTurn(w: World, turn: Turn) {
    && (forall i | 0 <= i < |turn.sent| :: Allowed(World(w.m, w.out + turn.sent[..i]), Emit(turn.sent[i])))
    && Allowed(World(w.m, w.out + turn.sent), Arrive(turn.kernel, w.m.clock))
  }

  ghost predicate FairFirst(w: World, turns: seq<Turn>) {
    turns != [] ==> FairTurn(w, turns[0])
  }

  ghost predicate FairWait(w: World, ticket: int32, deadline: nat, turns: seq<Turn>)
    requires w.m.clock < deadline + TWO_31 && deadline <= w.m.clock + TWO_31
    decreases deadline - w.m.clock
  {
    hide TimeAfter, NowMs, Pump, AfterPoll, Abandon;
    var p := Pump(w.m);
    if Poll(p.tickets, ticket).Pending? && IsOnline(p) && !TimeAfter(NowMs(p.clock), NowMs(deadline)) then
      StillBefore(p.clock, deadline);
      var n := World(Wait(p), w.out);
      FairFirst(n, turns) && FairWait(FirstTurn(n, turns), ticket, deadline, LaterTurns(turns))
    else true
  }

  ghost predicate FairAsk(w: World, q: Question, turns: seq<Turn>)
    requires q.timeout < TWO_31
  {
    var s := Writing(w.m, q);
    s.sock.state.Connected? ==>
      && FairFirst(World(s, w.out), turns)
      && FairWait(FirstTurn(World(s, w.out), turns), s.tickets.next, s.clock + q.timeout, LaterTurns(turns))
  }

  /** Some pump of the wait derails. */
  predicate WaitDerails(w: World, ticket: int32, deadline: nat, turns: seq<Turn>)
    requires w.m.clock < deadline + TWO_31 && deadline <= w.m.clock + TWO_31
    decreases deadline - w.m.clock
  {
    hide TimeAfter, NowMs, Pump, AfterPoll, Abandon;
    var p := Pump(w.m);
    if Poll(p.tickets, ticket).Pending? && IsOnline(p) && !TimeAfter(NowMs(p.clock), NowMs(deadline)) then
      StillBefore(p.clock, deadline);
      PumpDerails(w.m) || WaitDerails(FirstTurn(World(Wait(p), w.out), turns), ticket, deadline, LaterTurns(turns))
    else PumpDerails(w.m)
  }

  predicate AskDerails(w: World, q: Question, turns: seq<Turn>)
    requires q.timeout < TWO_31
  {
    var s := Writing(w.m, q);
    s.sock.state.Connected?
    && WaitDerails(FirstTurn(World(s, w.out), turns), s.tickets.next, s.clock + q.timeout, LaterTurns(turns))
  }

  lemma {:induction false} FairAlone(w: World, ticket: int32, deadline: nat)
    requires w.m.clock < deadline + TWO_31 && deadline <= w.m.clock + TWO_31
    ensures FairWait(w, ticket, deadline, [])
    decreases deadline - w.m.clock
  {
    hide TimeAfter, NowMs, Pump, AfterPoll, Abandon, Poll;
    var p := Pump(w.m);
    if Poll(p.tickets, ticket).Pending? && IsOnline(p) && !TimeAfter(NowMs(p.clock), NowMs(deadline)) {
      StillBefore(p.clock, deadline);
      FairAlone(World(Wait(p), w.out), ticket, deadline);
    }
  }

  /** A call in which nobody else does anything is fair. */
  lemma AloneFair(w: World, call: Call)
    requires !call.Host? && !call.CallConnect?
    ensures Fair(w, Client(call, []))
  {
    hide QuestionOf, Start, Send, FairWait;
    if QuestionOf(w.m, call).Some? {
      var q := QuestionOf(w.m, call).value;
      var s := Writing(w.m, q);
      FairAlone(World(s, w.out), s.tickets.next, s.clock + q.timeout);
    }
  }

  // ---- a wait keeps the two sides in step ----

  lemma {:induction false} SentSteady(w: World, sent: seq<ServerPacket>)
    requires Steady(w) && w.m.tickets.taken <= CYCLE
    requires forall i | 0 <= i < |sent| :: Allowed(World(w.m, w.out + sent[..i]), Emit(sent[i]))
    ensures Steady(World(w.m, w.out + sent))
    decreases |sent|
  {
    hide Steady, Allowed;
    if sent == [] {
      assert w.out + sent == w.out;
    } else {
      var front, last := sent[..|sent| - 1], sent[|sent| - 1];
      forall i | 0 <= i < |front| ensures Allowed(World(w.m, w.out + front[..i]), Emit(front[i])) {
        assert front[..i] == sent[..i];
      }
      SentSteady(w, front);
      assert sent[..|front|] == front;
      EventSteady(World(w.m, w.out + front), Emit(last));
      assert w.out + front + [last] == w.out + sent;
    }
  }

  lemma HappenSteady(w: World, turns: seq<Turn>)
    requires Steady(w) && FairFirst(w, turns) && w.m.tickets.taken <= CYCLE
    ensures Steady(FirstTurn(w, turns))
  {
    hide Steady, Allowed;
    if turns != [] {
      var turn := turns[0];
      SentSteady(w, turn.sent);
      EventSteady(World(w.m, w.out + turn.sent), Arrive(turn.kernel, w.m.clock));
      var arrived := Apply(World(w.m, w.out + turn.sent), Arrive(turn.kernel, w.m.clock));
      assert arrived == Happen(w, turn);
    }
  }

  lemma {:induction false} WaitTakes(w: World, ticket: int32, deadline: nat, turns: seq<Turn>)
    requires w.m.clock < deadline + TWO_31 && deadline <= w.m.clock + TWO_31
    ensures w.m.tickets.taken <= WaitWith(w, ticket, deadline, turns).m.tickets.taken
    decreases deadline - w.m.clock
  {
    hide TimeAfter, NowMs, Pump, AfterPoll, Abandon, Poll;
    var p := Pump(w.m);
    Answers.PumpTakes(w.m);
    Answers.ForgetTakes(p.tickets, ticket);
    if Poll(p.tickets, ticket).Pending? && IsOnline(p) && !TimeAfter(NowMs(p.clock), NowMs(deadline)) {
      StillBefore(p.clock, deadline);
      WaitTakes(FirstTurn(World(Wait(p), w.out), turns), ticket, deadline, LaterTurns(turns));
    }
  }

  lemma {:induction false} WaitSteady(w: World, ticket: int32, deadline: nat, turns: seq<Turn>)
    requires w.m.clock < deadline + TWO_31 && deadline <= w.m.clock + TWO_31
    requires Steady(w) && FairWait(w, ticket, deadline, turns)
             && WaitWith(w, ticket, deadline, turns).m.tickets.taken <= CYCLE
    ensures Steady(WaitWith(w, ticket, deadline, turns)) && !WaitDerails(w, ticket, deadline, turns)
    decreases deadline - w.m.clock
  {
    hide TimeAfter, NowMs, Pump, AfterPoll, Abandon, Poll, Steady, PumpDerails, FairFirst, Wait;
    var p := Pump(w.m);
    Answers.ForgetTakes(p.tickets, ticket);
    if Poll(p.tickets, ticket).Pending? && IsOnline(p) && !TimeAfter(NowMs(p.clock), NowMs(deadline)) {
      StillBefore(p.clock, deadline);
      var n := FirstTurn(World(Wait(p), w.out), turns);
      WaitKeeps(p);
      WaitTakes(n, ticket, deadline, LaterTurns(turns));
      ActSteady(w.m, Pumps, w.out);
      ActSteady(p, Waits, w.out);
      HappenSteady(World(Wait(p), w.out), turns);
      WaitSteady(n, ticket, deadline, LaterTurns(turns));
    } else {
      ActSteady(w.m, Pumps, w.out);
      ActSteady(p, Polls(ticket), w.out);
      ActSteady(p, Abandons(ticket), w.out);
    }
  }

  lemma WaitKeeps(m: Mgr)
    ensures Wait(m).tickets == m.tickets && m.clock < Wait(m).clock < m.clock + TWO_31
  {
  }

  lemma AskSteady(w: World, q: Question, turns: seq<Turn>)
    requires Steady(w) && q.timeout < TWO_31 && FairAsk(w, q, turns) && AskWith(w, q, turns).m.tickets.taken <= CYCLE
    requires IsOnline(w.m) && Puts(Asked(w.m, q.kind, 0, q.subject), q.kind, 0, q.subject, q.packet)
    requires q.lost == Nil || q.lost == Only(Loses)
    ensures Steady(AskWith(w, q, turns)) && !AskDerails(w, q, turns)
  {
    hide Start, Send, Abandon, Steady, FairFirst, WaitWith, FairWait, WaitDerails, ConnectionLost, Only;
    var a, s := Asked(w.m, q.kind, 0, q.subject), Writing(w.m, q);
    WritingTickets(w.m, q);
    Acts.SendKeeps(a, q.packet);
    Answers.StartTakes(w.m.tickets, q.kind, 0, q.subject);
    PlayLost(Abandoning(s, s.tickets.next));
    if s.sock.state.Connected? {
      var n := FirstTurn(World(s, w.out), turns);
      WaitTakes(n, s.tickets.next, s.clock + q.timeout, LaterTurns(turns));
      ActSteady(w.m, Questions(q.kind, 0, q.subject, q.packet), w.out);
      HappenSteady(World(s, w.out), turns);
      WaitSteady(n, s.tickets.next, s.clock + q.timeout, LaterTurns(turns));
    } else {
      var d := Abandoning(s, s.tickets.next);
      Answers.ForgetTakes(s.tickets, s.tickets.next);
      LostTakes(d);
      ActSteady(w.m, Questions(q.kind, 0, q.subject, q.packet), w.out);
      ActSteady(s, Abandons(s.tickets.next), w.out);
      LostSteady(d, w.out);
    }
  }

  lemma LostTakes(m: Mgr)
    ensures ConnectionLost(m).tickets.taken == m.tickets.taken
  {
  }

  // ---- runs ----

  /** The server sends a packet; or the client is called, or the host's side changes, with turns of the others
      in the call's waits. */
  datatype Move = Serve(p: ServerPacket) | Client(call: Call, turns: seq<Turn>)

  function Play(w: World, move: Move): World {
    match move
    case Serve(p) => Apply(w, Emit(p))
    case Client(call, turns) => DoWith(w, call, turns)
  }

  ghost predicate Fair(w: World, move: Move) {
    match move
    case Serve(p) => Allowed(w, Emit(p))
    case Client(call, turns) =>
      match call
      case Host(kernel, clock, _, _) => Allowed(w, Arrive(kernel, clock))
      case CallConnect(users) => Allowed(w, DoConnect(users))
      case _ => QuestionOf(w.m, call).Some? ==> FairAsk(w, QuestionOf(w.m, call).value, turns)
  }

  predicate MoveDerails(w: World, move: Move) {
    move.Client?
    && match QuestionOf(w.m, move.call)
       case Some(q) => AskDerails(w, q, move.turns)
       case None => CallDerails(w.m, move.call)
  }

  /** Every public call keeps the two sides in step, and nothing in it derails. */
  lemma MoveSteady(w: World, move: Move)
    requires Steady(w) && Fair(w, move) && Play(w, move).m.tickets.taken <= CYCLE
    ensures Steady(Play(w, move)) && !MoveDerails(w, move)
  {
    hide Steady, Allowed, QuestionOf, AskWith, FairAsk, AskDerails, CallDerails, Do;
    if move.Serve? {
      EventSteady(w, Emit(move.p));
    } else if QuestionOf(w.m, move.call).Some? {
      OnlyQuestions(w.m, move.call);
      AskSteady(w, QuestionOf(w.m, move.call).value, move.turns);
    } else {
      CallSteady(w, move.call);
    }
  }

  lemma OnlyQuestions(m: Mgr, call: Call)
    ensures match QuestionOf(m, call)
            case Some(q) =>
              && !call.Host? && !call.CallConnect? && IsOnline(m)
              && Puts(Asked(m, q.kind, 0, q.subject), q.kind, 0, q.subject, q.packet)
            case None => true
  {
    hide Parse, Start;
  }

  lemma CallSteady(w: World, call: Call)
    requires Steady(w) && Do(w.m, call).tickets.taken <= CYCLE
    requires call.Host? ==> Allowed(w, Arrive(call.kernel, call.clock))
    requires call.CallConnect? ==> Allowed(w, DoConnect(call.users))
    ensures Steady(World(Do(w.m, call), if Answers.Begins(w.m, call) then [] else w.out)) && !CallDerails(w.m, call)
  {
    hide Steady, Allowed, Do, ScriptOf, AllProper, Inner, PumpDerails, Acts.Play;
    CallLeads(w.m, call);
    match call
    case Host(kernel, clock, naps, disk) => HostSteady(w, call);
    case CallConnect(users) => ConnectStays(w, users);
    case _ => ScriptSteady(w.m, ScriptOf(w.m, call), w.out);
  }

  lemma HostSteady(w: World, call: Call)
    requires Steady(w) && call.Host? && Allowed(w, Arrive(call.kernel, call.clock))
             && Do(w.m, call).tickets.taken <= CYCLE
    ensures Steady(World(Do(w.m, call), w.out)) && !CallDerails(w.m, call)
  {
    hide Steady, Allowed, PumpDerails, DataOf;
    var arrived := Apply(w, Arrive(call.kernel, call.clock));
    EventSteady(w, Arrive(call.kernel, call.clock));
    SameSteady(arrived.m, Do(w.m, call), w.out);
    OnlyDerails(w.m, Changes(call.kernel, call.clock, call.naps, call.disk));
  }

  lemma OnlyDerails(m: Mgr, act: Act)
    ensures ScriptDerails(m, Only(act)) == ActDerails(m, act)
  {
    hide Perform, ActDerails;
    assert !ScriptDerails(Perform(m, act), Nil);
  }

  lemma ConnectStays(w: World, users: seq<bytes>)
    requires Steady(w) && Allowed(w, DoConnect(users)) && Do(w.m, CallConnect(users)).tickets.taken <= CYCLE
    ensures var call := CallConnect(users);
            Steady(World(Do(w.m, call), if Answers.Begins(w.m, call) then [] else w.out)) && !CallDerails(w.m, call)
  {
    hide Steady, Allowed, PumpDerails, ConnectInBackground;
    EventSteady(w, DoConnect(users));
    PumpStays(w.m, w.out);
    OnlyDerails(w.m, Connects(users));
  }

  function PlayAll(w: World, moves: seq<Move>): World
    decreases |moves|
  {
    if moves == [] then w else PlayAll(Play(w, moves[0]), moves[1..])
  }

  ghost predicate FairPlay(w: World, moves: seq<Move>)
    decreases |moves|
  {
    moves != [] ==> Fair(w, moves[0]) && FairPlay(Play(w, moves[0]), moves[1..])
  }

  predicate PlayDerails(w: World, moves: seq<Move>)
    decreases |moves|
  {
    moves != [] && (MoveDerails(w, moves[0]) || PlayDerails(Play(w, moves[0]), moves[1..]))
  }

  lemma MoveTakes(w: World, move: Move)
    ensures w.m.tickets.taken <= Play(w, move).m.tickets.taken
  {
    hide Do, Start, Send, Abandon, WaitWith, ConnectionLost;
    if move.Client? && QuestionOf(w.m, move.call).Some? {
      var q := QuestionOf(w.m, move.call).value;
      var s := Writing(w.m, q);
      WritingTickets(w.m, q);
      Answers.StartTakes(w.m.tickets, q.kind, 0, q.subject);
      Answers.ForgetTakes(s.tickets, s.tickets.next);
      PlayLost(Abandoning(s, s.tickets.next));
      LostTakes(Abandoning(s, s.tickets.next));
      var n := FirstTurn(World(s, w.out), move.turns);
      WaitTakes(n, s.tickets.next, s.clock + q.timeout, LaterTurns(move.turns));
    } else if move.Client? {
      Answers.DoTakes(w.m, move.call);
    }
  }

  lemma {:induction false} PlayTakes(w: World, moves: seq<Move>)
    ensures w.m.tickets.taken <= PlayAll(w, moves).m.tickets.taken
    decreases |moves|
  {
    hide Play;
    if moves != [] {
      MoveTakes(w, moves[0]);
      PlayTakes(Play(w, moves[0]), moves[1..]);
    }
  }

  lemma {:induction false} PlaySteady(w: World, moves: seq<Move>)
    requires Steady(w) && FairPlay(w, moves) && PlayAll(w, moves).m.tickets.taken <= CYCLE
    ensures Steady(PlayAll(w, moves)) && !PlayDerails(w, moves)
    decreases |moves|
  {
    hide Play, Steady, Fair, MoveDerails;
    if moves != [] {
      PlayTakes(Play(w, moves[0]), moves[1..]);
      MoveSteady(w, moves[0]);
      PlaySteady(Play(w, moves[0]), moves[1..]);
    }
  }

  /** Over any run of public calls, server packets and arriving chunks, the server also sending while a call
      waits, from a client in step: no pump of any call, in whatever wait, meets a length it finds berserk or a
      type it does not know; every answer filed came in on the connection its question was asked on; and while the
      connection lives, every unanswered request of it is registered with the length of its answer, the packets
      dispatched are exactly the first ones the server sent, and the next pump leaves the client on a packet
      boundary. */
  lemma LockStepOverCalls(w: World, moves: seq<Move>)
    requires Steady(w) && FairPlay(w, moves) && PlayAll(w, moves).m.tickets.taken <= CYCLE
    ensures !PlayDerails(w, moves) && !PumpDerails(PlayAll(w, moves).m)
    ensures Matched(PlayAll(w, moves).m.tickets)
    ensures var r := PlayAll(w, moves);
            Live(r.m) ==>
              && 0 <= r.m.base && 0 <= Done(r.m) <= |r.out|
              && (forall t | Current(r.m.tickets, t) && !AnsweredBefore(r.out, Done(r.m), t) :: Owed(r.m.tickets, t))
              && (forall i | 0 <= i < Done(r.m)
                  :: r.m.log[r.m.base + i] == Dispatch(r.out[i].Response?, Encode(r.out[i])))
              && (ProcessedBy(r.m).Some? && Live(Pump(r.m))
                  ==> InStep(Pump(r.m), r.out) && AtBoundary(Pump(r.m), r.out))
  {
    hide ProcessedBy, Derails, AtBoundary, Pump, Encode, InStep, TicketsOk, Owed, AnsweredBefore, PlayAll, FairPlay,
         PlayDerails, PumpDerails, Matched, Current;
    PlaySteady(w, moves);
    var r := PlayAll(w, moves);
    PumpStays(r.m, r.out);
    if Live(r.m) {
      InStepMeans(r.m, r.out);
      PumpInStep(r.m, r.out);
    }
  }
}
