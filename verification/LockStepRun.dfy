/** Lock-step over whole runs: any interleaving of client calls, arriving chunks and server packets. */
module LockStepRun {
  import opened Bytes
  import opened Protocol
  import opened Sockets
  import opened Clock
  import opened Tickets
  import opened Client
  import opened Connection
  import opened LockStep

  /** The client, and what the server sent on the current connection. */
  datatype World = World(m: Mgr, out: seq<ServerPacket>)

  /** The server sends; the kernel gets new answers, data among them, and time passes; the client starts,
      polls or abandons a request, writes a packet, pumps, connects or disconnects. */
  datatype Event =
    | Emit(p: ServerPacket)
    | Arrive(kernel: Kernel, clock: nat)
    | DoStart(kind: Kind, fixedExtra: nat, subject: bytes)
    | DoPoll(ticket: int32)
    | DoAbandon(ticket: int32)
    | DoSend(packet: Packet)
    | DoPump
    | DoConnect(users: seq<bytes>)
    | DoDisconnect

  /** A connection is up or coming up. */
  predicate Live(m: Mgr) {
    UnderWay(m) || m.session.phase.PhaseOnline?
  }

  predicate StartsConnection(m: Mgr) {
    !IsOnline(m) && !UnderWay(m)
  }

  function Apply(w: World, e: Event): World {
    match e
    case Emit(p) => w.(out := w.out + [p])
    case Arrive(kernel, clock) => w.(m := w.m.(sock := w.m.sock.(kernel := kernel), clock := clock))
    case DoStart(kind, fixedExtra, subject) => w.(m := w.m.(tickets := Start(w.m.tickets, kind, fixedExtra, subject)))
    case DoPoll(ticket) => w.(m := w.m.(tickets := AfterPoll(w.m.tickets, ticket)))
    case DoAbandon(ticket) => w.(m := w.m.(tickets := Abandon(w.m.tickets, ticket)))
    case DoSend(p) => w.(m := Send(w.m, p))
    case DoPump => w.(m := Pump(w.m))
    case DoConnect(users) => World(ConnectInBackground(w.m, users), if StartsConnection(w.m) then [] else w.out)
    case DoDisconnect => w.(m := Disconnect(w.m))
  }

  /** What the environment may do: the server keeps to its side of the bargain, and the data the kernel
      hands over is what the server sent, in order. A new connection has no data from an old one. */
  ghost predicate Allowed(w: World, e: Event) {
    match e
    case Emit(p) =>
      && Live(w.m) && WellFormed(p)
      && if p.Response? then
           && Current(w.m.tickets, p.h.ticket)
           && w.m.tickets.asks[p.h.ticket].fixedExtra == |p.fixed|
           && !AnsweredBefore(w.out, |w.out|, p.h.ticket)
         else p.h.ticket == 0 || (Taken(w.m.tickets, p.h.ticket) && p.h.ticket !in w.m.tickets.table)
    case Arrive(kernel, _) =>
      if Live(w.m) then
        0 <= Done(w.m) <= |w.out| && w.m.sock.input + DataOf(kernel.recvs) <= Stream(w.out[Done(w.m)..])
      else DataOf(kernel.recvs) == []
    case DoStart(kind, _, _) => kind != Abandoned && w.m.tickets.taken < CYCLE
    case DoConnect(_) => StartsConnection(w.m) ==> DataOf(w.m.sock.kernel.recvs) == []
    case _ => true
  }

  /** Every answer came in on the connection its question was asked on. */
  predicate Matched(t: Tickets) {
    forall k | k in t.answers :: k in t.asks && t.answers[k].connection == t.asks[k].connection
  }

  ghost predicate Steady(w: World) {
    TicketsOk(w.m.tickets) && Matched(w.m.tickets) && w.m.base <= |w.m.log| && (Live(w.m) ==> InStep(w.m, w.out))
  }

  // ---- single events ----

  lemma {:induction false} StreamSnoc(ps: seq<ServerPacket>, p: ServerPacket)
    ensures Stream(ps + [p]) == Stream(ps) + Encode(p)
  {
    hide Encode;
    if ps == [] {
      assert Stream([p]) == Encode(p) + Stream([]);
    } else {
      assert (ps + [p])[1..] == ps[1..] + [p];
      StreamSnoc(ps[1..], p);
    }
  }

  lemma AnsweredBeforeSnoc(out: seq<ServerPacket>, p: ServerPacket, n: nat, ticket: int32)
    requires n <= |out|
    ensures AnsweredBefore(out + [p], n, ticket) == AnsweredBefore(out, n, ticket)
  {
    var more := out + [p];
    assert forall i | 0 <= i < n :: more[i] == out[i];
  }

  lemma LawfulSnoc(t: Tickets, out: seq<ServerPacket>, p: ServerPacket, done: nat)
    requires Lawful(t, out, done) && WellFormed(p)
    requires if p.Response? then
               Current(t, p.h.ticket) && t.asks[p.h.ticket].fixedExtra == |p.fixed|
               && !AnsweredBefore(out, |out|, p.h.ticket)
             else p.h.ticket == 0 || (Taken(t, p.h.ticket) && p.h.ticket !in t.table)
    ensures Lawful(t, out + [p], done)
  {
    hide WellFormed, AnsweredBefore;
    var more := out + [p];
    forall i | 0 <= i < |more| && more[i].Response? ensures !AnsweredBefore(more, i, more[i].h.ticket) {
      AnsweredBeforeSnoc(out, p, i, more[i].h.ticket);
      assert i < |out| ==> more[i] == out[i];
    }
  }

  lemma EmitInStep(m: Mgr, out: seq<ServerPacket>, p: ServerPacket)
    requires InStep(m, out) && Lawful(m.tickets, out + [p], Done(m))
    ensures InStep(m, out + [p])
  {
    hide Lawful, Owed, Encode, AnsweredBefore;
    var k, more := Done(m), out + [p];
    assert more[k..] == out[k..] + [p];
    StreamSnoc(out[k..], p);
    forall t | Current(m.tickets, t) && !AnsweredBefore(more, k, t) ensures Owed(m.tickets, t) {
      AnsweredBeforeSnoc(out, p, k, t);
    }
  }

  /** Starting, polling and abandoning leave every unanswered request registered with its length. */
  lemma TicketsInStep(m: Mgr, out: seq<ServerPacket>, t: Tickets)
    requires InStep(m, out)
    requires m.tickets.connection == t.connection && t.taken >= m.tickets.taken
    requires forall k | k in m.tickets.asks :: k in t.asks && t.asks[k] == m.tickets.asks[k]
    requires forall k: int32 :: Taken(m.tickets, k) && k in t.table ==> k in m.tickets.table
    requires forall k | Current(m.tickets, k) && Owed(m.tickets, k) :: Owed(t, k)
    requires forall k | Current(t, k) && !Current(m.tickets, k) :: Owed(t, k)
    ensures InStep(m.(tickets := t), out)
  {
    hide Encode, AnsweredBefore, Stream, WellFormed, Owed;
    assert Lawful(t, out, Done(m));
  }

  lemma StartInStep(m: Mgr, out: seq<ServerPacket>, kind: Kind, fixedExtra: nat, subject: bytes)
    requires InStep(m, out) && TicketsOk(m.tickets) && m.tickets.taken < CYCLE && kind != Abandoned
    ensures InStep(m.(tickets := Start(m.tickets, kind, fixedExtra, subject)), out)
  {
    hide InStep, TicketAt, Faithful;
    FreshTicket(m.tickets);
    NextTicketKeeps(m.tickets);
    hide NextTicket;
    TicketsInStep(m, out, Start(m.tickets, kind, fixedExtra, subject));
  }

  /** The login takes a ticket that is never registered. */
  lemma LoginTicketInStep(m: Mgr, out: seq<ServerPacket>)
    requires InStep(m, out)
    ensures InStep(m.(tickets := NextTicket(m.tickets)), out)
  {
    hide InStep;
    NextTicketKeeps(m.tickets);
    TicketsInStep(m, out, NextTicket(m.tickets));
  }

  lemma PollInStep(m: Mgr, out: seq<ServerPacket>, ticket: int32)
    requires InStep(m, out)
    ensures InStep(m.(tickets := AfterPoll(m.tickets, ticket)), out)
  {
    hide InStep;
    TicketsInStep(m, out, AfterPoll(m.tickets, ticket));
  }

  lemma AbandonInStep(m: Mgr, out: seq<ServerPacket>, ticket: int32)
    requires InStep(m, out)
    ensures InStep(m.(tickets := Abandon(m.tickets, ticket)), out)
  {
    hide InStep;
    TicketsInStep(m, out, Abandon(m.tickets, ticket));
  }

  /** Anything that leaves the inbound side and the tickets alone. */
  lemma SameInputInStep(m: Mgr, r: Mgr, out: seq<ServerPacket>)
    requires InStep(m, out) && SameInput(m, r) && r.tickets == m.tickets
    ensures InStep(r, out)
  {
    hide Lawful, Owed, Encode, AnsweredBefore, Stream;
  }

  /** Bytes moving from the kernel into the buffer do not disturb the order. */
  lemma ReadInStep(m: Mgr, out: seq<ServerPacket>, s: Sock)
    requires InStep(m, out)
    requires s.input + DataOf(s.kernel.recvs) == m.sock.input + DataOf(m.sock.kernel.recvs)
    ensures InStep(m.(sock := s), out)
  {
    hide Lawful, Owed, Encode, AnsweredBefore, Stream;
  }

  lemma PumpSockInStep(m: Mgr, out: seq<ServerPacket>)
    requires InStep(m, out)
    ensures InStep(m.(sock := PumpSock(m.sock)), out)
  {
    hide InStep;
    ReadMovesData(FlushSock(m.sock));
    ReadInStep(m, out, PumpSock(m.sock));
  }

  /** What ProcessInput is given when the client pumps, if it runs at all. */
  function ProcessedBy(m: Mgr): Option<Mgr> {
    if UnderWay(m) then
      var l := LoginStep(m);
      if l.session.phase.PhaseAwait? then Some(l.(sock := PumpSock(l.sock))) else None
    else if m.session.phase.PhaseOnline? then Some(m.(sock := PumpSock(m.sock)))
    else None
  }

  lemma LoginStepInStep(m: Mgr, out: seq<ServerPacket>)
    requires InStep(m, out)
    ensures InStep(LoginStep(m), out)
  {
    hide InStep, Send, PollSock, NextTicket;
    if m.session.phase.PhaseConnecting? {
      var s := PollSock(m.sock);
      PollIsQuiet(m.sock);
      ReadInStep(m, out, s);
      var c := m.(sock := s);
      if s.state.Connected? {
        LoginTicketInStep(c, out);
        var n := c.(tickets := NextTicket(m.tickets));
        SameInputInStep(n, LoginStep(m), out);
      } else {
        SameInputInStep(c, LoginStep(m), out);
      }
    }
  }

  lemma PollIsQuiet(s: Sock)
    ensures PollSock(s).input == s.input && PollSock(s).kernel.recvs == s.kernel.recvs
  {
  }

  /** Pumping, in whatever phase, never derails; if the connection is still there afterwards the two sides
      are in step, and once input is being processed the client sits on a packet boundary. */
  lemma PumpInStep(m: Mgr, out: seq<ServerPacket>)
    requires InStep(m, out)
    ensures ProcessedBy(m).Some? ==> !Derails(ProcessedBy(m).value)
    ensures Live(Pump(m)) ==> InStep(Pump(m), out)
    ensures Live(Pump(m)) && ProcessedBy(m).Some? ==> InStep(Pump(m), out) && AtBoundary(Pump(m), out)
  {
    hide InStep, AtBoundary, Process, LoginStep, PumpSock, Derails, TimeAfter, EndsDropped;
    if UnderWay(m) {
      LoginStepInStep(m, out);
      var l := LoginStep(m);
      if l.session.phase.PhaseAwait? {
        PumpSockInStep(l, out);
        ProcessInStep(l.(sock := PumpSock(l.sock)), out);
      }
    } else if m.session.phase.PhaseOnline? {
      PumpSockInStep(m, out);
      ProcessInStep(m.(sock := PumpSock(m.sock)), out);
    }
  }

  lemma ProcessKeepsTickets(m: Mgr)
    requires TicketsOk(m.tickets) && m.base <= |m.log|
    ensures TicketsOk(Process(m).tickets) && Process(m).tickets.taken == m.tickets.taken
    ensures Process(m).base == m.base && |m.log| <= |Process(m).log|
    decreases |m.sock.input|
  {
    hide Step, TicketsOk;
    match Step(m)
    case Waiting =>
    case Dropped(n) => StepKeepsTickets(m);
    case Continue(n) =>
      StepKeepsTickets(m);
      ProcessKeepsTickets(n);
  }

  lemma StepKeepsTickets(m: Mgr)
    requires TicketsOk(m.tickets)
    ensures TicketsOk(AfterStep(m).tickets) && AfterStep(m).tickets.taken == m.tickets.taken
    ensures AfterStep(m).base == m.base && |m.log| <= |AfterStep(m).log|
  {
    hide Frame, HandleHandshake, Answered, ReadHeader, LowByte, Drops, TicketsOk;
    ClearedKeeps(m.tickets);
    match Frame(m.sock.input, m.tickets.table)
    case NeedMore =>
    case Broken =>
    case Whole(size, reply) =>
      var h := ReadHeader(m.sock.input);
      var body := m.sock.input[HEADER_SIZE..size];
      if reply {
        AnsweredKeeps(m.tickets, h, body);
        AnsweredFrame(m.tickets, h, body);
      } else {
        PacketTickets(m, h, body);
      }
  }

  lemma PacketTickets(m: Mgr, h: Header, body: bytes)
    ensures HandlePacket(m, h, body).tickets == m.tickets || HandlePacket(m, h, body).tickets == Cleared(m.tickets)
    ensures HandlePacket(m, h, body).log == m.log && HandlePacket(m, h, body).base == m.base
  {
    hide LowByte, ParseMessage, ParseUser, Deliver, Send;
  }

  lemma ClearedKeeps(t: Tickets)
    ensures TicketsOk(t) ==> TicketsOk(Cleared(t)) && Cleared(t).taken == t.taken
  {
  }

  /** The login takes at most one ticket, and registers nothing. */
  lemma LoginTickets(m: Mgr)
    ensures LoginStep(m).tickets == m.tickets || LoginStep(m).tickets == NextTicket(m.tickets)
    ensures LoginStep(m).base == m.base && LoginStep(m).log == m.log
  {
    hide PollSock, NextTicket, WriteSock, Build;
  }

  lemma LoginKeepsTickets(m: Mgr)
    requires TicketsOk(m.tickets) && LoginStep(m).tickets.taken <= CYCLE
    ensures TicketsOk(LoginStep(m).tickets) && m.tickets.taken <= LoginStep(m).tickets.taken
  {
    hide TicketsOk, LoginStep;
    LoginTickets(m);
    NextTicketKeeps(m.tickets);
    if m.tickets.taken < CYCLE {
      FreshTicket(m.tickets);
    }
  }

  /** Processing input takes no tickets, whatever the tickets are. */
  lemma {:induction false} ProcessTakesNone(m: Mgr)
    ensures Process(m).tickets.taken == m.tickets.taken
    decreases |m.sock.input|
  {
    hide Step;
    match Step(m)
    case Waiting =>
    case Dropped(n) => StepTakesNone(m);
    case Continue(n) =>
      StepTakesNone(m);
      ProcessTakesNone(n);
  }

  lemma StepTakesNone(m: Mgr)
    ensures AfterStep(m).tickets.taken == m.tickets.taken
  {
    hide Frame, HandleHandshake, ReadHeader, LowByte, Drops, Respond;
    match Frame(m.sock.input, m.tickets.table)
    case Whole(size, reply) =>
      PacketTickets(m, ReadHeader(m.sock.input), m.sock.input[HEADER_SIZE..size]);
    case _ =>
  }

  /** In step, a turn of the loop files answers only to questions of the connection at hand. */
  lemma StepMatched(m: Mgr, out: seq<ServerPacket>)
    requires InStep(m, out) && Matched(m.tickets)
    ensures Matched(AfterStep(m).tickets)
  {
    hide Frame, Encode, HandleHandshake, HandlePacket, Drops, ReadHeader, LowByte, InStep, AtBoundary, Respond;
    if AtBoundary(m, out) {
      BoundaryWaits(m, out);
    } else {
      var rest := FrontOfBuffer(m, out);
      NextRegistered(m, out);
      NextCurrent(m, out);
      FrameWhole(out[Done(m)], rest, m.tickets.table);
      EncodedHeader(out[Done(m)], rest);
      PacketTickets(m, ReadHeader(m.sock.input), m.sock.input[HEADER_SIZE..|Encode(out[Done(m)])|]);
    }
  }

  lemma NextCurrent(m: Mgr, out: seq<ServerPacket>)
    requires InStep(m, out) && Done(m) < |out|
    ensures out[Done(m)].Response? ==> Current(m.tickets, out[Done(m)].h.ticket)
  {
  }

  lemma {:induction false} ProcessMatched(m: Mgr, out: seq<ServerPacket>)
    requires InStep(m, out) && Matched(m.tickets)
    ensures Matched(Process(m).tickets)
    decreases |m.sock.input|
  {
    hide Step, InStep, AtBoundary, Matched;
    StepMatched(m, out);
    StepInStep(m, out);
    match Step(m)
    case Waiting =>
    case Dropped(n) =>
    case Continue(n) => ProcessMatched(n, out);
  }

  lemma PumpMatched(m: Mgr, out: seq<ServerPacket>)
    requires InStep(m, out) && Matched(m.tickets)
    ensures Matched(Pump(m).tickets)
    ensures UnderWay(m) ==> Matched(PumpConnectPhase(m).tickets)
  {
    hide InStep, Process, PumpSock, TimeAfter, LoginStep, NextTicket;
    if UnderWay(m) {
      var l := LoginStep(m);
      LoginTickets(m);
      NextTicketKeeps(m.tickets);
      LoginStepInStep(m, out);
      PumpSockInStep(l, out);
      ProcessMatched(l.(sock := PumpSock(l.sock)), out);
    } else if m.session.phase.PhaseOnline? {
      PumpSockInStep(m, out);
      ProcessMatched(m.(sock := PumpSock(m.sock)), out);
    }
  }

  lemma StartMatched(t: Tickets, kind: Kind, fixedExtra: nat, subject: bytes)
    requires TicketsOk(t) && Matched(t) && t.taken < CYCLE
    ensures Matched(Start(t, kind, fixedExtra, subject))
  {
    hide NextTicket, TicketAt, Faithful;
    FreshTicket(t);
    NextTicketKeeps(t);
  }

  lemma ForgetMatched(t: Tickets, ticket: int32)
    requires Matched(t)
    ensures Matched(AfterPoll(t, ticket)) && Matched(Abandon(t, ticket)) && Matched(Cleared(t))
  {
  }

  lemma PumpKeepsTickets(m: Mgr)
    requires TicketsOk(m.tickets) && m.base <= |m.log|
    requires Pump(m).tickets.taken <= CYCLE
    ensures TicketsOk(Pump(m).tickets) && m.tickets.taken <= Pump(m).tickets.taken
    ensures Pump(m).base <= |Pump(m).log|
  {
    hide TicketsOk, Process, PumpSock, TimeAfter, LoginStep;
    if UnderWay(m) {
      var l := LoginStep(m);
      var p := l.(sock := PumpSock(l.sock));
      LoginTickets(m);
      ProcessTakesNone(p);
      LoginKeepsTickets(m);
      ProcessKeepsTickets(p);
    } else if m.session.phase.PhaseOnline? {
      var p := m.(sock := PumpSock(m.sock));
      ProcessKeepsTickets(p);
      ClearedKeeps(Process(p).tickets);
    }
  }

  /** No event gives tickets back. */
  lemma EventTakes(w: World, e: Event)
    ensures w.m.tickets.taken <= Apply(w, e).m.tickets.taken
  {
    hide Process, PumpSock, TimeAfter, LoginStep, NextTicket, BeginSock, WriteSock, Build;
    NextTicketKeeps(w.m.tickets);
    LoginTickets(w.m);
    var l := LoginStep(w.m);
    ProcessTakesNone(l.(sock := PumpSock(l.sock)));
    ProcessTakesNone(w.m.(sock := PumpSock(w.m.sock)));
  }

  lemma ConnectSteady(w: World, users: seq<bytes>)
    requires Steady(w) && Allowed(w, DoConnect(users)) && Apply(w, DoConnect(users)).m.tickets.taken <= CYCLE
    ensures Steady(Apply(w, DoConnect(users)))
  {
    hide InStep, TicketsOk, PumpConnectPhase, StartConnecting;
    var m := w.m;
    if !IsOnline(m) {
      if UnderWay(m) {
        PumpInStep(m, w.out);
        PumpMatched(m, w.out);
        PumpKeepsTickets(m);
      } else {
        var n := m.(watch := m.watch.(usersForWWR := users));
        StartSteady(n);
      }
    }
  }

  lemma StartSteady(m: Mgr)
    requires TicketsOk(m.tickets) && DataOf(m.sock.kernel.recvs) == []
    ensures TicketsOk(StartConnecting(m).tickets) && StartConnecting(m).base == |StartConnecting(m).log|
    ensures Live(StartConnecting(m)) ==> InStep(StartConnecting(m), [])
    ensures StartConnecting(m).tickets == NextConnection(m.tickets)
  {
    hide WellFormed, Encode, BeginSock, TicketsOk;
    BeginIsEmpty(m.sock);
    NobodyAsked(m.tickets);
    var r := StartConnecting(m);
    assert Live(r) ==> r.sock.input + DataOf(r.sock.kernel.recvs) == [];
  }

  lemma NobodyAsked(t: Tickets)
    requires TicketsOk(t)
    ensures TicketsOk(NextConnection(t)) && forall k: int32 :: !Current(NextConnection(t), k)
  {
    hide Decodes, Started, TicketAt;
    var n := NextConnection(t);
    forall k | k in n.table ensures Faithful(n, k) {
      assert Faithful(t, k);
    }
  }

  lemma BeginIsEmpty(s: Sock)
    ensures Alive(BeginSock(s)) ==> BeginSock(s).input == []
    ensures BeginSock(s).kernel.recvs == s.kernel.recvs
  {
  }

  lemma EmitAllowed(w: World, p: ServerPacket)
    requires Steady(w) && Allowed(w, Emit(p))
    ensures InStep(w.m, w.out + [p])
  {
    hide WellFormed, AnsweredBefore, Lawful;
    assert Lawful(w.m.tickets, w.out, Done(w.m));
    LawfulSnoc(w.m.tickets, w.out, p, Done(w.m));
    EmitInStep(w.m, w.out, p);
  }

  lemma ArriveInStep(m: Mgr, out: seq<ServerPacket>, kernel: Kernel, clock: nat)
    requires InStep(m, out) && m.sock.input + DataOf(kernel.recvs) <= Stream(out[Done(m)..])
    ensures InStep(m.(sock := m.sock.(kernel := kernel), clock := clock), out)
  {
    hide Lawful, Owed, Encode, AnsweredBefore, Stream;
  }

  lemma SendPhase(m: Mgr, p: Packet)
    ensures Send(m, p).session == m.session && Send(m, p).tickets == m.tickets && SameInput(m, Send(m, p))
  {
  }

  lemma AsleepPump(m: Mgr)
    requires !Live(m)
    ensures Pump(m) == m
  {
  }

  /** Every allowed event keeps the two sides in step, while fewer than 2^32 - 1 tickets are taken. */
  lemma EventSteady(w: World, e: Event)
    requires Steady(w) && Allowed(w, e) && Apply(w, e).m.tickets.taken <= CYCLE
    ensures Steady(Apply(w, e))
  {
    hide InStep, TicketsOk, Pump, Send, Start, AfterPoll, Abandon, ConnectInBackground, AnsweredBefore, WellFormed;
    var m := w.m;
    match e
    case Emit(p) =>
      EmitAllowed(w, p);
    case Arrive(kernel, clock) =>
      if Live(m) { ArriveInStep(m, w.out, kernel, clock); }
    case DoStart(kind, fixedExtra, subject) =>
      StartKeeps(m.tickets, kind, fixedExtra, subject);
      StartMatched(m.tickets, kind, fixedExtra, subject);
      if Live(m) { StartInStep(m, w.out, kind, fixedExtra, subject); }
    case DoPoll(ticket) =>
      PollKeeps(m.tickets, ticket);
      ForgetMatched(m.tickets, ticket);
      if Live(m) { PollInStep(m, w.out, ticket); }
    case DoAbandon(ticket) =>
      AbandonKeeps(m.tickets, ticket);
      ForgetMatched(m.tickets, ticket);
      if Live(m) { AbandonInStep(m, w.out, ticket); }
    case DoSend(p) =>
      SendPhase(m, p);
      if Live(m) { SameInputInStep(m, Send(m, p), w.out); }
    case DoPump =>
      PumpKeepsTickets(m);
      if Live(m) { PumpInStep(m, w.out); PumpMatched(m, w.out); } else { AsleepPump(m); }
    case DoConnect(users) =>
      ConnectSteady(w, users);
    case DoDisconnect =>
      ClearedKeeps(m.tickets);
  }

  // ---- whole runs ----

  function Run(w: World, events: seq<Event>): World
    decreases |events|
  {
    if events == [] then w else Run(Apply(w, events[0]), events[1..])
  }

  ghost predicate AllowedRun(w: World, events: seq<Event>)
    decreases |events|
  {
    events != [] ==> Allowed(w, events[0]) && AllowedRun(Apply(w, events[0]), events[1..])
  }

  lemma {:induction false} RunTakes(w: World, events: seq<Event>)
    ensures w.m.tickets.taken <= Run(w, events).m.tickets.taken
    decreases |events|
  {
    hide Apply;
    if events != [] {
      EventTakes(w, events[0]);
      RunTakes(Apply(w, events[0]), events[1..]);
    }
  }

  /** Over any run, under any interleaving, the two sides stay in step. */
  lemma {:induction false} RunSteady(w: World, events: seq<Event>)
    requires Steady(w) && AllowedRun(w, events) && Run(w, events).m.tickets.taken <= CYCLE
    ensures Steady(Run(w, events))
    decreases |events|
  {
    hide Apply, Steady, Allowed;
    if events != [] {
      RunTakes(Apply(w, events[0]), events[1..]);
      EventSteady(w, events[0]);
      RunSteady(Apply(w, events[0]), events[1..]);
    }
  }

  lemma InStepMeans(m: Mgr, out: seq<ServerPacket>)
    requires InStep(m, out)
    ensures 0 <= m.base && 0 <= Done(m) <= |out|
    ensures forall t | Current(m.tickets, t) && !AnsweredBefore(out, Done(m), t) :: Owed(m.tickets, t)
    ensures forall i | 0 <= i < Done(m) :: m.log[m.base + i] == Dispatch(out[i].Response?, Encode(out[i]))
  {
  }

  /** What that means at any point of any run: every request of this connection that has not been answered
      is in the table with the length of its answer, abandoned or not; the log is exactly what the server
      sent; and pumping once more never meets a length it finds berserk or a type it does not know, and
      leaves the client on a packet boundary. */
  lemma LockStepOverRuns(w: World, events: seq<Event>)
    requires Steady(w) && AllowedRun(w, events) && Run(w, events).m.tickets.taken <= CYCLE
    ensures var r := Run(w, events);
            Live(r.m) ==>
              && 0 <= r.m.base && 0 <= Done(r.m) <= |r.out|
              && (forall t | Current(r.m.tickets, t) && !AnsweredBefore(r.out, Done(r.m), t) :: Owed(r.m.tickets, t))
              && (forall i | 0 <= i < Done(r.m)
                  :: r.m.log[r.m.base + i] == Dispatch(r.out[i].Response?, Encode(r.out[i])))
              && (ProcessedBy(r.m).Some? ==> !Derails(ProcessedBy(r.m).value))
              && (ProcessedBy(r.m).Some? && Live(Pump(r.m))
                  ==> InStep(Pump(r.m), r.out) && AtBoundary(Pump(r.m), r.out))
  {
    hide Apply, Allowed, ProcessedBy, Derails, AtBoundary, Pump, Encode, InStep, TicketsOk, Owed, AnsweredBefore,
         Run, AllowedRun;
    RunSteady(w, events);
    var r := Run(w, events);
    if Live(r.m) {
      InStepMeans(r.m, r.out);
      PumpInStep(r.m, r.out);
    }
  }

  /** A client that has never connected is in step with any server. */
  lemma FreshIsSteady(m: Mgr)
    requires m.session.phase.PhaseIdle? && m.log == [] && m.base == 0
    requires m.tickets.next == 0 && m.tickets.taken == 0 && m.tickets.table == map[]
    requires m.tickets.asks == map[] && m.tickets.answers == map[]
    ensures Steady(World(m, []))
  {
  }
}
