/** Client and server stay in lock-step: a server that answers each request at most once, in the form that
    request has, and otherwise sends well-formed packets under tickets nobody waits on, is always understood. */
module LockStep {
  import opened Bytes
  import opened Protocol
  import opened Sockets
  import opened Tickets
  import opened Client
  import opened Chunking

  /** What the server sends: the response to a request, with any type field, or an unsolicited packet. */
  datatype ServerPacket =
    | Response(h: Header, fixed: bytes, further: bytes)
    | Unsolicited(h: Header, body: bytes)

  function Encode(p: ServerPacket): (r: bytes)
    ensures |r| >= HEADER_SIZE
  {
    match p
    case Response(h, fixed, further) => WriteHeader(h) + (fixed + further)
    case Unsolicited(h, body) => WriteHeader(h) + body
  }

  /** The documented bodies of the packet types a server sends unasked. */
  predicate KnownBody(h: Header, body: bytes) {
    var kind := LowByte(h.kind);
    if kind == MESSAGE || kind == USER_ONLINE || kind == USER_OFFLINE then |body| == h.furtherData
    else if kind == HANDSHAKE_RESPONSE then
      |body| >= 16 && 0 <= GetInt(body, 12) <= MAX_FURTHER_DATA && |body| == 16 + GetInt(body, 12) as int
    else if kind == CLIENT_COMMAND then |body| == 4
    else if kind == VIRTUAL_CONNECT then |body| == 12
    else if kind == VIRTUAL_CIRCUIT then |body| == 12 + h.furtherData
    else (kind == ONLINE_CHANGE || kind == VIRTUAL_CIRCUIT_CLOSE || kind == MIGRATE) && body == []
  }

  predicate WellFormed(p: ServerPacket) {
    && 0 <= p.h.furtherData <= MAX_FURTHER_DATA
    && match p
       case Response(h, _, further) => h.ticket != 0 && h.furtherData == |further|
       case Unsolicited(h, body) => KnownBody(h, body)
  }

  function Stream(ps: seq<ServerPacket>): bytes {
    if ps == [] then [] else Encode(ps[0]) + Stream(ps[1..])
  }

  // ---- the framer finds the end of what the server sends ----

  /** A response's ticket is registered with its length; an unsolicited packet's ticket is not registered. */
  predicate Registered(p: ServerPacket, table: map<int32, Transaction>) {
    if p.Response? then p.h.ticket in table && table[p.h.ticket].fixedExtra == |p.fixed|
    else p.h.ticket == 0 || p.h.ticket !in table
  }

  lemma EncodedHeader(p: ServerPacket, rest: bytes)
    ensures ReadHeader(Encode(p) + rest) == p.h
    ensures p.Unsolicited? && |p.body| >= 16 ==> GetInt(Encode(p) + rest, 44) == GetInt(p.body, 12)
  {
    hide GetInt, ReadHeader, WriteHeader;
    var body := if p.Response? then p.fixed + p.further else p.body;
    var s := Encode(p) + rest;
    assert s == WriteHeader(p.h) + (body + rest);
    ReadWriteHeader(p.h, body + rest);
    if p.Unsolicited? && |p.body| >= 16 {
      GetIntPrefix(p.body, rest, 12);
      assert s[32..|s|] == p.body + rest;
      GetIntSlice(s, 32, |s|, 12);
    }
  }

  lemma FrameWhole(p: ServerPacket, rest: bytes, table: map<int32, Transaction>)
    requires WellFormed(p) && Registered(p, table)
    ensures Frame(Encode(p) + rest, table) == Whole(|Encode(p)|, p.Response?)
  {
    hide GetInt, ReadHeader, WriteHeader, LowByte;
    EncodedHeader(p, rest);
    if p.Response? {
      assert |Encode(p)| == HEADER_SIZE + |p.fixed| + |p.further|;
    } else {
      assert |Encode(p)| == HEADER_SIZE + |p.body|;
    }
  }

  lemma FramePart(p: ServerPacket, part: bytes, table: map<int32, Transaction>)
    requires WellFormed(p) && Registered(p, table)
    requires part <= Encode(p) && |part| < |Encode(p)|
    ensures Frame(part, table).NeedMore?
  {
    hide Frame, Encode;
    var rest := Encode(p)[|part|..];
    assert part + rest == Encode(p) == Encode(p) + [];
    FrameWhole(p, [], table);
    FrameExtend(part, table, rest);
  }

  // ---- the relation between the two sides ----

  /** How many packets of this connection the client has dispatched. */
  function Done(m: Mgr): int {
    |m.log| - m.base
  }

  ghost predicate AnsweredBefore(out: seq<ServerPacket>, n: nat, ticket: int32)
    requires n <= |out|
  {
    exists i | 0 <= i < n :: out[i].Response? && out[i].h.ticket == ticket
  }

  /** The server's side of the bargain, for everything it sent on this connection: it answers requests of
      this connection, each at most once and in the request's own form, and sends known packets otherwise. */
  ghost predicate Lawful(t: Tickets, out: seq<ServerPacket>, done: nat) {
    && done <= |out|
    && (forall i | 0 <= i < |out| :: WellFormed(out[i]))
    && (forall i | 0 <= i < |out| && out[i].Response? ::
          && Current(t, out[i].h.ticket)
          && t.asks[out[i].h.ticket].fixedExtra == |out[i].fixed|
          && !AnsweredBefore(out, i, out[i].h.ticket))
    && (forall i | done <= i < |out| && out[i].Unsolicited? ::
          out[i].h.ticket == 0 || (Taken(t, out[i].h.ticket) && out[i].h.ticket !in t.table))
  }

  /** A request of this connection that has not been answered is in the table, with the length of its answer. */
  predicate Owed(t: Tickets, ticket: int32) {
    ticket in t.table && !t.table[ticket].done && ticket in t.asks
      && t.table[ticket].fixedExtra == t.asks[ticket].fixedExtra
  }

  /** Lock-step: the client has dispatched a prefix of what the server sent, packet for packet; what is in
      its buffer or still in its kernel continues right there; and every unanswered request is registered. */
  ghost predicate InStep(m: Mgr, out: seq<ServerPacket>) {
    && 0 <= m.base && 0 <= Done(m) <= |out|
    && (forall i | 0 <= i < Done(m) :: m.log[m.base + i] == Dispatch(out[i].Response?, Encode(out[i])))
    && m.sock.input + DataOf(m.sock.kernel.recvs) <= Stream(out[Done(m)..])
    && Lawful(m.tickets, out, Done(m))
    && (forall t | Current(m.tickets, t) && !AnsweredBefore(out, Done(m), t) :: Owed(m.tickets, t))
  }

  /** At most the beginning of one packet is left in the buffer. */
  ghost predicate AtBoundary(m: Mgr, out: seq<ServerPacket>)
    requires InStep(m, out)
  {
    if Done(m) == |out| then m.sock.input == []
    else m.sock.input <= Encode(out[Done(m)]) && |m.sock.input| < |Encode(out[Done(m)])|
  }

  lemma NextRegistered(m: Mgr, out: seq<ServerPacket>)
    requires InStep(m, out) && Done(m) < |out|
    ensures WellFormed(out[Done(m)]) && Registered(out[Done(m)], m.tickets.table)
  {
  }

  /** The two things that can stand at the front of the buffer. */
  lemma FrontOfBuffer(m: Mgr, out: seq<ServerPacket>) returns (rest: bytes)
    requires InStep(m, out) && !AtBoundary(m, out)
    ensures 0 <= Done(m) < |out| && m.sock.input == Encode(out[Done(m)]) + rest
    ensures rest + DataOf(m.sock.kernel.recvs) <= Stream(out[Done(m) + 1..])
  {
    hide Encode, Lawful;
    var k, input, data := Done(m), m.sock.input, DataOf(m.sock.kernel.recvs);
    var s := Stream(out[k..]);
    assert k == |out| ==> s == [];
    var e, later := Encode(out[k]), Stream(out[k + 1..]);
    assert out[k..][1..] == out[k + 1..];
    assert s == e + later;
    assert input == s[..|input|];
    assert e == s[..|e|];
    assert |input| < |e| ==> input <= e;
    rest := input[|e|..];
    assert e == s[..|e|] == (input + data)[..|e|] == input[..|e|];
    assert rest + data == (input + data)[|e|..];
    assert rest + data <= s[|e|..] && s[|e|..] == later;
  }

  lemma BoundaryWaits(m: Mgr, out: seq<ServerPacket>)
    requires InStep(m, out) && AtBoundary(m, out)
    ensures Frame(m.sock.input, m.tickets.table).NeedMore?
  {
    hide Encode;
    if Done(m) < |out| {
      NextRegistered(m, out);
      FramePart(out[Done(m)], m.sock.input, m.tickets.table);
    }
  }

  /** What one packet's dispatch does to the ticket side. */
  lemma DispatchKeepsTickets(t: Tickets, after: Tickets, out: seq<ServerPacket>, done: nat)
    requires done < |out| && Lawful(t, out, done)
    requires forall k | Current(t, k) && !AnsweredBefore(out, done, k) :: Owed(t, k)
    requires after.connection == t.connection && after.asks == t.asks && after.taken == t.taken
             && after.table.Keys <= t.table.Keys
    requires forall k | k in t.table && !(out[done].Response? && k == out[done].h.ticket) ::
               k in after.table && after.table[k] == t.table[k]
    ensures Lawful(after, out, done + 1)
    ensures forall k | Current(t, k) && !AnsweredBefore(out, done + 1, k) :: Owed(after, k)
  {
    forall k | Current(t, k) && !AnsweredBefore(out, done + 1, k) ensures Owed(after, k) {
      assert AnsweredBefore(out, done, k) ==> AnsweredBefore(out, done + 1, k);
      assert Owed(t, k);
    }
  }

  /** One turn of the loop: at a packet boundary it waits; otherwise it dispatches exactly the next packet
      the server sent, or loses the connection while answering a virtual connect. It never meets a length
      it finds berserk or a type it does not know. */
  lemma StepInStep(m: Mgr, out: seq<ServerPacket>)
    requires InStep(m, out)
    ensures !Frame(m.sock.input, m.tickets.table).Broken?
    ensures Step(m).Waiting? <==> AtBoundary(m, out)
    ensures Step(m).Continue? ==> InStep(Step(m).m, out) && Done(Step(m).m) == Done(m) + 1
    ensures Step(m).Dropped?
            ==> Done(m) < |out| && LowByte(out[Done(m)].h.kind) == VIRTUAL_CONNECT && out[Done(m)].Unsolicited?
  {
    hide Frame, Encode, HandleHandshake, HandlePacket, Answered, Drops, ReadHeader, LowByte, InStep, AtBoundary;
    if AtBoundary(m, out) {
      BoundaryWaits(m, out);
    } else {
      var rest := FrontOfBuffer(m, out);
      var p := out[Done(m)];
      NextRegistered(m, out);
      FrameWhole(p, rest, m.tickets.table);
      EncodedHeader(p, rest);
      DispatchFront(m, out, rest);
    }
  }

  lemma DispatchFront(m: Mgr, out: seq<ServerPacket>, rest: bytes)
    requires InStep(m, out) && 0 <= Done(m) < |out| && m.sock.input == Encode(out[Done(m)]) + rest
    requires rest + DataOf(m.sock.kernel.recvs) <= Stream(out[Done(m) + 1..])
    requires Frame(m.sock.input, m.tickets.table) == Whole(|Encode(out[Done(m)])|, out[Done(m)].Response?)
    requires ReadHeader(m.sock.input) == out[Done(m)].h
    ensures !Step(m).Waiting?
    ensures Step(m).Continue? ==> InStep(Step(m).m, out) && Done(Step(m).m) == Done(m) + 1
    ensures Step(m).Dropped? ==> LowByte(out[Done(m)].h.kind) == VIRTUAL_CONNECT && out[Done(m)].Unsolicited?
  {
    hide Frame, Encode, HandleHandshake, HandlePacket, Answered, ReadHeader, LowByte, InStep, Client.Consumed;
    var p := out[Done(m)];
    var size := |Encode(p)|;
    var body := m.sock.input[HEADER_SIZE..size];
    if p.Response? {
      var t := Answered(m.tickets, p.h, body);
      AnsweredFrame(m.tickets, p.h, body);
      DispatchedInStep(m, m.(tickets := t), out, rest);
    } else if LowByte(p.h.kind) == HANDSHAKE_RESPONSE {
      DispatchedInStep(m, HandleHandshake(m, p.h, m.sock.input[..size]), out, rest);
    } else if !Drops(m, p.h) {
      DispatchedInStep(m, HandlePacket(m, p.h, body), out, rest);
    }
  }

  lemma AnsweredFrame(t: Tickets, h: Header, body: bytes)
    requires h.ticket in t.table && 0 <= h.furtherData && |body| == t.table[h.ticket].fixedExtra + h.furtherData
    ensures var a := Answered(t, h, body);
            && a.connection == t.connection && a.asks == t.asks && a.taken == t.taken && a.table.Keys <= t.table.Keys
            && forall k | k in t.table && k != h.ticket :: k in a.table && a.table[k] == t.table[k]
  {
  }

  /** However the packet at the front was handled, consuming it keeps the two sides in step. */
  lemma DispatchedInStep(m: Mgr, r: Mgr, out: seq<ServerPacket>, rest: bytes)
    requires InStep(m, out) && Done(m) < |out| && SameInput(m, r)
    requires m.sock.input == Encode(out[Done(m)]) + rest
    requires rest + DataOf(m.sock.kernel.recvs) <= Stream(out[Done(m) + 1..])
    requires r.tickets.connection == m.tickets.connection && r.tickets.asks == m.tickets.asks
             && r.tickets.taken == m.tickets.taken
    requires r.tickets.table.Keys <= m.tickets.table.Keys
    requires forall k | k in m.tickets.table && !(out[Done(m)].Response? && k == out[Done(m)].h.ticket) ::
               k in r.tickets.table && r.tickets.table[k] == m.tickets.table[k]
    ensures var n := Client.Consumed(r, out[Done(m)].Response?, |Encode(out[Done(m)])|);
            InStep(n, out) && Done(n) == Done(m) + 1
  {
    hide Encode, Lawful, AnsweredBefore, Owed;
    var k, e := Done(m), Encode(out[Done(m)]);
    DispatchKeepsTickets(m.tickets, r.tickets, out, k);
    var n := Client.Consumed(r, out[k].Response?, |e|);
    assert m.sock.input[..|e|] == e && m.sock.input[|e|..] == rest;
    forall i | 0 <= i < Done(n) ensures n.log[n.base + i] == Dispatch(out[i].Response?, Encode(out[i])) {
      if i < k {
        assert n.log[n.base + i] == m.log[m.base + i];
      }
    }
  }

  /** ProcessInput meets a length it finds berserk or a type it does not know. */
  predicate Derails(m: Mgr)
    decreases |m.sock.input|
  {
    Frame(m.sock.input, m.tickets.table).Broken? || (Step(m).Continue? && Derails(Step(m).m))
  }

  /** ProcessInput dispatches whole packets up to the last boundary, and never derails. */
  lemma {:induction false} ProcessInStep(m: Mgr, out: seq<ServerPacket>)
    requires InStep(m, out)
    ensures !Derails(m)
    ensures !EndsDropped(m) ==> InStep(Process(m), out) && AtBoundary(Process(m), out)
    ensures EndsDropped(m) ==> Process(m).session.phase.PhaseIdle?
    decreases |m.sock.input|
  {
    hide Frame, Encode, InStep, AtBoundary, Step;
    StepInStep(m, out);
    match Step(m)
    case Waiting =>
    case Dropped(n) => DroppedIsIdle(m);
    case Continue(n) => ProcessInStep(n, out);
  }

  lemma DroppedIsIdle(m: Mgr)
    requires Step(m).Dropped?
    ensures Step(m).m.session.phase.PhaseIdle?
  {
    hide Frame, HandleHandshake, Answered, ReadHeader, LowByte, Send, ParseMessage, ParseUser, Deliver;
  }
}
