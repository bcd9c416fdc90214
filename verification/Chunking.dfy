/** What the client makes of a byte stream does not depend on how the stream is cut into chunks. */
module Chunking {
  import opened Bytes
  import opened Uins
  import opened Protocol
  import opened Sockets
  import opened Tickets
  import opened Watching
  import opened Client

  function ExtendSock(s: Sock, more: bytes): Sock {
    s.(input := s.input + more, received := s.received + more)
  }

  /** The client with more bytes arrived. */
  function Extend(m: Mgr, more: bytes): Mgr {
    m.(sock := ExtendSock(m.sock, more))
  }

  lemma {:induction false} FlushExtend(s: Sock, more: bytes)
    ensures FlushSock(ExtendSock(s, more)) == ExtendSock(FlushSock(s), more)
    decreases |s.output|
  {
    hide ToInt32;
    if s.state.Connected? && s.output != [] {
      match Head(s.kernel.sends, SendBlocked)
      case Took(count) =>
        var n := Min(count, |s.output|);
        FlushExtend(s.(kernel := s.kernel.(sends := Pop(s.kernel.sends)), bytesSent := ToInt32(s.bytesSent + n),
                       wire := s.wire + s.output[..n], output := s.output[n..]), more);
      case _ =>
    }
  }

  lemma SendExtend(m: Mgr, p: Packet, more: bytes)
    ensures Send(Extend(m, more), p) == Extend(Send(m, p), more)
  {
    hide Build, FlushSock;
    FlushExtend(m.sock.(output := m.sock.output + Build(p), writes := m.sock.writes + [Build(p)]), more);
  }

  lemma {:induction false} RegistrationsExtend(m: Mgr, users: seq<bytes>, more: bytes)
    ensures SendRegistrations(Extend(m, more), users) == Extend(SendRegistrations(m, users), more)
    decreases |users|
  {
    hide Send, Parse, Register;
    if users != [] {
      match Parse(users[0])
      case None => RegistrationsExtend(m, users[1..], more);
      case Some(uin) =>
        var r, p := m.(watch := Register(m.watch, users[0])), WwrModify(true, m.session.server, uin);
        SendExtend(r, p, more);
        RegistrationsExtend(Send(r, p), users[1..], more);
    }
  }

  lemma HandshakeExtend(m: Mgr, h: Header, raw: bytes, more: bytes)
    requires |raw| > 1
    ensures HandleHandshake(Extend(m, more), h, raw) == Extend(HandleHandshake(m, h, raw), more)
  {
    hide SendRegistrations, MapHandshakeError;
    hide ServerList.Announced;
    RegistrationsExtend(Entered(m, h, raw), m.watch.usersForWWR, more);
  }

  lemma PacketExtend(m: Mgr, h: Header, body: bytes, more: bytes)
    ensures HandlePacket(Extend(m, more), h, body) == Extend(HandlePacket(m, h, body), more)
    ensures Drops(Extend(m, more), h) == Drops(m, h)
  {
    hide Send, ParseMessage, ParseUser, Update, LowByte, Deliver;
    SendExtend(m.(vsn := NextVSN(m.vsn)), Accepting(m, h), more);
    DeliverExtend(m, body, more);
  }

  lemma DeliverExtend(m: Mgr, body: bytes, more: bytes)
    ensures ParseMessage(body).Some? ==>
              Deliver(Extend(m, more), ParseMessage(body).value) == Extend(Deliver(m, ParseMessage(body).value), more)
  {
    hide ParseMessage, Spool.SpoolPray;
  }

  /** A packet that is there in full is framed the same however much follows it. */
  lemma FrameExtend(input: bytes, table: map<int32, Transaction>, more: bytes)
    ensures !Frame(input, table).NeedMore? ==> Frame(input + more, table) == Frame(input, table)
  {
    hide LowByte;
    if |input| >= HEADER_SIZE {
      ReadHeaderPrefix(input, more);
      if |input| >= 48 {
        GetIntPrefix(input, more, 44);
      }
    }
  }

  lemma ConsumedExtend(m: Mgr, reply: bool, size: nat, more: bytes)
    requires size <= |m.sock.input|
    ensures Client.Consumed(Extend(m, more), reply, size) == Extend(Client.Consumed(m, reply, size), more)
  {
    assert (m.sock.input + more)[..size] == m.sock.input[..size];
    assert (m.sock.input + more)[size..] == m.sock.input[size..] + more;
  }

  function ExtendOutcome(o: Outcome, more: bytes): Outcome {
    match o
    case Waiting => Waiting
    case Dropped(n) => Dropped(Extend(n, more))
    case Continue(n) => Continue(Extend(n, more))
  }

  /** A turn of the loop that does anything does the same with more bytes behind. */
  lemma StepExtend(m: Mgr, more: bytes)
    requires !Step(m).Waiting?
    ensures Step(Extend(m, more)) == ExtendOutcome(Step(m), more)
  {
    hide Frame, HandleHandshake, HandlePacket, Answered, Drops, Client.Consumed, ReadHeader, LowByte;
    var input, table := m.sock.input, m.tickets.table;
    FrameExtend(input, table, more);
    match Frame(input, table)
    case NeedMore => assert false;
    case Broken =>
    case Whole(size, reply) =>
      assert (input + more)[..size] == input[..size];
      assert (input + more)[HEADER_SIZE..size] == input[HEADER_SIZE..size];
      ReadHeaderPrefix(input, more);
      var h := ReadHeader(input);
      if reply {
        ConsumedExtend(m.(tickets := Answered(m.tickets, h, input[HEADER_SIZE..size])), true, size, more);
      } else if LowByte(h.kind) == HANDSHAKE_RESPONSE {
        HandshakeExtend(m, h, input[..size], more);
        ConsumedExtend(HandleHandshake(m, h, input[..size]), false, size, more);
      } else {
        PacketExtend(m, h, input[HEADER_SIZE..size], more);
        ConsumedExtend(HandlePacket(m, h, input[HEADER_SIZE..size]), false, size, more);
      }
  }

  /** Feeding the bytes that have arrived and then the rest gives the very same client as feeding all of
      them at once. If the first part already drops the connection, the rest stays unread either way. */
  lemma {:induction false} ChunkingDoesNotMatter(m: Mgr, more: bytes)
    ensures !EndsDropped(m) ==> Process(Extend(m, more)) == Process(Extend(Process(m), more))
    ensures !EndsDropped(m) ==> EndsDropped(Extend(m, more)) == EndsDropped(Extend(Process(m), more))
    ensures EndsDropped(m) ==> EndsDropped(Extend(m, more)) && Process(Extend(m, more)) == Extend(Process(m), more)
    decreases |m.sock.input|
  {
    hide Step, Extend;
    match Step(m)
    case Waiting =>
    case Dropped(n) => StepExtend(m, more);
    case Continue(n) =>
      StepExtend(m, more);
      ChunkingDoesNotMatter(n, more);
  }
}
