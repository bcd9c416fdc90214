/** The buffered, non-blocking socket. What the operating system answers is a script of results;
    an exhausted script answers "would block". */
module Sockets {
  import opened Bytes

  datatype SockState = Closed | Connecting | Connected | Failed

  type Chunk = c: bytes | 0 < |c| <= 4096 witness [0]
  type Count = n: int | 0 < n witness 1

  /** send: so many bytes taken (at most all of them), EWOULDBLOCK or EINTR, or an error. */
  datatype SendResult = Took(count: Count) | SendBlocked | SendError(code: int32)
  /** recv: a chunk, EWOULDBLOCK or EINTR, orderly shutdown, or an error. */
  datatype RecvResult = Data(chunk: Chunk) | RecvBlocked | Shutdown | RecvError(code: int32)
  /** BeginConnect: failed before connect was called, connected at once, in progress, or refused. */
  datatype ConnectResult = Unresolved(code: int32) | Immediate | InProgress | Refused(code: int32)
  /** PumpConnect: select timed out, select failed, the socket reports an error, is writable, or neither. */
  datatype PollResult = NotYet | PollError(code: int32) | ConnectError(code: int32) | Writable | Neither

  datatype Kernel = Kernel(sends: seq<SendResult>, recvs: seq<RecvResult>,
                           connects: seq<ConnectResult>, polls: seq<PollResult>)

  /** The socket's fields, the kernel's coming answers, and history. Of the current connection: bytes the kernel
      took, buffers passed to Write, bytes received, bytes consumed; and every buffer Write ever accepted. */
  datatype Sock = Sock(state: SockState, input: bytes, output: bytes, bytesSent: int32, bytesReceived: int32,
                       lastError: int32, kernel: Kernel,
                       wire: bytes, writes: seq<bytes>, received: bytes, consumed: bytes, accepted: seq<bytes>)

  function Pop<T>(script: seq<T>): seq<T> {
    if script == [] then [] else script[1..]
  }

  function Head<T>(script: seq<T>, default: T): T {
    if script == [] then default else script[0]
  }

  /** Close: the input buffer survives, the output buffer does not. */
  function CloseSock(s: Sock): Sock {
    s.(state := Closed, output := [])
  }

  function Fresh(s: Sock): Sock {
    s.(input := [], output := [], wire := [], writes := [], received := [], consumed := [])
  }

  function BeginSock(s: Sock): Sock {
    var c := CloseSock(s).(kernel := s.kernel.(connects := Pop(s.kernel.connects)), wire := [], writes := []);
    match Head(s.kernel.connects, InProgress)
    case Unresolved(code) => c.(state := Failed, lastError := code)
    case Immediate => Fresh(c).(state := Connected)
    case InProgress => Fresh(c).(state := Connecting)
    case Refused(code) => Fresh(c).(state := Failed, lastError := code)
  }

  function PollSock(s: Sock): Sock {
    if !s.state.Connecting? then s
    else
      var k := s.(kernel := s.kernel.(polls := Pop(s.kernel.polls)));
      match Head(s.kernel.polls, NotYet)
      case NotYet => k
      case PollError(code) => CloseSock(k).(state := Failed, lastError := code)
      case ConnectError(code) => CloseSock(k).(state := Failed, lastError := code)
      case Writable => k.(state := Connected)
      case Neither => k
  }

  function Min(a: nat, b: nat): nat {
    if a < b then a else b
  }

  /** FlushOutput; it succeeds exactly when the socket is connected afterwards. */
  function FlushSock(s: Sock): (r: Sock)
    ensures r.input == s.input && r.kernel.recvs == s.kernel.recvs
    decreases |s.output|
  {
    if !s.state.Connected? || s.output == [] then s
    else
      var k := s.(kernel := s.kernel.(sends := Pop(s.kernel.sends)));
      match Head(s.kernel.sends, SendBlocked)
      case Took(count) =>
        var n := Min(count, |s.output|);
        FlushSock(k.(bytesSent := ToInt32(s.bytesSent + n), wire := s.wire + s.output[..n], output := s.output[n..]))
      case SendBlocked => k
      case SendError(code) => CloseSock(k.(lastError := code))
  }

  /** Write; it succeeds exactly when the socket is connected afterwards. */
  function WriteSock(s: Sock, data: bytes): (r: Sock)
    ensures r.input == s.input && r.kernel.recvs == s.kernel.recvs
  {
    if !s.state.Connected? || data == [] then s
    else
      var r := FlushSock(s.(output := s.output + data, writes := s.writes + [data]));
      if r.state.Connected? then r.(accepted := r.accepted + [data]) else r
  }

  /** ReadInput; it succeeds exactly when the socket is connected afterwards. */
  function ReadSock(s: Sock): Sock
    decreases |s.kernel.recvs|
  {
    if !s.state.Connected? || s.kernel.recvs == [] then s
    else
      var k := s.(kernel := s.kernel.(recvs := s.kernel.recvs[1..]));
      match s.kernel.recvs[0]
      case Data(chunk) =>
        ReadSock(k.(bytesReceived := ToInt32(s.bytesReceived + |chunk|), input := s.input + chunk,
                    received := s.received + chunk))
      case RecvBlocked => k
      case Shutdown => CloseSock(k)
      case RecvError(code) => CloseSock(k.(lastError := code))
  }

  /** Pump; the connection is alive exactly when the socket is connecting or connected afterwards. */
  function PumpSock(s: Sock): Sock {
    if s.state.Connecting? then PollSock(s) else ReadSock(FlushSock(s))
  }

  predicate Alive(s: Sock) {
    s.state.Connecting? || s.state.Connected?
  }

  function ConsumeSock(s: Sock, count: int): Sock {
    if count <= 0 then s
    else
      var n := Min(count, |s.input|);
      s.(input := s.input[n..], consumed := s.consumed + s.input[..n])
  }

  /** All data the kernel still has to hand over. */
  function DataOf(recvs: seq<RecvResult>): bytes {
    if recvs == [] then []
    else (if recvs[0].Data? then recvs[0].chunk else []) + DataOf(recvs[1..])
  }

  // ---- both directions are byte queues ----

  /** Outbound: what the kernel took, then what is buffered, is what was written, in order; a closed
      socket has dropped its buffer. Inbound: what was consumed, then what is buffered, is what was received. */
  predicate SockOk(s: Sock) {
    && s.wire + s.output <= Concat(s.writes)
    && (s.state.Connected? ==> s.wire + s.output == Concat(s.writes))
    && (!s.state.Connected? ==> s.output == [])
    && (s.state.Connecting? ==> s.writes == [])
    && s.consumed + s.input == s.received
  }

  lemma CloseKeepsQueues(s: Sock)
    requires SockOk(s)
    ensures SockOk(CloseSock(s))
  {
    assert s.wire + [] == s.wire;
  }

  lemma {:induction false} FlushKeepsQueues(s: Sock)
    requires SockOk(s)
    ensures SockOk(FlushSock(s)) && FlushSock(s).writes == s.writes && s.wire <= FlushSock(s).wire
    ensures FlushSock(s).input == s.input && FlushSock(s).received == s.received && FlushSock(s).consumed == s.consumed
    ensures FlushSock(s).kernel == s.kernel.(sends := FlushSock(s).kernel.sends)
    ensures FlushSock(s).state == s.state || (s.state.Connected? && FlushSock(s).state.Closed?)
    decreases |s.output|
  {
    hide Concat, ToInt32;
    if s.state.Connected? && s.output != [] {
      var k := s.(kernel := s.kernel.(sends := Pop(s.kernel.sends)));
      match Head(s.kernel.sends, SendBlocked)
      case Took(count) =>
        var n := Min(count, |s.output|);
        var next := k.(bytesSent := ToInt32(s.bytesSent + n), wire := s.wire + s.output[..n], output := s.output[n..]);
        assert s.output[..n] + s.output[n..] == s.output;
        assert next.wire + next.output == s.wire + s.output;
        FlushKeepsQueues(next);
      case SendBlocked =>
      case SendError(code) => CloseKeepsQueues(k.(lastError := code));
    }
  }

  lemma {:induction false} FlushAccepts(s: Sock)
    ensures FlushSock(s).accepted == s.accepted
    decreases |s.output|
  {
    hide ToInt32;
    if s.state.Connected? && s.output != [] && Head(s.kernel.sends, SendBlocked).Took? {
      var n := Min(Head(s.kernel.sends, SendBlocked).count, |s.output|);
      FlushAccepts(s.(kernel := s.kernel.(sends := Pop(s.kernel.sends)), bytesSent := ToInt32(s.bytesSent + n),
                      wire := s.wire + s.output[..n], output := s.output[n..]));
    }
  }

  /** A buffer is accepted exactly when the socket is connected after its write. */
  lemma WriteAccepts(s: Sock, data: bytes)
    requires data != []
    ensures WriteSock(s, data).accepted == if WriteSock(s, data).state.Connected? then s.accepted + [data]
            else s.accepted
  {
    FlushAccepts(s.(output := s.output + data, writes := s.writes + [data]));
  }

  /** Whatever the kernel does, a written buffer joins the end of the outbound queue. */
  lemma WriteKeepsQueues(s: Sock, data: bytes)
    requires SockOk(s)
    ensures SockOk(WriteSock(s, data)) && s.wire <= WriteSock(s, data).wire
    ensures WriteSock(s, data).writes == if s.state.Connected? && data != [] then s.writes + [data] else s.writes
    ensures WriteSock(s, data).input == s.input && WriteSock(s, data).received == s.received
            && WriteSock(s, data).consumed == s.consumed
    ensures WriteSock(s, data).kernel == s.kernel.(sends := WriteSock(s, data).kernel.sends)
    ensures WriteSock(s, data).state == s.state || (s.state.Connected? && WriteSock(s, data).state.Closed?)
  {
    if s.state.Connected? && data != [] {
      ConcatSnoc(s.writes, data);
      var next := s.(output := s.output + data, writes := s.writes + [data]);
      assert next.wire + next.output == (s.wire + s.output) + data;
      FlushKeepsQueues(next);
    }
  }

  lemma {:induction false} ReadKeepsQueues(s: Sock)
    requires SockOk(s)
    ensures SockOk(ReadSock(s)) && ReadSock(s).writes == s.writes && ReadSock(s).wire == s.wire
            && ReadSock(s).consumed == s.consumed
    ensures ReadSock(s).state == s.state || (s.state.Connected? && ReadSock(s).state.Closed?)
    decreases |s.kernel.recvs|
  {
    hide Concat, ToInt32;
    if s.state.Connected? && s.kernel.recvs != [] {
      var k := s.(kernel := s.kernel.(recvs := s.kernel.recvs[1..]));
      match s.kernel.recvs[0]
      case Data(chunk) =>
        var next := k.(bytesReceived := ToInt32(s.bytesReceived + |chunk|), input := s.input + chunk,
                       received := s.received + chunk);
        assert next.consumed + next.input == (s.consumed + s.input) + chunk;
        ReadKeepsQueues(next);
      case RecvBlocked =>
      case Shutdown => CloseKeepsQueues(k);
      case RecvError(code) => CloseKeepsQueues(k.(lastError := code));
    }
  }

  /** Bytes only move from the kernel to the end of the input. */
  lemma {:induction false} ReadMovesData(s: Sock)
    ensures s.input <= ReadSock(s).input
    ensures ReadSock(s).input + DataOf(ReadSock(s).kernel.recvs) == s.input + DataOf(s.kernel.recvs)
    decreases |s.kernel.recvs|
  {
    hide ToInt32, DataOf;
    if s.state.Connected? && s.kernel.recvs != [] {
      var k := s.(kernel := s.kernel.(recvs := s.kernel.recvs[1..]));
      FirstData(s.kernel.recvs);
      if s.kernel.recvs[0].Data? {
        var chunk := s.kernel.recvs[0].chunk;
        var next := k.(bytesReceived := ToInt32(s.bytesReceived + |chunk|), input := s.input + chunk,
                       received := s.received + chunk);
        ReadMovesData(next);
        assert next.input + DataOf(s.kernel.recvs[1..]) == s.input + (chunk + DataOf(s.kernel.recvs[1..]));
      }
    }
  }

  lemma FirstData(recvs: seq<RecvResult>)
    requires recvs != []
    ensures DataOf(recvs) == if recvs[0].Data? then recvs[0].chunk + DataOf(recvs[1..]) else DataOf(recvs[1..])
  {
    assert [] + DataOf(recvs[1..]) == DataOf(recvs[1..]);
  }

  lemma PollKeepsQueues(s: Sock)
    requires SockOk(s)
    ensures SockOk(PollSock(s)) && PollSock(s).writes == s.writes && PollSock(s).input == s.input
    ensures PollSock(s).wire == s.wire && PollSock(s).received == s.received && PollSock(s).consumed == s.consumed
    ensures PollSock(s).kernel == s.kernel.(polls := PollSock(s).kernel.polls)
  {
    CloseKeepsQueues(s);
    if s.state.Connecting? {
      assert s.wire + [] == s.wire;
      assert Concat(s.writes) == [];
    }
  }

  /** One pump moves bytes from the kernel to the end of the input and from the output to the kernel; nothing else. */
  lemma PumpKeepsQueues(s: Sock)
    requires SockOk(s)
    ensures SockOk(PumpSock(s)) && PumpSock(s).writes == s.writes && PumpSock(s).consumed == s.consumed
    ensures s.wire <= PumpSock(s).wire && s.input <= PumpSock(s).input
    ensures PumpSock(s).input + DataOf(PumpSock(s).kernel.recvs) == s.input + DataOf(s.kernel.recvs)
    ensures PumpSock(s).state == s.state || s.state.Connecting? || (s.state.Connected? && PumpSock(s).state.Closed?)
  {
    if s.state.Connecting? {
      PollKeepsQueues(s);
    } else {
      FlushKeepsQueues(s);
      ReadKeepsQueues(FlushSock(s));
      ReadMovesData(FlushSock(s));
    }
  }

  lemma ConsumeKeepsQueues(s: Sock, count: int)
    requires SockOk(s)
    ensures SockOk(ConsumeSock(s, count)) && ConsumeSock(s, count).received == s.received
  {
    if count > 0 {
      var n := Min(count, |s.input|);
      assert s.input[..n] + s.input[n..] == s.input;
      assert s.consumed + s.input[..n] + s.input[n..] == s.consumed + s.input;
    }
  }

  lemma BeginKeepsQueues(s: Sock)
    requires SockOk(s)
    ensures SockOk(BeginSock(s)) && BeginSock(s).writes == []
    ensures Alive(BeginSock(s)) ==>
              BeginSock(s).input == [] && BeginSock(s).writes == []
              && BeginSock(s).received == [] && BeginSock(s).consumed == []
  {
    CloseKeepsQueues(s);
  }

  // ---- the loops go on until the kernel says so ----

  /** The kernel took all it was offered in its first n answers, and the one after, if there is one, ended the loop. */
  lemma {:induction false} FlushEnds(s: Sock) returns (n: nat)
    requires s.state.Connected?
    ensures n <= |s.kernel.sends| && forall i | 0 <= i < n :: s.kernel.sends[i].Took?
    ensures var r := FlushSock(s);
            if r.output == [] && r.state.Connected? then r.kernel.sends == s.kernel.sends[n..]
            else if n == |s.kernel.sends| then r.state.Connected? && r.kernel.sends == []
            else
              && r.kernel.sends == s.kernel.sends[n + 1..]
              && match s.kernel.sends[n]
                 case Took(_) => false
                 case SendBlocked => r.state.Connected?
                 case SendError(code) => r.state.Closed? && r.lastError == code
    decreases |s.output|
  {
    hide ToInt32;
    n := 0;
    var sends := s.kernel.sends;
    if s.output != [] && sends != [] && sends[0].Took? {
      var k := Min(sends[0].count, |s.output|);
      n := FlushEnds(s.(kernel := s.kernel.(sends := sends[1..]), bytesSent := ToInt32(s.bytesSent + k),
                        wire := s.wire + s.output[..k], output := s.output[k..]));
      assert forall i | 0 <= i < n :: sends[i + 1] == sends[1..][i];
      n := n + 1;
    }
  }

  /** Everything the kernel has is read, up to the answer that ends the loop. */
  lemma {:induction false} ReadEnds(s: Sock) returns (n: nat)
    requires s.state.Connected?
    ensures n <= |s.kernel.recvs| && forall i | 0 <= i < n :: s.kernel.recvs[i].Data?
    ensures var r := ReadSock(s);
            && r.input == s.input + DataOf(s.kernel.recvs[..n])
            && if n == |s.kernel.recvs| then r.state.Connected? && r.kernel.recvs == []
               else
                 && r.kernel.recvs == s.kernel.recvs[n + 1..]
                 && match s.kernel.recvs[n]
                    case Data(_) => false
                    case RecvBlocked => r.state.Connected?
                    case Shutdown => r.state.Closed? && r.lastError == s.lastError
                    case RecvError(code) => r.state.Closed? && r.lastError == code
    decreases |s.kernel.recvs|
  {
    hide ToInt32, DataOf;
    n := 0;
    var recvs := s.kernel.recvs;
    if recvs != [] && recvs[0].Data? {
      var next := s.(kernel := s.kernel.(recvs := recvs[1..]), input := s.input + recvs[0].chunk,
                     bytesReceived := ToInt32(s.bytesReceived + |recvs[0].chunk|),
                     received := s.received + recvs[0].chunk);
      n := ReadEnds(next);
      assert recvs[..n + 1][0] == recvs[0] && recvs[..n + 1][1..] == recvs[1..][..n];
      FirstData(recvs[..n + 1]);
      assert next.input + DataOf(recvs[1..][..n]) == s.input + DataOf(recvs[..n + 1]);
      assert forall i | 0 <= i < n :: recvs[i + 1] == recvs[1..][i];
      n := n + 1;
    } else {
      NoData();
    }
  }

  lemma NoData()
    ensures DataOf([]) == []
  {
  }

  /** Polling a connection under way so many times. */
  function Polls(s: Sock, times: nat): Sock
    decreases times
  {
    if times == 0 then s else Polls(PollSock(s), times - 1)
  }

  predicate Decides(answer: PollResult) {
    answer.Writable? || answer.PollError? || answer.ConnectError?
  }

  /** However often it is polled, the first answer that decides does; until then the connection stays under way. */
  lemma {:induction false} FirstAnswerDecides(s: Sock, times: nat, i: nat)
    requires s.state.Connecting? && i <= |s.kernel.polls| && forall j | 0 <= j < i :: !Decides(s.kernel.polls[j])
    requires i < |s.kernel.polls| ==> Decides(s.kernel.polls[i])
    ensures var r := Polls(s, times);
            if times <= i || i == |s.kernel.polls| then r.state.Connecting?
            else
              match s.kernel.polls[i]
              case Writable => r.state.Connected?
              case PollError(code) => r.state.Failed? && r.lastError == code && r.output == []
              case ConnectError(code) => r.state.Failed? && r.lastError == code && r.output == []
              case _ => false
    decreases times
  {
    if times > 0 && i > 0 {
      assert forall j | 0 <= j < i - 1 :: s.kernel.polls[1..][j] == s.kernel.polls[j + 1];
      FirstAnswerDecides(PollSock(s), times - 1, i - 1);
    } else if times > 0 && i < |s.kernel.polls| {
      Decided(PollSock(s), times - 1);
    } else if times > 0 {
      FirstAnswerDecides(PollSock(s), times - 1, 0);
    }
  }

  lemma {:induction false} Decided(s: Sock, times: nat)
    requires !s.state.Connecting?
    ensures Polls(s, times) == s
    decreases times
  {
    if times > 0 {
      Decided(s, times - 1);
    }
  }

  // ---- the class ----

  class NetNatsueSocket {
    var state: SockState
    var input: bytes
    var output: bytes
    var bytesSent: int32
    var bytesReceived: int32
    var lastSystemError: int32
    var kernel: Kernel
    ghost var wire: bytes
    ghost var writes: seq<bytes>
    ghost var received: bytes
    ghost var consumed: bytes
    ghost var accepted: seq<bytes>

    ghost function View(): Sock
      reads this
    {
      Sock(state, input, output, bytesSent, bytesReceived, lastSystemError, kernel, wire, writes, received, consumed,
           accepted)
    }

    constructor (kernel: Kernel)
      ensures View() == Sock(Closed, [], [], 0, 0, 0, kernel, [], [], [], [], [])
      ensures SockOk(View())
    {
      state, input, output, bytesSent, bytesReceived, lastSystemError := Closed, [], [], 0, 0, 0;
      this.kernel := kernel;
      wire, writes, received, consumed, accepted := [], [], [], [], [];
    }

    method Close()
      modifies this
      ensures View() == CloseSock(old(View()))
    {
      state := Closed;
      output := [];
    }

    method BeginConnect() returns (ok: bool)
      modifies this
      ensures View() == BeginSock(old(View()))
      ensures ok <==> Alive(View())
    {
      Close();
      wire, writes := [], [];
      var answer := Head(kernel.connects, InProgress);
      kernel := kernel.(connects := Pop(kernel.connects));
      if answer.Unresolved? {
        state, lastSystemError := Failed, answer.code;
        return false;
      }
      input, output := [], [];
      received, consumed := [], [];
      if answer.Immediate? {
        state := Connected;
        return true;
      }
      if answer.InProgress? {
        state := Connecting;
        return true;
      }
      lastSystemError := answer.code;
      Close();
      state := Failed;
      return false;
    }

    method PumpConnect() returns (now: SockState)
      modifies this
      ensures View() == PollSock(old(View())) && now == state
    {
      if state != Connecting {
        return state;
      }
      var answer := Head(kernel.polls, NotYet);
      kernel := kernel.(polls := Pop(kernel.polls));
      if answer.PollError? {
        lastSystemError := answer.code;
        Close();
        state := Failed;
        return state;
      }
      if answer.NotYet? {
        return state;
      }
      if answer.ConnectError? {
        lastSystemError := answer.code;
        Close();
        state := Failed;
        return state;
      }
      if answer.Writable? {
        state := Connected;
      }
      return state;
    }

    /** The kernel took so many bytes. */
    method Take(count: nat)
      requires count <= |output|
      modifies this`bytesSent, this`wire, this`output
      ensures View() == old(View()).(bytesSent := ToInt32(old(bytesSent) + count),
                                     wire := old(wire) + old(output)[..count],
                                     output := old(output)[count..])
    {
      hide ToInt32;
      bytesSent := ToInt32(bytesSent + count);
      wire := wire + output[..count];
      output := output[count..];
    }

    method Receive(chunk: bytes)
      modifies this`bytesReceived, this`input, this`received
      ensures View() == old(View()).(bytesReceived := ToInt32(old(bytesReceived) + |chunk|),
                                     input := old(input) + chunk,
                                     received := old(received) + chunk)
    {
      hide ToInt32;
      bytesReceived := ToInt32(bytesReceived + |chunk|);
      input := input + chunk;
      received := received + chunk;
    }

    method Fail(code: int32)
      modifies this
      ensures View() == CloseSock(old(View()).(lastError := code))
    {
      lastSystemError := code;
      Close();
    }

    method FlushOutput() returns (ok: bool)
      modifies this
      ensures View() == FlushSock(old(View()))
      ensures ok <==> state.Connected?
      ensures old(state).Connected? && !ok ==> state.Closed?
    {
      if state != Connected {
        return false;
      }
      while output != []
        invariant state.Connected?
        invariant FlushSock(View()) == FlushSock(old(View()))
        decreases |output|
      {
        var answer := Head(kernel.sends, SendBlocked);
        kernel := kernel.(sends := Pop(kernel.sends));
        if answer.Took? {
          Take(Min(answer.count, |output|));
        } else if answer.SendBlocked? {
          return true;
        } else {
          Fail(answer.code);
          return false;
        }
      }
      return true;
    }

    method Write(data: bytes) returns (ok: bool)
      modifies this
      ensures View() == WriteSock(old(View()), data)
      ensures ok <==> state.Connected?
    {
      if state != Connected {
        return false;
      }
      if |data| == 0 {
        return true;
      }
      output := output + data;
      writes := writes + [data];
      ok := FlushOutput();
      if ok {
        accepted := accepted + [data];
      }
    }

    method ReadInput() returns (ok: bool)
      modifies this
      ensures View() == ReadSock(old(View()))
      ensures ok <==> state.Connected?
      ensures old(state).Connected? && !ok ==> state.Closed?
    {
      if state != Connected {
        return false;
      }
      while true
        invariant state.Connected?
        invariant ReadSock(View()) == ReadSock(old(View()))
        decreases |kernel.recvs|
      {
        if kernel.recvs == [] {
          return true;
        }
        var answer := kernel.recvs[0];
        kernel := kernel.(recvs := kernel.recvs[1..]);
        if answer.Data? {
          Receive(answer.chunk);
        } else if answer.Shutdown? {
          Close();
          return false;
        } else if answer.RecvBlocked? {
          return true;
        } else {
          Fail(answer.code);
          return false;
        }
      }
    }

    method Pump() returns (alive: bool)
      modifies this
      ensures View() == PumpSock(old(View()))
      ensures alive <==> Alive(View())
    {
      if state == Connecting {
        var now := PumpConnect();
        return state == Connecting || state == Connected;
      }
      if state != Connected {
        return false;
      }
      var ok := FlushOutput();
      if !ok {
        return false;
      }
      alive := ReadInput();
    }

    method ConsumeInput(count: int)
      modifies this
      ensures View() == ConsumeSock(old(View()), count)
    {
      if count <= 0 {
        return;
      }
      if count >= |input| {
        consumed := consumed + input;
        input := [];
      } else {
        consumed := consumed + input[..count];
        input := input[count..];
      }
    }
  }
}
