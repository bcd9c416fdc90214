/** Connecting, logging in, and the pump that drives both directions. */
module Connection {
  import opened Bytes
  import opened Protocol
  import opened Sockets
  import opened Clock
  import opened Tickets
  import opened Client

  function GiveUp(m: Mgr, rawError: int32): Mgr {
    m.(session := m.session.(lastError := ErrorOffline, rawError := rawError, phase := PhaseFailed))
  }

  /** StartConnecting: a new connection begins with nothing sent, nothing asked and nothing dispatched. */
  function StartConnecting(m: Mgr): Mgr {
    var s := BeginSock(m.sock);
    var r := m.(sock := s, sent := [], base := |m.log|, tickets := NextConnection(m.tickets));
    if Alive(s) then
      r.(session := m.session.(phase := PhaseConnecting, deadline := Deadline(NowMs(m.clock), CONNECT_TIMEOUT)))
    else GiveUp(r, Negated(s.lastError))
  }

  function Login(m: Mgr): Packet {
    Handshake(m.session.user, NextTicket(m.tickets).next, m.session.nickname, m.session.password,
              if m.session.modern then HANDSHAKE_MAGIC_MODERN else 0)
  }

  /** The three parts of PumpConnectPhase: log in once connected, */
  function LoginStep(m: Mgr): (r: Mgr)
    ensures r.clock == m.clock && r.naps == m.naps
  {
    if !m.session.phase.PhaseConnecting? then m
    else
      var s := PollSock(m.sock);
      var c := m.(sock := s);
      if s.state.Connected? then
        var r := Send(c.(tickets := NextTicket(m.tickets)), Login(m));
        if r.sock.state.Connected? then r.(session := r.session.(phase := PhaseAwait))
        else GiveUp(r, Negated(r.sock.lastError))
      else if s.state.Connecting? then c
      else GiveUp(c, Negated(s.lastError))
  }

  /** wait for the answer, heeding what arrived even if the server then hung up, */
  function AwaitStep(m: Mgr): (r: Mgr)
    ensures r.clock == m.clock && r.naps == m.naps
  {
    if !m.session.phase.PhaseAwait? then m
    else
      var s := PumpSock(m.sock);
      var r := Process(m.(sock := s));
      if r.session.phase.PhaseAwait? && !Alive(s) then GiveUp(r, Negated(r.sock.lastError)) else r
  }

  predicate UnderWay(m: Mgr) {
    m.session.phase.PhaseConnecting? || m.session.phase.PhaseAwait?
  }

  /** and give up when it all takes too long. */
  function DeadlineStep(m: Mgr): (r: Mgr)
    ensures r.clock == m.clock && r.naps == m.naps
  {
    if UnderWay(m) && TimeAfter(NowMs(m.clock), m.session.deadline) then GiveUp(m.(sock := CloseSock(m.sock)), 0) else m
  }

  function PumpConnectPhase(m: Mgr): (r: Mgr)
    ensures r.clock == m.clock && r.naps == m.naps
  {
    hide DeadlineStep, AwaitStep, LoginStep;
    DeadlineStep(AwaitStep(LoginStep(m)))
  }

  /** The pump of a connection that is up: everything that arrived is handled before its loss is noticed. */
  function PumpOnline(m: Mgr): (r: Mgr)
    ensures r.clock == m.clock && r.naps == m.naps
  {
    var s := PumpSock(m.sock);
    var r := Process(m.(sock := s));
    if !Alive(s) && r.session.phase.PhaseOnline? then ConnectionLost(r) else r
  }

  /** Pump */
  function Pump(m: Mgr): (r: Mgr)
    ensures r.clock == m.clock && r.naps == m.naps
  {
    hide PumpConnectPhase, PumpOnline;
    if UnderWay(m) then PumpConnectPhase(m)
    else if m.session.phase.PhaseOnline? then PumpOnline(m)
    else m
  }

  /** ConnectInBackground; its caller is to call again exactly while the connection is under way. */
  function ConnectInBackground(m: Mgr, users: seq<bytes>): Mgr {
    if IsOnline(m) then m
    else if UnderWay(m) then PumpConnectPhase(m)
    else StartConnecting(m.(watch := m.watch.(usersForWWR := users)))
  }
}
