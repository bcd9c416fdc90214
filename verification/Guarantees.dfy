/** What the invariants mean to the server, to the game and to a caller watching the phases. */
module Guarantees {
  import opened Bytes
  import opened Uins
  import opened Protocol
  import opened Sockets
  import opened Clock
  import opened Tickets
  import opened Watching
  import opened Client
  import opened Connection
  import opened Api
  import opened Sound
  import LockStepRun

  // ---- the outbound stream ----

  /** A prefix of a run of packets is some whole packets and a proper beginning of the next. */
  lemma {:induction false} PrefixOfPackets(ps: seq<Packet>, w: bytes) returns (k: nat, part: bytes)
    requires w <= BuildAll(ps)
    ensures k <= |ps| && w == BuildAll(ps[..k]) + part
    ensures if k == |ps| then part == [] else part <= Build(ps[k]) && |part| < |Build(ps[k])|
  {
    hide Build;
    if ps == [] {
      k, part := 0, [];
    } else {
      var b, rest := Build(ps[0]), BuildAll(ps[1..]);
      if |w| < |b| {
        k, part := 0, w;
        assert w == (b + rest)[..|w|] == b[..|w|];
      } else {
        assert w[..|b|] == (b + rest)[..|b|] == b;
        assert w[|b|..] <= (b + rest)[|b|..] && (b + rest)[|b|..] == rest;
        k, part := PrefixOfPackets(ps[1..], w[|b|..]);
        assert ps[..k + 1][1..] == ps[1..][..k] && ps[..k + 1][0] == ps[0];
        assert BuildAll(ps[..k + 1]) == b + BuildAll(ps[1..][..k]);
        assert w == b + w[|b|..];
        k := k + 1;
      }
    }
  }

  /** However the kernel took the bytes: what has reached the wire splits, by the documented layout alone,
      into the first packets sent, the handshake foremost and no second one, and a beginning of the next. */
  lemma WireIsPackets(m: Mgr) returns (k: nat)
    requires Core(m) && AllFit(m.sent)
    ensures k <= |m.sent| && Split(m.sock.wire).0 == OnWireAll(m.sent[..k])
    ensures k < |m.sent| ==> Split(m.sock.wire).1 <= Build(m.sent[k])
    ensures k == |m.sent| ==> Split(m.sock.wire).1 == []
    ensures k > 0 ==> m.sent[0].Handshake? && forall i | 0 < i < k :: !m.sent[i].Handshake?
  {
    hide Build, WatchOk, Split;
    assert m.sock.wire <= BuildAll(m.sent) by {
      assert m.sock.wire <= m.sock.wire + m.sock.output;
    }
    var part;
    k, part := PrefixOfPackets(m.sent, m.sock.wire);
    if k < |m.sent| {
      SplitBuilt(m.sent[..k], m.sent[k], part);
    } else {
      assert m.sent[..k] == m.sent;
      var next := WwrModify(true, NO_UIN, NO_UIN);
      BuiltLength(next);
      SplitBuilt(m.sent, next, []);
    }
  }

  /** The same after any run of calls from any sound state. */
  lemma WireOverRuns(m: Mgr, calls: seq<Call>) returns (k: nat)
    requires Core(m) && AllFit(DoAll(m, calls).sent)
    ensures var r := DoAll(m, calls);
            && k <= |r.sent| && Split(r.sock.wire).0 == OnWireAll(r.sent[..k])
            && (k < |r.sent| ==> Split(r.sock.wire).1 <= Build(r.sent[k]))
            && (k > 0 ==> r.sent[0].Handshake? && forall i | 0 < i < k :: !r.sent[i].Handshake?)
  {
    hide Core, DoAll, Split, Build;
    RunCore(m, calls);
    k := WireIsPackets(DoAll(m, calls));
  }

  // ---- the whose-wanted register ----

  /** Draining tells the game only about users in the queue. */
  lemma {:induction false} DrainSkips(w: Watch, user: bytes)
    requires user !in w.changed
    ensures user in Drain(w).seen <==> user in w.seen
    decreases |w.changed|
  {
    if w.changed != [] {
      assert w.changed[0] in w.changed;
      DrainSkips(AfterNext(w), user);
    }
  }

  // ---- phases ----

  /** n is one of the states the loop of ProcessInput goes through from m. */
  predicate Reached(m: Mgr, n: Mgr)
    decreases |m.sock.input|
  {
    n == m || (Step(m).Continue? && Reached(Step(m).m, n))
  }

  /** The client goes online only in the turn of the loop that handles an accepted handshake it awaited. */
  lemma {:induction false} ProcessEnters(m: Mgr) returns (n: Mgr)
    requires Core(m) && !m.session.phase.PhaseConnecting?
    requires Process(m).session.phase.PhaseOnline? && !m.session.phase.PhaseOnline?
    ensures Reached(m, n) && AcceptedNow(n)
    decreases |m.sock.input|
  {
    hide Core, Step, AcceptedNow;
    StepCore(m);
    n := m;
    match Step(m)
    case Waiting =>
    case Dropped(d) =>
    case Continue(c) =>
      if !c.session.phase.PhaseOnline? {
        n := ProcessEnters(c);
      }
  }

  lemma PumpEnters(m: Mgr) returns (p: Mgr, n: Mgr)
    requires Core(m) && !m.session.phase.PhaseOnline? && Pump(m).session.phase.PhaseOnline?
    ensures Reached(p, n) && AcceptedNow(n) && p.session.phase.PhaseAwait? && p.log == m.log
  {
    hide Core, Process, PumpSock, LoginStep, TimeAfter, AcceptedNow, Reached;
    var l := LoginStep(m);
    LoginStepCore(m);
    LockStepRun.LoginTickets(m);
    p := l.(sock := PumpSock(l.sock));
    PumpSockCore(l);
    n := ProcessEnters(p);
  }

  /** No call goes online but by pumping, and so by an accepted handshake. */
  lemma DoEnters(m: Mgr, call: Call)
    requires !m.session.phase.PhaseOnline?
    ensures Do(m, call).session.phase.PhaseOnline? ==> Pump(m).session.phase.PhaseOnline?
  {
    hide Pump, PumpConnectPhase, BeginSock, SendFiles, ScanOutbox, Parse, Spool.FreeSerial, TimeAfter, Start,
         WaitFor, Poll, AfterPoll, Abandon;
    match call
    case CallConnect(users) =>
      if UnderWay(m) { PumpIs(m); }
    case CallFetchUserData(user) => FetchEnters(m, user);
    case CallFetchRandomUser => RandomEnters(m);
    case CallAddToWWR(user) => AddEnters(m, user);
    case _ =>
  }

  lemma AddEnters(m: Mgr, user: bytes)
    requires !m.session.phase.PhaseOnline?
    ensures AddToWWR(m, user).m.session == m.session
  {
    hide Pump, Parse, BeginAdd, FinishAdd;
  }

  lemma FetchEnters(m: Mgr, user: bytes)
    requires !m.session.phase.PhaseOnline?
    ensures FetchUserData(m, user).m.session == m.session || FetchUserData(m, user).m.session == Pump(m).session
  {
    hide Pump, Parse, TimeAfter, Poll, AfterPoll, Abandon;
  }

  lemma RandomEnters(m: Mgr)
    requires !m.session.phase.PhaseOnline?
    ensures FetchRandomUser(m).m.session == m.session || FetchRandomUser(m).m.session == Pump(m).session
  {
    hide Pump, TimeAfter, Poll, AfterPoll, Abandon;
  }

  /** What a caller can rely on at every moment of every run. */
  lemma PhasesOverRuns(m: Mgr, calls: seq<Call>)
    requires Core(m)
    ensures var r := DoAll(m, calls);
            && (r.session.phase.PhaseOnline?
                ==> r.session.lastError == ErrorOk && r.session.rawError == 0 && r.session.server.uid != 0)
            && (r.session.phase.PhaseFailed? ==> r.session.lastError != ErrorOk)
            && (r.session.phase.PhaseIdle? || r.session.phase.PhaseFailed? ==> !Alive(r.sock))
  {
    hide DoAll, WatchOk, SockOk, OutOk;
    RunCore(m, calls);
  }

  /** Bytes are neither lost nor reordered on the way in, across Close, until the next connection begins. */
  lemma InboundOverRuns(m: Mgr, calls: seq<Call>)
    requires Core(m)
    ensures DoAll(m, calls).sock.consumed + DoAll(m, calls).sock.input == DoAll(m, calls).sock.received
  {
    hide DoAll, WatchOk, OutOk;
    RunCore(m, calls);
  }
}
