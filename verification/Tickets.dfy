/** Ticket numbers and the table of transactions the client is waiting on. */
module Tickets {
  import opened Bytes
  import opened Uins
  import opened Protocol

  datatype Kind = ClientInfo | ConnectionDetail | Status | RandomUser | History | Abandoned

  datatype Transaction = Transaction(kind: Kind, fixedExtra: nat, done: bool, success: bool,
                                     resultUin: Uin, resultString: bytes, resultInts: seq<int32>)

  /** What was asked under a ticket, about whom, and on which connection. */
  datatype Ask = Ask(kind: Kind, fixedExtra: nat, subject: bytes, connection: nat)

  /** A response as it was dispatched, and the connection it came in on. */
  datatype Answer = Answer(header: Header, body: bytes, connection: nat)

  /** The counter and the table, with their history: how many tickets were ever taken, every request
      ever started, how many connections were ever begun, and the last response under each ticket. */
  datatype Tickets = Tickets(next: int32, table: map<int32, Transaction>,
                             taken: nat, asks: map<int32, Ask>, connection: nat, answers: map<int32, Answer>)

  function FreshTickets(): Tickets {
    Tickets(0, map[], 0, map[], 0, map[])
  }

  function Started(kind: Kind, fixedExtra: nat): Transaction {
    Transaction(kind, fixedExtra, false, false, NO_UIN, [], [0, 0, 0, 0])
  }

  /** Tickets repeat after 2^32 - 1 of them. */
  const CYCLE: int := 0xFFFF_FFFF

  /** The k-th ticket ever taken. */
  function TicketAt(k: nat): int32 {
    if k == 0 then 0 else ToInt32((k - 1) % CYCLE + 1)
  }

  /** NextTicket: the counter wraps and skips zero. */
  function NextTicket(t: Tickets): Tickets {
    var n := ToInt32(t.next + 1);
    t.(next := if n == 0 then ToInt32(n + 1) else n, taken := t.taken + 1)
  }

  /** The counter follows the closed form: it runs through all non-zero values before repeating one. */
  lemma NextTicketIs(t: Tickets)
    requires t.next == TicketAt(t.taken)
    ensures NextTicket(t).next == TicketAt(t.taken + 1) != 0
  {
    if t.taken > 0 {
      CycleStep(t.taken - 1);
      TicketStep((t.taken - 1) % CYCLE);
    }
  }

  /** The step within a cycle, in 32-bit arithmetic. */
  lemma TicketStep(r: nat)
    requires r < CYCLE
    ensures ToInt32(r + 1) != 0
    ensures r + 1 < CYCLE ==> ToInt32(ToInt32(r + 1) + 1) == ToInt32(r + 2)
    ensures r + 1 == CYCLE ==> ToInt32(ToInt32(r + 1) + 1) == 0
  {
  }

  lemma CycleStep(n: nat)
    ensures (n + 1) % CYCLE == if n % CYCLE + 1 == CYCLE then 0 else n % CYCLE + 1
  {
    var q, r := n / CYCLE, n % CYCLE;
    assert n + 1 == q * CYCLE + (r + 1);
    if r + 1 == CYCLE {
      assert n + 1 == (q + 1) * CYCLE + 0;
    }
  }

  /** No ticket is zero, and two tickets are the same exactly when a whole number of cycles lies between them. */
  lemma TicketsRepeat(j: nat, k: nat)
    requires 1 <= j && 1 <= k
    ensures TicketAt(j) != 0
    ensures TicketAt(j) == TicketAt(k) <==> (j - 1) % CYCLE == (k - 1) % CYCLE
  {
  }

  /** Below the first wrap a ticket number is simply its position. */
  predicate Taken(t: Tickets, ticket: int32) {
    1 <= Unsigned(ticket) <= t.taken
  }

  function Start(t: Tickets, kind: Kind, fixedExtra: nat, subject: bytes): Tickets {
    var n := NextTicket(t);
    n.(table := n.table[n.next := Started(kind, fixedExtra)],
       asks := n.asks[n.next := Ask(kind, fixedExtra, subject, n.connection)])
  }

  /** Under this ticket the client asked a question of this kind about this subject. */
  predicate Asks(t: Tickets, ticket: int32, kind: Kind, fixedExtra: nat, subject: bytes) {
    && ticket in t.asks && t.asks[ticket].kind == kind
    && t.asks[ticket].fixedExtra == fixedExtra && t.asks[ticket].subject == subject
  }

  /** It asked on the connection at hand. */
  predicate Current(t: Tickets, ticket: int32) {
    ticket in t.asks && t.asks[ticket].connection == t.connection
  }

  /** The connection is the next one. */
  function NextConnection(t: Tickets): Tickets {
    t.(connection := t.connection + 1)
  }

  function Without<K, V>(m: map<K, V>, k: K): map<K, V> {
    m - {k}
  }

  /** AbandonTransaction: a request still owed its response stays as a tombstone. */
  function Abandon(t: Tickets, ticket: int32): Tickets {
    if ticket !in t.table then t
    else if t.table[ticket].done then t.(table := Without(t.table, ticket))
    else t.(table := t.table[ticket := t.table[ticket].(kind := Abandoned)])
  }

  datatype Polled = Missing | Pending | Finished(result: Transaction)

  /** PollTransaction: what the caller learns, */
  function Poll(t: Tickets, ticket: int32): Polled {
    if ticket !in t.table then Missing
    else if !t.table[ticket].done then Pending
    else Finished(t.table[ticket])
  }

  /** and the table afterwards. */
  function AfterPoll(t: Tickets, ticket: int32): Tickets {
    if Poll(t, ticket).Finished? then t.(table := Without(t.table, ticket)) else t
  }

  /** HandleTransactionResponse: the body is the fixed extra bytes, then the further data. */
  function Respond(tr: Transaction, h: Header, body: bytes): Transaction
    requires 0 <= h.furtherData && |body| == tr.fixedExtra + h.furtherData
  {
    var done := tr.(done := true, success := false);
    match tr.kind
    case ClientInfo =>
      if h.furtherData > 0 then
        match ParseUser(body[tr.fixedExtra..])
        case Some(u) => done.(success := true, resultUin := u.uin, resultString := u.nickName)
        case None => done
      else done
    case ConnectionDetail => done.(success := (h.a != 0 && h.b != 0) || h.e != 0)
    case Status =>
      if |body| >= 16 then
        done.(success := true, resultInts := [GetInt(body, 0), GetInt(body, 4), GetInt(body, 8), GetInt(body, 12)])
      else done
    case RandomUser => if h.e == 1 then done.(success := true, resultUin := Uin(h.c, h.d)) else done
    case History => done.(success := true)
    case Abandoned => done
  }

  /** The table after a response: a tombstone has done its work and goes. */
  function Answered(t: Tickets, h: Header, body: bytes): Tickets
    requires h.ticket in t.table && 0 <= h.furtherData && |body| == t.table[h.ticket].fixedExtra + h.furtherData
  {
    var tr := Respond(t.table[h.ticket], h, body);
    t.(table := if tr.kind == Abandoned then Without(t.table, h.ticket) else t.table[h.ticket := tr],
       answers := t.answers[h.ticket := Answer(h, body, t.connection)])
  }

  function Cleared(t: Tickets): Tickets {
    t.(table := map[])
  }

  // ---- answers belong to their requests ----

  /** The transaction under a ticket is the request that took that ticket: unanswered, abandoned, or
      holding the decoding, as that request's own kind, of a response that bore that very ticket. */
  predicate Faithful(t: Tickets, ticket: int32)
    requires ticket in t.table
  {
    var tr := t.table[ticket];
    && ticket in t.asks
    && tr.fixedExtra == t.asks[ticket].fixedExtra
    && (!tr.done ==> ticket !in t.answers)
    && (if tr.kind == Abandoned then !tr.done
        else
          && tr.kind == t.asks[ticket].kind
          && if !tr.done then tr == Started(tr.kind, tr.fixedExtra)
             else
               Unmixed(tr) && ticket in t.answers && t.answers[ticket].header.ticket == ticket
               && Decodes(t.answers[ticket], t.asks[ticket], tr))
  }

  /** Only the result fields of the transaction's own kind are ever written. */
  predicate Unmixed(tr: Transaction) {
    && (tr.kind != ClientInfo ==> tr.resultString == [])
    && (tr.kind != ClientInfo && tr.kind != RandomUser ==> tr.resultUin == NO_UIN)
    && (tr.kind != Status ==> tr.resultInts == [0, 0, 0, 0])
  }

  /** tr succeeds exactly when the response, read as an answer to the question asked, does; and then it
      is that answer. (A failed second response leaves the first one's results standing, marked failed.) */
  predicate Decodes(answer: Answer, ask: Ask, tr: Transaction) {
    && 0 <= answer.header.furtherData
    && |answer.body| == ask.fixedExtra + answer.header.furtherData
    && (var first := Respond(Started(ask.kind, ask.fixedExtra), answer.header, answer.body);
        tr.success == first.success && (tr.success ==> tr == first))
  }

  /** Invariant of the table, while fewer than 2^32 - 1 tickets have been taken. */
  predicate TicketsOk(t: Tickets) {
    && t.next == TicketAt(t.taken)
    && t.taken <= CYCLE
    && (forall k | k in t.asks :: Taken(t, k) && t.asks[k].kind != Abandoned && t.asks[k].connection <= t.connection)
    && (forall k | k in t.table :: Faithful(t, k))
    && (forall k | k in t.answers :: k in t.asks && t.asks[k].connection <= t.answers[k].connection <= t.connection)
  }

  lemma TakenTickets(k: nat)
    requires 1 <= k <= CYCLE
    ensures Unsigned(TicketAt(k)) == k
  {
  }

  /** The next ticket was never used before. */
  lemma FreshTicket(t: Tickets)
    requires TicketsOk(t) && t.taken < CYCLE
    ensures var n := NextTicket(t).next; n != 0 && !Taken(t, n) && Taken(NextTicket(t), n)
    ensures TicketsOk(NextTicket(t))
    ensures forall k: int32 :: Taken(t, k) ==> Taken(NextTicket(t), k)
  {
    NextTicketIs(t);
    TakenTickets(t.taken + 1);
  }

  lemma StartKeeps(t: Tickets, kind: Kind, fixedExtra: nat, subject: bytes)
    requires TicketsOk(t) && t.taken < CYCLE && kind != Abandoned
    ensures TicketsOk(Start(t, kind, fixedExtra, subject))
    ensures forall k | k in t.asks ::
              k in Start(t, kind, fixedExtra, subject).asks
              && Start(t, kind, fixedExtra, subject).asks[k] == t.asks[k]
  {
    hide TicketAt, NextTicket;
    FreshTicket(t);
    var n := NextTicket(t);
    NextTicketKeeps(t);
    var s := Start(t, kind, fixedExtra, subject);
    assert n.next !in t.asks;
    forall k | k in s.table ensures Faithful(s, k) {
      if k != n.next {
        assert Faithful(t, k);
      }
    }
  }

  lemma NextTicketKeeps(t: Tickets)
    ensures NextTicket(t) == t.(next := NextTicket(t).next, taken := t.taken + 1)
  {
  }

  lemma AbandonKeeps(t: Tickets, ticket: int32)
    requires TicketsOk(t)
    ensures TicketsOk(Abandon(t, ticket))
  {
    hide Decodes, Unmixed;
    var s := Abandon(t, ticket);
    forall k | k in s.table ensures Faithful(s, k) {
      assert Faithful(t, k);
    }
  }

  lemma PollKeeps(t: Tickets, ticket: int32)
    requires TicketsOk(t)
    ensures TicketsOk(AfterPoll(t, ticket))
  {
    hide Decodes, Unmixed;
    var s := AfterPoll(t, ticket);
    forall k | k in s.table ensures Faithful(s, k) {
      assert Faithful(t, k);
    }
  }

  lemma AnsweredKeeps(t: Tickets, h: Header, body: bytes)
    requires TicketsOk(t)
    requires h.ticket in t.table && 0 <= h.furtherData && |body| == t.table[h.ticket].fixedExtra + h.furtherData
    ensures TicketsOk(Answered(t, h, body))
  {
    var s := Answered(t, h, body);
    forall k | k in s.table ensures Faithful(s, k) {
      if k == h.ticket {
        FiledIsFaithful(t, h, body);
      } else {
        hide Respond;
        assert Faithful(t, k);
      }
    }
  }

  lemma FiledIsFaithful(t: Tickets, h: Header, body: bytes)
    requires h.ticket in t.table && Faithful(t, h.ticket)
    requires 0 <= h.furtherData && |body| == t.table[h.ticket].fixedExtra + h.furtherData
    ensures h.ticket in Answered(t, h, body).table ==> Faithful(Answered(t, h, body), h.ticket)
  {
  }

  /** A ticket that was taken and is no longer in the table never comes back. */
  predicate Dead(t: Tickets, ticket: int32) {
    Taken(t, ticket) && ticket !in t.table
  }
}
