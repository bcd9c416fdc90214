/** The wrapping 32-bit millisecond clock. */
module Clock {
  import opened Bytes

  /** How long one wait or sleep can last without the wrapping clock losing track of a deadline. */
  type Nap = n: int | 0 < n < 0x8000_0000 witness 1

  /** The clock reading the client sees at a real time in milliseconds. */
  function NowMs(time: nat): uint32 {
    ToUint32(time)
  }

  /** `NowMs() + timeout` */
  function Deadline(now: uint32, timeout: nat): uint32 {
    ToUint32(now + timeout)
  }

  /** Has the deadline passed? The difference is taken as a signed number. */
  predicate TimeAfter(now: uint32, deadline: uint32) {
    Signed(ToUint32(now - deadline)) >= 0
  }

  /** On wrapped readings TimeAfter agrees with real time exactly when the two times lie in the same
      2^31 ms window; outside it the answer repeats with period 2^32. */
  lemma TimeAfterReal(time: nat, start: nat, timeout: nat)
    ensures Deadline(NowMs(start), timeout) == NowMs(start + timeout)
    ensures TimeAfter(NowMs(time), NowMs(start + timeout)) <==> (time - start - timeout) % TWO_32 < TWO_31
    ensures -TWO_31 <= time - start - timeout < TWO_31 ==>
              (TimeAfter(NowMs(time), NowMs(start + timeout)) <==> time >= start + timeout)
  {
    Wrapped(start, timeout);
    var d := start + timeout;
    var n, m: int := NowMs(time), NowMs(d);
    assert (n - m - (time - d)) % TWO_32 == 0 by {
      assert time == time / TWO_32 * TWO_32 + n && d == d / TWO_32 * TWO_32 + m;
      assert n - m - (time - d) == TWO_32 * (d / TWO_32 - time / TWO_32);
    }
    SameResidue(n - m, time - d);
  }

  lemma Wrapped(a: nat, b: nat)
    ensures ToUint32(ToUint32(a) + b) == ToUint32(a + b)
  {
    assert a == a / TWO_32 * TWO_32 + a % TWO_32;
    assert a + b - (a % TWO_32 + b) == TWO_32 * (a / TWO_32);
    SameResidue(a % TWO_32 + b, a + b);
  }

  lemma SameResidue(x: int, y: int)
    requires (x - y) % TWO_32 == 0
    ensures x % TWO_32 == y % TWO_32
  {
    var k := (x - y) / TWO_32;
    assert x == y + k * TWO_32;
    assert x == (y / TWO_32 + k) * TWO_32 + y % TWO_32;
  }

  /** A deadline that has not passed lies in the future, as long as the clock is not half a cycle ahead. */
  lemma StillBefore(time: nat, deadline: nat)
    requires time < deadline + TWO_31 && deadline <= time + TWO_31 && !TimeAfter(NowMs(time), NowMs(deadline))
    ensures time < deadline
  {
    TimeAfterReal(time, deadline, 0);
  }
}
