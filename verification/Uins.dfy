/** User identities, written "uid+hid", and the spool file names that carry them. */
module Uins {
  import opened Bytes

  const PLUS: byte := 43
  const MINUS: byte := 45
  const DOT: byte := 46
  const SLASH: byte := 47
  const ZERO: byte := 48
  const BACKSLASH: byte := 92

  predicate Digit(c: byte) {
    ZERO <= c <= ZERO + 9
  }

  predicate Digits(s: bytes) {
    forall i | 0 <= i < |s| :: Digit(s[i])
  }

  /** A decimal number as printf writes it. */
  function Decimal(n: nat): (r: bytes)
    ensures Digits(r) && |r| > 0
    ensures r[0] == ZERO ==> r == [ZERO]
    ensures n > 0 ==> r[0] != ZERO
  {
    if n < 10 then [ZERO + n] else Decimal(n / 10) + [ZERO + n % 10]
  }

  function Value(s: bytes): nat
    requires Digits(s)
  {
    if s == [] then 0 else 10 * Value(s[..|s| - 1]) + (s[|s| - 1] - ZERO)
  }

  /** `%d` */
  function Print(i: int32): bytes {
    if i < 0 then [MINUS] + Decimal(-(i as int)) else Decimal(i)
  }

  /** atoi over plain digits: strtol saturates at 63 bits, then the result is cut to an int. */
  function Atoi(s: bytes): int32
    requires Digits(s)
  {
    var v := Value(s);
    ToInt32(if v < 0x8000_0000_0000_0000 then v else 0x7FFF_FFFF_FFFF_FFFF)
  }

  lemma {:induction false} ValueOfDecimal(n: nat)
    ensures Value(Decimal(n)) == n
  {
    if n >= 10 {
      ValueOfDecimal(n / 10);
      assert Decimal(n)[..|Decimal(n)| - 1] == Decimal(n / 10);
    } else {
      assert Decimal(n)[..0] == [];
    }
  }

  lemma DecimalInjective(m: nat, n: nat)
    requires Decimal(m) == Decimal(n)
    ensures m == n
  {
    ValueOfDecimal(m);
    ValueOfDecimal(n);
  }

  function StripZeros(s: bytes): bytes {
    if |s| > 1 && s[0] == ZERO then StripZeros(s[1..]) else s
  }

  lemma {:induction false} StripZerosSnoc(s: bytes, c: byte)
    requires |s| > 0
    ensures StripZeros(s + [c]) == if StripZeros(s) == [ZERO] then [c] else StripZeros(s) + [c]
  {
    assert (s + [c])[1..] == s[1..] + [c];
    if s[0] == ZERO && |s| > 1 {
      StripZerosSnoc(s[1..], c);
    }
  }

  /** Printing a parsed number gives the digits back without their leading zeros. */
  lemma {:induction false} DecimalOfValue(s: bytes)
    requires Digits(s) && |s| > 0
    ensures Decimal(Value(s)) == StripZeros(s)
  {
    var init, last := s[..|s| - 1], s[|s| - 1];
    assert s == init + [last];
    if init == [] {
      assert Value(s) == last - ZERO;
    } else {
      DecimalOfValue(init);
      StripZerosSnoc(init, last);
      var v := Value(init);
      assert Value(s) == 10 * v + (last - ZERO);
      if v == 0 {
        assert Decimal(0) == [ZERO];
      } else {
        assert Decimal(v)[0] != ZERO;
      }
    }
  }

  /** std::string::find: the first position of a character, or -1. */
  function FirstIndex(s: bytes, c: byte): (r: int)
    ensures -1 <= r < |s|
    ensures r >= 0 ==> s[r] == c && c !in s[..r]
    ensures r < 0 ==> c !in s
  {
    if s == [] then -1
    else if s[0] == c then 0
    else
      var r := FirstIndex(s[1..], c);
      assert s == [s[0]] + s[1..];
      if r < 0 then -1 else
        assert s[..r + 1] == [s[0]] + s[1..][..r];
        r + 1
  }

  /** std::string::find_last_of: the last position of any character of a set, or -1. */
  function LastIndex(s: bytes, cs: set<byte>): (r: int)
    ensures -1 <= r < |s|
    ensures r >= 0 ==> s[r] in cs
  {
    if s == [] then -1
    else if s[|s| - 1] in cs then |s| - 1
    else LastIndex(s[..|s| - 1], cs)
  }

  datatype Uin = Uin(uid: int32, hid: int32) {
    function ToString(): bytes {
      Print(uid) + [PLUS] + Print(hid)
    }
  }

  const NO_UIN := Uin(0, 0)

  /** Both halves are plain digits around one plus sign. */
  predicate Addressed(s: bytes) {
    var plus := FirstIndex(s, PLUS);
    0 < plus && plus + 1 < |s| && Digits(s[..plus]) && Digits(s[plus + 1..])
  }

  /** What FromString makes of a string: the identity, or nothing. */
  function Parse(s: bytes): Option<Uin> {
    if !Addressed(s) then None
    else
      var plus := FirstIndex(s, PLUS);
      Some(Uin(Atoi(s[..plus]), Atoi(s[plus + 1..])))
  }

  /** BabelUIN::FromString. */
  method FromString(s: bytes) returns (ok: bool, uin: Uin)
    ensures ok <==> Parse(s).Some?
    ensures uin == if ok then Parse(s).value else NO_UIN
  {
    uin := NO_UIN;
    var plus := FirstIndex(s, PLUS);
    if plus == -1 || plus == 0 || plus + 1 >= |s| {
      return false, uin;
    }
    var i := 0;
    while i < |s|
      invariant 0 <= i <= |s|
      invariant forall j | 0 <= j < i && j != plus :: Digit(s[j])
    {
      if i != plus && (s[i] < ZERO || s[i] > ZERO + 9) {
        if i < plus {
          assert !Digit(s[..plus][i]);
        } else {
          assert !Digit(s[plus + 1..][i - plus - 1]);
        }
        return false, uin;
      }
      i := i + 1;
    }
    uin := Uin(Atoi(s[..plus]), Atoi(s[plus + 1..]));
    return true, uin;
  }

  lemma FirstPlus(left: bytes, right: bytes)
    requires PLUS !in left
    ensures FirstIndex(left + [PLUS] + right, PLUS) == |left|
  {
    var s := left + [PLUS] + right;
    var r := FirstIndex(s, PLUS);
    assert s[|left|] == PLUS;
    assert forall i | 0 <= i < |left| :: s[i] == left[i];
  }

  lemma PrintHasNoPlus(i: int32)
    ensures PLUS !in Print(i)
    ensures Digits(Print(i)) <==> i >= 0
  {
    var p := Print(i);
    if i < 0 {
      assert p[0] == MINUS && p[1..] == Decimal(-(i as int));
    }
    forall j | 0 <= j < |p| ensures p[j] != PLUS {
      if i < 0 && j > 0 {
        assert p[j] == Decimal(-(i as int))[j - 1];
      }
    }
  }

  /** FromString undoes ToString exactly for the identities without a negative half. */
  lemma ParseToString(u: Uin)
    ensures Parse(u.ToString()) == Some(u) <==> u.uid >= 0 && u.hid >= 0
    ensures Parse(u.ToString()).Some? ==> Parse(u.ToString()) == Some(u)
  {
    var left, right := Print(u.uid), Print(u.hid);
    var s := u.ToString();
    PrintHasNoPlus(u.uid);
    PrintHasNoPlus(u.hid);
    FirstPlus(left, right);
    assert s[..|left|] == left && s[|left| + 1..] == right;
    if u.uid >= 0 && u.hid >= 0 {
      ValueOfDecimal(u.uid);
      ValueOfDecimal(u.hid);
    }
  }

  /** ToString after FromString strips leading zeros and nothing else. */
  lemma ToStringParse(s: bytes)
    requires Addressed(s)
    requires Value(s[..FirstIndex(s, PLUS)]) < TWO_31 && Value(s[FirstIndex(s, PLUS) + 1..]) < TWO_31
    ensures Parse(s).value.ToString()
         == StripZeros(s[..FirstIndex(s, PLUS)]) + [PLUS] + StripZeros(s[FirstIndex(s, PLUS) + 1..])
  {
    var plus := FirstIndex(s, PLUS);
    DecimalOfValue(s[..plus]);
    DecimalOfValue(s[plus + 1..]);
  }

  /** The spelling of an identity that ToString would produce. */
  predicate Canonical(user: bytes) {
    Parse(user).Some? && Parse(user).value.ToString() == user
  }

  // ---- spool file names ----

  const DOT_WARP: bytes := [DOT] + [119, 97, 114, 112]
  const T_DASH: bytes := [84, MINUS]

  /** sprintf(name, "%uT-%d+%d.warp", serial, uid, hid) */
  function SpoolName(serial: uint32, u: Uin): bytes {
    Decimal(serial) + T_DASH + u.ToString() + DOT_WARP
  }

  function EnsureTrailingSeparator(directory: bytes): bytes {
    if directory == [] || directory[|directory| - 1] == SLASH || directory[|directory| - 1] == BACKSLASH
    then directory else directory + [SLASH]
  }

  function BaseName(path: bytes): bytes {
    path[LastIndex(path, {SLASH, BACKSLASH}) + 1..]
  }

  /** The user id encoded in a spool file name, or "". */
  function UserFromSpoolName(name: bytes): bytes {
    var lastDot := LastIndex(name, {DOT});
    var lastDash := LastIndex(name, {MINUS});
    if lastDot == -1 || lastDash == -1 || lastDash + 1 >= lastDot then []
    else
      var user := name[lastDash + 1..lastDot];
      if Parse(user).None? then [] else user
  }

  lemma {:induction false} LastIndexIs(before: bytes, c: byte, after: bytes, cs: set<byte>)
    requires c in cs && forall x | x in after :: x !in cs
    ensures LastIndex(before + [c] + after, cs) == |before|
  {
    var s := before + [c] + after;
    if after != [] {
      var n := |after| - 1;
      assert s[|s| - 1] == after[n] && s[..|s| - 1] == before + [c] + after[..n];
      LastIndexIs(before, c, after[..n], cs);
    }
  }

  /** A directory as SetOutboxDirectory and SetInboxDirectory keep it. */
  predicate Normalised(directory: bytes) {
    directory != [] && EnsureTrailingSeparator(directory) == directory
  }

  predicate PlainUin(u: Uin) {
    u.uid >= 0 && u.hid >= 0
  }

  lemma ToStringCharacters(u: Uin)
    requires PlainUin(u)
    ensures Plain(u.ToString())
  {
  }

  predicate Plain(s: bytes) {
    forall c | c in s :: Digit(c) || c == PLUS
  }

  lemma SpoolShape(number: bytes, user: bytes)
    requires Plain(number) && Plain(user) && Parse(user).Some?
    ensures UserFromSpoolName(number + T_DASH + user + DOT_WARP) == user
  {
    hide LastIndex, Parse, Plain;
    var name, n := number + T_DASH + user + DOT_WARP, |number|;
    DashMark(number, user);
    DotMark(number, user);
    assert name[n + 2..n + 2 + |user|] == user;
    assert |user| > 0 by { ParsedIsNotEmpty(user); }
  }

  lemma ParsedIsNotEmpty(user: bytes)
    requires Parse(user).Some?
    ensures user != []
  {
  }

  lemma DashMark(number: bytes, user: bytes)
    requires Plain(user)
    ensures LastIndex(number + T_DASH + user + DOT_WARP, {MINUS}) == |number| + 1
  {
    hide LastIndex;
    var head, tail := number + [84], user + DOT_WARP;
    assert forall x | x in tail :: x !in {MINUS} by {
      forall x | x in tail ensures x !in {MINUS} {
        assert x in user || x in DOT_WARP;
      }
    }
    Regroup(number, 84, MINUS, user, DOT_WARP);
    LastIndexIs(head, MINUS, tail, {MINUS});
  }

  lemma Regroup(a: bytes, x: byte, y: byte, b: bytes, c: bytes)
    ensures a + [x, y] + b + c == (a + [x]) + [y] + (b + c)
  {
  }

  lemma DotMark(number: bytes, user: bytes)
    ensures LastIndex(number + T_DASH + user + DOT_WARP, {DOT}) == |number| + 2 + |user|
  {
    ExtensionDot(number + T_DASH + user);
  }

  lemma ExtensionDot(head: bytes)
    ensures LastIndex(head + DOT_WARP, {DOT}) == |head|
  {
    hide LastIndex;
    var tail: bytes := [119, 97, 114, 112];
    LastDot(head, tail);
  }

  lemma LastDot(head: bytes, tail: bytes)
    requires DOT !in tail
    ensures LastIndex(head + ([DOT] + tail), {DOT}) == |head|
  {
    hide LastIndex;
    assert head + ([DOT] + tail) == head + [DOT] + tail;
    LastIndexIs(head, DOT, tail, {DOT});
  }

  lemma NoSeparator(number: bytes, user: bytes)
    requires Plain(number) && Plain(user)
    ensures forall x | x in number + T_DASH + user + DOT_WARP :: x !in {SLASH, BACKSLASH}
  {
    forall x | x in number + T_DASH + user + DOT_WARP ensures x !in {SLASH, BACKSLASH} {
      assert x in number || x in T_DASH || x in user || x in DOT_WARP;
    }
  }

  /** A spool path gives back its file name, and the name gives back the user it was made for. */
  lemma SpoolPathUser(directory: bytes, serial: uint32, u: Uin)
    requires Normalised(directory) && PlainUin(u)
    ensures BaseName(directory + SpoolName(serial, u)) == SpoolName(serial, u)
    ensures UserFromSpoolName(SpoolName(serial, u)) == u.ToString()
  {
    hide LastIndex, UserFromSpoolName, SpoolName, Parse;
    SpoolNameUser(serial, u);
    var name := SpoolName(serial, u);
    var stem, last := directory[..|directory| - 1], directory[|directory| - 1];
    assert directory + name == stem + [last] + name;
    LastIndexIs(stem, last, name, {SLASH, BACKSLASH});
    assert (directory + name)[|directory|..] == name;
  }

  lemma SpoolNameUser(serial: uint32, u: Uin)
    requires PlainUin(u)
    ensures UserFromSpoolName(SpoolName(serial, u)) == u.ToString()
    ensures forall x | x in SpoolName(serial, u) :: x !in {SLASH, BACKSLASH}
  {
    hide LastIndex, UserFromSpoolName, Parse;
    ToStringCharacters(u);
    ParseToString(u);
    SpoolShape(Decimal(serial), u.ToString());
    NoSeparator(Decimal(serial), u.ToString());
  }

  /** Different serials give different names. */
  lemma SpoolNameInjective(a: uint32, b: uint32, u: Uin)
    requires SpoolName(a, u) == SpoolName(b, u)
    ensures a == b
  {
    hide Decimal;
    var tail := T_DASH + u.ToString() + DOT_WARP;
    assert SpoolName(a, u) == Decimal(a) + tail && SpoolName(b, u) == Decimal(b) + tail;
    var n := |SpoolName(a, u)| - |tail|;
    assert Decimal(a) == SpoolName(a, u)[..n] == SpoolName(b, u)[..n] == Decimal(b);
    DecimalInjective(a, b);
  }
}
