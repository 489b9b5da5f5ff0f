/** The Redis keys that record which senders a user's bot has already met. */
module ResponderKeys {
  import opened Options

  type UInt32 = n: int | 0 <= n < 0x1_0000_0000
  type UInt64 = n: int | 0 <= n < 0x1_0000_0000_0000_0000
  type Int64 = n: int | -0x8000_0000_0000_0000 <= n < 0x8000_0000_0000_0000

  // Go's conversions between int64 and uint64 wrap around.
  function Signed(n: UInt64): Int64 {
    if n < 0x8000_0000_0000_0000 then n else n - 0x1_0000_0000_0000_0000
  }

  function Unsigned(n: Int64): UInt64 {
    if n >= 0 then n else n + 0x1_0000_0000_0000_0000
  }

  lemma SignedRoundTrip(n: UInt64)
    ensures Unsigned(Signed(n)) == n && (Signed(n) == n || Signed(n) == n - 0x1_0000_0000_0000_0000)
  {
  }

  // ---------------------------------------------------------------- printing

  function Digit(d: nat): char
    requires d < 10
  {
    '0' + d as char
  }

  // %d of a non-negative integer.
  function Decimal(n: nat): string {
    if n < 10 then [Digit(n)] else Decimal(n / 10) + [Digit(n % 10)]
  }

  // %d of an integer.
  function FormatInt(n: int): string {
    if n < 0 then "-" + Decimal(-n) else Decimal(n)
  }

  function UserPrefix(user: UInt32): string {
    "known_responder:3:" + FormatInt(user) + ":"
  }

  function KnownResponderKey(user: UInt32, sender: Int64): string {
    "known_responder:3:" + FormatInt(user) + ":" + FormatInt(sender)
  }

  // ---------------------------------------------------------------- parsing

  predicate IsDigit(c: char) {
    '0' <= c <= '9'
  }

  // The value of a non-empty string of digits.
  function ParseDigits(s: string): Option<nat> {
    if s == [] || !IsDigit(s[|s| - 1]) then None
    else
      var last := (s[|s| - 1] - '0') as nat;
      if |s| == 1 then Some(last)
      else
        match ParseDigits(s[..|s| - 1])
        case None => None
        case Some(high) => Some(10 * high + last)
  }

  // strconv.ParseInt(s, 10, 64): an optional sign, digits, and a value in range.
  function ParseInt64(s: string): Option<Int64> {
    if s == [] then None
    else
      var negative := s[0] == '-';
      var digits := if s[0] == '-' || s[0] == '+' then s[1..] else s;
      match ParseDigits(digits)
      case None => None
      case Some(n) =>
        if negative then (if n <= 0x8000_0000_0000_0000 then var v: int := n; Some(-v) else None)
        else if n < 0x8000_0000_0000_0000 then Some(n)
        else None
  }

  function ParseKnownResponderKey(user: UInt32, key: string): Option<Int64> {
    if UserPrefix(user) <= key then ParseInt64(key[|UserPrefix(user)|..]) else None
  }

  // ---------------------------------------------------------------- round trips

  lemma {:induction false} DecimalIsDigits(n: nat)
    ensures Decimal(n) != [] && forall i :: 0 <= i < |Decimal(n)| ==> IsDigit(Decimal(n)[i])
  {
    if n >= 10 {
      DecimalIsDigits(n / 10);
    }
  }

  lemma {:induction false} DecimalRoundTrip(n: nat)
    ensures ParseDigits(Decimal(n)) == Some(n)
  {
    DecimalIsDigits(n);
    if n >= 10 {
      DecimalRoundTrip(n / 10);
      assert Decimal(n)[..|Decimal(n)| - 1] == Decimal(n / 10);
    }
  }

  // The digits are those of the decimal system: no leading zero, and each is worth ten of the next.
  lemma {:induction false} DecimalIsCanonical(n: nat)
    ensures n > 0 ==> Decimal(n)[0] != '0'
    ensures n == 0 ==> Decimal(n) == "0"
    ensures Decimal(10 * n + 7) == (if n == 0 then "" else Decimal(n)) + "7"
  {
    if n >= 10 {
      DecimalIsCanonical(n / 10);
    }
  }

  // A number that no int64 can hold does not parse, and nor does anything with a character that is no
  // digit.
  lemma OutOfRangeDoesNotParse(n: nat)
    ensures n >= 0x8000_0000_0000_0000 ==> ParseInt64(Decimal(n)) == None
    ensures n > 0x8000_0000_0000_0000 ==> ParseInt64("-" + Decimal(n)) == None
  {
    DecimalIsDigits(n);
    DecimalRoundTrip(n);
    assert ("-" + Decimal(n))[1..] == Decimal(n);
  }

  lemma {:induction false} NonDigitsDoNotParse(s: string, i: nat)
    requires i < |s| && !IsDigit(s[i])
    ensures ParseDigits(s) == None
    ensures i > 0 || (s[0] != '-' && s[0] != '+') ==> ParseInt64(s) == None
  {
    if i < |s| - 1 {
      NonDigitsDoNotParse(s[..|s| - 1], i);
    }
    if |s| > 1 && i > 0 && (s[0] == '-' || s[0] == '+') {
      NonDigitsDoNotParse(s[1..], i - 1);
    }
  }

  // Printing an int64 and parsing it gives it back.
  lemma FormatRoundTrip(n: Int64)
    ensures ParseInt64(FormatInt(n)) == Some(n)
  {
    var v: int := n;
    var magnitude: nat := if v < 0 then -v else v;
    DecimalIsDigits(magnitude);
    DecimalRoundTrip(magnitude);
    if n < 0 {
      assert FormatInt(n)[1..] == Decimal(magnitude);
    }
  }

  // A user's key parses back to its sender.
  lemma KeyRoundTrip(user: UInt32, sender: Int64)
    ensures ParseKnownResponderKey(user, KnownResponderKey(user, sender)) == Some(sender)
  {
    var key := KnownResponderKey(user, sender);
    assert key == UserPrefix(user) + FormatInt(sender);
    assert key[|UserPrefix(user)|..] == FormatInt(sender);
    FormatRoundTrip(sender);
  }

  // The digits before the first colon are determined by the whole string.
  lemma DigitsBeforeColon(a: string, b: string, restA: string, restB: string)
    requires forall i :: 0 <= i < |a| ==> IsDigit(a[i])
    requires forall i :: 0 <= i < |b| ==> IsDigit(b[i])
    requires a + ":" + restA == b + ":" + restB
    ensures a == b
  {
    ColonAt(a, restA, |b|);
    ColonAt(b, restB, |a|);
    assert a == (a + ":" + restA)[..|a|] && b == (b + ":" + restB)[..|b|];
  }

  // No colon stands among the digits, so one at position k stands after them.
  lemma ColonAt(a: string, rest: string, k: nat)
    requires forall i :: 0 <= i < |a| ==> IsDigit(a[i])
    ensures |a + ":" + rest| > |a| && (a + ":" + rest)[|a|] == ':'
    ensures k < |a + ":" + rest| && (a + ":" + rest)[k] == ':' ==> |a| <= k
  {
    if k < |a| {
      assert (a + ":" + rest)[k] == a[k];
    }
  }

  // A key of one user never parses for another.
  lemma KeysOfOthersDoNotParse(user: UInt32, other: UInt32, sender: Int64)
    requires user != other
    ensures ParseKnownResponderKey(other, KnownResponderKey(user, sender)) == None
  {
    var key := KnownResponderKey(user, sender);
    if UserPrefix(other) <= key {
      OwnPrefix(user, other, key, FormatInt(sender), key[|UserPrefix(other)|..]);
      assert false;
    }
  }

  // A key starts with one user's prefix only.
  lemma OwnPrefix(user: UInt32, other: UInt32, key: string, rest: string, otherRest: string)
    requires key == UserPrefix(user) + rest && key == UserPrefix(other) + otherRest
    ensures user == other
  {
    var head := "known_responder:3:";
    AfterHead(head, FormatInt(user), rest);
    AfterHead(head, FormatInt(other), otherRest);
    DecimalIsDigits(user);
    DecimalIsDigits(other);
    DigitsBeforeColon(FormatInt(user), FormatInt(other), rest, otherRest);
    DecimalRoundTrip(user);
    DecimalRoundTrip(other);
  }

  lemma AfterHead(head: string, user: string, rest: string)
    ensures (head + user + ":" + rest)[|head|..] == user + ":" + rest
  {
  }

  // So keys are distinct for distinct users and senders.
  lemma KeyIsInjective(user: UInt32, sender: Int64, other: UInt32, otherSender: Int64)
    requires KnownResponderKey(user, sender) == KnownResponderKey(other, otherSender)
    ensures user == other && sender == otherSender
  {
    KeyRoundTrip(user, sender);
    KeyRoundTrip(other, otherSender);
    if user != other {
      KeysOfOthersDoNotParse(user, other, sender);
    }
  }

  // What a key looks like.
  lemma KeyLooksLike()
    ensures KnownResponderKey(4096, -15) == "known_responder:3:4096:-15"
    ensures KnownResponderKey(0, 70) == "known_responder:3:0:70"
  {
    assert Decimal(4) == "4" && Decimal(40) == "40" && Decimal(409) == "409" && Decimal(4096) == "4096";
    assert Decimal(1) == "1" && Decimal(15) == "15" && Decimal(7) == "7" && Decimal(70) == "70" && Decimal(0) == "0";
    assert FormatInt(-15) == "-15";
  }

  // The parser accepts more than the printer writes: a foreign key such as one with an explicit
  // plus sign parses to a sender whose own key is different.
  lemma ParserAcceptsForeignKeys(user: UInt32)
    ensures ParseKnownResponderKey(user, UserPrefix(user) + "+5") == Some(5)
    ensures KnownResponderKey(user, 5) != UserPrefix(user) + "+5"
  {
    assert (UserPrefix(user) + "+5")[|UserPrefix(user)|..] == "+5";
    assert KnownResponderKey(user, 5) == UserPrefix(user) + "5";
    assert "+5"[1..] == "5";
    assert |UserPrefix(user) + "+5"| == |UserPrefix(user) + "5"| + 1;
  }
}
