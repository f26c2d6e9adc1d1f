/** The two string operations the system relies on: trimming white space and writing
    a number in decimal. */
module Text {
  import opened Common

  /** The characters `str.strip` removes. */
  predicate IsSpace(c: char) {
    var n := c as int;
    9 <= n <= 13 || 28 <= n <= 32 || n == 0x85 || n == 0xA0 || n == 0x1680
    || 0x2000 <= n <= 0x200A || n == 0x2028 || n == 0x2029 || n == 0x202F
    || n == 0x205F || n == 0x3000
  }

  function StripLeft(s: string): string {
    if s != [] && IsSpace(s[0]) then StripLeft(s[1..]) else s
  }

  function StripRight(s: string): string {
    if s != [] && IsSpace(Last(s)) then StripRight(Front(s)) else s
  }

  function Strip(s: string): string {
    StripRight(StripLeft(s))
  }

  /** `t` is `s` without the white space before position `i` and from position `j` on. */
  predicate Trims(s: string, t: string, i: nat, j: nat) {
    && i <= j <= |s| && t == s[i..j]
    && (forall k :: 0 <= k < i ==> IsSpace(s[k]))
    && (forall k :: j <= k < |s| ==> IsSpace(s[k]))
    && (i < j ==> !IsSpace(s[i]) && !IsSpace(s[j - 1]))
  }

  lemma {:induction false} StripLeftDrops(s: string) returns (i: nat)
    ensures i <= |s| && StripLeft(s) == s[i..] && (forall k :: 0 <= k < i ==> IsSpace(s[k]))
    ensures i < |s| ==> !IsSpace(s[i])
  {
    i := 0;
    if s != [] && IsSpace(s[0]) {
      var rest := StripLeftDrops(s[1..]);
      i := rest + 1;
      assert forall k :: 1 <= k < i ==> s[k] == s[1..][k - 1];
    }
  }

  lemma {:induction false} StripRightDrops(s: string) returns (j: nat)
    ensures j <= |s| && StripRight(s) == s[..j] && (forall k :: j <= k < |s| ==> IsSpace(s[k]))
    ensures j > 0 ==> !IsSpace(s[j - 1])
  {
    j := |s|;
    if s != [] && IsSpace(Last(s)) {
      j := StripRightDrops(Front(s));
      assert forall k :: j <= k < |s| - 1 ==> s[k] == Front(s)[k];
    }
  }

  /** Stripping takes off the white space at both ends, all of it and nothing else. */
  lemma StripTrims(s: string)
    ensures exists i: nat, j: nat :: Trims(s, Strip(s), i, j)
  {
    var i := StripLeftDrops(s);
    var rest := s[i..];
    var j := StripRightDrops(rest);
    assert forall k :: 0 <= k < |rest| ==> rest[k] == s[i + k];
    assert forall k :: i + j <= k < |s| ==> s[k] == rest[k - i];
    if j > 0 {
      assert !IsSpace(s[i]) && !IsSpace(s[i + j - 1]);
    }
    assert Trims(s, Strip(s), i, i + j);
  }

  lemma StripIsBlank(s: string)
    ensures Strip(s) != "" <==> exists i :: 0 <= i < |s| && !IsSpace(s[i])
  {
    StripTrims(s);
    var i: nat, j: nat :| Trims(s, Strip(s), i, j);
    if i < j {
      assert !IsSpace(s[i]);
    }
  }

  predicate StandsAt(s: string, t: string, i: nat) {
    i + |t| <= |s| && s[i..i + |t|] == t
  }

  predicate Mentions(s: string, t: string) {
    exists i: nat :: i <= |s| && StandsAt(s, t, i)
  }

  lemma MentionsMiddle(a: string, t: string, b: string)
    ensures Mentions(a + t + b, t)
  {
    assert StandsAt(a + t + b, t, |a|);
  }

  lemma MentionsMore(a: string, s: string, b: string, t: string)
    requires Mentions(s, t)
    ensures Mentions(a + s + b, t)
  {
    var i: nat :| i <= |s| && StandsAt(s, t, i);
    assert (a + s + b)[|a| + i..|a| + i + |t|] == s[i..i + |t|];
    assert StandsAt(a + s + b, t, |a| + i);
  }

  function Digit(d: nat): char
    requires d < 10
  {
    '0' + d as char
  }

  function Decimal(n: nat): (s: string)
    ensures s != [] && forall i :: 0 <= i < |s| ==> '0' <= s[i] <= '9'
  {
    if n < 10 then [Digit(n)] else Decimal(n / 10) + [Digit(n % 10)]
  }

  /** `int(s)` on a string of digits. */
  function ParseDecimal(s: string): (r: Option<nat>)
    ensures r.Some? <==> s != [] && forall i :: 0 <= i < |s| ==> '0' <= s[i] <= '9'
  {
    if s == [] then None
    else if !('0' <= Last(s) <= '9') then None
    else
      var d := Last(s) as int - '0' as int;
      if |s| == 1 then Some(d)
      else
        match ParseDecimal(Front(s))
        case None => None
        case Some(high) => Some(10 * high + d)
  }

  lemma {:induction false} DecimalRoundTrip(n: nat)
    ensures ParseDecimal(Decimal(n)) == Some(n)
  {
    if n >= 10 {
      DecimalRoundTrip(n / 10);
      assert Front(Decimal(n)) == Decimal(n / 10);
    }
  }

  lemma DecimalInjective(a: nat, b: nat)
    requires Decimal(a) == Decimal(b)
    ensures a == b
  {
    DecimalRoundTrip(a);
    DecimalRoundTrip(b);
  }
}
