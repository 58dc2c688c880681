/** Strings of bytes, as C and C++ see them. */
module ByteStrings {
  import opened Wrappers

  type Byte = c: char | c as int < 256 witness 'a'
  type Bytes = seq<Byte>

  // What a C string holds: everything before the first NUL.
  function CString(s: Bytes): (r: Bytes)
    ensures |r| <= |s| && r == s[..|r|] && '\0' !in r
    ensures |r| < |s| ==> s[|r|] == '\0'
  {
    if s == [] || s[0] == '\0' then [] else [s[0]] + CString(s[1..])
  }

  lemma NoNul(s: Bytes)
    ensures CString(s) == s <==> '\0' !in s
  {
    var r := CString(s);
    if |r| == |s| { assert r == s; }
  }

  // `std::string`'s order, byte by byte.
  predicate Less(a: Bytes, b: Bytes) {
    b != [] && (a == [] || a[0] < b[0] || (a[0] == b[0] && Less(a[1..], b[1..])))
  }

  lemma {:induction false} LessIsTotal(a: Bytes, b: Bytes)
    ensures a == b || Less(a, b) || Less(b, a)
    ensures !(Less(a, b) && Less(b, a)) && !Less(a, a)
    decreases |a|
  {
    if a != [] {
      LessIsTotal(a[1..], a[1..]);
      if b != [] && a[0] == b[0] {
        LessIsTotal(a[1..], b[1..]);
        assert a == [a[0]] + a[1..] && b == [b[0]] + b[1..];
      }
    }
  }

  lemma {:induction false} LessIsTransitive(a: Bytes, b: Bytes, c: Bytes)
    requires Less(a, b) && Less(b, c)
    ensures Less(a, c)
    decreases |a|
  {
    if a != [] && a[0] == b[0] == c[0] { LessIsTransitive(a[1..], b[1..], c[1..]); }
  }

  lemma {:induction false} LeastOf(some: set<Bytes>) returns (least: Bytes)
    requires some != {}
    ensures least in some && forall other <- some :: other == least || Less(least, other)
    decreases |some|
  {
    var x :| x in some;
    if some - {x} == {} {
      least := x;
      assert some == {x};
    } else {
      var rest := LeastOf(some - {x});
      LessIsTotal(x, rest);
      least := if Less(x, rest) then x else rest;
      forall other <- some ensures other == least || Less(least, other) {
        if Less(x, rest) && other != x && other != rest { LessIsTransitive(x, rest, other); }
      }
    }
  }

  predicate IsDigit(c: Byte) {
    '0' <= c <= '9'
  }

  predicate AllDigits(s: Bytes) {
    forall i :: 0 <= i < |s| ==> IsDigit(s[i])
  }

  function Decimal(digits: Bytes): nat
    requires AllDigits(digits)
    decreases digits
  {
    if digits == [] then 0
    else Decimal(digits[..|digits| - 1]) * 10 + (digits[|digits| - 1] as int - '0' as int)
  }

  // `std::to_string`.
  function Numeral(n: nat): (s: Bytes)
    ensures AllDigits(s) && s != [] && Decimal(s) == n
  {
    var last: Byte := ('0' as int + n % 10) as char;
    var front := if n < 10 then [] else Numeral(n / 10);
    assert (front + [last])[..|front|] == front;
    front + [last]
  }

  function SignedNumeral(n: int): Bytes {
    if n < 0 then ['-'] + Numeral(-n) else Numeral(n)
  }

  // --- searching and cutting; |s| stands for `npos` ---

  function FindFirstOf(s: Bytes, chars: Bytes, from: nat): (n: nat)
    requires from <= |s|
    ensures from <= n <= |s| && (n < |s| ==> s[n] in chars)
    ensures forall i :: from <= i < n ==> s[i] !in chars
    decreases |s| - from
  {
    if from == |s| || s[from] in chars then from else FindFirstOf(s, chars, from + 1)
  }

  // The first hit is where a hit is and none comes before.
  lemma FirstIs(s: Bytes, chars: Bytes, from: nat, n: nat)
    requires from <= n <= |s| && (n < |s| ==> s[n] in chars)
    requires forall i :: from <= i < n ==> s[i] !in chars
    ensures FindFirstOf(s, chars, from) == n
  {
    var f := FindFirstOf(s, chars, from);
    assert !(f < n) && !(n < f);
  }

  // A sequence before and after the first `mark`.
  function CutAt(s: Bytes, mark: Byte): (Bytes, Option<Bytes>) {
    var n := FindFirstOf(s, [mark], 0);
    if n == |s| then (s, None) else (s[..n], Some(s[n + 1..]))
  }

  function Glue(a: Bytes, mark: Byte, b: Option<Bytes>): Bytes {
    if b.Some? then a + ([mark] + b.value) else a
  }

  lemma CutExactly(s: Bytes, mark: Byte, a: Bytes, b: Option<Bytes>)
    ensures CutAt(s, mark) == (a, b) <==> Glue(a, mark, b) == s && mark !in a
  {
    var n := FindFirstOf(s, [mark], 0);
    if CutAt(s, mark) == (a, b) {
      assert forall i :: 0 <= i < n ==> s[i] !in [mark];
      if n < |s| { assert s == s[..n] + ([s[n]] + s[n + 1..]); }
    }
    if Glue(a, mark, b) == s && mark !in a {
      assert s[..|a|] == a;
      assert forall i :: 0 <= i < |a| ==> s[i] == a[i];
      if b.Some? { assert s[|a|] == mark && s[|a| + 1..] == b.value; }
      assert n == |a|;
    }
  }

  lemma CutAtIndex(s: Bytes, mark: Byte, from: nat, n: nat)
    requires from <= n <= |s| && (n < |s| ==> s[n] == mark)
    requires forall i :: from <= i < n ==> s[i] != mark
    ensures CutAt(s[from..], mark) == (s[from..n], if n == |s| then None else Some(s[n + 1..]))
  {
    FirstIs(s[from..], [mark], 0, n - from);
    assert s[from..][..n - from] == s[from..n];
    if n == |s| { assert s[from..n] == s[from..]; } else { assert s[from..][n - from + 1..] == s[n + 1..]; }
  }
}
