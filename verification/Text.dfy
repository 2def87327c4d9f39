/** Texts as byte strings, one char a byte: splitting, lower case, and canonical decimal numbers. */
module Text {
  import opened Basics

  predicate IsDigit(c: char) {
    '0' <= c <= '9'
  }

  predicate IsLower(c: char) {
    'a' <= c <= 'z'
  }

  predicate IsUpper(c: char) {
    'A' <= c <= 'Z'
  }

  function LowerChar(c: char): char {
    if IsUpper(c) then (c as int + 32) as char else c
  }

  /** `to_ascii_lowercase`. */
  function Lower(s: string): (t: string)
    ensures |t| == |s| && forall i :: 0 <= i < |s| ==> t[i] == LowerChar(s[i])
  {
    seq(|s|, i requires 0 <= i < |s| => LowerChar(s[i]))
  }

  predicate StartsWith(s: string, prefix: string) {
    |prefix| <= |s| && s[..|prefix|] == prefix
  }

  // ---------------------------------------------------------------- decimal numbers

  predicate AllDigits(s: string) {
    forall i :: 0 <= i < |s| ==> IsDigit(s[i])
  }

  function DigitOf(d: nat): char
    requires d < 10
  {
    (48 + d) as char
  }

  /** The number a text of digits spells. */
  function NumberIn(s: string): nat
    requires AllDigits(s)
  {
    if s == [] then 0 else NumberIn(s[..|s| - 1]) * 10 + (s[|s| - 1] as int - 48)
  }

  function Decimal(n: nat): (s: string)
    ensures s != []
  {
    if n < 10 then [DigitOf(n)] else Decimal(n / 10) + [DigitOf(n % 10)]
  }

  /** Digits without a leading zero, zero itself aside. */
  predicate IsCanonical(s: string) {
    s != [] && AllDigits(s) && (|s| > 1 ==> s[0] != '0')
  }

  lemma {:induction false} DecimalIsCanonical(n: nat)
    ensures IsCanonical(Decimal(n)) && NumberIn(Decimal(n)) == n
    ensures n > 0 ==> Decimal(n)[0] != '0'
  {
    if n >= 10 {
      DecimalIsCanonical(n / 10);
      var front := Decimal(n / 10);
      assert Decimal(n)[..|front|] == front;
    }
  }

  lemma {:induction false} CanonicalIsDecimal(s: string)
    requires IsCanonical(s)
    ensures s == Decimal(NumberIn(s))
    ensures s[0] != '0' ==> NumberIn(s) > 0
  {
    var front, last := s[..|s| - 1], s[|s| - 1];
    if |s| == 1 {
      assert front == [];
      assert s == [last];
    } else {
      CanonicalIsDecimal(front);
      assert s == front + [last];
    }
  }

  /** `text.parse()` of a canonical decimal, refused above `max`. */
  function ParseUpTo(s: string, max: nat): Option<nat> {
    if IsCanonical(s) && NumberIn(s) <= max then Some(NumberIn(s)) else None
  }

  /** A text parses as `n` exactly when it is how `n` prints. */
  lemma ParsesAsPrinted(s: string, n: nat, max: nat)
    ensures ParseUpTo(s, max) == Some(n) <==> s == Decimal(n) && n <= max
  {
    DecimalIsCanonical(n);
    if IsCanonical(s) {
      CanonicalIsDecimal(s);
    }
  }

  // ---------------------------------------------------------------- splitting

  /** The first place `c` stands, or the end. */
  function Find(s: string, c: char): (n: nat)
    ensures n <= |s| && (n < |s| ==> s[n] == c)
    ensures forall i :: 0 <= i < n ==> s[i] != c
  {
    if s == [] || s[0] == c then 0 else 1 + Find(s[1..], c)
  }

  function Split(s: string, c: char): (parts: seq<string>)
    ensures parts != []
    decreases |s|
  {
    var n := Find(s, c);
    if n == |s| then [s] else [s[..n]] + Split(s[n + 1..], c)
  }

  function Join(parts: seq<string>, c: char): string
    requires parts != []
  {
    if |parts| == 1 then parts[0] else parts[0] + [c] + Join(parts[1..], c)
  }

  ghost predicate Without(s: string, c: char) {
    forall i :: 0 <= i < |s| ==> s[i] != c
  }

  lemma {:induction false} JoinOfSplit(s: string, c: char)
    ensures Join(Split(s, c), c) == s
    ensures forall i :: 0 <= i < |Split(s, c)| ==> Without(Split(s, c)[i], c)
    decreases |s|
  {
    var n := Find(s, c);
    if n < |s| {
      JoinOfSplit(s[n + 1..], c);
      assert Split(s, c)[1..] == Split(s[n + 1..], c);
      assert s == s[..n] + [c] + s[n + 1..];
    }
  }

  lemma FindAt(s: string, n: nat, c: char)
    requires n <= |s| && Without(s[..n], c) && (n < |s| ==> s[n] == c)
    ensures Find(s, c) == n
  {
    assert forall i :: 0 <= i < n ==> s[i] == s[..n][i];
  }

  lemma {:induction false} SplitOfJoin(parts: seq<string>, c: char)
    requires parts != [] && forall i :: 0 <= i < |parts| ==> Without(parts[i], c)
    ensures Split(Join(parts, c), c) == parts
    decreases |parts|
  {
    var s := Join(parts, c);
    if |parts| == 1 {
      assert s[..|s|] == s;
      FindAt(s, |s|, c);
    } else {
      SplitOfJoin(parts[1..], c);
      assert s[..|parts[0]|] == parts[0];
      FindAt(s, |parts[0]|, c);
      assert s[|parts[0]| + 1..] == Join(parts[1..], c);
    }
  }
}
