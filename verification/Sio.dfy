/** Printing a long in a given base: sio_ltoa and sio_reverse of csapp.c. */
module Sio {
  import Basics
  import opened ClientUtil

  /** One more than the largest long. The smallest long has no negation, and
      negating it is undefined in C: it is outside this model. */
  const LONG_LIMIT := 0x8000_0000_0000_0000

  function Reversed(s: string): string {
    if s == "" then "" else Reversed(s[1..]) + [s[0]]
  }

  lemma {:induction false} ReversedAt(s: string, k: nat)
    requires k < |s|
    ensures |Reversed(s)| == |s| && Reversed(s)[k] == s[|s| - 1 - k]
  {
    if |s| > 1 {
      ReversedAt(s[1..], if k < |s| - 1 then k else 0);
    }
  }

  lemma {:induction false} ReversedKeeps(s: string)
    ensures |Reversed(s)| == |s| && forall c :: c in Reversed(s) <==> c in s
  {
    if s != "" {
      ReversedKeeps(s[1..]);
      assert s == [s[0]] + s[1..];
    }
  }

  lemma {:induction false} ReversedConcat(a: string, b: string)
    ensures Reversed(a + b) == Reversed(b) + Reversed(a)
  {
    if a == "" {
      assert a + b == b;
    } else {
      assert (a + b)[1..] == a[1..] + b;
      ReversedConcat(a[1..], b);
    }
  }

  /** strlen */
  method StrLen(s: array<char>) returns (n: nat)
    requires NUL in s[..]
    ensures n < s.Length && s[n] == NUL && NUL !in s[..n]
  {
    n := 0;
    while s[n] != NUL
      invariant n < s.Length && NUL !in s[..n]
      invariant NUL in s[n..]
      decreases s.Length - n
    {
      assert s[n..] == [s[n]] + s[n + 1..];
      assert s[..n + 1] == s[..n] + [s[n]];
      n := n + 1;
    }
  }

  /** sio_reverse: the text before the terminator, turned round in place. */
  method SioReverse(s: array<char>, ghost n: nat)
    requires n < s.Length && s[n] == NUL && NUL !in s[..n]
    modifies s
    ensures s[..n] == Reversed(old(s[..n]))
    ensures forall k :: n <= k < s.Length ==> s[k] == old(s[k])
  {
    assert NUL in s[..];
    var len := StrLen(s);
    assert len == n;
    var i: int, j: int := 0, len - 1;
    while i < j
      invariant 0 <= i <= len && j == len - 1 - i && i <= j + 1
      invariant forall k :: 0 <= k < i ==> s[k] == old(s[n - 1 - k]) && s[n - 1 - k] == old(s[k])
      invariant forall k :: i <= k <= j ==> s[k] == old(s[k])
      invariant forall k :: n <= k < s.Length ==> s[k] == old(s[k])
    {
      var c := s[i];
      s[i] := s[j];
      s[j] := c;
      i := i + 1;
      j := j - 1;
    }
    ghost var was := old(s[..n]);
    assert n == 0 ==> was == "";
    forall k | 0 <= k < n ensures |Reversed(was)| == n && s[k] == Reversed(was)[k] {
      ReversedAt(was, k);
    }
  }

  /** The character for a digit below 36. */
  function DigitChar(d: nat): char
    requires d < 36
  {
    if d < 10 then '0' + d as char else 'a' + (d - 10) as char
  }

  function DigitValue(c: char): int {
    if '0' <= c <= '9' then c as int - '0' as int
    else if 'a' <= c <= 'z' then c as int - 'a' as int + 10
    else -1
  }

  /** The characters, by number: the digits from 48 on, then the lower-case letters
      from 97 on; and back. */
  lemma DigitCodes(d: nat)
    requires d < 36
    ensures DigitChar(d) as int == (if d < 10 then 48 + d else 87 + d)
    ensures DigitValue(DigitChar(d)) == d
  {
  }

  /** Reading a numeral in base b, most significant digit first. */
  function Value(t: string, b: int): int {
    if t == "" then 0 else Value(t[..|t| - 1], b) * b + DigitValue(t[|t| - 1])
  }

  predicate Numeral(t: string, b: int) {
    && t != ""
    && (forall i :: 0 <= i < |t| ==> 0 <= DigitValue(t[i]) < b)
    && (t[0] == '0' ==> |t| == 1)
  }

  /** The text that stands for v: a minus sign if v is negative, then a numeral
      without leading zeros for its magnitude. */
  predicate Prints(t: string, v: int, b: int) {
    if v < 0 then t != "" && t[0] == '-' && Numeral(t[1..], b) && Value(t[1..], b) == -v
    else Numeral(t, b) && Value(t, b) == v
  }

  lemma TwiceAtMost(q: int, b: int)
    requires 2 <= b && q >= 0
    ensures 2 * q <= q * b
  {
    assert q * b == 2 * q + q * (b - 2);
  }

  lemma QuotientShrinks(v: nat, b: int)
    requires 2 <= b
    ensures 0 <= v / b <= v / 2 && (v > 0 ==> v / b < v) && 0 <= v % b < b
  {
    TwiceAtMost(v / b, b);
  }

  /** Most significant digit first, the sign before it. */
  lemma PrintsExamples()
    ensures Prints("120", 120, 10) && Prints("-120", -120, 10) && Prints("7f", 127, 16) && Prints("0", 0, 2)
  {
    ThreeDigits('1', '2', '0', 10);
    TwoDigits('7', 'f', 16);
    assert "-120"[1..] == "120";
    assert Value("0", 2) == Value("", 2) * 2 + 0;
  }

  lemma TwoDigits(c: char, d: char, b: int)
    ensures Value([c, d], b) == DigitValue(c) * b + DigitValue(d)
  {
    assert [c, d][..1] == [c] && [c][..0] == "";
    assert Value([c], b) == Value("", b) * b + DigitValue(c);
  }

  lemma ThreeDigits(c: char, d: char, e: char, b: int)
    ensures Value([c, d, e], b) == (DigitValue(c) * b + DigitValue(d)) * b + DigitValue(e)
  {
    TwoDigits(c, d, b);
    assert [c, d, e][..2] == [c, d];
  }

  /** The digits of v, least significant first, as the loop produces them. */
  function LowFirst(v: nat, b: int): string
    requires 2 <= b <= 36
    decreases v
  {
    QuotientShrinks(v, b);
    [DigitChar(v % b)] + (if v / b == 0 then "" else LowFirst(v / b, b))
  }

  lemma DigitRoundTrip(d: nat)
    requires d < 36
    ensures DigitValue(DigitChar(d)) == d && DigitChar(d) != NUL && (DigitChar(d) == '0' <==> d == 0)
    ensures DigitChar(d) != '-'
  {
  }

  lemma {:induction false} DigitsStep(v: nat, b: int)
    requires 2 <= b <= 36
    ensures 0 <= v / b && 0 <= v % b < 36 && (v > 0 ==> v / b < v)
    ensures LowFirst(v, b) != "" && LowFirst(v, b)[0] == DigitChar(v % b)
    ensures LowFirst(v, b)[1..] == if v / b == 0 then "" else LowFirst(v / b, b)
  {
    QuotientShrinks(v, b);
  }

  lemma DivMod(v: nat, b: int)
    requires 2 <= b
    ensures v == (v / b) * b + v % b
  {
  }

  /** One more digit on the right. */
  lemma Horner(t: string, d: char, b: int)
    ensures Value(t + [d], b) == Value(t, b) * b + DigitValue(d)
  {
    assert (t + [d])[..|t|] == t;
  }

  lemma OneMoreDigit(t: string, q: nat, r: nat, v: nat, b: int)
    requires 2 <= b <= 36 && r < b && q > 0 && v == q * b + r
    requires Numeral(t, b) && Value(t, b) == q && t[0] != '0'
    ensures var u := t + [DigitChar(r)];
            Numeral(u, b) && Value(u, b) == v && u[0] != '0'
  {
    Horner(t, DigitChar(r), b);
    DigitRoundTrip(r);
  }

  lemma OnlyDigit(r: nat, b: int)
    requires 2 <= b <= 36 && r < b
    ensures var u := [DigitChar(r)];
            Numeral(u, b) && Value(u, b) == r && (r > 0 ==> u[0] != '0')
  {
    Horner("", DigitChar(r), b);
    DigitRoundTrip(r);
    assert "" + [DigitChar(r)] == [DigitChar(r)];
  }

  /** Turned round, the digits are a numeral for v. */
  lemma {:induction false} DigitsDenote(v: nat, b: int)
    requires 2 <= b <= 36
    ensures var t := Reversed(LowFirst(v, b));
            && Numeral(t, b) && Value(t, b) == v
            && (v > 0 ==> t[0] != '0')
    decreases v
  {
    DigitsStep(v, b);
    DivMod(v, b);
    var q, r := v / b, v % b;
    assert Reversed(LowFirst(v, b)) == Reversed(LowFirst(v, b)[1..]) + [DigitChar(r)];
    if q == 0 {
      assert Reversed(LowFirst(v, b)) == [DigitChar(r)];
      OnlyDigit(r, b);
    } else {
      DigitsDenote(q, b);
      OneMoreDigit(Reversed(LowFirst(q, b)), q, r, v, b);
    }
  }

  function Pow2(k: nat): nat {
    if k == 0 then 1 else 2 * Pow2(k - 1)
  }

  lemma HalfOfPower(v: nat, b: int, k: nat)
    requires 2 <= b && v < Pow2(k) && v / b > 0
    ensures k > 0 && 0 <= v / b < Pow2(k - 1)
  {
    QuotientShrinks(v, b);
  }

  lemma {:induction false} DigitsAreFew(v: nat, b: int, k: nat)
    requires 2 <= b <= 36 && v < Pow2(k)
    ensures |LowFirst(v, b)| <= (if k == 0 then 1 else k)
    ensures NUL !in LowFirst(v, b)
    decreases k
  {
    DigitsStep(v, b);
    DigitRoundTrip(v % b);
    if v / b > 0 {
      HalfOfPower(v, b, k);
      DigitsAreFew(v / b, b, k - 1);
    }
  }

  lemma LongsFit()
    ensures Pow2(63) == LONG_LIMIT
  {
    assert Pow2(10) == 1024;
    PowAdd(10, 10);
    PowAdd(20, 20);
    PowAdd(40, 20);
    PowAdd(60, 3);
  }

  lemma {:induction false} PowAdd(i: nat, j: nat)
    ensures Pow2(i + j) == Pow2(i) * Pow2(j)
  {
    if i > 0 {
      PowAdd(i - 1, j);
    }
  }

  /** sio_ltoa */
  method SioLtoa(v: int, s: array<char>, b: int) returns (ghost n: nat)
    requires -LONG_LIMIT < v < LONG_LIMIT && 2 <= b <= 36 && s.Length >= 65
    modifies s
    ensures n <= 64 && s[n] == NUL && NUL !in s[..n]
    ensures Prints(s[..n], v, b)
    ensures forall k :: n < k < s.Length ==> s[k] == old(s[k])
  {
    var neg := v < 0;
    var w := if neg then -v else v;
    ghost var digits := LowFirst(w, b);
    LongsFit();
    DigitsAreFew(w, b, 63);
    var i := WriteDigits(w, s, b);
    if neg {
      s[i] := '-';
      i := i + 1;
    }
    s[i] := NUL;
    n := i;
    ghost var text := if neg then digits + "-" else digits;
    assert s[..n] == text;
    SioReverse(s, n);
    TextPrints(text, neg, w, b);
  }

  /** sio_putl: the text that is handed to write(). */
  method SioPutl(v: int) returns (out: string)
    requires -LONG_LIMIT < v < LONG_LIMIT
    ensures Prints(out, v, 10)
  {
    var s := new char[128];
    ghost var n := SioLtoa(v, s, 10);
    var len := StrLen(s);
    assert len == n;
    out := s[..len];
  }

  lemma TextPrints(text: string, neg: bool, w: nat, b: int)
    requires 2 <= b <= 36 && text == (if neg then LowFirst(w, b) + "-" else LowFirst(w, b)) && (neg ==> w > 0)
    ensures Prints(Reversed(text), if neg then 0 - w else w, b)
    ensures |Reversed(text)| == |text| && (NUL !in text ==> NUL !in Reversed(text))
  {
    ReversedKeeps(text);
    var digits := LowFirst(w, b);
    ReversedConcat(digits, "-");
    DigitsDenote(w, b);
    if neg {
      assert Reversed("-") == "-";
      assert Reversed(text) == "-" + Reversed(digits);
      assert Reversed(text)[1..] == Reversed(digits);
    }
  }

  /** c = v % b and v /= b */
  method Divide(v: nat, b: int) returns (c: nat, q: nat)
    requires 2 <= b <= 36
    ensures c < 36 && (v > 0 ==> q < v) && (v == 0 ==> q == 0)
    ensures LowFirst(v, b) == [DigitChar(c)] + (if q == 0 then "" else LowFirst(q, b))
  {
    DigitsStep(v, b);
    c, q := v % b, v / b;
  }

  /** The do-while loop: at least one digit, least significant first. */
  method WriteDigits(w: nat, s: array<char>, b: int) returns (i: nat)
    requires 2 <= b <= 36 && |LowFirst(w, b)| <= s.Length
    modifies s
    ensures i == |LowFirst(w, b)| && s[..i] == LowFirst(w, b)
    ensures forall k :: i <= k < s.Length ==> s[k] == old(s[k])
  {
    var v: nat := w;
    i := 0;
    ghost var all, done, rest := LowFirst(w, b), "", LowFirst(w, b);
    while true
      invariant rest == LowFirst(v, b) && all == done + rest && i == |done|
      invariant forall k :: 0 <= k < i ==> s[k] == done[k]
      invariant forall k :: i <= k < s.Length ==> s[k] == old(s[k])
      decreases v
    {
      var c;
      c, v := Divide(v, b);
      rest := if v == 0 then "" else LowFirst(v, b);
      Basics.Regroup(done, DigitChar(c), rest);
      s[i] := DigitChar(c);
      i := i + 1;
      done := done + [DigitChar(c)];
      if !(v > 0) {
        break;
      }
    }
    assert all == done;
  }
}
