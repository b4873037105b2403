/** The text helpers of client_util.cpp.
    A byte is a `char`; the byte with value zero ends a C string. */
module ClientUtil {
  import opened Basics

  const NUL: char := '\0'

  const WHITESPACE: string := [' ', '\n', '\r', '\t', 11 as char, 12 as char]

  predicate IsSpace(c: char) {
    c in WHITESPACE
  }

  /** std::string::find_first_not_of(WHITESPACE) */
  function FindFirstNotOf(s: string): (r: Option<nat>)
    ensures r.None? <==> forall i :: 0 <= i < |s| ==> IsSpace(s[i])
    ensures r.Some? ==> r.value < |s| && !IsSpace(s[r.value])
                        && forall i :: 0 <= i < r.value ==> IsSpace(s[i])
  {
    if s == [] then None
    else if !IsSpace(s[0]) then Some(0)
    else match FindFirstNotOf(s[1..])
      case None =>
        assert forall i :: 1 <= i < |s| ==> s[i] == s[1..][i - 1];
        None
      case Some(i) => Some(i + 1)
  }

  /** std::string::find_last_not_of(WHITESPACE) */
  function FindLastNotOf(s: string): (r: Option<nat>)
    ensures r.None? <==> forall i :: 0 <= i < |s| ==> IsSpace(s[i])
    ensures r.Some? ==> r.value < |s| && !IsSpace(s[r.value])
                        && forall i :: r.value < i < |s| ==> IsSpace(s[i])
  {
    if s == [] then None
    else if !IsSpace(s[|s| - 1]) then Some(|s| - 1)
    else FindLastNotOf(s[..|s| - 1])
  }

  function LTrim(s: string): string {
    match FindFirstNotOf(s)
    case None => ""
    case Some(start) => s[start..]
  }

  function RTrim(s: string): string {
    match FindLastNotOf(s)
    case None => ""
    case Some(end) => s[..end + 1]
  }

  function Trim(s: string): string {
    RTrim(LTrim(s))
  }

  predicate IsLowerCased(s: string) {
    forall i :: 0 <= i < |s| ==> 'a' <= s[i] <= 'z'
  }

  /** The blanks are these six bytes, by number: space, tab, newline, vertical tab,
      form feed, carriage return. */
  lemma BlanksAre(c: char)
    ensures IsSpace(c) <==> c as int == 32 || 9 <= c as int <= 13
  {
  }

  /** Lower case is the 26 letters of ASCII, by number; the text may be empty. */
  lemma LowerCaseIs(s: string)
    ensures IsLowerCased(s) <==> forall i :: 0 <= i < |s| ==> 97 <= s[i] as int <= 122
  {
  }

  /** RTrim is pinned down by three facts: it keeps a prefix, drops only
      whitespace, and what it keeps does not end in whitespace. */
  lemma RTrimUnique(s: string, k: nat)
    requires k <= |s|
    requires forall i :: k <= i < |s| ==> IsSpace(s[i])
    requires k == 0 || !IsSpace(s[k - 1])
    ensures RTrim(s) == s[..k]
  {
    match FindLastNotOf(s)
    case None =>
    case Some(end) =>
      assert end + 1 == k;
  }

  /** So is LTrim: it keeps a suffix, drops only whitespace, and what it keeps does
      not begin with whitespace. */
  lemma LTrimUnique(s: string, k: nat)
    requires k <= |s|
    requires forall i :: 0 <= i < k ==> IsSpace(s[i])
    requires k == |s| || !IsSpace(s[k])
    ensures LTrim(s) == s[k..]
  {
    match FindFirstNotOf(s)
    case None =>
    case Some(start) =>
      assert start == k;
  }

  lemma RTrimShape(s: string)
    ensures |RTrim(s)| <= |s| && RTrim(s) == s[..|RTrim(s)|]
    ensures forall i :: |RTrim(s)| <= i < |s| ==> IsSpace(s[i])
    ensures RTrim(s) == "" || !IsSpace(RTrim(s)[|RTrim(s)| - 1])
  {
  }

  /** Blanks at the end do not change what RTrim keeps. */
  lemma RTrimDropsBlanks(s: string, blanks: string)
    requires forall i :: 0 <= i < |blanks| ==> IsSpace(blanks[i])
    ensures RTrim(s + blanks) == RTrim(s)
  {
    RTrimShape(s);
    var k := |RTrim(s)|;
    forall i | k <= i < |s + blanks| ensures IsSpace((s + blanks)[i]) {
      if i >= |s| {
        assert (s + blanks)[i] == blanks[i - |s|];
      }
    }
    RTrimUnique(s + blanks, k);
    assert (s + blanks)[..k] == s[..k];
  }

  lemma RTrimIdempotent(s: string)
    ensures RTrim(RTrim(s)) == RTrim(s)
  {
    RTrimShape(s);
    RTrimUnique(RTrim(s), |RTrim(s)|);
    assert RTrim(s)[..|RTrim(s)|] == RTrim(s);
  }

  /** Text that does not end in whitespace is never shortened, and only such
      text is left alone. */
  lemma RTrimFixpoint(s: string)
    ensures RTrim(s) == s <==> s == "" || !IsSpace(s[|s| - 1])
  {
    RTrimShape(s);
    if s == "" || !IsSpace(s[|s| - 1]) {
      RTrimUnique(s, |s|);
      assert s[..|s|] == s;
    }
  }

  /** Trimming on the right does not look left of a non-blank character. */
  lemma RTrimAppend(a: string, b: string)
    requires a != "" && !IsSpace(a[|a| - 1])
    ensures RTrim(a + b) == a + RTrim(b)
  {
    RTrimShape(b);
    var k := |a| + |RTrim(b)|;
    forall i | k <= i < |a + b| ensures IsSpace((a + b)[i]) {
      assert (a + b)[i] == b[i - |a|];
    }
    RTrimUnique(a + b, k);
    assert (a + b)[..k] == a + b[..|RTrim(b)|];
  }

  /** A string whose first character is not blank has nothing to lose on the left. */
  lemma LTrimNothing(s: string)
    requires s != "" && !IsSpace(s[0])
    ensures LTrim(s) == s
  {
    assert FindFirstNotOf(s) == Some(0);
    assert s[0..] == s;
  }

  /** Adding one blank at the end of a string does not change what RTrim keeps. */
  lemma RTrimDropsBlank(s: string, c: char)
    requires IsSpace(c)
    ensures RTrim(s + [c]) == RTrim(s)
  {
    RTrimShape(s);
    var k := |RTrim(s)|;
    RTrimUnique(s + [c], k);
    assert (s + [c])[..k] == s[..k];
  }
}
