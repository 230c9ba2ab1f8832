/**
 * The pieces of JavaScript string semantics the widget relies on: the white
 * space that `String.prototype.trim` removes and `\s` matches, the line
 * terminators that `.` in a regular expression does not cross, lower-casing,
 * substring search, and the two forms of `replace` with an empty replacement
 * (first occurrence, and global over an alternation of literals).
 */
module JsText {
  import opened Opt

  // ---------------------------------------------------------------------------
  // Character classes
  // ---------------------------------------------------------------------------

  /** LineTerminator of ECMA-262: the characters `.` does not match. */
  predicate IsLineTerminator(c: char) {
    c == '\n' || c == '\r' || c == '\U{2028}' || c == '\U{2029}'
  }

  /** WhiteSpace and LineTerminator of ECMA-262: what `trim` removes and `\s` matches. */
  predicate IsSpace(c: char) {
    || IsLineTerminator(c)
    || c == '\t' || c == '\U{B}' || c == '\U{C}' || c == ' ' || c == '\U{A0}'
    || c == '\U{1680}' || ('\U{2000}' <= c <= '\U{200A}') || c == '\U{202F}'
    || c == '\U{205F}' || c == '\U{3000}' || c == '\U{FEFF}'
  }

  /** `\d` */
  predicate IsDigit(c: char) { '0' <= c <= '9' }

  /** `\w`, the characters a `\b` word boundary looks at. */
  predicate IsWordChar(c: char) {
    ('a' <= c <= 'z') || ('A' <= c <= 'Z') || IsDigit(c) || c == '_'
  }

  // ---------------------------------------------------------------------------
  // Lower-casing (ASCII letters only)
  // ---------------------------------------------------------------------------

  function LowerChar(c: char): char {
    if 'A' <= c <= 'Z' then (c as int + 32) as char else c
  }

  /** `toLowerCase`, restricted to the ASCII letters. */
  function ToLower(s: string): (r: string)
    ensures |r| == |s|
    ensures forall i | 0 <= i < |s| :: r[i] == LowerChar(s[i])
    ensures forall i | 0 <= i < |r| :: !('A' <= r[i] <= 'Z')
  {
    seq(|s|, i requires 0 <= i < |s| => LowerChar(s[i]))
  }

  /** Lower-casing a text without capitals changes nothing. */
  lemma ToLowerUnchanged(s: string)
    requires forall i | 0 <= i < |s| :: !('A' <= s[i] <= 'Z')
    ensures ToLower(s) == s
  {
    assert forall i | 0 <= i < |s| :: ToLower(s)[i] == s[i];
  }

  // ---------------------------------------------------------------------------
  // Trimming
  // ---------------------------------------------------------------------------

  /** The number of white-space characters `s` starts with. */
  function LeadingSpaces(s: string): (n: nat)
    ensures n <= |s|
    ensures forall i | 0 <= i < n :: IsSpace(s[i])
    ensures n < |s| ==> !IsSpace(s[n])
  {
    if s == [] || !IsSpace(s[0]) then 0 else 1 + LeadingSpaces(s[1..])
  }

  /** The number of white-space characters `s` ends with. */
  function TrailingSpaces(s: string): (n: nat)
    ensures n <= |s|
    ensures forall i | |s| - n <= i < |s| :: IsSpace(s[i])
    ensures n < |s| ==> !IsSpace(s[|s| - 1 - n])
  {
    if s == [] || !IsSpace(s[|s| - 1]) then 0 else 1 + TrailingSpaces(s[..|s| - 1])
  }

  /** `s.trim()`: the slice of `s` between its leading and its trailing white space. */
  function Trim(s: string): (r: string)
    ensures LeadingSpaces(s) + |r| <= |s|
    ensures r == s[LeadingSpaces(s)..LeadingSpaces(s) + |r|]
    ensures forall i | LeadingSpaces(s) + |r| <= i < |s| :: IsSpace(s[i])
    ensures r != [] ==> !IsSpace(r[0]) && !IsSpace(r[|r| - 1])
    ensures r == [] <==> forall i | 0 <= i < |s| :: IsSpace(s[i])
  {
    var t := s[LeadingSpaces(s)..];
    t[..|t| - TrailingSpaces(t)]
  }

  /** A string without surrounding white space is its own trim. */
  lemma TrimUnchanged(s: string)
    requires s != [] ==> !IsSpace(s[0]) && !IsSpace(s[|s| - 1])
    ensures Trim(s) == s
  {
    if s != [] {
      assert LeadingSpaces(s) == 0;
      assert TrailingSpaces(s) == 0;
    }
  }

  /** Trimming a text without capitals leaves none. */
  lemma TrimKeepsLower(l: string)
    requires forall i | 0 <= i < |l| :: !('A' <= l[i] <= 'Z')
    ensures forall i | 0 <= i < |Trim(l)| :: !('A' <= Trim(l)[i] <= 'Z')
  {
    var t := Trim(l);
    var a := LeadingSpaces(l);
    forall i | 0 <= i < |t| ensures !('A' <= t[i] <= 'Z') {
      assert t[i] == l[a + i];
    }
  }

  /** Trimming twice is trimming once. */
  lemma TrimIdempotent(s: string)
    ensures Trim(Trim(s)) == Trim(s)
  {
    TrimUnchanged(Trim(s));
  }

  /** Trimming ignores white space added in front. */
  lemma TrimSpacePrefix(c: char, s: string)
    requires IsSpace(c)
    ensures Trim([c] + s) == Trim(s)
  {
    var t := [c] + s;
    assert t[1..] == s;
    assert LeadingSpaces(t) == 1 + LeadingSpaces(s);
    assert t[LeadingSpaces(t)..] == s[LeadingSpaces(s)..];
  }

  // ---------------------------------------------------------------------------
  // Occurrences
  // ---------------------------------------------------------------------------

  /** `p` occurs in `s` starting at index `i`. */
  predicate OccursAt(s: string, p: string, i: int) {
    0 <= i && i + |p| <= |s| && s[i..i + |p|] == p
  }

  /** `s.includes(p)`, and the regular expression made of the literal `p`. */
  predicate Contains(s: string, p: string) {
    exists i | 0 <= i <= |s| - |p| :: OccursAt(s, p, i)
  }

  /** `s.startsWith(p)`, and the regular expression `^p`. */
  predicate StartsWith(s: string, p: string) {
    p <= s
  }

  /** The regular expression `p0|p1|...`: some alternative occurs. */
  predicate ContainsAny(s: string, ps: seq<string>) {
    exists k | 0 <= k < |ps| :: Contains(s, ps[k])
  }

  /** The regular expression `^(p0|p1|...)`. */
  predicate StartsWithAny(s: string, ps: seq<string>) {
    exists k | 0 <= k < |ps| :: StartsWith(s, ps[k])
  }

  /** No nonempty alternative occurs in the empty text. */
  lemma ContainsAnyEmpty(ps: seq<string>)
    requires forall k | 0 <= k < |ps| :: |ps[k]| > 0
    ensures !ContainsAny([], ps)
  {
  }

  /** The empty text starts with no nonempty alternative. */
  lemma StartsWithAnyEmpty(ps: seq<string>)
    requires forall k | 0 <= k < |ps| :: |ps[k]| > 0
    ensures !StartsWithAny([], ps)
  {
  }

  /** The regular expression `a.*(b0|b1|...)`: some `b` follows an `a` on the same line. */
  predicate FollowsInLine(s: string, a: string, bs: seq<string>) {
    exists i | 0 <= i <= |s| - |a| ::
      OccursAt(s, a, i) && ContainsAny(s[i + |a|..LineEnd(s, i + |a|)], bs)
  }

  /** The regular expression `p\b` for a `p` that ends in a word character. */
  predicate ContainsWordEnd(s: string, p: string) {
    exists i | 0 <= i <= |s| - |p| ::
      OccursAt(s, p, i) && (i + |p| == |s| || !IsWordChar(s[i + |p|]))
  }

  /** Index of the first line terminator at or after `from`, or `|s|`. */
  function LineEnd(s: string, from: nat): (e: nat)
    requires from <= |s|
    ensures from <= e <= |s|
    ensures e < |s| ==> IsLineTerminator(s[e])
    ensures forall k | from <= k < e :: !IsLineTerminator(s[k])
    decreases |s| - from
  {
    if from == |s| || IsLineTerminator(s[from]) then from else LineEnd(s, from + 1)
  }

  /** Index just after the last line terminator before `at`, or 0. */
  function LineStart(s: string, at: nat): (b: nat)
    requires at <= |s|
    ensures b <= at
    ensures b > 0 ==> IsLineTerminator(s[b - 1])
    ensures forall k | b <= k < at :: !IsLineTerminator(s[k])
    decreases at
  {
    if at == 0 || IsLineTerminator(s[at - 1]) then at else LineStart(s, at - 1)
  }

  /** The first occurrence of `p` at or after `from`. */
  function IndexOfFrom(s: string, p: string, from: nat): (r: Option<nat>)
    requires from <= |s|
    ensures r.Some? ==> from <= r.value && OccursAt(s, p, r.value)
    ensures forall k | from <= k && (r.None? || k < r.value) :: !OccursAt(s, p, k)
    decreases |s| - from
  {
    if OccursAt(s, p, from) then Some(from)
    else if from == |s| then None
    else IndexOfFrom(s, p, from + 1)
  }

  /** `s.indexOf(p)`, with `None` for -1. */
  function IndexOf(s: string, p: string): (r: Option<nat>)
    ensures r.Some? <==> Contains(s, p)
    ensures r.Some? ==> OccursAt(s, p, r.value)
    ensures r.Some? ==> forall k | 0 <= k < r.value :: !OccursAt(s, p, k)
  {
    IndexOfFrom(s, p, 0)
  }

  /** The last occurrence of `p` that starts at or before `upto`. */
  function LastIndexAtMost(s: string, p: string, upto: nat): (r: Option<nat>)
    ensures r.Some? ==> r.value <= upto && OccursAt(s, p, r.value)
    ensures forall k | k <= upto && (r.None? || r.value < k) :: !OccursAt(s, p, k)
    decreases upto
  {
    if OccursAt(s, p, upto) then Some(upto)
    else if upto == 0 then None
    else LastIndexAtMost(s, p, upto - 1)
  }

  /** An occurrence is a run of equal characters. */
  lemma OccursAtChars(s: string, p: string, i: int)
    requires OccursAt(s, p, i)
    ensures forall k | 0 <= k < |p| :: s[i + k] == p[k]
  {
    forall k | 0 <= k < |p| ensures s[i + k] == p[k] {
      assert s[i..i + |p|][k] == s[i + k];
    }
  }

  /**
   * `p` does not occur in `s` when two adjacent characters of `p` are never
   * adjacent in `s`; with a literal `s` the requirement is decided character
   * by character.
   */
  lemma NotContainsByPair(s: string, p: string, k: nat)
    requires k + 1 < |p|
    requires forall i | 0 <= i < |s| - 1 :: !(s[i] == p[k] && s[i + 1] == p[k + 1])
    ensures !Contains(s, p)
  {
    forall i | 0 <= i <= |s| - |p| ensures !OccursAt(s, p, i) {
      assert !(s[i + k] == p[k] && s[i + k + 1] == p[k + 1]);
      if OccursAt(s, p, i) {
        OccursAtChars(s, p, i);
      }
    }
  }

  /** No alternative occurs in `s` when all of them start with a pair of characters never adjacent in `s`. */
  lemma NotContainsAnyByPair(s: string, ps: seq<string>, a: char, b: char)
    requires forall i | 0 <= i < |s| - 1 :: !(s[i] == a && s[i + 1] == b)
    requires forall k | 0 <= k < |ps| :: |ps[k]| >= 2 && ps[k][0] == a && ps[k][1] == b
    ensures !ContainsAny(s, ps)
  {
    forall k | 0 <= k < |ps| ensures !Contains(s, ps[k]) {
      NotContainsByPair(s, ps[k], 0);
    }
  }

  /** Occurrences in a suffix are occurrences in the whole, shifted. */
  lemma OccursInTail(s: string, p: string, i: int)
    requires s != []
    ensures OccursAt(s[1..], p, i) <==> (i >= 0 && OccursAt(s, p, i + 1))
  {
    if 0 <= i && i + 1 + |p| <= |s| {
      assert s[1..][i..i + |p|] == s[i + 1..i + 1 + |p|];
    }
  }

  /** Occurrences in `x + y` at or after `|x|` are occurrences in `y`. */
  lemma OccursInRight(x: string, y: string, p: string, i: int)
    requires i >= 0
    ensures OccursAt(x + y, p, |x| + i) <==> OccursAt(y, p, i)
  {
    if 0 <= i && i + |p| <= |y| {
      assert (x + y)[|x| + i..|x| + i + |p|] == y[i..i + |p|];
    }
  }

  /** A `p` that does not start with `c` occurs in `[c] + s` only inside `s`. */
  lemma ContainsAfterChar(c: char, s: string, p: string)
    requires p != [] && p[0] != c
    ensures Contains([c] + s, p) <==> Contains(s, p)
  {
    var t := [c] + s;
    assert t[1..] == s;
    if Contains(t, p) {
      var i :| 0 <= i <= |t| - |p| && OccursAt(t, p, i);
      OccursAtChars(t, p, i);
      assert i != 0;
      OccursInTail(t, p, i - 1);
    }
    if Contains(s, p) {
      var i :| 0 <= i <= |s| - |p| && OccursAt(s, p, i);
      OccursInTail(t, p, i);
    }
  }

  // ---------------------------------------------------------------------------
  // Removal: `s.replace(p, '')` and `s.replace(/p0|p1|.../g, '')`
  // ---------------------------------------------------------------------------

  /**
   * `s.replace(p, '')` for a literal `p`: the first occurrence is cut out,
   * and putting `p` back where it was gives `s` again.
   */
  function RemoveFirst(s: string, p: string): (r: string)
    ensures !Contains(s, p) ==> r == s
    ensures Contains(s, p) ==> |r| + |p| == |s|
    ensures Contains(s, p) ==>
      var i := IndexOf(s, p).value; i <= |r| && r[..i] + p + r[i..] == s
  {
    match IndexOf(s, p)
    case None => s
    case Some(i) => CutOut(s, p, i); s[..i] + s[i + |p|..]
  }

  /** Cutting an occurrence out and putting it back gives the text again. */
  lemma CutOut(s: string, p: string, i: nat)
    requires OccursAt(s, p, i)
    ensures var r := s[..i] + s[i + |p|..];
      |r| + |p| == |s| && i <= |r| && r[..i] + p + r[i..] == s
  {
    var r := s[..i] + s[i + |p|..];
    assert r[..i] == s[..i];
    assert r[i..] == s[i + |p|..];
    assert s == s[..i] + s[i..i + |p|] + s[i + |p|..];
  }

  /** Every alternative of an alternation matches at least one character. */
  predicate NonEmptyPatterns(ps: seq<string>) {
    forall k | 0 <= k < |ps| :: ps[k] != []
  }

  /** The first alternative, from the `k`-th on, that `s` starts with. */
  function PrefixIndexFrom(s: string, ps: seq<string>, k: nat): (r: Option<nat>)
    requires k <= |ps|
    ensures r.Some? ==> k <= r.value < |ps| && StartsWith(s, ps[r.value])
    ensures forall j | k <= j < |ps| && (r.None? || j < r.value) :: !StartsWith(s, ps[j])
    decreases |ps| - k
  {
    if k == |ps| then None
    else if StartsWith(s, ps[k]) then Some(k)
    else PrefixIndexFrom(s, ps, k + 1)
  }

  /** The alternative a regular-expression alternation picks at the start of `s`. */
  function PrefixIndex(s: string, ps: seq<string>): (r: Option<nat>)
    ensures r.Some? ==> r.value < |ps| && StartsWith(s, ps[r.value])
    ensures r.Some? ==> forall j | 0 <= j < r.value :: !StartsWith(s, ps[j])
    ensures r.None? <==> !StartsWithAny(s, ps)
  {
    PrefixIndexFrom(s, ps, 0)
  }

  /**
   * `s.replace(/p0|p1|.../g, '')`: scanning left to right, at each position
   * the first alternative that matches there is cut out and the scan resumes
   * after it; otherwise the character is kept.
   */
  function RemoveAll(s: string, ps: seq<string>): (r: string)
    requires NonEmptyPatterns(ps)
    ensures |r| <= |s|
    decreases |s|
  {
    if s == [] then []
    else match PrefixIndex(s, ps)
      case Some(k) => RemoveAll(s[|ps[k]|..], ps)
      case None => [s[0]] + RemoveAll(s[1..], ps)
  }

  /** A global removal changes the string exactly when some alternative occurs in it. */
  lemma {:induction false} RemoveAllUnchangedIff(s: string, ps: seq<string>)
    requires NonEmptyPatterns(ps)
    ensures RemoveAll(s, ps) == s <==> !ContainsAny(s, ps)
  {
    if ContainsAny(s, ps) {
      RemoveAllShrinks(s, ps);
    } else {
      RemoveAllNoMatch(s, ps);
    }
  }

  lemma {:induction false} RemoveAllNoMatch(s: string, ps: seq<string>)
    requires NonEmptyPatterns(ps)
    requires !ContainsAny(s, ps)
    ensures RemoveAll(s, ps) == s
    decreases |s|
  {
    if s != [] {
      if PrefixIndex(s, ps).Some? {
        var k := PrefixIndex(s, ps).value;
        assert OccursAt(s, ps[k], 0);
        assert false;
      }
      forall k | 0 <= k < |ps| ensures !Contains(s[1..], ps[k]) {
        if Contains(s[1..], ps[k]) {
          var i :| 0 <= i <= |s[1..]| - |ps[k]| && OccursAt(s[1..], ps[k], i);
          OccursInTail(s, ps[k], i);
          assert Contains(s, ps[k]);
        }
      }
      RemoveAllNoMatch(s[1..], ps);
      assert s == [s[0]] + s[1..];
    }
  }

  lemma {:induction false} RemoveAllShrinks(s: string, ps: seq<string>)
    requires NonEmptyPatterns(ps)
    requires ContainsAny(s, ps)
    ensures |RemoveAll(s, ps)| < |s|
    decreases |s|
  {
    var m :| 0 <= m < |ps| && Contains(s, ps[m]);
    var i :| 0 <= i <= |s| - |ps[m]| && OccursAt(s, ps[m], i);
    assert s != [];
    match PrefixIndex(s, ps)
    case Some(k) =>
    case None =>
      if i == 0 {
        assert StartsWith(s, ps[m]);
        assert false;
      }
      OccursInTail(s, ps[m], i - 1);
      assert Contains(s[1..], ps[m]);
      RemoveAllShrinks(s[1..], ps);
  }

  /** Cutting an alternative off the front continues the scan on the rest. */
  lemma RemoveAllAfterPrefix(p: string, s: string, ps: seq<string>)
    requires NonEmptyPatterns(ps)
    requires PrefixIndex(p + s, ps).Some? && ps[PrefixIndex(p + s, ps).value] == p
    ensures RemoveAll(p + s, ps) == RemoveAll(s, ps)
  {
    assert (p + s)[|p|..] == s;
  }

  /** A character no alternative starts with is kept as it is. */
  lemma RemoveAllKeepsChar(c: char, s: string, ps: seq<string>)
    requires NonEmptyPatterns(ps)
    requires forall k | 0 <= k < |ps| :: ps[k][0] != c
    ensures RemoveAll([c] + s, ps) == [c] + RemoveAll(s, ps)
  {
    var t := [c] + s;
    assert t[1..] == s;
  }
}
