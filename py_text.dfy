/**
 * The three Python string operations the scrapers apply to located page text:
 * Python 2's `unicode.strip()` with no argument, slicing with possibly negative bounds, and
 * `re.sub("[^0-9]", "", s)`, which deletes every character that is not an
 * ASCII decimal digit.
 */
module PyText {

  /**
   * Whitespace as Python 2's `unicode.strip()` sees it (the text BeautifulSoup
   * returns is unicode): the characters for which `unicode.isspace()` holds,
   * under the Unicode 5.2 tables Python 2.7 ships with.
   */
  predicate IsSpace(c: char) {
    var n := c as int;
    (0x09 <= n <= 0x0D) || (0x1C <= n <= 0x20) || n == 0x85 || n == 0xA0
    || n == 0x1680 || n == 0x180E || (0x2000 <= n <= 0x200A)
    || n == 0x2028 || n == 0x2029 || n == 0x202F || n == 0x205F || n == 0x3000
  }

  /** The character class `[0-9]`. */
  predicate IsDigit(c: char) {
    '0' <= c <= '9'
  }

  /** Every position of `s` in `lo..hi` holds whitespace. */
  predicate SpaceBetween(s: string, lo: int, hi: int)
    requires 0 <= lo && hi <= |s|
  {
    forall k :: lo <= k < hi ==> IsSpace(s[k])
  }

  predicate AllDigits(s: string) {
    forall i :: 0 <= i < |s| ==> IsDigit(s[i])
  }

  predicate NoDigits(s: string) {
    forall i :: 0 <= i < |s| ==> !IsDigit(s[i])
  }

  /**
   * The first position at or after `i` and before `j` that is not
   * whitespace, or `j` when there is none: the left scan of `strip`.
   */
  function SkipSpace(s: string, i: nat, j: nat): (k: nat)
    requires i <= j <= |s|
    ensures i <= k <= j && SpaceBetween(s, i, k) && (k < j ==> !IsSpace(s[k]))
    decreases j - i
  {
    if i < j && IsSpace(s[i]) then SkipSpace(s, i + 1, j) else i
  }

  /**
   * One past the last position before `j` and at or after `i` that is not
   * whitespace, or `i` when there is none: the right scan of `strip`.
   */
  function SkipSpaceBack(s: string, i: nat, j: nat): (k: nat)
    requires i <= j <= |s|
    ensures i <= k <= j && SpaceBetween(s, k, j) && (i < k ==> !IsSpace(s[k - 1]))
    decreases j - i
  {
    if i < j && IsSpace(s[j - 1]) then SkipSpaceBack(s, i, j - 1) else j
  }

  /**
   * `s[i..j]` is what remains of `s` once its surrounding whitespace is gone:
   * only whitespace before `i` and from `j` on, and neither end of the slice
   * whitespace.
   */
  predicate StripBounds(s: string, i: int, j: int) {
    0 <= i <= j <= |s| && SpaceBetween(s, 0, i) && SpaceBetween(s, j, |s|)
    && (i < j ==> !IsSpace(s[i]) && !IsSpace(s[j - 1]))
  }

  /** `r` is what results from removing the leading and the trailing whitespace of `s`. */
  ghost predicate IsStripOf(r: string, s: string) {
    exists i, j :: StripBounds(s, i, j) && r == s[i..j]
  }

  /** `s.strip()`: scan right past the leading whitespace, then left past the trailing whitespace. */
  function Strip(s: string): (r: string)
    ensures |r| <= |s|
    ensures r != [] ==> !IsSpace(r[0]) && !IsSpace(r[|r| - 1])
  {
    var i := SkipSpace(s, 0, |s|);
    var j := SkipSpaceBack(s, i, |s|);
    s[i..j]
  }

  /** `s.strip()` removes exactly the surrounding whitespace. */
  lemma StripSpec(s: string)
    ensures IsStripOf(Strip(s), s)
  {
    var i := SkipSpace(s, 0, |s|);
    var j := SkipSpaceBack(s, i, |s|);
    assert StripBounds(s, i, j);
  }

  /** Removing surrounding whitespace has exactly one result. */
  lemma StripUnique(s: string, r1: string, r2: string)
    requires IsStripOf(r1, s) && IsStripOf(r2, s)
    ensures r1 == r2
  {
    var i1, j1 :| StripBounds(s, i1, j1) && r1 == s[i1..j1];
    var i2, j2 :| StripBounds(s, i2, j2) && r2 == s[i2..j2];
    StripBoundsUnique(s, i1, j1, i2, j2);
  }

  /** Helper of StripUnique, on explicit slice bounds. */
  lemma StripBoundsUnique(s: string, i1: int, j1: int, i2: int, j2: int)
    requires StripBounds(s, i1, j1) && StripBounds(s, i2, j2)
    ensures s[i1..j1] == s[i2..j2]
  {
    if i1 < j1 && i2 < j2 {
      assert i1 == i2 && j1 == j2;
    }
  }

  /** Stripping twice is stripping once. */
  lemma StripIdempotent(s: string)
    ensures Strip(Strip(s)) == Strip(s)
  {
    var r := Strip(s);
    var i := SkipSpace(s, 0, |s|);
    var j := SkipSpaceBack(s, i, |s|);
    assert r != [] ==> r[0] == s[i] && r[|r| - 1] == s[j - 1];
    assert StripBounds(r, 0, |r|) && r == r[0..|r|];
    StripSpec(r);
    StripUnique(r, Strip(r), r);
  }

  /** A Python slice index: negative counts from the end, then clamped to 0..n. */
  function PyIndex(i: int, n: nat): (k: nat)
    ensures k <= n
    ensures 0 <= i ==> k == (if i <= n then i else n)
    ensures i < 0 ==> k == (if -i <= n then n + i else 0)
  {
    if i < 0 then (if n + i < 0 then 0 else n + i)
    else if i > n then n
    else i
  }

  /** `s[start:stop]` with Python's slice semantics: never fails, empty when the bounds cross. */
  function PySlice<T>(s: seq<T>, start: int, stop: int): (r: seq<T>)
    ensures |r| <= |s|
    ensures 0 <= start <= stop <= |s| ==> r == s[start..stop]
    ensures 0 <= start && stop < 0 && start <= |s| + stop ==> r == s[start..|s| + stop]
    ensures start < 0 && -start <= |s| && |s| <= stop ==> r == s[|s| + start..]
  {
    var lo := PyIndex(start, |s|);
    var hi := PyIndex(stop, |s|);
    if lo < hi then s[lo..hi] else []
  }

  /** `re.sub("[^0-9]", "", s)`. */
  function KeepDigits(s: string): (r: string)
    ensures |r| <= |s|
    ensures AllDigits(r)
  {
    if s == [] then []
    else (if IsDigit(s[0]) then [s[0]] else []) + KeepDigits(s[1..])
  }

  /** The filter works character by character: it distributes over concatenation. */
  lemma {:induction false} KeepDigitsConcat(a: string, b: string)
    ensures KeepDigits(a + b) == KeepDigits(a) + KeepDigits(b)
  {
    if a == [] {
      assert a + b == b;
    } else {
      var ab := a + b;
      assert ab[0] == a[0];
      assert ab[1..] == a[1..] + b;
      KeepDigitsConcat(a[1..], b);
      assert KeepDigits(ab) == (if IsDigit(a[0]) then [a[0]] else []) + KeepDigits(ab[1..]);
    }
  }

  /** One character is kept exactly when it is a digit. */
  lemma KeepDigitsChar(c: char)
    ensures KeepDigits([c]) == if IsDigit(c) then [c] else []
  {
    assert [c][1..] == [];
  }

  /** The result holds every digit of the input as often as the input does, and nothing else. */
  lemma {:induction false} KeepDigitsCount(s: string, c: char)
    ensures multiset(KeepDigits(s))[c] == if IsDigit(c) then multiset(s)[c] else 0
  {
    if s != [] {
      KeepDigitsCount(s[1..], c);
      assert s == [s[0]] + s[1..];
      assert multiset(s) == multiset([s[0]]) + multiset(s[1..]);
    }
  }

  /** A string of digits only is left as it is. */
  lemma {:induction false} KeepDigitsOfDigits(s: string)
    requires AllDigits(s)
    ensures KeepDigits(s) == s
  {
    if s != [] {
      KeepDigitsOfDigits(s[1..]);
      assert s == [s[0]] + s[1..];
    }
  }

  /** Applying the filter twice gives the same result as applying it once. */
  lemma KeepDigitsIdempotent(s: string)
    ensures KeepDigits(KeepDigits(s)) == KeepDigits(s)
  {
    KeepDigitsOfDigits(KeepDigits(s));
  }

  /** The result is empty exactly when the input has no digit (and an empty result is still a result). */
  lemma {:induction false} KeepDigitsEmpty(s: string)
    ensures KeepDigits(s) == [] <==> NoDigits(s)
  {
    if s != [] {
      KeepDigitsEmpty(s[1..]);
      assert forall i :: 1 <= i < |s| ==> s[i] == s[1..][i - 1];
    }
  }
}
