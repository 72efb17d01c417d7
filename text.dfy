/**
 * The parts of Python's `str` that the sync pipeline uses on domains:
 * `lower()`, `strip()`, `rstrip(chars)` and `startswith(prefix)`.
 * Only ASCII letters are case-folded, and `strip()` removes the ASCII
 * characters that `str.isspace` accepts.
 *
 * The stripping functions carry no postconditions of their own: they sit
 * inside every key comparison, and postconditions there would be
 * instantiated at each use.  What they compute is stated by the lemmas
 * that follow them.
 */
module Text {

  /**
   * The ASCII characters Python's `str.isspace` accepts: space, tab,
   * line feed, vertical tab, form feed, carriage return and the four
   * separators U+001C to U+001F.
   */
  predicate IsSpace(ch: char) {
    ch == ' ' || '\t' <= ch <= '\r' || '\U{1C}' <= ch <= '\U{1F}'
  }

  predicate IsUpper(ch: char) {
    'A' <= ch <= 'Z'
  }

  /** No character of `s` is an upper-case letter. */
  predicate NoUpper(s: string) {
    forall i :: 0 <= i < |s| ==> !IsUpper(s[i])
  }

  /** Neither the first nor the last character of `s` is whitespace. */
  predicate Trimmed(s: string) {
    s == [] || (!IsSpace(s[0]) && !IsSpace(s[|s| - 1]))
  }

  /** `r` occurs in `s` as one contiguous run of characters. */
  ghost predicate IsSlice(r: string, s: string) {
    exists i, j :: 0 <= i <= j <= |s| && r == s[i..j]
  }

  /** `r` occurs in `s` at offset `i`, with only whitespace before and after it. */
  ghost predicate StrippedAt(r: string, s: string, i: int) {
    0 <= i <= |s| - |r| && r == s[i..i + |r|] &&
    (forall k :: 0 <= k < i ==> IsSpace(s[k])) &&
    (forall k :: i + |r| <= k < |s| ==> IsSpace(s[k]))
  }

  /** `r` is `s` with a run of whitespace removed from each end. */
  ghost predicate StrippedFrom(r: string, s: string) {
    exists i :: StrippedAt(r, s, i)
  }

  function LowerChar(ch: char): (r: char)
    ensures !IsUpper(r)
    ensures !IsUpper(ch) ==> r == ch
    ensures IsUpper(ch) ==> r as int == ch as int + 32
  {
    if IsUpper(ch) then (ch as int + 32) as char else ch
  }

  /** `str.lower()` restricted to ASCII letters. */
  function Lower(s: string): (r: string)
    ensures |r| == |s|
  {
    seq(|s|, i requires 0 <= i < |s| => LowerChar(s[i]))
  }

  /** `str.lstrip()`: removes all leading whitespace. */
  function LStrip(s: string): string {
    if s != [] && IsSpace(s[0]) then LStrip(s[1..]) else s
  }

  /** `str.rstrip()`: removes all trailing whitespace. */
  function RStrip(s: string): string {
    if s != [] && IsSpace(s[|s| - 1]) then RStrip(s[..|s| - 1]) else s
  }

  /** `str.rstrip(c)` for one character `c`: removes every trailing `c`. */
  function RStripChar(s: string, c: char): string {
    if s != [] && s[|s| - 1] == c then RStripChar(s[..|s| - 1], c) else s
  }

  /** `str.strip()`: removes leading and trailing whitespace. */
  function Strip(s: string): string {
    RStrip(LStrip(s))
  }

  /** `s.lower().strip()`, the comparison key for domains. */
  function LowerStrip(s: string): string {
    Strip(Lower(s))
  }

  predicate StartsWith(s: string, prefix: string) {
    |prefix| <= |s| && s[..|prefix|] == prefix
  }

  /** Lower-casing leaves no upper-case letter and changes nothing but letters. */
  lemma LowerShape(s: string)
    ensures NoUpper(Lower(s))
    ensures forall i :: 0 <= i < |s| && !IsUpper(s[i]) ==> Lower(s)[i] == s[i]
  {
  }

  /** `lstrip()` removes a leading run of whitespace and nothing else. */
  lemma {:induction false} LStripShape(s: string)
    ensures var r := LStrip(s);
      && |r| <= |s| && r == s[|s| - |r|..]
      && (r == [] || !IsSpace(r[0]))
      && forall i :: 0 <= i < |s| - |r| ==> IsSpace(s[i])
  {
    if s != [] && IsSpace(s[0]) {
      var t := s[1..];
      var r := LStrip(t);
      LStripShape(t);
      assert LStrip(s) == r;
      assert t[|t| - |r|..] == s[|s| - |r|..];
      assert forall i :: 0 < i < |s| ==> s[i] == t[i - 1];
    } else {
      assert LStrip(s) == s;
    }
  }

  /** `rstrip()` removes a trailing run of whitespace and nothing else. */
  lemma {:induction false} RStripShape(s: string)
    ensures var r := RStrip(s);
      && |r| <= |s| && r == s[..|r|]
      && (r == [] || !IsSpace(r[|r| - 1]))
      && forall i :: |r| <= i < |s| ==> IsSpace(s[i])
  {
    if s != [] && IsSpace(s[|s| - 1]) {
      var t := s[..|s| - 1];
      var r := RStrip(t);
      RStripShape(t);
      assert RStrip(s) == r;
      assert t[..|r|] == s[..|r|];
      forall i | |r| <= i < |s| ensures IsSpace(s[i]) {
        if i < |t| {
          assert s[i] == t[i];
        }
      }
    }
  }

  /** `rstrip(c)` removes the whole trailing run of `c` and nothing else. */
  lemma {:induction false} RStripCharShape(s: string, c: char)
    ensures var r := RStripChar(s, c);
      && |r| <= |s| && r == s[..|r|]
      && (r == [] || r[|r| - 1] != c)
      && forall i :: |r| <= i < |s| ==> s[i] == c
  {
    if s != [] && s[|s| - 1] == c {
      var t := s[..|s| - 1];
      var r := RStripChar(t, c);
      RStripCharShape(t, c);
      assert RStripChar(s, c) == r;
      assert t[..|r|] == s[..|r|];
      forall i | |r| <= i < |s| ensures s[i] == c {
        if i < |t| {
          assert s[i] == t[i];
        }
      }
    }
  }

  /** `strip()` keeps one contiguous run of `s` that neither starts nor ends with whitespace. */
  lemma StripSlice(s: string)
    ensures |Strip(s)| <= |s| && IsSlice(Strip(s), s) && Trimmed(Strip(s))
  {
    var l := LStrip(s);
    var r := RStrip(l);
    LStripShape(s);
    RStripShape(l);
    assert Strip(s) == r;
    assert r == s[|s| - |l|..][..|r|];
    assert s[|s| - |l|..][..|r|] == s[|s| - |l|..|s| - |l| + |r|];
  }

  /**
   * `strip()` removes whitespace from both ends and nothing else: what is
   * left is a run of `s` with only whitespace around it, and it neither
   * starts nor ends with whitespace.
   */
  lemma StripShape(s: string)
    ensures |Strip(s)| <= |s| && IsSlice(Strip(s), s) && Trimmed(Strip(s))
    ensures StrippedFrom(Strip(s), s)
  {
    StripSlice(s);
    var l := LStrip(s);
    var r := RStrip(l);
    LStripShape(s);
    RStripShape(l);
    var i := |s| - |l|;
    assert Strip(s) == r;
    assert r == s[i..][..|r|];
    assert s[i..][..|r|] == s[i..i + |r|];
    forall k | i + |r| <= k < |s| ensures IsSpace(s[k]) {
      assert s[k] == l[k - i];
    }
    assert StrippedAt(r, s, i);
  }

  /** A slice of a string without upper-case letters has none either. */
  lemma SliceNoUpper(r: string, s: string)
    requires IsSlice(r, s) && NoUpper(s)
    ensures NoUpper(r)
  {
    var i, j :| 0 <= i <= j <= |s| && r == s[i..j];
    assert forall k :: 0 <= k < |r| ==> r[k] == s[i + k];
  }

  /** The key is a slice of the lower-cased string, with no upper-case letter and no surrounding whitespace. */
  lemma LowerStripSlice(s: string)
    ensures |LowerStrip(s)| <= |s| && IsSlice(LowerStrip(s), Lower(s))
    ensures NoUpper(LowerStrip(s)) && Trimmed(LowerStrip(s))
  {
    LowerShape(s);
    StripSlice(Lower(s));
    SliceNoUpper(Strip(Lower(s)), Lower(s));
  }

  /**
   * The key is the lower-cased string with the whitespace around it
   * removed: a run of it with only whitespace on either side, with no
   * upper-case letter and no surrounding whitespace.
   */
  lemma LowerStripShape(s: string)
    ensures |LowerStrip(s)| <= |s| && IsSlice(LowerStrip(s), Lower(s))
    ensures StrippedFrom(LowerStrip(s), Lower(s))
    ensures NoUpper(LowerStrip(s)) && Trimmed(LowerStrip(s))
  {
    LowerStripSlice(s);
    StripShape(Lower(s));
  }

  /** One differing position is enough to rule out a prefix. */
  lemma DiffersAt(s: string, prefix: string, i: nat)
    requires i < |prefix| && (i >= |s| || s[i] != prefix[i])
    ensures !StartsWith(s, prefix)
  {
    if |prefix| <= |s| {
      assert s[..|prefix|][i] == s[i];
    }
  }

  /** A string with nothing to strip is left as it is. */
  lemma StripUnchanged(s: string)
    requires Trimmed(s)
    ensures Strip(s) == s
  {
    assert LStrip(s) == s;
  }

  /** A string with nothing to lower-case or strip is its own key. */
  lemma LowerStripUnchanged(s: string)
    requires NoUpper(s) && Trimmed(s)
    ensures LowerStrip(s) == s
  {
    assert Lower(s) == s;
    StripUnchanged(s);
  }
}
