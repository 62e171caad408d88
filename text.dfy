/**
 * The few Python string operations the voice controller relies on:
 * `str.lower`, `str.strip`, the substring test `p in t`, and `any(p in t for p in ps)`.
 * Characters are Unicode scalar values; case folding and whitespace are the ASCII subsets.
 */
module Text {
  import opened Wrappers

  // ---------------------------------------------------------------------------
  // str.lower
  // ---------------------------------------------------------------------------

  predicate IsUpper(c: char) { 'A' <= c <= 'Z' }

  function LowerChar(c: char): (r: char)
    ensures !IsUpper(r)
    ensures !IsUpper(c) ==> r == c
    ensures IsUpper(c) ==> r != c && 'a' <= r <= 'z' && r as int == c as int + 32
  {
    if IsUpper(c) then (c as int + 32) as char else c
  }

  /** `s.lower()`: every upper-case letter is replaced by its lower-case partner, nothing else changes. */
  function Lower(s: string): (r: string)
    ensures |r| == |s|
    ensures forall i :: 0 <= i < |s| ==> !IsUpper(r[i]) && (!IsUpper(s[i]) ==> r[i] == s[i])
    ensures forall i :: 0 <= i < |s| && IsUpper(s[i]) ==> r[i] as int == s[i] as int + 32
  {
    seq(|s|, i requires 0 <= i < |s| => LowerChar(s[i]))
  }

  /** Lower-casing twice is lower-casing once, and lower-case text is left as it is. */
  lemma LowerIdempotent(s: string)
    ensures Lower(Lower(s)) == Lower(s)
    ensures (forall i :: 0 <= i < |s| ==> !IsUpper(s[i])) ==> Lower(s) == s
  {
  }

  // ---------------------------------------------------------------------------
  // str.strip
  // ---------------------------------------------------------------------------

  /** The ASCII characters for which Python's `str.isspace` holds. */
  predicate IsSpace(c: char) { c == ' ' || '\t' <= c <= '\r' || '\U{1C}' <= c <= '\U{1F}' }

  /** `s.lstrip()`: the text without its leading whitespace. */
  function TrimStart(s: string): (r: string)
    ensures |r| <= |s|
  {
    if s != [] && IsSpace(s[0]) then TrimStart(s[1..]) else s
  }

  /** What `TrimStart` drops is whitespace, and what it keeps is the rest of `s`, starting at a non-space. */
  lemma {:induction false} TrimStartSpec(s: string)
    ensures TrimStart(s) == s[|s| - |TrimStart(s)|..]
    ensures forall i :: 0 <= i < |s| - |TrimStart(s)| ==> IsSpace(s[i])
    ensures TrimStart(s) == [] || !IsSpace(TrimStart(s)[0])
  {
    if s != [] && IsSpace(s[0]) {
      TrimStartSpec(s[1..]);
    }
  }

  /** `s.rstrip()`: the text without its trailing whitespace. */
  function TrimEnd(s: string): (r: string)
    ensures |r| <= |s|
  {
    if s != [] && IsSpace(s[|s| - 1]) then TrimEnd(s[..|s| - 1]) else s
  }

  /** What `TrimEnd` drops is whitespace, and what it keeps is the start of `s`, ending at a non-space. */
  lemma {:induction false} TrimEndSpec(s: string)
    ensures TrimEnd(s) == s[..|TrimEnd(s)|]
    ensures forall i :: |TrimEnd(s)| <= i < |s| ==> IsSpace(s[i])
    ensures TrimEnd(s) == [] || !IsSpace(TrimEnd(s)[|TrimEnd(s)| - 1])
  {
    if s != [] && IsSpace(s[|s| - 1]) {
      TrimEndSpec(s[..|s| - 1]);
    }
  }

  /** `s` holds `r` at index `i`, with nothing but whitespace before and after it. */
  predicate Surrounded(s: string, r: string, i: int)
  {
    && 0 <= i <= |s| - |r| && s[i..i + |r|] == r
    && (forall k :: 0 <= k < i ==> IsSpace(s[k]))
    && (forall k :: i + |r| <= k < |s| ==> IsSpace(s[k]))
  }

  /**
   * `s.strip()`: the piece of `s` that remains once its leading and trailing
   * whitespace is removed. Everything before and after that piece is whitespace and
   * the piece neither starts nor ends with whitespace, which pins it down; it is
   * empty exactly when `s` is blank.
   */
  function Strip(s: string): (r: string)
    ensures exists i :: Surrounded(s, r, i)
    ensures r == [] || (!IsSpace(r[0]) && !IsSpace(r[|r| - 1]))
    ensures r == [] <==> forall i :: 0 <= i < |s| ==> IsSpace(s[i])
  {
    var front := TrimStart(s);
    var r := TrimEnd(front);
    TrimStartSpec(s);
    TrimEndSpec(front);
    var i := |s| - |front|;
    assert s[i..i + |r|] == r by {
      assert s[i..][..|r|] == s[i..i + |r|];
    }
    assert forall k :: i + |r| <= k < |s| ==> IsSpace(s[k]) by {
      forall k | i + |r| <= k < |s| ensures IsSpace(s[k]) {
        assert s[k] == front[k - i];
      }
    }
    assert Surrounded(s, r, i);
    r
  }

  /** Any non-empty piece with whitespace only around it and at neither end is `Strip(s)`. */
  lemma StripUnique(s: string, q: string, i: int)
    requires Surrounded(s, q, i) && q != [] && !IsSpace(q[0]) && !IsSpace(q[|q| - 1])
    ensures q == Strip(s)
  {
    var r := Strip(s);
    assert s[i] == q[0];
    var j :| Surrounded(s, r, j);
    assert r != [];
    assert s[j] == r[0];
    assert i == j;
    assert s[i + |q| - 1] == q[|q| - 1];
    assert s[j + |r| - 1] == r[|r| - 1];
    assert |q| == |r|;
  }

  /** Text that already has no surrounding whitespace is returned unchanged. */
  lemma StripUnchanged(s: string)
    requires s == [] || (!IsSpace(s[0]) && !IsSpace(s[|s| - 1]))
    ensures Strip(s) == s
  {
  }

  // ---------------------------------------------------------------------------
  // The substring test `pat in text`
  // ---------------------------------------------------------------------------

  /** `text` holds `pat` starting at index `i`. */
  predicate OccursAt(text: string, pat: string, i: int)
  {
    0 <= i && i + |pat| <= |text| && text[i..i + |pat|] == pat
  }

  /** `pat in text`: `pat` occurs somewhere in `text` as a contiguous run. */
  predicate Contains(text: string, pat: string)
  {
    exists i :: 0 <= i <= |text| - |pat| && OccursAt(text, pat, i)
  }

  /** An occurrence at a known position is enough. */
  lemma ContainsAt(text: string, pat: string, i: int)
    requires OccursAt(text, pat, i)
    ensures Contains(text, pat)
  {
  }

  /** A text contains its own ending. */
  lemma ContainsSuffix(front: string, pat: string)
    ensures Contains(front + pat, pat)
  {
    assert (front + pat)[|front|..|front| + |pat|] == pat;
    ContainsAt(front + pat, pat, |front|);
  }

  /** Substrings of substrings are substrings. */
  lemma ContainsTrans(text: string, mid: string, pat: string)
    requires Contains(text, mid) && Contains(mid, pat)
    ensures Contains(text, pat)
  {
    var i :| 0 <= i <= |text| - |mid| && OccursAt(text, mid, i);
    var j :| 0 <= j <= |mid| - |pat| && OccursAt(mid, pat, j);
    assert i + |mid| <= |text| && j + |pat| <= |mid|;
    forall k | 0 <= k < |pat| ensures text[i + j + k] == pat[k] {
      assert text[i + j + k] == text[i..i + |mid|][j + k] == mid[j + k] == mid[j..j + |pat|][k];
    }
    assert text[i + j..i + j + |pat|] == pat;
    ContainsAt(text, pat, i + j);
  }

  /** A pattern with a character the text lacks, or longer than the text, does not occur in it. */
  lemma NotContains(text: string, pat: string, c: char)
    requires |text| < |pat| || (c in pat && c !in text)
    ensures !Contains(text, pat)
  {
    if |text| >= |pat| {
      var k :| 0 <= k < |pat| && pat[k] == c;
      forall i | 0 <= i && i + |pat| <= |text| ensures !OccursAt(text, pat, i) {
        assert text[i..i + |pat|][k] == text[i + k] != c;
      }
    }
  }

  // ---------------------------------------------------------------------------
  // any(p in text for p in pats)
  // ---------------------------------------------------------------------------

  /** `any(p in text for p in pats)`: some pattern of `pats` occurs in `text`. */
  predicate ContainsAny(text: string, pats: seq<string>)
  {
    exists p :: p in pats && Contains(text, p)
  }

  /**
   * The index of the first pattern of `pats` that occurs in `text`: the branch an
   * `if/elif` chain over `pats`, in order, would take.
   */
  function FirstMatch(text: string, pats: seq<string>): (r: Option<nat>)
    ensures r.Some? ==> r.value < |pats| && Contains(text, pats[r.value])
    ensures r.Some? ==> forall j :: 0 <= j < r.value ==> !Contains(text, pats[j])
    ensures r.None? <==> !ContainsAny(text, pats)
  {
    if pats == [] then None
    else if Contains(text, pats[0]) then assert pats[0] in pats; Some(0)
    else
      assert forall p :: p in pats && p != pats[0] ==> p in pats[1..];
      match FirstMatch(text, pats[1..])
      case None => None
      case Some(k) => Some(k + 1)
  }
}
