/**
 Plain string helpers standing in for the Python string operations the backend
 uses: `lower()`, `strip()`, substring `in`, `endswith`, `split('/')[-1]` and
 slicing `[:n]`. Case mapping and whitespace are restricted to ASCII.
 */
module Text {

  predicate IsUpper(c: char) {
    'A' <= c <= 'Z'
  }

  /** The characters Python's `str.isspace()` accepts within ASCII. */
  predicate IsSpace(c: char) {
    (9 <= c as int <= 13) || (28 <= c as int <= 32)
  }

  predicate AllSpace(s: string) {
    forall i :: 0 <= i < |s| ==> IsSpace(s[i])
  }

  function LowerChar(c: char): char {
    if IsUpper(c) then (c as int + 32) as char else c
  }

  /** ASCII `str.lower()`: every upper-case letter replaced by its lower-case form. */
  function Lower(s: string): (r: string)
    ensures |r| == |s|
    ensures forall i :: 0 <= i < |r| ==> !IsUpper(r[i])
    ensures forall i :: 0 <= i < |s| && !IsUpper(s[i]) ==> r[i] == s[i]
    ensures forall i :: 0 <= i < |s| && IsUpper(s[i]) ==> r[i] as int == s[i] as int + 32
  {
    if s == [] then [] else [LowerChar(s[0])] + Lower(s[1..])
  }

  /** Lower-casing twice is lower-casing once. */
  lemma LowerIdempotent(s: string)
    ensures Lower(Lower(s)) == Lower(s)
  {
    var l := Lower(s);
    assert forall i :: 0 <= i < |l| ==> Lower(l)[i] == l[i];
  }

  /** Number of whitespace characters at the start of `s`. */
  function LeadingSpace(s: string): (n: nat)
    ensures n <= |s|
    ensures forall i :: 0 <= i < n ==> IsSpace(s[i])
    ensures n < |s| ==> !IsSpace(s[n])
  {
    if s == [] || !IsSpace(s[0]) then 0
    else 1 + LeadingSpace(s[1..])
  }

  /** Number of whitespace characters at the end of `s`. */
  function TrailingSpace(s: string): (n: nat)
    ensures n <= |s|
    ensures forall i :: |s| - n <= i < |s| ==> IsSpace(s[i])
    ensures n < |s| ==> !IsSpace(s[|s| - n - 1])
  {
    if s == [] || !IsSpace(s[|s| - 1]) then 0
    else 1 + TrailingSpace(s[..|s| - 1])
  }

  /** `str.strip()`: the text between the leading and the trailing whitespace. */
  function Strip(s: string): (r: string)
    ensures |r| <= |s|
  {
    var lead := LeadingSpace(s);
    if lead == |s| then []
    else
      var trail := TrailingSpace(s);
      assert !IsSpace(s[lead]);
      s[lead..|s| - trail]
  }

  /**
   The stripped text is empty exactly when `s` is all whitespace; otherwise it
   starts and ends with a non-whitespace character. It is the slice of `s`
   after the leading whitespace, and only whitespace follows it.
   */
  lemma StripSpec(s: string)
    ensures var r := Strip(s);
      && (r == [] <==> AllSpace(s))
      && (r != [] ==> !IsSpace(r[0]) && !IsSpace(r[|r| - 1]))
      && LeadingSpace(s) + |r| <= |s|
      && (forall i :: 0 <= i < LeadingSpace(s) ==> IsSpace(s[i]))
      && r == s[LeadingSpace(s)..LeadingSpace(s) + |r|]
      && (forall i :: LeadingSpace(s) + |r| <= i < |s| ==> IsSpace(s[i]))
  {
    var lead := LeadingSpace(s);
    var r := Strip(s);
    if lead == |s| {
      assert r == [];
    } else {
      var trail := TrailingSpace(s);
      assert !IsSpace(s[lead]);
      assert r == s[lead..|s| - trail];
      assert r[0] == s[lead];
      assert r[|r| - 1] == s[|s| - trail - 1];
    }
  }

  /**
   Whitespace before position `k`, whitespace from `k + n` on and non-whitespace
   at both ends of `s[k..k + n]` determine `Strip(s)`.
   */
  lemma StripUnique(s: string, k: nat, n: nat)
    requires k + n <= |s|
    requires forall i :: 0 <= i < k ==> IsSpace(s[i])
    requires forall i :: k + n <= i < |s| ==> IsSpace(s[i])
    requires n > 0 ==> !IsSpace(s[k]) && !IsSpace(s[k + n - 1])
    ensures Strip(s) == s[k..k + n]
  {
    StripSpec(s);
    if n > 0 {
      assert LeadingSpace(s) == k;
      var r := Strip(s);
      assert r != [];
      assert r[|r| - 1] == s[k + |r| - 1];
      assert |r| == n;
    }
  }

  /** Whitespace appended to a string does not change its stripped form. */
  lemma StripIgnoresTrailingSpace(s: string, w: string)
    requires AllSpace(w)
    ensures Strip(s + w) == Strip(s)
  {
    StripSpec(s);
    var k := LeadingSpace(s);
    var m := Strip(s);
    var t := s + w;
    forall i | 0 <= i < k ensures IsSpace(t[i]) {
      assert t[i] == s[i];
    }
    forall i | k + |m| <= i < |t| ensures IsSpace(t[i]) {
      if i < |s| { assert t[i] == s[i]; } else { assert t[i] == w[i - |s|]; }
    }
    assert t[k..k + |m|] == m;
    StripUnique(t, k, |m|);
  }

  predicate StartsWith(s: string, p: string) {
    |p| <= |s| && s[..|p|] == p
  }

  /** Python's `s.endswith(p)`. */
  predicate EndsWith(s: string, p: string) {
    |p| <= |s| && s[|s| - |p|..] == p
  }

  /** Python's `p in s` for strings: `p` occurs contiguously somewhere in `s`. */
  predicate IsSubstring(p: string, s: string) {
    exists i :: 0 <= i <= |s| && StartsWith(s[i..], p)
  }

  /** A string occurs in any concatenation that places it between two others. */
  lemma SubstringOfConcat(a: string, m: string, b: string)
    ensures IsSubstring(m, a + m + b)
  {
    var s := a + m + b;
    assert s[|a|..][..|m|] == m;
    assert StartsWith(s[|a|..], m);
  }

  /** The middle piece of a three-part concatenation is recovered by slicing off the outer two. */
  lemma SliceOfConcat(a: string, m: string, b: string)
    ensures var s := a + m + b; |a| + |b| <= |s| && s[|a|..|s| - |b|] == m
  {
    var s := a + m + b;
    assert s[|a|..|s| - |b|] == m;
  }

  /**
   A layout `a + p + b + o + c + d` contains both of its slots `p` and `o`
   verbatim and ends with its last piece `d`.
   */
  lemma TwoSlotLayout(a: string, p: string, b: string, o: string, c: string, d: string)
    ensures var s := a + p + b + o + (c + d);
      IsSubstring(p, s) && IsSubstring(o, s) && EndsWith(s, d)
  {
    var s := a + p + b + o + (c + d);
    assert s == a + p + (b + o + (c + d));
    SubstringOfConcat(a, p, b + o + (c + d));
    SubstringOfConcat(a + p + b, o, c + d);
    assert s[|s| - |d|..] == d;
  }

  /** Python's `s[:n]`: the first `n` elements, or all of `s` when it is shorter. */
  function TakeAtMost<T>(s: seq<T>, n: nat): (r: seq<T>)
    ensures |r| == if |s| <= n then |s| else n
    ensures r == s[..|r|]
  {
    if |s| <= n then s else s[..n]
  }

  /** Where the text after the last `sep` begins: just past that `sep`, or 0 when there is none. */
  function SegmentStart(s: string, sep: char): (k: nat)
    ensures k <= |s|
    ensures forall i :: k <= i < |s| ==> s[i] != sep
    ensures k == 0 || s[k - 1] == sep
  {
    if s == [] then 0
    else if s[|s| - 1] == sep then |s|
    else SegmentStart(s[..|s| - 1], sep)
  }

  /**
   Python's `s.split(sep)[-1]`: the text after the last `sep`, or all of `s`
   when it contains none.
   */
  function LastSegment(s: string, sep: char): (r: string)
    ensures sep !in r
    ensures EndsWith(s, r)
    ensures |r| == |s| || s[|s| - |r| - 1] == sep
  {
    var k := SegmentStart(s, sep);
    assert forall i :: 0 <= i < |s| - k ==> s[k..][i] == s[k + i];
    s[k..]
  }

  /** The segment after a separator followed by separator-free text is that text. */
  lemma {:induction false} LastSegmentAfter(a: string, sep: char, b: string)
    requires sep !in b
    ensures LastSegment(a + [sep] + b, sep) == b
  {
    var s := a + [sep] + b;
    SegmentStartAfter(a, sep, b);
    assert s[|a| + 1..] == b;
  }

  /** Past a separator followed by separator-free text, the segment starts right after it. */
  lemma {:induction false} SegmentStartAfter(a: string, sep: char, b: string)
    requires sep !in b
    ensures SegmentStart(a + [sep] + b, sep) == |a| + 1
  {
    var s := a + [sep] + b;
    if b != [] {
      var init := b[..|b| - 1];
      assert s[..|s| - 1] == a + [sep] + init;
      assert s[|s| - 1] == b[|b| - 1];
      SegmentStartAfter(a, sep, init);
    }
  }
}
