/** The three string operations the core relies on: `str.lower()`, `str.strip()` and
    `str.replace(old, new)`. Case folding covers the ASCII letters and whitespace the ASCII
    characters for which Python's `str.isspace()` holds. */
module Text {

  /** Python's `str.isspace()` on ASCII: tab, line feed, vertical tab, form feed, carriage
      return, the four information separators 0x1C-0x1F, and space. */
  predicate IsSpace(c: char) {
    c == ' ' || '\U{09}' <= c <= '\U{0D}' || '\U{1C}' <= c <= '\U{1F}'
  }

  predicate IsUpper(c: char) {
    'A' <= c <= 'Z'
  }

  predicate AllSpace(s: string) {
    forall k :: 0 <= k < |s| ==> IsSpace(s[k])
  }

  /** Neither end of `s` is whitespace: what `strip()` leaves behind. */
  predicate Trimmed(s: string) {
    s == [] || (!IsSpace(s[0]) && !IsSpace(s[|s| - 1]))
  }

  function LowerChar(c: char): (r: char)
    ensures !IsUpper(r)
    ensures IsUpper(c) ==> r as int == c as int + 32
    ensures !IsUpper(c) ==> r == c
  {
    if IsUpper(c) then (c as int + 32) as char else c
  }

  /** `s.lower()`: every upper-case letter replaced by its lower-case partner, in place. */
  function Lower(s: string): (r: string)
    ensures |r| == |s|
    ensures forall k :: 0 <= k < |s| ==> r[k] == LowerChar(s[k])
  {
    if s == [] then [] else [LowerChar(s[0])] + Lower(s[1..])
  }

  /** `s.lstrip()`: the suffix of `s` left after dropping leading whitespace. */
  function TrimStart(s: string): (r: string)
    ensures |r| <= |s| && r == s[|s| - |r|..]
    ensures forall k :: 0 <= k < |s| - |r| ==> IsSpace(s[k])
    ensures r == [] || !IsSpace(r[0])
  {
    if s != [] && IsSpace(s[0]) then TrimStart(s[1..]) else s
  }

  /** `s.rstrip()`: the prefix of `s` left after dropping trailing whitespace. */
  function TrimEnd(s: string): (r: string)
    ensures |r| <= |s| && r == s[..|r|]
    ensures forall k :: |r| <= k < |s| ==> IsSpace(s[k])
    ensures r == [] || !IsSpace(r[|r| - 1])
  {
    if s != [] && IsSpace(s[|s| - 1]) then TrimEnd(s[..|s| - 1]) else s
  }

  /** `s.strip()`. */
  function Strip(s: string): (r: string)
    ensures |r| <= |s|
    ensures Trimmed(r)
  {
    TrimEnd(TrimStart(s))
  }

  /** The comparison key `s.lower().strip()`. */
  function Normalize(s: string): (r: string)
    ensures Trimmed(r)
    ensures forall k :: 0 <= k < |r| ==> !IsUpper(r[k])
  {
    var l := Lower(s);
    var r := Strip(l);
    assert r == TrimEnd(TrimStart(l));
    r
  }

  lemma {:induction false} TrimStartPadded(pre: string, rest: string)
    requires AllSpace(pre)
    requires rest == [] || !IsSpace(rest[0])
    ensures TrimStart(pre + rest) == rest
  {
    if pre != [] {
      assert (pre + rest)[1..] == pre[1..] + rest;
      TrimStartPadded(pre[1..], rest);
    }
  }

  lemma {:induction false} TrimEndPadded(rest: string, post: string)
    requires AllSpace(post)
    requires rest == [] || !IsSpace(rest[|rest| - 1])
    ensures TrimEnd(rest + post) == rest
  {
    if post != [] {
      assert (rest + post)[..|rest + post| - 1] == rest + post[..|post| - 1];
      TrimEndPadded(rest, post[..|post| - 1]);
    }
  }

  /** `strip()` removes exactly the surrounding whitespace: padding a trimmed string with
      whitespace on either side and stripping gives the string back. */
  lemma StripPadded(pre: string, core: string, post: string)
    requires AllSpace(pre) && AllSpace(post) && Trimmed(core)
    ensures Strip(pre + core + post) == core
  {
    if core == [] {
      assert pre + core + post == pre + post;
      assert AllSpace(pre + post);
      assert TrimStart(pre + post) == [];
    } else {
      assert pre + core + post == pre + (core + post);
      TrimStartPadded(pre, core + post);
      TrimEndPadded(core, post);
    }
  }

  /** `strip()` is idempotent. */
  lemma StripIdempotent(s: string)
    ensures Strip(Strip(s)) == Strip(s)
  {
    StripPadded([], Strip(s), []);
    assert [] + Strip(s) + [] == Strip(s);
  }

  /** What `lstrip()` drops is whitespace, and it is a prefix. */
  lemma TrimStartSplits(s: string) returns (pre: string)
    ensures AllSpace(pre) && s == pre + TrimStart(s)
  {
    var t := TrimStart(s);
    pre := s[..|s| - |t|];
    forall k | 0 <= k < |pre| ensures IsSpace(pre[k]) {
      assert pre[k] == s[k];
    }
    assert s == s[..|s| - |t|] + s[|s| - |t|..];
  }

  /** What `rstrip()` drops is whitespace, and it is a suffix. */
  lemma TrimEndSplits(s: string) returns (post: string)
    ensures AllSpace(post) && s == TrimEnd(s) + post
  {
    var r := TrimEnd(s);
    post := s[|r|..];
    forall k | 0 <= k < |post| ensures IsSpace(post[k]) {
      assert post[k] == s[|r| + k];
    }
    assert s == s[..|r|] + s[|r|..];
  }

  lemma AllSpaceConcat(a: string, b: string)
    requires AllSpace(a) && AllSpace(b)
    ensures AllSpace(a + b)
  {
    forall k | 0 <= k < |a + b| ensures IsSpace((a + b)[k]) {
      if k < |a| {
        assert (a + b)[k] == a[k];
      } else {
        assert (a + b)[k] == b[k - |a|];
      }
    }
  }

  lemma Regroup<T>(p: seq<T>, a: seq<T>, c: seq<T>, b: seq<T>, q: seq<T>)
    ensures p + (a + c + b) + q == (p + a) + c + (b + q)
  {
  }

  /** Every string is its stripped core with whitespace on either side. */
  lemma StripSplits(s: string) returns (pre: string, post: string)
    ensures AllSpace(pre) && AllSpace(post)
    ensures s == pre + Strip(s) + post
  {
    var t := TrimStart(s);
    assert Strip(s) == TrimEnd(t);
    pre := TrimStartSplits(s);
    post := TrimEndSplits(t);
    Assoc(pre, TrimEnd(t), post);
  }

  /** Whitespace around a string never changes what `strip()` gives. */
  lemma StripIgnoresPadding(pre: string, s: string, post: string)
    requires AllSpace(pre) && AllSpace(post)
    ensures Strip(pre + s + post) == Strip(s)
  {
    var a, b := StripSplits(s);
    Regroup(pre, a, Strip(s), b, post);
    AllSpaceConcat(pre, a);
    AllSpaceConcat(b, post);
    StripPadded(pre + a, Strip(s), b + post);
  }

  lemma LowerConcat(a: string, b: string)
    ensures Lower(a + b) == Lower(a) + Lower(b)
  {
  }

  lemma LowerKeepsSpace(s: string)
    requires AllSpace(s)
    ensures Lower(s) == s
  {
  }

  /** `lower().strip()` ignores surrounding whitespace and letter case: a string that is some
      case variant of `t`, padded with whitespace, has the same comparison key as `t`. */
  lemma NormalizeIgnoresCaseAndPadding(pre: string, core: string, post: string, t: string)
    requires AllSpace(pre) && AllSpace(post)
    requires Lower(core) == Lower(t)
    ensures Normalize(pre + core + post) == Normalize(t)
  {
    LowerConcat(pre + core, post);
    LowerConcat(pre, core);
    LowerKeepsSpace(pre);
    LowerKeepsSpace(post);
    StripIgnoresPadding(pre, Lower(core), post);
  }

  /** `pat` occurs in `s` starting at index `i`. */
  predicate OccursAt(s: string, pat: string, i: nat) {
    i + |pat| <= |s| && s[i..i + |pat|] == pat
  }

  /** `s.replace(pat, repl)` for a non-empty `pat`: scanning left to right, every
      non-overlapping occurrence of `pat` is replaced by `repl`. */
  function Replace(s: string, pat: string, repl: string): (r: string)
    requires pat != []
    ensures |repl| == |pat| ==> |r| == |s|
    ensures repl == pat ==> r == s
    decreases |s|
  {
    if |s| < |pat| then s
    else if s[..|pat|] == pat then repl + Replace(s[|pat|..], pat, repl)
    else [s[0]] + Replace(s[1..], pat, repl)
  }

  /** Occurrences in a suffix are occurrences in the whole string, shifted. */
  lemma OccursInSuffix(s: string, pat: string, d: nat, i: nat)
    requires d <= |s|
    ensures OccursAt(s[d..], pat, i) <==> OccursAt(s, pat, d + i)
  {
    if i + |pat| <= |s[d..]| {
      assert s[d..][i..i + |pat|] == s[d + i..d + i + |pat|];
    }
  }

  /** Text in which `pat` never occurs is returned unchanged. */
  lemma {:induction false} ReplaceAbsent(s: string, pat: string, repl: string)
    requires pat != []
    requires forall i: nat :: !OccursAt(s, pat, i)
    ensures Replace(s, pat, repl) == s
    decreases |s|
  {
    if |s| >= |pat| {
      assert !OccursAt(s, pat, 0);
      forall i: nat ensures !OccursAt(s[1..], pat, i) {
        OccursInSuffix(s, pat, 1, i);
      }
      ReplaceAbsent(s[1..], pat, repl);
      assert s == [s[0]] + s[1..];
    }
  }

  /** Text before the first occurrence of `pat` is copied through unchanged. */
  lemma {:induction false} ReplaceSkips(s: string, pat: string, repl: string, k: nat)
    requires pat != [] && k <= |s|
    requires forall i: nat :: i < k ==> !OccursAt(s, pat, i)
    requires k + |pat| <= |s|
    ensures Replace(s, pat, repl) == s[..k] + Replace(s[k..], pat, repl)
    decreases k
  {
    if k > 0 {
      var tail := s[1..];
      assert !OccursAt(s, pat, 0);
      ReplaceCopiesHead(s, pat, repl);
      NoneBeforeInTail(s, pat, k);
      ReplaceSkips(tail, pat, repl, k - 1);
      HeadAndTail(s, k);
      Assoc([s[0]], tail[..k - 1], Replace(s[k..], pat, repl));
    }
  }

  /** Where `pat` does not start at the head, `replace` copies the first character. */
  lemma ReplaceCopiesHead(s: string, pat: string, repl: string)
    requires pat != [] && |pat| <= |s| && !OccursAt(s, pat, 0)
    ensures Replace(s, pat, repl) == [s[0]] + Replace(s[1..], pat, repl)
  {
    assert s[..|pat|] != pat;
  }

  lemma NoneBeforeInTail(s: string, pat: string, k: nat)
    requires 0 < k <= |s|
    requires forall i: nat :: i < k ==> !OccursAt(s, pat, i)
    ensures forall i: nat :: i < k - 1 ==> !OccursAt(s[1..], pat, i)
  {
    forall i: nat | i < k - 1 ensures !OccursAt(s[1..], pat, i) {
      OccursInSuffix(s, pat, 1, i);
    }
  }

  lemma HeadAndTail<T>(s: seq<T>, k: nat)
    requires 0 < k <= |s|
    ensures s[1..][k - 1..] == s[k..]
    ensures [s[0]] + s[1..][..k - 1] == s[..k]
  {
  }

  lemma Assoc<T>(a: seq<T>, b: seq<T>, c: seq<T>)
    ensures a + (b + c) == (a + b) + c
  {
  }

  /** With exactly one occurrence of `pat`, at index `k`, `replace` splices `repl` in at `k`
      and leaves everything else as it was. */
  lemma ReplaceOnce(s: string, pat: string, repl: string, k: nat)
    requires pat != [] && OccursAt(s, pat, k)
    requires forall i: nat :: i != k ==> !OccursAt(s, pat, i)
    ensures Replace(s, pat, repl) == s[..k] + repl + s[k + |pat|..]
  {
    ReplaceSkips(s, pat, repl, k);
    var t := s[k..];
    var rest := s[k + |pat|..];
    assert t[..|pat|] == pat && t[|pat|..] == rest;
    assert Replace(t, pat, repl) == repl + Replace(rest, pat, repl);
    NoneAfter(s, pat, k + |pat|);
    ReplaceAbsent(rest, pat, repl);
    Assoc(s[..k], repl, rest);
  }

  lemma NoneAfter(s: string, pat: string, d: nat)
    requires d <= |s|
    requires forall i: nat :: d <= i ==> !OccursAt(s, pat, i)
    ensures forall i: nat :: !OccursAt(s[d..], pat, i)
  {
    forall i: nat ensures !OccursAt(s[d..], pat, i) {
      OccursInSuffix(s, pat, d, i);
    }
  }
}
