/** The few Python `str` and `list` operations the extractors are built from,
    each defined once with the properties the rest of the model relies on. */
module Text {
  import opened Wrappers

  /** `c.isspace()`: the characters that `str.strip()` without an argument removes. */
  predicate IsSpace(c: char) {
    || c == ' '
    || '\U{9}' <= c <= '\U{D}'
    || '\U{1C}' <= c <= '\U{1F}'
    || c == '\U{85}' || c == '\U{A0}' || c == '\U{1680}'
    || '\U{2000}' <= c <= '\U{200A}'
    || c == '\U{2028}' || c == '\U{2029}' || c == '\U{202F}' || c == '\U{205F}' || c == '\U{3000}'
  }

  /** `s.isspace()`: true of a non-empty string made only of whitespace. */
  predicate IsBlank(s: string) {
    |s| > 0 && forall k :: 0 <= k < |s| ==> IsSpace(s[k])
  }

  /** `c.isdigit()`, restricted to the ASCII digits. */
  predicate IsDigit(c: char) {
    '0' <= c <= '9'
  }

  /** `s.startswith(prefix)`. */
  predicate StartsWith(s: string, prefix: string) {
    prefix <= s
  }

  /** Number of whitespace characters at the start of `s`. */
  function LeadingSpace(s: string): (n: nat)
    ensures n <= |s|
    ensures forall k :: 0 <= k < n ==> IsSpace(s[k])
    ensures n < |s| ==> !IsSpace(s[n])
  {
    if s == [] || !IsSpace(s[0]) then 0 else 1 + LeadingSpace(s[1..])
  }

  /** Number of whitespace characters at the end of `s`. */
  function TrailingSpace(s: string): (n: nat)
    ensures n <= |s|
    ensures forall k :: |s| - n <= k < |s| ==> IsSpace(s[k])
    ensures n < |s| ==> !IsSpace(s[|s| - 1 - n])
  {
    if s == [] || !IsSpace(s[|s| - 1]) then 0 else 1 + TrailingSpace(s[..|s| - 1])
  }

  /** `s.strip()`: removes leading and trailing whitespace and nothing else. */
  function Strip(s: string): (r: string)
    ensures |r| <= |s|
    ensures r == [] || (!IsSpace(r[0]) && !IsSpace(r[|r| - 1]))
  {
    var t := s[LeadingSpace(s)..];
    t[..|t| - TrailingSpace(t)]
  }

  /** Stripping leaves nothing exactly when the string is all whitespace. */
  lemma StripEmpty(s: string)
    ensures Strip(s) == [] <==> forall k :: 0 <= k < |s| ==> IsSpace(s[k])
  {
    var a := LeadingSpace(s);
    var t := s[a..];
    if a < |s| {
      assert t[0] == s[a];
      assert TrailingSpace(t) < |t|;
    }
  }

  /** A string that already has non-whitespace ends is left as it is. */
  lemma StripTrimmed(s: string)
    requires s == [] || (!IsSpace(s[0]) && !IsSpace(s[|s| - 1]))
    ensures Strip(s) == s
  {
  }

  /** A leading whitespace character is stripped away with the rest. */
  lemma StripLeadingSpace(c: char, s: string)
    requires IsSpace(c)
    ensures Strip([c] + s) == Strip(s)
  {
    assert ([c] + s)[1..] == s;
    assert LeadingSpace([c] + s) == 1 + LeadingSpace(s);
    assert ([c] + s)[LeadingSpace([c] + s)..] == s[LeadingSpace(s)..];
  }

  /** Appending a character leaves the leading whitespace of a string that is not all whitespace alone. */
  lemma {:induction false} LeadingSpaceAppend(s: string, c: char)
    requires LeadingSpace(s) < |s|
    ensures LeadingSpace(s + [c]) == LeadingSpace(s)
  {
    if IsSpace(s[0]) {
      assert (s + [c])[1..] == s[1..] + [c];
      LeadingSpaceAppend(s[1..], c);
    }
  }

  /** Appending a whitespace character adds one to the trailing whitespace. */
  lemma TrailingSpaceAppend(t: string, c: char)
    requires IsSpace(c)
    ensures TrailingSpace(t + [c]) == 1 + TrailingSpace(t)
  {
    assert (t + [c])[..|t|] == t;
  }

  /** Dropping a prefix of `s` from `s + x`. */
  lemma DropAppend(s: string, x: string, n: nat)
    requires n <= |s|
    ensures (s + x)[n..] == s[n..] + x
  {
  }

  /** Taking a prefix of `s` from `s + x`. */
  lemma TakeAppend(s: string, x: string, n: nat)
    requires n <= |s|
    ensures (s + x)[..n] == s[..n]
  {
  }

  /** A string of whitespace only stays empty under `Strip` when whitespace is appended. */
  lemma StripBlankAppend(s: string, c: char)
    requires IsSpace(c) && LeadingSpace(s) == |s|
    ensures Strip(s + [c]) == [] && Strip(s) == []
  {
    StripEmpty(s + [c]);
    StripEmpty(s);
  }

  /** Appending whitespace to a string with a visible character keeps its leading part. */
  lemma StripVisibleAppend(s: string, c: char)
    requires IsSpace(c) && LeadingSpace(s) < |s|
    ensures Strip(s + [c]) == Strip(s)
  {
    var a := LeadingSpace(s);
    LeadingSpaceAppend(s, c);
    var u := s[a..];
    DropAppend(s, [c], a);
    TrailingSpaceAppend(u, c);
    TakeAppend(u, [c], |u| - TrailingSpace(u));
  }

  /** A trailing whitespace character is stripped away with the rest. */
  lemma StripTrailingSpace(s: string, c: char)
    requires IsSpace(c)
    ensures Strip(s + [c]) == Strip(s)
  {
    if LeadingSpace(s) == |s| {
      StripBlankAppend(s, c);
    } else {
      StripVisibleAppend(s, c);
    }
  }

  /** A word with visible ends is its own strip, also with one space before or after it. */
  lemma StripPadded(w: string)
    requires w != [] && !IsSpace(w[0]) && !IsSpace(w[|w| - 1])
    ensures Strip(w) == w && Strip([' '] + w) == w && Strip(w + [' ']) == w
  {
    StripTrimmed(w);
    StripLeadingSpace(' ', w);
    StripTrailingSpace(w, ' ');
  }

  /** Stripping keeps every non-whitespace character and adds none. */
  lemma StripChars(s: string)
    ensures forall c :: !IsSpace(c) ==> (c in Strip(s) <==> c in s)
  {
    var a := LeadingSpace(s);
    var t := s[a..];
    var b := TrailingSpace(t);
    forall c | !IsSpace(c) && c in s ensures c in Strip(s) {
      var k :| 0 <= k < |s| && s[k] == c;
      assert a <= k;
      assert t[k - a] == c;
      assert k - a < |t| - b;
      assert Strip(s)[k - a] == c;
    }
  }

  /** Stripping twice is stripping once. */
  lemma StripIdempotent(s: string)
    ensures Strip(Strip(s)) == Strip(s)
  {
    var r := Strip(s);
    assert LeadingSpace(r) == 0;
    assert TrailingSpace(r) == 0;
  }

  /** A stripped non-empty string is never all whitespace, so `isspace()` is false on it. */
  lemma StrippedNotBlank(s: string)
    requires Strip(s) != []
    ensures !IsBlank(Strip(s))
  {
  }

  /** `s.find(pat)`: the index of the leftmost occurrence of `pat` in `s`. */
  function Find(s: string, pat: string): (r: Option<nat>)
    ensures r.Some? ==> r.value <= |s| && pat <= s[r.value..]
    decreases |s|
  {
    if pat <= s then Some(0)
    else if s == [] then None
    else
      var rest := Find(s[1..], pat);
      assert rest.Some? ==> s[1..][rest.value..] == s[rest.value + 1..];
      match rest
      case None => None
      case Some(k) => Some(k + 1)
  }

  /** `Find` returns the leftmost occurrence: none starts before it. */
  lemma {:induction false} FindLeftmost(s: string, pat: string, k: nat)
    requires k <= |s| && pat <= s[k..]
    ensures Find(s, pat).Some? && Find(s, pat).value <= k
    decreases |s|
  {
    if !(pat <= s) && s != [] {
      assert k > 0;
      assert s[1..][k - 1..] == s[k..];
      FindLeftmost(s[1..], pat, k - 1);
    }
  }

  /** `pat in s`. */
  predicate Contains(s: string, pat: string) {
    Find(s, pat).Some?
  }

  /** An occurrence at any position makes `pat in s` true. */
  lemma ContainsAt(s: string, pat: string, k: nat)
    requires k <= |s| && pat <= s[k..]
    ensures Contains(s, pat)
  {
    FindLeftmost(s, pat, k);
  }

  /** For a one-character pattern, `pat in s` is membership of that character. */
  lemma {:induction false} ContainsChar(s: string, c: char)
    ensures Contains(s, [c]) <==> c in s
  {
    if c in s {
      var k :| 0 <= k < |s| && s[k] == c;
      ContainsAt(s, [c], k);
    }
    if Contains(s, [c]) {
      var k := Find(s, [c]).value;
      assert s[k] == c;
    }
  }

  /** `Strip(s)` is a slice of `s`. */
  lemma StripSlice(s: string)
    ensures LeadingSpace(s) + |Strip(s)| <= |s|
    ensures Strip(s) == s[LeadingSpace(s)..LeadingSpace(s) + |Strip(s)|]
  {
  }

  /** An occurrence inside a slice is an occurrence in the whole string. */
  lemma OccursInSlice(s: string, a: nat, r: string, pat: string, k: nat)
    requires a + |r| <= |s| && r == s[a..a + |r|]
    requires k <= |r| && pat <= r[k..]
    ensures Contains(s, pat)
  {
    assert r[k..] <= s[a + k..];
    ContainsAt(s, pat, a + k);
  }

  /** A pattern found in the stripped string is found in the string itself. */
  lemma ContainsStripped(s: string, pat: string)
    requires Contains(Strip(s), pat)
    ensures Contains(s, pat)
  {
    var r := Strip(s);
    StripSlice(s);
    OccursInSlice(s, LeadingSpace(s), r, pat, Find(r, pat).value);
  }

  /** Whatever occurs inside an occurring pattern occurs too. */
  lemma ContainsInside(s: string, big: string, small: string, offset: nat)
    requires Contains(s, big) && offset <= |big| && small <= big[offset..]
    ensures Contains(s, small)
  {
    var v := Find(s, big).value;
    assert s[v..][offset..] == s[v + offset..];
    ContainsAt(s, small, v + offset);
  }

  /** A pattern holding a character that `s` lacks does not occur in `s`. */
  lemma MissingChar(s: string, pat: string, i: nat)
    requires i < |pat| && pat[i] !in s
    ensures !Contains(s, pat)
  {
  }

  /** A pattern longer than `s` does not occur in it. */
  lemma TooLong(s: string, pat: string)
    requires |pat| > |s|
    ensures !Contains(s, pat)
  {
  }

  /** `s.replace(pat, with)` for a non-empty pattern: every leftmost,
      non-overlapping occurrence of `pat` is replaced by `with`. */
  function Replace(s: string, pat: string, with: string): (r: string)
    requires pat != []
    ensures !Contains(s, pat) ==> r == s
    decreases |s|
  {
    if pat <= s then with + Replace(s[|pat|..], pat, with)
    else if s == [] then []
    else
      assert !Contains(s, pat) ==> !Contains(s[1..], pat) by {
        if Contains(s[1..], pat) {
          var k := Find(s[1..], pat).value;
          assert s[1..][k..] == s[k + 1..];
          ContainsAt(s, pat, k + 1);
        }
      }
      [s[0]] + Replace(s[1..], pat, with)
  }

  /** `s.split(sep)` for a non-empty separator: the pieces between the
      leftmost non-overlapping occurrences of `sep`. */
  function Split(s: string, sep: string): (r: seq<string>)
    requires sep != []
    ensures |r| >= 1
    decreases |s|
  {
    if sep <= s then [[]] + Split(s[|sep|..], sep)
    else if s == [] then [[]]
    else
      var t := Split(s[1..], sep);
      [[s[0]] + t[0]] + t[1..]
  }

  /** `sep.join(pieces)`. */
  function Join(pieces: seq<string>, sep: string): string {
    if pieces == [] then []
    else if |pieces| == 1 then pieces[0]
    else pieces[0] + sep + Join(pieces[1..], sep)
  }

  /** No piece of a split on one character contains that character. */
  lemma {:induction false} SplitCharFree(s: string, c: char)
    ensures forall p :: p in Split(s, [c]) ==> c !in p
    decreases |s|
  {
    if [c] <= s {
      SplitCharFree(s[1..], c);
    } else if s != [] {
      SplitCharFree(s[1..], c);
      assert s[0] != c;
    }
  }

  /** Every character of a piece of a split occurs in the split string. */
  lemma {:induction false} SplitPieceChars(s: string, sep: string)
    requires sep != []
    ensures forall p, c :: p in Split(s, sep) && c in p ==> c in s
    decreases |s|
  {
    if sep <= s {
      SplitPieceChars(s[|sep|..], sep);
    } else if s != [] {
      SplitPieceChars(s[1..], sep);
    }
  }

  /** Splitting `a + [c] + b` on `c`, where `a` is free of `c`, cuts after `a`. */
  lemma {:induction false} SplitAtChar(a: string, c: char, b: string)
    requires c !in a
    ensures Split(a + [c] + b, [c]) == [a] + Split(b, [c])
    decreases |a|
  {
    var s := a + [c] + b;
    if a == [] {
      assert s[1..] == b;
    } else {
      SplitAtChar(a[1..], c, b);
      assert s[1..] == a[1..] + [c] + b;
      assert [a[0]] + a[1..] == a;
    }
  }

  /** Splitting a string free of `c` on `c` gives the string alone. */
  lemma {:induction false} SplitNoChar(a: string, c: char)
    requires c !in a
    ensures Split(a, [c]) == [a]
    decreases |a|
  {
    if a != [] {
      SplitNoChar(a[1..], c);
      assert [a[0]] + a[1..] == a;
    }
  }

  /** An occurrence inside the first `n` characters is found by `Find` on the whole string, no later. */
  lemma OccursInPrefix(s: string, n: nat, pat: string)
    requires n <= |s| && Contains(s[..n], pat)
    ensures Find(s, pat).Some? && Find(s, pat).value + |pat| <= n
  {
    var j := Find(s[..n], pat).value;
    assert s[..n][j..] <= s[j..];
    FindLeftmost(s, pat, j);
  }

  /** The text before, at and after position `k` rebuilds `s` when `pat` occurs at `k`. */
  lemma Around(s: string, pat: string, k: nat)
    requires k <= |s| && pat <= s[k..]
    ensures k + |pat| <= |s|
    ensures s[..k] + pat + s[k + |pat|..] == s
  {
    var n := k + |pat|;
    assert s[k..n] == pat;
    assert s[..n] == s[..k] + pat;
    assert s == s[..n] + s[n..];
  }

  /** The text before the leftmost occurrence of `pat` is free of `pat`. */
  lemma BeforeLeftmost(s: string, pat: string, k: nat)
    requires pat != [] && Find(s, pat) == Some(k)
    ensures !Contains(s[..k], pat)
  {
    if Contains(s[..k], pat) {
      OccursInPrefix(s, k, pat);
    }
  }

  /** `s.split(sep, 1)` when `sep` occurs in `s`: the text before the first
      occurrence and the text after it. */
  function SplitOnce(s: string, sep: string): (r: (string, string))
    requires sep != [] && Contains(s, sep)
    ensures r.0 + sep + r.1 == s
    ensures !Contains(r.0, sep)
  {
    var k := Find(s, sep).value;
    Around(s, sep, k);
    BeforeLeftmost(s, sep, k);
    (s[..k], s[k + |sep|..])
  }

  /** `s.split(sep, 1)` on `a + [c] + b` with `a` free of `c` gives `a` and `b`. */
  lemma SplitOnceAtChar(a: string, c: char, b: string)
    requires c !in a
    ensures Contains(a + [c] + b, [c])
    ensures SplitOnce(a + [c] + b, [c]) == (a, b)
  {
    var s := a + [c] + b;
    assert [c] <= s[|a|..];
    FindLeftmost(s, [c], |a|);
    var v := Find(s, [c]).value;
    assert s[v] == c;
    assert v == |a|;
    var r := SplitOnce(s, [c]);
    assert r.0 == s[..|a|] == a;
    assert r.1 == s[|a| + 1..] == b;
  }

  /** `[p.strip() for p in pieces]`. */
  function StripAll(pieces: seq<string>): (r: seq<string>)
    ensures |r| == |pieces|
    ensures forall k :: 0 <= k < |r| ==> r[k] == Strip(pieces[k])
  {
    if pieces == [] then [] else [Strip(pieces[0])] + StripAll(pieces[1..])
  }

  /** The stripped pieces of a split on a non-blank character are trimmed and free of it. */
  lemma StripAllSplitChar(s: string, c: char)
    requires !IsSpace(c)
    ensures forall t :: t in StripAll(Split(s, [c])) ==> c !in t && Strip(t) == t
  {
    var pieces := Split(s, [c]);
    SplitCharFree(s, c);
    forall k | 0 <= k < |pieces| ensures c !in Strip(pieces[k]) && Strip(Strip(pieces[k])) == Strip(pieces[k]) {
      StripChars(pieces[k]);
      StripIdempotent(pieces[k]);
    }
  }

  /** The concatenation of `f(x)` over `xs` in order: a loop that extends a list. */
  function FlatMap<T>(f: T -> seq<string>, xs: seq<T>): seq<string> {
    if xs == [] then [] else FlatMap(f, xs[..|xs| - 1]) + f(xs[|xs| - 1])
  }

  /** One more input appends its image. */
  lemma FlatMapStep<T>(f: T -> seq<string>, xs: seq<T>, k: nat)
    requires k < |xs|
    ensures FlatMap(f, xs[..k + 1]) == FlatMap(f, xs[..k]) + f(xs[k])
  {
    assert xs[..k + 1][..k] == xs[..k];
  }

  /** When every image is a single string, a `FlatMap` is the plain map. */
  lemma {:induction false} FlatMapSingletons<T>(f: T -> seq<string>, xs: seq<T>)
    requires forall x :: |f(x)| == 1
    ensures |FlatMap(f, xs)| == |xs|
    ensures forall k :: 0 <= k < |xs| ==> FlatMap(f, xs)[k] == f(xs[k])[0]
  {
    if xs != [] {
      var n := |xs| - 1;
      var init := xs[..n];
      FlatMapSingletons(f, init);
      var r := FlatMap(f, xs);
      assert r == FlatMap(f, init) + f(xs[n]);
      forall k | 0 <= k < |xs|
        ensures r[k] == f(xs[k])[0]
      {
        if k < n {
          assert init[k] == xs[k];
        }
      }
    }
  }

  /** `s.lower()` on one character: ASCII and Cyrillic capitals. */
  function LowerChar(c: char): char {
    if 'A' <= c <= 'Z' then (c as int + 32) as char
    else if '\U{410}' <= c <= '\U{42F}' then (c as int + 32) as char
    else if '\U{400}' <= c <= '\U{40F}' then (c as int + 80) as char
    else c
  }

  /** `s.lower()`. */
  function Lower(s: string): (r: string)
    ensures |r| == |s|
    ensures forall k :: 0 <= k < |s| ==> r[k] == LowerChar(s[k])
  {
    if s == [] then [] else [LowerChar(s[0])] + Lower(s[1..])
  }
}
