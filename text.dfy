/**
 * String operations with the meaning Python gives them: `str.isspace`,
 * `str.strip`, `str.lower` (for ASCII letters), the `in` substring test,
 * `str.join`, `str.replace` and slicing by code points.
 */
module Text {

  /** Python's `str.isspace`, which is also what `\s` matches in a `re` pattern over `str`. */
  predicate IsSpace(c: char) {
    || '\U{9}' <= c <= '\U{D}'
    || '\U{1C}' <= c <= '\U{20}'
    || c == '\U{85}' || c == '\U{A0}' || c == '\U{1680}'
    || '\U{2000}' <= c <= '\U{200A}'
    || c == '\U{2028}' || c == '\U{2029}' || c == '\U{202F}' || c == '\U{205F}' || c == '\U{3000}'
  }

  /** No whitespace at either end: what `str.strip()` leaves. */
  predicate IsStripped(s: string) {
    s == [] || (!IsSpace(s[0]) && !IsSpace(s[|s| - 1]))
  }

  /** True when every character of `s` is whitespace (vacuously for ""). */
  predicate AllSpace(s: string) {
    forall i :: 0 <= i < |s| ==> IsSpace(s[i])
  }

  /** The number of whitespace characters `s` starts with. */
  function Lead(s: string): (k: nat)
    ensures k <= |s|
    ensures forall i :: 0 <= i < k ==> IsSpace(s[i])
    ensures k < |s| ==> !IsSpace(s[k])
  {
    if s != [] && IsSpace(s[0]) then 1 + Lead(s[1..]) else 0
  }

  /** The number of whitespace characters `s` ends with. */
  function Trail(s: string): (k: nat)
    ensures k <= |s|
    ensures forall i :: |s| - k <= i < |s| ==> IsSpace(s[i])
    ensures k < |s| ==> !IsSpace(s[|s| - 1 - k])
  {
    if s != [] && IsSpace(s[|s| - 1]) then 1 + Trail(s[..|s| - 1]) else 0
  }

  /** `str.lstrip()`. */
  function TrimStart(s: string): string {
    s[Lead(s)..]
  }

  /** `str.rstrip()`. */
  function TrimEnd(s: string): string {
    s[..|s| - Trail(s)]
  }

  /** `str.strip()`: `s` without the whitespace at its two ends. */
  function Strip(s: string): (r: string)
    ensures IsStripped(r)
    ensures |r| <= |s|
  {
    var t := TrimStart(s);
    assert t != [] ==> t[0] == s[Lead(s)];
    var r := TrimEnd(t);
    assert r != [] ==> r[0] == t[0] && r[|r| - 1] == t[|t| - 1 - Trail(t)];
    r
  }

  /** How many leading characters `strip` drops. */
  function StripOffset(s: string): (k: nat)
    ensures k + |Strip(s)| <= |s|
  {
    Lead(s)
  }

  /** What `strip` keeps is one contiguous slice of the text. */
  lemma StripIsSlice(s: string)
    ensures Strip(s) == s[StripOffset(s)..StripOffset(s) + |Strip(s)|]
  {
    var a := Lead(s);
    var t := s[a..];
    var n := |t| - Trail(t);
    assert Strip(s) == t[..n];
  }

  /** What `strip` drops at either end is whitespace. */
  lemma StripDropsSpace(s: string)
    ensures forall i :: 0 <= i < StripOffset(s) ==> IsSpace(s[i])
    ensures forall i :: StripOffset(s) + |Strip(s)| <= i < |s| ==> IsSpace(s[i])
  {
    var a := Lead(s);
    var t := s[a..];
    assert |Strip(s)| == |t| - Trail(t);
    forall i | a + |Strip(s)| <= i < |s| ensures IsSpace(s[i]) {
      assert s[i] == t[i - a];
    }
  }

  /** Stripping yields "" exactly when the text is whitespace only. */
  lemma StripEmptyIff(s: string)
    ensures Strip(s) == [] <==> AllSpace(s)
  {
    StripIsSlice(s);
    StripDropsSpace(s);
    if Strip(s) != [] {
      assert Strip(s)[0] == s[StripOffset(s)];
    }
  }

  /** A text with no whitespace at its ends is left alone by `strip`. */
  lemma StripStripped(s: string)
    requires IsStripped(s)
    ensures Strip(s) == s
  {
    assert Lead(s) == 0;
    assert TrimStart(s) == s;
    assert Trail(s) == 0;
  }

  /** The length of the run of non-whitespace characters `s` starts with. */
  function WordLen(s: string): (k: nat)
    ensures k <= |s|
    ensures forall i :: 0 <= i < k ==> !IsSpace(s[i])
    ensures k < |s| ==> IsSpace(s[k])
  {
    if s != [] && !IsSpace(s[0]) then 1 + WordLen(s[1..]) else 0
  }

  /** A word of `str.split()`: a non-empty run of non-whitespace characters. */
  predicate IsWord(w: string) {
    w != [] && forall i :: 0 <= i < |w| ==> !IsSpace(w[i])
  }

  /** `str.split()` with no separator: the maximal runs of non-whitespace characters, in order. */
  function Words(s: string): (r: seq<string>)
    ensures forall i :: 0 <= i < |r| ==> IsWord(r[i])
    decreases |s|
  {
    var t := TrimStart(s);
    if t == [] then []
    else
      var k := WordLen(t);
      [t[..k]] + Words(t[k..])
  }

  /** `" ".join(words)` of non-empty words has no whitespace at its ends, and is "" only for no words. */
  lemma {:induction false} JoinWordsStripped(ws: seq<string>)
    requires forall i :: 0 <= i < |ws| ==> IsWord(ws[i])
    ensures IsStripped(Join(" ", ws))
    ensures Join(" ", ws) == [] <==> ws == []
    decreases |ws|
  {
    if |ws| > 1 {
      JoinWordsStripped(ws[1..]);
      var j := Join(" ", ws[1..]);
      assert Join(" ", ws) == ws[0] + " " + j;
      assert (ws[0] + " " + j)[0] == ws[0][0];
      assert (ws[0] + " " + j)[|ws[0]| + 1 + |j| - 1] == j[|j| - 1];
    }
  }

  /** `str.lower()` on one character, for the ASCII letters. */
  function LowerChar(c: char): (r: char)
    ensures 'A' <= c <= 'Z' ==> r as int == c as int + 32
    ensures !('A' <= c <= 'Z') ==> r == c
  {
    if 'A' <= c <= 'Z' then (c as int + 32) as char else c
  }

  /** `str.lower()`, for the ASCII letters; every other character is kept. */
  function Lower(s: string): (r: string)
    ensures |r| == |s|
    ensures forall i :: 0 <= i < |s| ==> r[i] == LowerChar(s[i])
  {
    seq(|s|, i requires 0 <= i < |s| => LowerChar(s[i]))
  }

  /** `sub` occurs in `s` starting at index `i`. */
  predicate OccursAt(s: string, sub: string, i: int) {
    0 <= i && i + |sub| <= |s| && s[i..i + |sub|] == sub
  }

  /** Python's `sub in s` for strings. */
  function Contains(s: string, sub: string): (b: bool)
    ensures b <==> exists i :: OccursAt(s, sub, i)
    decreases |s|
  {
    if |sub| > |s| then false
    else if s[..|sub|] == sub then assert OccursAt(s, sub, 0); true
    else
      var b := Contains(s[1..], sub);
      assert forall i :: OccursAt(s[1..], sub, i) <==> OccursAt(s, sub, i + 1);
      assert !OccursAt(s, sub, 0);
      assert (exists i :: OccursAt(s, sub, i)) ==> exists i :: OccursAt(s[1..], sub, i) by {
        if exists i :: OccursAt(s, sub, i) {
          var j :| OccursAt(s, sub, j);
          assert OccursAt(s[1..], sub, j - 1);
        }
      }
      b
  }

  /** `sep.join(parts)`. */
  function Join(sep: string, parts: seq<string>): (r: string)
    ensures parts == [] ==> r == []
    ensures |parts| == 1 ==> r == parts[0]
  {
    if |parts| == 0 then []
    else if |parts| == 1 then parts[0]
    else parts[0] + sep + Join(sep, parts[1..])
  }

  /** `s.replace(pat, rep)`: non-overlapping occurrences, scanned from the left. */
  function ReplaceAll(s: string, pat: string, rep: string): (r: string)
    requires pat != []
    ensures !Contains(s, pat) ==> r == s
    decreases |s|
  {
    if |s| >= |pat| && s[..|pat|] == pat then rep + ReplaceAll(s[|pat|..], pat, rep)
    else if s == [] then []
    else [s[0]] + ReplaceAll(s[1..], pat, rep)
  }

  /** `s[:n]` for `n >= 0`. */
  function Take<T>(s: seq<T>, n: nat): (r: seq<T>)
    ensures |r| == if |s| <= n then |s| else n
    ensures r == s[..|r|]
  {
    if |s| <= n then s else s[..n]
  }

  /** `s.startswith(p)`. */
  predicate StartsWith(s: string, p: string) {
    |p| <= |s| && s[..|p|] == p
  }

  /** `s.endswith(q)`. */
  predicate EndsWith(s: string, q: string) {
    |q| <= |s| && s[|s| - |q|..] == q
  }

  lemma ConcatEnds(a: string, b: string)
    ensures StartsWith(a + b, a)
    ensures EndsWith(a + b, b)
  {
    assert (a + b)[..|a|] == a;
    assert (a + b)[|a|..] == b;
  }

  /** `sep.join(parts)` is no longer than `|parts|` pieces of `bound` characters, each with a separator. */
  lemma {:induction false} JoinBound(sep: string, parts: seq<string>, bound: nat)
    requires forall i :: 0 <= i < |parts| ==> |parts[i]| <= bound
    ensures |Join(sep, parts)| <= |parts| * (bound + |sep|)
    decreases |parts|
  {
    if |parts| > 1 {
      JoinBound(sep, parts[1..], bound);
      assert |Join(sep, parts)| == |parts[0]| + |sep| + |Join(sep, parts[1..])|;
      assert |parts| * (bound + |sep|) == (bound + |sep|) + (|parts| - 1) * (bound + |sep|);
    }
  }

  /** Whitespace around a stripped text is exactly what `strip` removes. */
  lemma StripPadded(p: string, b: string, q: string)
    requires AllSpace(p) && AllSpace(q) && IsStripped(b)
    ensures Strip(p + b + q) == b
  {
    var s := p + b + q;
    if b == [] {
      assert AllSpace(s) by {
        forall i | 0 <= i < |s| ensures IsSpace(s[i]) {
          if i >= |p| {
            assert s[i] == q[i - |p|];
          }
        }
      }
      StripEmptyIff(s);
    } else {
      assert s[|p|] == b[0];
      assert Lead(s) == |p|;
      var t := s[|p|..];
      assert t == b + q;
      assert t[|t| - 1 - |q|] == b[|b| - 1];
      assert Trail(t) == |q|;
      assert t[..|b|] == b;
    }
  }

  /** `sep.join(parts)` starts with the first part. */
  lemma JoinStartsWith(sep: string, parts: seq<string>)
    requires parts != []
    ensures StartsWith(Join(sep, parts), parts[0])
  {
    if |parts| > 1 {
      ConcatEnds(parts[0], sep + Join(sep, parts[1..]));
      assert Join(sep, parts) == parts[0] + (sep + Join(sep, parts[1..]));
    }
  }

  lemma LastOfConcat(a: string, b: string)
    requires b != []
    ensures a + b != [] && (a + b)[|a + b| - 1] == b[|b| - 1]
  {
  }

  lemma FirstOfConcat(a: string, b: string)
    requires a != []
    ensures (a + b)[0] == a[0]
  {
  }

  /** In `"\n" + f + l + q + t + "\n"` both `f` and `q` occur. */
  lemma FramedParts(f: string, l: string, q: string, t: string)
    ensures Contains("\n" + (f + l + q + t) + "\n", f)
    ensures Contains("\n" + (f + l + q + t) + "\n", q)
  {
    var x := "\n" + (f + l + q + t) + "\n";
    assert x[1..1 + |f|] == f;
    assert OccursAt(x, f, 1);
    assert x[1 + |f| + |l|..1 + |f| + |l| + |q|] == q;
    assert OccursAt(x, q, 1 + |f| + |l|);
  }
}
