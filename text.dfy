/** The string operations of the Python standard library that the modelled code
    relies on: `str.lower`, `str.split()`, `str.split(sep)`, `str.strip()`,
    `str.startswith`, `str.find`, `str.join` and `str.replace(old, "")`. */
module Text {
  import opened Wrappers

  /** `str.isspace()` for one character: the whitespace that `str.split()` and
      `str.strip()` (both without arguments) act on. */
  predicate IsSpace(c: char)
  {
    var n := c as int;
    n == 0x20 || 0x09 <= n <= 0x0D || 0x1C <= n <= 0x1F || n == 0x85 || n == 0xA0
    || n == 0x1680 || 0x2000 <= n <= 0x200A || n == 0x2028 || n == 0x2029
    || n == 0x202F || n == 0x205F || n == 0x3000
  }

  predicate NoSpace(w: string)
  {
    forall i :: 0 <= i < |w| ==> !IsSpace(w[i])
  }

  /** Lower-casing of one character (ASCII letters only). */
  function LowerChar(c: char): char
  {
    if 'A' <= c <= 'Z' then (c as int + 32) as char else c
  }

  /** `str.lower()`, restricted to ASCII case mapping. */
  function Lower(s: string): (r: string)
    ensures |r| == |s|
    ensures forall i :: 0 <= i < |s| ==> r[i] == LowerChar(s[i])
  {
    seq(|s|, i requires 0 <= i < |s| => LowerChar(s[i]))
  }

  lemma LowerIdempotent(s: string)
    ensures Lower(Lower(s)) == Lower(s)
  {
  }

  predicate StartsWith(s: string, prefix: string)
  {
    |prefix| <= |s| && s[..|prefix|] == prefix
  }

  // ---------------------------------------------------------------------------
  // str.split() without a separator

  /** Length of the run of non-whitespace at the start of `s`. */
  function WordLength(s: string): (n: nat)
    ensures n <= |s|
    ensures forall i :: 0 <= i < n ==> !IsSpace(s[i])
    ensures n < |s| ==> IsSpace(s[n])
  {
    if s == [] || IsSpace(s[0]) then 0 else 1 + WordLength(s[1..])
  }

  /** `str.split()`: the maximal runs of non-whitespace, in order. */
  function Split(s: string): (words: seq<string>)
    ensures forall i :: 0 <= i < |words| ==> words[i] != [] && NoSpace(words[i])
    decreases |s|
  {
    if s == [] then []
    else if IsSpace(s[0]) then Split(s[1..])
    else
      var n := WordLength(s);
      [s[..n]] + Split(s[n..])
  }

  lemma {:induction false} WordLengthOfWord(w: string, t: string)
    requires NoSpace(w)
    requires t == [] || IsSpace(t[0])
    ensures WordLength(w + t) == |w|
    decreases |w|
  {
    if w != [] {
      assert (w + t)[1..] == w[1..] + t;
      WordLengthOfWord(w[1..], t);
    }
  }

  /** A single word splits to itself. */
  lemma SplitWord(w: string)
    requires w != [] && NoSpace(w)
    ensures Split(w) == [w]
  {
    WordLengthOfWord(w, []);
    assert w + [] == w;
  }

  /** Whitespace separates: splitting `a + " " + b` splits both halves. */
  lemma {:induction false} SplitAtSpace(a: string, c: char, b: string)
    requires IsSpace(c)
    ensures Split(a + [c] + b) == Split(a) + Split(b)
    decreases |a|
  {
    var s := a + [c] + b;
    if a == [] {
      assert s[1..] == b;
    } else if IsSpace(a[0]) {
      assert s[1..] == a[1..] + [c] + b;
      SplitAtSpace(a[1..], c, b);
    } else {
      var n := WordLength(a);
      var tail := a[n..] + [c] + b;
      assert a == a[..n] + a[n..];
      assert s == a[..n] + tail;
      WordLengthOfWord(a[..n], tail);
      assert s[..n] == a[..n];
      assert s[n..] == tail;
      SplitAtSpace(a[n..], c, b);
    }
  }

  // ---------------------------------------------------------------------------
  // str.strip() without arguments

  function TrimStart(s: string): (r: string)
    ensures |r| <= |s| && r == s[|s| - |r|..]
    ensures r != [] ==> !IsSpace(r[0])
    ensures forall i :: 0 <= i < |s| - |r| ==> IsSpace(s[i])
  {
    if s != [] && IsSpace(s[0]) then TrimStart(s[1..]) else s
  }

  function TrimEnd(s: string): (r: string)
    ensures |r| <= |s| && r == s[..|r|]
    ensures r != [] ==> !IsSpace(r[|r| - 1])
    ensures forall i :: |r| <= i < |s| ==> IsSpace(s[i])
  {
    if s != [] && IsSpace(s[|s| - 1]) then TrimEnd(s[..|s| - 1]) else s
  }

  /** `str.strip()`: drops leading and trailing whitespace. */
  function Strip(s: string): (r: string)
    ensures |r| <= |s|
    ensures r != [] ==> !IsSpace(r[0]) && !IsSpace(r[|r| - 1])
  {
    TrimEnd(TrimStart(s))
  }

  lemma StripNoEdges(s: string)
    requires s == [] || (!IsSpace(s[0]) && !IsSpace(s[|s| - 1]))
    ensures Strip(s) == s
  {
  }

  /** One whitespace character on each side of a text without edge
      whitespace is stripped away. */
  lemma StripWrapped(c: char, x: string)
    requires IsSpace(c)
    requires x == [] || (!IsSpace(x[0]) && !IsSpace(x[|x| - 1]))
    ensures Strip([c] + x + [c]) == x
  {
    assert ([c] + x + [c])[1..] == x + [c];
    assert (x + [c])[..|x|] == x;
    if x == [] {
      assert TrimStart([c] + [c]) == [];
    } else {
      assert TrimStart([c] + x + [c]) == x + [c];
    }
  }

  /** Whitespace in front of a text without edge whitespace is stripped. */
  lemma StripLeading(c: char, x: string)
    requires IsSpace(c)
    requires x == [] || (!IsSpace(x[0]) && !IsSpace(x[|x| - 1]))
    ensures Strip([c] + x) == x
  {
    assert ([c] + x)[1..] == x;
  }

  lemma StripIdempotent(s: string)
    ensures Strip(Strip(s)) == Strip(s)
  {
    StripNoEdges(Strip(s));
  }

  // ---------------------------------------------------------------------------
  // Searching for a substring

  predicate OccursAt(s: string, pat: string, j: int)
  {
    0 <= j && j + |pat| <= |s| && s[j..j + |pat|] == pat
  }

  /** `s.find(pat, k)`: the first index at or after `k` where `pat` occurs. */
  function IndexFrom(s: string, pat: string, k: nat): (r: Option<nat>)
    ensures r.Some? ==> k <= r.value && OccursAt(s, pat, r.value)
    ensures r.Some? ==> forall j :: k <= j < r.value ==> !OccursAt(s, pat, j)
    ensures r.None? ==> forall j :: k <= j ==> !OccursAt(s, pat, j)
    decreases |s| - k
  {
    if k + |pat| > |s| then None
    else if s[k..k + |pat|] == pat then Some(k)
    else IndexFrom(s, pat, k + 1)
  }

  function IndexOf(s: string, pat: string): (r: Option<nat>)
    ensures r.Some? ==> OccursAt(s, pat, r.value)
    ensures r.Some? ==> forall j :: 0 <= j < r.value ==> !OccursAt(s, pat, j)
    ensures r.None? ==> forall j :: 0 <= j ==> !OccursAt(s, pat, j)
  {
    IndexFrom(s, pat, 0)
  }

  // ---------------------------------------------------------------------------
  // str.split(sep) and str.join

  /** `s.split(sep)` for a non-empty separator: the pieces between the
      occurrences of `sep` found from left to right, without overlap. */
  function SplitBy(s: string, sep: string): (parts: seq<string>)
    requires sep != []
    ensures |parts| >= 1
    decreases |s|
  {
    match IndexOf(s, sep)
    case None => [s]
    case Some(i) => [s[..i]] + SplitBy(s[i + |sep|..], sep)
  }

  /** `sep.join(xs)`. */
  function Join(xs: seq<string>, sep: string): string
  {
    if |xs| == 0 then ""
    else if |xs| == 1 then xs[0]
    else xs[0] + sep + Join(xs[1..], sep)
  }

  /** Joining the pieces of a split gives the string back. */
  lemma {:induction false} JoinSplitBy(s: string, sep: string)
    requires sep != []
    ensures Join(SplitBy(s, sep), sep) == s
    decreases |s|
  {
    var idx := IndexOf(s, sep);
    if idx.Some? {
      var i := idx.value;
      var rest := s[i + |sep|..];
      var tailParts := SplitBy(rest, sep);
      assert Join(tailParts, sep) == rest by {
        JoinSplitBy(rest, sep);
      }
      assert OccursAt(s, sep, i);
      assert SplitBy(s, sep) == [s[..i]] + tailParts;
      JoinPieces(s, sep, i, tailParts);
    } else {
      assert SplitBy(s, sep) == [s];
    }
  }

  /** The piece before an occurrence of the separator, the separator, and
      the rest make up the string. */
  lemma JoinPieces(s: string, sep: string, i: nat, tail: seq<string>)
    requires OccursAt(s, sep, i) && tail != []
    requires Join(tail, sep) == s[i + |sep|..]
    ensures Join([s[..i]] + tail, sep) == s
  {
    JoinCons(s[..i], tail, sep);
    Reassemble(s, i, i + |sep|);
  }

  lemma Reassemble(s: string, i: nat, j: nat)
    requires i <= j <= |s|
    ensures s == s[..i] + s[i..j] + s[j..]
  {
    assert s[..j] == s[..i] + s[i..j];
    assert s == s[..j] + s[j..];
  }

  lemma JoinCons(x: string, xs: seq<string>, sep: string)
    requires xs != []
    ensures Join([x] + xs, sep) == x + sep + Join(xs, sep)
  {
    assert ([x] + xs)[1..] == xs;
  }

  /** Splitting on a one-character separator undoes joining with it, provided
      no piece contains the separator. */
  lemma {:induction false} SplitByJoin(xs: seq<string>, c: char)
    requires |xs| >= 1
    requires forall k :: 0 <= k < |xs| ==> c !in xs[k]
    ensures SplitBy(Join(xs, [c]), [c]) == xs
    decreases |xs|
  {
    var s := Join(xs, [c]);
    if |xs| == 1 {
      assert s == xs[0];
      forall j | 0 <= j
        ensures !OccursAt(s, [c], j)
      {
        if j + 1 <= |s| {
          assert s[j..j + 1] == [s[j]];
          assert s[j] in xs[0];
        }
      }
    } else {
      var x := xs[0];
      var rest := Join(xs[1..], [c]);
      assert s == x + [c] + rest;
      assert OccursAt(s, [c], |x|) by {
        assert s[|x|..|x| + 1] == [c];
      }
      forall j | 0 <= j < |x|
        ensures !OccursAt(s, [c], j)
      {
        assert s[j..j + 1] == [x[j]];
        assert x[j] in x;
      }
      assert IndexOf(s, [c]) == Some(|x|);
      assert s[..|x|] == x;
      assert s[|x| + 1..] == rest;
      SplitByJoin(xs[1..], c);
    }
  }

  // ---------------------------------------------------------------------------
  // str.replace(pat, "")

  /** `s.replace(pat, "")`: every occurrence of `pat` found scanning from the
      left, without overlap, is removed in a single pass. */
  function RemoveAll(s: string, pat: string): (r: string)
    requires pat != []
    ensures |r| <= |s|
    decreases |s|
  {
    if |s| < |pat| then s
    else if s[..|pat|] == pat then RemoveAll(s[|pat|..], pat)
    else [s[0]] + RemoveAll(s[1..], pat)
  }

  /** A string in which `pat` never occurs is left unchanged. */
  lemma {:induction false} RemoveAllAbsent(s: string, pat: string)
    requires pat != []
    requires forall j :: !OccursAt(s, pat, j)
    ensures RemoveAll(s, pat) == s
    decreases |s|
  {
    if |s| >= |pat| {
      assert !OccursAt(s, pat, 0);
      assert s[..|pat|] == s[0..|pat|];
      forall j | true
        ensures !OccursAt(s[1..], pat, j)
      {
        if OccursAt(s[1..], pat, j) {
          assert s[1..][j..j + |pat|] == s[j + 1..j + 1 + |pat|];
          assert OccursAt(s, pat, j + 1);
        }
      }
      RemoveAllAbsent(s[1..], pat);
      assert s == [s[0]] + s[1..];
    }
  }

  /** When the only occurrence of `pat` in `s + pat` is the final one,
      removing it gives `s` back. */
  lemma {:induction false} RemoveAllSuffix(s: string, pat: string)
    requires pat != []
    requires forall j :: 0 <= j < |s| ==> !OccursAt(s + pat, pat, j)
    ensures RemoveAll(s + pat, pat) == s
    decreases |s|
  {
    var t := s + pat;
    if s == [] {
      assert t == pat;
      assert t[..|pat|] == pat;
      assert t[|pat|..] == [];
    } else {
      assert !OccursAt(t, pat, 0);
      assert t[..|pat|] == t[0..|pat|];
      assert t[1..] == s[1..] + pat;
      forall j | 0 <= j < |s[1..]|
        ensures !OccursAt(s[1..] + pat, pat, j)
      {
        if OccursAt(s[1..] + pat, pat, j) {
          assert t[1..][j..j + |pat|] == t[j + 1..j + 1 + |pat|];
          assert OccursAt(t, pat, j + 1);
        }
      }
      RemoveAllSuffix(s[1..], pat);
      assert s == [s[0]] + s[1..];
    }
  }

  /** Where `pat` does not start the text, its first character is kept. */
  lemma RemoveAllKeepsHead(s: string, pat: string)
    requires pat != [] && |pat| <= |s| && !OccursAt(s, pat, 0)
    ensures RemoveAll(s, pat) == [s[0]] + RemoveAll(s[1..], pat)
  {
    assert s[..|pat|] == s[0..|pat|];
  }

  /** An occurrence in the tail is an occurrence one place further on. */
  lemma OccursInTail(s: string, pat: string, j: nat)
    requires s != []
    ensures OccursAt(s[1..], pat, j) <==> OccursAt(s, pat, j + 1)
  {
    if j + |pat| <= |s| - 1 {
      assert s[1..][j..j + |pat|] == s[j + 1..j + 1 + |pat|];
    }
  }

  /** Removing from `x + pat + y` where `pat` first occurs after `x`: `x` is
      kept, that occurrence goes, and the removal goes on in `y`. */
  lemma {:induction false} RemoveAllFirst(x: string, pat: string, y: string)
    requires pat != []
    requires forall j :: 0 <= j < |x| ==> !OccursAt(x + pat + y, pat, j)
    ensures RemoveAll(x + pat + y, pat) == x + RemoveAll(y, pat)
    decreases |x|
  {
    var s := x + pat + y;
    if x == [] {
      assert s == pat + y;
      assert s[..|pat|] == pat;
      assert s[|pat|..] == y;
    } else {
      assert !OccursAt(s, pat, 0);
      RemoveAllKeepsHead(s, pat);
      assert s[1..] == x[1..] + pat + y;
      forall j | 0 <= j < |x| - 1
        ensures !OccursAt(x[1..] + pat + y, pat, j)
      {
        OccursInTail(s, pat, j);
      }
      RemoveAllFirst(x[1..], pat, y);
      assert [s[0]] + x[1..] == x;
      ConcatAssoc([s[0]], x[1..], RemoveAll(y, pat));
    }
  }

  lemma ConcatAssoc(a: string, b: string, c: string)
    ensures a + (b + c) == (a + b) + c
  {
  }

  /** Joining without a separator: the first piece, then the rest. */
  lemma JoinEmptyCons(x: string, xs: seq<string>)
    requires xs != []
    ensures Join([x] + xs, "") == x + Join(xs, "")
  {
    assert ([x] + xs)[1..] == xs;
  }

  /** `s.replace(pat, "")` is `"".join(s.split(pat))`: every occurrence the
      split finds, scanning from the left without overlap, is removed, and
      the text between them is kept in order. */
  lemma {:induction false} RemoveAllSplit(s: string, pat: string)
    requires pat != []
    ensures RemoveAll(s, pat) == Join(SplitBy(s, pat), "")
    decreases |s|
  {
    match IndexOf(s, pat)
    case None =>
      RemoveAllAbsent(s, pat);
    case Some(i) =>
      var rest := s[i + |pat|..];
      assert s == s[..i] + pat + rest;
      RemoveAllFirst(s[..i], pat, rest);
      RemoveAllSplit(rest, pat);
      JoinEmptyCons(s[..i], SplitBy(rest, pat));
  }
}
