/** The pieces of Go's `strings` package that the extractors and the
    scraper rely on: TrimSpace, Index, Replace (once and all), Split and the
    whitespace-separated class tokens a CSS class selector matches. */
module GoStrings {

  /** unicode.IsSpace: the Latin-1 spaces plus the Unicode White_Space
      characters above U+00FF. */
  predicate IsSpace(c: char) {
    || c == ' ' || c == '\t' || c == '\n' || c == '\U{000B}' || c == '\U{000C}' || c == '\r'
    || c == '\U{0085}' || c == '\U{00A0}' || c == '\U{1680}'
    || ('\U{2000}' <= c <= '\U{200A}')
    || c == '\U{2028}' || c == '\U{2029}' || c == '\U{202F}' || c == '\U{205F}' || c == '\U{3000}'
  }

  /** The suffix left after dropping leading spaces. */
  function TrimLeft(s: string): (r: string)
    ensures |r| <= |s| && r == s[|s| - |r|..]
    ensures forall i :: 0 <= i < |s| - |r| ==> IsSpace(s[i])
    ensures r != [] ==> !IsSpace(r[0])
    decreases |s|
  {
    if s != [] && IsSpace(s[0]) then TrimLeft(s[1..]) else s
  }

  /** The prefix left after dropping trailing spaces. */
  function TrimRight(s: string): (r: string)
    ensures |r| <= |s| && r == s[..|r|]
    ensures forall i :: |r| <= i < |s| ==> IsSpace(s[i])
    ensures r != [] ==> !IsSpace(r[|r| - 1])
    decreases |s|
  {
    if s != [] && IsSpace(s[|s| - 1]) then TrimRight(s[..|s| - 1]) else s
  }

  /** Number of leading spaces of `s` (where TrimSpace's result starts). */
  function LeadingSpaces(s: string): (n: nat)
    ensures n <= |s|
  {
    |s| - |TrimLeft(s)|
  }

  /** strings.TrimSpace: the slice of `s` that neither starts nor ends with a
      space; everything cut away on either side is space. */
  function TrimSpace(s: string): (r: string)
    ensures LeadingSpaces(s) + |r| <= |s|
    ensures r == s[LeadingSpaces(s)..LeadingSpaces(s) + |r|]
    ensures forall i :: 0 <= i < LeadingSpaces(s) ==> IsSpace(s[i])
    ensures forall i :: LeadingSpaces(s) + |r| <= i < |s| ==> IsSpace(s[i])
    ensures r != [] ==> !IsSpace(r[0]) && !IsSpace(r[|r| - 1])
  {
    var l := TrimLeft(s);
    var r := TrimRight(l);
    assert r == s[|s| - |l|..][..|r|];
    r
  }

  /** Trimming twice is trimming once. */
  lemma TrimSpaceIdempotent(s: string)
    ensures TrimSpace(TrimSpace(s)) == TrimSpace(s)
  {
    var t := TrimSpace(s);
    NoEdgeSpaceIsTrimmed(t);
  }

  /** A string that neither starts nor ends with a space is its own trim. */
  lemma NoEdgeSpaceIsTrimmed(s: string)
    requires s != [] ==> !IsSpace(s[0]) && !IsSpace(s[|s| - 1])
    ensures TrimSpace(s) == s
  {
    assert TrimLeft(s) == s;
    assert TrimRight(s) == s;
  }

  /** `pat` occurs in `s` starting at position `i`. */
  predicate OccursAt(s: string, pat: string, i: nat) {
    i + |pat| <= |s| && s[i..i + |pat|] == pat
  }

  /** The first occurrence of `pat` in `s` at or after `from`, or -1. */
  function IndexFrom(s: string, pat: string, from: nat): (r: int)
    requires from <= |s|
    ensures r == -1 || (from <= r && OccursAt(s, pat, r))
    ensures r == -1 ==> forall j :: from <= j <= |s| ==> !OccursAt(s, pat, j)
    ensures r != -1 ==> forall j :: from <= j < r ==> !OccursAt(s, pat, j)
    decreases |s| - from
  {
    if from + |pat| > |s| then -1
    else if s[from..from + |pat|] == pat then from
    else if from == |s| then -1
    else IndexFrom(s, pat, from + 1)
  }

  /** strings.Index: the first position where `pat` occurs, or -1. */
  function Index(s: string, pat: string): (r: int)
    ensures r == -1 || (0 <= r && OccursAt(s, pat, r))
    ensures r == -1 ==> forall j :: 0 <= j <= |s| ==> !OccursAt(s, pat, j)
    ensures r != -1 ==> forall j :: 0 <= j < r ==> !OccursAt(s, pat, j)
  {
    IndexFrom(s, pat, 0)
  }

  /** strings.Replace(s, pattern, replacement, 1): the first occurrence of `pattern` is
      replaced; a string without one is returned unchanged. */
  function ReplaceOnce(s: string, pattern: string, replacement: string): (r: string)
    requires pattern != []
    ensures Index(s, pattern) == -1 ==> r == s
    ensures Index(s, pattern) != -1 ==> |r| == |s| - |pattern| + |replacement|
    ensures Index(s, pattern) != -1 ==> r[..Index(s, pattern)] == s[..Index(s, pattern)]
    ensures Index(s, pattern) != -1 ==>
      r[Index(s, pattern)..Index(s, pattern) + |replacement|] == replacement
      && r[Index(s, pattern) + |replacement|..] == s[Index(s, pattern) + |pattern|..]
  {
    var i := Index(s, pattern);
    if i == -1 then s else s[..i] + replacement + s[i + |pattern|..]
  }

  /** strings.Replace(s, pattern, replacement, -1): every non-overlapping occurrence,
      scanning left to right. */
  function ReplaceAll(s: string, pattern: string, replacement: string): (r: string)
    requires pattern != []
    decreases |s|
  {
    var i := Index(s, pattern);
    if i == -1 then s else s[..i] + replacement + ReplaceAll(s[i + |pattern|..], pattern, replacement)
  }

  /** Deleting every occurrence of a one-character pattern leaves no such
      character and keeps every other character, in order. */
  lemma {:induction false} ReplaceAllDeletesChar(s: string, c: char)
    ensures ReplaceAll(s, [c], "") == Without(s, c)
    decreases |s|
  {
    var i := Index(s, [c]);
    if i == -1 {
      forall j | 0 <= j < |s| ensures s[j] != c {
        assert !OccursAt(s, [c], j);
      }
      NoCharWithout(s, c);
    } else {
      assert s[i] == c;
      forall j | 0 <= j < i ensures s[j] != c {
        assert !OccursAt(s, [c], j);
      }
      NoCharWithout(s[..i], c);
      ReplaceAllDeletesChar(s[i + 1..], c);
      assert s == s[..i] + [c] + s[i + 1..];
      WithoutAppend(s[..i] + [c], s[i + 1..], c);
      WithoutAppend(s[..i], [c], c);
    }
  }

  /** `s` with every `c` removed. */
  function Without(s: string, c: char): (r: string)
    ensures c !in r
    ensures |r| <= |s|
  {
    if s == [] then [] else if s[0] == c then Without(s[1..], c) else [s[0]] + Without(s[1..], c)
  }

  lemma {:induction false} NoCharWithout(s: string, c: char)
    requires c !in s
    ensures Without(s, c) == s
  {
    if s != [] {
      NoCharWithout(s[1..], c);
    }
  }

  lemma {:induction false} WithoutAppend(a: string, b: string, c: char)
    ensures Without(a + b, c) == Without(a, c) + Without(b, c)
  {
    if a == [] {
      assert a + b == b;
    } else {
      assert (a + b)[1..] == a[1..] + b;
      WithoutAppend(a[1..], b, c);
    }
  }

  /** Dropping a separator character between two runs free of it joins them. */
  lemma SeparatorDropped(a: string, b: string, c: char)
    requires c !in a && c !in b
    ensures Without(a + [c] + b, c) == a + b
  {
    var ac := a + [c];
    assert Without([c], c) == [] by {
      assert [c][1..] == [];
    }
    WithoutAppend(a, [c], c);
    NoCharWithout(a, c);
    assert Without(ac, c) == a;
    WithoutAppend(ac, b, c);
    NoCharWithout(b, c);
  }

  /** strings.Split(s, sep) for a non-empty separator: the pieces between
      the non-overlapping occurrences of `sep` (see SplitJoins). */
  function Split(s: string, sep: string): (parts: seq<string>)
    requires sep != []
    ensures |parts| >= 1
    decreases |s|
  {
    var i := Index(s, sep);
    if i == -1 then [s] else [s[..i]] + Split(s[i + |sep|..], sep)
  }

  /** The pieces joined with `sep` give `s` back, and none of them contains
      `sep`. */
  lemma {:induction false} SplitJoins(s: string, sep: string)
    requires sep != []
    ensures Join(Split(s, sep), sep) == s
    ensures forall k :: 0 <= k < |Split(s, sep)| ==> Index(Split(s, sep)[k], sep) == -1
    decreases |s|
  {
    var i := Index(s, sep);
    if i != -1 {
      var rest := Split(s[i + |sep|..], sep);
      SplitJoins(s[i + |sep|..], sep);
      var parts := Split(s, sep);
      assert parts[1..] == rest;
      FirstPieceHasNoSeparator(s, sep, i);
      assert s == s[..i] + sep + s[i + |sep|..];
    }
  }

  /** No piece of a split on a one-character separator contains it. */
  lemma SplitPieceFree(s: string, sep: char, k: nat)
    requires k < |Split(s, [sep])|
    ensures sep !in Split(s, [sep])[k]
  {
    SplitJoins(s, [sep]);
    var piece := Split(s, [sep])[k];
    forall j | 0 <= j < |piece| ensures piece[j] != sep {
      assert !OccursAt(piece, [sep], j);
    }
  }

  lemma FirstPieceHasNoSeparator(s: string, sep: string, i: nat)
    requires sep != [] && i == Index(s, sep)
    ensures Index(s[..i], sep) == -1
  {
    forall j | 0 <= j <= i ensures !OccursAt(s[..i], sep, j) {
      if OccursAt(s[..i], sep, j) {
        assert s[..i][j..j + |sep|] == s[j..j + |sep|];
        assert OccursAt(s, sep, j);
      }
    }
  }

  /** A string without the one-character separator is a single piece. */
  lemma SplitWithoutSeparator(s: string, sep: char)
    requires sep !in s
    ensures Split(s, [sep]) == [s]
  {
    forall j | 0 <= j < |s| ensures !OccursAt(s, [sep], j) {
      assert s[j..j + 1] == [s[j]];
    }
  }

  /** The first piece ends at the first separator. */
  lemma SplitAtFirstSeparator(a: string, sep: char, rest: string)
    requires sep !in a
    ensures Split(a + [sep] + rest, [sep]) == [a] + Split(rest, [sep])
  {
    var s := a + [sep] + rest;
    assert OccursAt(s, [sep], |a|);
    forall j | 0 <= j < |a| ensures !OccursAt(s, [sep], j) {
      assert s[j..j + 1] == [a[j]];
    }
    assert s[..|a|] == a && s[|a| + 1..] == rest;
  }

  /** strings.Join. */
  function Join(parts: seq<string>, sep: string): string
    requires |parts| >= 1
  {
    if |parts| == 1 then parts[0] else parts[0] + sep + Join(parts[1..], sep)
  }

  /** The separators of HTML's class attribute (ASCII whitespace). */
  predicate IsHtmlSpace(c: char) {
    c == ' ' || c == '\t' || c == '\n' || c == '\U{000C}' || c == '\r'
  }

  /** Length of the run of non-separator characters that starts `s`. */
  function TokenLength(s: string): (n: nat)
    ensures n <= |s|
    ensures s != [] && !IsHtmlSpace(s[0]) ==> n > 0
    ensures forall i :: 0 <= i < n ==> !IsHtmlSpace(s[i])
    ensures n < |s| ==> IsHtmlSpace(s[n])
  {
    if s == [] || IsHtmlSpace(s[0]) then 0 else 1 + TokenLength(s[1..])
  }

  /** The class names listed in a class attribute, in order. */
  function ClassTokens(attr: string): (tokens: seq<string>)
    ensures forall k :: 0 <= k < |tokens| ==> tokens[k] != []
    decreases |attr|
  {
    if attr == [] then []
    else if IsHtmlSpace(attr[0]) then ClassTokens(attr[1..])
    else
      var n := TokenLength(attr);
      [attr[..n]] + ClassTokens(attr[n..])
  }

  /** What the selector `table.<name>` tests of a table's class attribute. */
  predicate HasClass(attr: string, name: string) {
    name in ClassTokens(attr)
  }
}
