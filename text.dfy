/**
 * The Python string operations the core relies on, stated over `seq<char>`.
 *
 * Letter case is ASCII only (`str.lower`/`str.upper` on other letters is not
 * modelled) and the whitespace that `str.strip()` removes is the set of ASCII
 * characters for which Python's `str.isspace` holds.
 */
module Text {
  import opened Wrappers

  /** The characters that `str.strip()` with no argument removes. */
  const Whitespace: set<char> :=
    {' ', '\t', '\n', '\r', '\U{B}', '\U{C}', '\U{1C}', '\U{1D}', '\U{1E}', '\U{1F}'}

  /** Three backticks, the opening of a markdown code fence. */
  const Fence: string := "```"

  /** Python truthiness of an optional string: present and not empty. */
  predicate Truthy(s: Option<string>) {
    s.Some? && s.value != ""
  }

  /** Python's `s or fallback` for an optional string. */
  function OrElse(s: Option<string>, fallback: string): (r: string)
    ensures Truthy(s) ==> r == s.value
    ensures !Truthy(s) ==> r == fallback
  {
    if Truthy(s) then s.value else fallback
  }

  // ---------------------------------------------------------------------------
  // strip, lstrip, rstrip

  /** `s.lstrip(chars)`: the longest suffix of `s` that does not start with one of `chars`. */
  function TrimStart(s: string, chars: set<char>): (r: string)
    ensures |r| <= |s|
    ensures |r| == |s| ==> r == s
    ensures |r| < |s| ==> r == s[|s| - |r|..]
    ensures forall i :: 0 <= i < |s| - |r| ==> s[i] in chars
    ensures r == [] || r[0] !in chars
    decreases |s|
  {
    if |s| > 0 && s[0] in chars then TrimStart(s[1..], chars) else s
  }

  /** `s.rstrip(chars)`: the longest prefix of `s` that does not end with one of `chars`. */
  function TrimEnd(s: string, chars: set<char>): (r: string)
    ensures |r| <= |s|
    ensures |r| == |s| ==> r == s
    ensures |r| < |s| ==> r == s[..|r|]
    ensures forall i :: |r| <= i < |s| ==> s[i] in chars
    ensures r == [] || r[|r| - 1] !in chars
    decreases |s|
  {
    if |s| > 0 && s[|s| - 1] in chars then TrimEnd(s[..|s| - 1], chars) else s
  }

  /** Neither end of `s` is one of `chars`. */
  predicate NoEdge(s: string, chars: set<char>) {
    s == [] || (s[0] !in chars && s[|s| - 1] !in chars)
  }

  /** `s.strip(chars)`: both ends trimmed; the result is a piece of `s`. */
  function Strip(s: string, chars: set<char>): (r: string)
    ensures NoEdge(r, chars)
    ensures Contains(s, r)
  {
    var e := TrimEnd(s, chars);
    var r := TrimStart(e, chars);
    assert OccursAt(s, r, |e| - |r|) by {
      assert s[..|e|][|e| - |r|..] == s[|e| - |r|..|e|];
    }
    r
  }

  lemma TrimStartKeeps(s: string, chars: set<char>)
    requires s == [] || s[0] !in chars
    ensures TrimStart(s, chars) == s
  {
  }

  lemma TrimEndKeeps(s: string, chars: set<char>)
    requires s == [] || s[|s| - 1] !in chars
    ensures TrimEnd(s, chars) == s
  {
  }

  /** Stripping a string whose ends are already clean changes nothing. */
  lemma StripKeeps(s: string, chars: set<char>)
    requires NoEdge(s, chars)
    ensures Strip(s, chars) == s
  {
    TrimEndKeeps(s, chars);
    TrimStartKeeps(s, chars);
  }

  /** Trimming a string made only of `chars` leaves nothing. */
  lemma {:induction false} TrimEndAll(s: string, chars: set<char>)
    requires forall i :: 0 <= i < |s| ==> s[i] in chars
    ensures TrimEnd(s, chars) == []
  {
    if |s| > 0 {
      TrimEndAll(s[..|s| - 1], chars);
    }
  }

  /** Trailing `chars` appended to `x` are trimmed away again. */
  lemma {:induction false} TrimEndPadding(x: string, q: string, chars: set<char>)
    requires forall i :: 0 <= i < |q| ==> q[i] in chars
    ensures TrimEnd(x + q, chars) == TrimEnd(x, chars)
    decreases |q|
  {
    if |q| > 0 {
      assert (x + q)[..|x + q| - 1] == x + q[..|q| - 1];
      TrimEndPadding(x, q[..|q| - 1], chars);
    } else {
      assert x + q == x;
    }
  }

  /** A prefix does not affect where the right trim stops, unless that trim eats everything. */
  lemma {:induction false} TrimEndUnderPrefix(p: string, s: string, chars: set<char>)
    requires TrimEnd(s, chars) != []
    ensures TrimEnd(p + s, chars) == p + TrimEnd(s, chars)
    decreases |s|
  {
    if s[|s| - 1] in chars {
      assert (p + s)[..|p + s| - 1] == p + s[..|s| - 1];
      TrimEndUnderPrefix(p, s[..|s| - 1], chars);
    }
  }

  /** Leading `chars` put in front of `x` are trimmed away again. */
  lemma {:induction false} TrimStartPadding(p: string, x: string, chars: set<char>)
    requires forall i :: 0 <= i < |p| ==> p[i] in chars
    ensures TrimStart(p + x, chars) == TrimStart(x, chars)
    decreases |p|
  {
    if |p| > 0 {
      assert (p + x)[1..] == p[1..] + x;
      TrimStartPadding(p[1..], x, chars);
    } else {
      assert p + x == x;
    }
  }

  /** Surrounding padding made of `chars` does not change what `Strip` returns. */
  lemma StripPadding(p: string, s: string, q: string, chars: set<char>)
    requires forall i :: 0 <= i < |p| ==> p[i] in chars
    requires forall i :: 0 <= i < |q| ==> q[i] in chars
    ensures Strip(p + s + q, chars) == Strip(s, chars)
  {
    TrimEndPadding(p + s, q, chars);
    if TrimEnd(s, chars) != [] {
      TrimEndUnderPrefix(p, s, chars);
      TrimStartPadding(p, TrimEnd(s, chars), chars);
    } else {
      assert forall i :: 0 <= i < |p + s| ==> (p + s)[i] in chars by {
        forall i | 0 <= i < |p + s| ensures (p + s)[i] in chars {
          if i >= |p| { assert (p + s)[i] == s[i - |p|]; }
        }
      }
      TrimEndAll(p + s, chars);
    }
  }

  // ---------------------------------------------------------------------------
  // lower, upper

  function LowerChar(c: char): char {
    if 'A' <= c <= 'Z' then (c as int + 32) as char else c
  }

  function UpperChar(c: char): char {
    if 'a' <= c <= 'z' then (c as int - 32) as char else c
  }

  /** `s.lower()` for ASCII letters. */
  function Lower(s: string): (r: string)
    ensures |r| == |s|
    ensures forall i :: 0 <= i < |s| ==> r[i] == LowerChar(s[i])
  {
    seq(|s|, i requires 0 <= i < |s| => LowerChar(s[i]))
  }

  /** `s.upper()` for ASCII letters. */
  function Upper(s: string): (r: string)
    ensures |r| == |s|
    ensures forall i :: 0 <= i < |s| ==> r[i] == UpperChar(s[i])
  {
    seq(|s|, i requires 0 <= i < |s| => UpperChar(s[i]))
  }

  /** A lower-cased text holds no upper-case ASCII letter. */
  lemma LowerHasNoUpper(s: string)
    ensures forall i :: 0 <= i < |Lower(s)| ==> !('A' <= Lower(s)[i] <= 'Z')
  {
    forall i | 0 <= i < |s|
      ensures !('A' <= Lower(s)[i] <= 'Z')
    {
      var c := s[i];
      if 'A' <= c <= 'Z' {
        assert 'a' as int <= c as int + 32 <= 'z' as int;
      }
    }
  }

  lemma LowerConcat(a: string, b: string)
    ensures Lower(a + b) == Lower(a) + Lower(b)
  {
    assert forall i :: 0 <= i < |a + b| ==> Lower(a + b)[i] == (Lower(a) + Lower(b))[i];
  }

  /** Lower-casing forgets whether a letter was upper-cased first. */
  lemma LowerOfUpper(s: string)
    ensures Lower(Upper(s)) == Lower(s)
  {
    assert forall i :: 0 <= i < |s| ==> Lower(Upper(s))[i] == Lower(s)[i];
  }

  /** Lower-casing never creates a character that is not an upper-case ASCII letter's image. */
  lemma LowerKeepsAbsent(s: string, c: char)
    requires c !in s
    requires !('a' <= c <= 'z')
    ensures c !in Lower(s)
  {
    assert forall i :: 0 <= i < |s| ==> Lower(s)[i] != c;
  }

  /** Lower-casing does not move a character into or out of `Whitespace`. */
  lemma LowerCharWhitespace(c: char)
    ensures LowerChar(c) in Whitespace <==> c in Whitespace
  {
  }

  lemma {:induction false} TrimStartLower(s: string)
    ensures TrimStart(Lower(s), Whitespace) == Lower(TrimStart(s, Whitespace))
    decreases |s|
  {
    if |s| > 0 {
      LowerCharWhitespace(s[0]);
      assert Lower(s)[1..] == Lower(s[1..]);
      TrimStartLower(s[1..]);
    }
  }

  lemma {:induction false} TrimEndLower(s: string)
    ensures TrimEnd(Lower(s), Whitespace) == Lower(TrimEnd(s, Whitespace))
    decreases |s|
  {
    if |s| > 0 {
      LowerCharWhitespace(s[|s| - 1]);
      assert Lower(s)[..|s| - 1] == Lower(s[..|s| - 1]);
      TrimEndLower(s[..|s| - 1]);
    }
  }

  /** Stripping and lower-casing can be done in either order. */
  lemma StripLower(s: string)
    ensures Lower(Strip(s, Whitespace)) == Strip(Lower(s), Whitespace)
  {
    TrimEndLower(s);
    TrimStartLower(TrimEnd(s, Whitespace));
  }

  // ---------------------------------------------------------------------------
  // startswith, `in`, replace, join

  /** `s.startswith(p)`. */
  predicate StartsWith(s: string, p: string) {
    |p| <= |s| && s[..|p|] == p
  }

  /** `p` occurs in `s` starting at index `i`. */
  predicate OccursAt(s: string, p: string, i: int) {
    0 <= i && i + |p| <= |s| && s[i..i + |p|] == p
  }

  /** Python's substring test `p in s`. */
  predicate Contains(s: string, p: string) {
    exists i :: 0 <= i <= |s| - |p| && OccursAt(s, p, i)
  }

  lemma ContainsInLeft(a: string, b: string, p: string)
    requires Contains(a, p)
    ensures Contains(a + b, p)
  {
    var i :| 0 <= i <= |a| - |p| && OccursAt(a, p, i);
    assert (a + b)[i..i + |p|] == a[i..i + |p|];
    assert OccursAt(a + b, p, i);
  }

  lemma ContainsInRight(a: string, b: string, p: string)
    requires Contains(b, p)
    ensures Contains(a + b, p)
  {
    var i :| 0 <= i <= |b| - |p| && OccursAt(b, p, i);
    assert (a + b)[|a| + i..|a| + i + |p|] == b[i..i + |p|];
    assert OccursAt(a + b, p, |a| + i);
  }

  /** Python's `any(p in s for p in ps)`. */
  predicate ContainsAny(s: string, ps: seq<string>)
    decreases |ps|
  {
    |ps| > 0 && (Contains(s, ps[0]) || ContainsAny(s, ps[1..]))
  }

  lemma {:induction false} ContainsAnyInLeft(a: string, b: string, ps: seq<string>)
    requires ContainsAny(a, ps)
    ensures ContainsAny(a + b, ps)
    decreases |ps|
  {
    if Contains(a, ps[0]) {
      ContainsInLeft(a, b, ps[0]);
    } else {
      ContainsAnyInLeft(a, b, ps[1..]);
    }
  }

  /** `ContainsAny` holds exactly when some listed piece occurs. */
  lemma {:induction false} ContainsAnyExists(s: string, ps: seq<string>)
    ensures ContainsAny(s, ps) <==> exists i :: 0 <= i < |ps| && Contains(s, ps[i])
    decreases |ps|
  {
    if |ps| > 0 {
      ContainsAnyExists(s, ps[1..]);
      assert forall i :: 0 < i < |ps| ==> ps[i] == ps[1..][i - 1];
    }
  }

  /** A character absent from `s` is absent from every piece of `s`. */
  lemma ContainsKeepsAbsent(s: string, r: string, c: char)
    requires Contains(s, r)
    requires c !in s
    ensures c !in r
  {
    var i :| 0 <= i <= |s| - |r| && OccursAt(s, r, i);
    assert forall k :: 0 <= k < |r| ==> r[k] == s[i + k];
  }

  /** No piece holding `c` occurs in a text without `c`. */
  lemma AbsentCharNotContained(s: string, p: string, c: char)
    requires c in p && c !in s
    ensures !Contains(s, p)
  {
    var k :| 0 <= k < |p| && p[k] == c;
    forall i | 0 <= i <= |s| - |p|
      ensures !OccursAt(s, p, i)
    {
      assert s[i..i + |p|][k] == s[i + k] != c;
    }
  }

  lemma ContainsTail(s: string, p: string)
    requires |s| > 0
    ensures Contains(s[1..], p) ==> Contains(s, p)
  {
    if Contains(s[1..], p) {
      var i :| 0 <= i <= |s[1..]| - |p| && OccursAt(s[1..], p, i);
      assert s[i + 1..i + 1 + |p|] == s[1..][i..i + |p|];
      assert OccursAt(s, p, i + 1);
    }
  }

  /** `s.replace(pat, rep)`: every non-overlapping occurrence, scanned from the left, is replaced. */
  function ReplaceAll(s: string, pat: string, rep: string): (r: string)
    requires |pat| > 0
    ensures !Contains(s, pat) ==> r == s
    decreases |s|
  {
    if |s| < |pat| then s
    else if s[..|pat|] == pat then
      assert OccursAt(s, pat, 0);
      rep + ReplaceAll(s[|pat|..], pat, rep)
    else
      ContainsTail(s, pat);
      [s[0]] + ReplaceAll(s[1..], pat, rep)
  }

  /** The first index from `i` on where `pat` occurs in `s`: `s.find(pat, i)`. */
  function FindFrom(s: string, pat: string, i: nat): (r: Option<nat>)
    requires |pat| > 0
    ensures r.Some? ==> i <= r.value && OccursAt(s, pat, r.value)
    ensures r.Some? ==> forall j :: i <= j < r.value ==> !OccursAt(s, pat, j)
    ensures r.None? ==> forall j :: i <= j ==> !OccursAt(s, pat, j)
    decreases |s| - i
  {
    if i + |pat| > |s| then None
    else if OccursAt(s, pat, i) then Some(i)
    else FindFrom(s, pat, i + 1)
  }

  /** `s.split(pat)`: the pieces between the non-overlapping occurrences of `pat`, found from the left. */
  function Split(s: string, pat: string): (r: seq<string>)
    requires |pat| > 0
    ensures |r| > 0
    decreases |s|
  {
    match FindFrom(s, pat, 0)
    case None => [s]
    case Some(i) => [s[..i]] + Split(s[i + |pat|..], pat)
  }

  /** Where the pattern does not start the text, `replace` copies the first character. */
  lemma ReplaceAllStep(s: string, pat: string, rep: string)
    requires |pat| > 0 && |pat| <= |s| && !OccursAt(s, pat, 0)
    ensures ReplaceAll(s, pat, rep) == [s[0]] + ReplaceAll(s[1..], pat, rep)
  {
    assert s[0..|pat|] == s[..|pat|];
  }

  /**
   * When `pat` does not occur in `a + pat + b` anywhere inside a non-empty `a`,
   * the text without its first character has the same shape around `a[1..]`.
   */
  lemma ShiftPrefix(a: string, pat: string, b: string)
    requires |pat| > 0 && |a| > 0
    requires forall j :: 0 <= j < |a| ==> !OccursAt(a + pat + b, pat, j)
    ensures !OccursAt(a + pat + b, pat, 0) && |pat| <= |a + pat + b|
    ensures (a + pat + b)[1..] == a[1..] + pat + b
    ensures forall j :: 0 <= j < |a| - 1 ==> !OccursAt(a[1..] + pat + b, pat, j)
  {
    var s, t := a + pat + b, a[1..] + pat + b;
    assert s[1..] == t;
    forall j | 0 <= j < |a| - 1
      ensures !OccursAt(t, pat, j)
    {
      assert !OccursAt(s, pat, j + 1);
      assert t[j..j + |pat|] == s[j + 1..j + 1 + |pat|];
    }
  }

  /** Before the first occurrence, `replace` copies the text unchanged. */
  lemma {:induction false} ReplaceAllFirst(a: string, pat: string, rep: string, b: string)
    requires |pat| > 0
    requires forall j :: 0 <= j < |a| ==> !OccursAt(a + pat + b, pat, j)
    ensures ReplaceAll(a + pat + b, pat, rep) == a + rep + ReplaceAll(b, pat, rep)
    decreases |a|
  {
    var s := a + pat + b;
    if |a| == 0 {
      assert s == pat + b;
      assert s[..|pat|] == pat;
      assert s[|pat|..] == b;
    } else {
      var c, a', r := a[0], a[1..], ReplaceAll(b, pat, rep);
      ShiftPrefix(a, pat, b);
      ReplaceAllStep(s, pat, rep);
      ReplaceAllFirst(a', pat, rep, b);
      assert s[0] == c;
      assert [c] + (a' + rep + r) == [c] + a' + rep + r;
      assert [c] + a' == a;
    }
  }

  /** `replace` is a split on the pattern joined back with the replacement. */
  lemma {:induction false} ReplaceAllIsJoinOfSplit(s: string, pat: string, rep: string)
    requires |pat| > 0
    ensures ReplaceAll(s, pat, rep) == Join(rep, Split(s, pat))
    decreases |s|
  {
    match FindFrom(s, pat, 0)
    case None =>
      assert !Contains(s, pat);
    case Some(i) =>
      var rest := s[i + |pat|..];
      assert s == s[..i] + pat + rest;
      ReplaceAllFirst(s[..i], pat, rep, rest);
      ReplaceAllIsJoinOfSplit(rest, pat, rep);
      JoinCons(rep, s[..i], Split(rest, pat));
  }

  /** Joining the pieces of a split with the same pattern gives the text back. */
  lemma {:induction false} SplitJoinRoundTrip(s: string, pat: string)
    requires |pat| > 0
    ensures Join(pat, Split(s, pat)) == s
    decreases |s|
  {
    match FindFrom(s, pat, 0)
    case None =>
    case Some(i) =>
      var rest := s[i + |pat|..];
      SplitJoinRoundTrip(rest, pat);
      JoinCons(pat, s[..i], Split(rest, pat));
      assert s[i..i + |pat|] == pat;
      assert s[..i] + pat + rest == s;
  }

  /** `sep.join(parts)`. */
  function Join(sep: string, parts: seq<string>): (r: string)
    ensures |parts| == 1 ==> r == parts[0]
    ensures |parts| > 1 ==> StartsWith(r, parts[0] + sep)
  {
    if |parts| == 0 then ""
    else if |parts| == 1 then parts[0]
    else
      var r := parts[0] + sep + Join(sep, parts[1..]);
      assert r[..|parts[0] + sep|] == parts[0] + sep;
      r
  }

  /** Joining a part in front of at least one more puts the separator between them. */
  lemma JoinCons(sep: string, a: string, parts: seq<string>)
    requires |parts| > 0
    ensures Join(sep, [a] + parts) == a + sep + Join(sep, parts)
  {
    assert ([a] + parts)[1..] == parts;
  }

  /** Joining one more part appends the separator and that part. */
  lemma {:induction false} JoinAppend(sep: string, parts: seq<string>, p: string)
    requires |parts| > 0
    ensures Join(sep, parts + [p]) == Join(sep, parts) + sep + p
    decreases |parts|
  {
    if |parts| == 1 {
      assert (parts + [p])[1..] == [p];
    } else {
      assert (parts + [p])[1..] == parts[1..] + [p];
      JoinAppend(sep, parts[1..], p);
    }
  }

  /** The total length of the parts. */
  function TotalLength(parts: seq<string>): nat
    decreases |parts|
  {
    if |parts| == 0 then 0 else |parts[0]| + TotalLength(parts[1..])
  }

  /** A join of `n` parts holds all their characters and `n - 1` separators. */
  lemma {:induction false} JoinLength(sep: string, parts: seq<string>)
    requires |parts| > 0
    ensures |Join(sep, parts)| == TotalLength(parts) + (|parts| - 1) * |sep|
    decreases |parts|
  {
    if |parts| > 1 {
      JoinLength(sep, parts[1..]);
      assert (|parts| - 1) * |sep| == (|parts[1..]| - 1) * |sep| + |sep|;
    }
  }

  /** Every part occurs in the join. */
  lemma {:induction false} JoinContainsParts(sep: string, parts: seq<string>, i: nat)
    requires i < |parts|
    ensures Contains(Join(sep, parts), parts[i])
    decreases i
  {
    if |parts| == 1 || i == 0 {
      assert OccursAt(parts[0], parts[0], 0);
      if |parts| > 1 {
        assert parts[0] + sep + Join(sep, parts[1..]) == parts[0] + (sep + Join(sep, parts[1..]));
        ContainsInLeft(parts[0], sep + Join(sep, parts[1..]), parts[0]);
      }
    } else {
      assert parts[1..][i - 1] == parts[i];
      JoinContainsParts(sep, parts[1..], i - 1);
      ContainsInRight(parts[0] + sep, Join(sep, parts[1..]), parts[i]);
    }
  }

  /** With a non-empty separator, a join is empty exactly when it joins nothing or one empty part. */
  lemma JoinEmpty(sep: string, parts: seq<string>)
    requires sep != ""
    ensures Join(sep, parts) == "" <==> |parts| == 0 || (|parts| == 1 && parts[0] == "")
  {
  }

  // ---------------------------------------------------------------------------
  // markdown fences

  /**
   * The fence clean-up both generators apply to an already stripped completion:
   * when `s` opens a fence, drop the backticks at both ends, drop every
   * `lowerTag` and then every `upperTag`, and strip again.
   */
  function StripFence(s: string, lowerTag: string, upperTag: string): (r: string)
    requires lowerTag != "" && upperTag != ""
    ensures !StartsWith(s, Fence) ==> r == s
    ensures StartsWith(s, Fence) ==> NoEdge(r, Whitespace)
  {
    if StartsWith(s, Fence) then
      var unticked := Strip(s, {'`'});
      Strip(ReplaceAll(ReplaceAll(unticked, lowerTag, ""), upperTag, ""), Whitespace)
    else
      s
  }
}
