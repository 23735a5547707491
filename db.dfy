/**
 * The read-only SQL gate at the front of `execute_readonly_query`, the
 * database behind it, and the shared result cache.
 *
 * The gate is modelled exactly as written, including three places where the
 * code does less than it seems to:
 *   - the keyword test looks for each keyword between two BACKSPACE characters
 *     (U+0008), because the pattern is a plain f-string in which `\b` is an escape;
 *   - the column pattern is a raw string whose `[\\w]` and `\\.` stand for a
 *     literal backslash, so it only finds text that contains a backslash;
 *   - the LIMIT test is a plain substring test for `limit`.
 */
module Db {
  import opened Wrappers
  import opened Text

  datatype Value = NullValue | BoolValue(b: bool) | IntValue(i: int) | StrValue(s: string)

  /** One result row: column name to value. */
  type Row = map<string, Value>

  type Rows = seq<Row>

  const Backspace: char := '\U{8}'

  const ForbiddenKeywords: seq<string> :=
    ["insert", "update", "delete", "drop", "alter", "truncate", "create"]

  /** What the gate appends when the text has no `limit` in it. */
  const LimitClause: string := " LIMIT 200"

  const DbErrorPrefix: string := "Database execution failed: "

  datatype GateError =
    | NotSelect
    | ForbiddenKeyword
    | DisallowedObject(allowed: seq<string>)
    | UnknownColumn(column: string)

  /**
   * The text of the `ValueError` the gate raises: an object error lists every
   * allowed object, a column error ends with the offending column.
   */
  function GateMessage(e: GateError): (r: string)
    ensures r != ""
    ensures e.DisallowedObject? ==> forall i :: 0 <= i < |e.allowed| ==> Contains(r, e.allowed[i])
    ensures e.UnknownColumn? ==> |e.column| <= |r| && r[|r| - |e.column|..] == e.column
  {
    match e
    case NotSelect => "Only SELECT queries are allowed."
    case ForbiddenKeyword => "Only read-only SELECT queries are allowed."
    case DisallowedObject(allowed) =>
      var head := "Query must reference one of the allowed objects: ";
      assert forall i :: 0 <= i < |allowed| ==> Contains(head + Join(", ", allowed), allowed[i]) by {
        forall i | 0 <= i < |allowed|
          ensures Contains(head + Join(", ", allowed), allowed[i])
        {
          JoinContainsParts(", ", allowed, i);
          ContainsInRight(head, Join(", ", allowed), allowed[i]);
        }
      }
      head + Join(", ", allowed)
    case UnknownColumn(col) =>
      var head := "Query references unknown column: ";
      assert (head + col)[|head + col| - |col|..] == col;
      head + col
  }

  // ---------------------------------------------------------------------------
  // Step 1: cleaning

  lemma ContainsTransitive(a: string, b: string, c: string)
    requires Contains(a, b) && Contains(b, c)
    ensures Contains(a, c)
  {
    var i :| 0 <= i <= |a| - |b| && OccursAt(a, b, i);
    var j :| 0 <= j <= |b| - |c| && OccursAt(b, c, j);
    forall k | 0 <= k < |c|
      ensures a[i + j + k] == c[k]
    {
      assert b[j + k] == c[k];
      assert a[i + (j + k)] == b[j + k];
    }
    assert a[i + j..i + j + |c|] == c;
    assert OccursAt(a, c, i + j);
  }

  /**
   * `sql.strip().rstrip(";").lstrip()`: the result neither starts with
   * whitespace nor ends with a semicolon, and it is a piece of `sql`.
   */
  function Clean(sql: string): (r: string)
    ensures r == [] || r[0] !in Whitespace
    ensures r == [] || r[|r| - 1] != ';'
    ensures Contains(sql, r)
  {
    var stripped := Strip(sql, Whitespace);
    var unterminated := TrimEnd(stripped, {';'});
    var r := TrimStart(unterminated, Whitespace);
    assert OccursAt(stripped, unterminated, 0);
    assert OccursAt(unterminated, r, |unterminated| - |r|);
    ContainsTransitive(sql, stripped, unterminated);
    ContainsTransitive(sql, unterminated, r);
    r
  }

  // ---------------------------------------------------------------------------
  // Step 3: the keyword denylist

  /** A keyword as the f-string `f"\b{kw}\b"` spells it: between two backspaces. */
  function Wrapped(kw: string): string {
    [Backspace] + kw + [Backspace]
  }

  function WrapAll(kws: seq<string>): (r: seq<string>)
    ensures |r| == |kws|
    ensures forall i :: 0 <= i < |kws| ==> r[i] == Wrapped(kws[i])
  {
    if kws == [] then [] else [Wrapped(kws[0])] + WrapAll(kws[1..])
  }

  /** `any(f"\b{kw}\b" in lower for kw in forbidden)`. */
  predicate HasForbiddenKeyword(lower: string) {
    ContainsAny(lower, WrapAll(ForbiddenKeywords))
  }

  /** No pattern that holds `c` occurs in a text without `c`. */
  lemma {:induction false} AbsentCharNoPattern(s: string, ps: seq<string>, c: char)
    requires c !in s
    requires forall i :: 0 <= i < |ps| ==> c in ps[i]
    ensures !ContainsAny(s, ps)
    decreases |ps|
  {
    if |ps| > 0 {
      if Contains(s, ps[0]) {
        ContainsKeepsAbsent(s, ps[0], c);
      }
      AbsentCharNoPattern(s, ps[1..], c);
    }
  }

  /** Text without a backspace never trips the keyword test. */
  lemma NoBackspaceNoKeyword(s: string)
    requires Backspace !in s
    ensures !HasForbiddenKeyword(s)
  {
    var ps := WrapAll(ForbiddenKeywords);
    assert forall i :: 0 <= i < |ps| ==> ps[i][0] == Backspace;
    AbsentCharNoPattern(s, ps, Backspace);
  }

  /** A piece ending in `c` that occurs in `a + b`, where `b` lacks `c`, occurs in `a`. */
  lemma EndingCharStaysLeft(a: string, b: string, p: string, c: char)
    requires |p| > 0 && p[|p| - 1] == c && c !in b
    requires Contains(a + b, p)
    ensures Contains(a, p)
  {
    var i :| 0 <= i <= |a + b| - |p| && OccursAt(a + b, p, i);
    var last := i + |p| - 1;
    assert (a + b)[last] == c;
    assert forall k :: |a| <= k < |a + b| ==> (a + b)[k] == b[k - |a|];
    assert last < |a|;
    assert a[i..i + |p|] == (a + b)[i..i + |p|];
    assert OccursAt(a, p, i);
  }

  lemma {:induction false} EndingCharPatternsStayLeft(a: string, b: string, ps: seq<string>, c: char)
    requires c !in b
    requires forall i :: 0 <= i < |ps| ==> |ps[i]| > 0 && ps[i][|ps[i]| - 1] == c
    ensures ContainsAny(a + b, ps) ==> ContainsAny(a, ps)
    decreases |ps|
  {
    if |ps| > 0 {
      if Contains(a + b, ps[0]) {
        EndingCharStaysLeft(a, b, ps[0], c);
      }
      EndingCharPatternsStayLeft(a, b, ps[1..], c);
    }
  }

  /** An occurrence of a wrapped keyword cannot end inside a backspace-free suffix. */
  lemma KeywordNotInSuffix(a: string, b: string)
    requires Backspace !in b
    ensures HasForbiddenKeyword(a + b) ==> HasForbiddenKeyword(a)
  {
    var ps := WrapAll(ForbiddenKeywords);
    assert forall i :: 0 <= i < |ps| ==> ps[i][|ps[i]| - 1] == Backspace;
    EndingCharPatternsStayLeft(a, b, ps, Backspace);
  }

  // ---------------------------------------------------------------------------
  // Step 4: the default LIMIT

  /** `cleaned`, or `cleaned + " LIMIT 200"` when its lower-cased text lacks `limit`. */
  function Bounded(cleaned: string): (r: string)
    ensures Contains(Lower(cleaned), "limit") <==> r == cleaned
    ensures r == cleaned || r == cleaned + LimitClause
    ensures Contains(Lower(r), "limit")
  {
    if Contains(Lower(cleaned), "limit") then cleaned
    else
      LowerConcat(cleaned, LimitClause);
      assert Lower(LimitClause) == " limit 200";
      assert OccursAt(Lower(LimitClause), "limit", 1);
      ContainsInRight(Lower(cleaned), Lower(LimitClause), "limit");
      cleaned + LimitClause
  }

  lemma LimitClauseLower()
    ensures Lower(LimitClause) == " limit 200"
    ensures '\\' !in LimitClause
  {
  }

  /** Appending the LIMIT keeps the SELECT prefix and adds no forbidden keyword. */
  lemma BoundedKeepsChecks(c: string)
    requires StartsWith(Lower(c), "select")
    requires !HasForbiddenKeyword(Lower(c))
    ensures StartsWith(Lower(Bounded(c)), "select")
    ensures !HasForbiddenKeyword(Lower(Bounded(c)))
  {
    if Bounded(c) != c {
      var l := Lower(c);
      var t := Lower(LimitClause);
      LowerConcat(c, LimitClause);
      LimitClauseLower();
      assert Backspace !in t;
      KeywordNotInSuffix(l, t);
      assert (l + t)[..6] == l[..6];
    }
  }

  // ---------------------------------------------------------------------------
  // Step 5: the object allowlist

  function LowerAll(xs: seq<string>): (r: seq<string>)
    ensures |r| == |xs|
    ensures forall i :: 0 <= i < |xs| ==> r[i] == Lower(xs[i])
  {
    if xs == [] then [] else [Lower(xs[0])] + LowerAll(xs[1..])
  }

  /** Introspection namespaces, or any allowed object, occur in the text. */
  predicate ReferencesAllowed(lower: string, allowedLower: seq<string>) {
    || Contains(lower, "information_schema")
    || Contains(lower, "pg_catalog")
    || ContainsAny(lower, allowedLower)
  }

  // ---------------------------------------------------------------------------
  // Step 6: the column allowlist, over the matches of
  //   ([a-zA-Z_][\\w]*)\\.([a-zA-Z_][\\w]*)
  // read as a raw string: an identifier start, a run of backslashes and `w`s,
  // a literal backslash, any character but a newline, and a second such group.

  predicate IsIdentStart(c: char) {
    ('a' <= c <= 'z') || ('A' <= c <= 'Z') || c == '_'
  }

  /** The character class `[\\w]`: a backslash or the letter `w`. */
  predicate InTailClass(c: char) {
    c == '\\' || c == 'w'
  }

  /** Text one group `[a-zA-Z_][\\w]*` matches. */
  predicate IsGroup(g: string) {
    |g| > 0 && IsIdentStart(g[0]) && forall k :: 1 <= k < |g| ==> InTailClass(g[k])
  }

  /** The end of the longest run of `[\\w]` characters starting at `j`. */
  function TailEnd(s: string, j: nat): (e: nat)
    requires j <= |s|
    ensures j <= e <= |s|
    ensures forall k :: j <= k < e ==> InTailClass(s[k])
    ensures e == |s| || !InTailClass(s[e])
    decreases |s| - j
  {
    if j < |s| && InTailClass(s[j]) then TailEnd(s, j + 1) else j
  }

  /**
   * Greedy backtracking of the first group's `[\\w]*`: try the literal
   * backslash at `k`, then at `k - 1`, down to `lo`. On success, the end of the
   * match and the text of the second group.
   */
  function Backtrack(s: string, lo: nat, k: int): (m: Option<(nat, string)>)
    requires lo <= |s| && lo - 1 <= k < |s|
    ensures m.Some? ==> lo + 3 <= m.value.0 <= |s|
    ensures m.Some? ==> var (e, col) := m.value;
      && lo <= e - |col| - 2 <= k
      && s[e - |col| - 2] == '\\' && s[e - |col| - 1] != '\n'
      && col == s[e - |col|..e] && IsGroup(col)
      && (e == |s| || !InTailClass(s[e]))
    decreases k - lo + 1
  {
    if k < lo then None
    else if s[k] == '\\' && k + 2 < |s| && s[k + 1] != '\n' && IsIdentStart(s[k + 2]) then
      var e := TailEnd(s, k + 3);
      var col := s[k + 2..e];
      assert |col| == e - (k + 2) && col[0] == s[k + 2];
      assert forall j :: 1 <= j < |col| ==> col[j] == s[k + 2 + j];
      Some((e, col))
    else
      Backtrack(s, lo, k - 1)
  }

  /** The match of the pattern that starts at index `i`, if any. */
  function MatchAt(s: string, i: nat): (m: Option<(nat, string)>)
    requires i < |s|
    ensures m.Some? ==> i < m.value.0 <= |s|
    ensures m.Some? ==> var (e, col) := m.value;
      && i < e - |col| - 2
      && IsGroup(s[i..e - |col| - 2]) && s[e - |col| - 2] == '\\' && s[e - |col| - 1] != '\n'
      && col == s[e - |col|..e] && IsGroup(col)
  {
    if IsIdentStart(s[i]) then
      var t := TailEnd(s, i + 1);
      var m := Backtrack(s, i + 1, t - 1);
      assert m.Some? ==> var b := m.value.0 - |m.value.1| - 2;
        var g := s[i..b];
        && b < t && |g| == b - i && g[0] == s[i]
        && forall j :: 1 <= j < |g| ==> g[j] == s[i + j];
      m
    else None
  }

  /** `re.findall` from index `i`: the second groups of the non-overlapping matches, left to right. */
  function FindAll(s: string, i: nat): (r: seq<string>)
    requires i <= |s|
    ensures forall j :: 0 <= j < |r| ==> IsGroup(r[j]) && Contains(s[i..], r[j])
    decreases |s| - i
  {
    if i == |s| then []
    else
      match MatchAt(s, i)
      case Some((e, col)) =>
        var rest := FindAll(s, e);
        assert s[i..] == s[i..e] + s[e..];
        assert OccursAt(s[i..], col, e - |col| - i);
        assert forall j :: 0 <= j < |rest| ==> Contains(s[i..], rest[j]) by {
          forall j | 0 <= j < |rest|
            ensures Contains(s[i..], rest[j])
          {
            ContainsInRight(s[i..e], s[e..], rest[j]);
          }
        }
        [col] + rest
      case None =>
        var rest := FindAll(s, i + 1);
        assert s[i..] == [s[i]] + s[i + 1..];
        assert forall j :: 0 <= j < |rest| ==> Contains(s[i..], rest[j]) by {
          forall j | 0 <= j < |rest|
            ensures Contains(s[i..], rest[j])
          {
            ContainsInRight([s[i]], s[i + 1..], rest[j]);
          }
        }
        rest
  }

  function ColumnRefs(s: string): seq<string> {
    FindAll(s, 0)
  }

  lemma {:induction false} BacktrackNeedsBackslash(s: string, lo: nat, k: int)
    requires lo <= |s| && lo - 1 <= k < |s|
    requires '\\' !in s
    ensures Backtrack(s, lo, k) == None
    decreases k - lo + 1
  {
    if k >= lo {
      assert s[k] != '\\';
      BacktrackNeedsBackslash(s, lo, k - 1);
    }
  }

  lemma {:induction false} FindAllNeedsBackslash(s: string, i: nat)
    requires i <= |s|
    requires '\\' !in s
    ensures FindAll(s, i) == []
    decreases |s| - i
  {
    if i < |s| {
      if IsIdentStart(s[i]) {
        BacktrackNeedsBackslash(s, i + 1, TailEnd(s, i + 1) - 1);
      }
      FindAllNeedsBackslash(s, i + 1);
    }
  }

  /** Text without a backslash, such as an ordinary `alias.column`, yields no column references. */
  lemma NoBackslashNoColumnRefs(s: string)
    requires '\\' !in s
    ensures ColumnRefs(s) == []
  {
    FindAllNeedsBackslash(s, 0);
  }

  /** The only text the pattern does find: a backslash between the two identifiers. */
  lemma BackslashColumnRef(s: string)
    requires s == "a\\.b"
    ensures ColumnRefs(s) == ["b"]
  {
    assert TailEnd(s, 4) == 4;
    assert TailEnd(s, 2) == 2;
    assert TailEnd(s, 1) == 2;
    assert s[1] == '\\' && s[2] != '\n' && IsIdentStart(s[3]);
    assert s[3..4] == "b";
    assert Backtrack(s, 1, 1) == Some((4, "b"));
    assert MatchAt(s, 0) == Some((4, "b"));
    assert FindAll(s, 4) == [];
  }

  function LowerSet(xs: seq<string>): set<string> {
    set i | 0 <= i < |xs| :: Lower(xs[i])
  }

  /** The position of the first reference whose lower-cased text is not known. */
  function FirstUnknown(refs: seq<string>, known: set<string>): (r: Option<nat>)
    ensures r.None? <==> forall i :: 0 <= i < |refs| ==> Lower(refs[i]) in known
    ensures r.Some? ==> r.value < |refs| && Lower(refs[r.value]) !in known
    ensures r.Some? ==> forall j :: 0 <= j < r.value ==> Lower(refs[j]) in known
  {
    if refs == [] then None
    else if Lower(refs[0]) !in known then Some(0)
    else
      match FirstUnknown(refs[1..], known)
      case None => None
      case Some(k) => Some(k + 1)
  }

  /** Lines 64-68: the first column reference, in match order, whose lower-cased text is not allowed. */
  function UnknownColumnIn(bounded: string, allowedColumns: seq<string>): (r: Option<string>)
    ensures r.None? <==> forall c :: c in ColumnRefs(bounded) ==> Lower(c) in LowerSet(allowedColumns)
    ensures r.Some? ==> r.value in ColumnRefs(bounded) && Lower(r.value) !in LowerSet(allowedColumns)
  {
    var refs := ColumnRefs(bounded);
    match FirstUnknown(refs, LowerSet(allowedColumns))
    case None => None
    case Some(k) => assert refs[k] in refs; Some(refs[k])
  }

  /** Line 59: a non-empty allowlist none of whose objects, nor an introspection namespace, occurs. */
  predicate ObjectsRejected(lowerBounded: string, allowedObjects: seq<string>)
    ensures ObjectsRejected(lowerBounded, allowedObjects) <==>
      && |allowedObjects| > 0
      && !Contains(lowerBounded, "information_schema") && !Contains(lowerBounded, "pg_catalog")
      && forall i :: 0 <= i < |allowedObjects| ==> !Contains(lowerBounded, Lower(allowedObjects[i]))
  {
    ContainsAnyExists(lowerBounded, LowerAll(allowedObjects));
    |allowedObjects| > 0 && !ReferencesAllowed(lowerBounded, LowerAll(allowedObjects))
  }

  // ---------------------------------------------------------------------------
  // The gate

  /**
   * Lines 39-68 of `execute_readonly_query`: the checks run in the order
   * SELECT, keywords, LIMIT, objects, columns, and the first failing check
   * decides the error. On success, the text that is sent to the database.
   */
  function Validate(sql: string, allowedObjects: seq<string>, allowedColumns: seq<string>)
    : (r: Result<string, GateError>)
    ensures r == Err(NotSelect) <==> !StartsWith(Lower(Clean(sql)), "select")
    ensures r == Err(ForbiddenKeyword) <==>
      StartsWith(Lower(Clean(sql)), "select") && HasForbiddenKeyword(Lower(Clean(sql)))
    ensures r.Err? && r.error.DisallowedObject? <==>
      && StartsWith(Lower(Clean(sql)), "select") && !HasForbiddenKeyword(Lower(Clean(sql)))
      && ObjectsRejected(Lower(Bounded(Clean(sql))), allowedObjects)
    ensures r.Err? && r.error.DisallowedObject? ==> r.error.allowed == LowerAll(allowedObjects)
    ensures r.Err? && r.error.UnknownColumn? <==>
      && StartsWith(Lower(Clean(sql)), "select") && !HasForbiddenKeyword(Lower(Clean(sql)))
      && !ObjectsRejected(Lower(Bounded(Clean(sql))), allowedObjects)
      && |allowedColumns| > 0 && UnknownColumnIn(Bounded(Clean(sql)), allowedColumns).Some?
    ensures r.Err? && r.error.UnknownColumn? ==>
      r.error.column == UnknownColumnIn(Bounded(Clean(sql)), allowedColumns).value
    ensures r.Ok? ==> r.value == Bounded(Clean(sql))
    ensures r.Ok? ==>
      && StartsWith(Lower(r.value), "select")
      && !HasForbiddenKeyword(Lower(r.value))
      && Contains(Lower(r.value), "limit")
    ensures r.Ok? && |allowedObjects| > 0 ==> ReferencesAllowed(Lower(r.value), LowerAll(allowedObjects))
    ensures r.Ok? && |allowedColumns| > 0 ==>
      forall c :: c in ColumnRefs(r.value) ==> Lower(c) in LowerSet(allowedColumns)
  {
    var cleaned := Clean(sql);
    var lower := Lower(cleaned);
    if !StartsWith(lower, "select") then Err(NotSelect)
    else if HasForbiddenKeyword(lower) then Err(ForbiddenKeyword)
    else
      var bounded := Bounded(cleaned);
      BoundedKeepsChecks(cleaned);
      if ObjectsRejected(Lower(bounded), allowedObjects) then
        Err(DisallowedObject(LowerAll(allowedObjects)))
      else if |allowedColumns| > 0 && UnknownColumnIn(bounded, allowedColumns).Some? then
        Err(UnknownColumn(UnknownColumnIn(bounded, allowedColumns).value))
      else
        Ok(bounded)
  }

  /** Text that cleaning has nothing to remove from is left as it is. */
  lemma CleanKeeps(x: string)
    requires NoEdge(x, Whitespace)
    requires x == [] || x[|x| - 1] != ';'
    ensures Clean(x) == x
  {
    StripKeeps(x, Whitespace);
    TrimEndKeeps(x, {';'});
    TrimStartKeeps(x, Whitespace);
  }

  lemma StripBeforeSemicolons(x: string, q: string, w: string)
    requires x != [] && x[0] !in Whitespace
    requires q != [] && q[|q| - 1] == ';'
    requires forall i :: 0 <= i < |w| ==> w[i] in Whitespace
    ensures Strip(x + q + w, Whitespace) == x + q
  {
    var s := x + q;
    assert s[0] == x[0] && s[|s| - 1] == ';';
    TrimEndPadding(s, w, Whitespace);
    TrimEndKeeps(s, Whitespace);
    TrimStartKeeps(s, Whitespace);
  }

  /**
   * `rstrip(";")` removes every trailing semicolon, not just one, together with
   * the whitespace after them; the whitespace in front of them stays.
   */
  lemma CleanDropsAllSemicolons(x: string, q: string, w: string)
    requires x != [] && x[0] !in Whitespace && x[|x| - 1] != ';'
    requires q != [] && forall i :: 0 <= i < |q| ==> q[i] == ';'
    requires forall i :: 0 <= i < |w| ==> w[i] in Whitespace
    ensures Clean(x + q + w) == x
  {
    StripBeforeSemicolons(x, q, w);
    TrimEndPadding(x, q, {';'});
    TrimEndKeeps(x, {';'});
    TrimStartKeeps(x, Whitespace);
  }

  /** With no allowlists the gate accepts exactly the SELECT texts without a wrapped keyword. */
  lemma GateWithoutAllowlists(sql: string)
    ensures Validate(sql, [], []).Ok? <==>
      StartsWith(Lower(Clean(sql)), "select") && !HasForbiddenKeyword(Lower(Clean(sql)))
    ensures Validate(sql, [], []).Ok? ==> Validate(sql, [], []).value == Bounded(Clean(sql))
  {
  }

  /**
   * Every text the gate accepts starts with `select`, ignoring case: `selectx`
   * counts. (The examples take their text as a parameter so that the verifier
   * does not evaluate the whole gate on a literal.)
   */
  lemma SelectIsOnlyAPrefixTest(sql: string)
    requires sql == "selectx"
    ensures Validate(sql, [], []) == Ok(sql + LimitClause)
  {
    SelectxSteps(sql);
  }

  lemma SelectxSteps(sql: string)
    requires sql == "selectx"
    ensures Clean(sql) == sql && Lower(sql) == sql
    ensures !HasForbiddenKeyword(sql) && !Contains(sql, "limit")
  {
    SelectxText();
    NoBackspaceNoKeyword(sql);
    AbsentCharNotContained(sql, "limit", 'i');
  }

  lemma SelectxText()
    ensures Clean("selectx") == "selectx" && Lower("selectx") == "selectx"
    ensures Backspace !in "selectx" && 'i' !in "selectx" && 'i' in "limit"
  {
    CleanKeeps("selectx");
    assert "limit"[1] == 'i';
  }

  /** A denylisted keyword written as a plain word passes the keyword step. */
  lemma PlainKeywordPasses(sql: string, allowedObjects: seq<string>, allowedColumns: seq<string>)
    requires Backspace !in sql
    ensures Validate(sql, allowedObjects, allowedColumns) != Err(ForbiddenKeyword)
  {
    ContainsKeepsAbsent(sql, Clean(sql), Backspace);
    LowerKeepsAbsent(Clean(sql), Backspace);
    NoBackspaceNoKeyword(Lower(Clean(sql)));
  }

  /** The keyword step fires on a keyword between backspaces, in any letter case. */
  lemma BackspacedKeywordRejected(sql: string)
    requires sql == "select \U{8}DROP\U{8}"
    ensures Validate(sql, [], []) == Err(ForbiddenKeyword)
  {
    BackspacedDropText();
    BackspacedDropKeyword();
  }

  lemma BackspacedDropText()
    ensures Clean("select \U{8}DROP\U{8}") == "select \U{8}DROP\U{8}"
    ensures Lower("select \U{8}DROP\U{8}") == "select \U{8}drop\U{8}"
  {
    CleanKeeps("select \U{8}DROP\U{8}");
  }

  lemma BackspacedDropKeyword()
    ensures HasForbiddenKeyword("select \U{8}drop\U{8}")
  {
    var ps := WrapAll(ForbiddenKeywords);
    assert OccursAt("select \U{8}drop\U{8}", ps[3], 7);
    ContainsAnyExists("select \U{8}drop\U{8}", ps);
  }

  /** The bounded text holds a backslash only where the query did. */
  lemma BoundedKeepsNoBackslash(sql: string)
    requires '\\' !in sql
    ensures '\\' !in Bounded(Clean(sql))
  {
    ContainsKeepsAbsent(sql, Clean(sql), '\\');
    LimitClauseLower();
  }

  /** Without a backslash in the query the column step never rejects. */
  lemma ColumnStepNeedsBackslash(sql: string, allowedObjects: seq<string>, allowedColumns: seq<string>)
    requires '\\' !in sql
    ensures !(Validate(sql, allowedObjects, allowedColumns).Err? &&
              Validate(sql, allowedObjects, allowedColumns).error.UnknownColumn?)
  {
    BoundedKeepsNoBackslash(sql);
    NoBackslashNoColumnRefs(Bounded(Clean(sql)));
  }

  /** Introspection queries pass the object step whatever the allowlist holds. */
  lemma IntrospectionAllowed(sql: string, allowedObjects: seq<string>)
    requires StartsWith(Lower(Clean(sql)), "select")
    requires !HasForbiddenKeyword(Lower(Clean(sql)))
    requires Contains(Lower(Clean(sql)), "information_schema") || Contains(Lower(Clean(sql)), "pg_catalog")
    ensures Validate(sql, allowedObjects, []).Ok?
  {
    var c := Clean(sql);
    var l := Lower(c);
    if Bounded(c) != c {
      LowerConcat(c, LimitClause);
      if Contains(l, "information_schema") {
        ContainsInLeft(l, Lower(LimitClause), "information_schema");
      } else {
        ContainsInLeft(l, Lower(LimitClause), "pg_catalog");
      }
    }
    assert ReferencesAllowed(Lower(Bounded(c)), LowerAll(allowedObjects));
  }

  // ---------------------------------------------------------------------------
  // Idempotence

  /** Re-validating an accepted text that cleaning leaves alone returns it unchanged. */
  lemma ValidateIdempotentOnClean(sql: string, allowedObjects: seq<string>, allowedColumns: seq<string>)
    requires Validate(sql, allowedObjects, allowedColumns).Ok?
    requires var r := Validate(sql, allowedObjects, allowedColumns).value; Clean(r) == r
    ensures var r := Validate(sql, allowedObjects, allowedColumns).value;
      Validate(r, allowedObjects, allowedColumns) == Ok(r)
  {
  }

  /** A SELECT text with the LIMIT appended starts with a letter and ends with `0`: cleaning keeps it. */
  lemma LimitedTextIsClean(c: string)
    requires StartsWith(Lower(c), "select")
    ensures Clean(c + LimitClause) == c + LimitClause
  {
    var r := c + LimitClause;
    assert LowerChar(c[0]) == 's';
    assert r[0] == c[0] && r[|r| - 1] == '0';
    assert 's' !in Whitespace && 'S' !in Whitespace && '0' !in Whitespace;
    CleanKeeps(r);
  }

  /** When the gate appended the LIMIT, validating its output again returns the same text. */
  lemma ValidateIdempotentWhenBounded(sql: string, allowedObjects: seq<string>, allowedColumns: seq<string>)
    requires Validate(sql, allowedObjects, allowedColumns).Ok?
    requires !Contains(Lower(Clean(sql)), "limit")
    ensures var r := Validate(sql, allowedObjects, allowedColumns).value;
      Validate(r, allowedObjects, allowedColumns) == Ok(r)
  {
    LimitedTextIsClean(Clean(sql));
    ValidateIdempotentOnClean(sql, allowedObjects, allowedColumns);
  }

  /** Trailing whitespace after a clean text is all that cleaning removes. */
  lemma CleanDropsTrailingWhitespace(x: string, w: string)
    requires x != [] && NoEdge(x, Whitespace) && x[|x| - 1] != ';'
    requires forall i :: 0 <= i < |w| ==> w[i] in Whitespace
    ensures Clean(x + w) == x
  {
    assert Strip(x + w, Whitespace) == x by {
      TrimEndPadding(x, w, Whitespace);
      TrimEndKeeps(x, Whitespace);
      TrimStartKeeps(x, Whitespace);
    }
    TrimEndKeeps(x, {';'});
    TrimStartKeeps(x, Whitespace);
  }

  lemma WhitespaceHasNoBackspace(w: string)
    requires forall i :: 0 <= i < |w| ==> w[i] in Whitespace
    ensures Backspace !in w
  {
    assert Backspace !in Whitespace;
  }

  /** Whitespace in front of a final semicolon survives cleaning. */
  lemma CleanKeepsWhitespaceBeforeSemicolon(x: string, w: string)
    requires x != [] && x[0] !in Whitespace
    requires w != [] && forall i :: 0 <= i < |w| ==> w[i] in Whitespace
    ensures Clean(x + w + ";") == x + w
  {
    var xw := x + w;
    assert xw[0] == x[0];
    assert xw[|xw| - 1] != ';' by {
      assert xw[|xw| - 1] == w[|w| - 1];
      assert ';' !in Whitespace;
    }
    assert xw + ";" == xw + ";" + "";
    CleanDropsAllSemicolons(xw, ";", "");
  }

  /** The gate's checks on `x` also pass on `x` followed by whitespace. */
  lemma ChecksIgnoreTrailingWhitespace(x: string, w: string)
    requires StartsWith(Lower(x), "select") && !HasForbiddenKeyword(Lower(x)) && Contains(Lower(x), "limit")
    requires forall i :: 0 <= i < |w| ==> w[i] in Whitespace
    ensures StartsWith(Lower(x + w), "select") && !HasForbiddenKeyword(Lower(x + w))
    ensures Contains(Lower(x + w), "limit")
  {
    WhitespaceHasNoBackspace(w);
    LowerKeepsAbsent(w, Backspace);
    LowerConcat(x, w);
    KeywordNotInSuffix(Lower(x), Lower(w));
    ContainsInLeft(Lower(x), Lower(w), "limit");
    assert (Lower(x) + Lower(w))[..6] == Lower(x)[..6];
  }

  /**
   * Without an appended LIMIT the gate need not be idempotent: whitespace before a
   * final semicolon survives one pass (`rstrip(";")` runs after `strip()`) and
   * is removed by the next, so the second pass returns a different text.
   */
  lemma ValidateNotIdempotent(x: string, w: string)
    requires x != [] && NoEdge(x, Whitespace) && x[|x| - 1] != ';'
    requires w != [] && forall i :: 0 <= i < |w| ==> w[i] in Whitespace
    requires StartsWith(Lower(x), "select") && !HasForbiddenKeyword(Lower(x)) && Contains(Lower(x), "limit")
    ensures Validate(x + w + ";", [], []) == Ok(x + w)
    ensures Validate(x + w, [], []) == Ok(x)
    ensures x + w != x
  {
    CleanKeepsWhitespaceBeforeSemicolon(x, w);
    ChecksIgnoreTrailingWhitespace(x, w);
    CleanDropsTrailingWhitespace(x, w);
  }

  // ---------------------------------------------------------------------------
  // Execution

  /**
   * `execute_readonly_query` with the database as the function `run`: a text
   * the gate rejects is never run and fails with the gate's message; a text it
   * accepts is run as the gate returned it.
   */
  function Execute(run: string -> Result<Rows, string>, sql: string,
                   allowedObjects: seq<string>, allowedColumns: seq<string>): (r: Result<Rows, string>)
    ensures Validate(sql, allowedObjects, allowedColumns).Err? ==>
      r == Err(GateMessage(Validate(sql, allowedObjects, allowedColumns).error))
    ensures Validate(sql, allowedObjects, allowedColumns).Ok? ==>
      var sent := Validate(sql, allowedObjects, allowedColumns).value;
      && (r.Ok? <==> run(sent).Ok?)
      && (r.Ok? ==> r.value == run(sent).value)
      && (r.Err? ==> r.error == DbErrorPrefix + run(sent).error)
  {
    match Validate(sql, allowedObjects, allowedColumns)
    case Err(e) => Err(GateMessage(e))
    case Ok(sent) =>
      match run(sent)
      case Ok(rows) => Ok(rows)
      case Err(e) => Err(DbErrorPrefix + e)
  }

  /** A text the gate rejects does not depend on the database at all. */
  lemma RejectedNeverRuns(run1: string -> Result<Rows, string>, run2: string -> Result<Rows, string>,
                          sql: string, allowedObjects: seq<string>, allowedColumns: seq<string>)
    requires Validate(sql, allowedObjects, allowedColumns).Err?
    ensures Execute(run1, sql, allowedObjects, allowedColumns) == Execute(run2, sql, allowedObjects, allowedColumns)
  {
  }

  /** What the gate guarantees of every text it lets through. */
  predicate GateShaped(s: string) {
    && StartsWith(Lower(s), "select")
    && Contains(Lower(s), "limit")
    && !HasForbiddenKeyword(Lower(s))
  }

  lemma AcceptedIsGateShaped(sql: string, allowedObjects: seq<string>, allowedColumns: seq<string>)
    requires Validate(sql, allowedObjects, allowedColumns).Ok?
    ensures GateShaped(Validate(sql, allowedObjects, allowedColumns).value)
  {
  }

  predicate AllGateShaped(xs: seq<string>) {
    forall k :: 0 <= k < |xs| ==> GateShaped(xs[k])
  }

  /** What one call hands to the database: the gate's output, or nothing when the gate rejects. */
  function Submission(sql: string, allowedObjects: seq<string>, allowedColumns: seq<string>): seq<string> {
    var gate := Validate(sql, allowedObjects, allowedColumns);
    if gate.Ok? then [gate.value] else []
  }

  /** One call of `execute_readonly_query`, as its caller made it. */
  datatype Call = Call(sql: string, allowedObjects: seq<string>, allowedColumns: seq<string>)

  /** What a sequence of calls hands to the database, in order. */
  function Submissions(calls: seq<Call>): seq<string> {
    if calls == [] then []
    else
      var last := calls[|calls| - 1];
      Submissions(calls[..|calls| - 1]) + Submission(last.sql, last.allowedObjects, last.allowedColumns)
  }

  /** Each further call adds exactly what the gate lets through to what reached the database. */
  lemma SubmissionsAppend(calls: seq<Call>, c: Call)
    ensures Submissions(calls + [c]) == Submissions(calls) + Submission(c.sql, c.allowedObjects, c.allowedColumns)
  {
    assert (calls + [c])[..|calls|] == calls;
  }

  /** What one call hands to the database has the gate's shape. */
  lemma SubmissionGateShaped(c: Call)
    ensures AllGateShaped(Submission(c.sql, c.allowedObjects, c.allowedColumns))
  {
    if Validate(c.sql, c.allowedObjects, c.allowedColumns).Ok? {
      AcceptedIsGateShaped(c.sql, c.allowedObjects, c.allowedColumns);
    }
  }

  lemma AllGateShapedConcat(xs: seq<string>, ys: seq<string>)
    requires AllGateShaped(xs) && AllGateShaped(ys)
    ensures AllGateShaped(xs + ys)
  {
    forall k | 0 <= k < |xs + ys|
      ensures GateShaped((xs + ys)[k])
    {
      if k >= |xs| {
        assert (xs + ys)[k] == ys[k - |xs|];
      }
    }
  }

  /** Nothing reaches the database that the gate has not shaped, whatever the calls. */
  lemma {:induction false} SubmissionsGateShaped(calls: seq<Call>)
    ensures AllGateShaped(Submissions(calls))
    decreases |calls|
  {
    if calls != [] {
      var init := calls[..|calls| - 1];
      var last := calls[|calls| - 1];
      SubmissionsGateShaped(init);
      SubmissionGateShaped(last);
      AllGateShapedConcat(Submissions(init), Submission(last.sql, last.allowedObjects, last.allowedColumns));
    }
  }

  /**
   * The database. `run` answers a statement; the ghost logs record every call
   * of `execute_readonly_query` and every text that reached the database.
   */
  class Database {
    const run: string -> Result<Rows, string>
    /** What `execute_readonly_query` returns for a text and the two allowlists. */
    ghost const gated: (string, seq<string>, seq<string>) -> Result<Rows, string>
    ghost var calls: seq<Call>

    /** `gated` is the gate followed by the database. */
    ghost predicate Valid() {
      forall sql, objs, cols {:trigger Execute(run, sql, objs, cols)} ::
        gated(sql, objs, cols) == Execute(run, sql, objs, cols)
    }

    /** The texts that reached the database, in order. */
    ghost function Submitted(): seq<string>
      reads this
    {
      Submissions(calls)
    }

    /** Every text that reached the database has the gate's shape. */
    lemma SubmittedGateShaped()
      ensures AllGateShaped(Submitted())
    {
      SubmissionsGateShaped(calls);
    }

    constructor (run: string -> Result<Rows, string>)
      ensures this.run == run && Valid() && calls == [] && Submitted() == []
    {
      this.run := run;
      gated := (sql, objs, cols) => Execute(run, sql, objs, cols);
      calls := [];
    }

    method ExecuteReadonlyQuery(sql: string, allowedObjects: seq<string>, allowedColumns: seq<string>)
      returns (r: Result<Rows, string>)
      requires Valid()
      modifies this
      ensures r == gated(sql, allowedObjects, allowedColumns)
      ensures calls == old(calls) + [Call(sql, allowedObjects, allowedColumns)]
    {
      calls := calls + [Call(sql, allowedObjects, allowedColumns)];
      r := Execute(run, sql, allowedObjects, allowedColumns);
    }
  }

  /** The query cache: a mapping from exact SQL text to rows, shared by reference. */
  class QueryCache {
    var entries: map<string, Rows>

    constructor ()
      ensures entries == map[]
    {
      entries := map[];
    }

    /** `cache[sql] = rows`. */
    method Put(sql: string, rows: Rows)
      modifies this
      ensures entries == old(entries)[sql := rows]
    {
      entries := entries[sql := rows];
    }
  }
}
