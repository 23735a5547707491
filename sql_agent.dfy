/**
 * The SQL generator: builds a prompt from the catalog (and, when a vector
 * store is present, the retrieved schema context), asks the language model,
 * and cleans markdown fences off the answer. The repair call does the same
 * with the full schema text, the faulty SQL and the database error.
 */
module SqlAgent {
  import opened Wrappers
  import opened Text
  import opened Llm
  import opened KnowledgeBase
  import VS = VectorStore

  /** What `generate_sql` and `repair_sql` return; `debugPrompt` is the system prompt that was sent. */
  datatype SQLResult = SQLResult(sql: string, debugPrompt: Prompt, usage: Option<Usage>)

  const ProvidedObjects: string := "the provided tables/views"
  const NoContext: string := "None retrieved; use best judgment with allowed objects only."

  /** How many schema rows `generate_sql` retrieves. */
  const TopK: nat := 5

  // ---------------------------------------------------------------------------
  // sanitation

  /** The answer stripped, and when it opens a markdown fence, the fence and its `sql`/`SQL` tags removed. */
  function SanitizeSql(content: string): (r: string)
    ensures NoEdge(r, Whitespace)
    ensures !StartsWith(Strip(content, Whitespace), Fence) ==> r == Strip(content, Whitespace)
  {
    StripFence(Strip(content, Whitespace), "sql\n", "SQL\n")
  }

  /** An answer that comes out unfenced is left as it is by a second clean-up. */
  lemma SanitizeIdempotent(content: string)
    requires !StartsWith(SanitizeSql(content), Fence)
    ensures SanitizeSql(SanitizeSql(content)) == SanitizeSql(content)
  {
    StripKeeps(SanitizeSql(content), Whitespace);
  }

  /** Removing every `pat` from `pat + rest` leaves `rest` when `rest` holds no `pat`. */
  lemma ReplaceLeading(pat: string, rest: string)
    requires |pat| > 0 && !Contains(rest, pat)
    ensures ReplaceAll(pat + rest, pat, "") == rest
  {
    var s := pat + rest;
    assert s[..|pat|] == pat && s[|pat|..] == rest;
  }

  /** Runs of `c` around a text that neither starts nor ends with `c` are stripped off exactly. */
  lemma StripRuns(f: string, x: string, c: char)
    requires forall k :: 0 <= k < |f| ==> f[k] == c
    requires |x| > 0 && x[0] != c && x[|x| - 1] != c
    ensures Strip(f + x + f, {c}) == x
  {
    StripPadding(f, x, f, {c});
    StripKeeps(x, {c});
  }

  /** Backticks around a text that neither starts nor ends with one are stripped off exactly. */
  lemma StripTicks(x: string)
    requires |x| > 0 && x[0] != '`' && x[|x| - 1] != '`'
    ensures Strip(Fence + x + Fence, {'`'}) == x
  {
    assert forall k :: 0 <= k < |Fence| ==> Fence[k] == '`';
    StripRuns(Fence, x, '`');
  }

  /** A fenced answer is cleaned by stripping its ticks, removing the tags and stripping again. */
  lemma SanitizeFenced(x: string)
    requires |x| > 0 && x[0] != '`' && x[|x| - 1] != '`'
    ensures SanitizeSql(Fence + x + Fence) == Strip(ReplaceAll(ReplaceAll(x, "sql\n", ""), "SQL\n", ""), Whitespace)
  {
    var s := Fence + x + Fence;
    assert s[0] == '`' && s[|s| - 1] == '`';
    StripKeeps(s, Whitespace);
    assert s[..3] == Fence;
    StripTicks(x);
    assert StripFence(s, "sql\n", "SQL\n")
      == Strip(ReplaceAll(ReplaceAll(Strip(s, {'`'}), "sql\n", ""), "SQL\n", ""), Whitespace);
  }

  /** A clean text followed by one whitespace character strips back to itself. */
  lemma StripTrailing(b: string, c: char)
    requires NoEdge(b, Whitespace) && c in Whitespace
    ensures Strip(b + [c], Whitespace) == b
  {
    StripPadding([], b, [c], Whitespace);
    assert [] + b + [c] == b + [c];
    StripKeeps(b, Whitespace);
  }

  /** Wrapping a query in a ```` ```sql ```` fence and cleaning it up gives the query back. */
  lemma FenceRoundTrip(b: string)
    requires NoEdge(b, Whitespace)
    requires !Contains(b + "\n", "sql\n") && !Contains(b + "\n", "SQL\n")
    ensures SanitizeSql(Fence + "sql\n" + b + "\n" + Fence) == b
  {
    var rest := b + "\n";
    var x := "sql\n" + rest;
    assert x[0] == 's' && x[|x| - 1] == '\n';
    assert Fence + "sql\n" + b + "\n" + Fence == Fence + x + Fence;
    SanitizeFenced(x);
    ReplaceLeading("sql\n", rest);
    assert ReplaceAll(rest, "SQL\n", "") == rest;
    StripTrailing(b, '\n');
  }

  // ---------------------------------------------------------------------------
  // prompt parts

  /** The allowed objects joined with `", "`, or a fixed phrase when that is empty. */
  function AllowedObjectsText(objs: seq<string>): (r: string)
    ensures r != ""
    ensures r == ProvidedObjects <==> Join(", ", objs) == "" || Join(", ", objs) == ProvidedObjects
    ensures Join(", ", objs) != "" ==> r == Join(", ", objs)
  {
    var joined := Join(", ", objs);
    if joined == "" then ProvidedObjects else joined
  }

  /** A qualified name always holds the dot between schema and name. */
  lemma QualifiedHasDot(o: CatalogObject, d: string)
    ensures '.' in Lower(Qualified(o, d))
  {
    var n := |o.schema.GetOr(d)|;
    assert Qualified(o, d)[n] == '.';
    assert Lower(Qualified(o, d))[n] == '.';
  }

  /** A catalog with at least one table or view is listed by name. */
  lemma CatalogListed(m: Metadata)
    ensures AllowedObjectsText(AllowedObjectsOf(m)) == ProvidedObjects <==> m.views == [] && m.tables == []
  {
    var objs := AllowedObjectsOf(m);
    var j := Join(", ", objs);
    JoinEmpty(", ", objs);
    assert '.' !in ProvidedObjects && ',' !in ProvidedObjects;
    if |objs| > 0 {
      var first := if |m.views| > 0 then m.views[0] else m.tables[0];
      assert objs[0] == Lower(Qualified(first, DefaultSchema(m)));
      QualifiedHasDot(first, DefaultSchema(m));
      if |objs| > 1 {
        assert StartsWith(j, objs[0] + ", ");
        assert j[|objs[0]|] == (objs[0] + ", ")[|objs[0]|] == ',';
      } else {
        assert j == objs[0];
      }
    }
  }

  /** The retrieved schema, or a fixed phrase when nothing was retrieved. */
  function SchemaContextText(relevant: string): (r: string)
    ensures r != ""
    ensures relevant != "" ==> r == relevant
  {
    if relevant == "" then NoContext else relevant
  }

  /**
   * The system prompt of `generate_sql`: the catalog's dialect, its objects by
   * name unless it has none, and the retrieved context unless nothing was retrieved.
   */
  function SqlPromptFor(m: Metadata, relevant: string): (r: Prompt)
    ensures r.SqlPrompt? && r.dialect == Dialect(m)
    ensures r.allowedObjects != "" && (r.allowedObjects == ProvidedObjects <==> m.tables == [] && m.views == [])
    ensures r.schemaContext == (if relevant == "" then NoContext else relevant)
  {
    CatalogListed(m);
    SqlPrompt(Dialect(m), AllowedObjectsText(AllowedObjectsOf(m)), SchemaContextText(relevant))
  }

  /** The system prompt of `repair_sql`: the dialect, the objects as for generation, and the full schema text. */
  function RepairPromptFor(m: Metadata): (r: Prompt)
    ensures r.RepairPrompt? && r.dialect == Dialect(m) && r.schema == SchemaText(m)
    ensures r.allowedObjects == SqlPromptFor(m, "").allowedObjects
  {
    RepairPrompt(Dialect(m), AllowedObjectsText(AllowedObjectsOf(m)), SchemaText(m))
  }

  /** The user message of `repair_sql`. */
  function RepairMessage(question: string, badSql: string, dbError: string): string {
    "Question: " + question + "\nBad SQL: " + badSql + "\nError: " + dbError
  }

  /** A completion turned into a result: the sanitised SQL, the prompt sent and the usage reported. */
  function ToResult(answer: Result<Completion, string>, prompt: Prompt): (r: Result<SQLResult, string>)
    ensures r.Ok? <==> answer.Ok?
    ensures answer.Err? ==> r.error == answer.error
    ensures answer.Ok? ==>
      r.value.sql == SanitizeSql(answer.value.content) && r.value.debugPrompt == prompt
      && r.value.usage == answer.value.usage
  {
    match answer
    case Err(e) => Err(e)
    case Ok(c) => Ok(SQLResult(SanitizeSql(c.content), prompt, c.usage))
  }

  /**
   * What `generate_sql` returns, given what retrieval gave: the gateway's
   * failure, or its answer cleaned, with the generation prompt.
   */
  function GeneratedSql(m: Metadata, relevant: string, gateway: Gateway, question: string)
    : (r: Result<SQLResult, string>)
    ensures var answer := gateway(SqlPromptFor(m, relevant), question);
      && (r.Ok? <==> answer.Ok?)
      && (answer.Err? ==> r.error == answer.error)
      && (answer.Ok? ==> r.value.sql == SanitizeSql(answer.value.content) && NoEdge(r.value.sql, Whitespace))
      && (answer.Ok? ==> r.value.debugPrompt == SqlPromptFor(m, relevant) && r.value.usage == answer.value.usage)
  {
    var prompt := SqlPromptFor(m, relevant);
    ToResult(gateway(prompt, question), prompt)
  }

  /**
   * What `repair_sql` returns: the gateway's failure, or its answer to the
   * question, the faulty SQL and the error, cleaned, with the repair prompt.
   */
  function RepairedSql(m: Metadata, gateway: Gateway, question: string, badSql: string, dbError: string)
    : (r: Result<SQLResult, string>)
    ensures var answer := gateway(RepairPromptFor(m), RepairMessage(question, badSql, dbError));
      && (r.Ok? <==> answer.Ok?)
      && (answer.Err? ==> r.error == answer.error)
      && (answer.Ok? ==> r.value.sql == SanitizeSql(answer.value.content) && NoEdge(r.value.sql, Whitespace))
      && (answer.Ok? ==> r.value.debugPrompt == RepairPromptFor(m) && r.value.usage == answer.value.usage)
  {
    var prompt := RepairPromptFor(m);
    ToResult(gateway(prompt, RepairMessage(question, badSql, dbError)), prompt)
  }

  /**
   * What the retrieval step of `generate_sql` yields: nothing when there is no
   * store, and from a store nothing exactly when embedding fails or it is empty.
   */
  function Retrieved(store: VS.VectorStore?, question: string): (r: string)
    reads store
    ensures store == null ==> r == ""
    ensures store != null && VS.Reorders(store.rank) ==>
      (r == "" <==> store.embed(question).Err? || store.rows == [])
  {
    if store == null then ""
    else
      var r := VS.RelevantSchema(question, TopK, store.rows, store.embed, store.rank);
      assert VS.Reorders(store.rank) ==> (r == "" <==> store.embed(question).Err? || store.rows == []) by {
        if VS.Reorders(store.rank) {
          VS.RelevantSchemaEmptyExactly(question, TopK, store.rows, store.embed, store.rank);
        }
      }
      r
  }

  /** One `repair_sql` call, as the caller made it. */
  datatype RepairCall = RepairCall(question: string, badSql: string, dbError: string)

  /**
   * The agent. `repairs` records every call of `repair_sql`; the knowledge
   * base is the one whose schema-text memo a repair may fill.
   */
  class SQLAgent {
    const kb: KnowledgeBase
    const store: VS.VectorStore?
    const gateway: Gateway
    /** What `repair_sql` returns for a question, the faulty SQL and the error message. */
    ghost const repaired: (string, string, string) -> Result<SQLResult, string>
    ghost var repairs: seq<RepairCall>

    /** The knowledge base's memo is sound, and `repaired` is the agent's repair. */
    ghost predicate Valid()
      reads this, kb
    {
      && kb.Valid()
      && forall question, badSql, dbError {:trigger RepairedSql(kb.data, gateway, question, badSql, dbError)} ::
           repaired(question, badSql, dbError) == RepairedSql(kb.data, gateway, question, badSql, dbError)
    }

    constructor (kb: KnowledgeBase, store: VS.VectorStore?, gateway: Gateway)
      requires kb.Valid()
      ensures this.kb == kb && this.store == store && this.gateway == gateway
      ensures repairs == [] && Valid()
    {
      this.kb := kb;
      this.store := store;
      this.gateway := gateway;
      repaired := (question, badSql, dbError) => RepairedSql(kb.data, gateway, question, badSql, dbError);
      repairs := [];
    }

    /** `generate_sql`: consults the store only when there is one. */
    method GenerateSql(question: string) returns (r: Result<SQLResult, string>)
      ensures r == GeneratedSql(kb.data, Retrieved(store, question), gateway, question)
      ensures r.Ok? && store == null ==> r.value.debugPrompt.schemaContext == NoContext
    {
      var relevant := "";
      if store != null {
        relevant := store.GetRelevantSchema(question, TopK);
      }
      var objs := kb.AllowedObjects();
      var prompt := SqlPrompt(Dialect(kb.data), AllowedObjectsText(objs), SchemaContextText(relevant));
      var answer := gateway(prompt, question);
      r := ToResult(answer, prompt);
    }

    /** `repair_sql`: asks again with the full schema text, the faulty SQL and the error. */
    method RepairSql(question: string, badSql: string, dbError: string) returns (r: Result<SQLResult, string>)
      requires Valid()
      modifies this, kb
      ensures Valid()
      ensures r == repaired(question, badSql, dbError)
      ensures repairs == old(repairs) + [RepairCall(question, badSql, dbError)]
      ensures kb.schemaText == Some(SchemaText(kb.data))
    {
      repairs := repairs + [RepairCall(question, badSql, dbError)];
      var schema := kb.AsSchemaText();
      var objs := kb.AllowedObjects();
      var prompt := RepairPrompt(Dialect(kb.data), AllowedObjectsText(objs), schema);
      var answer := gateway(prompt, RepairMessage(question, badSql, dbError));
      r := ToResult(answer, prompt);
      assert r == RepairedSql(kb.data, gateway, question, badSql, dbError);
    }
  }
}
