/**
 * The query service: routes a question, hands it to the visualisation agent
 * or to the SQL agent, runs the SQL agent's query through the gate (or takes
 * its rows from the shared cache), and on a failed run asks for one repair and
 * runs the repaired query once.
 *
 * The cache is `null` when caching is switched off. Requests are handled one
 * at a time.
 */
module QueryService {
  import opened Wrappers
  import opened Llm
  import opened Db
  import opened KnowledgeBase
  import opened SqlAgent
  import opened VizAgent
  import opened Router

  datatype QueryResponse = QueryResponse(sql: string, rows: Rows, figure: Option<Figure>, intent: Option<string>)

  function NoAgentMessage(intent: string): string {
    "No suitable agent for intent '" + intent + "'."
  }

  /** The visualisation agent's outcome as the service's response. */
  function VizResponse(v: Result<VisualizationResult, string>, intent: string): (r: Result<QueryResponse, string>)
    ensures r.Ok? <==> v.Ok?
    ensures v.Err? ==> r.error == v.error
    ensures v.Ok? ==> r.value == QueryResponse(v.value.sql, v.value.rows, v.value.figure, Some(intent))
  {
    match v
    case Err(e) => Err(e)
    case Ok(x) => Ok(QueryResponse(x.sql, x.rows, x.figure, Some(intent)))
  }

  /** A response of the SQL path: never a figure. */
  function SqlResponse(sql: string, rows: Rows, intent: string): (r: QueryResponse)
    ensures r.sql == sql && r.rows == rows && r.figure.None? && r.intent == Some(intent)
  {
    QueryResponse(sql, rows, None, Some(intent))
  }

  /**
   * The effects of running the SQL path's query: the response, the calls made
   * to `execute_readonly_query`, the calls made to `repair_sql`, and the one
   * cache entry written, if any.
   */
  datatype Outcome = Outcome(response: Result<QueryResponse, string>, calls: seq<Call>, repairs: seq<RepairCall>,
                             write: Option<(string, Rows)>)

  /** The cache after an outcome's write. */
  function Written(entries: map<string, Rows>, write: Option<(string, Rows)>): map<string, Rows> {
    match write
    case None => entries
    case Some(w) => entries[w.0 := w.1]
  }

  /**
   * What the SQL path works with: the allowlists passed to the gate, `exec`
   * for a call of `execute_readonly_query` with them, and `repair` for a call
   * of `repair_sql` on the faulty SQL and the error message.
   */
  datatype Services = Services(objs: seq<string>, cols: seq<string>,
                               exec: string -> Result<Rows, string>,
                               repair: (string, string) -> Result<SQLResult, string>)

  /** The repair branch: one `repair_sql`, then one run of the repaired SQL with the same allowlists. */
  function RepairRun(env: Services, question: string, sql: string, dbError: string, intent: string): (o: Outcome)
    ensures o.repairs == [RepairCall(question, sql, dbError)]
    ensures |o.calls| <= 1
    ensures o.write.Some? ==> o.response.Ok? && o.write.value == (o.response.value.sql, o.response.value.rows)
  {
    var repair := [RepairCall(question, sql, dbError)];
    match env.repair(sql, dbError)
    case Err(e) => Outcome(Err(e), [], repair, None)
    case Ok(fix) =>
      var call := [Call(fix.sql, env.objs, env.cols)];
      match env.exec(fix.sql)
      case Err(e) => Outcome(Err(e), call, repair, None)
      case Ok(rows) => Outcome(Ok(SqlResponse(fix.sql, rows, intent)), call, repair, Some((fix.sql, rows)))
  }

  /**
   * The `execute` branch of the SQL path for the generated `sql`, where
   * `cached` is the cache's entry for it: the cached rows, or a run whose
   * failure leads to the repair branch.
   */
  function RunSql(env: Services, question: string, sql: string, intent: string, cached: Option<Rows>): (o: Outcome)
    ensures |o.repairs| <= 1 && |o.calls| <= 1 + |o.repairs|
    ensures o.write.Some? ==> o.response.Ok? && o.write.value == (o.response.value.sql, o.response.value.rows)
    ensures o.response.Ok? ==> o.response.value.figure.None? && o.response.value.intent == Some(intent)
  {
    if cached.Some? then Outcome(Ok(SqlResponse(sql, cached.value, intent)), [], [], None)
    else
      var call := Call(sql, env.objs, env.cols);
      match env.exec(sql)
      case Ok(rows) => Outcome(Ok(SqlResponse(sql, rows, intent)), [call], [], Some((sql, rows)))
      case Err(e) =>
        var rr := RepairRun(env, question, sql, e, intent);
        rr.(calls := [call] + rr.calls)
  }

  /** The rows `entries` holds for `sql`, if any. */
  function Lookup(entries: map<string, Rows>, sql: string): (r: Option<Rows>)
    ensures r.Some? <==> sql in entries
    ensures r.Some? ==> r.value == entries[sql]
  {
    if sql in entries then Some(entries[sql]) else None
  }

  /** Regrouping a concatenation; stated once so that `RunUncached` needs no extensional proof in its large context. */
  lemma SeqAssoc<T>(a: seq<T>, b: seq<T>, c: seq<T>)
    ensures a + b + c == a + (b + c)
  {
  }

  /** A miss whose run fails: that run, then the repair branch. */
  lemma MissFails(env: Services, question: string, sql: string, intent: string)
    requires env.exec(sql).Err?
    ensures var rr := RepairRun(env, question, sql, env.exec(sql).error, intent);
      RunSql(env, question, sql, intent, None)
        == Outcome(rr.response, [Call(sql, env.objs, env.cols)] + rr.calls, rr.repairs, rr.write)
  {
  }

  /**
   * What handling a question can change: the calls made to
   * `execute_readonly_query` and to `repair_sql`, the cache's entries (none
   * when the cache is off) and the knowledge base's schema-text memo.
   */
  datatype Snapshot = Snapshot(calls: seq<Call>, entries: map<string, Rows>, repairs: seq<RepairCall>,
                               schemaText: Option<string>)

  /** A cache hit runs nothing, repairs nothing, writes nothing and answers with the cached rows. */
  lemma CacheHitRunsNothing(env: Services, question: string, sql: string, intent: string, rows: Rows)
    ensures var o := RunSql(env, question, sql, intent, Some(rows));
      o.calls == [] && o.repairs == [] && o.write.None? && o.response == Ok(SqlResponse(sql, rows, intent))
  {
  }

  /** A miss runs `sql` first, with the allowlists, and caches its rows when it succeeds. */
  lemma MissRunsFirst(env: Services, question: string, sql: string, intent: string)
    ensures var o := RunSql(env, question, sql, intent, None);
      && |o.calls| >= 1 && o.calls[0] == Call(sql, env.objs, env.cols)
      && (env.exec(sql).Ok? ==>
            && o.response == Ok(SqlResponse(sql, env.exec(sql).value, intent))
            && o.write == Some((sql, env.exec(sql).value))
            && o.repairs == [] && |o.calls| == 1)
  {
  }

  /**
   * A repair happens exactly when the first run fails, it carries that
   * run's error message, and the one further run is of the repaired SQL,
   * with the same allowlists.
   */
  lemma RepairOnlyAfterFailure(env: Services, question: string, sql: string, intent: string, cached: Option<Rows>)
    ensures var o := RunSql(env, question, sql, intent, cached);
      && (o.repairs != [] <==> cached.None? && env.exec(sql).Err?)
      && (o.repairs != [] ==>
            var fix := env.repair(sql, env.exec(sql).error);
            && o.repairs == [RepairCall(question, sql, env.exec(sql).error)]
            && (|o.calls| == 2 <==> fix.Ok?)
            && (fix.Ok? ==> o.calls[1] == Call(fix.value.sql, env.objs, env.cols)))
  {
  }

  /** After a repair the answer is the repaired SQL's, or the failure of the repair or of its run: there is no second repair. */
  lemma RepairDecidesAnswer(env: Services, question: string, sql: string, intent: string)
    requires env.exec(sql).Err?
    ensures var o := RunSql(env, question, sql, intent, None);
      var fix := env.repair(sql, env.exec(sql).error);
      && (fix.Err? ==> o.response == Err(fix.error) && o.write.None?)
      && (fix.Ok? ==>
            var second := env.exec(fix.value.sql);
            && (second.Err? ==> o.response == Err(second.error) && o.write.None?)
            && (second.Ok? ==> o.response == Ok(SqlResponse(fix.value.sql, second.value, intent))
                                && o.write == Some((fix.value.sql, second.value))))
  {
  }

  class QueryService {
    const kb: KnowledgeBase
    const db: Database
    /** The router's classifier model. */
    const classifier: Gateway
    const sqlAgent: SQLAgent
    const vizAgent: VizAgent
    const cache: QueryCache?

    /**
     * Both agents work on the service's knowledge base, and the visualisation
     * agent on its database; the SQL agent's repair and the database's gated
     * run are the ones they compute.
     */
    ghost predicate Valid()
      reads this, kb, sqlAgent, vizAgent
    {
      && sqlAgent.kb == kb && vizAgent.kb == kb && vizAgent.db == db
      && sqlAgent.Valid() && db.Valid()
    }

    constructor (kb: KnowledgeBase, db: Database, classifier: Gateway, sqlAgent: SQLAgent, vizAgent: VizAgent,
                 enableCache: bool)
      requires sqlAgent.Valid() && db.Valid()
      requires sqlAgent.kb == kb && vizAgent.kb == kb && vizAgent.db == db
      ensures this.kb == kb && this.db == db && this.classifier == classifier
      ensures this.sqlAgent == sqlAgent && this.vizAgent == vizAgent && Valid()
      ensures enableCache <==> cache != null
      ensures cache != null ==> fresh(cache) && cache.entries == map[]
    {
      this.kb := kb;
      this.db := db;
      this.classifier := classifier;
      this.sqlAgent := sqlAgent;
      this.vizAgent := vizAgent;
      if enableCache {
        var c := new QueryCache();
        cache := c;
      } else {
        cache := null;
      }
    }

    /** The part of the state that handling a question can change. */
    ghost function Snap(): Snapshot
      reads this, kb, db, cache, sqlAgent
    {
      Snapshot(db.calls, if cache != null then cache.entries else map[], sqlAgent.repairs, kb.schemaText)
    }

    /**
     * The state is `s` after outcome `o`: its calls and repairs appended, its
     * write in the cache when there is one, and the memo filled when it repaired.
     */
    ghost predicate Became(s: Snapshot, o: Outcome)
      reads this, kb, db, cache, sqlAgent
    {
      && db.calls == s.calls + o.calls
      && sqlAgent.repairs == s.repairs + o.repairs
      && (cache != null ==> cache.entries == Written(s.entries, o.write))
      && kb.schemaText == (if o.repairs == [] then s.schemaText else Some(SchemaText(kb.data)))
    }

    /** The gate with the knowledge base's allowlists, and the SQL agent's repair, for `question`. */
    ghost function Env(question: string): Services {
      Services(AllowedObjectsOf(kb.data), AllowedColumnsOf(kb.data), sql => Run(sql),
               (badSql, dbError) => Repaired(question, badSql, dbError))
    }

    /** A run of `sql` with the knowledge base's allowlists. */
    ghost function Run(sql: string): Result<Rows, string> {
      db.gated(sql, AllowedObjectsOf(kb.data), AllowedColumnsOf(kb.data))
    }

    /** The SQL agent's `repair_sql` for `question`. */
    ghost function Repaired(question: string, badSql: string, dbError: string): Result<SQLResult, string> {
      sqlAgent.repaired(question, badSql, dbError)
    }

    /** The `execute` branch for the generated `sql`, from state `s`, answered `r`. */
    ghost predicate Ran(question: string, sql: string, intent: string, r: Result<QueryResponse, string>, s: Snapshot)
      reads this, kb, db, cache, sqlAgent
    {
      var o := RunSql(Env(question), question, sql, intent, Lookup(s.entries, sql));
      r == o.response && Became(s, o)
    }

    /** The SQL path from state `s` once the agent has answered `g`: nothing changes unless the query runs. */
    ghost predicate AnsweredFrom(question: string, execute: bool, intent: string, g: Result<SQLResult, string>,
                                 r: Result<QueryResponse, string>, s: Snapshot)
      reads this, kb, db, cache, sqlAgent
    {
      if g.Err? then r == Err(g.error) && Snap() == s
      else if !execute then r == Ok(SqlResponse(g.value.sql, [], intent)) && Snap() == s
      else Ran(question, g.value.sql, intent, r, s)
    }

    /** The SQL path: generate, and run only when asked to. */
    twostate predicate SqlAnswered(question: string, execute: bool, intent: string, new r: Result<QueryResponse, string>)
      reads this, kb, db, cache, sqlAgent, sqlAgent.store
    {
      AnsweredFrom(question, execute, intent,
                   old(GeneratedSql(kb.data, Retrieved(sqlAgent.store, question), sqlAgent.gateway, question)),
                   r, old(Snap()))
    }

    /** `execute_readonly_query` with the knowledge base's allowlists. */
    method RunGated(sql: string) returns (e: Result<Rows, string>)
      requires Valid()
      modifies db
      ensures Valid()
      ensures e == Run(sql)
      ensures db.calls == old(db.calls) + [Call(sql, AllowedObjectsOf(kb.data), AllowedColumnsOf(kb.data))]
      ensures EntriesOf(cache) == old(EntriesOf(cache))
      ensures sqlAgent.repairs == old(sqlAgent.repairs) && kb.schemaText == old(kb.schemaText)
    {
      var objs := kb.AllowedObjects();
      var cols := kb.AllowedColumns();
      e := db.ExecuteReadonlyQuery(sql, objs, cols);
    }

    /** The SQL agent's `repair_sql`. */
    method AskRepair(question: string, badSql: string, dbError: string) returns (fix: Result<SQLResult, string>)
      requires Valid()
      modifies kb, sqlAgent
      ensures Valid()
      ensures fix == Repaired(question, badSql, dbError)
      ensures sqlAgent.repairs == old(sqlAgent.repairs) + [RepairCall(question, badSql, dbError)]
      ensures kb.schemaText == Some(SchemaText(kb.data))
      ensures db.calls == old(db.calls) && EntriesOf(cache) == old(EntriesOf(cache))
    {
      fix := sqlAgent.RepairSql(question, badSql, dbError);
    }

    /** `self.cache[sql] = rows`, when there is a cache. */
    method Remember(sql: string, rows: Rows)
      requires Valid()
      modifies cache
      ensures Valid()
      ensures cache != null ==> cache.entries == old(cache.entries)[sql := rows]
      ensures db.calls == old(db.calls)
      ensures sqlAgent.repairs == old(sqlAgent.repairs) && kb.schemaText == old(kb.schemaText)
    {
      if cache != null {
        cache.Put(sql, rows);
      }
    }

    /** The `except ValueError` branch. */
    method RepairAndRun(question: string, sql: string, dbError: string, intent: string)
      returns (r: Result<QueryResponse, string>)
      requires Valid()
      modifies kb, db, cache, sqlAgent
      ensures Valid()
      ensures var o := RepairRun(Env(question), question, sql, dbError, intent);
        r == o.response && Became(old(Snap()), o)
    {
      var fix := AskRepair(question, sql, dbError);
      if fix.Err? {
        assert RepairRun(Env(question), question, sql, dbError, intent)
          == Outcome(Err(fix.error), [], [RepairCall(question, sql, dbError)], None);
        return Err(fix.error);
      }
      r := RunRepaired(question, sql, dbError, intent, fix.value);
    }

    /** The repaired SQL's single run, once `repair_sql` has answered `fix`. */
    method RunRepaired(question: string, sql: string, dbError: string, intent: string, fix: SQLResult)
      returns (r: Result<QueryResponse, string>)
      requires Valid() && Repaired(question, sql, dbError) == Ok(fix)
      modifies db, cache
      ensures Valid()
      ensures var o := RepairRun(Env(question), question, sql, dbError, intent);
        && r == o.response
        && db.calls == old(db.calls) + o.calls
        && (cache != null ==> cache.entries == Written(old(cache.entries), o.write))
      ensures sqlAgent.repairs == old(sqlAgent.repairs) && kb.schemaText == old(kb.schemaText)
    {
      var second := RunGated(fix.sql);
      if second.Err? {
        return Err(second.error);
      }
      Remember(fix.sql, second.value);
      r := Ok(SqlResponse(fix.sql, second.value, intent));
    }

    /** The `execute` branch of the SQL path: cache, run, and on failure the single repair. */
    method ExecuteSql(question: string, sql: string, intent: string) returns (r: Result<QueryResponse, string>)
      requires Valid()
      modifies kb, db, cache, sqlAgent
      ensures Valid()
      ensures Ran(question, sql, intent, r, old(Snap()))
    {
      if cache != null && sql in cache.entries {
        return Ok(SqlResponse(sql, cache.entries[sql], intent));
      }
      r := RunUncached(question, sql, intent);
    }

    /** A cache miss: run `sql`, cache its rows, and on failure the single repair. */
    method RunUncached(question: string, sql: string, intent: string) returns (r: Result<QueryResponse, string>)
      requires Valid() && sql !in Snap().entries
      modifies kb, db, cache, sqlAgent
      ensures Valid()
      ensures Ran(question, sql, intent, r, old(Snap()))
    {
      var first := RunGated(sql);
      if first.Ok? {
        Remember(sql, first.value);
        return Ok(SqlResponse(sql, first.value, intent));
      }
      MissFails(Env(question), question, sql, intent);
      r := RepairAndRun(question, sql, first.error, intent);
      ghost var rr := RepairRun(Env(question), question, sql, first.error, intent);
      SeqAssoc(old(db.calls), [Call(sql, AllowedObjectsOf(kb.data), AllowedColumnsOf(kb.data))], rr.calls);
    }

    /** The visualisation path of `handle_question`. */
    method AnswerWithViz(question: string, execute: bool, intent: string)
      returns (r: Result<QueryResponse, string>, ghost viz: Result<VisualizationResult, string>)
      requires Valid()
      modifies kb, db, cache
      ensures Valid()
      ensures vizAgent.Generated(question, execute, cache, viz) && r == VizResponse(viz, intent)
    {
      var v := vizAgent.GenerateViz(question, execute, cache);
      viz := v;
      r := VizResponse(v, intent);
    }

    /** The SQL path of `handle_question`. */
    method AnswerWithSql(question: string, execute: bool, intent: string) returns (r: Result<QueryResponse, string>)
      requires Valid()
      modifies kb, db, cache, sqlAgent
      ensures Valid()
      ensures SqlAnswered(question, execute, intent, r)
    {
      var g := sqlAgent.GenerateSql(question);
      r := AnswerGenerated(question, execute, intent, g);
    }

    /** The SQL path after `generate_sql`: stop on its failure or without `execute`, otherwise run. */
    method AnswerGenerated(question: string, execute: bool, intent: string, g: Result<SQLResult, string>)
      returns (r: Result<QueryResponse, string>)
      requires Valid()
      modifies kb, db, cache, sqlAgent
      ensures Valid()
      ensures AnsweredFrom(question, execute, intent, g, r, old(Snap()))
    {
      if g.Err? {
        return Err(g.error);
      }
      if !execute {
        return Ok(SqlResponse(g.value.sql, [], intent));
      }
      r := ExecuteSql(question, g.value.sql, intent);
    }

    /**
     * `handle_question`. `viz` is what the visualisation agent returned, when
     * the question went there.
     */
    method HandleQuestion(question: string, execute: bool) returns (r: Result<QueryResponse, string>,
                                                                     ghost viz: Result<VisualizationResult, string>)
      requires Valid()
      modifies kb, db, cache, sqlAgent
      ensures Valid()
      ensures var d := Route(question, classifier);
        && (d.agent == VizAgentName ==>
              vizAgent.Generated(question, execute, cache, viz) && r == VizResponse(viz, d.intent)
              && sqlAgent.repairs == old(sqlAgent.repairs))
        && (d.agent == SqlAgentName ==> SqlAnswered(question, execute, d.intent, r))
        && (d.agent == UnknownAgent ==> r == Err(NoAgentMessage(d.intent)) && Snap() == old(Snap()))
    {
      var d := Route(question, classifier);
      viz := Err("");
      if d.agent == VizAgentName {
        r, viz := AnswerWithViz(question, execute, d.intent);
      } else if d.agent == SqlAgentName {
        r := AnswerWithSql(question, execute, d.intent);
      } else {
        r := Err(NoAgentMessage(d.intent));
      }
    }
  }
}
