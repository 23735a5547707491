# A verified model of the sqlvizagent query core

sqlvizagent answers a natural-language question about a MovieLens database.

- **Routing.** A router sends chart requests to a visualisation agent, by keyword or by an LLM intent classifier. Retrievals go to a SQL agent.
- **Answering.** The chosen agent asks a language model for SQL, or for SQL plus a chart spec. The service runs that SQL through a read-only gate (`execute_readonly_query`) and keeps the rows in an optional shared cache.
- **Repair.** When the first run of a retrieval query fails, the service asks the SQL agent for one repair and runs the repaired query exactly once.

This project models that core in Dafny and proves what each piece promises:

- the gate's checks;
- the router's first-match keyword filter and its classifier fallback;
- the label-to-intent mapping;
- the orchestration of cache, execution and single repair;
- the chart-spec validation and the visualisation cache write;
- the catalog derivations that feed the gate's allowlists, and the memoised schema text;
- markdown-fence clean-up;
- the schema-embedding store's entry building, existing-key skip and retrieval text.

One module per source file:

- `Db`: `app/db.py`. The gate is the pure function `Validate`. Execution is `Execute` over an abstract database `run`. The class `Database` logs every call. The shared cache is the class `QueryCache`.
- `Router`: `app/agents/router.py`.
- `IntentClassifier`: `app/agents/intent_classifier.py`.
- `QueryService`: `app/services/query_service.py`. A class. Its SQL path is specified by the pure functions `RunSql`/`RepairRun` over an abstract `Services` record, and linked to the real state through `Snap`/`Became`.
- `VizAgent`: `app/agents/viz_agent.py`. `BuildFigure` and `PlanOf` are pure; `GenerateViz` writes to the caller's cache.
- `KnowledgeBase`: `app/agents/knowledge_base.py`. The catalog is a datatype; the knowledge base is a class with the `_schema_text` memo field.
- `SqlAgent`: `app/agents/sql_agent.py`.
- `VectorStore`: `app/vector_store.py`. `rows` is the embeddings table; `embed` and `rank` are abstract.
- `Text`, `Llm`, `Wrappers`: Python's string methods over `seq<char>`, the language-model gateway, and `Option`/`Result`.

Every external service is a function-typed constant or parameter: the language model (`Gateway`), the embedding service, the database engine, the nearest-neighbour ranking and the JSON parser of the plan. Calls into them have no side effects in the model. The database gets a ghost call log (`Database.calls`), and the SQL agent gets a log of its repairs (`SQLAgent.repairs`), so that "exactly once" and "nothing reached the database" can be stated.

The nearest-neighbour ranking stands for `ORDER BY embedding <#> :query_vec` before its `LIMIT`. A store's invariant asks that it return the stored rows in some order, none added and none lost (`VectorStore.Reorders`); the retrieval results hold for every such ranking.

The model follows the code as written. Where it differs from what the code appears to do, the difference is proved:

- **Keyword test.** `f"\b{kw}\b"` is not a raw string, so `\b` is the backspace character U+0008. The test fires only on a keyword between two backspaces; a plain `drop table` passes (`Db.PlainKeywordPasses`, `Db.BackspacedKeywordRejected`).
- **Column regex.** The pattern is a raw string holding `[\\w]` and `\\.`. Outside a character class `\\` is a literal backslash, and inside one it adds `\` to the class. So `[\\w]` matches only a backslash or the letter `w`, and a match needs a literal backslash followed by any character but a newline. Ordinary `alias.column` text yields no match, and the column step never rejects it (`Db.ColumnStepNeedsBackslash`, `Db.BackslashColumnRef`).
- **Semicolons.** `rstrip(";")` removes every trailing semicolon. The gate is idempotent when it appended the LIMIT (`Db.ValidateIdempotentWhenBounded`) or when its output is already clean (`Db.ValidateIdempotentOnClean`). It is not idempotent in general: whitespace in front of removed semicolons survives one pass (`Db.ValidateNotIdempotent`).
- **Cache keys.** The query cache is keyed by the SQL text the agent generated, not by the gate's normalised text.
- **Retrieval header.** The header separator in `get_relevant_schema` is, byte for byte, the three characters U+00E2 U+20AC U+201D: an em dash decoded in the wrong encoding. It is modelled as written (`VectorStore.HeaderDash`).

`Database` reaches the gate and the engine through its ghost constant `gated`, and `SQLAgent` reaches its repair through `repaired`. Each class's `Valid` makes these equal to `Execute` and `RepairedSql`.

Letter case is ASCII only. The whitespace that `strip()` removes is the set of ASCII characters for which Python's `isspace` holds. The router's `\b` uses ASCII letters, digits and `_` as word characters.

## Model

| member | source | states |
|---|---|---|
| `Db.Clean` | app/db.py:39 | The cleaned text neither starts with whitespace nor ends with `;`, and it is a contiguous piece of the query |
| `Db.CleanDropsAllSemicolons` | app/db.py:39 | `rstrip(";")` removes a whole run of trailing semicolons together with the whitespace after them |
| `Db.CleanKeepsWhitespaceBeforeSemicolon` | app/db.py:39 | Whitespace just before a removed final `;` stays at the end of the cleaned text |
| `Db.CleanDropsTrailingWhitespace` | app/db.py:39 | Trailing whitespace after an already clean text is exactly what cleaning removes |
| `Db.Validate` | app/db.py:39-68 | Each error occurs exactly when all earlier checks pass and its own fails, in the order SELECT, keywords, objects, columns. The LIMIT append comes before the object check. The object error lists the lower-cased allowlist. On success the result is the bounded cleaned text |
| `Db.GateWithoutAllowlists` | app/db.py:42-53 | With both allowlists empty, the gate accepts exactly the texts whose cleaned lower-cased form starts with `select` and holds no wrapped keyword, and returns the bounded text |
| `Db.SelectIsOnlyAPrefixTest` | app/db.py:42-43 | `selectx` passes as a SELECT, and its output is `selectx LIMIT 200` |
| `Db.NoBackspaceNoKeyword` | app/db.py:46-47 | Text without a U+0008 character never trips the keyword test |
| `Db.WrapAll` | app/db.py:46-47 | Each forbidden keyword as the f-string spells it, between two backspace characters |
| `Db.HasForbiddenKeyword` | app/db.py:46-47 | Some forbidden keyword, wrapped as the f-string wraps it, occurs in the lower-cased text; no contract of its own, see `NoBackspaceNoKeyword` and `BackspacedKeywordRejected` |
| `Db.PlainKeywordPasses` | app/db.py:46-48 | A query without a backspace character never gets the keyword error, whatever words it holds |
| `Db.BackspacedKeywordRejected` | app/db.py:46-48 | `select \bDROP\b` with real backspaces is rejected with the keyword error, in any letter case |
| `Db.KeywordNotInSuffix` | app/db.py:47-52 | Appending backspace-free text cannot create a wrapped keyword |
| `Db.Bounded` | app/db.py:51-53 | The text is unchanged exactly when its lower-cased form contains `limit`; otherwise ` LIMIT 200` is appended once. Either way the lower-cased result contains `limit` |
| `Db.BoundedKeepsChecks` | app/db.py:51-53 | The LIMIT append keeps the `select` prefix and adds no forbidden keyword |
| `Db.ObjectsRejected` | app/db.py:55-62 | The object step rejects exactly when the allowlist is non-empty, neither `information_schema` nor `pg_catalog` occurs, and no allowed object, lower-cased, occurs in the lower-cased text |
| `Db.IntrospectionAllowed` | app/db.py:55-59 | A query that mentions `information_schema` or `pg_catalog` passes the object step whatever the allowlist |
| `Db.UnknownColumnIn` | app/db.py:64-68 | No column is reported exactly when every match's column part, lower-cased, is allowed; a reported column is a match outside the set |
| `Db.FirstUnknown` | app/db.py:66-68 | The first reference in match order whose lower-cased text is not known, and only when there is one |
| `Db.Backtrack` | app/db.py:66 | A match found by backtracking has its literal backslash at or below the starting point, no newline after it, and a column part that matches `[a-zA-Z_][\\w]*` and ends the match, where no further backslash or `w` follows |
| `Db.MatchAt` | app/db.py:66 | A match at `i` is a first group matching `[a-zA-Z_][\\w]*` from `i`, a literal backslash, one character that is not a newline, and the reported column part, which also matches the group and ends the match |
| `Db.FindAll` | app/db.py:66 | `re.findall` from `i`: every reported column part matches `[a-zA-Z_][\\w]*` and occurs in the text from `i` on |
| `Db.ColumnRefs` | app/db.py:66 | The column parts of `re.findall` over the whole text; no contract of its own, see `FindAll` |
| `Db.NoBackslashNoColumnRefs` | app/db.py:66 | Text without a backslash has no match of the column pattern |
| `Db.BackslashColumnRef` | app/db.py:66 | `a\.b` is a match, with column part `b` |
| `Db.ColumnStepNeedsBackslash` | app/db.py:64-68 | A query without a backslash is never rejected by the column step |
| `Db.ValidateIdempotentOnClean` | app/db.py:39-68 | An accepted text that cleaning leaves alone is accepted again, unchanged |
| `Db.ValidateIdempotentWhenBounded` | app/db.py:39-68 | When the gate appended the LIMIT, validating its output again with the same allowlists returns the same text |
| `Db.ValidateNotIdempotent` | app/db.py:39-53 | `x + w + ";"` is accepted as `x + w`, which is accepted as `x`, and the two outputs differ |
| `Db.GateMessage` | app/db.py:42-68 | The `ValueError` text is never empty; the object error lists every allowed object, and the column error ends with the offending column |
| `Db.Execute` | app/db.py:39-80 | A rejected text fails with the gate's message and is not run. An accepted text is run as the gate returned it, and a database error gets the `Database execution failed: ` prefix |
| `Db.RejectedNeverRuns` | app/db.py:42-68 | For a rejected text the outcome is the same whatever the database does |
| `Db.AcceptedIsGateShaped` | app/db.py:39-68 | Every accepted output starts with `select`, contains `limit` and holds no wrapped keyword, all ignoring case |
| `Db.SubmissionsAppend` | app/db.py:39-74 | Each further call adds to what reached the database exactly what the gate lets through |
| `Db.SubmissionsGateShaped` | app/db.py:39-74 | Whatever the calls, every text that reached the database has the gate's shape |
| `Db.Database.SubmittedGateShaped` | app/db.py:39-74 | Every text this database was sent has the gate's shape |
| `Db.Database.constructor` | app/db.py:14-19 | A database with the given engine and no calls yet |
| `Db.Database.ExecuteReadonlyQuery` | app/db.py:29-80 | The result is the gate followed by the engine, and the call is appended to the log |
| `Db.QueryCache.Put` | app/services/query_service.py:62 | `cache[sql] = rows`: that one key is set and the other entries stay |
| `Router.SearchFromExists` | app/agents/router.py:43 | `re.search` finds a pattern exactly when it matches at some position |
| `Router.FirstMatchFrom` | app/agents/router.py:42-43 | The index of the first pattern that is found, with none found before it, or none found at all |
| `Router.KeywordMatch` | app/agents/router.py:39-43 | The first keyword found in the lower-cased question, and that no earlier one is found |
| `Router.Route` | app/agents/router.py:38-81 | With a keyword match, the decision is `viz_agent` with intent `visualization` and no usage, and the reason is `Matched visualization keyword: ` plus the first pattern found; otherwise the classifier's outcome decides |
| `Router.FromPrediction` | app/agents/router.py:51-81 | A failed classification gives agent and intent `unknown`, no usage and a reason starting `Intent classification failed: `. Otherwise `retrieval` goes to the SQL agent and `visualization` to the viz agent, both ways, the intent and usage are copied, and a truthy reason is kept. The reason is never empty |
| `Router.KeywordSkipsClassifier` | app/agents/router.py:42-49 | On a keyword match the decision is the same for every classifier, so the classifier plays no part |
| `Router.KeywordsIgnoreCase` | app/agents/router.py:39 | Upper-casing the question does not change which keyword matches |
| `Router.ChartShadowsLongerPatterns` | app/agents/router.py:24-33 | `\bbar chart\b` and `\bline chart\b` are never the reported pattern, because `\bchart\b` comes first |
| `Router.Shadowed` | app/agents/router.py:42-47 | A `\bw\b` pattern listed after the pattern for a word-starting suffix of `w` is never the first match |
| `Router.VisualPrefixRoutesToViz` | app/agents/router.py:28 | `visual` at a word start, such as in `visualize`, routes to the viz agent |
| `Router.FailureIsUnknown` | app/agents/router.py:51-59 | A failed classification gives agent `unknown` and intent `unknown`, never the SQL agent |
| `Router.PredictionDecides` | app/agents/router.py:61-81 | `retrieval` goes to `sql_agent` and `visualization` to `viz_agent`, both ways; the intent and usage are copied |
| `Router.ReasonNonEmpty` | app/agents/router.py:44-81 | The reason is never empty |
| `Router.ClassifierRouting` | app/agents/router.py:61-81 | Through the classifier, the viz agent is chosen exactly when the label contains `visual`, and the SQL agent exactly when it contains `retrieval` but not `visual` |
| `IntentClassifier.IntentOf` | app/agents/intent_classifier.py:82-87 | The intent is one of three values: `visualization` exactly when the label contains `visual`, `retrieval` exactly when it contains `retrieval` but not `visual`, and `other` otherwise |
| `IntentClassifier.Predict` | app/agents/intent_classifier.py:42-89 | A gateway failure propagates. Otherwise the intent comes from the stripped, lower-cased label, the reason is `LLM label: ` plus the label, and the usage is passed through |
| `IntentClassifier.PredictionIntents` | app/agents/intent_classifier.py:82-87 | Every prediction's intent is `visualization`, `retrieval` or `other` |
| `IntentClassifier.Label` | app/agents/intent_classifier.py:65 | The completion stripped, then lower-cased; its shape is stated by `LabelShape` |
| `IntentClassifier.LabelShape` | app/agents/intent_classifier.py:65 | The label has no whitespace at either end and no upper-case letter, and is no longer than the completion |
| `IntentClassifier.LabelIgnoresCase` | app/agents/intent_classifier.py:65 | The label does not depend on the completion's letter case |
| `IntentClassifier.LabelIgnoresPadding` | app/agents/intent_classifier.py:65 | The label does not depend on whitespace around the completion |
| `QueryService.NoAgentMessage` | app/services/query_service.py:77 | The error text for a decision without an agent names the intent; no contract of its own, used by `HandleQuestion` |
| `QueryService.VizResponse` | app/services/query_service.py:34-39 | The viz agent's error propagates; its result becomes the response with the decision's intent |
| `QueryService.SqlResponse` | app/services/query_service.py:73-75 | A SQL-path response has no figure and carries the decision's intent |
| `QueryService.RepairRun` | app/services/query_service.py:63-73 | One repair call, then at most one run of the repaired SQL; only that run's rows are cached |
| `QueryService.RunSql` | app/services/query_service.py:52-73 | At most one repair, and no more runs than one plus the repairs. Any cache write is of the response's own SQL and rows, and a response has no figure and the decision's intent |
| `QueryService.Lookup` | app/services/query_service.py:53-54 | The cached rows for `sql` exactly when it is a key |
| `QueryService.MissFails` | app/services/query_service.py:56-70 | A miss whose run fails is that run followed by the repair branch |
| `QueryService.CacheHitRunsNothing` | app/services/query_service.py:53-54 | A cache hit runs nothing, repairs nothing, writes nothing and answers with the cached rows |
| `QueryService.MissRunsFirst` | app/services/query_service.py:56-62 | A miss first runs `sql` with the allowlists. When that succeeds, the rows are the answer and are cached under `sql`, with no repair |
| `QueryService.RepairOnlyAfterFailure` | app/services/query_service.py:63-70 | A repair happens exactly when the first run fails, with that run's error text. There is a second run exactly when the repair succeeds, and it runs the repaired SQL with the same allowlists |
| `QueryService.RepairDecidesAnswer` | app/services/query_service.py:65-73 | After a repair, the answer is the repair's failure, or the second run's failure (nothing cached, no second repair), or the repaired SQL with its rows, cached under the repaired SQL |
| `QueryService.QueryService.constructor` | app/services/query_service.py:23-28 | The service's parts as given; the cache is empty when enabled and absent when disabled |
| `QueryService.QueryService.RunGated` | app/services/query_service.py:56-60 | One gated run with the knowledge base's allowlists, logged; the cache, the repairs and the memo are unchanged |
| `QueryService.QueryService.AskRepair` | app/services/query_service.py:65 | One `repair_sql` call, logged, answering the SQL agent's repair; the memo is set and the database and cache are untouched |
| `QueryService.QueryService.Remember` | app/services/query_service.py:61-62 | With a cache, only `cache[sql]` is written; nothing runs |
| `QueryService.QueryService.RepairAndRun` | app/services/query_service.py:63-73 | The state after the `except` branch is the state before plus `RepairRun`'s calls, repairs and cache write |
| `QueryService.QueryService.RunRepaired` | app/services/query_service.py:66-73 | Running the repaired SQL makes exactly `RepairRun`'s database calls and cache write, and leaves the repairs and the memo alone |
| `QueryService.QueryService.ExecuteSql` | app/services/query_service.py:52-73 | The `execute` branch equals `RunSql` from the cache's entry for the SQL, in response and in every state change |
| `QueryService.QueryService.RunUncached` | app/services/query_service.py:55-73 | A cache miss equals `RunSql` with no cached rows |
| `QueryService.QueryService.AnswerWithViz` | app/services/query_service.py:33-39 | The question, the `execute` flag and the shared cache go to the viz agent, and its result is the response |
| `QueryService.QueryService.AnswerGenerated` | app/services/query_service.py:42-75 | A generation failure, or `execute=False`, changes nothing and answers with the generated SQL and no rows; otherwise the `execute` branch runs |
| `QueryService.QueryService.AnswerWithSql` | app/services/query_service.py:41-75 | The SQL path: `generate_sql`, then the `execute` branch only when asked |
| `QueryService.QueryService.HandleQuestion` | app/services/query_service.py:30-77 | The router's decision picks the viz path (no repair), the SQL path, or the `No suitable agent` error with nothing generated, run, repaired or cached |
| `VizAgent.Colors` | app/agents/viz_agent.py:166-171 | One colour per row, with colour `i` equal to `PALETTE[i % 6]` |
| `VizAgent.RepeatAt` | app/agents/viz_agent.py:166 | Element `i` of the palette repeated is element `i % 6` |
| `VizAgent.Extract` | app/agents/viz_agent.py:139-143 | The column's values in row order exactly when every row has the key; otherwise the `Chart column not in result set` error for that column |
| `VizAgent.BuildFigure` | app/agents/viz_agent.py:123-152 | The errors in order: no rows, unsupported type, missing x, missing y for a non-pie chart, then a missing x column, then a missing value column |
| `VizAgent.FigureBuiltIff` | app/agents/viz_agent.py:129-152 | A figure is built exactly when the four checks pass and both columns exist in every row |
| `VizAgent.FigureContents` | app/agents/viz_agent.py:127-162 | The trace kind follows the type, the title defaults to `Visualization`, the hover mode follows the type, and the spec's columns are plotted in row order |
| `VizAgent.PieFallsBackToX` | app/agents/viz_agent.py:152 | A pie without `y` takes both labels and values from `x` |
| `VizAgent.ColorsCycle` | app/agents/viz_agent.py:165-172 | Bar and pie traces colour row `i` with `PALETTE[i % 6]`; line and scatter traces use the first two palette colours |
| `VizAgent.ChartTypeOf` | app/agents/viz_agent.py:124 | The chart type is never empty and has no upper-case letter; it is `bar` without a truthy type, and the lower-cased type otherwise |
| `VizAgent.ValueColumn` | app/agents/viz_agent.py:152 | The value column is `y` when truthy, and `x` otherwise; never empty |
| `VizAgent.TypeDefaultsToBar` | app/agents/viz_agent.py:124 | A missing or empty type means `bar` |
| `VizAgent.TypeIgnoresCase` | app/agents/viz_agent.py:124 | The type's letter case does not matter |
| `VizAgent.PlanText` | app/agents/viz_agent.py:91-110 | The cleaned answer has no whitespace at either end, and an unfenced answer is just stripped |
| `VizAgent.PlanTextIdempotent` | app/agents/viz_agent.py:108-110 | Cleaning an unfenced cleaned answer again changes nothing |
| `VizAgent.PlanOf` | app/agents/viz_agent.py:57-121 | A gateway error propagates; a parse error is reported with the `Failed to parse visualization plan: ` prefix |
| `VizAgent.PlanNeedsBothKeys` | app/agents/viz_agent.py:112-121 | A plan is accepted exactly when the answer parses to an object with both `sql` and `chart`, and it carries their values and the usage; otherwise the missing-keys error |
| `VizAgent.Finish` | app/agents/viz_agent.py:188-189 | The figure step's error propagates; a figure gives the result with the plan's SQL, the rows and the usage |
| `VizAgent.VizAgent.constructor` | app/agents/viz_agent.py:46-55 | An agent over the given knowledge base, database and gateway |
| `VizAgent.VizAgent.Plan` | app/agents/viz_agent.py:57-121 | `_plan`'s result for the question, with the schema text obtained through the memo |
| `VizAgent.VizAgent.Render` | app/agents/viz_agent.py:182-189 | A hit reuses the cached rows and runs nothing. A miss runs the plan's SQL once with no allowlists, and on success caches the rows under `plan.sql` before the figure is built. A run failure propagates with nothing cached |
| `VizAgent.VizAgent.GenerateViz` | app/agents/viz_agent.py:176-189 | A plan failure or `execute=False` runs nothing and leaves the cache as it was (empty rows and no figure for the latter); otherwise the rendering above |
| `KnowledgeBase.Dialect` | app/agents/knowledge_base.py:20-21 | The catalog's dialect, or `postgresql` |
| `KnowledgeBase.DefaultSchema` | app/agents/knowledge_base.py:24-25 | `default_schema` when truthy, else `defaultschema` when present, else `public` |
| `KnowledgeBase.DefaultSchemaNonEmpty` | app/agents/knowledge_base.py:25 | The default schema is empty only when the older key is present and empty |
| `KnowledgeBase.GetView` | app/agents/knowledge_base.py:35-39 | The first view with the given name, or none exactly when no view has it |
| `KnowledgeBase.FirstViewIndex` | app/agents/knowledge_base.py:36-38 | The index of the first entry with the name, no earlier entry having it |
| `KnowledgeBase.AllowedObjectsOf` | app/agents/knowledge_base.py:41-48 | Views first, then tables, each as lower-cased `schema.name` with the default schema; the length is the number of views plus tables |
| `KnowledgeBase.QualifiedParts` | app/agents/knowledge_base.py:45 | A qualified name is the schema (the default one when the entry names none), a dot, and the name, each recoverable from it |
| `KnowledgeBase.QualifiedNames` | app/agents/knowledge_base.py:44-47 | One lower-cased `schema.name` per entry, in order |
| `KnowledgeBase.ColumnNamesOf` | app/agents/knowledge_base.py:53-58 | One name per declared column of the entries |
| `KnowledgeBase.AllowedColumnsOf` | app/agents/knowledge_base.py:50-59 | Its length is the number of columns over all tables and views; `KnowledgeBase.AllowedColumnAt` gives each position |
| `KnowledgeBase.AllowedColumnAt` | app/agents/knowledge_base.py:50-59 | The position of each table column and each view column in `allowed_columns`, lower-cased, duplicates kept |
| `KnowledgeBase.EveryColumnAllowed` | app/agents/knowledge_base.py:50-59 | Every declared column's lower-cased name is allowed |
| `KnowledgeBase.ObjectBlock` | app/agents/knowledge_base.py:69-78 | A block opens with `kind: schema.name`, has a Description line exactly for a truthy description, one line per column, and ends with an empty line |
| `KnowledgeBase.ColumnLineParts` | app/agents/knowledge_base.py:74-77 | A column line starts with `    - `, the column's name and ` (`, and ends with the column's description |
| `KnowledgeBase.BlocksSize` | app/agents/knowledge_base.py:68-78 | Each entry's block has three or four lines besides one line per column, and the last line of the blocks is empty |
| `KnowledgeBase.SchemaLinesSize` | app/agents/knowledge_base.py:66-90 | The schema lines number three or four per table and view plus one per column, and there are none exactly when the catalog is empty |
| `KnowledgeBase.SchemaText` | app/agents/knowledge_base.py:66-92 | The schema text has no whitespace at either end |
| `KnowledgeBase.TablesBeforeViews` | app/agents/knowledge_base.py:68-90 | Every table's header line comes before every view's header line |
| `KnowledgeBase.EmptyCatalogText` | app/agents/knowledge_base.py:66-92 | An empty catalog gives the empty text |
| `KnowledgeBase.AppendBlocks` | app/agents/knowledge_base.py:68-90 | Each loop of `as_schema_text` appends exactly the blocks of its entries |
| `KnowledgeBase.AppendQualifiedNames` | app/agents/knowledge_base.py:44-47 | Each loop of `allowed_objects` appends exactly the lower-cased qualified names of its entries |
| `KnowledgeBase.AppendColumnNames` | app/agents/knowledge_base.py:53-58 | Each loop of `allowed_columns` appends exactly the lower-cased column names of its entries |
| `KnowledgeBase.KnowledgeBase.constructor` | app/agents/knowledge_base.py:9-13 | A knowledge base over the given catalog with the memo unset |
| `KnowledgeBase.KnowledgeBase.AllowedObjects` | app/agents/knowledge_base.py:41-48 | The loops return `AllowedObjectsOf` the catalog |
| `KnowledgeBase.KnowledgeBase.AllowedColumns` | app/agents/knowledge_base.py:50-59 | The loops return `AllowedColumnsOf` the catalog |
| `KnowledgeBase.KnowledgeBase.AsSchemaText` | app/agents/knowledge_base.py:61-93 | The schema text of the catalog, now in the memo; once the memo is set, every later call returns the identical string |
| `SqlAgent.SanitizeSql` | app/agents/sql_agent.py:79-98 | The SQL has no whitespace at either end, and unfenced text is just stripped |
| `SqlAgent.SanitizeFenced` | app/agents/sql_agent.py:96-98 | A fenced answer has its backtick runs removed, then every `sql\n`, then every `SQL\n`, and is stripped again |
| `SqlAgent.FenceRoundTrip` | app/agents/sql_agent.py:96-98 | A clean query wrapped in a fence tagged `sql` comes back unchanged |
| `SqlAgent.SanitizeIdempotent` | app/agents/sql_agent.py:95-98 | Sanitising an unfenced result again changes nothing |
| `SqlAgent.AllowedObjectsText` | app/agents/sql_agent.py:41 | The objects joined with `, `, or `the provided tables/views` when that join is empty |
| `SqlAgent.CatalogListed` | app/agents/sql_agent.py:41 | The fallback phrase appears exactly when the catalog has no table and no view |
| `SqlAgent.SqlPromptFor` | app/agents/sql_agent.py:39-58 | The generation prompt carries the catalog's dialect, the objects by name unless the catalog has none, and the retrieved context or the fallback phrase when nothing was retrieved |
| `SqlAgent.RepairPromptFor` | app/agents/sql_agent.py:104-121 | The repair prompt carries the dialect, the same objects text as generation, and the full schema text |
| `SqlAgent.RepairMessage` | app/agents/sql_agent.py:127 | The repair user message: question, faulty SQL and database error on three labelled lines; no contract of its own |
| `SqlAgent.SchemaContextText` | app/agents/sql_agent.py:57 | Retrieved context as it is, or the fixed fallback when empty |
| `SqlAgent.ToResult` | app/agents/sql_agent.py:79-102 | A gateway failure propagates. Otherwise the SQL is the sanitised completion, `debug_prompt` is the prompt that was sent, and the usage is passed through |
| `SqlAgent.GeneratedSql` | app/agents/sql_agent.py:60-102 | A gateway failure for the generation prompt propagates. Otherwise the SQL is the sanitised answer with no whitespace at either end, sent with the generation prompt and carrying the usage |
| `SqlAgent.RepairedSql` | app/agents/sql_agent.py:104-156 | The gateway is asked with the repair prompt and the question, faulty SQL and error. Its failure propagates; otherwise the SQL is the sanitised answer with no whitespace at either end, carrying the repair prompt and the usage |
| `SqlAgent.Retrieved` | app/agents/sql_agent.py:61-63 | No store gives no context. From a store whose ranking reorders the table, the context is empty exactly when embedding fails or the table is empty |
| `SqlAgent.SQLAgent.constructor` | app/agents/sql_agent.py:27-37 | An agent over the given knowledge base, optional store and gateway, with no repairs yet |
| `SqlAgent.SQLAgent.GenerateSql` | app/agents/sql_agent.py:60-102 | `generate_sql`'s result, consulting the store only when there is one; without a store the prompt carries the fallback context |
| `SqlAgent.SQLAgent.RepairSql` | app/agents/sql_agent.py:104-156 | `repair_sql`'s result, with the same sanitisation as generation and the full schema text obtained through the memo; the call is logged |
| `VectorStore.BuildSchemaEntry` | app/vector_store.py:25-39 | The resolved schema, name, type, description and columns, and the blob `TYPE schema.name\nDescription: d\nColumns: c` |
| `VectorStore.EntryNamesObject` | app/vector_store.py:26-31 | An entry's `schema.name` is the catalog's qualified name, and the blob opens with it |
| `VectorStore.ColumnText` | app/vector_store.py:30 | Every column's `name: description` pair occurs in the column text |
| `VectorStore.ColumnTextEmpty` | app/vector_store.py:30 | The column text is empty exactly when there are no columns |
| `VectorStore.Entries` | app/vector_store.py:101-106 | Every table, then every view, built with the knowledge base's default-schema rule |
| `VectorStore.BuildEntries` | app/vector_store.py:102-106 | The loops build exactly `Entries` |
| `VectorStore.Attempted` | app/vector_store.py:121-126 | The entries that are tried are catalog entries whose key was absent before the loop |
| `VectorStore.AttemptedKeepsMissing` | app/vector_store.py:121-126 | Every entry whose key was absent before the loop is tried, duplicates included |
| `VectorStore.SyncFrom` | app/vector_store.py:121-144 | At most one embed request per entry; a failure comes only after a request; on success the table keeps its rows in front and gains one row per request |
| `VectorStore.Sync` | app/vector_store.py:99-144 | At most one embed request per catalog entry; a failure comes only after a request; on success the old rows stay in front and one row is added per request |
| `VectorStore.SyncFromOutcome` | app/vector_store.py:123-144 | The sync commits exactly when every tried entry embeds and no tried key is repeated or already stored; it then appends one row per tried entry, in order |
| `VectorStore.SyncFromRequests` | app/vector_store.py:123-127 | Every embed request is the blob of a tried entry, in order, and on success all of them |
| `VectorStore.SyncCoversEntries` | app/vector_store.py:99-144 | After a successful sync every catalog entry's key is stored |
| `VectorStore.SyncTwice` | app/vector_store.py:121-126 | Syncing the same catalog again after success embeds nothing and changes nothing |
| `VectorStore.NewDuplicatesFail` | app/vector_store.py:121-127 | Two new entries with the same key are both tried, and the unique index makes the whole sync fail |
| `VectorStore.InsertMissing` | app/vector_store.py:123-144 | The insert loop computes `SyncFrom`'s outcome and requests, and keeps the keys unique |
| `VectorStore.VectorStore.SyncMetadata` | app/vector_store.py:99-144 | The embed requests are logged. On success the table is the synced one; on failure the table is unchanged |
| `VectorStore.RowLines` | app/vector_store.py:169-174 | A header line per row, plus a `  Columns:` line exactly when the row has columns |
| `VectorStore.HeaderDash` | app/vector_store.py:172 | The header separator as written: the three characters U+00E2 U+20AC U+201D; a constant, used by `RowLines` |
| `VectorStore.RelevantSchema` | app/vector_store.py:146-175 | A failed embedding of the question gives the empty text |
| `VectorStore.RelevantSchemaLines` | app/vector_store.py:155-175 | At most `top_k` rows are shown, giving at most `2 * top_k` lines joined by newlines |
| `VectorStore.RelevantSchemaEmpty` | app/vector_store.py:146-175 | The text is empty exactly when embedding fails or nothing is retrieved |
| `VectorStore.Take` | app/vector_store.py:160-161 | `LIMIT k` keeps the first `min(k, n)` rows of the ranking, in order |
| `VectorStore.RelevantSchemaRows` | app/vector_store.py:155-165 | With a ranking that reorders the table, exactly `min(top_k, n)` rows are shown, and each is a stored row |
| `VectorStore.RelevantSchemaEmptyExactly` | app/vector_store.py:146-175 | With a ranking that reorders the table, the text is empty exactly when embedding fails, the table is empty or `top_k` is 0 |
| `VectorStore.VectorStore.GetRelevantSchema` | app/vector_store.py:146-175 | The loop builds exactly `RelevantSchema` for the stored table |
| `Text.TrimStart` | app/db.py:39 | `lstrip(chars)` removes only characters of `chars`, all from the front, and stops at the first character outside `chars` |
| `Text.TrimEnd` | app/db.py:39 | `rstrip(chars)` removes only characters of `chars`, all from the back, and stops at the last character outside `chars` |
| `Text.Upper` | app/vector_store.py:31 | `upper()` maps each character through ASCII upper-casing, keeping the length |
| `Text.Strip` | app/db.py:39 | `strip(chars)` leaves neither end in `chars` and is a piece of its input |
| `Text.StripFence` | app/agents/sql_agent.py:96-98 | Unfenced text is unchanged; fenced text comes out with no whitespace at either end |
| `Text.Lower` | app/db.py:40 | `lower()` maps each character through ASCII lower-casing, keeping the length |
| `Text.LowerHasNoUpper` | app/db.py:40 | A lower-cased text holds no upper-case ASCII letter |
| `Text.ReplaceAll` | app/agents/sql_agent.py:98 | `replace(pat, rep)` leaves a text that does not contain the pattern unchanged |
| `Text.FindFrom` | app/agents/sql_agent.py:98 | `find(pat, i)`: the first occurrence at or after `i`, with none in between, or none at all |
| `Text.Split` | app/agents/sql_agent.py:98 | `split(pat)` always gives at least one part |
| `Text.ReplaceAllFirst` | app/agents/sql_agent.py:98 | Up to the first occurrence, `replace` copies the text; the occurrence becomes the replacement and the rest is replaced in turn |
| `Text.ReplaceAllIsJoinOfSplit` | app/agents/sql_agent.py:98 | `s.replace(pat, rep) == rep.join(s.split(pat))` |
| `Text.SplitJoinRoundTrip` | app/agents/sql_agent.py:98 | `pat.join(s.split(pat)) == s` |
| `Text.Join` | app/agents/knowledge_base.py:92 | `sep.join(parts)`: one part is itself, and more parts start with the first part and the separator |
| `Text.JoinCons` | app/agents/knowledge_base.py:92 | A part joined in front of a non-empty list is followed by the separator and the rest's join |
| `Text.JoinAppend` | app/agents/knowledge_base.py:92 | Joining one more part appends the separator and that part |
| `Text.JoinLength` | app/agents/knowledge_base.py:92 | A join of `n` parts is as long as the parts together plus `n - 1` separators |
| `Text.JoinContainsParts` | app/db.py:61 | Every part occurs in the join |

## Left out

- **External services.** The OpenAI chat and embedding clients (both client variants, usage extraction), the database engine and its connection pool, and the JSON parser of the catalog and of the plan are abstract functions. The catalog and a parsed plan are Dafny datatypes; a non-string JSON value in the plan is not modelled.
- **Prompt wording.** Prompts are recorded by the values that vary between calls (dialect, allowed-objects text, schema context or schema text, the fully qualified view); the instruction text around them is fixed and not modelled.
- **Logging** and the usage log lines in `handle_question`.
- **Plotly.** The figure is a small datatype (trace kind, columns, title, colours, hover mode); the remaining layout styling and `to_dict` are not modelled.
- **Embeddings table DDL and retry.** `ensure_extension_and_table` and the retry when the table is missing (app/vector_store.py:113-119) are not modelled. `_embedding_to_literal` and `get_all_entries` are not modelled either.
- **Unicode.** `lower`, `upper` and `isspace` are modelled for ASCII only, and so is the router's `\b`.
- **Concurrency.** Requests are handled one at a time; the shared cache has no concurrent writers in the model.
- **Construction.** The service's constructor takes its agents, database and cache setting as arguments instead of building them from settings.
- **Database errors in execution.** `execute_readonly_query` opens its connection inside the `try` that turns every SQLAlchemy error into `ValueError` (app/db.py:72-80). So a failed connection is a failed run like any other, it leads to the repair, and the model's abstract `run` covers it. A gateway error inside `generate_sql` or `repair_sql` is modelled as the error result of the gateway.
- VectorStore.RelevantSchema: a database error during retrieval (app/vector_store.py:154-165) raises out of `get_relevant_schema`; the model's `rank` is total, so retrieval never fails once the question is embedded.
- SqlAgent.SQLAgent.GenerateSql: because retrieval never fails in the model, the exception that a retrieval database error raises out of `generate_sql` is not modelled.
- VectorStore.VectorStore.GetRelevantSchema: its embed call is not added to `embedRequests`, which records only what `sync_metadata` sends.
- VizAgent.VizAgent.Render: the visualisation path passes empty allowlists where the source passes `None`; the gate treats both the same, since each check runs only for a non-empty list.
- VectorStore.RelevantSchema: `top_k` is a natural number; a negative `LIMIT` is not modelled.
