/**
 * The schema-embedding store: catalog entries turned into text blobs,
 * embedded and kept in a table with a unique (name, object type, schema)
 * index, and the retrieval that turns the nearest rows back into text.
 *
 * The embedding service is the function `embed`; the nearest-neighbour
 * ordering of the table is the function `rank`. The `LIMIT` of the query is
 * applied explicitly.
 */
module VectorStore {
  import opened Wrappers
  import opened Text
  import opened KnowledgeBase

  type Embedding = seq<real>

  /** The unique key of a stored entry. */
  datatype Key = Key(name: string, objectType: string, schemaName: string)

  /** What `_build_schema_entry` returns. */
  datatype SchemaEntry = SchemaEntry(
    schema: string, name: string, objectType: string, description: string,
    columns: seq<Column>, text: string)

  /** One row of the embeddings table. */
  datatype StoredRow = StoredRow(
    name: string, objectType: string, schemaName: string, description: string,
    columns: seq<Column>, embedding: Embedding)

  function KeyOf(e: SchemaEntry): Key {
    Key(e.name, e.objectType, e.schema)
  }

  function RowKey(r: StoredRow): Key {
    Key(r.name, r.objectType, r.schemaName)
  }

  /** The key set `{(name, object_type, schema_name) for row in rows}`. */
  function RowKeys(rows: seq<StoredRow>): (keys: set<Key>)
    ensures forall i :: 0 <= i < |rows| ==> RowKey(rows[i]) in keys
    decreases |rows|
  {
    if |rows| == 0 then {} else RowKeys(rows[..|rows| - 1]) + {RowKey(rows[|rows| - 1])}
  }

  /** Only the keys of the rows are in the key set. */
  lemma {:induction false} RowKeysOnly(rows: seq<StoredRow>, k: Key)
    requires k in RowKeys(rows)
    ensures exists i :: 0 <= i < |rows| && RowKey(rows[i]) == k
    decreases |rows|
  {
    var n := |rows|;
    if RowKey(rows[n - 1]) != k {
      RowKeysOnly(rows[..n - 1], k);
      var i :| 0 <= i < n - 1 && RowKey(rows[..n - 1][i]) == k;
      assert rows[..n - 1][i] == rows[i];
    }
  }

  lemma RowKeysAppend(table: seq<StoredRow>, r: StoredRow)
    ensures RowKeys(table + [r]) == RowKeys(table) + {RowKey(r)}
  {
    assert (table + [r])[..|table|] == table;
  }

  /** Appending rows keeps every key. */
  lemma {:induction false} RowKeysGrow(rows: seq<StoredRow>, more: seq<StoredRow>)
    ensures RowKeys(rows) <= RowKeys(rows + more)
    decreases |more|
  {
    if |more| > 0 {
      var n := |more|;
      assert rows + more == (rows + more[..n - 1]) + [more[n - 1]];
      RowKeysGrow(rows, more[..n - 1]);
      RowKeysAppend(rows + more[..n - 1], more[n - 1]);
    } else {
      assert rows + more == rows;
    }
  }

  /** `name: description` for one column, the description empty when missing. */
  function ColumnPair(c: Column): string {
    c.name + ": " + c.description.GetOr("")
  }

  /** The column pairs joined with `"; "`: every column's pair occurs in it. */
  function ColumnText(cols: seq<Column>): (r: string)
    ensures forall i :: 0 <= i < |cols| ==> Contains(r, ColumnPair(cols[i]))
  {
    var parts := seq(|cols|, i requires 0 <= i < |cols| => ColumnPair(cols[i]));
    assert forall i :: 0 <= i < |cols| ==> Contains(Join("; ", parts), ColumnPair(cols[i])) by {
      forall i | 0 <= i < |cols|
        ensures Contains(Join("; ", parts), ColumnPair(cols[i]))
      {
        JoinContainsParts("; ", parts, i);
      }
    }
    Join("; ", parts)
  }

  /** The column text is empty exactly when there are no columns: a pair always holds `": "`. */
  lemma ColumnTextEmpty(cols: seq<Column>)
    ensures ColumnText(cols) == "" <==> cols == []
  {
    var parts := seq(|cols|, i requires 0 <= i < |cols| => ColumnPair(cols[i]));
    JoinEmpty("; ", parts);
    if |cols| == 1 {
      assert |parts[0]| >= 2;
    }
  }

  /** `_build_schema_entry`: the resolved fields and the text blob that is embedded. */
  function BuildSchemaEntry(o: CatalogObject, objectType: string, defaultSchema: string): (e: SchemaEntry)
    ensures e.schema == o.schema.GetOr(defaultSchema) && e.name == o.name
    ensures e.objectType == objectType && e.description == o.description.GetOr("")
    ensures e.columns == o.columns
    ensures e.text == Upper(objectType) + " " + e.schema + "." + e.name
      + "\nDescription: " + e.description + "\nColumns: " + ColumnText(e.columns)
  {
    var schema := o.schema.GetOr(defaultSchema);
    var description := o.description.GetOr("");
    SchemaEntry(schema, o.name, objectType, description, o.columns,
      Upper(objectType) + " " + schema + "." + o.name
      + "\nDescription: " + description + "\nColumns: " + ColumnText(o.columns))
  }

  /** An entry's `schema.name` is the catalog's qualified name of its object, and the blob opens with it. */
  lemma EntryNamesObject(o: CatalogObject, objectType: string, defaultSchema: string)
    ensures var e := BuildSchemaEntry(o, objectType, defaultSchema);
      && e.schema + "." + e.name == Qualified(o, defaultSchema)
      && StartsWith(e.text, Upper(objectType) + " " + Qualified(o, defaultSchema) + "\n")
  {
    var e := BuildSchemaEntry(o, objectType, defaultSchema);
    var head := Upper(objectType) + " " + Qualified(o, defaultSchema) + "\n";
    assert e.text == head + "Description: " + e.description + "\nColumns: " + ColumnText(e.columns);
  }

  function EntriesOf(objs: seq<CatalogObject>, objectType: string, defaultSchema: string): (r: seq<SchemaEntry>)
    ensures |r| == |objs|
    ensures forall i :: 0 <= i < |objs| ==> r[i] == BuildSchemaEntry(objs[i], objectType, defaultSchema)
  {
    seq(|objs|, i requires 0 <= i < |objs| => BuildSchemaEntry(objs[i], objectType, defaultSchema))
  }

  /** The entries `sync_metadata` assembles: every table, then every view. */
  function Entries(m: Metadata): (r: seq<SchemaEntry>)
    ensures |r| == |m.tables| + |m.views|
    ensures forall i :: 0 <= i < |m.tables| ==> r[i] == BuildSchemaEntry(m.tables[i], "table", DefaultSchema(m))
    ensures forall i :: 0 <= i < |m.views| ==>
      r[|m.tables| + i] == BuildSchemaEntry(m.views[i], "view", DefaultSchema(m))
  {
    EntriesOf(m.tables, "table", DefaultSchema(m)) + EntriesOf(m.views, "view", DefaultSchema(m))
  }

  // ---------------------------------------------------------------------------
  // sync_metadata

  datatype SyncError = EmbedFailed(message: string) | DuplicateKey(key: Key)

  /** The texts sent to `embed`, and the whole new table or the error that rolled the sync back. */
  datatype SyncRun = SyncRun(requests: seq<string>, outcome: Result<seq<StoredRow>, SyncError>)

  function RowOf(e: SchemaEntry, v: Embedding): StoredRow {
    StoredRow(e.name, e.objectType, e.schema, e.description, e.columns, v)
  }

  /**
   * The insert loop from `entries` on. `existing` is the key set read before
   * the loop and never updated; `table` is the table as the open transaction
   * sees it, whose unique index refuses a second row with the same key.
   */
  function SyncFrom(entries: seq<SchemaEntry>, existing: set<Key>, table: seq<StoredRow>,
                    embed: string -> Result<Embedding, string>): (r: SyncRun)
    ensures |r.requests| <= |entries|
    ensures r.outcome.Err? ==> r.requests != []
    ensures r.outcome.Ok? ==>
      |r.outcome.value| == |table| + |r.requests| && r.outcome.value[..|table|] == table
    decreases |entries|
  {
    if |entries| == 0 then SyncRun([], Ok(table))
    else
      var e := entries[0];
      if KeyOf(e) in existing then SyncFrom(entries[1..], existing, table, embed)
      else
        match embed(e.text)
        case Err(msg) => SyncRun([e.text], Err(EmbedFailed(msg)))
        case Ok(v) =>
          if KeyOf(e) in RowKeys(table) then SyncRun([e.text], Err(DuplicateKey(KeyOf(e))))
          else
            var rest := SyncFrom(entries[1..], existing, table + [RowOf(e, v)], embed);
            SyncRun([e.text] + rest.requests, rest.outcome)
  }

  /** What `sync_metadata` does to a table holding `rows`. */
  function Sync(m: Metadata, rows: seq<StoredRow>, embed: string -> Result<Embedding, string>): (r: SyncRun)
    ensures |r.requests| <= |m.tables| + |m.views|
    ensures r.outcome.Err? ==> r.requests != []
    ensures r.outcome.Ok? ==>
      |r.outcome.value| == |rows| + |r.requests| && r.outcome.value[..|rows|] == rows
  {
    SyncFrom(Entries(m), RowKeys(rows), rows, embed)
  }

  /** The entries the loop tries to insert: those whose key was not read before the loop, in order. */
  function Attempted(entries: seq<SchemaEntry>, existing: set<Key>): (r: seq<SchemaEntry>)
    ensures |r| <= |entries|
    ensures forall i :: 0 <= i < |r| ==> r[i] in entries && KeyOf(r[i]) !in existing
    decreases |entries|
  {
    if |entries| == 0 then []
    else if KeyOf(entries[0]) in existing then Attempted(entries[1..], existing)
    else [entries[0]] + Attempted(entries[1..], existing)
  }

  lemma {:induction false} AttemptedKeepsMissing(entries: seq<SchemaEntry>, existing: set<Key>, e: SchemaEntry)
    requires e in entries && KeyOf(e) !in existing
    ensures e in Attempted(entries, existing)
    decreases |entries|
  {
    if entries[0] != e {
      assert e in entries[1..];
      AttemptedKeepsMissing(entries[1..], existing, e);
    }
  }

  /** Every entry's blob embeds. */
  predicate AllEmbed(es: seq<SchemaEntry>, embed: string -> Result<Embedding, string>)
    decreases |es|
  {
    |es| == 0 || (embed(es[0].text).Ok? && AllEmbed(es[1..], embed))
  }

  /** No entry's key is in `keys`. */
  predicate KeysOutside(es: seq<SchemaEntry>, keys: set<Key>)
    decreases |es|
  {
    |es| == 0 || (KeyOf(es[0]) !in keys && KeysOutside(es[1..], keys))
  }

  /** No two entries share a key. */
  predicate DistinctKeys(es: seq<SchemaEntry>)
    decreases |es|
  {
    |es| == 0 || (KeysOutside(es[1..], {KeyOf(es[0])}) && DistinctKeys(es[1..]))
  }

  function Texts(es: seq<SchemaEntry>): (r: seq<string>)
    ensures |r| == |es|
    decreases |es|
  {
    if |es| == 0 then [] else [es[0].text] + Texts(es[1..])
  }

  /** The rows the attempted entries become, one per entry, in order. */
  function RowsFor(es: seq<SchemaEntry>, embed: string -> Result<Embedding, string>): (r: seq<StoredRow>)
    requires AllEmbed(es, embed)
    ensures |r| == |es|
    decreases |es|
  {
    if |es| == 0 then [] else [RowOf(es[0], embed(es[0].text).value)] + RowsFor(es[1..], embed)
  }

  lemma {:induction false} RowsForAt(es: seq<SchemaEntry>, embed: string -> Result<Embedding, string>, k: nat)
    requires AllEmbed(es, embed) && k < |es|
    ensures embed(es[k].text).Ok? && RowsFor(es, embed)[k] == RowOf(es[k], embed(es[k].text).value)
    decreases |es|
  {
    if k > 0 {
      RowsForAt(es[1..], embed, k - 1);
    }
  }

  lemma {:induction false} KeysOutsideUnion(es: seq<SchemaEntry>, keys: set<Key>, k: Key)
    ensures KeysOutside(es, keys + {k}) <==> KeysOutside(es, keys) && KeysOutside(es, {k})
    decreases |es|
  {
    if |es| > 0 {
      KeysOutsideUnion(es[1..], keys, k);
    }
  }

  lemma {:induction false} KeysOutsideAt(es: seq<SchemaEntry>, keys: set<Key>, i: nat)
    requires KeysOutside(es, keys) && i < |es|
    ensures KeyOf(es[i]) !in keys
    decreases |es|
  {
    if i > 0 {
      KeysOutsideAt(es[1..], keys, i - 1);
    }
  }

  lemma {:induction false} DistinctKeysAt(es: seq<SchemaEntry>, i: nat, j: nat)
    requires DistinctKeys(es) && i < j < |es|
    ensures KeyOf(es[i]) != KeyOf(es[j])
    decreases |es|
  {
    if i > 0 {
      DistinctKeysAt(es[1..], i - 1, j - 1);
    } else {
      KeysOutsideAt(es[1..], {KeyOf(es[0])}, j - 1);
    }
  }

  /**
   * The sync commits exactly when every attempted entry embeds and no two
   * attempted entries, nor an attempted entry and a row already in the
   * table, share a key; it then appends one row per attempted entry, in order.
   */
  lemma {:induction false} SyncFromOutcome(entries: seq<SchemaEntry>, existing: set<Key>, table: seq<StoredRow>,
                                          embed: string -> Result<Embedding, string>)
    ensures var att := Attempted(entries, existing);
      && (SyncFrom(entries, existing, table, embed).outcome.Ok? <==>
            AllEmbed(att, embed) && DistinctKeys(att) && KeysOutside(att, RowKeys(table)))
      && (SyncFrom(entries, existing, table, embed).outcome.Ok? ==>
            SyncFrom(entries, existing, table, embed).outcome.value == table + RowsFor(att, embed))
    decreases |entries|
  {
    if |entries| > 0 {
      var e := entries[0];
      if KeyOf(e) in existing {
        SyncFromOutcome(entries[1..], existing, table, embed);
      } else {
        var rest := Attempted(entries[1..], existing);
        var att := [e] + rest;
        assert Attempted(entries, existing) == att;
        assert att[1..] == rest;
        if embed(e.text).Ok? && KeyOf(e) !in RowKeys(table) {
          var row := RowOf(e, embed(e.text).value);
          SyncFromOutcome(entries[1..], existing, table + [row], embed);
          RowKeysAppend(table, row);
          KeysOutsideUnion(rest, RowKeys(table), KeyOf(e));
        }
      }
    }
  }

  predicate IsPrefix(a: seq<string>, b: seq<string>) {
    |a| <= |b| && a == b[..|a|]
  }

  /** Everything sent to `embed` is the blob of an attempted entry, in order, and on success all of them. */
  lemma {:induction false} SyncFromRequests(entries: seq<SchemaEntry>, existing: set<Key>, table: seq<StoredRow>,
                                           embed: string -> Result<Embedding, string>)
    ensures IsPrefix(SyncFrom(entries, existing, table, embed).requests, Texts(Attempted(entries, existing)))
    ensures SyncFrom(entries, existing, table, embed).outcome.Ok? ==>
      SyncFrom(entries, existing, table, embed).requests == Texts(Attempted(entries, existing))
    decreases |entries|
  {
    if |entries| > 0 {
      var e := entries[0];
      if KeyOf(e) in existing {
        SyncFromRequests(entries[1..], existing, table, embed);
      } else {
        var rest := Attempted(entries[1..], existing);
        var att := [e] + rest;
        assert Attempted(entries, existing) == att;
        assert att[1..] == rest;
        if embed(e.text).Ok? && KeyOf(e) !in RowKeys(table) {
          var row := RowOf(e, embed(e.text).value);
          SyncFromRequests(entries[1..], existing, table + [row], embed);
          var req := SyncFrom(entries[1..], existing, table + [row], embed).requests;
          assert ([e.text] + Texts(rest))[..1 + |req|] == [e.text] + Texts(rest)[..|req|];
        }
      }
    }
  }

  /** Every entry's key is in the table a successful sync leaves behind. */
  lemma SyncCoversEntries(m: Metadata, rows: seq<StoredRow>, embed: string -> Result<Embedding, string>)
    requires Sync(m, rows, embed).outcome.Ok?
    ensures forall i :: 0 <= i < |Entries(m)| ==> KeyOf(Entries(m)[i]) in RowKeys(Sync(m, rows, embed).outcome.value)
  {
    var entries := Entries(m);
    var att := Attempted(entries, RowKeys(rows));
    var t := Sync(m, rows, embed).outcome.value;
    SyncFromOutcome(entries, RowKeys(rows), rows, embed);
    assert t == rows + RowsFor(att, embed);
    forall i | 0 <= i < |entries|
      ensures KeyOf(entries[i]) in RowKeys(t)
    {
      var e := entries[i];
      if KeyOf(e) in RowKeys(rows) {
        RowKeysGrow(rows, RowsFor(att, embed));
      } else {
        AttemptedKeepsMissing(entries, RowKeys(rows), e);
        var k :| 0 <= k < |att| && att[k] == e;
        RowsForAt(att, embed, k);
        assert t[|rows| + k] == RowOf(e, embed(e.text).value);
        assert RowKey(t[|rows| + k]) == KeyOf(e);
      }
    }
  }

  lemma {:induction false} SyncFromAllExisting(entries: seq<SchemaEntry>, existing: set<Key>, table: seq<StoredRow>,
                                              embed: string -> Result<Embedding, string>)
    requires forall i :: 0 <= i < |entries| ==> KeyOf(entries[i]) in existing
    ensures SyncFrom(entries, existing, table, embed) == SyncRun([], Ok(table))
    decreases |entries|
  {
    if |entries| > 0 {
      SyncFromAllExisting(entries[1..], existing, table, embed);
    }
  }

  /** Syncing the same metadata again after a successful sync embeds nothing and changes nothing. */
  lemma SyncTwice(m: Metadata, rows: seq<StoredRow>, embed: string -> Result<Embedding, string>)
    requires Sync(m, rows, embed).outcome.Ok?
    ensures var t := Sync(m, rows, embed).outcome.value;
      Sync(m, t, embed) == SyncRun([], Ok(t))
  {
    SyncCoversEntries(m, rows, embed);
    var t := Sync(m, rows, embed).outcome.value;
    SyncFromAllExisting(Entries(m), RowKeys(t), t, embed);
  }

  /** Two new catalog entries with the same key make the whole sync fail, although neither was stored. */
  lemma NewDuplicatesFail(m: Metadata, rows: seq<StoredRow>, embed: string -> Result<Embedding, string>, i: nat, j: nat)
    requires i < j < |Attempted(Entries(m), RowKeys(rows))|
    requires KeyOf(Attempted(Entries(m), RowKeys(rows))[i]) == KeyOf(Attempted(Entries(m), RowKeys(rows))[j])
    ensures Sync(m, rows, embed).outcome.Err?
  {
    SyncFromOutcome(Entries(m), RowKeys(rows), rows, embed);
    if DistinctKeys(Attempted(Entries(m), RowKeys(rows))) {
      DistinctKeysAt(Attempted(Entries(m), RowKeys(rows)), i, j);
    }
  }

  /** No two rows share a key: what the unique index guarantees. */
  predicate UniqueKeys(rows: seq<StoredRow>) {
    forall i, j :: 0 <= i < j < |rows| ==> RowKey(rows[i]) != RowKey(rows[j])
  }

  lemma UniqueKeysAppend(rows: seq<StoredRow>, r: StoredRow)
    requires UniqueKeys(rows) && RowKey(r) !in RowKeys(rows)
    ensures UniqueKeys(rows + [r])
  {
    forall i, j | 0 <= i < j < |rows + [r]|
      ensures RowKey((rows + [r])[i]) != RowKey((rows + [r])[j])
    {
      if j == |rows| {
        assert (rows + [r])[i] == rows[i];
      }
    }
  }

  // ---------------------------------------------------------------------------
  // get_relevant_schema

  /** The separator of a retrieved header line, as the source file spells it: three characters. */
  const HeaderDash: string := "\U{E2}\U{20AC}\U{201D}"

  /** The lines one retrieved row contributes: a header, and a Columns line when there is column text. */
  function RowLines(r: StoredRow): (lines: seq<string>)
    ensures |lines| == (if r.columns == [] then 1 else 2)
    ensures lines[0] == Upper(r.objectType) + " " + r.schemaName + "." + r.name + " " + HeaderDash + " " + r.description
    ensures r.columns != [] ==> lines[1] == "  Columns: " + ColumnText(r.columns)
  {
    ColumnTextEmpty(r.columns);
    [Upper(r.objectType) + " " + r.schemaName + "." + r.name + " " + HeaderDash + " " + r.description]
    + (if ColumnText(r.columns) != "" then ["  Columns: " + ColumnText(r.columns)] else [])
  }

  function LinesOf(rows: seq<StoredRow>): seq<string>
    decreases |rows|
  {
    if |rows| == 0 then [] else LinesOf(rows[..|rows| - 1]) + RowLines(rows[|rows| - 1])
  }

  /** Each row gives one or two lines. */
  lemma {:induction false} LinesOfBounds(rows: seq<StoredRow>)
    ensures |rows| <= |LinesOf(rows)| <= 2 * |rows|
    decreases |rows|
  {
    if |rows| > 0 {
      LinesOfBounds(rows[..|rows| - 1]);
    }
  }

  /** The first `k` rows of the ranking: the query's `LIMIT`. */
  function Take(rows: seq<StoredRow>, k: nat): (r: seq<StoredRow>)
    ensures |r| == (if k < |rows| then k else |rows|) && r == rows[..|r|]
    ensures |rows| <= k ==> r == rows
  {
    if |rows| <= k then rows else rows[..k]
  }

  /** What `get_relevant_schema` returns for a table holding `table`. */
  function RelevantSchema(question: string, topK: nat, table: seq<StoredRow>,
                          embed: string -> Result<Embedding, string>,
                          rank: (Embedding, seq<StoredRow>) -> seq<StoredRow>): (r: string)
    ensures embed(question).Err? ==> r == ""
  {
    match embed(question)
    case Err(_) => ""
    case Ok(v) => Join("\n", LinesOf(Take(rank(v, table), topK)))
  }

  /** At most `topK` rows are described, so the text has at most `2 * topK` lines. */
  lemma RelevantSchemaLines(question: string, topK: nat, table: seq<StoredRow>,
                            embed: string -> Result<Embedding, string>,
                            rank: (Embedding, seq<StoredRow>) -> seq<StoredRow>)
    requires embed(question).Ok?
    ensures var shown := Take(rank(embed(question).value, table), topK);
      && |shown| <= topK
      && |LinesOf(shown)| <= 2 * topK
      && RelevantSchema(question, topK, table, embed, rank) == Join("\n", LinesOf(shown))
  {
    LinesOfBounds(Take(rank(embed(question).value, table), topK));
  }

  /** Nothing retrieved, or a failed embedding, gives the empty text. */
  lemma RelevantSchemaEmpty(question: string, topK: nat, table: seq<StoredRow>,
                            embed: string -> Result<Embedding, string>,
                            rank: (Embedding, seq<StoredRow>) -> seq<StoredRow>)
    ensures RelevantSchema(question, topK, table, embed, rank) == "" <==>
      embed(question).Err? || Take(rank(embed(question).value, table), topK) == []
  {
    if embed(question).Ok? {
      var shown := Take(rank(embed(question).value, table), topK);
      LinesOfBounds(shown);
      JoinEmpty("\n", LinesOf(shown));
      if |shown| > 0 {
        var n := |shown|;
        LinesOfBounds(shown[..n - 1]);
        var last := RowLines(shown[n - 1]);
        assert |last[0]| > 0 by {
          assert |HeaderDash| == 3;
        }
        if |LinesOf(shown)| == 1 {
          assert LinesOf(shown[..n - 1]) == [];
          assert LinesOf(shown)[0] == last[0];
        }
      }
    }
  }

  /**
   * `ORDER BY embedding <#> :query_vec` orders the whole table: a ranking
   * returns the rows it is given, each as often as it was stored.
   */
  ghost predicate Reorders(rank: (Embedding, seq<StoredRow>) -> seq<StoredRow>) {
    forall v, t :: multiset(rank(v, t)) == multiset(t)
  }

  /**
   * Under a ranking that reorders the table, every described row is a stored
   * row, and exactly `min(topK, |table|)` rows are described.
   */
  lemma RelevantSchemaRows(question: string, topK: nat, table: seq<StoredRow>,
                           embed: string -> Result<Embedding, string>,
                           rank: (Embedding, seq<StoredRow>) -> seq<StoredRow>)
    requires Reorders(rank) && embed(question).Ok?
    ensures var shown := Take(rank(embed(question).value, table), topK);
      && |shown| == (if topK < |table| then topK else |table|)
      && forall r :: r in shown ==> r in table
  {
    var ranked := rank(embed(question).value, table);
    var shown := Take(ranked, topK);
    assert |ranked| == |table| by {
      assert |multiset(ranked)| == |multiset(table)|;
    }
    forall r | r in shown
      ensures r in table
    {
      assert r in ranked;
      assert r in multiset(ranked);
    }
  }

  /**
   * Under a ranking that reorders the table, the text is empty exactly when
   * embedding fails, the table is empty or `topK` is 0.
   */
  lemma RelevantSchemaEmptyExactly(question: string, topK: nat, table: seq<StoredRow>,
                                   embed: string -> Result<Embedding, string>,
                                   rank: (Embedding, seq<StoredRow>) -> seq<StoredRow>)
    requires Reorders(rank)
    ensures RelevantSchema(question, topK, table, embed, rank) == "" <==>
      embed(question).Err? || table == [] || topK == 0
  {
    RelevantSchemaEmpty(question, topK, table, embed, rank);
    if embed(question).Ok? {
      RelevantSchemaRows(question, topK, table, embed, rank);
    }
  }

  /** Assembles the entries of `sync_metadata`: every table, then every view. */
  method BuildEntries(m: Metadata) returns (entries: seq<SchemaEntry>)
    ensures entries == Entries(m)
  {
    var d := DefaultSchema(m);
    entries := [];
    var i := 0;
    while i < |m.tables|
      invariant 0 <= i <= |m.tables|
      invariant entries == EntriesOf(m.tables[..i], "table", d)
    {
      entries := entries + [BuildSchemaEntry(m.tables[i], "table", d)];
      i := i + 1;
    }
    assert m.tables[..i] == m.tables;
    i := 0;
    while i < |m.views|
      invariant 0 <= i <= |m.views|
      invariant entries == EntriesOf(m.tables, "table", d) + EntriesOf(m.views[..i], "view", d)
    {
      entries := entries + [BuildSchemaEntry(m.views[i], "view", d)];
      i := i + 1;
    }
    assert m.views[..i] == m.views;
  }

  /**
   * The insert loop of `sync_metadata` inside its transaction: the new table
   * on commit, or the error that rolled it back, and the texts sent to `embed`.
   */
  method InsertMissing(entries: seq<SchemaEntry>, existing: set<Key>, table0: seq<StoredRow>,
                       embed: string -> Result<Embedding, string>)
    returns (outcome: Result<seq<StoredRow>, SyncError>, ghost sent: seq<string>)
    requires UniqueKeys(table0)
    ensures SyncFrom(entries, existing, table0, embed) == SyncRun(sent, outcome)
    ensures outcome.Ok? ==> UniqueKeys(outcome.value)
  {
    var table := table0;
    sent := [];
    var i := 0;
    while i < |entries|
      invariant 0 <= i <= |entries|
      invariant UniqueKeys(table)
      invariant SyncFrom(entries, existing, table0, embed).requests
        == sent + SyncFrom(entries[i..], existing, table, embed).requests
      invariant SyncFrom(entries, existing, table0, embed).outcome
        == SyncFrom(entries[i..], existing, table, embed).outcome
    {
      var e := entries[i];
      assert entries[i..][1..] == entries[i + 1..];
      if KeyOf(e) !in existing {
        var v := embed(e.text);
        sent := sent + [e.text];
        if v.Err? {
          return Err(EmbedFailed(v.error)), sent;
        }
        if KeyOf(e) in RowKeys(table) {
          return Err(DuplicateKey(KeyOf(e))), sent;
        }
        assert RowKey(RowOf(e, v.value)) == KeyOf(e);
        UniqueKeysAppend(table, RowOf(e, v.value));
        table := table + [RowOf(e, v.value)];
      }
      i := i + 1;
    }
    outcome := Ok(table);
  }

  /**
   * The store. `rows` is the embeddings table; `embedRequests` records every
   * text `sync_metadata` sent to the embedding service.
   */
  class VectorStore {
    const embed: string -> Result<Embedding, string>
    const rank: (Embedding, seq<StoredRow>) -> seq<StoredRow>
    var rows: seq<StoredRow>
    ghost var embedRequests: seq<string>

    ghost predicate Valid()
      reads this
    {
      UniqueKeys(rows) && Reorders(rank)
    }

    constructor (embed: string -> Result<Embedding, string>, rank: (Embedding, seq<StoredRow>) -> seq<StoredRow>,
                 rows: seq<StoredRow>)
      requires UniqueKeys(rows) && Reorders(rank)
      ensures this.embed == embed && this.rank == rank && this.rows == rows && embedRequests == [] && Valid()
    {
      this.embed := embed;
      this.rank := rank;
      this.rows := rows;
      embedRequests := [];
    }

    /**
     * `sync_metadata`: inserts the entries whose key is not yet stored and
     * commits; any failure rolls every insert of this call back.
     */
    method SyncMetadata(m: Metadata) returns (failure: Option<SyncError>)
      requires Valid()
      modifies this
      ensures Valid()
      ensures embedRequests == old(embedRequests) + Sync(m, old(rows), embed).requests
      ensures Sync(m, old(rows), embed).outcome.Ok? ==>
        failure == None && rows == Sync(m, old(rows), embed).outcome.value
      ensures Sync(m, old(rows), embed).outcome.Err? ==>
        failure == Some(Sync(m, old(rows), embed).outcome.error) && rows == old(rows)
    {
      var entries := BuildEntries(m);
      var outcome, sent := InsertMissing(entries, RowKeys(rows), rows, embed);
      embedRequests := embedRequests + sent;
      if outcome.Err? {
        return Some(outcome.error);
      }
      rows := outcome.value;
      failure := None;
    }

    /** `get_relevant_schema`: the nearest `topK` stored rows as text, or `""` when embedding fails. */
    method GetRelevantSchema(question: string, topK: nat) returns (text: string)
      ensures text == RelevantSchema(question, topK, rows, embed, rank)
    {
      var v := embed(question);
      if v.Err? {
        return "";
      }
      var found := Take(rank(v.value, rows), topK);
      var lines: seq<string> := [];
      var i := 0;
      while i < |found|
        invariant 0 <= i <= |found|
        invariant lines == LinesOf(found[..i])
      {
        var r := found[i];
        var colText := ColumnText(r.columns);
        lines := lines + [Upper(r.objectType) + " " + r.schemaName + "." + r.name + " " + HeaderDash + " " + r.description];
        if colText != "" {
          lines := lines + ["  Columns: " + colText];
        }
        assert found[..i + 1][..i] == found[..i];
        i := i + 1;
      }
      assert found[..i] == found;
      text := Join("\n", lines);
    }
  }
}
