/**
 * The schema catalog: the metadata document describing the tables and views
 * the agents may use, and the derivations built from it (the gate's
 * allowlists and the schema text given to the language model).
 *
 * The metadata arrives already parsed. A JSON key that is absent is `None`
 * (or `[]` for the lists); a `null` value is not modelled.
 */
module KnowledgeBase {
  import opened Wrappers
  import opened Text

  datatype Column = Column(name: string, colType: Option<string>, description: Option<string>)

  /** A table or view entry of the catalog. */
  datatype CatalogObject =
    CatalogObject(schema: Option<string>, name: string, description: Option<string>, columns: seq<Column>)

  /** The metadata document: `default_schema` and the older spelling `defaultschema` are both read. */
  datatype Metadata = Metadata(
    dialect: Option<string>,
    defaultSchema: Option<string>,
    defaultschema: Option<string>,
    views: seq<CatalogObject>,
    tables: seq<CatalogObject>)

  function Dialect(m: Metadata): (r: string)
    ensures m.dialect.None? ==> r == "postgresql"
    ensures m.dialect.Some? ==> r == m.dialect.value
  {
    m.dialect.GetOr("postgresql")
  }

  /** `default_schema` when it is truthy, otherwise `defaultschema`, otherwise `public`. */
  function DefaultSchema(m: Metadata): (r: string)
    ensures Truthy(m.defaultSchema) ==> r == m.defaultSchema.value
    ensures !Truthy(m.defaultSchema) && m.defaultschema.Some? ==> r == m.defaultschema.value
    ensures !Truthy(m.defaultSchema) && m.defaultschema.None? ==> r == "public"
  {
    OrElse(m.defaultSchema, m.defaultschema.GetOr("public"))
  }

  /** The default schema is empty only when the older key is present and empty. */
  lemma DefaultSchemaNonEmpty(m: Metadata)
    ensures DefaultSchema(m) == "" <==> !Truthy(m.defaultSchema) && m.defaultschema == Some("")
  {
  }

  /** `get_view`: the first view with the given name. */
  function GetView(m: Metadata, name: string): (r: Option<CatalogObject>)
    ensures r.None? <==> forall i :: 0 <= i < |m.views| ==> m.views[i].name != name
    ensures r.Some? ==> r.value.name == name && r == Some(m.views[FirstViewIndex(m.views, name)])
  {
    FirstView(m.views, name)
  }

  /** The index of the first entry called `name`, or `|objs|` when there is none. */
  function FirstViewIndex(objs: seq<CatalogObject>, name: string): (i: nat)
    ensures i <= |objs|
    ensures forall j :: 0 <= j < i ==> objs[j].name != name
    ensures i < |objs| ==> objs[i].name == name
    decreases |objs|
  {
    if |objs| == 0 then 0
    else if objs[0].name == name then 0
    else 1 + FirstViewIndex(objs[1..], name)
  }

  function FirstView(objs: seq<CatalogObject>, name: string): (r: Option<CatalogObject>)
    ensures r.None? <==> FirstViewIndex(objs, name) == |objs|
    ensures r.Some? ==> r == Some(objs[FirstViewIndex(objs, name)])
    decreases |objs|
  {
    if |objs| == 0 then None
    else if objs[0].name == name then Some(objs[0])
    else FirstView(objs[1..], name)
  }

  // ---------------------------------------------------------------------------
  // allowlists

  /** `schema.name`, with the default schema when the entry names none. */
  function Qualified(o: CatalogObject, defaultSchema: string): string {
    o.schema.GetOr(defaultSchema) + "." + o.name
  }

  /** A qualified name is the schema, a dot and the name, each recoverable from it. */
  lemma QualifiedParts(o: CatalogObject, defaultSchema: string)
    ensures var schema, r := o.schema.GetOr(defaultSchema), Qualified(o, defaultSchema);
      && |r| == |schema| + 1 + |o.name|
      && r[..|schema|] == schema && r[|schema|] == '.' && r[|schema| + 1..] == o.name
  {
    var schema, r := o.schema.GetOr(defaultSchema), Qualified(o, defaultSchema);
    assert r[..|schema|] == schema;
    assert r[|schema| + 1..] == o.name;
  }

  function QualifiedNames(objs: seq<CatalogObject>, defaultSchema: string): (r: seq<string>)
    ensures |r| == |objs|
    ensures forall i :: 0 <= i < |objs| ==> r[i] == Lower(Qualified(objs[i], defaultSchema))
  {
    seq(|objs|, i requires 0 <= i < |objs| => Lower(Qualified(objs[i], defaultSchema)))
  }

  /** What `allowed_objects` returns: every view, then every table, as lower-cased `schema.name`. */
  function AllowedObjectsOf(m: Metadata): (r: seq<string>)
    ensures |r| == |m.views| + |m.tables|
    ensures forall i :: 0 <= i < |m.views| ==> r[i] == Lower(Qualified(m.views[i], DefaultSchema(m)))
    ensures forall i :: 0 <= i < |m.tables| ==>
      r[|m.views| + i] == Lower(Qualified(m.tables[i], DefaultSchema(m)))
  {
    QualifiedNames(m.views, DefaultSchema(m)) + QualifiedNames(m.tables, DefaultSchema(m))
  }

  function LowerNames(cs: seq<Column>): (r: seq<string>)
    ensures |r| == |cs|
    ensures forall j :: 0 <= j < |cs| ==> r[j] == Lower(cs[j].name)
  {
    seq(|cs|, j requires 0 <= j < |cs| => Lower(cs[j].name))
  }

  /** The number of columns the entries declare. */
  function ColumnCount(objs: seq<CatalogObject>): nat
    decreases |objs|
  {
    if |objs| == 0 then 0 else ColumnCount(objs[..|objs| - 1]) + |objs[|objs| - 1].columns|
  }

  /** Every column name of every entry, lower-cased, in catalog order, duplicates kept. */
  function ColumnNamesOf(objs: seq<CatalogObject>): (r: seq<string>)
    ensures |r| == ColumnCount(objs)
    decreases |objs|
  {
    if |objs| == 0 then [] else ColumnNamesOf(objs[..|objs| - 1]) + LowerNames(objs[|objs| - 1].columns)
  }

  /** The entries before `i` declare no more columns than the whole list less entry `i`. */
  lemma {:induction false} ColumnCountPrefix(objs: seq<CatalogObject>, i: nat)
    requires i < |objs|
    ensures ColumnCount(objs[..i]) + |objs[i].columns| <= ColumnCount(objs)
    decreases |objs|
  {
    var n := |objs|;
    if i < n - 1 {
      assert objs[..n - 1][..i] == objs[..i];
      ColumnCountPrefix(objs[..n - 1], i);
    } else {
      assert objs[..i] == objs[..n - 1];
    }
  }

  /** Column `j` of entry `i` sits right after the columns of the entries before `i`. */
  lemma {:induction false} ColumnNameAt(objs: seq<CatalogObject>, i: nat, j: nat)
    requires i < |objs| && j < |objs[i].columns|
    ensures ColumnCount(objs[..i]) + j < |ColumnNamesOf(objs)|
    ensures ColumnNamesOf(objs)[ColumnCount(objs[..i]) + j] == Lower(objs[i].columns[j].name)
    decreases |objs|
  {
    var n := |objs|;
    var front := objs[..n - 1];
    ColumnCountPrefix(objs, i);
    if i < n - 1 {
      assert front[..i] == objs[..i];
      assert front[i] == objs[i];
      ColumnNameAt(front, i, j);
    } else {
      assert objs[..i] == front;
    }
  }

  /** What `allowed_columns` returns: the table columns, then the view columns, lower-cased. */
  function AllowedColumnsOf(m: Metadata): (r: seq<string>)
    ensures |r| == ColumnCount(m.tables) + ColumnCount(m.views)
  {
    ColumnNamesOf(m.tables) + ColumnNamesOf(m.views)
  }

  /** Where each table column and each view column lands in `allowed_columns`. */
  lemma AllowedColumnAt(m: Metadata, i: nat, j: nat)
    ensures i < |m.tables| && j < |m.tables[i].columns| ==>
      var k := ColumnCount(m.tables[..i]) + j;
      k < |AllowedColumnsOf(m)| && AllowedColumnsOf(m)[k] == Lower(m.tables[i].columns[j].name)
    ensures i < |m.views| && j < |m.views[i].columns| ==>
      var k := ColumnCount(m.tables) + ColumnCount(m.views[..i]) + j;
      k < |AllowedColumnsOf(m)| && AllowedColumnsOf(m)[k] == Lower(m.views[i].columns[j].name)
  {
    if i < |m.tables| && j < |m.tables[i].columns| {
      ColumnNameAt(m.tables, i, j);
    }
    if i < |m.views| && j < |m.views[i].columns| {
      ColumnNameAt(m.views, i, j);
    }
  }

  /** Every declared column is allowed. */
  lemma EveryColumnAllowed(m: Metadata, o: CatalogObject, c: Column)
    requires o in m.tables || o in m.views
    requires c in o.columns
    ensures Lower(c.name) in AllowedColumnsOf(m)
  {
    var j :| 0 <= j < |o.columns| && o.columns[j] == c;
    if o in m.tables {
      var i :| 0 <= i < |m.tables| && m.tables[i] == o;
      AllowedColumnAt(m, i, j);
      var k := ColumnCount(m.tables[..i]) + j;
      assert AllowedColumnsOf(m)[k] == Lower(c.name);
    } else {
      var i :| 0 <= i < |m.views| && m.views[i] == o;
      AllowedColumnAt(m, i, j);
      var k := ColumnCount(m.tables) + ColumnCount(m.views[..i]) + j;
      assert AllowedColumnsOf(m)[k] == Lower(c.name);
    }
  }

  // ---------------------------------------------------------------------------
  // schema text

  /** One column line: `    - name (type) - description`, missing parts empty. */
  function ColumnLine(c: Column): string {
    "    - " + c.name + " (" + c.colType.GetOr("") + ") - " + c.description.GetOr("")
  }

  /** A column line opens with the column's name and ends with its description. */
  lemma ColumnLineParts(c: Column)
    ensures StartsWith(ColumnLine(c), "    - " + c.name + " (")
    ensures var d, r := c.description.GetOr(""), ColumnLine(c); |d| <= |r| && r[|r| - |d|..] == d
  {
    var head := "    - " + c.name + " (";
    var d, r := c.description.GetOr(""), ColumnLine(c);
    assert r == head + (c.colType.GetOr("") + ") - ") + d;
    assert r[..|head|] == head;
    assert r[|r| - |d|..] == d;
  }

  function ColumnLines(cs: seq<Column>): (r: seq<string>)
    ensures |r| == |cs|
    ensures forall j :: 0 <= j < |cs| ==> r[j] == ColumnLine(cs[j])
  {
    seq(|cs|, j requires 0 <= j < |cs| => ColumnLine(cs[j]))
  }

  /** The lines of a block before its columns: header, optional description, `  Columns:`. */
  function BlockHead(kind: string, o: CatalogObject, defaultSchema: string): seq<string> {
    [kind + ": " + Qualified(o, defaultSchema)]
    + (if Truthy(o.description) then ["  Description: " + o.description.value] else [])
    + ["  Columns:"]
  }

  function ObjectBlock(kind: string, o: CatalogObject, defaultSchema: string): (r: seq<string>)
    ensures |r| == |o.columns| + (if Truthy(o.description) then 4 else 3)
    ensures r[0] == kind + ": " + Qualified(o, defaultSchema)
    ensures Truthy(o.description) <==> r[1] != "  Columns:"
    ensures Truthy(o.description) ==> r[1] == "  Description: " + o.description.value
    ensures r[|r| - 1] == ""
  {
    assert Truthy(o.description) ==> ("  Description: " + o.description.value)[2] == 'D';
    BlockHead(kind, o, defaultSchema) + ColumnLines(o.columns) + [""]
  }

  /** The blocks of all entries, one after the other. */
  function Blocks(kind: string, objs: seq<CatalogObject>, defaultSchema: string): seq<string>
    decreases |objs|
  {
    if |objs| == 0 then []
    else Blocks(kind, objs[..|objs| - 1], defaultSchema) + ObjectBlock(kind, objs[|objs| - 1], defaultSchema)
  }

  /** Three or four lines per entry besides its column lines, the last one blank. */
  lemma {:induction false} BlocksSize(kind: string, objs: seq<CatalogObject>, d: string)
    ensures var r := Blocks(kind, objs, d);
      && 3 * |objs| + ColumnCount(objs) <= |r| <= 4 * |objs| + ColumnCount(objs)
      && (|objs| > 0 ==> r[|r| - 1] == "")
    decreases |objs|
  {
    if |objs| > 0 {
      BlocksSize(kind, objs[..|objs| - 1], d);
    }
  }

  lemma {:induction false} BlocksPrefix(kind: string, objs: seq<CatalogObject>, d: string, i: nat)
    requires i < |objs|
    ensures |Blocks(kind, objs[..i], d)| < |Blocks(kind, objs, d)|
    decreases |objs|
  {
    var n := |objs|;
    if i < n - 1 {
      assert objs[..n - 1][..i] == objs[..i];
      BlocksPrefix(kind, objs[..n - 1], d, i);
    } else {
      assert objs[..i] == objs[..n - 1];
    }
  }

  /** The block of entry `i` starts with its header, right after the blocks before it. */
  lemma {:induction false} BlockHeaderAt(kind: string, objs: seq<CatalogObject>, d: string, i: nat)
    requires i < |objs|
    ensures |Blocks(kind, objs[..i], d)| < |Blocks(kind, objs, d)|
    ensures Blocks(kind, objs, d)[|Blocks(kind, objs[..i], d)|] == kind + ": " + Qualified(objs[i], d)
    decreases |objs|
  {
    var n := |objs|;
    var front := objs[..n - 1];
    BlocksPrefix(kind, objs, d, i);
    if i < n - 1 {
      assert front[..i] == objs[..i];
      assert front[i] == objs[i];
      BlocksPrefix(kind, front, d, i);
      BlockHeaderAt(kind, front, d, i);
    } else {
      assert objs[..i] == front;
    }
  }

  /**
   * The lines of the schema description: every table block, then every view
   * block; none at all exactly when the catalog is empty.
   */
  function SchemaLines(m: Metadata): seq<string> {
    Blocks("Table", m.tables, DefaultSchema(m)) + Blocks("View", m.views, DefaultSchema(m))
  }

  /**
   * Three or four lines per entry besides its column lines; none at all
   * exactly when the catalog is empty.
   */
  lemma SchemaLinesSize(m: Metadata)
    ensures var r := SchemaLines(m);
      && 3 * (|m.tables| + |m.views|) + ColumnCount(m.tables) + ColumnCount(m.views) <= |r|
      && |r| <= 4 * (|m.tables| + |m.views|) + ColumnCount(m.tables) + ColumnCount(m.views)
      && (r == [] <==> m.tables == [] && m.views == [])
  {
    BlocksSize("Table", m.tables, DefaultSchema(m));
    BlocksSize("View", m.views, DefaultSchema(m));
  }

  /** What `as_schema_text` returns: the lines joined by newlines, stripped. */
  function SchemaText(m: Metadata): (r: string)
    ensures NoEdge(r, Whitespace)
  {
    Strip(Join("\n", SchemaLines(m)), Whitespace)
  }

  /** Each table's header comes before each view's header. */
  lemma TablesBeforeViews(m: Metadata, i: nat, j: nat)
    requires i < |m.tables| && j < |m.views|
    ensures
      var d := DefaultSchema(m);
      var t := |Blocks("Table", m.tables[..i], d)|;
      var v := |Blocks("Table", m.tables, d)| + |Blocks("View", m.views[..j], d)|;
      && t < v < |SchemaLines(m)|
      && SchemaLines(m)[t] == "Table: " + Qualified(m.tables[i], d)
      && SchemaLines(m)[v] == "View: " + Qualified(m.views[j], d)
  {
    var d := DefaultSchema(m);
    BlockHeaderAt("Table", m.tables, d, i);
    BlockHeaderAt("View", m.views, d, j);
  }

  /** An empty catalog describes itself as the empty text. */
  lemma EmptyCatalogText(m: Metadata)
    requires m.tables == [] && m.views == []
    ensures SchemaText(m) == ""
  {
  }

  // ---------------------------------------------------------------------------
  // the knowledge base object

  /** Appends the block of one entry to `lines`, as the body of each loop of `as_schema_text` does. */
  method AppendBlock(lines0: seq<string>, kind: string, o: CatalogObject, d: string)
    returns (lines: seq<string>)
    ensures lines == lines0 + ObjectBlock(kind, o, d)
  {
    lines := lines0 + [kind + ": " + Qualified(o, d)];
    if Truthy(o.description) {
      lines := lines + ["  Description: " + o.description.value];
    }
    lines := lines + ["  Columns:"];
    assert lines == lines0 + BlockHead(kind, o, d);
    var j := 0;
    while j < |o.columns|
      invariant 0 <= j <= |o.columns|
      invariant lines == lines0 + BlockHead(kind, o, d) + ColumnLines(o.columns[..j])
    {
      assert ColumnLines(o.columns[..j + 1]) == ColumnLines(o.columns[..j]) + [ColumnLine(o.columns[j])];
      lines := lines + [ColumnLine(o.columns[j])];
      j := j + 1;
    }
    assert o.columns[..j] == o.columns;
    lines := lines + [""];
  }

  /** Appends the blocks of `objs` to `lines`, as each loop of `as_schema_text` does. */
  method AppendBlocks(lines0: seq<string>, kind: string, objs: seq<CatalogObject>, d: string)
    returns (lines: seq<string>)
    ensures lines == lines0 + Blocks(kind, objs, d)
  {
    lines := lines0;
    var i := 0;
    while i < |objs|
      invariant 0 <= i <= |objs|
      invariant lines == lines0 + Blocks(kind, objs[..i], d)
    {
      lines := AppendBlock(lines, kind, objs[i], d);
      assert objs[..i + 1][..i] == objs[..i];
      assert Blocks(kind, objs[..i + 1], d) == Blocks(kind, objs[..i], d) + ObjectBlock(kind, objs[i], d);
      i := i + 1;
    }
    assert objs[..i] == objs;
  }

  /** Appends the lower-cased column names of `objs` to `cols`, as `allowed_columns`' two loops do. */
  method AppendColumnNames(cols0: seq<string>, objs: seq<CatalogObject>) returns (cols: seq<string>)
    ensures cols == cols0 + ColumnNamesOf(objs)
  {
    cols := cols0;
    var i := 0;
    while i < |objs|
      invariant 0 <= i <= |objs|
      invariant cols == cols0 + ColumnNamesOf(objs[..i])
    {
      var cs := objs[i].columns;
      var j := 0;
      while j < |cs|
        invariant 0 <= j <= |cs|
        invariant cols == cols0 + ColumnNamesOf(objs[..i]) + LowerNames(cs[..j])
      {
        assert LowerNames(cs[..j + 1]) == LowerNames(cs[..j]) + [Lower(cs[j].name)];
        cols := cols + [Lower(cs[j].name)];
        j := j + 1;
      }
      assert cs[..j] == cs;
      assert objs[..i + 1][..i] == objs[..i];
      i := i + 1;
    }
    assert objs[..i] == objs;
  }

  /** Appends the lower-cased qualified name of each of `objs` to `names0`, as each loop of `allowed_objects` does. */
  method AppendQualifiedNames(names0: seq<string>, objs: seq<CatalogObject>, d: string)
    returns (names: seq<string>)
    ensures names == names0 + QualifiedNames(objs, d)
  {
    names := names0;
    var i := 0;
    while i < |objs|
      invariant 0 <= i <= |objs|
      invariant |names| == |names0| + i
      invariant names[..|names0|] == names0
      invariant forall k :: 0 <= k < i ==> names[|names0| + k] == Lower(Qualified(objs[k], d))
    {
      names := names + [Lower(Qualified(objs[i], d))];
      i := i + 1;
    }
  }

  /**
   * The loaded catalog. `schemaText` is the memo of `as_schema_text`; once set
   * it always holds the text computed from the metadata.
   */
  class KnowledgeBase {
    const data: Metadata
    var schemaText: Option<string>

    ghost predicate Valid()
      reads this
    {
      schemaText.Some? ==> schemaText.value == SchemaText(data)
    }

    constructor (data: Metadata)
      ensures this.data == data && schemaText == None && Valid()
    {
      this.data := data;
      schemaText := None;
    }

    method AllowedObjects() returns (allowed: seq<string>)
      ensures allowed == AllowedObjectsOf(data)
    {
      allowed := AppendQualifiedNames([], data.views, DefaultSchema(data));
      allowed := AppendQualifiedNames(allowed, data.tables, DefaultSchema(data));
    }

    method AllowedColumns() returns (cols: seq<string>)
      ensures cols == AllowedColumnsOf(data)
    {
      cols := AppendColumnNames([], data.tables);
      cols := AppendColumnNames(cols, data.views);
    }

    /** `as_schema_text`: answers from the memo when it is set, otherwise builds the text and sets it. */
    method AsSchemaText() returns (text: string)
      requires Valid()
      modifies this
      ensures Valid()
      ensures text == SchemaText(data)
      ensures schemaText == Some(text)
      ensures old(schemaText).Some? ==> text == old(schemaText).value
    {
      if schemaText.Some? {
        return schemaText.value;
      }
      var d := DefaultSchema(data);
      var lines := AppendBlocks([], "Table", data.tables, d);
      lines := AppendBlocks(lines, "View", data.views, d);
      assert lines == SchemaLines(data);
      text := Strip(Join("\n", lines), Whitespace);
      schemaText := Some(text);
    }
  }
}
