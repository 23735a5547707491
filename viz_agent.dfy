/**
 * The visualisation agent: asks the model for a plan (a SELECT and a chart
 * spec), runs the SELECT (or reuses cached rows) and turns the rows into a
 * figure. The plan's JSON parsing is the function `parse`; the figure is the
 * data the Plotly figure is built from (trace kind, values, title, hover mode
 * and marker colours), not Plotly's own dictionary.
 */
module VizAgent {
  import opened Wrappers
  import opened Text
  import opened Llm
  import opened Db
  import opened KnowledgeBase

  const Palette: seq<string> := ["#2563eb", "#10b981", "#f59e0b", "#ef4444", "#8b5cf6", "#0ea5e9"]

  const NoDataMessage: string := "Visualization query returned no data to plot."
  const UnsupportedPrefix: string := "Unsupported chart type: "
  const MissingXMessage: string := "Chart spec missing x axis."
  const MissingYMessage: string := "Chart spec missing y axis."
  const MissingColumnPrefix: string := "Chart column not in result set: "
  const ParseFailurePrefix: string := "Failed to parse visualization plan: "
  const MissingKeysMessage: string := "Visualization plan must include 'sql' and 'chart' keys."

  /** The `chart` object of a plan; an absent key is `None`. */
  datatype ChartSpec = ChartSpec(chartType: Option<string>, x: Option<string>, y: Option<string>, title: Option<string>)

  /** The parsed plan object: which of its two keys were present, and their values. */
  datatype PlanObject = PlanObject(sql: Option<string>, chart: Option<ChartSpec>)

  /** `json.loads`, with the exception message on failure. */
  type PlanParser = string -> Result<PlanObject, string>

  datatype VizPlan = VizPlan(sql: string, chart: ChartSpec, usage: Option<Usage>)

  datatype Trace =
    | BarTrace(x: seq<Value>, y: seq<Value>, colors: seq<string>)
    | ScatterTrace(mode: string, x: seq<Value>, y: seq<Value>, lineColor: string, markerColor: string)
    | PieTrace(labels: seq<Value>, values: seq<Value>, colors: seq<string>)

  datatype Figure = Figure(trace: Trace, title: string, hoverMode: string)

  datatype VisualizationResult = VisualizationResult(sql: string, rows: Rows, figure: Option<Figure>, usage: Option<Usage>)

  // ---------------------------------------------------------------------------
  // colours

  /** `xs * k`. */
  function Repeat(xs: seq<string>, k: nat): (r: seq<string>)
    ensures |r| == k * |xs|
  {
    if k == 0 then [] else xs + Repeat(xs, k - 1)
  }

  /** Element `i` of a repeated palette-sized list is element `i % 6` of the list. */
  lemma {:induction false} RepeatAt(xs: seq<string>, k: nat, i: nat)
    requires |xs| == 6 && i < |Repeat(xs, k)|
    ensures Repeat(xs, k)[i] == xs[i % 6]
  {
    if i >= 6 {
      assert Repeat(xs, k) == xs + Repeat(xs, k - 1);
      RepeatAt(xs, k - 1, i - 6);
    }
  }

  /** `(PALETTE * (n // 6 + 1))[:n]`: one colour per row, cycling through the palette. */
  function Colors(n: nat): (r: seq<string>)
    ensures |r| == n
    ensures forall i :: 0 <= i < n ==> r[i] == Palette[i % 6]
  {
    var cycled := Repeat(Palette, n / |Palette| + 1);
    assert n < |cycled|;
    forall i | 0 <= i < n
      ensures cycled[i] == Palette[i % 6]
    {
      RepeatAt(Palette, n / |Palette| + 1, i);
    }
    cycled[..n]
  }

  // ---------------------------------------------------------------------------
  // the figure

  /**
   * `(chart.get("type") or "bar").lower()`: never empty, free of upper-case
   * letters, and `bar` when the spec names no type.
   */
  function ChartTypeOf(chart: ChartSpec): (r: string)
    ensures r != "" && forall i :: 0 <= i < |r| ==> !('A' <= r[i] <= 'Z')
    ensures !Truthy(chart.chartType) ==> r == "bar"
    ensures Truthy(chart.chartType) ==> r == Lower(chart.chartType.value)
  {
    LowerHasNoUpper(OrElse(chart.chartType, "bar"));
    Lower(OrElse(chart.chartType, "bar"))
  }

  predicate Supported(t: string) {
    t == "bar" || t == "line" || t == "scatter" || t == "pie"
  }

  predicate HasColumn(rows: Rows, col: string) {
    forall i :: 0 <= i < |rows| ==> col in rows[i]
  }

  /** `[r[col] for r in rows]`, failing with the column's name when a row lacks it. */
  function Extract(rows: Rows, col: string): (r: Result<seq<Value>, string>)
    ensures r.Ok? <==> HasColumn(rows, col)
    ensures r.Err? ==> r.error == MissingColumnPrefix + col
    ensures r.Ok? ==> |r.value| == |rows| && forall i :: 0 <= i < |rows| ==> r.value[i] == rows[i][col]
  {
    if HasColumn(rows, col) then Ok(seq(|rows|, i requires 0 <= i < |rows| => rows[i][col]))
    else Err(MissingColumnPrefix + col)
  }

  /** The column the values come from: `y`, and for a pie without `y`, `x`. */
  function ValueColumn(chart: ChartSpec): (r: string)
    requires Truthy(chart.x)
    ensures r != ""
    ensures Truthy(chart.y) ==> r == chart.y.value
    ensures !Truthy(chart.y) ==> r == chart.x.value
  {
    OrElse(chart.y, chart.x.value)
  }

  /** Whether the spec passes the four checks that come before any column is read. */
  predicate SpecAccepted(rows: Rows, chart: ChartSpec) {
    && |rows| > 0
    && Supported(ChartTypeOf(chart))
    && Truthy(chart.x)
    && (ChartTypeOf(chart) == "pie" || Truthy(chart.y))
  }

  /** `_build_figure`. */
  function BuildFigure(rows: Rows, chart: ChartSpec): (r: Result<Figure, string>)
    ensures |rows| == 0 ==> r == Err(NoDataMessage)
    ensures |rows| > 0 && !Supported(ChartTypeOf(chart)) ==> r == Err(UnsupportedPrefix + ChartTypeOf(chart))
    ensures |rows| > 0 && Supported(ChartTypeOf(chart)) && !Truthy(chart.x) ==> r == Err(MissingXMessage)
    ensures (|rows| > 0 && Supported(ChartTypeOf(chart)) && Truthy(chart.x) && ChartTypeOf(chart) != "pie"
             && !Truthy(chart.y)) ==> r == Err(MissingYMessage)
    ensures SpecAccepted(rows, chart) && !HasColumn(rows, chart.x.value) ==>
      r == Err(MissingColumnPrefix + chart.x.value)
    ensures SpecAccepted(rows, chart) && HasColumn(rows, chart.x.value) && !HasColumn(rows, ValueColumn(chart)) ==>
      r == Err(MissingColumnPrefix + ValueColumn(chart))
  {
    var t := ChartTypeOf(chart);
    var title := OrElse(chart.title, "Visualization");
    if |rows| == 0 then Err(NoDataMessage)
    else if !Supported(t) then Err(UnsupportedPrefix + t)
    else if !Truthy(chart.x) then Err(MissingXMessage)
    else if t != "pie" && !Truthy(chart.y) then Err(MissingYMessage)
    else
      var hover := if t == "bar" || t == "line" then "x unified" else "closest";
      var xs :- Extract(rows, chart.x.value);
      var ys :- Extract(rows, ValueColumn(chart));
      var trace :=
        if t == "bar" then BarTrace(xs, ys, Colors(|rows|))
        else if t == "line" then ScatterTrace("lines", xs, ys, Palette[0], Palette[1])
        else if t == "scatter" then ScatterTrace("markers", xs, ys, Palette[0], Palette[1])
        else PieTrace(xs, ys, Colors(|rows|));
      Ok(Figure(trace, title, hover))
  }

  /** The column `name` of `rows`. */
  function ColumnValues(rows: Rows, name: string): (r: seq<Value>)
    requires HasColumn(rows, name)
    ensures |r| == |rows|
  {
    seq(|rows|, i requires 0 <= i < |rows| => rows[i][name])
  }

  /** A figure is built exactly when the four checks pass and both columns exist in every row. */
  lemma FigureBuiltIff(rows: Rows, chart: ChartSpec)
    ensures BuildFigure(rows, chart).Ok? <==>
      SpecAccepted(rows, chart) && HasColumn(rows, chart.x.value) && HasColumn(rows, ValueColumn(chart))
  {
  }

  /** A figure plots the spec's columns in row order, with the trace its type names and the spec's title. */
  lemma FigureContents(rows: Rows, chart: ChartSpec)
    requires BuildFigure(rows, chart).Ok?
    ensures var f := BuildFigure(rows, chart).value;
      var t := ChartTypeOf(chart);
      && SpecAccepted(rows, chart)
      && f.title == OrElse(chart.title, "Visualization")
      && (f.trace.BarTrace? <==> t == "bar")
      && (f.trace.PieTrace? <==> t == "pie")
      && (f.trace.ScatterTrace? ==> f.trace.mode == (if t == "line" then "lines" else "markers"))
      && (f.hoverMode == "x unified" <==> t == "bar" || t == "line")
      && (f.trace.PieTrace? ==> f.trace.labels == ColumnValues(rows, chart.x.value)
                                && f.trace.values == ColumnValues(rows, ValueColumn(chart)))
      && (!f.trace.PieTrace? ==> f.trace.x == ColumnValues(rows, chart.x.value)
                                 && f.trace.y == ColumnValues(rows, chart.y.value))
  {
  }

  /** A pie without `y` takes both its labels and its values from `x`. */
  lemma PieFallsBackToX(rows: Rows, chart: ChartSpec)
    requires BuildFigure(rows, chart).Ok? && ChartTypeOf(chart) == "pie" && !Truthy(chart.y)
    ensures BuildFigure(rows, chart).value.trace.values == BuildFigure(rows, chart).value.trace.labels
  {
  }

  /** Bar and pie traces colour row `i` with `PALETTE[i % 6]`. */
  lemma ColorsCycle(rows: Rows, chart: ChartSpec)
    requires BuildFigure(rows, chart).Ok?
    ensures var tr := BuildFigure(rows, chart).value.trace;
      && (tr.BarTrace? || tr.PieTrace? ==>
            |tr.colors| == |rows| && forall i :: 0 <= i < |rows| ==> tr.colors[i] == Palette[i % 6])
      && (tr.ScatterTrace? ==> tr.lineColor == "#2563eb" && tr.markerColor == "#10b981")
  {
  }

  /** A missing or empty type means a bar chart. */
  lemma TypeDefaultsToBar(chart: ChartSpec)
    requires !Truthy(chart.chartType)
    ensures ChartTypeOf(chart) == "bar"
  {
    assert Lower("bar") == "bar";
  }

  /** The type is compared lower-cased, so its letter case does not matter. */
  lemma TypeIgnoresCase(chart: ChartSpec, t: string)
    requires chart.chartType == Some(t)
    ensures ChartTypeOf(chart.(chartType := Some(Upper(t)))) == ChartTypeOf(chart)
  {
    assert Upper(t) != "" <==> t != "";
    LowerOfUpper(t);
  }

  // ---------------------------------------------------------------------------
  // the plan

  /** The stripped answer, and when it opens a markdown fence, the fence and its `json`/`JSON` tags removed. */
  function PlanText(content: string): (r: string)
    ensures NoEdge(r, Whitespace)
    ensures !StartsWith(Strip(content, Whitespace), Fence) ==> r == Strip(content, Whitespace)
  {
    StripFence(Strip(content, Whitespace), "json\n", "JSON\n")
  }

  /** What `_plan` returns for the model's answer. */
  function PlanOf(answer: Result<Completion, string>, parse: PlanParser): (r: Result<VizPlan, string>)
    ensures answer.Err? ==> r == Err(answer.error)
    ensures answer.Ok? && parse(PlanText(answer.value.content)).Err? ==>
      r == Err(ParseFailurePrefix + parse(PlanText(answer.value.content)).error)
  {
    match answer
    case Err(e) => Err(e)
    case Ok(c) =>
      match parse(PlanText(c.content))
      case Err(e) => Err(ParseFailurePrefix + e)
      case Ok(obj) =>
        if obj.sql.None? || obj.chart.None? then Err(MissingKeysMessage)
        else Ok(VizPlan(obj.sql.value, obj.chart.value, c.usage))
  }

  /** A plan is accepted exactly when the answer parses to an object with both keys, whose values it carries. */
  lemma PlanNeedsBothKeys(answer: Result<Completion, string>, parse: PlanParser)
    ensures PlanOf(answer, parse).Ok? <==>
      answer.Ok? && parse(PlanText(answer.value.content)).Ok?
      && parse(PlanText(answer.value.content)).value.sql.Some?
      && parse(PlanText(answer.value.content)).value.chart.Some?
    ensures PlanOf(answer, parse).Ok? ==>
      var obj := parse(PlanText(answer.value.content)).value;
      PlanOf(answer, parse).value == VizPlan(obj.sql.value, obj.chart.value, answer.value.usage)
    ensures answer.Ok? && parse(PlanText(answer.value.content)).Ok? && PlanOf(answer, parse).Err? ==>
      PlanOf(answer, parse).error == MissingKeysMessage
  {
  }

  /** An answer that comes out unfenced is left as it is by a second clean-up. */
  lemma PlanTextIdempotent(content: string)
    requires !StartsWith(PlanText(content), Fence)
    ensures PlanText(PlanText(content)) == PlanText(content)
  {
    StripKeeps(PlanText(content), Whitespace);
  }

  /** The figure step of `generate_viz`, once the rows are known. */
  function Finish(plan: VizPlan, rows: Rows): (r: Result<VisualizationResult, string>)
    ensures r.Ok? <==> BuildFigure(rows, plan.chart).Ok?
    ensures r.Err? ==> r.error == BuildFigure(rows, plan.chart).error
    ensures r.Ok? ==> r.value == VisualizationResult(plan.sql, rows, Some(BuildFigure(rows, plan.chart).value), plan.usage)
  {
    var figure :- BuildFigure(rows, plan.chart);
    Ok(VisualizationResult(plan.sql, rows, Some(figure), plan.usage))
  }

  // ---------------------------------------------------------------------------
  // the agent

  /** The cache's entries; none when the cache is off. */
  function EntriesOf(cache: QueryCache?): map<string, Rows>
    reads cache
  {
    if cache != null then cache.entries else map[]
  }

  class VizAgent {
    const kb: KnowledgeBase
    const db: Database
    const gateway: Gateway
    const parse: PlanParser
    /** The one view plans may query. */
    const fqView: string

    ghost predicate Valid()
      reads this, kb, db
    {
      kb.Valid() && db.Valid()
    }

    constructor (kb: KnowledgeBase, db: Database, gateway: Gateway, parse: PlanParser, fqView: string)
      requires kb.Valid() && db.Valid()
      ensures this.kb == kb && this.db == db && this.gateway == gateway && this.parse == parse
      ensures this.fqView == fqView && Valid()
    {
      this.kb := kb;
      this.db := db;
      this.gateway := gateway;
      this.parse := parse;
      this.fqView := fqView;
    }

    /** The plan `_plan` produces for `question`. */
    function PlannedFor(question: string): Result<VizPlan, string> {
      PlanOf(gateway(VizPlanPrompt(fqView, SchemaText(kb.data)), question), parse)
    }

    /** `_plan`: the schema text (through the memo), one model call, the clean-up and the key check. */
    method Plan(question: string) returns (r: Result<VizPlan, string>)
      requires Valid()
      modifies kb
      ensures Valid()
      ensures r == PlannedFor(question)
      ensures kb.schemaText == Some(SchemaText(kb.data))
    {
      var schema := kb.AsSchemaText();
      var answer := gateway(VizPlanPrompt(fqView, schema), question);
      r := PlanOf(answer, parse);
    }

    /**
     * From `p` on, where `calls` and `entries` were the database's calls and
     * the cache's entries before: the cached rows for the plan's SQL when
     * there are some, otherwise one run of it (with no allowlists) whose rows
     * are cached before the figure is built.
     */
    ghost predicate Rendered(p: VizPlan, cache: QueryCache?, r: Result<VisualizationResult, string>,
                             calls: seq<Call>, entries: map<string, Rows>)
      reads this, db, cache
    {
      if p.sql in entries then
        r == Finish(p, entries[p.sql]) && db.calls == calls && EntriesOf(cache) == entries
      else
        var e := db.gated(p.sql, [], []);
        && db.calls == calls + [Call(p.sql, [], [])]
        && (e.Err? ==> r == Err(e.error) && EntriesOf(cache) == entries)
        && (e.Ok? ==> r == Finish(p, e.value)
                      && EntriesOf(cache) == (if cache != null then entries[p.sql := e.value] else entries))
    }

    /**
     * What `generate_viz` does: plan; without `execute` stop there, touching
     * neither the database nor the cache; otherwise go on from the plan.
     */
    twostate predicate Generated(question: string, execute: bool, cache: QueryCache?, new r: Result<VisualizationResult, string>)
      reads this, kb, db, cache
    {
      && kb.schemaText == Some(SchemaText(kb.data))
      && var p := PlannedFor(question);
      if p.Err? || !execute then
        && r == (if p.Err? then Err(p.error) else Ok(VisualizationResult(p.value.sql, [], None, p.value.usage)))
        && db.calls == old(db.calls) && EntriesOf(cache) == old(EntriesOf(cache))
      else
        Rendered(p.value, cache, r, old(db.calls), old(EntriesOf(cache)))
    }

    /** `generate_viz` once the plan `p` is there and `execute` is set. */
    method Render(p: VizPlan, cache: QueryCache?) returns (r: Result<VisualizationResult, string>)
      requires Valid()
      modifies db, cache
      ensures Valid()
      ensures Rendered(p, cache, r, old(db.calls), old(EntriesOf(cache)))
    {
      var rows: Rows;
      if cache != null && p.sql in cache.entries {
        rows := cache.entries[p.sql];
      } else {
        var e := db.ExecuteReadonlyQuery(p.sql, [], []);
        if e.Err? {
          return Err(e.error);
        }
        rows := e.value;
        if cache != null {
          cache.Put(p.sql, rows);
        }
      }
      r := Finish(p, rows);
    }

    /** `generate_viz`. */
    method GenerateViz(question: string, execute: bool, cache: QueryCache?) returns (r: Result<VisualizationResult, string>)
      requires Valid()
      modifies kb, db, cache
      ensures Valid()
      ensures Generated(question, execute, cache, r)
    {
      var plan := Plan(question);
      assert db.calls == old(db.calls) && EntriesOf(cache) == old(EntriesOf(cache));
      if plan.Err? {
        return Err(plan.error);
      }
      var p := plan.value;
      if !execute {
        return Ok(VisualizationResult(p.sql, [], None, p.usage));
      }
      r := Render(p, cache);
    }
  }
}
