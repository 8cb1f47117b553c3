/**
 * `pymusas_models/readme_generator.py`: the Markdown README of a model,
 * assembled from its meta data. The meta data is a JSON object; every lookup
 * that Python would fail on (a missing key, a value of the wrong kind) is an
 * error of the same kind here.
 */
module ReadmeGenerator {
  import opened Wrappers
  import opened Json
  import Strings
  import Markdown

  /** `md.code(x)` on any value: the value is formatted with `str`. */
  function CodeOf(v: Json): string { Markdown.Code(Str(v)) }

  /** `", ".join([md.code(p) for p in v])`: TypeError when `v` cannot be iterated. */
  function CodeList(v: Json): (r: Result<string, PyError>)
    ensures r.Ok? <==> Iterate(v).Ok?
  {
    var items :- Iterate(v);
    Ok(Strings.Join(seq(|items|, i requires 0 <= i < |items| => CodeOf(items[i])), ", "))
  }

  /** `meta.get(key) or default`. */
  function GetOrElse(meta: seq<Entry>, key: string, default: Json): (r: Json)
    ensures Truthy(r) || r == default
    ensures Get(meta, key).Some? && Truthy(Get(meta, key).value) ==> r == Get(meta, key).value
  {
    match Get(meta, key)
    case Some(v) => if Truthy(v) then v else default
    case None => default
  }

  /** `meta[key]`. */
  function Required(meta: seq<Entry>, key: string): (r: Result<Json, PyError>)
    ensures r.Ok? <==> key in Keys(meta)
    ensures r.Err? ==> r.error == KeyError(key)
    ensures r.Ok? ==> Get(meta, key) == Some(r.value)
  {
    match Get(meta, key)
    case Some(v) => Ok(v)
    case None => Err(KeyError(key))
  }

  /** What `str.join` raises on an item that is not a string. */
  const JoinError := TypeError("sequence item: expected str instance")

  /** A table cell: the Markdown table joins its cells, so each has to be a string. */
  function Cell(v: Json): (r: Result<string, PyError>)
    ensures r.Ok? <==> v.JStr?
  {
    if v.JStr? then Ok(v.s) else Err(JoinError)
  }

  /** The vectors line; the vectors entry must be a dict, each count defaults to 0. */
  function VectorsText(v: Json): Result<string, PyError>
  {
    match v
    case JObj(fields) =>
      Ok(Str(GetOr(fields, "keys", JInt(0))) + " keys, "
         + Str(GetOr(fields, "vectors", JInt(0))) + " unique vectors ("
         + Str(GetOr(fields, "width", JInt(0))) + " dimensions)")
    case _ => Err(AttributeError("get"))
  }

  // ---------------------------------------------------------------------
  // _format_sources
  // ---------------------------------------------------------------------

  /** A source entry is a dict; anything else stands for `{"name": item}`. */
  function SourceFields(source: Json): seq<Entry>
  {
    if source.JObj? then source.fields else [Entry("name", source)]
  }

  /** The entry has a name that is truthy. */
  predicate Named(source: Json)
  {
    var name := Get(SourceFields(source), "name");
    name.Some? && Truthy(name.value)
  }

  /**
   * One loop iteration of `_format_sources`: None when the entry is skipped,
   * otherwise the text it adds. The name is linked to the url when there is
   * a truthy url and followed by the author in parentheses when there is a
   * truthy author; adding the author to a name that is not a string is a
   * TypeError. A name that is not a string and gets neither stays what it is.
   */
  function SourceEntry(source: Json): (r: Result<Option<Json>, PyError>)
    ensures r == Ok(None) <==> !Named(source)
    ensures Named(source) && r.Ok? ==> r.value.Some?
  {
    var fields := SourceFields(source);
    var name := Get(fields, "name");
    if name.None? || !Truthy(name.value) then Ok(None)
    else
      var url := Get(fields, "url");
      var author := Get(fields, "author");
      var result :=
        if url.Some? && Truthy(url.value) then JStr(Markdown.Link(Str(name.value), Str(url.value)))
        else name.value;
      if author.Some? && Truthy(author.value) then
        if result.JStr? then Ok(Some(JStr(result.s + " (" + Str(author.value) + ")")))
        else Err(TypeError("can only concatenate str to str"))
      else Ok(Some(result))
  }

  /** An item that is not a dict is read as `{"name": item}`. */
  lemma SourceNotDict(source: Json)
    requires !source.JObj?
    ensures SourceEntry(source) == SourceEntry(JObj([Entry("name", source)]))
  {
  }

  /**
   * The text of a named source with a string name: the name, or the link
   * `[name](url)` when it has a truthy url, then ` (author)` when it has a
   * truthy author.
   */
  lemma SourceEntryText(source: Json, name: string)
    requires Named(source) && Get(SourceFields(source), "name") == Some(JStr(name))
    ensures var url := Get(SourceFields(source), "url");
            var author := Get(SourceFields(source), "author");
            var linked := if url.Some? && Truthy(url.value) then Markdown.Link(name, Str(url.value)) else name;
            SourceEntry(source) == Ok(Some(JStr(
              if author.Some? && Truthy(author.value) then linked + " (" + Str(author.value) + ")" else linked)))
  {
  }

  /** The sources loop from the entries collected so far. */
  function SourcesFrom(collected: seq<Json>, items: seq<Json>): Result<seq<Json>, PyError>
    decreases |items|
  {
    if |items| == 0 then Ok(collected)
    else
      var entry :- SourceEntry(items[0]);
      SourcesFrom(if entry.Some? then collected + [entry.value] else collected, items[1..])
  }

  /** How many items have a truthy name. */
  function NamedCount(items: seq<Json>): (n: nat)
    ensures n <= |items|
  {
    if |items| == 0 then 0 else (if Named(items[0]) then 1 else 0) + NamedCount(items[1..])
  }

  /** Unnamed items are skipped and every named one adds exactly one entry after those collected. */
  lemma {:induction false} SourcesSkipUnnamed(collected: seq<Json>, items: seq<Json>)
    requires SourcesFrom(collected, items).Ok?
    ensures |SourcesFrom(collected, items).value| == |collected| + NamedCount(items)
    ensures collected <= SourcesFrom(collected, items).value
    decreases |items|
  {
    if |items| > 0 {
      var entry := SourceEntry(items[0]).value;
      var next := if entry.Some? then collected + [entry.value] else collected;
      SourcesSkipUnnamed(next, items[1..]);
    }
  }

  /** `"<br />".join(sources)`: every collected entry has to be a string. */
  function JoinEntries(entries: seq<Json>): Result<string, PyError>
  {
    if forall i :: 0 <= i < |entries| ==> entries[i].JStr? then
      Ok(Strings.Join(seq(|entries|, i requires 0 <= i < |entries| => entries[i].s), "<br />"))
    else Err(JoinError)
  }

  /** `_format_sources(data)` as a value. */
  function SourcesText(data: Json): Result<string, PyError>
  {
    if !Truthy(data) || !data.JArr? then Ok("n/a")
    else
      var entries :- SourcesFrom([], data.items);
      JoinEntries(entries)
  }

  /**
   * `_format_sources`: "n/a" for empty data or anything but a list;
   * otherwise one entry per named item in input order, joined by `<br />`.
   */
  method FormatSources(data: Json) returns (r: Result<string, PyError>)
    ensures !Truthy(data) || !data.JArr? ==> r == Ok("n/a")
    ensures r == SourcesText(data)
  {
    if !Truthy(data) || !data.JArr? {
      return Ok("n/a");
    }
    var items := data.items;
    var sources: seq<Json> := [];
    for i := 0 to |items|
      invariant SourcesFrom(sources, items[i..]) == SourcesFrom([], items)
    {
      assert items[i..][1..] == items[i + 1..];
      var entry := SourceEntry(items[i]);
      if entry.Err? {
        return Err(entry.error);
      }
      if entry.value.Some? {
        sources := sources + [entry.value.value];
      }
    }
    assert items[|items|..] == [];
    r := JoinEntries(sources);
  }

  // ---------------------------------------------------------------------
  // _format_label_scheme
  // ---------------------------------------------------------------------

  /** One row of the label table and the number of labels it lists. */
  datatype LabelRow = LabelRow(component: string, labels: string, count: nat)

  /** `md.code(str(label).replace("|", "\\|"))`. */
  function LabelCode(item: Json): string
  {
    Markdown.Code(Strings.EscapeBars(Str(item)))
  }

  /** A pipe with labels gives a row; a pipe whose labels are falsy gives none. */
  function LabelRowOf(pipe: string, labels: Json): (r: Result<Option<LabelRow>, PyError>)
    ensures r == Ok(None) <==> !Truthy(labels)
    ensures r.Ok? && r.value.Some? ==> r.value.value.component == Markdown.Bold(Markdown.Code(pipe))
                                       && Iterate(labels).Ok?
                                       && r.value.value.count == |Iterate(labels).value|
  {
    if !Truthy(labels) then Ok(None)
    else
      var items :- Iterate(labels);
      Ok(Some(LabelRow(Markdown.Bold(Markdown.Code(pipe)),
                       Strings.Join(seq(|items|, i requires 0 <= i < |items| => LabelCode(items[i])), ", "),
                       |items|)))
  }

  /** The rows collected so far and the two counters of the loop. */
  datatype LabelState = LabelState(rows: seq<LabelRow>, nLabels: nat, nPipes: nat)

  /** The state after one pipe: a row adds its labels and one pipe to the counters. */
  function Advance(state: LabelState, row: Option<LabelRow>): LabelState
  {
    if row.Some? then LabelState(state.rows + [row.value], state.nLabels + row.value.count, state.nPipes + 1)
    else state
  }

  /** The label loop from a given state. */
  function LabelsFrom(state: LabelState, pipes: seq<Entry>): Result<LabelState, PyError>
    decreases |pipes|
  {
    if |pipes| == 0 then Ok(state)
    else
      var row :- LabelRowOf(pipes[0].key, pipes[0].value);
      LabelsFrom(Advance(state, row), pipes[1..])
  }

  /** The sum of the rows' label counts. */
  function RowLabelTotal(rows: seq<LabelRow>): nat
  {
    if |rows| == 0 then 0 else RowLabelTotal(rows[..|rows| - 1]) + rows[|rows| - 1].count
  }

  /** The pipes whose labels are truthy. */
  function LabelledPipes(pipes: seq<Entry>): (n: nat)
    ensures n <= |pipes|
  {
    if |pipes| == 0 then 0 else (if Truthy(pipes[0].value) then 1 else 0) + LabelledPipes(pipes[1..])
  }

  /**
   * The counters agree with the rows: `n_pipes` counts the pipes with
   * labels, which is the number of rows, and `n_labels` is the sum of their
   * label counts.
   */
  lemma {:induction false} LabelCounters(state: LabelState, pipes: seq<Entry>)
    requires state.nPipes == |state.rows| && state.nLabels == RowLabelTotal(state.rows)
    requires LabelsFrom(state, pipes).Ok?
    ensures LabelsFrom(state, pipes).value.nPipes == |LabelsFrom(state, pipes).value.rows|
    ensures LabelsFrom(state, pipes).value.nPipes == state.nPipes + LabelledPipes(pipes)
    ensures LabelsFrom(state, pipes).value.nLabels == RowLabelTotal(LabelsFrom(state, pipes).value.rows)
    decreases |pipes|
  {
    if |pipes| > 0 {
      var row := LabelRowOf(pipes[0].key, pipes[0].value).value;
      var next := Advance(state, row);
      if row.Some? {
        assert next.rows[..|next.rows| - 1] == state.rows;
      }
      assert LabelsFrom(state, pipes) == LabelsFrom(next, pipes[1..]);
      LabelCounters(next, pipes[1..]);
    }
  }

  /** `View label scheme (N labels for P components)`. */
  function LabelSummary(nLabels: nat, nPipes: nat): string
  {
    "View label scheme (" + Strings.NatToString(nLabels) + " labels for " + Strings.NatToString(nPipes) + " components)"
  }

  function LabelTable(rows: seq<LabelRow>): string
  {
    Markdown.Table(seq(|rows|, i requires 0 <= i < |rows| => [rows[i].component, rows[i].labels]),
                   ["Component", "Labels"])
  }

  /** A collapsible block: the summary line and the table of components and labels. */
  function LabelDetails(state: LabelState): string
  {
    Strings.Join(["<details>", "<summary>" + LabelSummary(state.nLabels, state.nPipes) + "</summary>",
                  LabelTable(state.rows), "</details>"], "\n\n")
  }

  /** `_format_label_scheme(data)` as a value. */
  function LabelSchemeText(data: Json): Result<string, PyError>
  {
    if !Truthy(data) then Ok("")
    else if !data.JObj? then Err(AttributeError("items"))
    else
      var state :- LabelsFrom(LabelState([], 0, 0), data.fields);
      if |state.rows| == 0 then Ok("") else Ok(LabelDetails(state))
  }

  /**
   * The label scheme is empty exactly when there is no data or no pipe has
   * labels; otherwise its summary counts the labels and the pipes that have them.
   */
  lemma LabelSchemeEmpty(data: Json)
    requires LabelSchemeText(data).Ok?
    ensures LabelSchemeText(data) == Ok("") <==> !Truthy(data) || LabelledPipes(data.fields) == 0
    ensures Truthy(data) && LabelledPipes(data.fields) > 0 ==>
              var state := LabelsFrom(LabelState([], 0, 0), data.fields).value;
              && LabelSchemeText(data) == Ok(LabelDetails(state))
              && state.nPipes == LabelledPipes(data.fields) == |state.rows|
              && state.nLabels == RowLabelTotal(state.rows)
  {
    if Truthy(data) {
      LabelCounters(LabelState([], 0, 0), data.fields);
      var state := LabelsFrom(LabelState([], 0, 0), data.fields).value;
      if |state.rows| > 0 {
        assert LabelDetails(state)[..9] == "<details>";
      }
    }
  }

  /**
   * The loop of `_format_label_scheme`: skips the pipes without labels and,
   * for the others, appends a row and counts its labels and the pipe.
   */
  method CollectLabels(pipes: seq<Entry>) returns (r: Result<LabelState, PyError>)
    ensures r == LabelsFrom(LabelState([], 0, 0), pipes)
  {
    var nLabels: nat := 0;
    var nPipes: nat := 0;
    var labelData: seq<LabelRow> := [];
    for i := 0 to |pipes|
      invariant LabelsFrom(LabelState(labelData, nLabels, nPipes), pipes[i..])
                == LabelsFrom(LabelState([], 0, 0), pipes)
    {
      assert pipes[i..][1..] == pipes[i + 1..];
      var pipe := pipes[i].key;
      var labels := pipes[i].value;
      if !Truthy(labels) {
        assert LabelRowOf(pipe, labels) == Ok(None);
        continue;
      }
      var items := Iterate(labels);
      if items.Err? {
        assert LabelRowOf(pipe, labels) == Err(items.error);
        return Err(items.error);
      }
      var col1 := Markdown.Bold(Markdown.Code(pipe));
      var col2 := Strings.Join(seq(|items.value|, k requires 0 <= k < |items.value| => LabelCode(items.value[k])), ", ");
      var row := LabelRow(col1, col2, |items.value|);
      assert LabelRowOf(pipe, labels) == Ok(Some(row));
      labelData := labelData + [row];
      nLabels := nLabels + |items.value|;
      nPipes := nPipes + 1;
    }
    assert pipes[|pipes|..] == [];
    r := Ok(LabelState(labelData, nLabels, nPipes));
  }

  /**
   * `_format_label_scheme`: empty for empty data, AttributeError for
   * anything but a dict, otherwise the collapsible block of the rows the
   * label loop collects, or empty when it collects none.
   */
  method FormatLabelScheme(data: Json) returns (r: Result<string, PyError>)
    ensures !Truthy(data) ==> r == Ok("")
    ensures r == LabelSchemeText(data)
  {
    if !Truthy(data) {
      return Ok("");
    }
    if !data.JObj? {
      return Err(AttributeError("items"));
    }
    var collected := CollectLabels(data.fields);
    if collected.Err? {
      return Err(collected.error);
    }
    var state := collected.value;
    if |state.rows| == 0 {
      return Ok("");
    }
    var md := new Markdown.Renderer();
    md.Add("<details>");
    md.Add("<summary>" + LabelSummary(state.nLabels, state.nPipes) + "</summary>");
    md.Add(LabelTable(state.rows));
    md.Add("</details>");
    assert md.data == ["<details>", "<summary>" + LabelSummary(state.nLabels, state.nPipes) + "</summary>",
                       LabelTable(state.rows), "</details>"];
    r := Ok(md.Text());
  }

  // ---------------------------------------------------------------------
  // _format_accuracy
  // ---------------------------------------------------------------------

  /** `isinstance(v, (int, float))`; a bool is an int in Python. */
  predicate Scalar(v: Json)
  {
    v.JInt? || v.JFloat? || v.JBool?
  }

  /** `f"{score * 100:.2f}"`; a float's text is taken as given. */
  function ScoreText(v: Json): string
    requires Scalar(v)
  {
    match v
    case JInt(i) => Strings.IntToString(i * 100) + ".00"
    case JBool(b) => if b then "100.00" else "0.00"
    case JFloat(_, percentText) => percentText
  }

  /** An entry `_format_accuracy` keeps: a number whose key is not excluded. */
  predicate Kept(entry: Entry, exclude: seq<string>)
  {
    Scalar(entry.value) && entry.key !in exclude
  }

  function ScoreRow(entry: Entry): seq<string>
    requires Scalar(entry.value)
  {
    [Markdown.Code(Strings.Upper(entry.key)), ScoreText(entry.value)]
  }

  /** The score rows, in the order of the performance entries. */
  function ScoreRows(fields: seq<Entry>, exclude: seq<string>): (rows: seq<seq<string>>)
    ensures |rows| <= |fields|
  {
    if |fields| == 0 then []
    else (if Kept(fields[0], exclude) then [ScoreRow(fields[0])] else []) + ScoreRows(fields[1..], exclude)
  }

  /** `row` is the score row of some kept entry of `fields`. */
  ghost predicate RowOfKept(row: seq<string>, fields: seq<Entry>, exclude: seq<string>)
  {
    exists i :: 0 <= i < |fields| && Kept(fields[i], exclude) && row == ScoreRow(fields[i])
  }

  /** Every score row comes from a number whose key is not excluded. */
  lemma {:induction false} ScoreRowsFromKept(fields: seq<Entry>, exclude: seq<string>)
    ensures forall row :: row in ScoreRows(fields, exclude) ==> RowOfKept(row, fields, exclude)
    decreases |fields|
  {
    if |fields| > 0 {
      ScoreRowsFromKept(fields[1..], exclude);
      var tail := ScoreRows(fields[1..], exclude);
      forall row | row in ScoreRows(fields, exclude)
        ensures RowOfKept(row, fields, exclude)
      {
        if Kept(fields[0], exclude) && row == ScoreRow(fields[0]) {
          assert 0 <= 0 < |fields| && Kept(fields[0], exclude) && row == ScoreRow(fields[0]);
        } else {
          assert row in tail;
          assert RowOfKept(row, fields[1..], exclude);
          var i :| 0 <= i < |fields[1..]| && Kept(fields[1..][i], exclude) && row == ScoreRow(fields[1..][i]);
          assert fields[1..][i] == fields[i + 1];
          assert 0 <= i + 1 < |fields| && Kept(fields[i + 1], exclude) && row == ScoreRow(fields[i + 1]);
        }
      }
    }
  }

  /** Every number whose key is not excluded has its score row. */
  lemma {:induction false} ScoreRowsComplete(fields: seq<Entry>, exclude: seq<string>)
    ensures forall i :: 0 <= i < |fields| && Kept(fields[i], exclude) ==> ScoreRow(fields[i]) in ScoreRows(fields, exclude)
    decreases |fields|
  {
    if |fields| > 0 {
      ScoreRowsComplete(fields[1..], exclude);
      var rows := ScoreRows(fields, exclude);
      var tail := ScoreRows(fields[1..], exclude);
      forall i | 0 <= i < |fields| && Kept(fields[i], exclude)
        ensures ScoreRow(fields[i]) in rows
      {
        if i == 0 {
          assert rows[0] == ScoreRow(fields[0]);
        } else {
          assert fields[i] == fields[1..][i - 1];
          assert ScoreRow(fields[1..][i - 1]) in tail;
        }
      }
    }
  }

  /** The keys `_format_accuracy` leaves out by default. */
  const DefaultExclude := ["speed"]

  /**
   * `_format_accuracy(data, exclude)`: empty for empty data, AttributeError
   * for anything but a dict, otherwise the table of the kept scores.
   */
  function AccuracyText(data: Json, exclude: seq<string>): (r: Result<string, PyError>)
    ensures !Truthy(data) ==> r == Ok("")
    ensures Truthy(data) && !data.JObj? ==> r.Err?
    ensures Truthy(data) && data.JObj? ==> r == Ok(Markdown.Table(ScoreRows(data.fields, exclude), ["Type", "Score"]))
  {
    if !Truthy(data) then Ok("")
    else if !data.JObj? then Err(AttributeError("items"))
    else Ok(Markdown.Table(ScoreRows(data.fields, exclude), ["Type", "Score"]))
  }

  // ---------------------------------------------------------------------
  // generate_readme
  // ---------------------------------------------------------------------

  /** The values the README is made of, read from the meta data in the order Python reads them. */
  datatype Parts = Parts(
    rows: seq<seq<string>>,
    description: Json,
    labelScheme: string,
    accuracy: string,
    notes: Json)

  /**
   * The first five cells, read in order: name and version are required,
   * the pipeline and component lists are shown as code, and the vectors
   * line follows.
   */
  function HeadCells(meta: seq<Entry>): (r: Result<seq<string>, PyError>)
    ensures r.Ok? ==> |r.value| == 5
    ensures r.Ok? ==> "name" in Keys(meta) && "version" in Keys(meta)
    ensures r.Ok? ==> Get(meta, "name").Some? && Get(meta, "version").Some?
    ensures r.Ok? ==> r.value[0] == CodeOf(Get(meta, "name").value) && r.value[1] == CodeOf(Get(meta, "version").value)
    ensures "name" !in Keys(meta) ==> r == Err(KeyError("name"))
  {
    var name :- Required(meta, "name");
    var version :- Required(meta, "version");
    var lists :- ListCells(meta);
    Ok([CodeOf(name), CodeOf(version)] + lists)
  }

  /** The pipeline, components and vectors cells, read in that order. */
  function ListCells(meta: seq<Entry>): (r: Result<seq<string>, PyError>)
    ensures r.Ok? ==> |r.value| == 3
  {
    var pipeline :- CodeList(GetOr(meta, "pipeline", JArr([])));
    var components :- CodeList(GetOr(meta, "components", JArr([])));
    var vectors :- VectorsText(GetOr(meta, "vectors", JObj([])));
    Ok([pipeline, components, vectors])
  }

  /** The sources, the label scheme and the accuracy, in that order. */
  datatype Sections = Sections(sources: string, labelScheme: string, accuracy: string)

  function SectionsOf(meta: seq<Entry>): Result<Sections, PyError>
  {
    var sources :- SourcesText(GetOr(meta, "sources", JNull));
    var labelScheme :- LabelSchemeText(GetOr(meta, "labels", JNull));
    var accuracy :- AccuracyText(GetOr(meta, "performance", JNull), DefaultExclude);
    Ok(Sections(sources, labelScheme, accuracy))
  }

  /** The license cell: the license as code, or "n/a" when it is missing or falsy. */
  function LicenseCell(meta: seq<Entry>): (r: string)
    ensures Get(meta, "license").None? ==> r == "n/a"
    ensures Get(meta, "license").Some? ==>
              r == if Truthy(Get(meta, "license").value) then CodeOf(Get(meta, "license").value) else "n/a"
  {
    var license := Get(meta, "license");
    if license.Some? && Truthy(license.value) then CodeOf(license.value) else "n/a"
  }

  /**
   * The author and size cells. A missing or falsy author or size reads
   * "n/a"; the author is a link exactly when the meta data has a url; a
   * cell that is not a string cannot be joined into the table.
   */
  function TailCells(meta: seq<Entry>): (r: Result<(string, string), PyError>)
    ensures var author := GetOrElse(meta, "author", JStr("n/a"));
            var size := GetOrElse(meta, "size", JStr("n/a"));
            && (r.Ok? <==> ("url" in Keys(meta) || author.JStr?) && size.JStr?)
            && (r.Ok? ==> r.value.0 == (if "url" in Keys(meta) then Markdown.Link(Str(author), Str(Get(meta, "url").value))
                                        else author.s)
                          && r.value.1 == size.s)
  {
    var author := GetOrElse(meta, "author", JStr("n/a"));
    var size := GetOrElse(meta, "size", JStr("n/a"));
    var authorCell :=
      if "url" in Keys(meta) then JStr(Markdown.Link(Str(author), Str(Get(meta, "url").value))) else author;
    var authorText :- Cell(authorCell);
    var sizeText :- Cell(size);
    Ok((authorText, sizeText))
  }

  /**
   * The values the README is made of, read from the meta data in the order
   * Python reads them: the head cells, the sections, the spaCy version
   * (required) and, when the table is joined, the author and size cells.
   * The second ensures spells out the feature table row by row: the table's
   * layout is itself what `generate_readme` promises.
   */
  function ReadmeParts(meta: seq<Entry>): (r: Result<Parts, PyError>)
    ensures r.Ok? ==> HeadCells(meta).Ok? && SectionsOf(meta).Ok? && "spacy_version" in Keys(meta) && TailCells(meta).Ok?
    ensures r.Ok? ==>
              var head := HeadCells(meta).value;
              var tail := TailCells(meta).value;
              r.value.rows == [
                [Markdown.Bold("Name"), head[0]],
                [Markdown.Bold("Version"), head[1]],
                [Markdown.Bold("spaCy"), CodeOf(Get(meta, "spacy_version").value)],
                [Markdown.Bold("Default Pipeline"), head[2]],
                [Markdown.Bold("Components"), head[3]],
                [Markdown.Bold("Vectors"), head[4]],
                [Markdown.Bold("Sources"), if SectionsOf(meta).value.sources != "" then SectionsOf(meta).value.sources else "n/a"],
                [Markdown.Bold("License"), LicenseCell(meta)],
                [Markdown.Bold("Author"), tail.0],
                [Markdown.Bold("Model size"), tail.1]]
  {
    var head :- HeadCells(meta);
    var sections :- SectionsOf(meta);
    var spacyVersion :- Required(meta, "spacy_version");
    var tail :- TailCells(meta);
    var rows := [
      [Markdown.Bold("Name"), head[0]],
      [Markdown.Bold("Version"), head[1]],
      [Markdown.Bold("spaCy"), CodeOf(spacyVersion)],
      [Markdown.Bold("Default Pipeline"), head[2]],
      [Markdown.Bold("Components"), head[3]],
      [Markdown.Bold("Vectors"), head[4]],
      [Markdown.Bold("Sources"), if sections.sources != "" then sections.sources else "n/a"],
      [Markdown.Bold("License"), LicenseCell(meta)],
      [Markdown.Bold("Author"), tail.0],
      [Markdown.Bold("Model size"), tail.1]
    ];
    Ok(Parts(rows, GetOr(meta, "description", JNull), sections.labelScheme, sections.accuracy,
             GetOr(meta, "notes", JStr(""))))
  }

  function FeatureTable(parts: Parts): string
  {
    Markdown.Table(parts.rows, ["Feature", "Description"])
  }

  /**
   * The README's blocks in order: the description when it is truthy, the
   * feature table, the label scheme and the accuracy under their titles when
   * they are not empty, and the notes when they are truthy. The renderer
   * joins its blocks as strings, so a truthy description or notes value that
   * is not a string is a TypeError. The second ensures gives that block
   * order in full, since the order is itself what `generate_readme` promises.
   */
  function ReadmeBlocks(parts: Parts): (r: Result<seq<string>, PyError>)
    ensures r.Ok? <==> (!Truthy(parts.description) || parts.description.JStr?)
                       && (!Truthy(parts.notes) || parts.notes.JStr?)
    ensures r.Ok? ==>
              r.value == (if Truthy(parts.description) then [parts.description.s] else [])
                         + [FeatureTable(parts)]
                         + (if parts.labelScheme != "" then [Markdown.Title(3, "Label Scheme"), parts.labelScheme] else [])
                         + (if parts.accuracy != "" then [Markdown.Title(3, "Accuracy"), parts.accuracy] else [])
                         + (if Truthy(parts.notes) then [parts.notes.s] else [])
  {
    if Truthy(parts.description) && !parts.description.JStr? then Err(JoinError)
    else if Truthy(parts.notes) && !parts.notes.JStr? then Err(JoinError)
    else
      Ok((if Truthy(parts.description) then [parts.description.s] else [])
         + [FeatureTable(parts)]
         + (if parts.labelScheme != "" then [Markdown.Title(3, "Label Scheme"), parts.labelScheme] else [])
         + (if parts.accuracy != "" then [Markdown.Title(3, "Accuracy"), parts.accuracy] else [])
         + (if Truthy(parts.notes) then [parts.notes.s] else []))
  }

  /** `generate_readme(meta)` as a value. */
  function ReadmeText(meta: seq<Entry>): Result<string, PyError>
  {
    var parts :- ReadmeParts(meta);
    RenderedText(parts)
  }

  /** The README text of the parts: their blocks joined by a blank line. */
  function RenderedText(parts: Parts): Result<string, PyError>
  {
    var blocks :- ReadmeBlocks(parts);
    Ok(Strings.Join(blocks, "\n\n"))
  }

  /** The parts added one block at a time to a Markdown renderer, whose text is the README. */
  method RenderParts(parts: Parts) returns (r: Result<string, PyError>)
    ensures r == RenderedText(parts)
  {
    var md := new Markdown.Renderer();
    if Truthy(parts.description) {
      if !parts.description.JStr? {
        return Err(JoinError);
      }
      md.Add(parts.description.s);
    }
    ghost var blocks := if Truthy(parts.description) then [parts.description.s] else [];
    assert md.data == blocks;
    md.Add(FeatureTable(parts));
    blocks := blocks + [FeatureTable(parts)];
    if parts.labelScheme != "" {
      md.Add(Markdown.Title(3, "Label Scheme"));
      md.Add(parts.labelScheme);
    }
    blocks := blocks + (if parts.labelScheme != "" then [Markdown.Title(3, "Label Scheme"), parts.labelScheme] else []);
    assert md.data == blocks;
    if parts.accuracy != "" {
      md.Add(Markdown.Title(3, "Accuracy"));
      md.Add(parts.accuracy);
    }
    blocks := blocks + (if parts.accuracy != "" then [Markdown.Title(3, "Accuracy"), parts.accuracy] else []);
    assert md.data == blocks;
    if Truthy(parts.notes) {
      if !parts.notes.JStr? {
        return Err(JoinError);
      }
      md.Add(parts.notes.s);
    }
    blocks := blocks + (if Truthy(parts.notes) then [parts.notes.s] else []);
    assert md.data == blocks;
    assert ReadmeBlocks(parts) == Ok(blocks);
    r := Ok(md.Text());
  }

  /** `generate_readme(meta)`. */
  method GenerateReadme(meta: seq<Entry>) returns (r: Result<string, PyError>)
    ensures r == ReadmeText(meta)
  {
    var partsOrError := ReadmeParts(meta);
    if partsOrError.Err? {
      return Err(partsOrError.error);
    }
    r := RenderParts(partsOrError.value);
  }
}
