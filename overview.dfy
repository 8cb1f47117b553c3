/**
 * `overview_of_models` of `pymusas_models/__main__.py`: the Markdown table
 * with one row per packaged model. The model directories are sorted by the
 * first two `_`-separated parts of their names, then each directory's
 * `meta.json` gives the row: the language, the model name, whether it has an
 * MWE rule, its POS mapper, its ranker and its file size.
 *
 * A directory is its name and the contents of its `meta.json` (absent when
 * the file is missing); listing the models directory and reading the files
 * are outside the model.
 */
module Overview {
  import opened Wrappers
  import opened Json
  import Strings
  import Markdown
  import ModelCreation

  /** One entry of the models directory: its name and its `meta.json`, if there is one. */
  datatype ModelDir = ModelDir(name: string, metaFile: Option<Json>)

  /** Why the overview could not be printed. */
  datatype OverviewError =
    | NoSortKey(name: string)
    | MetaFileMissing(directory: string)
    | Lookup(cause: PyError)

  const Headers := ["Language (BCP 47 language code)", "Model Name", "MWE", "POS Mapper", "Ranker", "File Size"]

  // ---------------------------------------------------------------------
  // Sorting the directories
  // ---------------------------------------------------------------------

  /** `(name.split('_')[0], name.split('_')[1])`: an IndexError when there is no `_`. */
  function SortKey(name: string): (k: Option<(string, string)>)
    ensures k.Some? <==> '_' in name
  {
    var parts := Strings.Split(name, '_');
    Strings.SplitCount(name, '_');
    if |parts| < 2 then None else Some((parts[0], parts[1]))
  }

  /** Python's `<=` on two pairs of strings: the first parts decide unless they are equal. */
  predicate KeyLe(a: (string, string), b: (string, string))
  {
    if a.0 == b.0 then Strings.StrLe(a.1, b.1) else Strings.StrLe(a.0, b.0)
  }

  lemma KeyLeTotal(a: (string, string), b: (string, string))
    ensures KeyLe(a, b) || KeyLe(b, a)
  {
    Strings.StrLeTotal(a.0, b.0);
    Strings.StrLeTotal(a.1, b.1);
  }

  lemma KeyLeTransitive(a: (string, string), b: (string, string), c: (string, string))
    requires KeyLe(a, b) && KeyLe(b, c)
    ensures KeyLe(a, c)
  {
    if a.0 == b.0 && b.0 == c.0 {
      Strings.StrLeTransitive(a.1, b.1, c.1);
    } else if a.0 == b.0 {
      assert KeyLe(a, c);
    } else if b.0 == c.0 {
      assert KeyLe(a, c);
    } else {
      Strings.StrLeTransitive(a.0, b.0, c.0);
      if a.0 == c.0 {
        Strings.StrLeAntisymmetric(a.0, b.0);
      }
    }
  }

  /** A directory with its sort key. */
  datatype Keyed = Keyed(key: (string, string), dir: ModelDir)

  /** The sort keys of all directories, computed before any comparison; the first failure raises. */
  function KeyedDirs(dirs: seq<ModelDir>): (r: Result<seq<Keyed>, OverviewError>)
    ensures r.Ok? ==> |r.value| == |dirs|
                      && forall i :: 0 <= i < |dirs| ==> r.value[i].dir == dirs[i]
                                                         && Some(r.value[i].key) == SortKey(dirs[i].name)
    ensures r.Ok? <==> forall i :: 0 <= i < |dirs| ==> '_' in dirs[i].name
  {
    if |dirs| == 0 then Ok([])
    else
      match SortKey(dirs[0].name)
      case None => Err(NoSortKey(dirs[0].name))
      case Some(k) =>
        match KeyedDirs(dirs[1..])
        case Err(e) =>
          assert exists i :: 1 <= i < |dirs| && '_' !in dirs[i].name by {
            var j :| 0 <= j < |dirs[1..]| && '_' !in dirs[1..][j].name;
            assert dirs[j + 1] == dirs[1..][j];
          }
          Err(e)
        case Ok(rest) =>
          assert forall i :: 1 <= i < |dirs| ==> dirs[i] == dirs[1..][i - 1];
          Ok([Keyed(k, dirs[0])] + rest)
  }

  predicate SortedByKey(s: seq<Keyed>)
  {
    forall i, j :: 0 <= i < j < |s| ==> KeyLe(s[i].key, s[j].key)
  }

  /** Inserts `x` after every element whose key is at most its own: equal keys keep their order. */
  function InsertByKey(x: Keyed, s: seq<Keyed>): (r: seq<Keyed>)
    ensures |r| == |s| + 1 && multiset(r) == multiset(s) + multiset{x}
    decreases |s|
  {
    if |s| == 0 then [x]
    else if KeyLe(s[|s| - 1].key, x.key) then s + [x]
    else
      assert s == s[..|s| - 1] + [s[|s| - 1]];
      InsertByKey(x, s[..|s| - 1]) + [s[|s| - 1]]
  }

  /** Python's stable `sorted(..., key=...)` as an insertion sort. */
  function SortByKey(s: seq<Keyed>): (r: seq<Keyed>)
    ensures |r| == |s| && multiset(r) == multiset(s)
    decreases |s|
  {
    if |s| == 0 then []
    else
      assert s == s[..|s| - 1] + [s[|s| - 1]];
      InsertByKey(s[|s| - 1], SortByKey(s[..|s| - 1]))
  }

  /** Inserting into a sorted sequence keeps it sorted. */
  lemma {:induction false} InsertByKeySorted(x: Keyed, s: seq<Keyed>)
    requires SortedByKey(s)
    ensures SortedByKey(InsertByKey(x, s))
    decreases |s|
  {
    if |s| > 0 {
      var last := s[|s| - 1];
      if KeyLe(last.key, x.key) {
        var r := s + [x];
        forall i, j | 0 <= i < j < |r| ensures KeyLe(r[i].key, r[j].key) {
          if j == |s| && i < |s| - 1 {
            KeyLeTransitive(s[i].key, last.key, x.key);
          }
        }
      } else {
        KeyLeTotal(last.key, x.key);
        var front := s[..|s| - 1];
        InsertByKeySorted(x, front);
        var inserted := InsertByKey(x, front);
        var r := inserted + [last];
        forall i | 0 <= i < |inserted| ensures KeyLe(inserted[i].key, last.key) {
          assert inserted[i] in multiset(inserted);
          if inserted[i] != x {
            assert inserted[i] in multiset(front);
            var k :| 0 <= k < |front| && front[k] == inserted[i];
            assert s[k] == front[k];
          }
        }
        forall i, j | 0 <= i < j < |r| ensures KeyLe(r[i].key, r[j].key) {
          if j < |inserted| {
            assert r[i] == inserted[i] && r[j] == inserted[j];
          }
        }
      }
    }
  }

  /** The sorted directories are in ascending key order. */
  lemma {:induction false} SortByKeySorted(s: seq<Keyed>)
    ensures SortedByKey(SortByKey(s))
    decreases |s|
  {
    if |s| > 0 {
      SortByKeySorted(s[..|s| - 1]);
      InsertByKeySorted(s[|s| - 1], SortByKey(s[..|s| - 1]));
    }
  }

  // ---------------------------------------------------------------------
  // One row
  // ---------------------------------------------------------------------

  /** A row of the table; the size is whatever `meta["size"]` holds. */
  datatype Row = Row(language: string, name: string, mwe: string, posMapper: string, ranker: string, size: Json)

  const CheckMark := ":heavy_check_mark:"
  const Cross := ":x:"

  /** The last `_`-part of a model name, the ranker's name. */
  function LastPart(name: string): string
  {
    var parts := Strings.Split(name, '_');
    parts[|parts| - 1]
  }

  /** The MWE column: a check mark for the dual (single and MWE) taggers. */
  function MweMark(name: string): string
  {
    if Strings.Contains(name, "dual") then CheckMark else Cross
  }

  /** The POS mapper label, found by the mapper's name inside the model name. */
  function MapperLabel(name: string): string
  {
    if Strings.Contains(name, "upos2usas") then "UPOS 2 USAS"
    else if Strings.Contains(name, "basiccorcencc2usas") then "Basic CorCenCC 2 USAS"
    else "None"
  }

  /**
   * The row of one model: `meta["name"]` and `meta["full_language_name"]`
   * are looked up first, the name must be a string to be split, and
   * `meta["size"]` is looked up last.
   */
  function RowOf(meta: Json): (r: Result<Row, OverviewError>)
    ensures r.Ok? ==> Subscript(meta, "name") == Ok(JStr(r.value.name))
                      && Subscript(meta, "full_language_name").Ok?
                      && Subscript(meta, "size") == Ok(r.value.size)
                      && r.value == NameRow(r.value.name, Subscript(meta, "full_language_name").value, r.value.size)
    ensures Subscript(meta, "name").Err? ==> r == Err(Lookup(Subscript(meta, "name").error))
  {
    var name :- LookupOf(Subscript(meta, "name"));
    var languageName :- LookupOf(Subscript(meta, "full_language_name"));
    if !name.JStr? then Err(Lookup(AttributeError("split")))
    else
      var size :- LookupOf(Subscript(meta, "size"));
      Ok(NameRow(name.s, languageName, size))
  }

  /** The row of a model whose name is a string: the cells read from its `_`-parts. */
  function NameRow(name: string, languageName: Json, size: Json): (r: Row)
    ensures r.name == name && r.size == size
  {
    var parts := Strings.Split(name, '_');
    var language := Str(languageName) + " (" + parts[0] + ")";
    var ranker := Strings.Capitalize(LastPart(name));
    Row(language, name, MweMark(name), MapperLabel(name), ranker, size)
  }

  function LookupOf<T>(r: Result<T, PyError>): Result<T, OverviewError>
  {
    match r
    case Ok(v) => Ok(v)
    case Err(e) => Err(Lookup(e))
  }

  /**
   * What a row says about its model name: the language code is the first
   * `_`-part, MWE is a check mark exactly when the name contains `dual`, the
   * mapper label follows the mapper names it contains, and the ranker is the
   * last `_`-part, capitalised.
   */
  predicate ReadsName(row: Row, languageName: Json)
  {
    ReadsParts(row, languageName) && ReadsMarks(row)
  }

  /** The language code is the first `_`-part, the ranker the last, capitalised. */
  predicate ReadsParts(row: Row, languageName: Json)
  {
    var parts := Strings.Split(row.name, '_');
    && row.language == Str(languageName) + " (" + parts[0] + ")"
    && row.ranker == Strings.Capitalize(LastPart(row.name))
  }

  /** The MWE mark and the mapper label follow the names the model name contains. */
  predicate ReadsMarks(row: Row)
  {
    && (row.mwe == CheckMark <==> Strings.Contains(row.name, "dual"))
    && (row.mwe == CheckMark || row.mwe == Cross)
    && (Strings.Contains(row.name, "upos2usas") ==> row.posMapper == "UPOS 2 USAS")
    && (!Strings.Contains(row.name, "upos2usas") && Strings.Contains(row.name, "basiccorcencc2usas")
        ==> row.posMapper == "Basic CorCenCC 2 USAS")
    && (!Strings.Contains(row.name, "upos2usas") && !Strings.Contains(row.name, "basiccorcencc2usas")
        ==> row.posMapper == "None")
  }

  /** The row of a name reads the name back. */
  lemma NameRowReadsName(name: string, languageName: Json, size: Json)
    ensures ReadsName(NameRow(name, languageName, size), languageName)
  {
    NameRowReadsParts(name, languageName, size);
    NameRowReadsMarks(name, languageName, size);
  }

  lemma NameRowReadsParts(name: string, languageName: Json, size: Json)
    ensures ReadsParts(NameRow(name, languageName, size), languageName)
  {
    NameRowLanguage(name, languageName, size);
    NameRowRanker(name, languageName, size);
  }

  lemma NameRowLanguage(name: string, languageName: Json, size: Json)
    ensures var parts := Strings.Split(name, '_');
      NameRow(name, languageName, size).language == Str(languageName) + " (" + parts[0] + ")"
  {
  }

  lemma NameRowRanker(name: string, languageName: Json, size: Json)
    ensures NameRow(name, languageName, size).ranker == Strings.Capitalize(LastPart(name))
  {
  }

  lemma NameRowReadsMarks(name: string, languageName: Json, size: Json)
    ensures ReadsMarks(NameRow(name, languageName, size))
  {
    MarksDiffer();
  }

  /** Every row of the table reads its model's name back. */
  lemma RowFacts(meta: Json)
    requires RowOf(meta).Ok?
    ensures ReadsName(RowOf(meta).value, Subscript(meta, "full_language_name").value)
  {
    var row := RowOf(meta).value;
    NameRowReadsName(row.name, Subscript(meta, "full_language_name").value, row.size);
  }

  lemma MarksDiffer()
    ensures CheckMark != Cross
  {
    assert CheckMark[1] != Cross[1];
  }

  /** `sub` sits in `a + b` at offset `|a|` when `b` starts with it. */
  lemma ContainsAfter(a: string, b: string, sub: string)
    requires sub <= b
    ensures Strings.Contains(a + b, sub)
  {
    assert (a + b)[|a|..|a| + |sub|] == sub;
    assert Strings.OccursAt(a + b, sub, |a|);
    Strings.ContainsAt(a + b, sub);
  }

  /** The ranker part of every created name reads back as `Contextual`. */
  lemma ContextualCapitalized(ranker: string)
    requires ranker == "contextual"
    ensures Strings.Capitalize(ranker) == "Contextual"
  {
    ContextualIsLowerCase();
    Strings.CapitalizeLowerWord(ranker);
    UpperC();
    ContextualTail();
  }

  lemma UpperC()
    ensures Strings.UpperChar('c') == 'C'
  {
  }

  lemma ContextualTail()
    ensures ['C'] + "contextual"[1..] == "Contextual"
  {
  }

  lemma ContextualIsLowerCase()
    ensures forall i :: 0 < i < |"contextual"| ==> !Strings.IsUpper("contextual"[i])
  {
  }

  /** A created model name contains its permutation and its mapper name. */
  lemma ModelNameContains(code: string, permutation: string, mapperName: string)
    ensures Strings.Contains(ModelCreation.ModelName(code, permutation, mapperName), permutation)
    ensures Strings.Contains(ModelCreation.ModelName(code, permutation, mapperName), mapperName)
  {
    ModelCreation.ModelNameText(code, permutation, mapperName);
    var name := ModelCreation.ModelName(code, permutation, mapperName);
    assert name == (code + "_") + (permutation + "_" + mapperName + "_contextual");
    ContainsAfter(code + "_", permutation + "_" + mapperName + "_contextual", permutation);
    assert name == (code + "_" + permutation + "_") + (mapperName + "_contextual");
    ContainsAfter(code + "_" + permutation + "_", mapperName + "_contextual", mapperName);
  }

  /**
   * For a model that `create_models` named, the row reads the name back: its
   * language code, the check mark of a dual model, the UPOS mapper label and
   * the `Contextual` ranker.
   */
  lemma RowOfCreatedName(meta: Json, code: string, permutation: string, mapperName: string)
    requires '_' !in code && '_' !in permutation && '_' !in mapperName
    requires RowOf(meta).Ok? && RowOf(meta).value.name == ModelCreation.ModelName(code, permutation, mapperName)
    ensures var row := RowOf(meta).value;
            && row.language == Str(Subscript(meta, "full_language_name").value) + " (" + code + ")"
            && row.ranker == "Contextual"
            && (permutation == "dual" ==> row.mwe == CheckMark)
            && (mapperName == "upos2usas" ==> row.posMapper == "UPOS 2 USAS")
  {
    RowFacts(meta);
    ModelCreation.ModelNameParts(code, permutation, mapperName);
    ModelNameContains(code, permutation, mapperName);
    assert LastPart(RowOf(meta).value.name) == "contextual";
    ContextualCapitalized(LastPart(RowOf(meta).value.name));
  }

  // ---------------------------------------------------------------------
  // The table
  // ---------------------------------------------------------------------

  /** The row of one sorted directory: its `meta.json` must exist. */
  function DirRow(dir: ModelDir): Result<Row, OverviewError>
  {
    match dir.metaFile
    case None => Err(MetaFileMissing(dir.name))
    case Some(meta) => RowOf(meta)
  }

  /** The rows appended from `done` on, in the order of `dirs`; the first failure stops. */
  function RowsFrom(done: seq<Row>, dirs: seq<Keyed>): Result<seq<Row>, OverviewError>
    decreases |dirs|
  {
    if |dirs| == 0 then Ok(done)
    else
      var row :- DirRow(dirs[0].dir);
      RowsFrom(done + [row], dirs[1..])
  }

  /** Appends `f` of each element to `done`, in order; the first failure stops. */
  function Collect<T, U, E>(f: T -> Result<U, E>, done: seq<U>, xs: seq<T>): Result<seq<U>, E>
    decreases |xs|
  {
    if |xs| == 0 then Ok(done)
    else
      var y :- f(xs[0]);
      Collect(f, done + [y], xs[1..])
  }

  /** When no element fails, the result is `done` followed by one value per element, in order. */
  lemma {:induction false} CollectAligned<T, U, E>(f: T -> Result<U, E>, done: seq<U>, xs: seq<T>)
    requires Collect(f, done, xs).Ok?
    ensures |Collect(f, done, xs).value| == |done| + |xs|
    ensures Collect(f, done, xs).value[..|done|] == done
    ensures forall i :: 0 <= i < |xs| ==> f(xs[i]) == Ok(Collect(f, done, xs).value[|done| + i])
    decreases |xs|
  {
    if |xs| > 0 {
      var y := f(xs[0]).value;
      CollectAligned(f, done + [y], xs[1..]);
      var r := Collect(f, done, xs).value;
      assert r == Collect(f, done + [y], xs[1..]).value;
      assert r[..|done| + 1][..|done|] == r[..|done|];
      assert r[..|done| + 1] == done + [y];
      assert r[|done|] == r[..|done| + 1][|done|];
      assert forall i :: 0 < i < |xs| ==> xs[i] == xs[1..][i - 1];
    }
  }

  /** The row of a keyed directory. */
  function KeyedRow(k: Keyed): Result<Row, OverviewError>
  {
    DirRow(k.dir)
  }

  lemma {:induction false} RowsFromIsCollect(done: seq<Row>, dirs: seq<Keyed>)
    ensures RowsFrom(done, dirs) == Collect(KeyedRow, done, dirs)
    decreases |dirs|
  {
    if |dirs| > 0 && DirRow(dirs[0].dir).Ok? {
      RowsFromIsCollect(done + [DirRow(dirs[0].dir).value], dirs[1..]);
    }
  }

  /** When every row can be read, there is one per directory, in the same order. */
  lemma RowsFromAligned(done: seq<Row>, dirs: seq<Keyed>)
    requires RowsFrom(done, dirs).Ok?
    ensures |RowsFrom(done, dirs).value| == |done| + |dirs|
    ensures RowsFrom(done, dirs).value[..|done|] == done
    ensures forall i :: 0 <= i < |dirs| ==> DirRow(dirs[i].dir) == Ok(RowsFrom(done, dirs).value[|done| + i])
  {
    RowsFromIsCollect(done, dirs);
    CollectAligned(KeyedRow, done, dirs);
    assert forall i :: 0 <= i < |dirs| ==> KeyedRow(dirs[i]) == DirRow(dirs[i].dir);
  }

  /** The cells of a row; the table joins them, so the size has to be a string. */
  function Cells(row: Row): seq<string>
    requires row.size.JStr?
  {
    [row.language, row.name, row.mwe, row.posMapper, row.ranker, row.size.s]
  }

  /** The cells of every row, in order. */
  function CellRows(rows: seq<Row>): (r: seq<seq<string>>)
    requires forall i :: 0 <= i < |rows| ==> rows[i].size.JStr?
    ensures |r| == |rows| && forall i :: 0 <= i < |rows| ==> r[i] == Cells(rows[i])
  {
    if |rows| == 0 then [] else [Cells(rows[0])] + CellRows(rows[1..])
  }

  /** `md.table(table_data, headers)`: a TypeError when a size is not a string. */
  function TableText(rows: seq<Row>): (r: Result<string, OverviewError>)
    ensures r.Ok? <==> forall i :: 0 <= i < |rows| ==> rows[i].size.JStr?
  {
    if forall i :: 0 <= i < |rows| ==> rows[i].size.JStr? then
      Ok(Markdown.Table(CellRows(rows), Headers))
    else Err(Lookup(TypeError("sequence item: expected str instance")))
  }

  /** `overview_of_models` as a value: the text it prints, or the error it raises. */
  function OverviewOf(dirs: seq<ModelDir>): Result<string, OverviewError>
  {
    var keyed :- KeyedDirs(dirs);
    var rows :- RowsFrom([], SortByKey(keyed));
    TableText(rows)
  }

  /**
   * When every sorted directory gives a row, the rows follow the sorted
   * directories one for one, and the sorted list is a permutation of the
   * directories in ascending key order.
   */
  lemma SortedRows(keyed: seq<Keyed>)
    requires RowsFrom([], SortByKey(keyed)).Ok?
    ensures var sorted := SortByKey(keyed);
            var rows := RowsFrom([], sorted).value;
            && SortedByKey(sorted)
            && multiset(sorted) == multiset(keyed)
            && |rows| == |keyed|
            && (forall i :: 0 <= i < |keyed| ==> DirRow(sorted[i].dir) == Ok(rows[i]))
  {
    var sorted := SortByKey(keyed);
    SortByKeySorted(keyed);
    var none: seq<Row> := [];
    RowsFromAligned(none, sorted);
    var rows := RowsFrom(none, sorted).value;
    forall i | 0 <= i < |keyed| ensures DirRow(sorted[i].dir) == Ok(rows[i]) {
      assert |none| + i == i;
    }
  }

  /**
   * A printed overview has one row per directory, and the rows follow the
   * directories sorted by their first two name parts.
   */
  lemma OverviewRows(dirs: seq<ModelDir>)
    requires OverviewOf(dirs).Ok?
    ensures KeyedDirs(dirs).Ok?
    ensures var sorted := SortByKey(KeyedDirs(dirs).value);
            && SortedByKey(sorted)
            && multiset(sorted) == multiset(KeyedDirs(dirs).value)
            && RowsFrom([], sorted).Ok?
            && |RowsFrom([], sorted).value| == |dirs|
            && (forall i :: 0 <= i < |dirs| ==> DirRow(sorted[i].dir) == Ok(RowsFrom([], sorted).value[i]))
  {
    var keyed := KeyedDirs(dirs).value;
    assert RowsFrom([], SortByKey(keyed)).Ok?;
    SortedRows(keyed);
  }

  /**
   * `overview_of_models`: the directories sorted by their key, then one row
   * appended per directory, then the table.
   */
  method OverviewOfModels(dirs: seq<ModelDir>) returns (r: Result<string, OverviewError>)
    ensures r == OverviewOf(dirs)
  {
    var keyed := KeyedDirs(dirs);
    if keyed.Err? {
      return Err(keyed.error);
    }
    var sorted := SortByKey(keyed.value);
    var tableData: seq<Row> := [];
    for i := 0 to |sorted|
      invariant RowsFrom(tableData, sorted[i..]) == RowsFrom([], sorted)
    {
      assert sorted[i..][1..] == sorted[i + 1..];
      var dir := sorted[i].dir;
      if dir.metaFile.None? {
        return Err(MetaFileMissing(dir.name));
      }
      var row := RowOf(dir.metaFile.value);
      if row.Err? {
        return Err(row.error);
      }
      tableData := tableData + [row.value];
    }
    assert sorted[|sorted|..] == [];
    r := TableText(tableData);
  }
}
