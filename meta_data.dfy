/**
 * `add_model_specific_meta_data`, `create_description` and `create_notes` of
 * `pymusas_models/__main__.py`: after a model is packaged, its dist files are
 * classified by suffix into the two checksums, the largest file gives the
 * model size, four keys are written back to `meta.json`, and the README is
 * generated from the meta data plus a description and installation notes.
 *
 * The file system is a `ModelDirectory` object: its `meta.json` (absent or a
 * JSON object), the listing of its `dist` folder as records (name, size,
 * hash) in listing order, and its README. Sizes and SHA-256 hashes are inputs.
 */
module MetaData {
  import opened Wrappers
  import opened Json
  import Strings
  import Markdown
  import ReadmeGenerator

  /** The GitHub release page every download link points into. */
  const ReleaseDownloads := "https://github.com/UCREL/pymusas-models/releases/download/"

  /** `create_notes(package_name)`: the pip command for the release's wheel in a bash block. */
  function CreateNotes(packageName: string): (r: string)
    ensures r == "# Installation\n``` bash\npip install " + WheelUrl(packageName) + "\n```"
  {
    "# Installation\n``` bash\npip install " + ReleaseDownloads + packageName + "/" + packageName
      + "-py3-none-any.whl" + "\n```"
  }

  /** The download URL of the wheel of a release. */
  function WheelUrl(packageName: string): (r: string)
    ensures Strings.EndsWith(r, "-py3-none-any.whl")
  {
    var r := ReleaseDownloads + packageName + "/" + packageName + "-py3-none-any.whl";
    assert r[|r| - |"-py3-none-any.whl"|..] == "-py3-none-any.whl";
    r
  }

  /** The download-count shield of one dist file, linking to its download. */
  function DownloadShield(packageName: string, distName: string): string
  {
    "<a href=\"" + ReleaseDownloads + packageName + "/" + distName + "\">"
      + "<img src=\"https://img.shields.io/github/downloads/UCREL/pymusas-models/"
      + packageName + "/" + distName + "?label=downloads&style=flat-square\"/></a>"
  }

  /**
   * `create_description`: the two download shields in a paragraph, the two
   * checksums as quoted code and the "<language> USAS semantic tagger" line.
   * The checksums are formatted with `str`, as in the f-string.
   */
  function CreateDescription(languageName: string, packageName: string, distNames: (string, string),
                             tarGzChecksum: Json, wheelChecksum: Json): (r: string)
    ensures Strings.EndsWith(r, languageName + " USAS semantic tagger")
  {
    var tail := languageName + " USAS semantic tagger";
    var r := ShieldParagraph(packageName, distNames) + ChecksumLine(".tar.gz", tarGzChecksum)
      + ChecksumLine(".whl", wheelChecksum) + tail;
    assert r[|r| - |tail|..] == tail;
    r
  }

  /** The paragraph holding the download shields of the two dist files, in the given order. */
  function ShieldParagraph(packageName: string, distNames: (string, string)): string
  {
    Shields(packageName, distNames) + "\n</p>\n\n"
  }

  /** The opening of the paragraph holding the two download shields, one per line. */
  function Shields(packageName: string, distNames: (string, string)): string
  {
    "<p>\n" + DownloadShield(packageName, distNames.0) + "\n" + DownloadShield(packageName, distNames.1)
  }

  /** The quoted line giving one checksum as inline code. */
  function ChecksumLine(suffix: string, checksum: Json): string
  {
    ChecksumLabel(suffix) + Markdown.Code(Str(checksum)) + "\n\n"
  }

  function ChecksumLabel(suffix: string): string
  {
    "> **Checksum (SHA256) " + suffix + ":** "
  }

  /**
   * From offset `at` on, a description shows the paragraph of the two
   * download shields, then the `.tar.gz` checksum as inline code, then the
   * wheel checksum as inline code.
   */
  ghost predicate ShowsDownloads(r: string, at: int, packageName: string, distNames: (string, string),
                                 tarGzChecksum: Json, wheelChecksum: Json)
  {
    Strings.OccursInOrder(r, at,
                          Shields(packageName, distNames),
                          Markdown.Code(Str(tarGzChecksum)), Markdown.Code(Str(wheelChecksum)))
  }

  /** The description opens with the two shields, then gives the two checksums in order. */
  lemma CreateDescriptionShows(languageName: string, packageName: string, distNames: (string, string),
                               tarGzChecksum: Json, wheelChecksum: Json)
    ensures ShowsDownloads(CreateDescription(languageName, packageName, distNames, tarGzChecksum, wheelChecksum), 0,
                           packageName, distNames, tarGzChecksum, wheelChecksum)
  {
    var shields := Shields(packageName, distNames);
    Strings.LayoutInOrder(shields, "\n</p>\n\n",
                          ChecksumLabel(".tar.gz"), Markdown.Code(Str(tarGzChecksum)), "\n\n",
                          ChecksumLabel(".whl"), Markdown.Code(Str(wheelChecksum)), "\n\n",
                          languageName + " USAS semantic tagger");
  }

  // ---------------------------------------------------------------------
  // The model size
  // ---------------------------------------------------------------------

  /** 2 ** 20: the size is shown in MB of 1024 * 1024 bytes. */
  const Mebibyte: nat := 1048576

  /**
   * The size in hundredths of a MB, rounded to nearest with ties to even as
   * `:.2f` does (the quotient `size / 2**20` is exact as a float).
   */
  function SizeHundredths(size: nat): (q: nat)
    ensures 2 * (100 * size - q * Mebibyte) <= Mebibyte
    ensures 2 * (q * Mebibyte - 100 * size) <= Mebibyte
    ensures 2 * (100 * size - q * Mebibyte) == Mebibyte ==> q % 2 == 0
    ensures 2 * (q * Mebibyte - 100 * size) == Mebibyte ==> q % 2 == 0
  {
    var n := 100 * size;
    var down := n / Mebibyte;
    var rest := n % Mebibyte;
    assert n == down * Mebibyte + rest && 0 <= rest < Mebibyte;
    if 2 * rest > Mebibyte || (2 * rest == Mebibyte && down % 2 == 1) then
      assert (down + 1) * Mebibyte == down * Mebibyte + Mebibyte;
      down + 1
    else down
  }

  /** Two decimal digits, with a leading zero. */
  function TwoDigits(d: nat): (r: string)
    requires d < 100
    ensures |r| == 2
  {
    [Strings.DigitChar(d / 10), Strings.DigitChar(d % 10)]
  }

  /** `f'{float(size) / math.pow(2, 20):.2f}MB'`. */
  function SizeText(size: nat): string
  {
    var q := SizeHundredths(size);
    Strings.NatToString(q / 100) + "." + TwoDigits(q % 100) + "MB"
  }

  /** A size of a whole number of MB reads as that number with two zero decimals. */
  lemma SizeTextWhole(megabytes: nat)
    ensures SizeText(megabytes * Mebibyte) == Strings.NatToString(megabytes) + ".00MB"
  {
    var q := SizeHundredths(megabytes * Mebibyte);
    assert q == 100 * megabytes;
    assert q % 100 == 0 && q / 100 == megabytes;
    assert TwoDigits(0) == "00";
  }

  // ---------------------------------------------------------------------
  // Classifying the dist files
  // ---------------------------------------------------------------------

  /** A file of the dist folder: its name, its size in bytes and its SHA-256 hex digest. */
  datatype DistFile = DistFile(name: string, size: nat, hash: string)

  /** Why `add_model_specific_meta_data` stops. */
  datatype EnrichError =
    | MetaFileNotFound
    | TooManyDistFiles(count: nat)
    | BadSuffix(suffix: string)
    | DistCountNotTwo(found: nat)
    | MetaLookup(cause: PyError)

  /** The loop's variables: the largest size so far, the meta data and the names seen. */
  datatype Classified = Classified(maxSize: nat, meta: seq<Entry>, names: seq<string>)

  /** The key a suffix's hash is stored under: `.whl` and `.gz` only. */
  function ChecksumKey(suffix: string): Option<string>
  {
    if suffix == ".whl" then Some("checksum_whl")
    else if suffix == ".gz" then Some("checksum")
    else None
  }

  /** One iteration: the size is compared, then the suffix decides where the hash goes. */
  function ClassifyStep(state: Classified, file: DistFile): Result<Classified, EnrichError>
  {
    var maxSize := if file.size > state.maxSize then file.size else state.maxSize;
    var suffix := Strings.PathSuffix(file.name);
    match ChecksumKey(suffix)
    case Some(key) => Ok(Classified(maxSize, Set(state.meta, key, JStr(file.hash)), state.names + [file.name]))
    case None => Err(BadSuffix(suffix))
  }

  /** The loop over the dist files from a given state. */
  function ClassifyFrom(state: Classified, files: seq<DistFile>): Result<Classified, EnrichError>
    decreases |files|
  {
    if |files| == 0 then Ok(state)
    else
      var next :- ClassifyStep(state, files[0]);
      ClassifyFrom(next, files[1..])
  }

  /** The largest size of a list of files, 0 for none (a reference definition). */
  function MaxSize(files: seq<DistFile>): (m: nat)
    ensures forall i :: 0 <= i < |files| ==> files[i].size <= m
    ensures |files| > 0 ==> exists i :: 0 <= i < |files| && files[i].size == m
    ensures |files| == 0 ==> m == 0
  {
    if |files| == 0 then 0
    else
      var rest := MaxSize(files[1..]);
      assert |files| > 1 ==> exists i :: 1 <= i < |files| && files[i].size == rest by {
        if |files| > 1 {
          var i :| 0 <= i < |files[1..]| && files[1..][i].size == rest;
          assert files[i + 1].size == rest;
        }
      }
      if files[0].size > rest then files[0].size else rest
  }

  /** The hash of the last file with a given suffix, if any (a reference definition). */
  function LastHash(files: seq<DistFile>, suffix: string): (r: Option<string>)
    ensures r.Some? <==> exists i :: 0 <= i < |files| && Strings.PathSuffix(files[i].name) == suffix
    decreases |files|
  {
    if |files| == 0 then None
    else
      var rest := LastHash(files[1..], suffix);
      if rest.Some? then
        var i :| 0 <= i < |files[1..]| && Strings.PathSuffix(files[1..][i].name) == suffix;
        assert Strings.PathSuffix(files[i + 1].name) == suffix;
        rest
      else
        assert forall i :: 1 <= i < |files| ==> files[i] == files[1..][i - 1];
        if Strings.PathSuffix(files[0].name) == suffix then Some(files[0].hash) else None
  }

  /** The names of a list of files, in order. */
  function Names(files: seq<DistFile>): (r: seq<string>)
    ensures |r| == |files|
    ensures forall i :: 0 <= i < |files| ==> r[i] == files[i].name
  {
    if |files| == 0 then [] else [files[0].name] + Names(files[1..])
  }

  /** The loop succeeds exactly when every file ends in `.whl` or `.gz`. */
  lemma {:induction false} ClassifyAccepts(state: Classified, files: seq<DistFile>)
    ensures ClassifyFrom(state, files).Ok? <==>
              forall i :: 0 <= i < |files| ==> ChecksumKey(Strings.PathSuffix(files[i].name)).Some?
    decreases |files|
  {
    if |files| > 0 && ChecksumKey(Strings.PathSuffix(files[0].name)).Some? {
      ClassifyAccepts(ClassifyStep(state, files[0]).value, files[1..]);
      assert forall i :: 1 <= i < |files| ==> files[i] == files[1..][i - 1];
    }
  }

  /** The first file with another suffix is the one reported. */
  lemma {:induction false} ClassifyReportsFirstBad(state: Classified, files: seq<DistFile>, k: nat)
    requires k < |files|
    requires forall i :: 0 <= i < k ==> ChecksumKey(Strings.PathSuffix(files[i].name)).Some?
    requires ChecksumKey(Strings.PathSuffix(files[k].name)).None?
    ensures ClassifyFrom(state, files) == Err(BadSuffix(Strings.PathSuffix(files[k].name)))
    decreases k
  {
    if k == 0 {
      assert ClassifyStep(state, files[0]).Err?;
    } else {
      var next := ClassifyStep(state, files[0]);
      assert next.Ok?;
      assert ClassifyFrom(state, files) == ClassifyFrom(next.value, files[1..]);
      assert forall i :: 0 <= i < k ==> files[1..][i] == files[i + 1];
      ClassifyReportsFirstBad(next.value, files[1..], k - 1);
    }
  }

  /** The loop only ever fails on a suffix. */
  lemma {:induction false} ClassifyErrIsSuffix(state: Classified, files: seq<DistFile>)
    requires ClassifyFrom(state, files).Err?
    ensures ClassifyFrom(state, files).error.BadSuffix?
    decreases |files|
  {
    if ClassifyStep(state, files[0]).Ok? {
      ClassifyErrIsSuffix(ClassifyStep(state, files[0]).value, files[1..]);
    }
  }

  /** When the loop succeeds, the size is the largest seen. */
  lemma {:induction false} ClassifyMax(state: Classified, files: seq<DistFile>)
    requires ClassifyFrom(state, files).Ok?
    ensures ClassifyFrom(state, files).value.maxSize ==
              if MaxSize(files) > state.maxSize then MaxSize(files) else state.maxSize
    decreases |files|
  {
    if |files| > 0 {
      ClassifyMax(ClassifyStep(state, files[0]).value, files[1..]);
    }
  }

  /** When the loop succeeds, every file name is recorded, in order. */
  lemma {:induction false} ClassifyNames(state: Classified, files: seq<DistFile>)
    requires ClassifyFrom(state, files).Ok?
    ensures ClassifyFrom(state, files).value.names == state.names + Names(files)
    decreases |files|
  {
    if |files| > 0 {
      ClassifyNames(ClassifyStep(state, files[0]).value, files[1..]);
      assert [files[0].name] + Names(files[1..]) == Names(files);
    }
  }

  /**
   * When the loop succeeds, a checksum is the hash of the last file with its
   * suffix, or the meta data's own value when there is no such file.
   */
  lemma {:induction false} ClassifyChecksum(state: Classified, files: seq<DistFile>, suffix: string)
    requires ClassifyFrom(state, files).Ok?
    requires ChecksumKey(suffix).Some?
    ensures Get(ClassifyFrom(state, files).value.meta, ChecksumKey(suffix).value) ==
              match LastHash(files, suffix)
              case Some(h) => Some(JStr(h))
              case None => Get(state.meta, ChecksumKey(suffix).value)
    decreases |files|
  {
    if |files| > 0 {
      ClassifyChecksum(ClassifyStep(state, files[0]).value, files[1..], suffix);
    }
  }

  /** When the loop succeeds, every key but the two checksums is unchanged. */
  lemma {:induction false} ClassifyOtherKeys(state: Classified, files: seq<DistFile>, key: string)
    requires ClassifyFrom(state, files).Ok?
    requires key != "checksum" && key != "checksum_whl"
    ensures Get(ClassifyFrom(state, files).value.meta, key) == Get(state.meta, key)
    decreases |files|
  {
    if |files| > 0 {
      ClassifyOtherKeys(ClassifyStep(state, files[0]).value, files[1..], key);
    }
  }

  /** A file with an accepted suffix: the size is compared and the hash stored under its key. */
  lemma StepAccepts(state: Classified, file: DistFile, key: string)
    requires ChecksumKey(Strings.PathSuffix(file.name)) == Some(key)
    ensures ClassifyStep(state, file) ==
              Ok(Classified(if file.size > state.maxSize then file.size else state.maxSize,
                            Set(state.meta, key, JStr(file.hash)), state.names + [file.name]))
  {
  }

  /** One more iteration of the loop. */
  lemma ClassifyFromCons(state: Classified, files: seq<DistFile>)
    requires |files| > 0 && ClassifyStep(state, files[0]).Ok?
    ensures ClassifyFrom(state, files) == ClassifyFrom(ClassifyStep(state, files[0]).value, files[1..])
  {
  }

  /** The loop of `add_model_specific_meta_data` over the dist files. */
  method ClassifyDistFiles(meta: seq<Entry>, files: seq<DistFile>) returns (r: Result<Classified, EnrichError>)
    ensures r == ClassifyFrom(Classified(0, meta, []), files)
  {
    var maxSize: nat := 0;
    var current := meta;
    var names: seq<string> := [];
    for i := 0 to |files|
      invariant ClassifyFrom(Classified(maxSize, current, names), files[i..]) == ClassifyFrom(Classified(0, meta, []), files)
    {
      var file := files[i];
      var before := Classified(maxSize, current, names);
      assert files[i..][0] == file && files[i..][1..] == files[i + 1..];
      if file.size > maxSize {
        maxSize := file.size;
      }
      var suffix := Strings.PathSuffix(file.name);
      if suffix == ".whl" {
        StepAccepts(before, file, "checksum_whl");
        current := Set(current, "checksum_whl", JStr(file.hash));
      } else if suffix == ".gz" {
        StepAccepts(before, file, "checksum");
        current := Set(current, "checksum", JStr(file.hash));
      } else {
        assert ClassifyStep(before, file) == Err(BadSuffix(suffix));
        return Err(BadSuffix(suffix));
      }
      names := names + [file.name];
      ClassifyFromCons(before, files[i..]);
    }
    assert files[|files|..] == [];
    r := Ok(Classified(maxSize, current, names));
  }

  // ---------------------------------------------------------------------
  // add_model_specific_meta_data
  // ---------------------------------------------------------------------

  /** The meta data written back to `meta.json`: the size and the full language name added. */
  function WrittenMeta(c: Classified, languageName: string): seq<Entry>
  {
    Set(Set(c.meta, "size", JStr(SizeText(c.maxSize))), "full_language_name", JStr(languageName))
  }

  /**
   * The README's input: the written meta data plus the description (which
   * reads both checksums, KeyError when one is missing) and the notes.
   */
  function ReadmeInput(written: seq<Entry>, names: (string, string), languageName: string,
                       packageName: string): (r: Result<seq<Entry>, PyError>)
    ensures r.Ok? <==> "checksum" in Keys(written) && "checksum_whl" in Keys(written)
    ensures "checksum" !in Keys(written) ==> r == Err(KeyError("checksum"))
  {
    var tarGz :- ReadmeGenerator.Required(written, "checksum");
    var wheel :- ReadmeGenerator.Required(written, "checksum_whl");
    var description := CreateDescription(languageName, packageName, names, tarGz, wheel);
    Ok(Set(Set(written, "description", JStr(description)), "notes", JStr(CreateNotes(packageName))))
  }

  /** What the model directory holds afterwards, and the error, if any. */
  datatype Enriched = Enriched(metaFile: Option<seq<Entry>>, readme: Option<string>, error: Option<EnrichError>)

  /**
   * `add_model_specific_meta_data` on a directory's contents. Nothing is
   * written before the dist files are classified.
   */
  function Enrichment(metaFile: Option<seq<Entry>>, dist: seq<DistFile>, readme: Option<string>,
                      languageName: string, packageName: string): Enriched
  {
    if metaFile.None? then Enriched(metaFile, readme, Some(MetaFileNotFound))
    else if |dist| > 2 then Enriched(metaFile, readme, Some(TooManyDistFiles(|dist|)))
    else
      match ClassifyFrom(Classified(0, metaFile.value, []), dist)
      case Err(e) => Enriched(metaFile, readme, Some(e))
      case Ok(c) => AfterClassify(c, readme, languageName, packageName)
  }

  /**
   * The steps after the loop. The meta file is written first, so the errors
   * that follow (the count of names, a missing checksum, the README) leave it
   * written; the README is opened for writing before it is generated, so a
   * failure there leaves it empty.
   */
  function AfterClassify(c: Classified, readme: Option<string>, languageName: string, packageName: string): (e: Enriched)
    ensures e.metaFile == Some(WrittenMeta(c, languageName))
    ensures e.error == Some(DistCountNotTwo(|c.names|)) <==> |c.names| != 2
    ensures |c.names| != 2 ==> e.readme == readme
  {
    var written := WrittenMeta(c, languageName);
    if |c.names| != 2 then Enriched(Some(written), readme, Some(DistCountNotTwo(|c.names|)))
    else
      match ReadmeInput(written, (c.names[0], c.names[1]), languageName, packageName)
      case Err(e) => Enriched(Some(written), readme, Some(MetaLookup(e)))
      case Ok(input) => WithReadme(written, ReadmeGenerator.ReadmeText(input))
  }

  /** The directory once the README has been generated from its input, or has failed to be. */
  function WithReadme(written: seq<Entry>, text: Result<string, PyError>): (e: Enriched)
    ensures e.metaFile == Some(written)
    ensures e.error.None? <==> text.Ok?
    ensures e.readme == Some(if text.Ok? then text.value else "")
  {
    match text
    case Err(e) => Enriched(Some(written), Some(""), Some(MetaLookup(e)))
    case Ok(t) => Enriched(Some(written), Some(t), None)
  }

  /** The errors before anything is written: no meta file, too many dist files, a bad suffix. */
  lemma EnrichmentEarlyErrors(metaFile: Option<seq<Entry>>, dist: seq<DistFile>, readme: Option<string>,
                              languageName: string, packageName: string)
    ensures var e := Enrichment(metaFile, dist, readme, languageName, packageName);
            && (metaFile.None? ==> e == Enriched(metaFile, readme, Some(MetaFileNotFound)))
            && (metaFile.Some? && |dist| > 2 ==> e == Enriched(metaFile, readme, Some(TooManyDistFiles(|dist|))))
            && (metaFile.Some? && |dist| <= 2 && (exists i :: 0 <= i < |dist| && ChecksumKey(Strings.PathSuffix(dist[i].name)).None?)
                ==> e.metaFile == metaFile && e.readme == readme && e.error.Some? && e.error.value.BadSuffix?)
  {
    if metaFile.Some? && |dist| <= 2 {
      var start := Classified(0, metaFile.value, []);
      ClassifyAccepts(start, dist);
      if exists i :: 0 <= i < |dist| && ChecksumKey(Strings.PathSuffix(dist[i].name)).None? {
        var bad := ClassifyFrom(start, dist);
        assert bad.Err?;
        ClassifyErrIsSuffix(start, dist);
        assert Enrichment(metaFile, dist, readme, languageName, packageName) == Enriched(metaFile, readme, Some(bad.error));
      }
    }
  }

  /**
   * The meta file written differs from what was read only in `checksum`,
   * `checksum_whl`, `size` and `full_language_name`: the size is that of the
   * largest file and the checksums are the hashes of the last `.whl` and
   * `.gz` files. In particular `description` and `notes` are not written.
   */
  lemma WrittenMetaKeys(meta: seq<Entry>, dist: seq<DistFile>, languageName: string)
    requires ClassifyFrom(Classified(0, meta, []), dist).Ok?
    ensures var written := WrittenMeta(ClassifyFrom(Classified(0, meta, []), dist).value, languageName);
            && Get(written, "size") == Some(JStr(SizeText(MaxSize(dist))))
            && Get(written, "full_language_name") == Some(JStr(languageName))
            && Get(written, "checksum_whl") ==
                 (match LastHash(dist, ".whl") case Some(h) => Some(JStr(h)) case None => Get(meta, "checksum_whl"))
            && Get(written, "checksum") ==
                 (match LastHash(dist, ".gz") case Some(h) => Some(JStr(h)) case None => Get(meta, "checksum"))
            && (forall k :: k != "checksum" && k != "checksum_whl" && k != "size" && k != "full_language_name"
                  ==> Get(written, k) == Get(meta, k))
  {
    var start := Classified(0, meta, []);
    var c := ClassifyFrom(start, dist).value;
    ClassifyMax(start, dist);
    ClassifyChecksum(start, dist, ".whl");
    ClassifyChecksum(start, dist, ".gz");
    forall k | k != "checksum" && k != "checksum_whl" && k != "size" && k != "full_language_name"
      ensures Get(WrittenMeta(c, languageName), k) == Get(meta, k)
    {
      ClassifyOtherKeys(start, dist, k);
    }
  }

  /** The loop over one `.whl` file and then one `.gz` file. */
  lemma ClassifyPair(meta: seq<Entry>, wheel: DistFile, tarGz: DistFile) returns (c: Classified)
    requires Strings.PathSuffix(wheel.name) == ".whl" && Strings.PathSuffix(tarGz.name) == ".gz"
    ensures ClassifyFrom(Classified(0, meta, []), [wheel, tarGz]) == Ok(c)
    ensures c.names == [wheel.name, tarGz.name]
    ensures c.meta == Set(Set(meta, "checksum_whl", JStr(wheel.hash)), "checksum", JStr(tarGz.hash))
  {
    var start := Classified(0, meta, []);
    assert ChecksumKey(Strings.PathSuffix(wheel.name)) == Some("checksum_whl");
    assert ChecksumKey(Strings.PathSuffix(tarGz.name)) == Some("checksum");
    var s1 := Classified(wheel.size, Set(meta, "checksum_whl", JStr(wheel.hash)), [wheel.name]);
    assert ClassifyStep(start, wheel).Ok?;
    assert ClassifyStep(start, wheel).value.maxSize == s1.maxSize;
    assert ClassifyStep(start, wheel).value.names == s1.names;
    assert ClassifyStep(start, wheel).value.meta == s1.meta;
    assert ClassifyStep(start, wheel) == Ok(s1);
    var maxSize := if tarGz.size > s1.maxSize then tarGz.size else s1.maxSize;
    c := Classified(maxSize, Set(s1.meta, "checksum", JStr(tarGz.hash)), [wheel.name, tarGz.name]);
    assert ClassifyStep(s1, tarGz).Ok?;
    assert ClassifyStep(s1, tarGz).value.maxSize == c.maxSize;
    assert ClassifyStep(s1, tarGz).value.names == c.names;
    assert ClassifyStep(s1, tarGz).value.meta == c.meta;
    assert ClassifyStep(s1, tarGz) == Ok(c);
    assert [wheel, tarGz][1..] == [tarGz] && [tarGz][1..] == [];
    assert ClassifyFrom(c, []) == Ok(c);
    assert ClassifyFrom(s1, [tarGz]) == Ok(c);
  }

  /** With both checksums in the written meta data, the README's input adds the description and the notes. */
  lemma ReadmeInputOfChecksums(written: seq<Entry>, names: (string, string), languageName: string,
                               packageName: string, tarGzHash: string, wheelHash: string)
    requires Get(written, "checksum") == Some(JStr(tarGzHash))
    requires Get(written, "checksum_whl") == Some(JStr(wheelHash))
    ensures var input := ReadmeInput(written, names, languageName, packageName);
            && input.Ok?
            && Get(input.value, "description") ==
                 Some(JStr(CreateDescription(languageName, packageName, names, JStr(tarGzHash), JStr(wheelHash))))
            && Get(input.value, "notes") == Some(JStr(CreateNotes(packageName)))
  {
    var description := CreateDescription(languageName, packageName, names, JStr(tarGzHash), JStr(wheelHash));
    assert ReadmeInput(written, names, languageName, packageName)
           == Ok(Set(Set(written, "description", JStr(description)), "notes", JStr(CreateNotes(packageName))));
  }

  /**
   * With one `.whl` and one `.gz` file, the README's input is the written
   * meta data plus the description, built from the two names and hashes, and
   * the notes.
   */
  lemma ReadmeInputOfPair(meta: seq<Entry>, wheel: DistFile, tarGz: DistFile, languageName: string, packageName: string)
    requires Strings.PathSuffix(wheel.name) == ".whl" && Strings.PathSuffix(tarGz.name) == ".gz"
    ensures ClassifyFrom(Classified(0, meta, []), [wheel, tarGz]).Ok?
    ensures var c := ClassifyFrom(Classified(0, meta, []), [wheel, tarGz]).value;
            && c.names == [wheel.name, tarGz.name]
            && var input := ReadmeInput(WrittenMeta(c, languageName), (wheel.name, tarGz.name), languageName, packageName);
            && input.Ok?
            && Get(input.value, "description") ==
                 Some(JStr(CreateDescription(languageName, packageName, (wheel.name, tarGz.name), JStr(tarGz.hash), JStr(wheel.hash))))
            && Get(input.value, "notes") == Some(JStr(CreateNotes(packageName)))
  {
    var c := ClassifyPair(meta, wheel, tarGz);
    var written := WrittenMeta(c, languageName);
    assert Get(written, "checksum") == Some(JStr(tarGz.hash));
    assert Get(written, "checksum_whl") == Some(JStr(wheel.hash));
    ReadmeInputOfChecksums(written, (wheel.name, tarGz.name), languageName, packageName, tarGz.hash, wheel.hash);
  }

  /**
   * With two file names and both checksums present, the directory ends with
   * the written meta file and the README generated from the README's input,
   * or an empty README and the generator's error.
   */
  lemma AfterClassifyReadme(c: Classified, readme: Option<string>, languageName: string, packageName: string)
    requires |c.names| == 2
    requires ReadmeInput(WrittenMeta(c, languageName), (c.names[0], c.names[1]), languageName, packageName).Ok?
    ensures AfterClassify(c, readme, languageName, packageName) ==
              WithReadme(WrittenMeta(c, languageName),
                         ReadmeGenerator.ReadmeText(ReadmeInput(WrittenMeta(c, languageName), (c.names[0], c.names[1]), languageName, packageName).value))
  {
  }

  /** A model directory: its `meta.json`, its `dist` listing and its README. */
  class ModelDirectory {
    var metaFile: Option<seq<Entry>>
    var dist: seq<DistFile>
    var readme: Option<string>

    constructor (metaFile: Option<seq<Entry>>, dist: seq<DistFile>, readme: Option<string>)
      ensures this.metaFile == metaFile && this.dist == dist && this.readme == readme
    {
      this.metaFile := metaFile;
      this.dist := dist;
      this.readme := readme;
    }

    /** `add_model_specific_meta_data(model_directory, language_name, package_name)`. */
    method AddModelSpecificMetaData(languageName: string, packageName: string) returns (err: Option<EnrichError>)
      modifies this
      ensures dist == old(dist)
      ensures Enriched(metaFile, readme, err) == Enrichment(old(metaFile), old(dist), old(readme), languageName, packageName)
    {
      if metaFile.None? {
        return Some(MetaFileNotFound);
      }
      var meta := metaFile.value;
      if |dist| > 2 {
        return Some(TooManyDistFiles(|dist|));
      }
      var classified := ClassifyDistFiles(meta, dist);
      if classified.Err? {
        return Some(classified.error);
      }
      err := Finish(classified.value, languageName, packageName);
    }

    /** The steps after the loop: write `meta.json`, check the names, then write the README. */
    method Finish(c: Classified, languageName: string, packageName: string) returns (err: Option<EnrichError>)
      modifies this
      ensures dist == old(dist)
      ensures Enriched(metaFile, readme, err) == AfterClassify(c, old(readme), languageName, packageName)
    {
      var written := WrittenMeta(c, languageName);
      metaFile := Some(written);
      if |c.names| != 2 {
        return Some(DistCountNotTwo(|c.names|));
      }
      var input := ReadmeInput(written, (c.names[0], c.names[1]), languageName, packageName);
      if input.Err? {
        return Some(MetaLookup(input.error));
      }
      err := WriteReadme(input.value);
      AfterClassifyReadme(c, old(readme), languageName, packageName);
    }

    /** Opens the README for writing, then writes the text generated from `input`. */
    method WriteReadme(input: seq<Entry>) returns (err: Option<EnrichError>)
      requires metaFile.Some?
      modifies this
      ensures dist == old(dist)
      ensures Enriched(metaFile, readme, err) == WithReadme(old(metaFile).value, ReadmeGenerator.ReadmeText(input))
    {
      readme := Some("");
      var text := ReadmeGenerator.GenerateReadme(input);
      if text.Err? {
        return Some(MetaLookup(text.error));
      }
      readme := Some(text.value);
      err := None;
    }
  }
}
