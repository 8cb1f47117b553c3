/**
 * The parsing and naming part of `create_models` in `pymusas_models/__main__.py`:
 * for every language of the resource file it finds the lexicon URLs, chooses
 * the model permutations, fills the tagger configuration and the pipeline
 * meta data, and names each model and its package. Building, initialising,
 * saving and packaging the spaCy pipeline are external; a model build here is
 * the record of what those steps are given.
 */
module ModelCreation {
  import opened Wrappers
  import opened Json
  import Strings
  import TaggerConfig

  /** The command line defaults of `create-models`. */
  const DefaultModelVersion := "0"
  const DefaultSpacyVersion := ">=3.0,<4.0"

  /** The command line options, with the installed pymusas version they are combined with. */
  datatype Options = Options(modelVersion: string, spacyVersion: string, pymusasVersion: string)

  /** Why `create_models` stopped. */
  datatype CreateError =
    | EmptyResourceFile
    | Lookup(cause: PyError)
    | UnknownDataType(dataType: Json, languageCode: string)
    | EmptySingleLexicon(languageCode: string)
    | Config(configError: TaggerConfig.ConfigError)
    | NonStringUrl(languageCode: string)

  function Look<T>(r: Result<T, PyError>): Result<T, CreateError>
  {
    match r
    case Ok(v) => Ok(v)
    case Err(e) => Err(Lookup(e))
  }

  // ---------------------------------------------------------------------
  // Tables and names
  // ---------------------------------------------------------------------

  /**
   * `PYMUSAS_LANG_TO_SPACY`: the spaCy language of each supported code. It is
   * the code itself except for Mandarin (`zh`) and Welsh (multi-language `xx`);
   * any other code is a KeyError.
   */
  function SpacyLanguage(code: string): (r: Option<string>)
    ensures r.Some? <==> code in ["cmn", "nl", "fr", "it", "pt", "es", "cy", "id", "fi", "en"]
    ensures code == "cmn" ==> r == Some("zh")
    ensures code == "cy" ==> r == Some("xx")
    ensures r.Some? && code != "cmn" && code != "cy" ==> r == Some(code)
  {
    if code == "cmn" then Some("zh")
    else if code == "cy" then Some("xx")
    else if code in ["nl", "fr", "it", "pt", "es", "id", "fi", "en"] then Some(code)
    else None
  }

  /** `POS_MAPPER_TO_NAME`: the name part of each accepted POS mapper. */
  function PosMapperName(mapper: Option<string>): (r: Option<string>)
    ensures r.Some? <==> mapper.None? || TaggerConfig.Family(mapper.value).Some?
    ensures r.Some? ==> '_' !in r.value
  {
    match mapper
    case None => Some("none")
    case Some(m) =>
      if m == "UPOS" then Some("upos2usas")
      else if m == "BasicCorCenCC" then Some("basiccorcencc2usas")
      else None
  }

  /** The token attribute the tagger reads POS tags from: `tag_` for Welsh and Indonesian. */
  function PosAttribute(code: string): (r: string)
    ensures r == "tag_" <==> code == "cy" || code == "id"
    ensures r != "tag_" ==> r == "pos_"
  {
    if code == "cy" || code == "id" then "tag_" else "pos_"
  }

  /** A single-lexicon model always; a dual one as well when there is an MWE lexicon. */
  function Permutations(mweUrl: Json): (r: seq<string>)
    ensures 1 <= |r| <= 2 && r[0] == "single"
    ensures |r| == 2 <==> Truthy(mweUrl)
    ensures |r| == 2 ==> r[1] == "dual"
  {
    if Truthy(mweUrl) then ["single", "dual"] else ["single"]
  }

  /** `{language}_{permutation}_{mapper name}_contextual`. */
  function ModelName(code: string, permutation: string, mapperName: string): string
  {
    Strings.Join([code, permutation, mapperName, "contextual"], "_")
  }

  /**
   * The name can be read back: when none of its parts holds an underscore,
   * splitting the name on `_` gives the language, the permutation, the
   * mapper name and the ranker.
   */
  lemma ModelNameParts(code: string, permutation: string, mapperName: string)
    requires '_' !in code && '_' !in permutation && '_' !in mapperName
    ensures Strings.Split(ModelName(code, permutation, mapperName), '_')
            == [code, permutation, mapperName, "contextual"]
  {
    var parts := [code, permutation, mapperName, "contextual"];
    assert '_' !in parts[3];
    Strings.SplitJoin(parts, '_');
  }

  /** The first `n` items of `s`, or all of them when there are fewer (Python's `s[:n]`). */
  function Take<T>(s: seq<T>, n: nat): (r: seq<T>)
    ensures |r| == if |s| < n then |s| else n
    ensures r <= s
  {
    if |s| < n then s else s[..n]
  }

  /** The first two dot-separated parts of the pymusas version, then the model version. */
  function FullVersion(pymusasVersion: string, modelVersion: string): string
  {
    Strings.Join(Take(Strings.Split(pymusasVersion, '.'), 2) + [modelVersion], ".")
  }

  /**
   * The full version's parts are the pymusas version's major and minor parts
   * (as many of them as there are) followed by the model version.
   */
  lemma FullVersionParts(pymusasVersion: string, modelVersion: string)
    requires '.' !in modelVersion
    ensures Strings.Split(FullVersion(pymusasVersion, modelVersion), '.')
            == Take(Strings.Split(pymusasVersion, '.'), 2) + [modelVersion]
  {
    var parts := Take(Strings.Split(pymusasVersion, '.'), 2) + [modelVersion];
    forall i | 0 <= i < |parts| ensures '.' !in parts[i] {
      if i < |parts| - 1 {
        assert parts[i] == Strings.Split(pymusasVersion, '.')[i];
      }
    }
    Strings.SplitJoin(parts, '.');
  }

  /** A release `a.b.c` of pymusas and model version `m` give the version `a.b.m`. */
  lemma FullVersionOfRelease(major: string, minor: string, patch: string, modelVersion: string)
    requires '.' !in major && '.' !in minor && '.' !in patch
    ensures FullVersion(major + "." + minor + "." + patch, modelVersion) == major + "." + minor + "." + modelVersion
  {
    Strings.SplitAt(major, '.', minor + "." + patch);
    Strings.SplitAt(minor, '.', patch);
    Strings.SplitWithout(patch, '.');
    assert major + "." + minor + "." + patch == major + ['.'] + (minor + ['.'] + patch);
    var parts := Strings.Split(major + "." + minor + "." + patch, '.');
    assert parts == [major, minor, patch];
    assert Take(parts, 2) + [modelVersion] == [major, minor, modelVersion];
    assert [major, minor, modelVersion][1..] == [minor, modelVersion];
    assert [minor, modelVersion][1..] == [modelVersion];
    assert Strings.Join([minor, modelVersion], ".") == minor + "." + modelVersion;
  }

  function PackageName(modelName: string, version: string): string
  {
    modelName + "-" + version
  }

  // ---------------------------------------------------------------------
  // Pipeline meta data
  // ---------------------------------------------------------------------

  /**
   * `add_default_meta_data`: the author, email, url and license of every
   * model; all other keys keep their values.
   */
  function AddDefaultMetaData(meta: seq<Entry>): (r: seq<Entry>)
    ensures Get(r, "author") == Some(JStr("UCREL Research Centre"))
    ensures Get(r, "email") == Some(JStr("ucrel@lancaster.ac.uk"))
    ensures Get(r, "url") == Some(JStr("https://ucrel.github.io/pymusas/"))
    ensures Get(r, "license") == Some(JStr("CC BY-NC-SA 4.0"))
    ensures forall k :: k != "author" && k != "email" && k != "url" && k != "license" ==> Get(r, k) == Get(meta, k)
  {
    var m1 := Set(meta, "author", JStr("UCREL Research Centre"));
    var m2 := Set(m1, "email", JStr("ucrel@lancaster.ac.uk"));
    var m3 := Set(m2, "url", JStr("https://ucrel.github.io/pymusas/"));
    Set(m3, "license", JStr("CC BY-NC-SA 4.0"))
  }

  // ---------------------------------------------------------------------
  // Resources
  // ---------------------------------------------------------------------

  /** The two lexicon URLs found so far; both start as the empty string. */
  datatype Urls = Urls(single: Json, mwe: Json)

  const NoUrls := Urls(JStr(""), JStr(""))

  /** One resource entry: its data type selects which URL it sets. */
  function ResourceStep(urls: Urls, resource: Json, code: string): Result<Urls, CreateError>
  {
    var dataType :- Look(Subscript(resource, "data type"));
    if dataType == JStr("single") then
      var url :- Look(Subscript(resource, "url"));
      Ok(urls.(single := url))
    else if dataType == JStr("mwe") then
      var url :- Look(Subscript(resource, "url"));
      Ok(urls.(mwe := url))
    else Err(UnknownDataType(dataType, code))
  }

  /** The resource loop: the entries in order, from the URLs found so far. */
  function ParseResourcesFrom(urls: Urls, resources: seq<Json>, code: string): (r: Result<Urls, CreateError>)
    ensures r.Err? ==> r.error.Lookup? || r.error.UnknownDataType?
    decreases |resources|
  {
    if |resources| == 0 then Ok(urls)
    else
      var next :- ResourceStep(urls, resources[0], code);
      ParseResourcesFrom(next, resources[1..], code)
  }

  /** A resource of the given data type, with a URL. */
  predicate HasDataType(resource: Json, dataType: string)
  {
    resource.JObj? && Get(resource.fields, "data type") == Some(JStr(dataType))
    && Get(resource.fields, "url").Some?
  }

  function UrlOf(resource: Json): Json
    requires resource.JObj? && Get(resource.fields, "url").Some?
  {
    Get(resource.fields, "url").value
  }

  /** `k` is the last resource of the given data type. */
  ghost predicate LastOfType(resources: seq<Json>, dataType: string, k: int)
  {
    0 <= k < |resources| && HasDataType(resources[k], dataType)
    && forall j :: k < j < |resources| ==> !HasDataType(resources[j], dataType)
  }

  /** The URL the last resource of a data type gives, or `default` when there is none. */
  ghost predicate UrlIsLast(resources: seq<Json>, dataType: string, default: Json, url: Json)
  {
    (exists k :: LastOfType(resources, dataType, k) && UrlOf(resources[k]) == url)
    || ((forall j :: 0 <= j < |resources| ==> !HasDataType(resources[j], dataType)) && url == default)
  }

  /** What one resource entry does to the URLs, in terms of its data type. */
  lemma ResourceStepFacts(urls: Urls, resource: Json, code: string)
    ensures ResourceStep(urls, resource, code).Ok? <==> HasDataType(resource, "single") || HasDataType(resource, "mwe")
    ensures ResourceStep(urls, resource, code).Ok? ==>
              ResourceStep(urls, resource, code).value.single
                == (if HasDataType(resource, "single") then UrlOf(resource) else urls.single)
              && ResourceStep(urls, resource, code).value.mwe
                == (if HasDataType(resource, "mwe") then UrlOf(resource) else urls.mwe)
  {
  }

  /**
   * Parsing succeeds exactly when every resource is a `single` or `mwe`
   * entry with a URL; any other data type stops it.
   */
  lemma {:induction false} ParseResourcesAccepts(urls: Urls, resources: seq<Json>, code: string)
    ensures ParseResourcesFrom(urls, resources, code).Ok?
            <==> forall i :: 0 <= i < |resources| ==>
                   HasDataType(resources[i], "single") || HasDataType(resources[i], "mwe")
    decreases |resources|
  {
    if |resources| > 0 {
      ResourceStepFacts(urls, resources[0], code);
      var step := ResourceStep(urls, resources[0], code);
      if step.Ok? {
        ParseResourcesAccepts(step.value, resources[1..], code);
        forall i | 0 < i < |resources|
          ensures resources[i] == resources[1..][i - 1]
        {
        }
      }
    }
  }

  /** Parsing a non-empty list that succeeds: the first entry's step, then the rest from there. */
  lemma ParseResourcesCons(urls: Urls, resources: seq<Json>, code: string)
    requires |resources| > 0 && ParseResourcesFrom(urls, resources, code).Ok?
    ensures ResourceStep(urls, resources[0], code).Ok?
    ensures ParseResourcesFrom(urls, resources, code)
            == ParseResourcesFrom(ResourceStep(urls, resources[0], code).value, resources[1..], code)
  {
  }

  /**
   * For each data type, parsing keeps the URL of the last entry of that
   * type, or the starting value when there is none: the last occurrence wins.
   */
  lemma {:induction false} ParseResourcesLastWins(urls: Urls, resources: seq<Json>, code: string)
    requires ParseResourcesFrom(urls, resources, code).Ok?
    ensures UrlIsLast(resources, "single", urls.single, ParseResourcesFrom(urls, resources, code).value.single)
    ensures UrlIsLast(resources, "mwe", urls.mwe, ParseResourcesFrom(urls, resources, code).value.mwe)
    decreases |resources|
  {
    if |resources| > 0 {
      ParseResourcesCons(urls, resources, code);
      ResourceStepFacts(urls, resources[0], code);
      var step := ResourceStep(urls, resources[0], code).value;
      var result := ParseResourcesFrom(step, resources[1..], code).value;
      ParseResourcesLastWins(step, resources[1..], code);
      LastWinsStep(resources, "single", urls.single, step.single, result.single);
      LastWinsStep(resources, "mwe", urls.mwe, step.mwe, result.mwe);
    }
  }

  /** One step of the last-wins argument: a tail without the type falls back to the head. */
  lemma LastWinsStep(resources: seq<Json>, dataType: string, before: Json, afterHead: Json, url: Json)
    requires |resources| > 0
    requires afterHead == (if HasDataType(resources[0], dataType) then UrlOf(resources[0]) else before)
    requires UrlIsLast(resources[1..], dataType, afterHead, url)
    ensures UrlIsLast(resources, dataType, before, url)
  {
    if k :| LastOfType(resources[1..], dataType, k) && UrlOf(resources[1..][k]) == url {
      LastInTail(resources, dataType, k);
    } else if HasDataType(resources[0], dataType) {
      LastIsHead(resources, dataType);
    } else {
      NoneOfType(resources, dataType);
    }
  }

  /** The last entry of a type in the tail stays the last one behind the head. */
  lemma LastInTail(resources: seq<Json>, dataType: string, k: int)
    requires |resources| > 0 && LastOfType(resources[1..], dataType, k)
    ensures LastOfType(resources, dataType, k + 1) && resources[k + 1] == resources[1..][k]
  {
    assert forall j :: 0 < j < |resources| ==> resources[j] == resources[1..][j - 1];
  }

  /** A head of the type, before a tail without it, is the last one of its type. */
  lemma LastIsHead(resources: seq<Json>, dataType: string)
    requires |resources| > 0 && HasDataType(resources[0], dataType)
    requires forall j :: 0 <= j < |resources[1..]| ==> !HasDataType(resources[1..][j], dataType)
    ensures LastOfType(resources, dataType, 0)
  {
    assert forall j :: 0 < j < |resources| ==> resources[j] == resources[1..][j - 1];
  }

  /** Neither the head nor the tail has the type. */
  lemma NoneOfType(resources: seq<Json>, dataType: string)
    requires |resources| > 0 && !HasDataType(resources[0], dataType)
    requires forall j :: 0 <= j < |resources[1..]| ==> !HasDataType(resources[1..][j], dataType)
    ensures forall j :: 0 <= j < |resources| ==> !HasDataType(resources[j], dataType)
  {
    assert forall j :: 0 < j < |resources| ==> resources[j] == resources[1..][j - 1];
  }

  /**
   * The resource loop of `create_models`: each entry is looked at in order,
   * and the first one whose data type is neither `single` nor `mwe` stops it.
   */
  method ParseResources(resources: seq<Json>, code: string) returns (r: Result<Urls, CreateError>)
    ensures r == ParseResourcesFrom(NoUrls, resources, code)
  {
    var urls := NoUrls;
    for i := 0 to |resources|
      invariant ParseResourcesFrom(urls, resources[i..], code) == ParseResourcesFrom(NoUrls, resources, code)
    {
      assert resources[i..][1..] == resources[i + 1..];
      var resource := resources[i];
      var dataType := Look(Subscript(resource, "data type"));
      if dataType.Err? {
        return Err(dataType.error);
      }
      if dataType.value == JStr("single") {
        var url := Look(Subscript(resource, "url"));
        if url.Err? {
          return Err(url.error);
        }
        urls := urls.(single := url.value);
      } else if dataType.value == JStr("mwe") {
        var url := Look(Subscript(resource, "url"));
        if url.Err? {
          return Err(url.error);
        }
        urls := urls.(mwe := url.value);
      } else {
        return Err(UnknownDataType(dataType.value, code));
      }
    }
    assert resources[|resources|..] == [];
    r := Ok(urls);
  }

  // ---------------------------------------------------------------------
  // One language
  // ---------------------------------------------------------------------

  /** What is fixed for every model of one language before the permutations are built. */
  datatype Language = Language(
    code: string,
    urls: Urls,
    modelInformation: seq<Entry>,
    languageData: Json,
    posMapper: Json,
    posAttribute: string,
    spacyLanguage: string)

  /** One model, as it is handed to spaCy's packaging and to the meta data step. */
  datatype ModelBuild = ModelBuild(
    languageCode: string,
    spacyLanguage: string,
    posAttribute: string,
    permutation: string,
    rules: TaggerConfig.RuleList,
    tagger: TaggerConfig.TaggerInitialize,
    meta: seq<Entry>,
    name: string,
    version: string,
    packageName: string,
    languageName: Json)

  /** The builds made, and the error that stopped the run, if any. */
  datatype Outcome = Outcome(builds: seq<ModelBuild>, error: Option<CreateError>)

  /** Everything `create_models` reads about a language before its first model. */
  function LanguageOf(code: string, data: Json): Result<Language, CreateError>
  {
    LanguageWith(code, data, SpacyLanguage(code))
  }

  /**
   * The reading of a language, given what the spaCy language table holds for
   * its code; the table is consulted last.
   */
  function LanguageWith(code: string, data: Json, spacy: Option<string>): Result<Language, CreateError>
  {
    var resourcesValue :- Look(Subscript(data, "resources"));
    var resources :- Look(Iterate(resourcesValue));
    var urls :- ParseResourcesFrom(NoUrls, resources, code);
    var information :- Look(Subscript(data, "model information"));
    var languageData :- Look(Subscript(data, "language data"));
    if !Truthy(urls.single) then Err(EmptySingleLexicon(code))
    else
      var posMapper :- Look(Subscript(information, "POS mapper"));
      match spacy
      case None => Err(Lookup(KeyError(code)))
      case Some(spacyLanguage) =>
        Ok(Language(code, urls, information.fields, languageData, posMapper, PosAttribute(code), spacyLanguage))
  }

  /** A language whose entry reads without error fails only on a code missing from the table. */
  lemma LanguageWithoutTable(code: string, data: Json, spacy: Option<string>)
    requires LanguageWith(code, data, spacy).Ok?
    ensures LanguageWith(code, data, None) == Err(Lookup(KeyError(code)))
  {
  }

  /** The reads before the single lexicon check all succeed: the resource URLs, the model information, the language data. */
  predicate ReadsBeforeCheck(code: string, data: Json)
  {
    && Subscript(data, "resources").Ok?
    && Iterate(Subscript(data, "resources").value).Ok?
    && ParseResourcesFrom(NoUrls, Iterate(Subscript(data, "resources").value).value, code).Ok?
    && Subscript(data, "model information").Ok?
    && Subscript(data, "language data").Ok?
  }

  /** The single lexicon URL the resource loop leaves. */
  function SingleUrl(code: string, data: Json): Json
    requires ReadsBeforeCheck(code, data)
  {
    ParseResourcesFrom(NoUrls, Iterate(Subscript(data, "resources").value).value, code).value.single
  }

  /**
   * The single lexicon check: a language raises the `single` ValueError
   * exactly when everything before the check reads and the single URL the
   * loop leaves is empty (or otherwise falsy).
   */
  lemma EmptySingleLexiconRaises(code: string, data: Json)
    ensures LanguageOf(code, data) == Err(EmptySingleLexicon(code))
            <==> ReadsBeforeCheck(code, data) && !Truthy(SingleUrl(code, data))
  {
  }

  /** The POS mapper value as `create_pymusas_config` takes it: a string or None. */
  function MapperArgument(v: Json): Result<Option<string>, CreateError>
  {
    match v
    case JNull => Ok(None)
    case JStr(s) => Ok(Some(s))
    case _ => Err(Config(TaggerConfig.UnknownPosMapper(Str(v))))
  }

  /** The MWE lexicon URL the permutation passes: none for `single`, the URL for `dual`. */
  function MweArgument(language: Language, permutation: string): Result<Option<string>, CreateError>
  {
    if permutation == "single" then Ok(None)
    else if language.urls.mwe.JStr? then Ok(Some(language.urls.mwe.s))
    else Err(NonStringUrl(language.code))
  }

  /** What `create_pymusas_config` writes into the pipeline's configuration for one permutation. */
  datatype ConfigWrite = ConfigWrite(rules: TaggerConfig.RuleList, tagger: TaggerConfig.TaggerInitialize)

  /**
   * The configuration of one permutation. An unknown POS mapper raises inside
   * `create_pymusas_config`, before anything else; a lexicon URL that is not a
   * string fails only afterwards, when the pipeline is initialised.
   */
  function PermutationConfig(language: Language, permutation: string): (r: Result<ConfigWrite, CreateError>)
    ensures r.Ok? ==> MapperArgument(language.posMapper).Ok?
                      && TaggerConfig.SelectPosMapper(MapperArgument(language.posMapper).value).Ok?
                      && language.urls.single.JStr?
  {
    var mapper :- MapperArgument(language.posMapper);
    match TaggerConfig.SelectPosMapper(mapper)
    case Err(e) => Err(Config(e))
    case Ok(selection) =>
      if !language.urls.single.JStr? then Err(NonStringUrl(language.code)) else
      var mweUrl :- MweArgument(language, permutation);
      Ok(ConfigWrite(TaggerConfig.RuleListFor(language.urls.single.s, selection, mweUrl),
                     TaggerConfig.TaggerInitializeFor(selection, language.code)))
  }

  /**
   * An unknown POS mapper is reported before anything about the lexicon
   * URLs: it raises inside `create_pymusas_config`, ahead of the pipeline's
   * initialisation.
   */
  lemma UnknownMapperRaisesFirst(language: Language, permutation: string, meta: seq<Entry>, options: Options)
    requires MapperArgument(language.posMapper).Ok?
    requires TaggerConfig.SelectPosMapper(MapperArgument(language.posMapper).value).Err?
    ensures PermutationBuild(language, permutation, meta, options)
            == Err(Config(TaggerConfig.SelectPosMapper(MapperArgument(language.posMapper).value).error))
    ensures WriteOf(language, permutation).None?
  {
  }

  /** The write a permutation makes, if it gets that far. */
  function WriteOf(language: Language, permutation: string): Option<ConfigWrite>
  {
    match PermutationConfig(language, permutation)
    case Ok(w) => Some(w)
    case Err(_) => None
  }

  /** The pipeline configuration's two entries that `create_pymusas_config` writes. */
  datatype PipelineConfig = PipelineConfig(rules: Option<TaggerConfig.RuleList>,
                                           components: map<string, TaggerConfig.TaggerInitialize>)

  function ConfigState(config: TaggerConfig.SpacyConfig): PipelineConfig
    reads config
  {
    PipelineConfig(config.pymusasRules, config.initializeComponents)
  }

  /** The configuration after a write, if one was made. */
  function Apply(c: PipelineConfig, w: Option<ConfigWrite>): PipelineConfig
  {
    match w
    case None => c
    case Some(x) => PipelineConfig(Some(x.rules), c.components[TaggerConfig.TaggerComponent := x.tagger])
  }

  /** The later of two writes. */
  function Later(a: Option<ConfigWrite>, b: Option<ConfigWrite>): Option<ConfigWrite>
  {
    if b.Some? then b else a
  }

  /** Two writes in a row leave what the later one alone leaves. */
  lemma ApplyLater(c: PipelineConfig, a: Option<ConfigWrite>, b: Option<ConfigWrite>)
    ensures Apply(Apply(c, a), b) == Apply(c, Later(a, b))
  {
    if a.Some? && b.Some? {
      var k := TaggerConfig.TaggerComponent;
      assert c.components[k := a.value.tagger][k := b.value.tagger] == c.components[k := b.value.tagger];
    }
  }

  /**
   * One permutation: the tagger configuration, the pipeline meta data (the
   * defaults and the model's spaCy version, falling back to the command
   * line's), the name and the version; the language name is looked up last.
   */
  function PermutationBuild(language: Language, permutation: string, meta: seq<Entry>, options: Options)
    : Result<ModelBuild, CreateError>
  {
    var written :- PermutationConfig(language, permutation);
    var spacyVersion := GetOr(language.modelInformation, "spacy version", JStr(options.spacyVersion));
    var newMeta := Set(AddDefaultMetaData(meta), "spacy_version", spacyVersion);
    var name := ModelName(language.code, permutation, PosMapperName(MapperArgument(language.posMapper).value).value);
    var version := FullVersion(options.pymusasVersion, options.modelVersion);
    var languageName :- Look(Subscript(language.languageData, "description"));
    Ok(ModelBuild(language.code, language.spacyLanguage, language.posAttribute, permutation,
                  written.rules, written.tagger, newMeta, name, version, PackageName(name, version), languageName))
  }

  /** The permutations of one language in order; the pipeline's meta data carries over. */
  function PermutationBuilds(language: Language, permutations: seq<string>, meta: seq<Entry>, options: Options)
    : Outcome
    decreases |permutations|
  {
    if |permutations| == 0 then Outcome([], None)
    else
      match PermutationBuild(language, permutations[0], meta, options)
      case Err(e) => Outcome([], Some(e))
      case Ok(build) =>
        var rest := PermutationBuilds(language, permutations[1..], build.meta, options);
        Outcome([build] + rest.builds, rest.error)
  }

  /** All models of one language, starting from a blank pipeline's meta data. */
  function LanguageModels(code: string, data: Json, blankMeta: seq<Entry>, options: Options): Outcome
  {
    match LanguageOf(code, data)
    case Err(e) => Outcome([], Some(e))
    case Ok(language) => PermutationBuilds(language, Permutations(language.urls.mwe), blankMeta, options)
  }

  /**
   * What a build of a permutation holds, whatever the pipeline's meta data
   * was before it.
   */
  predicate BuiltFor(language: Language, permutation: string, options: Options, b: ModelBuild)
  {
    && b.permutation == permutation
    && b.languageCode == language.code && b.posAttribute == language.posAttribute
    && b.spacyLanguage == language.spacyLanguage
    && MapperArgument(language.posMapper).Ok?
    && PosMapperName(MapperArgument(language.posMapper).value).Some?
    && TaggerConfig.SelectPosMapper(MapperArgument(language.posMapper).value).Ok?
    && b.name == ModelName(language.code, permutation, PosMapperName(MapperArgument(language.posMapper).value).value)
    && b.version == FullVersion(options.pymusasVersion, options.modelVersion)
    && b.packageName == PackageName(b.name, b.version)
    && ConfiguredFor(language, permutation, TaggerConfig.SelectPosMapper(MapperArgument(language.posMapper).value).value, b)
    && MetaFor(language, options, b.meta)
    && Subscript(language.languageData, "description") == Ok(b.languageName)
  }

  /**
   * The rules read the language's single lexicon with the selected mapper;
   * a dual model also has the MWE rule on the MWE lexicon with the reverse
   * mapper; the tagger settings are those of the mapper and the language.
   */
  predicate ConfiguredFor(language: Language, permutation: string, selection: TaggerConfig.MapperSelection, b: ModelBuild)
  {
    && language.urls.single.JStr?
    && b.rules.single.lexiconCollection.tsvFilePath == language.urls.single.s
    && b.rules.single.posMapper == selection.singleMapper
    && (b.rules.mwe.Some? <==> permutation != "single")
    && (b.rules.mwe.Some? ==>
          language.urls.mwe.JStr?
          && b.rules.mwe.value.mweLexiconLookup.tsvFilePath == language.urls.mwe.s
          && b.rules.mwe.value.posMapper == selection.mweMapper)
    && b.tagger == TaggerConfig.TaggerInitializeFor(selection, language.code)
  }

  /** The pipeline's meta data: the model's spaCy version, else the command line's, and the defaults. */
  predicate MetaFor(language: Language, options: Options, meta: seq<Entry>)
  {
    && Get(meta, "spacy_version") == Some(GetOr(language.modelInformation, "spacy version", JStr(options.spacyVersion)))
    && Get(meta, "author") == Some(JStr("UCREL Research Centre"))
    && Get(meta, "email") == Some(JStr("ucrel@lancaster.ac.uk"))
    && Get(meta, "url") == Some(JStr("https://ucrel.github.io/pymusas/"))
    && Get(meta, "license") == Some(JStr("CC BY-NC-SA 4.0"))
  }

  /**
   * A successful permutation is configured from the language's lexicons and
   * POS mapper, with the language's own POS attribute and spaCy language,
   * carries the spaCy version and the default meta data, and is named after
   * its permutation; only a dual model has the MWE rule.
   */
  lemma PermutationBuildFacts(language: Language, permutation: string, meta: seq<Entry>, options: Options)
    requires PermutationBuild(language, permutation, meta, options).Ok?
    ensures BuiltFor(language, permutation, options, PermutationBuild(language, permutation, meta, options).value)
    ensures WriteOf(language, permutation)
            == Some(ConfigWrite(PermutationBuild(language, permutation, meta, options).value.rules,
                                PermutationBuild(language, permutation, meta, options).value.tagger))
  {
    var b := PermutationBuild(language, permutation, meta, options).value;
    var mapper := MapperArgument(language.posMapper).value;
    var selection := TaggerConfig.SelectPosMapper(mapper).value;
    assert PosMapperName(mapper).Some?;
    assert ConfiguredFor(language, permutation, selection, b);
    var defaults := AddDefaultMetaData(meta);
    assert b.meta == Set(defaults, "spacy_version", GetOr(language.modelInformation, "spacy version", JStr(options.spacyVersion)));
    assert MetaFor(language, options, b.meta);
  }

  /** The permutation loop on a non-empty list: the first build, then the rest from its meta data. */
  lemma PermutationBuildsCons(language: Language, permutations: seq<string>, meta: seq<Entry>, options: Options)
    requires |permutations| > 0
    ensures var first := PermutationBuild(language, permutations[0], meta, options);
            && (first.Err? ==> PermutationBuilds(language, permutations, meta, options) == Outcome([], Some(first.error)))
            && (first.Ok? ==>
                  var rest := PermutationBuilds(language, permutations[1..], first.value.meta, options);
                  PermutationBuilds(language, permutations, meta, options) == Outcome([first.value] + rest.builds, rest.error))
  {
  }

  /** The first model of a non-empty run is built for the first permutation. */
  lemma PermutationBuildsHead(language: Language, permutations: seq<string>, meta: seq<Entry>, options: Options)
    requires |PermutationBuilds(language, permutations, meta, options).builds| > 0
    ensures |permutations| > 0
    ensures BuiltFor(language, permutations[0], options, PermutationBuilds(language, permutations, meta, options).builds[0])
  {
    PermutationBuildFacts(language, permutations[0], meta, options);
  }

  /** After the first model, the run goes on from the first model's meta data. */
  lemma PermutationBuildsTail(language: Language, permutations: seq<string>, meta: seq<Entry>, options: Options)
    requires |PermutationBuilds(language, permutations, meta, options).builds| > 0
    ensures |permutations| > 0
    ensures var builds := PermutationBuilds(language, permutations, meta, options).builds;
            builds[1..] == PermutationBuilds(language, permutations[1..], builds[0].meta, options).builds
  {
    var first := PermutationBuild(language, permutations[0], meta, options).value;
    assert PermutationBuilds(language, permutations, meta, options).builds
           == [first] + PermutationBuilds(language, permutations[1..], first.meta, options).builds;
  }

  /** A run of the permutations without error builds every one of them. */
  lemma {:induction false} PermutationBuildsComplete(language: Language, permutations: seq<string>, meta: seq<Entry>,
                                                     options: Options)
    requires PermutationBuilds(language, permutations, meta, options).error.None?
    ensures |PermutationBuilds(language, permutations, meta, options).builds| == |permutations|
    decreases |permutations|
  {
    if |permutations| > 0 {
      var build := PermutationBuild(language, permutations[0], meta, options).value;
      PermutationBuildsComplete(language, permutations[1..], build.meta, options);
    }
  }

  /** The model name spelled out. */
  lemma ModelNameText(code: string, permutation: string, mapperName: string)
    ensures ModelName(code, permutation, mapperName) == code + "_" + permutation + "_" + mapperName + "_contextual"
  {
    var parts := [code, permutation, mapperName, "contextual"];
    assert parts[1..] == [permutation, mapperName, "contextual"];
    assert parts[1..][1..] == [mapperName, "contextual"];
    assert parts[1..][1..][1..] == ["contextual"];
    assert [mapperName, "contextual"][1..] == ["contextual"];
    assert [permutation, mapperName, "contextual"][1..] == [mapperName, "contextual"];
    assert Strings.Join(["contextual"], "_") == "contextual";
    var tail2 := Strings.Join([mapperName, "contextual"], "_");
    assert tail2 == mapperName + "_" + "contextual";
    var tail1 := Strings.Join([permutation, mapperName, "contextual"], "_");
    assert tail1 == permutation + "_" + tail2;
    assert ModelName(code, permutation, mapperName) == code + "_" + tail1;
  }

  /** Two permutations of one language never share a package name. */
  lemma PackageNamesDiffer(code: string, mapperName: string, version: string)
    ensures PackageName(ModelName(code, "single", mapperName), version)
            != PackageName(ModelName(code, "dual", mapperName), version)
  {
    ModelNameText(code, "single", mapperName);
    ModelNameText(code, "dual", mapperName);
    assert PackageName(ModelName(code, "single", mapperName), version)[|code| + 1] == 's';
    assert PackageName(ModelName(code, "dual", mapperName), version)[|code| + 1] == 'd';
  }

  /**
   * A language whose models all build gives one model per permutation: a
   * single-lexicon model without the MWE rule, then a dual one with it
   * exactly when there is an MWE lexicon, under another package name.
   */
  lemma PermutationBuildsShape(language: Language, blankMeta: seq<Entry>, options: Options)
    requires PermutationBuilds(language, Permutations(language.urls.mwe), blankMeta, options).error.None?
    ensures var builds := PermutationBuilds(language, Permutations(language.urls.mwe), blankMeta, options).builds;
            && |builds| == |Permutations(language.urls.mwe)|
            && builds[0].permutation == "single" && builds[0].rules.mwe.None?
            && (|builds| == 2 ==> builds[1].permutation == "dual" && builds[1].rules.mwe.Some?
                                  && builds[0].packageName != builds[1].packageName)
  {
    var perms := Permutations(language.urls.mwe);
    var builds := PermutationBuilds(language, perms, blankMeta, options).builds;
    PermutationBuildsComplete(language, perms, blankMeta, options);
    PermutationBuildsHead(language, perms, blankMeta, options);
    if |builds| == 2 {
      PermutationBuildsTail(language, perms, blankMeta, options);
      var rest := PermutationBuilds(language, perms[1..], builds[0].meta, options).builds;
      PermutationBuildsHead(language, perms[1..], builds[0].meta, options);
      assert rest[0] == builds[1];
      PackageNamesDiffer(language.code, PosMapperName(MapperArgument(language.posMapper).value).value,
                         FullVersion(options.pymusasVersion, options.modelVersion));
    }
  }

  /** Everything `create_models` reads about a language before its first model, step by step. */
  method ReadLanguage(code: string, data: Json) returns (r: Result<Language, CreateError>)
    ensures r == LanguageOf(code, data)
  {
    var resourcesValue := Look(Subscript(data, "resources"));
    if resourcesValue.Err? {
      return Err(resourcesValue.error);
    }
    var resources := Look(Iterate(resourcesValue.value));
    if resources.Err? {
      return Err(resources.error);
    }
    var urls := ParseResources(resources.value, code);
    if urls.Err? {
      return Err(urls.error);
    }
    var information := Look(Subscript(data, "model information"));
    if information.Err? {
      return Err(information.error);
    }
    var languageData := Look(Subscript(data, "language data"));
    if languageData.Err? {
      return Err(languageData.error);
    }
    if !Truthy(urls.value.single) {
      return Err(EmptySingleLexicon(code));
    }
    var posMapper := Look(Subscript(information.value, "POS mapper"));
    if posMapper.Err? {
      return Err(posMapper.error);
    }
    var spacyLanguage := SpacyLanguage(code);
    if spacyLanguage.None? {
      return Err(Lookup(KeyError(code)));
    }
    r := Ok(Language(code, urls.value, information.value.fields, languageData.value, posMapper.value,
                     PosAttribute(code), spacyLanguage.value));
  }

  /**
   * One permutation on the language's pipeline: its configuration object is
   * rewritten by `create_pymusas_config`, then read back into the build.
   */
  method BuildPermutation(config: TaggerConfig.SpacyConfig, language: Language, permutation: string,
                          meta: seq<Entry>, options: Options)
    returns (r: Result<ModelBuild, CreateError>)
    modifies config
    ensures r == PermutationBuild(language, permutation, meta, options)
    ensures ConfigState(config) == Apply(old(ConfigState(config)), WriteOf(language, permutation))
  {
    var mapper := MapperArgument(language.posMapper);
    if mapper.Err? {
      return Err(mapper.error);
    }
    var selection := TaggerConfig.SelectPosMapper(mapper.value);
    if selection.Err? {
      return Err(Config(selection.error));
    }
    if !language.urls.single.JStr? {
      return Err(NonStringUrl(language.code));
    }
    var mweUrl := MweArgument(language, permutation);
    if mweUrl.Err? {
      return Err(mweUrl.error);
    }
    var err := TaggerConfig.CreatePymusasConfig(config, language.urls.single.s, mapper.value, language.code, mweUrl.value);
    assert err.None?;
    var spacyVersion := GetOr(language.modelInformation, "spacy version", JStr(options.spacyVersion));
    var newMeta := Set(AddDefaultMetaData(meta), "spacy_version", spacyVersion);
    var name := ModelName(language.code, permutation, PosMapperName(mapper.value).value);
    var version := FullVersion(options.pymusasVersion, options.modelVersion);
    var languageName := Look(Subscript(language.languageData, "description"));
    if languageName.Err? {
      return Err(languageName.error);
    }
    r := Ok(ModelBuild(language.code, language.spacyLanguage, language.posAttribute, permutation,
                       config.pymusasRules.value, config.initializeComponents[TaggerConfig.TaggerComponent],
                       newMeta, name, version, PackageName(name, version), languageName.value));
  }

  /**
   * The models of one language: the resources loop, then one pipeline whose
   * configuration object is rewritten for each permutation in turn.
   */
  method BuildLanguage(code: string, data: Json, blankMeta: seq<Entry>, options: Options) returns (o: Outcome)
    ensures o == LanguageModels(code, data, blankMeta, options)
  {
    var language := ReadLanguage(code, data);
    if language.Err? {
      return Outcome([], Some(language.error));
    }
    var lang := language.value;
    var config := new TaggerConfig.SpacyConfig(lang.spacyLanguage, lang.posAttribute);
    o := BuildPermutations(config, lang, Permutations(lang.urls.mwe), blankMeta, options);
  }

  /** The last write the permutation loop makes to the configuration, if any. */
  function LastWrite(language: Language, permutations: seq<string>, meta: seq<Entry>, options: Options)
    : Option<ConfigWrite>
    decreases |permutations|
  {
    if |permutations| == 0 then None
    else
      var here := WriteOf(language, permutations[0]);
      match PermutationBuild(language, permutations[0], meta, options)
      case Err(_) => here
      case Ok(build) => Later(here, LastWrite(language, permutations[1..], build.meta, options))
  }

  /**
   * After a run without error the configuration holds the last model's rule
   * list and tagger settings; a run that builds nothing writes nothing.
   */
  lemma {:induction false} LastWriteIsLastBuild(language: Language, permutations: seq<string>, meta: seq<Entry>,
                                                options: Options)
    requires PermutationBuilds(language, permutations, meta, options).error.None?
    ensures var builds := PermutationBuilds(language, permutations, meta, options).builds;
            LastWrite(language, permutations, meta, options)
            == if |builds| == 0 then None
               else Some(ConfigWrite(builds[|builds| - 1].rules, builds[|builds| - 1].tagger))
    decreases |permutations|
  {
    if |permutations| > 0 {
      var first := PermutationBuild(language, permutations[0], meta, options).value;
      PermutationBuildFacts(language, permutations[0], meta, options);
      PermutationBuildsCons(language, permutations, meta, options);
      LastWriteIsLastBuild(language, permutations[1..], first.meta, options);
      var rest := PermutationBuilds(language, permutations[1..], first.meta, options).builds;
      if |rest| > 0 {
        assert ([first] + rest)[|rest|] == rest[|rest| - 1];
      }
    }
  }

  /**
   * The permutation loop on one pipeline: each permutation rewrites the
   * configuration object and carries the pipeline's meta data on to the
   * next; the first error stops the loop.
   */
  method BuildPermutations(config: TaggerConfig.SpacyConfig, lang: Language, permutations: seq<string>,
                           blankMeta: seq<Entry>, options: Options)
    returns (o: Outcome)
    modifies config
    ensures o == PermutationBuilds(lang, permutations, blankMeta, options)
    ensures ConfigState(config) == Apply(old(ConfigState(config)), LastWrite(lang, permutations, blankMeta, options))
  {
    var meta := blankMeta;
    var builds: seq<ModelBuild> := [];
    for i := 0 to |permutations|
      invariant PermutationBuilds(lang, permutations[i..], meta, options).error
                == PermutationBuilds(lang, permutations, blankMeta, options).error
      invariant builds + PermutationBuilds(lang, permutations[i..], meta, options).builds
                == PermutationBuilds(lang, permutations, blankMeta, options).builds
      invariant Apply(ConfigState(config), LastWrite(lang, permutations[i..], meta, options))
                == Apply(old(ConfigState(config)), LastWrite(lang, permutations, blankMeta, options))
    {
      assert permutations[i..][0] == permutations[i] && permutations[i..][1..] == permutations[i + 1..];
      PermutationBuildsCons(lang, permutations[i..], meta, options);
      ghost var before := ConfigState(config);
      var build := BuildPermutation(config, lang, permutations[i], meta, options);
      if build.Err? {
        assert LastWrite(lang, permutations[i..], meta, options) == WriteOf(lang, permutations[i]);
        return Outcome(builds, Some(build.error));
      }
      ApplyLater(before, WriteOf(lang, permutations[i]), LastWrite(lang, permutations[i + 1..], build.value.meta, options));
      assert LastWrite(lang, permutations[i..], meta, options)
             == Later(WriteOf(lang, permutations[i]), LastWrite(lang, permutations[i + 1..], build.value.meta, options));
      AppendAssoc(builds, [build.value], PermutationBuilds(lang, permutations[i + 1..], build.value.meta, options).builds);
      builds := builds + [build.value];
      meta := build.value.meta;
    }
    assert permutations[|permutations|..] == [];
    o := Outcome(builds, None);
  }

  lemma AppendAssoc<T>(a: seq<T>, b: seq<T>, c: seq<T>)
    ensures a + b + c == a + (b + c)
  {
  }

  // ---------------------------------------------------------------------
  // All languages
  // ---------------------------------------------------------------------

  /** The language loop: languages in file order; an error stops the run. */
  function LanguagesFrom(done: seq<ModelBuild>, entries: seq<Entry>, blankMeta: seq<Entry>, options: Options): Outcome
    decreases |entries|
  {
    if |entries| == 0 then Outcome(done, None)
    else
      var o := LanguageModels(entries[0].key, entries[0].value, blankMeta, options);
      if o.error.Some? then Outcome(done + o.builds, o.error)
      else LanguagesFrom(done + o.builds, entries[1..], blankMeta, options)
  }

  /**
   * `create_models` as a value: an empty resource file is an assertion
   * error, anything but an object has no `items`, and otherwise the
   * languages are built in order.
   */
  function CreateModelsOf(resourceFile: Json, blankMeta: seq<Entry>, options: Options): Outcome
  {
    if !Truthy(resourceFile) then Outcome([], Some(EmptyResourceFile))
    else if !resourceFile.JObj? then Outcome([], Some(Lookup(AttributeError("items"))))
    else LanguagesFrom([], resourceFile.fields, blankMeta, options)
  }

  /** Builds made before the run stops are kept, in order. */
  lemma {:induction false} LanguagesFromKeepsDone(done: seq<ModelBuild>, entries: seq<Entry>,
                                                   blankMeta: seq<Entry>, options: Options)
    ensures done <= LanguagesFrom(done, entries, blankMeta, options).builds
    decreases |entries|
  {
    if |entries| > 0 {
      var o := LanguageModels(entries[0].key, entries[0].value, blankMeta, options);
      if o.error.None? {
        LanguagesFromKeepsDone(done + o.builds, entries[1..], blankMeta, options);
      }
    }
  }

  /**
   * `create_models`: the assertion on the loaded file, then every language
   * in file order until one fails.
   */
  method CreateModels(resourceFile: Json, blankMeta: seq<Entry>, options: Options) returns (o: Outcome)
    ensures o == CreateModelsOf(resourceFile, blankMeta, options)
  {
    if !Truthy(resourceFile) {
      return Outcome([], Some(EmptyResourceFile));
    }
    if !resourceFile.JObj? {
      return Outcome([], Some(Lookup(AttributeError("items"))));
    }
    var entries := resourceFile.fields;
    var builds: seq<ModelBuild> := [];
    for i := 0 to |entries|
      invariant LanguagesFrom(builds, entries[i..], blankMeta, options) == LanguagesFrom([], entries, blankMeta, options)
    {
      assert entries[i..][1..] == entries[i + 1..];
      var language := BuildLanguage(entries[i].key, entries[i].value, blankMeta, options);
      builds := builds + language.builds;
      if language.error.Some? {
        return Outcome(builds, language.error);
      }
    }
    assert entries[|entries|..] == [];
    o := Outcome(builds, None);
  }
}
