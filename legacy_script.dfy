/**
 * `scripts/create_config_and_meta_files.py`, the older script that builds a
 * model per language. It repeats the configuration and meta data steps of
 * `pymusas_models/__main__.py` with its own differences, and those are kept
 * as written here:
 *
 * - the `BasicCorCenCC` mapper selects the UPOS mappers (only its default
 *   tags are its own);
 * - the MWE rule is added when the MWE URL is truthy, and only `id` overrides
 *   the default tags;
 * - the dist files are renamed by dropping their first `_`-separated part,
 *   the meta data's `spacy_version` becomes `spacy>=3.0`, no language name
 *   or notes are added, and the description starts with a `# <package>`
 *   heading;
 * - a model is named `{code}_single_{POS mapper}_contextual`, versioned by
 *   the whole pymusas version and found in `{spacy code}_{package}`;
 * - the language loop ends with `break`: only the first language is built.
 */
module LegacyScript {
  import opened Wrappers
  import opened Json
  import Strings
  import TaggerConfig
  import ModelCreation
  import MetaData
  import ReadmeGenerator
  import Markdown

  // ---------------------------------------------------------------------
  // create_pymusas_config
  // ---------------------------------------------------------------------

  /**
   * The script's if/elif chain: both known mappers select the UPOS mappers
   * in both directions; each keeps its own default tags. No mapper selects
   * nothing; any other name is an error.
   */
  function LegacySelectPosMapper(mapper: Option<string>): (r: Result<TaggerConfig.MapperSelection, TaggerConfig.ConfigError>)
    ensures mapper.None? ==> r == Ok(TaggerConfig.MapperSelection(None, None, None, None))
    ensures mapper.Some? && TaggerConfig.Family(mapper.value).None? ==> r == Err(TaggerConfig.UnknownPosMapper(mapper.value))
    ensures mapper.Some? && TaggerConfig.Family(mapper.value).Some? ==>
              r.Ok?
              && r.value.singleMapper == Some(TaggerConfig.ToUsasCore("UPOS"))
              && r.value.mweMapper == Some(TaggerConfig.FromUsasCore("UPOS"))
    ensures mapper == Some("UPOS") ==> r.Ok? && r.value.punctuationTags == Some(["PUNCT"]) && r.value.numberTags == Some(["NUM"])
    ensures mapper == Some("BasicCorCenCC") ==> r.Ok? && r.value.punctuationTags == Some(["Atd"]) && r.value.numberTags == Some(["Rhi"])
  {
    if mapper == Some("UPOS") then
      Ok(TaggerConfig.MapperSelection(Some(TaggerConfig.ToUsasCore("UPOS")), Some(TaggerConfig.FromUsasCore("UPOS")),
                                      Some(["PUNCT"]), Some(["NUM"])))
    else if mapper == Some("BasicCorCenCC") then
      Ok(TaggerConfig.MapperSelection(Some(TaggerConfig.ToUsasCore("UPOS")), Some(TaggerConfig.FromUsasCore("UPOS")),
                                      Some(["Atd"]), Some(["Rhi"])))
    else if mapper.Some? then Err(TaggerConfig.UnknownPosMapper(mapper.value))
    else Ok(TaggerConfig.MapperSelection(None, None, None, None))
  }

  /**
   * The script and `pymusas_models/__main__.py` select the same mappers and
   * tags for every POS mapper but `BasicCorCenCC`, where the script's two
   * registered mappers are the UPOS ones and not the Basic CorCenCC ones.
   */
  lemma LegacySelectDiverges(mapper: Option<string>)
    ensures mapper != Some("BasicCorCenCC") ==> LegacySelectPosMapper(mapper) == TaggerConfig.SelectPosMapper(mapper)
    ensures mapper == Some("BasicCorCenCC") ==>
              var legacy := LegacySelectPosMapper(mapper).value;
              var current := TaggerConfig.SelectPosMapper(mapper).value;
              && legacy.singleMapper != current.singleMapper
              && legacy.mweMapper != current.mweMapper
              && legacy.punctuationTags == current.punctuationTags
              && legacy.numberTags == current.numberTags
  {
    if mapper == Some("BasicCorCenCC") {
      var n := |TaggerConfig.PosMapperPrefix|;
      assert TaggerConfig.ToUsasCore("UPOS")[n] == 'U';
      assert TaggerConfig.ToUsasCore("BASIC_CORCENCC")[n] == 'B';
      var m := n + |"USAS_CORE_TO_"|;
      assert TaggerConfig.FromUsasCore("UPOS")[m] == 'U';
      assert TaggerConfig.FromUsasCore("BASIC_CORCENCC")[m] == 'B';
    }
  }

  /**
   * The script's rule list: the single-word rule always, the MWE rule only
   * when the MWE URL is given and not empty (the URL's truth value).
   */
  function LegacyRuleListFor(singleLexiconUrl: string, selection: TaggerConfig.MapperSelection,
                             mweLexiconUrl: Option<string>): (r: TaggerConfig.RuleList)
    ensures r.mwe.Some? <==> mweLexiconUrl.Some? && mweLexiconUrl.value != ""
  {
    var single := TaggerConfig.SingleWordRule(
      TaggerConfig.SingleWordRuleV1, selection.singleMapper,
      TaggerConfig.LexiconCollection(TaggerConfig.LexiconCollectionFromTsv, singleLexiconUrl, true),
      TaggerConfig.LexiconCollection(TaggerConfig.LexiconCollectionFromTsv, singleLexiconUrl, false));
    if mweLexiconUrl.Some? && mweLexiconUrl.value != "" then
      TaggerConfig.RuleList(TaggerConfig.RuleListV, single,
                            Some(TaggerConfig.MweRule(TaggerConfig.MweRuleV1, selection.mweMapper,
                                                      TaggerConfig.MweLexiconLookup(TaggerConfig.MweLexiconCollectionFromTsv,
                                                                                    mweLexiconUrl.value))))
    else TaggerConfig.RuleList(TaggerConfig.RuleListV, single, None)
  }

  /**
   * The script's rule list is the one `pymusas_models/__main__.py` builds
   * when an empty MWE URL is read as no URL at all.
   */
  lemma LegacyRuleListAgrees(singleLexiconUrl: string, selection: TaggerConfig.MapperSelection, mweLexiconUrl: Option<string>)
    ensures LegacyRuleListFor(singleLexiconUrl, selection, mweLexiconUrl)
            == TaggerConfig.RuleListFor(singleLexiconUrl, selection, if mweLexiconUrl == Some("") then None else mweLexiconUrl)
  {
  }

  /** The script's initialisation settings: only `id` overrides the mapper's default tags. */
  function LegacyTaggerInitializeFor(selection: TaggerConfig.MapperSelection, languageCode: string): (r: TaggerConfig.TaggerInitialize)
    ensures r.ranker == TaggerConfig.Ranker(TaggerConfig.ContextualRankerV1, TaggerConfig.RulesReference)
    ensures r.rules == TaggerConfig.RulesReference
    ensures languageCode == "id" ==> r.defaultPunctuationTags == Some(["Z"]) && r.defaultNumberTags == Some(["CD"])
    ensures languageCode != "id" ==>
              r.defaultPunctuationTags == selection.punctuationTags && r.defaultNumberTags == selection.numberTags
  {
    var punctuation := if languageCode == "id" then Some(["Z"]) else selection.punctuationTags;
    var numbers := if languageCode == "id" then Some(["CD"]) else selection.numberTags;
    TaggerConfig.TaggerInitialize(TaggerConfig.Ranker(TaggerConfig.ContextualRankerV1, TaggerConfig.RulesReference),
                                  punctuation, numbers, TaggerConfig.RulesReference)
  }

  /**
   * The settings agree with `pymusas_models/__main__.py` for every language
   * but `en`, which the script leaves to the mapper's defaults.
   */
  lemma LegacyTaggerAgrees(selection: TaggerConfig.MapperSelection, languageCode: string)
    ensures languageCode != "en" ==>
              LegacyTaggerInitializeFor(selection, languageCode) == TaggerConfig.TaggerInitializeFor(selection, languageCode)
    ensures languageCode == "en" && selection.punctuationTags != Some(["PUNCT"]) ==>
              LegacyTaggerInitializeFor(selection, languageCode) != TaggerConfig.TaggerInitializeFor(selection, languageCode)
  {
  }

  /**
   * The script's `create_pymusas_config`, with the language code it reads
   * from the enclosing loop as a parameter: an unknown POS mapper raises
   * before anything is written; otherwise the rule list and the tagger's
   * initialisation entry are replaced and nothing else changes.
   */
  method LegacyCreatePymusasConfig(config: TaggerConfig.SpacyConfig, singleLexiconUrl: string,
                                   modelPosMapper: Option<string>, languageCode: string, mweLexiconUrl: Option<string>)
    returns (err: Option<TaggerConfig.ConfigError>)
    modifies config
    ensures err.Some? <==> LegacySelectPosMapper(modelPosMapper).Err?
    ensures err.Some? ==> err.value == LegacySelectPosMapper(modelPosMapper).error
                          && config.pymusasRules == old(config.pymusasRules)
                          && config.initializeComponents == old(config.initializeComponents)
    ensures err.None? ==>
              var selection := LegacySelectPosMapper(modelPosMapper).value;
              && config.pymusasRules == Some(LegacyRuleListFor(singleLexiconUrl, selection, mweLexiconUrl))
              && config.initializeComponents
                 == old(config.initializeComponents)[TaggerConfig.TaggerComponent := LegacyTaggerInitializeFor(selection, languageCode)]
  {
    var singleMapper: Option<string> := None;
    var mweMapper: Option<string> := None;
    var punctuation: Option<seq<string>> := None;
    var numbers: Option<seq<string>> := None;

    if modelPosMapper == Some("UPOS") {
      singleMapper := Some(TaggerConfig.ToUsasCore("UPOS"));
      mweMapper := Some(TaggerConfig.FromUsasCore("UPOS"));
      punctuation := Some(["PUNCT"]);
      numbers := Some(["NUM"]);
    } else if modelPosMapper == Some("BasicCorCenCC") {
      singleMapper := Some(TaggerConfig.ToUsasCore("UPOS"));
      mweMapper := Some(TaggerConfig.FromUsasCore("UPOS"));
      punctuation := Some(["Atd"]);
      numbers := Some(["Rhi"]);
    } else if modelPosMapper.Some? {
      return Some(TaggerConfig.UnknownPosMapper(modelPosMapper.value));
    }

    var singleRule := TaggerConfig.SingleWordRule(
      TaggerConfig.SingleWordRuleV1, singleMapper,
      TaggerConfig.LexiconCollection(TaggerConfig.LexiconCollectionFromTsv, singleLexiconUrl, true),
      TaggerConfig.LexiconCollection(TaggerConfig.LexiconCollectionFromTsv, singleLexiconUrl, false));
    var lexiconRules := TaggerConfig.RuleList(TaggerConfig.RuleListV, singleRule, None);
    if mweLexiconUrl.Some? && mweLexiconUrl.value != "" {
      var mweRule := TaggerConfig.MweRule(TaggerConfig.MweRuleV1, mweMapper,
                                          TaggerConfig.MweLexiconLookup(TaggerConfig.MweLexiconCollectionFromTsv,
                                                                        mweLexiconUrl.value));
      lexiconRules := lexiconRules.(mwe := Some(mweRule));
    }
    config.pymusasRules := Some(lexiconRules);

    if languageCode == "id" {
      punctuation := Some(["Z"]);
      numbers := Some(["CD"]);
    }
    config.initializeComponents := config.initializeComponents[TaggerConfig.TaggerComponent :=
      TaggerConfig.TaggerInitialize(TaggerConfig.Ranker(TaggerConfig.ContextualRankerV1, TaggerConfig.RulesReference),
                                    punctuation, numbers, TaggerConfig.RulesReference)];
    return None;
  }

  // ---------------------------------------------------------------------
  // The model of the first language
  // ---------------------------------------------------------------------

  /**
   * The script's `PYMUSAS_LANG_TO_SPACY`: eight codes, each mapped as in
   * `pymusas_models/__main__.py`, which also knows `fi` and `en`.
   */
  function LegacySpacyLanguage(code: string): (r: Option<string>)
    ensures r.Some? <==> code in ["cmn", "nl", "fr", "it", "pt", "es", "cy", "id"]
    ensures r.Some? ==> r == ModelCreation.SpacyLanguage(code)
  {
    if code == "cmn" then Some("zh")
    else if code == "cy" then Some("xx")
    else if code in ["nl", "fr", "it", "pt", "es", "id"] then Some(code)
    else None
  }

  /** What the script hands to spaCy's packaging and to the meta data step. */
  datatype LegacyBuild = LegacyBuild(
    languageCode: string,
    spacyLanguage: string,
    posAttribute: string,
    rules: TaggerConfig.RuleList,
    tagger: TaggerConfig.TaggerInitialize,
    meta: seq<Entry>,
    name: string,
    version: string,
    packageName: string,
    directory: string,
    languageName: Json)

  /** `f'{language_code}_single_{model_pos_mapper}_contextual'`: the mapper as `str` shows it. */
  function LegacyModelName(code: string, posMapper: Json): string
  {
    code + "_single_" + Str(posMapper) + "_contextual"
  }

  /**
   * The script's name is the single-lexicon model name with the raw POS
   * mapper where `pymusas_models/__main__.py` puts the mapper's name; so the
   * two differ, e.g. `UPOS` against `upos2usas`.
   */
  lemma LegacyModelNameIsRaw(code: string, posMapper: Json)
    ensures LegacyModelName(code, posMapper) == ModelCreation.ModelName(code, "single", Str(posMapper))
    ensures posMapper == JStr("UPOS") ==>
              LegacyModelName(code, posMapper)
              != ModelCreation.ModelName(code, "single", ModelCreation.PosMapperName(Some("UPOS")).value)
  {
    ModelCreation.ModelNameText(code, "single", Str(posMapper));
    if posMapper == JStr("UPOS") {
      ModelCreation.ModelNameText(code, "single", "upos2usas");
      assert LegacyModelName(code, posMapper)[|code| + 8] == 'U';
      assert ModelCreation.ModelName(code, "single", "upos2usas")[|code| + 8] == 'u';
    }
  }

  /**
   * Everything the script reads about a language before configuring its
   * model: the resources, the model information and language data, the
   * single lexicon check, the POS mapper and the spaCy language.
   */
  function LegacyLanguageOf(code: string, data: Json): Result<ModelCreation.Language, ModelCreation.CreateError>
  {
    ModelCreation.LanguageWith(code, data, LegacySpacyLanguage(code))
  }

  /**
   * The script reads a language as `pymusas_models/__main__.py` does, except
   * that `fi`, `en` and every other code outside its own table are a KeyError.
   */
  lemma LegacyLanguageAgrees(code: string, data: Json)
    ensures code in ["cmn", "nl", "fr", "it", "pt", "es", "cy", "id"] ==>
              LegacyLanguageOf(code, data) == ModelCreation.LanguageOf(code, data)
    ensures (code == "fi" || code == "en") && ModelCreation.LanguageOf(code, data).Ok? ==>
              LegacyLanguageOf(code, data) == Err(ModelCreation.Lookup(KeyError(code)))
  {
    if code in ["cmn", "nl", "fr", "it", "pt", "es", "cy", "id"] {
      LegacyTableAgrees(code);
    }
    if (code == "fi" || code == "en") && ModelCreation.LanguageOf(code, data).Ok? {
      LegacyTableMisses(code);
      ModelCreation.LanguageWithoutTable(code, data, ModelCreation.SpacyLanguage(code));
    }
  }

  lemma LegacyTableAgrees(code: string)
    requires code in ["cmn", "nl", "fr", "it", "pt", "es", "cy", "id"]
    ensures LegacySpacyLanguage(code) == ModelCreation.SpacyLanguage(code)
  {
  }

  lemma LegacyTableMisses(code: string)
    requires code == "fi" || code == "en"
    ensures LegacySpacyLanguage(code) == None
  {
  }

  /**
   * The model of a language: the configuration without an MWE lexicon, the
   * default meta data, then the names; the language name is looked up last.
   */
  function LegacyBuildFor(language: ModelCreation.Language, blankMeta: seq<Entry>, pymusasVersion: string)
    : Result<LegacyBuild, ModelCreation.CreateError>
  {
    var mapper :- ModelCreation.MapperArgument(language.posMapper);
    match LegacySelectPosMapper(mapper)
    case Err(e) => Err(ModelCreation.Config(e))
    case Ok(selection) =>
      if !language.urls.single.JStr? then Err(ModelCreation.NonStringUrl(language.code))
      else
        var rules := LegacyRuleListFor(language.urls.single.s, selection, None);
        var tagger := LegacyTaggerInitializeFor(selection, language.code);
        var meta := ModelCreation.AddDefaultMetaData(blankMeta);
        var name := LegacyModelName(language.code, language.posMapper);
        var packageName := name + "-" + pymusasVersion;
        var languageName :- ModelCreation.Look(Subscript(language.languageData, "description"));
        Ok(LegacyBuild(language.code, language.spacyLanguage, language.posAttribute, rules, tagger, meta, name,
                       pymusasVersion, packageName, language.spacyLanguage + "_" + packageName, languageName))
  }

  /** An unknown POS mapper is reported before anything about the single lexicon URL. */
  lemma LegacyUnknownMapperRaisesFirst(language: ModelCreation.Language, blankMeta: seq<Entry>, pymusasVersion: string)
    requires ModelCreation.MapperArgument(language.posMapper).Ok?
    requires LegacySelectPosMapper(ModelCreation.MapperArgument(language.posMapper).value).Err?
    ensures LegacyBuildFor(language, blankMeta, pymusasVersion)
            == Err(ModelCreation.Config(LegacySelectPosMapper(ModelCreation.MapperArgument(language.posMapper).value).error))
  {
  }

  /** One language as the script builds it. */
  function LegacyModel(code: string, data: Json, blankMeta: seq<Entry>, pymusasVersion: string)
    : Result<LegacyBuild, ModelCreation.CreateError>
  {
    var language :- LegacyLanguageOf(code, data);
    LegacyBuildFor(language, blankMeta, pymusasVersion)
  }

  /**
   * A model the script builds has no MWE rule, whatever the resources say; it
   * is configured from the language's single lexicon, named after the raw
   * POS mapper, versioned by the whole pymusas version, and lives in the
   * directory named by its spaCy language and package.
   */
  lemma LegacyBuildFacts(language: ModelCreation.Language, blankMeta: seq<Entry>, pymusasVersion: string)
    requires LegacyBuildFor(language, blankMeta, pymusasVersion).Ok?
    ensures var b := LegacyBuildFor(language, blankMeta, pymusasVersion).value;
            && b.rules.mwe.None?
            && language.urls.single.JStr?
            && b.rules.single.lexiconCollection.tsvFilePath == language.urls.single.s
            && b.name == ModelCreation.ModelName(language.code, "single", Str(language.posMapper))
            && b.version == pymusasVersion
            && b.packageName == ModelCreation.PackageName(b.name, pymusasVersion)
            && b.directory == language.spacyLanguage + "_" + b.packageName
            && b.languageCode == language.code && b.posAttribute == language.posAttribute
  {
    LegacyModelNameIsRaw(language.code, language.posMapper);
  }

  /**
   * The script as a value: an empty resource file is an assertion error,
   * anything but an object has no `items`, and otherwise the first language
   * decides everything.
   */
  function LegacyMainOf(resourceFile: Json, blankMeta: seq<Entry>, pymusasVersion: string)
    : Result<LegacyBuild, ModelCreation.CreateError>
  {
    if !Truthy(resourceFile) then Err(ModelCreation.EmptyResourceFile)
    else if !resourceFile.JObj? then Err(ModelCreation.Lookup(AttributeError("items")))
    else LegacyModel(resourceFile.fields[0].key, resourceFile.fields[0].value, blankMeta, pymusasVersion)
  }

  /** The languages after the first are never read: they cannot change what the script does. */
  lemma LegacyFirstLanguageOnly(first: Entry, rest1: seq<Entry>, rest2: seq<Entry>, blankMeta: seq<Entry>,
                                pymusasVersion: string)
    ensures LegacyMainOf(JObj([first] + rest1), blankMeta, pymusasVersion)
            == LegacyMainOf(JObj([first] + rest2), blankMeta, pymusasVersion)
    ensures LegacyMainOf(JObj([first] + rest1), blankMeta, pymusasVersion)
            == LegacyModel(first.key, first.value, blankMeta, pymusasVersion)
  {
  }

  /** One language, step by step, with the pipeline's configuration object rewritten by the script. */
  method LegacyBuildLanguage(code: string, data: Json, blankMeta: seq<Entry>, pymusasVersion: string)
    returns (r: Result<LegacyBuild, ModelCreation.CreateError>)
    ensures r == LegacyModel(code, data, blankMeta, pymusasVersion)
  {
    var language := LegacyReadLanguage(code, data);
    if language.Err? {
      return Err(language.error);
    }
    r := LegacyConfigure(language.value, blankMeta, pymusasVersion);
  }

  /** The reading part of the language loop's body. */
  method LegacyReadLanguage(code: string, data: Json) returns (r: Result<ModelCreation.Language, ModelCreation.CreateError>)
    ensures r == LegacyLanguageOf(code, data)
  {
    var resourcesValue := ModelCreation.Look(Subscript(data, "resources"));
    if resourcesValue.Err? {
      return Err(resourcesValue.error);
    }
    var resources := ModelCreation.Look(Iterate(resourcesValue.value));
    if resources.Err? {
      return Err(resources.error);
    }
    var urls := ModelCreation.ParseResources(resources.value, code);
    if urls.Err? {
      return Err(urls.error);
    }
    var information := ModelCreation.Look(Subscript(data, "model information"));
    if information.Err? {
      return Err(information.error);
    }
    var languageData := ModelCreation.Look(Subscript(data, "language data"));
    if languageData.Err? {
      return Err(languageData.error);
    }
    if !Truthy(urls.value.single) {
      return Err(ModelCreation.EmptySingleLexicon(code));
    }
    var posMapper := ModelCreation.Look(Subscript(information.value, "POS mapper"));
    if posMapper.Err? {
      return Err(posMapper.error);
    }
    var posAttribute := if code == "cy" || code == "id" then "tag_" else "pos_";
    var spacyLanguage := LegacySpacyLanguage(code);
    if spacyLanguage.None? {
      return Err(ModelCreation.Lookup(KeyError(code)));
    }
    r := Ok(ModelCreation.Language(code, urls.value, information.value.fields, languageData.value, posMapper.value,
                                   posAttribute, spacyLanguage.value));
  }

  /** The configuring and naming part of the language loop's body, on a fresh pipeline. */
  method LegacyConfigure(language: ModelCreation.Language, blankMeta: seq<Entry>, pymusasVersion: string)
    returns (r: Result<LegacyBuild, ModelCreation.CreateError>)
    ensures r == LegacyBuildFor(language, blankMeta, pymusasVersion)
  {
    var config := new TaggerConfig.SpacyConfig(language.spacyLanguage, language.posAttribute);
    var mapper := ModelCreation.MapperArgument(language.posMapper);
    if mapper.Err? {
      return Err(mapper.error);
    }
    var selection := LegacySelectPosMapper(mapper.value);
    if selection.Err? {
      return Err(ModelCreation.Config(selection.error));
    }
    if !language.urls.single.JStr? {
      return Err(ModelCreation.NonStringUrl(language.code));
    }
    var err := LegacyCreatePymusasConfig(config, language.urls.single.s, mapper.value, language.code, None);
    assert err.None?;
    var meta := ModelCreation.AddDefaultMetaData(blankMeta);
    var name := language.code + "_single_" + Str(language.posMapper) + "_contextual";
    var packageName := name + "-" + pymusasVersion;
    var languageName := ModelCreation.Look(Subscript(language.languageData, "description"));
    if languageName.Err? {
      return Err(languageName.error);
    }
    r := Ok(LegacyBuild(language.code, config.language, config.posAttribute, config.pymusasRules.value,
                        config.initializeComponents[TaggerConfig.TaggerComponent], meta, name, pymusasVersion,
                        packageName, config.language + "_" + packageName, languageName.value));
  }

  /**
   * The script's main block: the assertion on the loaded file, then the
   * language loop, which stops after its first language whether it fails or
   * succeeds.
   */
  method LegacyMain(resourceFile: Json, blankMeta: seq<Entry>, pymusasVersion: string)
    returns (r: Result<LegacyBuild, ModelCreation.CreateError>)
    ensures r == LegacyMainOf(resourceFile, blankMeta, pymusasVersion)
  {
    if !Truthy(resourceFile) {
      return Err(ModelCreation.EmptyResourceFile);
    }
    if !resourceFile.JObj? {
      return Err(ModelCreation.Lookup(AttributeError("items")));
    }
    var entries := resourceFile.fields;
    r := Err(ModelCreation.EmptyResourceFile);
    for i := 0 to |entries|
    {
      r := LegacyBuildLanguage(entries[i].key, entries[i].value, blankMeta, pymusasVersion);
      break;
    }
  }

  // ---------------------------------------------------------------------
  // add_model_specific_meta_data
  // ---------------------------------------------------------------------

  /** The script's `spacy_version`, written over whatever the pipeline had. */
  const LegacySpacyVersion := "spacy>=3.0"

  /**
   * The script's `create_description`: the text `pymusas_models/__main__.py`
   * builds from the same values, under a `# <package>` heading line.
   */
  function LegacyDescription(languageName: string, packageName: string, distNames: (string, string),
                             tarGzChecksum: Json, wheelChecksum: Json): (r: string)
    ensures Heading(packageName) <= r
    ensures Strings.EndsWith(r, languageName + " USAS semantic tagger")
  {
    var body := MetaData.CreateDescription(languageName, packageName, distNames, tarGzChecksum, wheelChecksum);
    Strings.EndsWithAfter(Heading(packageName), body, languageName + " USAS semantic tagger");
    Heading(packageName) + body
  }

  /** The level-one Markdown heading naming the package. */
  function Heading(packageName: string): string
  {
    "# " + packageName + "\n"
  }

  /** After the heading, the description shows the shields, then the two checksums in order. */
  lemma LegacyDescriptionShows(languageName: string, packageName: string, distNames: (string, string),
                               tarGzChecksum: Json, wheelChecksum: Json)
    ensures MetaData.ShowsDownloads(LegacyDescription(languageName, packageName, distNames, tarGzChecksum, wheelChecksum),
                                    |Heading(packageName)|, packageName, distNames, tarGzChecksum, wheelChecksum)
  {
    var body := MetaData.CreateDescription(languageName, packageName, distNames, tarGzChecksum, wheelChecksum);
    MetaData.CreateDescriptionShows(languageName, packageName, distNames, tarGzChecksum, wheelChecksum);
    Strings.InOrderShift(Heading(packageName), body, 0, MetaData.Shields(packageName, distNames),
                         Markdown.Code(Str(tarGzChecksum)), Markdown.Code(Str(wheelChecksum)));
  }

  /** `'_'.join(name.split('_')[1:])`: the dist file's name without its first `_`-separated part. */
  function RenamedName(name: string): string
  {
    Strings.Join(Strings.Split(name, '_')[1..], "_")
  }

  /**
   * The renamed name is what follows the first `_`; a name without `_`
   * becomes empty, and renaming a file to it would target the dist folder.
   */
  lemma RenamedNameDropsFirst(name: string)
    ensures '_' in name ==> name == Strings.Split(name, '_')[0] + "_" + RenamedName(name)
    ensures '_' !in name ==> RenamedName(name) == ""
  {
    var parts := Strings.Split(name, '_');
    Strings.SplitCount(name, '_');
    if '_' in name {
      assert parts == [parts[0]] + parts[1..];
      assert Strings.Join(parts, "_") == parts[0] + "_" + Strings.Join(parts[1..], "_");
    }
  }

  /** The dist files renamed, in listing order. */
  function RenamedAll(files: seq<MetaData.DistFile>): (r: seq<MetaData.DistFile>)
    ensures |r| == |files|
    ensures forall i :: 0 <= i < |files| ==> r[i] == files[i].(name := RenamedName(files[i].name))
  {
    if |files| == 0 then [] else [files[0].(name := RenamedName(files[0].name))] + RenamedAll(files[1..])
  }

  /** Why the script's `add_model_specific_meta_data` stops. */
  datatype LegacyError =
    | Enrich(cause: MetaData.EnrichError)
    | RenameOntoFolder(name: string)

  /** The dist listing after the loop, and the loop's result. */
  datatype Renaming = Renaming(dist: seq<MetaData.DistFile>, result: Result<MetaData.Classified, LegacyError>)

  /**
   * The script's loop over the dist files: each file is renamed first, then
   * classified as in `pymusas_models/__main__.py` under its new name. The
   * listing keeps every rename made before the loop stops.
   */
  function RenamePass(state: MetaData.Classified, files: seq<MetaData.DistFile>): (p: Renaming)
    ensures |p.dist| == |files|
    decreases |files|
  {
    if |files| == 0 then Renaming([], Ok(state))
    else
      var name := RenamedName(files[0].name);
      if name == "" then Renaming(files, Err(RenameOntoFolder(files[0].name)))
      else
        var file := files[0].(name := name);
        match MetaData.ClassifyStep(state, file)
        case Err(e) => Renaming([file] + files[1..], Err(Enrich(e)))
        case Ok(next) =>
          var rest := RenamePass(next, files[1..]);
          Renaming([file] + rest.dist, rest.result)
  }

  /** A classification error as the script reports it. */
  function Lifted(r: Result<MetaData.Classified, MetaData.EnrichError>): Result<MetaData.Classified, LegacyError>
  {
    match r
    case Ok(c) => Ok(c)
    case Err(e) => Err(Enrich(e))
  }

  /**
   * When every file has a name to be renamed to, the script's loop is the
   * current loop over the renamed files, and on success every file is renamed.
   */
  lemma {:induction false} RenamePassAgrees(state: MetaData.Classified, files: seq<MetaData.DistFile>)
    requires forall i :: 0 <= i < |files| ==> RenamedName(files[i].name) != ""
    ensures RenamePass(state, files).result == Lifted(MetaData.ClassifyFrom(state, RenamedAll(files)))
    ensures RenamePass(state, files).result.Ok? ==> RenamePass(state, files).dist == RenamedAll(files)
    decreases |files|
  {
    if |files| > 0 {
      var renamed := RenamedAll(files);
      assert renamed[1..] == RenamedAll(files[1..]);
      assert renamed[0] == files[0].(name := RenamedName(files[0].name));
      var step := MetaData.ClassifyStep(state, renamed[0]);
      if step.Ok? {
        RenamePassAgrees(step.value, files[1..]);
      }
    }
  }

  /**
   * A loop that succeeds renamed every file to a name that is not empty:
   * every name had a `_`, with something after the first one.
   */
  lemma {:induction false} RenamePassRenames(state: MetaData.Classified, files: seq<MetaData.DistFile>)
    requires RenamePass(state, files).result.Ok?
    ensures forall i :: 0 <= i < |files| ==> '_' in files[i].name && RenamedName(files[i].name) != ""
    decreases |files|
  {
    if |files| > 0 {
      RenamedNameDropsFirst(files[0].name);
      var next := MetaData.ClassifyStep(state, files[0].(name := RenamedName(files[0].name))).value;
      RenamePassRenames(next, files[1..]);
      assert forall i :: 1 <= i < |files| ==> files[i] == files[1..][i - 1];
    }
  }

  /** What the model directory holds afterwards: meta file, dist listing, README, and the error. */
  datatype LegacyEnriched = LegacyEnriched(metaFile: Option<seq<Entry>>, dist: seq<MetaData.DistFile>,
                                           readme: Option<string>, error: Option<LegacyError>)

  /** The meta data the script writes back: the size only is added to the loop's meta data. */
  function LegacyWrittenMeta(c: MetaData.Classified): seq<Entry>
  {
    Set(c.meta, "size", JStr(MetaData.SizeText(c.maxSize)))
  }

  /** The README's input: the written meta data plus the description; no notes. */
  function LegacyReadmeInput(written: seq<Entry>, names: (string, string), languageName: string,
                             packageName: string): (r: Result<seq<Entry>, PyError>)
    ensures r.Ok? <==> "checksum" in Keys(written) && "checksum_whl" in Keys(written)
    ensures r.Ok? ==> forall k :: k != "description" ==> Get(r.value, k) == Get(written, k)
  {
    var tarGz :- ReadmeGenerator.Required(written, "checksum");
    var wheel :- ReadmeGenerator.Required(written, "checksum_whl");
    Ok(Set(written, "description", JStr(LegacyDescription(languageName, packageName, names, tarGz, wheel))))
  }

  /**
   * The script's `add_model_specific_meta_data` on a directory's contents:
   * `spacy_version` is set in memory first, then the checks and the renaming
   * loop; nothing is written before the loop ends.
   */
  function LegacyEnrichment(metaFile: Option<seq<Entry>>, dist: seq<MetaData.DistFile>, readme: Option<string>,
                            languageName: string, packageName: string): LegacyEnriched
  {
    if metaFile.None? then LegacyEnriched(metaFile, dist, readme, Some(Enrich(MetaData.MetaFileNotFound)))
    else
      var meta := Set(metaFile.value, "spacy_version", JStr(LegacySpacyVersion));
      if |dist| > 2 then LegacyEnriched(metaFile, dist, readme, Some(Enrich(MetaData.TooManyDistFiles(|dist|))))
      else
        var pass := RenamePass(MetaData.Classified(0, meta, []), dist);
        match pass.result
        case Err(e) => LegacyEnriched(metaFile, pass.dist, readme, Some(e))
        case Ok(c) => LegacyAfterClassify(c, pass.dist, readme, languageName, packageName)
  }

  /**
   * The steps after the loop: the meta file is written first, then the
   * count of names and the checksums are checked and the README written.
   */
  function LegacyAfterClassify(c: MetaData.Classified, dist: seq<MetaData.DistFile>, readme: Option<string>,
                               languageName: string, packageName: string): (e: LegacyEnriched)
    ensures e.metaFile == Some(LegacyWrittenMeta(c)) && e.dist == dist
    ensures e.error == Some(Enrich(MetaData.DistCountNotTwo(|c.names|))) <==> |c.names| != 2
    ensures |c.names| != 2 ==> e.readme == readme
  {
    var written := LegacyWrittenMeta(c);
    if |c.names| != 2 then LegacyEnriched(Some(written), dist, readme, Some(Enrich(MetaData.DistCountNotTwo(|c.names|))))
    else
      match LegacyReadmeInput(written, (c.names[0], c.names[1]), languageName, packageName)
      case Err(e) => LegacyEnriched(Some(written), dist, readme, Some(Enrich(MetaData.MetaLookup(e))))
      case Ok(input) => WithLegacyReadme(written, dist, ReadmeGenerator.ReadmeText(input))
  }

  /** The directory once the README has been generated, or has failed to be. */
  function WithLegacyReadme(written: seq<Entry>, dist: seq<MetaData.DistFile>, text: Result<string, PyError>): (e: LegacyEnriched)
    ensures e.metaFile == Some(written) && e.dist == dist
    ensures e.error.None? <==> text.Ok?
    ensures e.readme == Some(if text.Ok? then text.value else "")
  {
    match text
    case Err(err) => LegacyEnriched(Some(written), dist, Some(""), Some(Enrich(MetaData.MetaLookup(err))))
    case Ok(t) => LegacyEnriched(Some(written), dist, Some(t), None)
  }

  /** A successful loop is the current loop over the renamed files, and leaves every file renamed. */
  lemma RenamePassValue(state: MetaData.Classified, files: seq<MetaData.DistFile>)
    requires RenamePass(state, files).result.Ok?
    ensures MetaData.ClassifyFrom(state, RenamedAll(files)).Ok?
    ensures RenamePass(state, files).result.value == MetaData.ClassifyFrom(state, RenamedAll(files)).value
    ensures RenamePass(state, files).dist == RenamedAll(files)
  {
    RenamePassRenames(state, files);
    RenamePassAgrees(state, files);
  }

  /**
   * The meta file the script writes: `spacy_version` is `spacy>=3.0`, the
   * size is that of the largest dist file and the checksums are the hashes
   * of the last renamed `.whl` and `.gz` files.
   */
  lemma LegacyWrittenMetaKeys(meta: seq<Entry>, dist: seq<MetaData.DistFile>)
    requires RenamePass(MetaData.Classified(0, Set(meta, "spacy_version", JStr(LegacySpacyVersion)), []), dist).result.Ok?
    ensures var written := LegacyWrittenMeta(RenamePass(MetaData.Classified(0, Set(meta, "spacy_version", JStr(LegacySpacyVersion)), []), dist).result.value);
            && Get(written, "spacy_version") == Some(JStr(LegacySpacyVersion))
            && Get(written, "size") == Some(JStr(MetaData.SizeText(MetaData.MaxSize(dist))))
            && Get(written, "checksum_whl") ==
                 (match MetaData.LastHash(RenamedAll(dist), ".whl") case Some(h) => Some(JStr(h)) case None => Get(meta, "checksum_whl"))
            && Get(written, "checksum") ==
                 (match MetaData.LastHash(RenamedAll(dist), ".gz") case Some(h) => Some(JStr(h)) case None => Get(meta, "checksum"))
  {
    var start := MetaData.Classified(0, Set(meta, "spacy_version", JStr(LegacySpacyVersion)), []);
    RenamePassValue(start, dist);
    var renamed := RenamedAll(dist);
    MetaData.ClassifyMax(start, renamed);
    SameSizes(dist);
    MetaData.ClassifyChecksum(start, renamed, ".whl");
    MetaData.ClassifyChecksum(start, renamed, ".gz");
    MetaData.ClassifyOtherKeys(start, renamed, "spacy_version");
  }

  /**
   * Every other key of the meta file is left as it was read; unlike
   * `pymusas_models/__main__.py`, that includes `full_language_name`.
   */
  lemma LegacyWrittenMetaOtherKeys(meta: seq<Entry>, dist: seq<MetaData.DistFile>, key: string)
    requires RenamePass(MetaData.Classified(0, Set(meta, "spacy_version", JStr(LegacySpacyVersion)), []), dist).result.Ok?
    requires key !in ["checksum", "checksum_whl", "size", "spacy_version"]
    ensures Get(LegacyWrittenMeta(RenamePass(MetaData.Classified(0, Set(meta, "spacy_version", JStr(LegacySpacyVersion)), []), dist).result.value), key)
            == Get(meta, key)
  {
    var start := MetaData.Classified(0, Set(meta, "spacy_version", JStr(LegacySpacyVersion)), []);
    RenamePassValue(start, dist);
    MetaData.ClassifyOtherKeys(start, RenamedAll(dist), key);
  }

  /** Renaming keeps the sizes, so the largest size is the same. */
  lemma {:induction false} SameSizes(files: seq<MetaData.DistFile>)
    ensures MetaData.MaxSize(RenamedAll(files)) == MetaData.MaxSize(files)
    decreases |files|
  {
    if |files| > 0 {
      SameSizes(files[1..]);
      assert RenamedAll(files)[1..] == RenamedAll(files[1..]);
    }
  }

  /** One more iteration of the loop: a file renamed and accepted. */
  lemma RenamePassCons(state: MetaData.Classified, file: MetaData.DistFile, rest: seq<MetaData.DistFile>, next: MetaData.Classified)
    requires RenamedName(file.name) != ""
    requires MetaData.ClassifyStep(state, file.(name := RenamedName(file.name))) == Ok(next)
    ensures var tail := RenamePass(next, rest);
            RenamePass(state, [file] + rest) == Renaming([file.(name := RenamedName(file.name))] + tail.dist, tail.result)
  {
    assert ([file] + rest)[0] == file && ([file] + rest)[1..] == rest;
  }

  /** The loop stops on a file whose new name would be the folder itself. */
  lemma RenamePassFolder(state: MetaData.Classified, file: MetaData.DistFile, rest: seq<MetaData.DistFile>)
    requires RenamedName(file.name) == ""
    ensures RenamePass(state, [file] + rest) == Renaming([file] + rest, Err(RenameOntoFolder(file.name)))
  {
    assert ([file] + rest)[0] == file;
  }

  /** The loop stops on a renamed file that is not classified. */
  lemma RenamePassRejects(state: MetaData.Classified, file: MetaData.DistFile, rest: seq<MetaData.DistFile>, e: MetaData.EnrichError)
    requires RenamedName(file.name) != ""
    requires MetaData.ClassifyStep(state, file.(name := RenamedName(file.name))) == Err(e)
    ensures RenamePass(state, [file] + rest) == Renaming([file.(name := RenamedName(file.name))] + rest, Err(Enrich(e)))
  {
    assert ([file] + rest)[0] == file && ([file] + rest)[1..] == rest;
  }

  lemma PrefixedCons(done: seq<MetaData.DistFile>, file: MetaData.DistFile, p: Renaming)
    ensures Prefixed(done + [file], p) == Prefixed(done, Renaming([file] + p.dist, p.result))
  {
    ModelCreation.AppendAssoc(done, [file], p.dist);
  }

  /** The listing with the renames made so far in front of what the rest of the loop gives. */
  function Prefixed(done: seq<MetaData.DistFile>, p: Renaming): Renaming
  {
    Renaming(done + p.dist, p.result)
  }

  /**
   * The script's `add_model_specific_meta_data` on a model directory: each
   * dist file is renamed in the listing before it is classified, and the
   * meta file and README are written as `LegacyEnrichment` says.
   */
  method LegacyAddModelSpecificMetaData(dir: MetaData.ModelDirectory, languageName: string, packageName: string)
    returns (err: Option<LegacyError>)
    modifies dir
    ensures LegacyEnriched(dir.metaFile, dir.dist, dir.readme, err)
            == LegacyEnrichment(old(dir.metaFile), old(dir.dist), old(dir.readme), languageName, packageName)
  {
    if dir.metaFile.None? {
      return Some(Enrich(MetaData.MetaFileNotFound));
    }
    var meta := Set(dir.metaFile.value, "spacy_version", JStr(LegacySpacyVersion));
    if |dir.dist| > 2 {
      return Some(Enrich(MetaData.TooManyDistFiles(|dir.dist|)));
    }
    var classified := RenameDistFiles(dir, meta);
    if classified.Err? {
      return Some(classified.error);
    }
    err := LegacyFinish(dir, classified.value, languageName, packageName);
  }

  /** The loop over the dist files: each is renamed in the listing, then classified. */
  method RenameDistFiles(dir: MetaData.ModelDirectory, meta: seq<Entry>) returns (r: Result<MetaData.Classified, LegacyError>)
    modifies dir
    ensures Renaming(dir.dist, r) == RenamePass(MetaData.Classified(0, meta, []), old(dir.dist))
    ensures dir.metaFile == old(dir.metaFile) && dir.readme == old(dir.readme)
  {
    var listing;
    listing, r := RenameLoop(dir.dist, meta);
    dir.dist := listing;
  }

  /** The renaming loop on a listing: the listing it leaves and what the loop returns. */
  method RenameLoop(files: seq<MetaData.DistFile>, meta: seq<Entry>)
    returns (listing: seq<MetaData.DistFile>, r: Result<MetaData.Classified, LegacyError>)
    ensures Renaming(listing, r) == RenamePass(MetaData.Classified(0, meta, []), files)
  {
    ghost var start := MetaData.Classified(0, meta, []);
    var done: seq<MetaData.DistFile> := [];
    var maxSize: nat := 0;
    var current := meta;
    var names: seq<string> := [];
    for i := 0 to |files|
      invariant Prefixed(done, RenamePass(MetaData.Classified(maxSize, current, names), files[i..]))
                == RenamePass(start, files)
    {
      var file := files[i];
      assert files[i..] == [file] + files[i + 1..];
      ghost var here := MetaData.Classified(maxSize, current, names);
      var name := RenamedName(file.name);
      if name == "" {
        RenamePassFolder(here, file, files[i + 1..]);
        return done + files[i..], Err(RenameOntoFolder(file.name));
      }
      var renamed := file.(name := name);
      if renamed.size > maxSize {
        maxSize := renamed.size;
      }
      var suffix := Strings.PathSuffix(renamed.name);
      if suffix == ".whl" {
        MetaData.StepAccepts(here, renamed, "checksum_whl");
        current := Set(current, "checksum_whl", JStr(renamed.hash));
      } else if suffix == ".gz" {
        MetaData.StepAccepts(here, renamed, "checksum");
        current := Set(current, "checksum", JStr(renamed.hash));
      } else {
        assert MetaData.ClassifyStep(here, renamed) == Err(MetaData.BadSuffix(suffix));
        RenamePassRejects(here, file, files[i + 1..], MetaData.BadSuffix(suffix));
        return done + ([renamed] + files[i + 1..]), Err(Enrich(MetaData.BadSuffix(suffix)));
      }
      names := names + [renamed.name];
      ghost var after := MetaData.Classified(maxSize, current, names);
      assert MetaData.ClassifyStep(here, renamed) == Ok(after);
      RenamePassCons(here, file, files[i + 1..], after);
      PrefixedCons(done, renamed, RenamePass(after, files[i + 1..]));
      done := done + [renamed];
    }
    assert files[|files|..] == [];
    assert done + [] == done;
    listing, r := done, Ok(MetaData.Classified(maxSize, current, names));
  }

  /** The steps after the loop: write `meta.json`, check the names, then write the README. */
  method LegacyFinish(dir: MetaData.ModelDirectory, c: MetaData.Classified, languageName: string, packageName: string)
    returns (err: Option<LegacyError>)
    modifies dir
    ensures LegacyEnriched(dir.metaFile, dir.dist, dir.readme, err)
            == LegacyAfterClassify(c, old(dir.dist), old(dir.readme), languageName, packageName)
  {
    var written := LegacyWrittenMeta(c);
    dir.metaFile := Some(written);
    if |c.names| != 2 {
      return Some(Enrich(MetaData.DistCountNotTwo(|c.names|)));
    }
    var input := LegacyReadmeInput(written, (c.names[0], c.names[1]), languageName, packageName);
    if input.Err? {
      return Some(Enrich(MetaData.MetaLookup(input.error)));
    }
    var e := dir.WriteReadme(input.value);
    err := if e.Some? then Some(Enrich(e.value)) else None;
  }
}
