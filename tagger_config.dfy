/**
 * The rule-based tagger part of a spaCy pipeline configuration, as
 * `create_pymusas_config` in `pymusas_models/__main__.py` writes it: the
 * `pymusas_rules` rule list and the initialisation settings of the
 * `pymusas_rule_based_tagger` component. The nested dicts become datatypes;
 * the pipeline's configuration object, which the function updates in place,
 * is a class.
 */
module TaggerConfig {
  import opened Wrappers

  // Registered function names and references that appear in the configuration.
  const SingleWordRuleV1 := "pymusas.taggers.rules.SingleWordRule.v1"
  const MweRuleV1 := "pymusas.taggers.rules.MWERule.v1"
  const LexiconCollectionFromTsv := "pymusas.LexiconCollection.from_tsv"
  const MweLexiconCollectionFromTsv := "pymusas.MWELexiconCollection.from_tsv"
  const RuleListV := "pymusas.taggers.rules.rule_list"
  const ContextualRankerV1 := "pymusas.rankers.ContextualRuleBasedRanker.v1"
  const RulesReference := "${pymusas_rules}"
  const TaggerComponent := "pymusas_rule_based_tagger"
  const PosMapperPrefix := "pymusas.pos_mapper."

  /** `{"@misc": "pymusas.LexiconCollection.from_tsv", "tsv_file_path": ..., "include_pos": ...}` */
  datatype LexiconCollection = LexiconCollection(misc: string, tsvFilePath: string, includePos: bool)

  /** `{"@misc": "pymusas.MWELexiconCollection.from_tsv", "tsv_file_path": ...}` */
  datatype MweLexiconLookup = MweLexiconLookup(misc: string, tsvFilePath: string)

  /** A `pos_mapper` entry is `{"@misc": <registered function>}` or null. */
  datatype SingleWordRule = SingleWordRule(
    misc: string,
    posMapper: Option<string>,
    lexiconCollection: LexiconCollection,
    lemmaLexiconCollection: LexiconCollection)

  datatype MweRule = MweRule(misc: string, posMapper: Option<string>, mweLexiconLookup: MweLexiconLookup)

  /** `{"@misc": "pymusas.taggers.rules.rule_list", "*": {"single": ..., "mwe": ...}}` */
  datatype RuleList = RuleList(misc: string, single: SingleWordRule, mwe: Option<MweRule>)

  datatype Ranker = Ranker(misc: string, rules: string)

  /** The `initialize.components.pymusas_rule_based_tagger` settings. */
  datatype TaggerInitialize = TaggerInitialize(
    ranker: Ranker,
    defaultPunctuationTags: Option<seq<string>>,
    defaultNumberTags: Option<seq<string>>,
    rules: string)

  /** What the POS mapper name selects: the two registered mappers and the default tags. */
  datatype MapperSelection = MapperSelection(
    singleMapper: Option<string>,
    mweMapper: Option<string>,
    punctuationTags: Option<seq<string>>,
    numberTags: Option<seq<string>>)

  datatype ConfigError = UnknownPosMapper(mapper: string)

  /** The tag-set family a POS mapper name stands for. */
  function Family(mapper: string): Option<string>
  {
    if mapper == "UPOS" then Some("UPOS")
    else if mapper == "BasicCorCenCC" then Some("BASIC_CORCENCC")
    else None
  }

  /**
   * The registered mapper that translates a family's token tags to USAS core
   * tags, e.g. `pymusas.pos_mapper.UPOS_TO_USAS_COREv1`.
   */
  function ToUsasCore(family: string): string { PosMapperPrefix + family + "_TO_USAS_COREv1" }

  /**
   * The registered mapper that translates USAS core tags to a family's tags,
   * e.g. `pymusas.pos_mapper.USAS_CORE_TO_BASIC_CORCENCCv1`.
   */
  function FromUsasCore(family: string): string { PosMapperPrefix + "USAS_CORE_TO_" + family + "v1" }

  /**
   * The if/elif chain of `create_pymusas_config`. A known mapper selects its
   * own family in both directions: the single-word rule translates the
   * family's tags to USAS core tags, the MWE rule translates USAS core tags
   * back to the family's tags; each family brings its own default punctuation
   * and number tags. No mapper selects nothing; any other name is an error.
   */
  function SelectPosMapper(mapper: Option<string>): (r: Result<MapperSelection, ConfigError>)
    ensures mapper.None? ==> r == Ok(MapperSelection(None, None, None, None))
    ensures mapper.Some? && Family(mapper.value).None? ==> r == Err(UnknownPosMapper(mapper.value))
    ensures mapper.Some? && Family(mapper.value).Some? ==>
              r.Ok?
              && r.value.singleMapper == Some(ToUsasCore(Family(mapper.value).value))
              && r.value.mweMapper == Some(FromUsasCore(Family(mapper.value).value))
    ensures mapper == Some("UPOS") ==> r.Ok? && r.value.punctuationTags == Some(["PUNCT"]) && r.value.numberTags == Some(["NUM"])
    ensures mapper == Some("BasicCorCenCC") ==> r.Ok? && r.value.punctuationTags == Some(["Atd"]) && r.value.numberTags == Some(["Rhi"])
  {
    if mapper == Some("UPOS") then
      Ok(MapperSelection(Some(ToUsasCore("UPOS")), Some(FromUsasCore("UPOS")), Some(["PUNCT"]), Some(["NUM"])))
    else if mapper == Some("BasicCorCenCC") then
      Ok(MapperSelection(Some(ToUsasCore("BASIC_CORCENCC")), Some(FromUsasCore("BASIC_CORCENCC")),
                         Some(["Atd"]), Some(["Rhi"])))
    else if mapper.Some? then Err(UnknownPosMapper(mapper.value))
    else Ok(MapperSelection(None, None, None, None))
  }

  /**
   * The rule list: always a single-word rule whose two lexicon collections
   * read the same file, with and without POS; an MWE rule exactly when an
   * MWE lexicon is given. Each rule carries the mapper for its direction.
   */
  function RuleListFor(singleLexiconUrl: string, selection: MapperSelection, mweLexiconUrl: Option<string>): (r: RuleList)
    ensures r.misc == RuleListV && r.single.misc == SingleWordRuleV1
    ensures r.single.lexiconCollection == LexiconCollection(LexiconCollectionFromTsv, singleLexiconUrl, true)
    ensures r.single.lemmaLexiconCollection == LexiconCollection(LexiconCollectionFromTsv, singleLexiconUrl, false)
    ensures r.single.posMapper == selection.singleMapper
    ensures r.mwe.Some? <==> mweLexiconUrl.Some?
    ensures r.mwe.Some? ==>
              r.mwe.value == MweRule(MweRuleV1, selection.mweMapper,
                                     MweLexiconLookup(MweLexiconCollectionFromTsv, mweLexiconUrl.value))
  {
    var single := SingleWordRule(SingleWordRuleV1, selection.singleMapper,
                                 LexiconCollection(LexiconCollectionFromTsv, singleLexiconUrl, true),
                                 LexiconCollection(LexiconCollectionFromTsv, singleLexiconUrl, false));
    match mweLexiconUrl
    case None => RuleList(RuleListV, single, None)
    case Some(url) =>
      RuleList(RuleListV, single, Some(MweRule(MweRuleV1, selection.mweMapper,
                                               MweLexiconLookup(MweLexiconCollectionFromTsv, url))))
  }

  /**
   * The tagger's initialisation settings: the language overrides for `id`
   * and `en` win over the mapper's defaults, and both the ranker and the
   * tagger refer to the shared `pymusas_rules` list.
   */
  function TaggerInitializeFor(selection: MapperSelection, languageCode: string): (r: TaggerInitialize)
    ensures r.ranker == Ranker(ContextualRankerV1, RulesReference) && r.rules == RulesReference
    ensures languageCode == "id" ==> r.defaultPunctuationTags == Some(["Z"]) && r.defaultNumberTags == Some(["CD"])
    ensures languageCode == "en" ==> r.defaultPunctuationTags == Some(["PUNCT"]) && r.defaultNumberTags == Some(["NUM"])
    ensures languageCode != "id" && languageCode != "en" ==>
              r.defaultPunctuationTags == selection.punctuationTags && r.defaultNumberTags == selection.numberTags
  {
    var punctuation := if languageCode == "id" then Some(["Z"])
                       else if languageCode == "en" then Some(["PUNCT"])
                       else selection.punctuationTags;
    var numbers := if languageCode == "id" then Some(["CD"])
                   else if languageCode == "en" then Some(["NUM"])
                   else selection.numberTags;
    TaggerInitialize(Ranker(ContextualRankerV1, RulesReference), punctuation, numbers, RulesReference)
  }

  /**
   * A language override does not depend on the POS mapper: for `id` and `en`
   * every accepted mapper gives the same default tags.
   */
  lemma OverridesIgnoreMapper(m1: Option<string>, m2: Option<string>, languageCode: string)
    requires SelectPosMapper(m1).Ok? && SelectPosMapper(m2).Ok?
    requires languageCode == "id" || languageCode == "en"
    ensures TaggerInitializeFor(SelectPosMapper(m1).value, languageCode)
            == TaggerInitializeFor(SelectPosMapper(m2).value, languageCode)
  {
  }

  /**
   * A spaCy pipeline's configuration, reduced to what the model building
   * reads and writes: the language and the tagger's `pos_attribute` given
   * when the pipeline is created, the `pymusas_rules` entry and the
   * `initialize.components` entries.
   */
  class SpacyConfig {
    const language: string
    const posAttribute: string
    var pymusasRules: Option<RuleList>
    var initializeComponents: map<string, TaggerInitialize>

    /** `spacy.blank(language)` followed by `add_pipe("pymusas_rule_based_tagger", config=...)`. */
    constructor (language: string, posAttribute: string)
      ensures this.language == language && this.posAttribute == posAttribute
      ensures pymusasRules == None && initializeComponents == map[]
    {
      this.language := language;
      this.posAttribute := posAttribute;
      pymusasRules := None;
      initializeComponents := map[];
    }
  }

  /**
   * `create_pymusas_config`: an unknown POS mapper raises before anything is
   * written; otherwise `pymusas_rules` is replaced by the new rule list and the
   * tagger's initialisation entry by the new settings, and no other component
   * entry changes.
   */
  method CreatePymusasConfig(config: SpacyConfig, singleLexiconUrl: string, modelPosMapper: Option<string>,
                             languageCode: string, mweLexiconUrl: Option<string>)
    returns (err: Option<ConfigError>)
    modifies config
    ensures err.Some? <==> SelectPosMapper(modelPosMapper).Err?
    ensures err.Some? ==> err.value == SelectPosMapper(modelPosMapper).error
                          && config.pymusasRules == old(config.pymusasRules)
                          && config.initializeComponents == old(config.initializeComponents)
    ensures err.None? ==>
              var selection := SelectPosMapper(modelPosMapper).value;
              && config.pymusasRules == Some(RuleListFor(singleLexiconUrl, selection, mweLexiconUrl))
              && config.initializeComponents
                 == old(config.initializeComponents)[TaggerComponent := TaggerInitializeFor(selection, languageCode)]
  {
    var singleMapper: Option<string> := None;
    var mweMapper: Option<string> := None;
    var punctuation: Option<seq<string>> := None;
    var numbers: Option<seq<string>> := None;

    if modelPosMapper == Some("UPOS") {
      singleMapper := Some(ToUsasCore("UPOS"));
      mweMapper := Some(FromUsasCore("UPOS"));
      punctuation := Some(["PUNCT"]);
      numbers := Some(["NUM"]);
    } else if modelPosMapper == Some("BasicCorCenCC") {
      singleMapper := Some(ToUsasCore("BASIC_CORCENCC"));
      mweMapper := Some(FromUsasCore("BASIC_CORCENCC"));
      punctuation := Some(["Atd"]);
      numbers := Some(["Rhi"]);
    } else if modelPosMapper.Some? {
      return Some(UnknownPosMapper(modelPosMapper.value));
    }

    var singleRule := SingleWordRule(SingleWordRuleV1, singleMapper,
                                     LexiconCollection(LexiconCollectionFromTsv, singleLexiconUrl, true),
                                     LexiconCollection(LexiconCollectionFromTsv, singleLexiconUrl, false));
    var lexiconRules := RuleList(RuleListV, singleRule, None);
    if mweLexiconUrl.Some? {
      var mweRule := MweRule(MweRuleV1, mweMapper, MweLexiconLookup(MweLexiconCollectionFromTsv, mweLexiconUrl.value));
      lexiconRules := lexiconRules.(mwe := Some(mweRule));
    }
    config.pymusasRules := Some(lexiconRules);

    if languageCode == "id" {
      punctuation := Some(["Z"]);
      numbers := Some(["CD"]);
    }
    if languageCode == "en" {
      punctuation := Some(["PUNCT"]);
      numbers := Some(["NUM"]);
    }
    config.initializeComponents := config.initializeComponents[TaggerComponent :=
      TaggerInitialize(Ranker(ContextualRankerV1, RulesReference), punctuation, numbers, RulesReference)];
    return None;
  }
}
