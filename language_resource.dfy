/**
 * The language-resource schema: closed enumerations, the rule and model
 * shapes with their defaults, and the two discriminator-driven validators
 * that turn raw JSON entries into a tagged union or fail as a whole.
 */
module LanguageResource {
  import opened Wrappers
  import opened Json

  // ---------------------------------------------------------------------
  // Closed enumerations
  // ---------------------------------------------------------------------

  datatype ModelTypes = RuleTagger | NeuralTagger {
    function Value(): string
    {
      match this
      case RuleTagger => "pymusas_rule_based_tagger"
      case NeuralTagger => "pymusas_neural_tagger"
    }
  }

  datatype RuleRankers = Contextual {
    function Value(): string { "contextual" }
  }

  datatype RuleType = Single | Mwe {
    function Value(): string
    {
      match this
      case Single => "single"
      case Mwe => "mwe"
    }
  }

  datatype PosMapper = Upos2Usas | BasicCorCenCC2Usas {
    function Value(): string
    {
      match this
      case Upos2Usas => "upos2usas"
      case BasicCorCenCC2Usas => "basiccorcencc2usas"
    }
  }

  /** The member of `ModelTypes` whose value is `s`, if any: there are exactly two. */
  function ParseModelTypes(s: string): (r: Option<ModelTypes>)
    ensures r.Some? ==> r.value.Value() == s
    ensures r.None? <==> s != "pymusas_rule_based_tagger" && s != "pymusas_neural_tagger"
    ensures forall t: ModelTypes :: t.Value() == s ==> r == Some(t)
  {
    if s == RuleTagger.Value() then Some(RuleTagger)
    else if s == NeuralTagger.Value() then Some(NeuralTagger)
    else None
  }

  /** The member of `RuleRankers` whose value is `s`: `contextual` is the only one. */
  function ParseRuleRankers(s: string): (r: Option<RuleRankers>)
    ensures r.Some? <==> s == "contextual"
  {
    if s == Contextual.Value() then Some(Contextual) else None
  }

  /** The member of `RuleType` whose value is `s`, if any: there are exactly two. */
  function ParseRuleType(s: string): (r: Option<RuleType>)
    ensures r.Some? ==> r.value.Value() == s
    ensures r.None? <==> s != "single" && s != "mwe"
    ensures forall t: RuleType :: t.Value() == s ==> r == Some(t)
  {
    if s == Single.Value() then Some(Single)
    else if s == Mwe.Value() then Some(Mwe)
    else None
  }

  /** The member of `PosMapper` whose value is `s`, if any: there are exactly two. */
  function ParsePosMapper(s: string): (r: Option<PosMapper>)
    ensures r.Some? ==> r.value.Value() == s
    ensures r.None? <==> s != "upos2usas" && s != "basiccorcencc2usas"
    ensures forall t: PosMapper :: t.Value() == s ==> r == Some(t)
  {
    if s == Upos2Usas.Value() then Some(Upos2Usas)
    else if s == BasicCorCenCC2Usas.Value() then Some(BasicCorCenCC2Usas)
    else None
  }

  // ---------------------------------------------------------------------
  // Shapes
  // ---------------------------------------------------------------------

  /** A single-word rule carries `with_pos`; a multi-word rule does not. */
  datatype Rule =
    | SingleRule(posMapper: Option<PosMapper>, lexiconUrl: string, withPos: bool)
    | MweRule(posMapper: Option<PosMapper>, lexiconUrl: string)
  {
    /** The `rule_type` field, which defaults to the variant's own discriminator. */
    function RuleType(): RuleType
    {
      match this
      case SingleRule(_, _, _) => Single
      case MweRule(_, _) => Mwe
    }
  }

  datatype RuleResources = RuleResources(
    ranker: RuleRankers,
    rules: seq<Rule>,
    defaultPunctuationTags: Option<seq<string>>,
    defaultNumberTags: Option<seq<string>>)

  datatype RuleConfig = RuleConfig(
    pymusasTagsTokenAttr: string,
    pymusasMweIndexesAttr: string,
    posAttribute: string,
    lemmaAttribute: string)

  const DefaultRuleConfig := RuleConfig("pymusas_tags", "pymusas_mwe_indexes", "pos_", "lemma_")

  datatype NeuralConfig = NeuralConfig(
    pymusasTagsTokenAttr: string,
    pymusasMweIndexesAttr: string,
    topN: int,
    device: string,
    tokenizerKwargs: Option<seq<Entry>>)

  const DefaultNeuralConfig := NeuralConfig("pymusas_tags", "pymusas_mwe_indexes", 5, "cpu", None)

  datatype Model =
    | RuleModel(name: string, resources: RuleResources, ruleConfig: RuleConfig)
    | NeuralModel(name: string, pretrainedModelNameOrPath: string, neuralConfig: NeuralConfig)
  {
    /** The `model_type` field, which defaults to the variant's own discriminator. */
    function ModelType(): ModelTypes
    {
      match this
      case RuleModel(_, _, _) => RuleTagger
      case NeuralModel(_, _, _) => NeuralTagger
    }
  }

  datatype LanguageData = LanguageData(description: string, macrolanguage: string, script: string)

  datatype LanguageResource = LanguageResource(
    languageData: LanguageData,
    models: seq<Model>,
    spacyVersion: string)

  const DefaultSpacyVersion := ">=3.0,<4.0"

  /** Why validation failed. */
  datatype SchemaError =
    | InvalidRuleType(ruleType: Json)
    | InvalidModelType(modelType: Json)
    | Lookup(cause: PyError)
    | InvalidField(field: string)

  // ---------------------------------------------------------------------
  // Field validation (strict JSON types; the enum fields by value)
  // ---------------------------------------------------------------------

  function RequiredStr(fields: seq<Entry>, key: string): Result<string, SchemaError>
  {
    match Get(fields, key)
    case Some(JStr(s)) => Ok(s)
    case _ => Err(InvalidField(key))
  }

  function StrOr(fields: seq<Entry>, key: string, default: string): Result<string, SchemaError>
  {
    match Get(fields, key)
    case None => Ok(default)
    case Some(JStr(s)) => Ok(s)
    case _ => Err(InvalidField(key))
  }

  function RequiredBool(fields: seq<Entry>, key: string): Result<bool, SchemaError>
  {
    match Get(fields, key)
    case Some(JBool(b)) => Ok(b)
    case _ => Err(InvalidField(key))
  }

  function IntOr(fields: seq<Entry>, key: string, default: int): Result<int, SchemaError>
  {
    match Get(fields, key)
    case None => Ok(default)
    case Some(JInt(i)) => Ok(i)
    case _ => Err(InvalidField(key))
  }

  /** `POSMapper | None` without a default: the key must be there, null allowed. */
  function RequiredPosMapper(fields: seq<Entry>, key: string): Result<Option<PosMapper>, SchemaError>
  {
    match Get(fields, key)
    case Some(JNull) => Ok(None)
    case Some(JStr(s)) =>
      (match ParsePosMapper(s)
       case Some(m) => Ok(Some(m))
       case None => Err(InvalidField(key)))
    case _ => Err(InvalidField(key))
  }

  function StrList(items: seq<Json>): Option<seq<string>>
  {
    if |items| == 0 then Some([])
    else
      match items[0]
      case JStr(s) =>
        (match StrList(items[1..])
         case Some(rest) => Some([s] + rest)
         case None => None)
      case _ => None
  }

  /** `list[str] | None = None`. */
  function OptionalStrList(fields: seq<Entry>, key: string): Result<Option<seq<string>>, SchemaError>
  {
    match Get(fields, key)
    case None => Ok(None)
    case Some(JNull) => Ok(None)
    case Some(JArr(items)) =>
      (match StrList(items)
       case Some(ss) => Ok(Some(ss))
       case None => Err(InvalidField(key)))
    case _ => Err(InvalidField(key))
  }

  /** The `rule_type` field of a `rule_type`-bearing dict agrees with `t`, or is absent. */
  predicate RuleTypeFieldAgrees(fields: seq<Entry>, t: RuleType)
  {
    Get(fields, "rule_type").None? || Get(fields, "rule_type") == Some(JStr(t.Value()))
  }

  // ---------------------------------------------------------------------
  // Validating a list: every element in order, or the first failure
  // ---------------------------------------------------------------------

  /** Validates every element in order and fails with the first failure. */
  function ValidateAll<T, U>(validate: T -> Result<U, SchemaError>, xs: seq<T>): Result<seq<U>, SchemaError>
  {
    if |xs| == 0 then Ok([])
    else
      var head :- validate(xs[0]);
      var tail :- ValidateAll(validate, xs[1..]);
      Ok([head] + tail)
  }

  /** `k` is the first position whose element fails validation. */
  predicate FirstInvalid<T, U>(validate: T -> Result<U, SchemaError>, xs: seq<T>, k: int)
  {
    0 <= k < |xs| && validate(xs[k]).Err?
    && forall i :: 0 <= i < k ==> validate(xs[i]).Ok?
  }

  /** Validating one more element extends the values or fails with its error. */
  lemma {:induction false} ValidateAllSnoc<T, U>(validate: T -> Result<U, SchemaError>, xs: seq<T>, x: T)
    requires ValidateAll(validate, xs).Ok?
    ensures validate(x).Ok? ==> ValidateAll(validate, xs + [x]) == Ok(ValidateAll(validate, xs).value + [validate(x).value])
    ensures validate(x).Err? ==> ValidateAll(validate, xs + [x]) == Err(validate(x).error)
  {
    if |xs| == 0 {
      assert xs + [x] == [x];
      assert [x][0] == x && [x][1..] == [];
      assert ValidateAll(validate, [x][1..]) == Ok([]);
      if validate(x).Ok? {
        assert ValidateAll(validate, xs).value + [validate(x).value] == [validate(x).value] + [];
      }
    } else {
      assert (xs + [x])[0] == xs[0];
      assert (xs + [x])[1..] == xs[1..] + [x];
      ValidateAllSnoc(validate, xs[1..], x);
      if validate(x).Ok? {
        var head := validate(xs[0]).value;
        var tail := ValidateAll(validate, xs[1..]).value;
        assert [head] + (tail + [validate(x).value]) == ([head] + tail) + [validate(x).value];
      }
    }
  }

  /** The prefix one element longer. */
  lemma TakeOneMore<T>(xs: seq<T>, i: nat)
    requires i < |xs|
    ensures xs[..i + 1] == xs[..i] + [xs[i]]
  {
    assert forall j :: 0 <= j <= i ==> xs[..i + 1][j] == (xs[..i] + [xs[i]])[j];
  }

  /** A prefix that fails decides the whole list's failure. */
  lemma {:induction false} ValidateAllPrefixError<T, U>(validate: T -> Result<U, SchemaError>, xs: seq<T>, n: nat)
    requires n <= |xs| && ValidateAll(validate, xs[..n]).Err?
    ensures ValidateAll(validate, xs) == ValidateAll(validate, xs[..n])
  {
    assert n > 0;
    assert xs[..n][0] == xs[0];
    if validate(xs[0]).Ok? {
      assert xs[..n][1..] == xs[1..][..n - 1];
      ValidateAllPrefixError(validate, xs[1..], n - 1);
    }
  }

  /**
   * The list validates exactly when every element does, keeping length and
   * order; otherwise it fails with the error of the first invalid element.
   */
  lemma {:induction false} ValidateAllAllOrNothing<T, U>(validate: T -> Result<U, SchemaError>, xs: seq<T>)
    ensures ValidateAll(validate, xs).Ok? <==> forall i :: 0 <= i < |xs| ==> validate(xs[i]).Ok?
    ensures ValidateAll(validate, xs).Ok? ==>
              |ValidateAll(validate, xs).value| == |xs|
              && forall i :: 0 <= i < |xs| ==> ValidateAll(validate, xs).value[i] == validate(xs[i]).value
    ensures ValidateAll(validate, xs).Err? ==>
              exists k :: FirstInvalid(validate, xs, k) && validate(xs[k]).error == ValidateAll(validate, xs).error
  {
    if |xs| > 0 {
      ValidateAllAllOrNothing(validate, xs[1..]);
      if validate(xs[0]).Err? {
        assert FirstInvalid(validate, xs, 0);
      } else if ValidateAll(validate, xs[1..]).Err? {
        var k :| FirstInvalid(validate, xs[1..], k) && validate(xs[1..][k]).error == ValidateAll(validate, xs[1..]).error;
        assert xs[1..][k] == xs[k + 1];
        forall i | 0 <= i < k + 1 ensures validate(xs[i]).Ok? {
          if i > 0 { assert xs[i] == xs[1..][i - 1]; }
        }
        assert FirstInvalid(validate, xs, k + 1);
      } else {
        forall i | 0 <= i < |xs| ensures validate(xs[i]).Ok? {
          if i > 0 { assert xs[i] == xs[1..][i - 1]; }
        }
      }
    }
  }

  /** The `pos_mapper` field holds the mapper `m`: null for none, else the mapper's value. */
  predicate PosMapperField(v: Option<Json>, m: Option<PosMapper>)
  {
    match m
    case None => v == Some(JNull)
    case Some(mapper) => v == Some(JStr(mapper.Value()))
  }

  /** `SingleRule.model_validate(rule)`: an accepted rule carries the entry's own fields. */
  function ValidateSingleRule(fields: seq<Entry>): (r: Result<Rule, SchemaError>)
    ensures r.Ok? ==> r.value.SingleRule?
                      && RuleTypeFieldAgrees(fields, Single)
                      && PosMapperField(Get(fields, "pos_mapper"), r.value.posMapper)
                      && Get(fields, "lexicon_url") == Some(JStr(r.value.lexiconUrl))
                      && Get(fields, "with_pos") == Some(JBool(r.value.withPos))
  {
    if !RuleTypeFieldAgrees(fields, Single) then Err(InvalidField("rule_type")) else
    var posMapper :- RequiredPosMapper(fields, "pos_mapper");
    var lexiconUrl :- RequiredStr(fields, "lexicon_url");
    var withPos :- RequiredBool(fields, "with_pos");
    Ok(SingleRule(posMapper, lexiconUrl, withPos))
  }

  /** `MWERule.model_validate(rule)`: an accepted rule carries the entry's own fields. */
  function ValidateMweRule(fields: seq<Entry>): (r: Result<Rule, SchemaError>)
    ensures r.Ok? ==> r.value.MweRule?
                      && RuleTypeFieldAgrees(fields, Mwe)
                      && PosMapperField(Get(fields, "pos_mapper"), r.value.posMapper)
                      && Get(fields, "lexicon_url") == Some(JStr(r.value.lexiconUrl))
  {
    if !RuleTypeFieldAgrees(fields, Mwe) then Err(InvalidField("rule_type")) else
    var posMapper :- RequiredPosMapper(fields, "pos_mapper");
    var lexiconUrl :- RequiredStr(fields, "lexicon_url");
    Ok(MweRule(posMapper, lexiconUrl))
  }

  /** A well-formed single-word rule entry is accepted with exactly its own fields. */
  lemma SingleRuleAccepted(fields: seq<Entry>, m: Option<PosMapper>, url: string, withPos: bool)
    requires RuleTypeFieldAgrees(fields, Single) && PosMapperField(Get(fields, "pos_mapper"), m)
    requires Get(fields, "lexicon_url") == Some(JStr(url)) && Get(fields, "with_pos") == Some(JBool(withPos))
    ensures ValidateSingleRule(fields) == Ok(SingleRule(m, url, withPos))
  {
    PosMapperRead(fields, m);
    assert RequiredStr(fields, "lexicon_url") == Ok(url);
    assert RequiredBool(fields, "with_pos") == Ok(withPos);
  }

  /** A well-formed multi-word rule entry is accepted with exactly its own fields. */
  lemma MweRuleAccepted(fields: seq<Entry>, m: Option<PosMapper>, url: string)
    requires RuleTypeFieldAgrees(fields, Mwe) && PosMapperField(Get(fields, "pos_mapper"), m)
    requires Get(fields, "lexicon_url") == Some(JStr(url))
    ensures ValidateMweRule(fields) == Ok(MweRule(m, url))
  {
    PosMapperRead(fields, m);
    assert RequiredStr(fields, "lexicon_url") == Ok(url);
  }

  lemma PosMapperRead(fields: seq<Entry>, m: Option<PosMapper>)
    requires PosMapperField(Get(fields, "pos_mapper"), m)
    ensures RequiredPosMapper(fields, "pos_mapper") == Ok(m)
  {
    if m.Some? {
      assert ParsePosMapper(m.value.Value()) == Some(m.value);
    }
  }

  /**
   * One step of `get_rule_type`: dispatch on `rule["rule_type"]`. A valid
   * result's variant always matches the discriminator; a discriminator that
   * is neither `"single"` nor `"mwe"` is an invalid rule type.
   */
  function ValidateRule(rule: Json): (r: Result<Rule, SchemaError>)
    ensures r.Ok? ==> Subscript(rule, "rule_type") == Ok(JStr(r.value.RuleType().Value()))
    ensures Subscript(rule, "rule_type").Err? ==> r == Err(Lookup(Subscript(rule, "rule_type").error))
    ensures (Subscript(rule, "rule_type").Ok? && Subscript(rule, "rule_type").value != JStr("single")
               && Subscript(rule, "rule_type").value != JStr("mwe"))
            ==> r == Err(InvalidRuleType(Subscript(rule, "rule_type").value))
    ensures Subscript(rule, "rule_type") == Ok(JStr("single")) ==> r == ValidateSingleRule(rule.fields)
    ensures Subscript(rule, "rule_type") == Ok(JStr("mwe")) ==> r == ValidateMweRule(rule.fields)
  {
    match Subscript(rule, "rule_type")
    case Err(e) => Err(Lookup(e))
    case Ok(ruleType) =>
      if ruleType == JStr(Single.Value()) then ValidateSingleRule(rule.fields)
      else if ruleType == JStr(Mwe.Value()) then ValidateMweRule(rule.fields)
      else Err(InvalidRuleType(ruleType))
  }

  /** `get_rule_type(rules)` as a value: every element validated, or the first failure. */
  function RuleTypesOf(rules: seq<Json>): Result<seq<Rule>, SchemaError>
  {
    ValidateAll(ValidateRule, rules)
  }

  /** `k` is the first position whose rule fails validation. */
  predicate FirstInvalidRule(rules: seq<Json>, k: int)
  {
    FirstInvalid(ValidateRule, rules, k)
  }

  /**
   * `get_rule_type` keeps length and order and validates every element, or
   * fails as a whole with the error of the first invalid element.
   */
  lemma {:induction false} RuleTypesOfAllOrNothing(rules: seq<Json>)
    ensures RuleTypesOf(rules).Ok? <==> forall i :: 0 <= i < |rules| ==> ValidateRule(rules[i]).Ok?
    ensures RuleTypesOf(rules).Ok? ==>
              |RuleTypesOf(rules).value| == |rules|
              && forall i :: 0 <= i < |rules| ==> RuleTypesOf(rules).value[i] == ValidateRule(rules[i]).value
    ensures RuleTypesOf(rules).Err? ==>
              exists k :: FirstInvalidRule(rules, k) && ValidateRule(rules[k]).error == RuleTypesOf(rules).error
  {
    ValidateAllAllOrNothing(ValidateRule, rules);
  }

  /**
   * `get_rule_type`: loops over the rules, appending each validated one and
   * raising at the first invalid one.
   */
  method GetRuleType(rules: seq<Json>) returns (r: Result<seq<Rule>, SchemaError>)
    ensures r.Ok? <==> forall i :: 0 <= i < |rules| ==> ValidateRule(rules[i]).Ok?
    ensures r.Ok? ==> |r.value| == |rules|
                      && forall i :: 0 <= i < |rules| ==> r.value[i] == ValidateRule(rules[i]).value
    ensures r.Err? ==> exists k :: FirstInvalidRule(rules, k) && ValidateRule(rules[k]).error == r.error
    ensures r == RuleTypesOf(rules)
  {
    RuleTypesOfAllOrNothing(rules);
    var validated: seq<Rule> := [];
    for i := 0 to |rules|
      invariant ValidateAll(ValidateRule, rules[..i]) == Ok(validated)
    {
      var rule := ValidateRule(rules[i]);
      ValidateAllSnoc(ValidateRule, rules[..i], rules[i]);
      TakeOneMore(rules, i);
      if rule.Err? {
        r := Err(rule.error);
        ValidateAllPrefixError(ValidateRule, rules, i + 1);
        return;
      }
      validated := validated + [rule.value];
    }
    assert rules[..|rules|] == rules;
    r := Ok(validated);
  }

  /** The `rules` field, through `get_rule_type` on whatever the entry holds. */
  function ValidateRulesField(v: Json): Result<seq<Rule>, SchemaError>
  {
    match Iterate(v)
    case Ok(items) => RuleTypesOf(items)
    case Err(e) => Err(Lookup(e))
  }

  /** `RuleResources.model_validate(v)`: the ranker, the rules through `get_rule_type`, the optional tag lists. */
  function ValidateRuleResources(v: Json): (r: Result<RuleResources, SchemaError>)
    ensures r.Ok? ==> v.JObj? && Get(v.fields, "ranker") == Some(JStr("contextual"))
                      && Get(v.fields, "rules").Some?
                      && ValidateRulesField(Get(v.fields, "rules").value) == Ok(r.value.rules)
                      && OptionalStrList(v.fields, "default_punctuation_tags") == Ok(r.value.defaultPunctuationTags)
                      && OptionalStrList(v.fields, "default_number_tags") == Ok(r.value.defaultNumberTags)
  {
    if !v.JObj? then Err(InvalidField("resources")) else
    var fields := v.fields;
    var rankerValue :- RequiredStr(fields, "ranker");
    var ranker :- (match ParseRuleRankers(rankerValue)
                   case Some(k) => Ok(k)
                   case None => Err(InvalidField("ranker")));
    var rulesValue :- (match Get(fields, "rules")
                       case Some(x) => Ok(x)
                       case None => Err(InvalidField("rules")));
    var rules :- ValidateRulesField(rulesValue);
    var punctuation :- OptionalStrList(fields, "default_punctuation_tags");
    var numbers :- OptionalStrList(fields, "default_number_tags");
    Ok(RuleResources(ranker, rules, punctuation, numbers))
  }

  /** `RuleConfig`, every field defaulted. */
  function ValidateRuleConfig(v: Option<Json>): (r: Result<RuleConfig, SchemaError>)
    ensures v.None? ==> r == Ok(DefaultRuleConfig)
    ensures v == Some(JObj([])) ==> r == Ok(DefaultRuleConfig)
  {
    match v
    case None => Ok(DefaultRuleConfig)
    case Some(JObj(fields)) =>
      var tags :- StrOr(fields, "pymusas_tags_token_attr", DefaultRuleConfig.pymusasTagsTokenAttr);
      var mwe :- StrOr(fields, "pymusas_mwe_indexes_attr", DefaultRuleConfig.pymusasMweIndexesAttr);
      var pos :- StrOr(fields, "pos_attribute", DefaultRuleConfig.posAttribute);
      var lemmaAttr :- StrOr(fields, "lemma_attribute", DefaultRuleConfig.lemmaAttribute);
      Ok(RuleConfig(tags, mwe, pos, lemmaAttr))
    case Some(_) => Err(InvalidField("config"))
  }

  /** `NeuralConfig`, every field defaulted. */
  function ValidateNeuralConfig(v: Option<Json>): (r: Result<NeuralConfig, SchemaError>)
    ensures v.None? ==> r == Ok(DefaultNeuralConfig)
    ensures v == Some(JObj([])) ==> r == Ok(DefaultNeuralConfig)
  {
    match v
    case None => Ok(DefaultNeuralConfig)
    case Some(JObj(fields)) =>
      var tags :- StrOr(fields, "pymusas_tags_token_attr", DefaultNeuralConfig.pymusasTagsTokenAttr);
      var mwe :- StrOr(fields, "pymusas_mwe_indexes_attr", DefaultNeuralConfig.pymusasMweIndexesAttr);
      var topN :- IntOr(fields, "top_n", DefaultNeuralConfig.topN);
      var device :- StrOr(fields, "device", DefaultNeuralConfig.device);
      var kwargs :- (match Get(fields, "tokenizer_kwargs")
                     case None => Ok(None)
                     case Some(JNull) => Ok(None)
                     case Some(JObj(kw)) => Ok(Some(kw))
                     case Some(_) => Err(InvalidField("tokenizer_kwargs")));
      Ok(NeuralConfig(tags, mwe, topN, device, kwargs))
    case Some(_) => Err(InvalidField("config"))
  }

  predicate ModelTypeFieldAgrees(fields: seq<Entry>, t: ModelTypes)
  {
    Get(fields, "model_type").None? || Get(fields, "model_type") == Some(JStr(t.Value()))
  }

  /** `RuleModel.model_validate(model)`: an accepted model carries the entry's own fields. */
  function ValidateRuleModel(fields: seq<Entry>): (r: Result<Model, SchemaError>)
    ensures r.Ok? ==> r.value.RuleModel?
                      && ModelTypeFieldAgrees(fields, RuleTagger)
                      && Get(fields, "name") == Some(JStr(r.value.name))
                      && Get(fields, "resources").Some?
                      && ValidateRuleResources(Get(fields, "resources").value) == Ok(r.value.resources)
                      && ValidateRuleConfig(Get(fields, "config")) == Ok(r.value.ruleConfig)
  {
    if !ModelTypeFieldAgrees(fields, RuleTagger) then Err(InvalidField("model_type")) else
    var name :- RequiredStr(fields, "name");
    var resourcesValue :- (match Get(fields, "resources")
                           case Some(x) => Ok(x)
                           case None => Err(InvalidField("resources")));
    var resources :- ValidateRuleResources(resourcesValue);
    var config :- ValidateRuleConfig(Get(fields, "config"));
    Ok(RuleModel(name, resources, config))
  }

  /** `NeuralModel.model_validate(model)`: an accepted model carries the entry's own fields. */
  function ValidateNeuralModel(fields: seq<Entry>): (r: Result<Model, SchemaError>)
    ensures r.Ok? ==> r.value.NeuralModel?
                      && ModelTypeFieldAgrees(fields, NeuralTagger)
                      && Get(fields, "name") == Some(JStr(r.value.name))
                      && Get(fields, "pretrained_model_name_or_path") == Some(JStr(r.value.pretrainedModelNameOrPath))
                      && ValidateNeuralConfig(Get(fields, "config")) == Ok(r.value.neuralConfig)
  {
    if !ModelTypeFieldAgrees(fields, NeuralTagger) then Err(InvalidField("model_type")) else
    var name :- RequiredStr(fields, "name");
    var pretrained :- RequiredStr(fields, "pretrained_model_name_or_path");
    var config :- ValidateNeuralConfig(Get(fields, "config"));
    Ok(NeuralModel(name, pretrained, config))
  }

  /** A well-formed rule-based model entry is accepted with exactly its own fields. */
  lemma RuleModelAccepted(fields: seq<Entry>, name: string, resources: RuleResources, config: RuleConfig)
    requires ModelTypeFieldAgrees(fields, RuleTagger) && Get(fields, "name") == Some(JStr(name))
    requires Get(fields, "resources").Some? && ValidateRuleResources(Get(fields, "resources").value) == Ok(resources)
    requires ValidateRuleConfig(Get(fields, "config")) == Ok(config)
    ensures ValidateRuleModel(fields) == Ok(RuleModel(name, resources, config))
  {
  }

  /** A well-formed neural model entry is accepted with exactly its own fields. */
  lemma NeuralModelAccepted(fields: seq<Entry>, name: string, pretrained: string, config: NeuralConfig)
    requires ModelTypeFieldAgrees(fields, NeuralTagger) && Get(fields, "name") == Some(JStr(name))
    requires Get(fields, "pretrained_model_name_or_path") == Some(JStr(pretrained))
    requires ValidateNeuralConfig(Get(fields, "config")) == Ok(config)
    ensures ValidateNeuralModel(fields) == Ok(NeuralModel(name, pretrained, config))
  {
  }

  /**
   * One step of `get_model_type`: dispatch on `model["model_type"]`. A valid
   * result's variant always matches the discriminator; any other value is an
   * invalid model type.
   */
  function ValidateModel(model: Json): (r: Result<Model, SchemaError>)
    ensures r.Ok? ==> Subscript(model, "model_type") == Ok(JStr(r.value.ModelType().Value()))
    ensures Subscript(model, "model_type").Err? ==> r == Err(Lookup(Subscript(model, "model_type").error))
    ensures (Subscript(model, "model_type").Ok?
               && Subscript(model, "model_type").value != JStr("pymusas_rule_based_tagger")
               && Subscript(model, "model_type").value != JStr("pymusas_neural_tagger"))
            ==> r == Err(InvalidModelType(Subscript(model, "model_type").value))
    ensures Subscript(model, "model_type") == Ok(JStr("pymusas_rule_based_tagger")) ==> r == ValidateRuleModel(model.fields)
    ensures Subscript(model, "model_type") == Ok(JStr("pymusas_neural_tagger")) ==> r == ValidateNeuralModel(model.fields)
  {
    match Subscript(model, "model_type")
    case Err(e) => Err(Lookup(e))
    case Ok(modelType) =>
      if modelType == JStr(RuleTagger.Value()) then ValidateRuleModel(model.fields)
      else if modelType == JStr(NeuralTagger.Value()) then ValidateNeuralModel(model.fields)
      else Err(InvalidModelType(modelType))
  }

  /** `get_model_type(models)` as a value: every element validated, or the first failure. */
  function ModelTypesOf(models: seq<Json>): Result<seq<Model>, SchemaError>
  {
    ValidateAll(ValidateModel, models)
  }

  predicate FirstInvalidModel(models: seq<Json>, k: int)
  {
    FirstInvalid(ValidateModel, models, k)
  }

  /**
   * `get_model_type` keeps length and order and validates every element, or
   * fails as a whole with the error of the first invalid element.
   */
  lemma {:induction false} ModelTypesOfAllOrNothing(models: seq<Json>)
    ensures ModelTypesOf(models).Ok? <==> forall i :: 0 <= i < |models| ==> ValidateModel(models[i]).Ok?
    ensures ModelTypesOf(models).Ok? ==>
              |ModelTypesOf(models).value| == |models|
              && forall i :: 0 <= i < |models| ==> ModelTypesOf(models).value[i] == ValidateModel(models[i]).value
    ensures ModelTypesOf(models).Err? ==>
              exists k :: FirstInvalidModel(models, k) && ValidateModel(models[k]).error == ModelTypesOf(models).error
  {
    ValidateAllAllOrNothing(ValidateModel, models);
  }

  /**
   * `get_model_type`: loops over the models, appending each validated one and
   * raising at the first invalid one.
   */
  method GetModelType(models: seq<Json>) returns (r: Result<seq<Model>, SchemaError>)
    ensures r.Ok? <==> forall i :: 0 <= i < |models| ==> ValidateModel(models[i]).Ok?
    ensures r.Ok? ==> |r.value| == |models|
                      && forall i :: 0 <= i < |models| ==> r.value[i] == ValidateModel(models[i]).value
    ensures r.Err? ==> exists k :: FirstInvalidModel(models, k) && ValidateModel(models[k]).error == r.error
    ensures r == ModelTypesOf(models)
  {
    ModelTypesOfAllOrNothing(models);
    var validated: seq<Model> := [];
    for i := 0 to |models|
      invariant ValidateAll(ValidateModel, models[..i]) == Ok(validated)
    {
      var model := ValidateModel(models[i]);
      ValidateAllSnoc(ValidateModel, models[..i], models[i]);
      TakeOneMore(models, i);
      if model.Err? {
        r := Err(model.error);
        ValidateAllPrefixError(ValidateModel, models, i + 1);
        return;
      }
      validated := validated + [model.value];
    }
    assert models[..|models|] == models;
    r := Ok(validated);
  }

  function ValidateLanguageData(v: Option<Json>): Result<LanguageData, SchemaError>
  {
    match v
    case Some(JObj(fields)) =>
      var description :- RequiredStr(fields, "description");
      var macrolanguage :- RequiredStr(fields, "macrolanguage");
      var script :- RequiredStr(fields, "script");
      Ok(LanguageData(description, macrolanguage, script))
    case _ => Err(InvalidField("language_data"))
  }

  /** `LanguageResource.model_validate(v)`; `spacy_version` defaults to `>=3.0,<4.0`. */
  function ValidateLanguageResource(v: Json): (r: Result<LanguageResource, SchemaError>)
    ensures r.Ok? && v.JObj? && Get(v.fields, "spacy_version").None? ==> r.value.spacyVersion == DefaultSpacyVersion
    ensures r.Ok? ==> v.JObj? && Get(v.fields, "models").Some?
                      && ValidateModelsField(Get(v.fields, "models").value) == Ok(r.value.models)
  {
    if !v.JObj? then Err(InvalidField("language_resource")) else
    var fields := v.fields;
    var languageData :- ValidateLanguageData(Get(fields, "language_data"));
    var modelsValue :- (match Get(fields, "models")
                        case Some(x) => Ok(x)
                        case None => Err(InvalidField("models")));
    var models :- ValidateModelsField(modelsValue);
    var spacyVersion :- StrOr(fields, "spacy_version", DefaultSpacyVersion);
    Ok(LanguageResource(languageData, models, spacyVersion))
  }

  function ValidateModelsField(v: Json): Result<seq<Model>, SchemaError>
  {
    match Iterate(v)
    case Ok(items) => ModelTypesOf(items)
    case Err(e) => Err(Lookup(e))
  }

  function ValidateResourceEntries(entries: seq<Entry>): Result<seq<(string, LanguageResource)>, SchemaError>
  {
    if |entries| == 0 then Ok([])
    else
      var head :- ValidateLanguageResource(entries[0].value);
      var tail :- ValidateResourceEntries(entries[1..]);
      Ok([(entries[0].key, head)] + tail)
  }

  /** `LanguageResources.model_validate(v)`: language codes in file order. */
  function ValidateLanguageResources(v: Json): Result<seq<(string, LanguageResource)>, SchemaError>
  {
    match v
    case JObj(fields) =>
      (match Get(fields, "language_resources")
       case Some(JObj(entries)) => ValidateResourceEntries(entries)
       case _ => Err(InvalidField("language_resources")))
    case _ => Err(InvalidField("language_resources"))
  }

  /** A load that succeeds keeps every language code, in order, and no others. */
  lemma {:induction false} ValidateResourceEntriesKeepsCodes(entries: seq<Entry>)
    requires ValidateResourceEntries(entries).Ok?
    ensures |ValidateResourceEntries(entries).value| == |entries|
    ensures forall i :: 0 <= i < |entries| ==>
              ValidateResourceEntries(entries).value[i].0 == entries[i].key
              && ValidateLanguageResource(entries[i].value) == Ok(ValidateResourceEntries(entries).value[i].1)
  {
    if |entries| > 0 {
      ValidateResourceEntriesKeepsCodes(entries[1..]);
      var r := ValidateResourceEntries(entries).value;
      forall i | 0 <= i < |entries|
        ensures r[i].0 == entries[i].key && ValidateLanguageResource(entries[i].value) == Ok(r[i].1)
      {
        if i > 0 {
          assert entries[i] == entries[1..][i - 1];
          assert r[i] == ValidateResourceEntries(entries[1..]).value[i - 1];
        }
      }
    }
  }
}
