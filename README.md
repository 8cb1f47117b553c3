# pymusas-models in Dafny

This project models the tooling that builds and releases the PyMUSAS
rule-based semantic tagger models: one spaCy pipeline per language and
model permutation, each packaged with its own README and released on GitHub.
It covers these parts:

- **Language resources** (`LanguageResource`). This is the schema of the
  language-resource file. It has closed enumerations, single-word and MWE
  rules, rule and neural model configurations with their defaults, and the
  two validators that turn a list of raw entries into a typed list or fail on
  the first bad entry.
- **Model creation** (`ModelCreation`, `TaggerConfig`). This part reads each
  language of the resource file. It picks the last `single` and `mwe` lexicon
  URLs and chooses the permutations (`single`, plus `dual` when an MWE
  lexicon exists). It fills in the `pymusas_rules` and
  `initialize.components.pymusas_rule_based_tagger` sections of the tagger
  configuration and adds the default package meta data. Finally it names
  each model `{code}_{permutation}_{mapper}_contextual` and each package
  `{model}-{a}.{b}.{model version}`.
- **Model meta data** (`MetaData`). After packaging, this part classifies
  the dist files by suffix and records their checksums and the largest size
  in MB. It then writes `meta.json` and renders the model's README with an
  install note and download shields.
- **README generator** (`ReadmeGenerator`). This renders the model's
  Markdown README: the feature table, the sources, the label scheme and the
  accuracy table.
- **Overview** (`Overview`). This is the Markdown table of all packaged
  models, sorted by language code and permutation.
- **Legacy script** (`LegacyScript`). This is the older configuration and
  meta-data script, modelled as written next to the current code. Lemmas
  state where it diverges:
  - it uses the UPOS mappers for BasicCorCenCC;
  - it names models after the raw mapper;
  - it has no `en` override and knows no `fi` or `en`;
  - it strips the spaCy language prefix from dist files;
  - it writes a different `spacy_version`;
  - its loop stops after the first language.
- **Release script** (`ModelRelease`). It reads the token and uploads one
  release per model folder. It then checks for repeated folder names and
  checks every release: the name must equal the tag, and the assets must be
  exactly the tag's wheel and source archive. Finally it requires that every
  uploaded tag was found.

JSON values are a `Json` datatype. Objects are ordered key/value lists, as
Python dicts are. Python's truthiness, `str()`, `repr()`, subscripting and
iteration are written out, including their `KeyError` and `TypeError`
outcomes. Code that works step by step is written as methods with loops:
- the resource-list loop;
- the permutation loop;
- the dist-file loop;
- the sources, labels and rendering loops;
- the overview loop;
- the upload and release loops.

Each of these methods is proved equal to a function, and lemmas state that
function's properties. The spaCy configuration object is a class, and so is
the model directory (its `meta.json`, dist files and README). The methods
that update them state their new state: the configuration as the old one
with the model's configuration write applied, and the directory as the
function of its old contents.

## Model

| member | source | states |
|---|---|---|
| LanguageResource.ParseModelTypes | pymusas_models/language_resource.py:7-9 | a `model_type` string names exactly one of the two model types, and any other string is rejected |
| LanguageResource.ParseRuleRankers | pymusas_models/language_resource.py:12-13 | `contextual` is the only ranker |
| LanguageResource.ParseRuleType | pymusas_models/language_resource.py:16-18 | `single` and `mwe` are the only rule types, each naming its own member |
| LanguageResource.ParsePosMapper | pymusas_models/language_resource.py:21-23 | `upos2usas` and `basiccorcencc2usas` are the only POS mappers |
| LanguageResource.ValidateSingleRule | pymusas_models/language_resource.py:35-39 | an accepted single-word rule has `rule_type` `single` and takes its POS mapper (none for `null`), lexicon URL and `with_pos` from the entry's fields |
| LanguageResource.ValidateMweRule | pymusas_models/language_resource.py:42-45 | an accepted MWE rule has `rule_type` `mwe` and takes its POS mapper and lexicon URL from the entry's fields |
| LanguageResource.SingleRuleAccepted | pymusas_models/language_resource.py:35-39 | an entry with a known or `null` POS mapper, a string URL and a boolean `with_pos` validates to exactly that single-word rule |
| LanguageResource.MweRuleAccepted | pymusas_models/language_resource.py:42-45 | an entry with a known or `null` POS mapper and a string URL validates to exactly that MWE rule |
| LanguageResource.ValidateRule | pymusas_models/language_resource.py:48-57 | `rule_type` `single` is validated as a single-word rule and `mwe` as an MWE rule; an accepted rule's variant matches its `rule_type` value; a missing `rule_type` is a lookup error; any other value is an invalid rule type |
| LanguageResource.RuleTypesOfAllOrNothing | pymusas_models/language_resource.py:48-59 | the rule list validates exactly when every rule does; the result keeps order and length; otherwise the error is that of the first invalid rule |
| LanguageResource.GetRuleType | pymusas_models/language_resource.py:48-59 | the validation loop returns the all-or-nothing result above |
| LanguageResource.ValidateRuleConfig | pymusas_models/language_resource.py:69-73 | an absent or empty rule config gives the defaults `pymusas_tags`, `pymusas_mwe_indexes`, `pos_`, `lemma_` |
| LanguageResource.ValidateNeuralConfig | pymusas_models/language_resource.py:76-81 | an absent or empty neural config gives the defaults (top 5, `cpu`, no tokenizer arguments) |
| LanguageResource.ValidateRuleResources | pymusas_models/language_resource.py:62-66 | accepted resources have the `contextual` ranker, the rule list validated by `get_rule_type`, and the optional punctuation and number tag lists of the entry |
| LanguageResource.ValidateRuleModel | pymusas_models/language_resource.py:84-87 | an accepted rule model has model type `pymusas_rule_based_tagger` and takes its name, resources and config from the entry's fields |
| LanguageResource.ValidateNeuralModel | pymusas_models/language_resource.py:90-93 | an accepted neural model takes its name, pretrained model path and config from the entry's fields |
| LanguageResource.RuleModelAccepted | pymusas_models/language_resource.py:84-87 | an entry whose name, resources and config validate gives exactly that rule model |
| LanguageResource.NeuralModelAccepted | pymusas_models/language_resource.py:90-93 | an entry whose name, pretrained path and config validate gives exactly that neural model |
| LanguageResource.ValidateModel | pymusas_models/language_resource.py:102-111 | `pymusas_rule_based_tagger` is validated as a rule model and `pymusas_neural_tagger` as a neural model; an accepted model's type matches its `model_type` value; a missing key is a lookup error; any other value is an invalid model type |
| LanguageResource.ModelTypesOfAllOrNothing | pymusas_models/language_resource.py:102-113 | the model list validates exactly when every model does; the result keeps order and length; otherwise the error is that of the first invalid model |
| LanguageResource.GetModelType | pymusas_models/language_resource.py:102-113 | the validation loop returns the all-or-nothing result above |
| LanguageResource.ValidateLanguageResource | pymusas_models/language_resource.py:116-119 | a resource without `spacy_version` gets `>=3.0,<4.0`; its models are the validated `models` list |
| LanguageResource.ValidateResourceEntriesKeepsCodes | pymusas_models/language_resource.py:122-123 | one validated resource per language code, in file order |
| TaggerConfig.SelectPosMapper | pymusas_models/__main__.py:178-195 | no mapper selects nothing; `UPOS` and `BasicCorCenCC` select their own family in both directions with their own punctuation and number tags; any other name is an error |
| TaggerConfig.RuleListFor | pymusas_models/__main__.py:197-232 | the single-word rule reads the lexicon with and without POS; an MWE rule is present exactly when an MWE URL is given and uses the MWE mapper |
| TaggerConfig.TaggerInitializeFor | pymusas_models/__main__.py:234-249 | the contextual ranker over `${pymusas_rules}`; `id` forces `Z`/`CD`, `en` forces `PUNCT`/`NUM`, and other languages keep the mapper's tags |
| TaggerConfig.OverridesIgnoreMapper | pymusas_models/__main__.py:234-239 | for `id` and `en` the tagger settings do not depend on the POS mapper |
| TaggerConfig.CreatePymusasConfig | pymusas_models/__main__.py:161-249 | an unknown mapper changes nothing and reports the error; otherwise the rule list is replaced and the tagger entry is set, with all other components unchanged |
| ModelCreation.SpacyLanguage | pymusas_models/__main__.py:21-32 | the ten known codes map to spaCy languages (`cmn` to `zh`, `cy` to `xx`, others to themselves); other codes have none |
| ModelCreation.PosMapperName | pymusas_models/__main__.py:33-37 | names exist exactly for no mapper and the two known mappers, and none contains `_` |
| ModelCreation.PosAttribute | pymusas_models/__main__.py:322-324 | `tag_` exactly for `cy` and `id`, otherwise `pos_` |
| ModelCreation.Permutations | pymusas_models/__main__.py:331-333 | always `single` first, and `dual` second exactly when the MWE URL is truthy |
| ModelCreation.ModelNameText | pymusas_models/__main__.py:356-358 | the model name is code, permutation, mapper name and `contextual` joined by `_` |
| ModelCreation.ModelNameParts | pymusas_models/__main__.py:356-358 | splitting a model name on `_` gives back its four parts |
| ModelCreation.FullVersionParts | pymusas_models/__main__.py:359-361 | the version is the first two parts of the PyMUSAS version followed by the model version |
| ModelCreation.FullVersionOfRelease | pymusas_models/__main__.py:359-361 | PyMUSAS `a.b.c` with model version `v` gives `a.b.v` |
| ModelCreation.PackageNamesDiffer | pymusas_models/__main__.py:356-362 | the single and dual packages of a language always have different names |
| ModelCreation.AddDefaultMetaData | pymusas_models/__main__.py:144-158 | author, email, url and license are set to the UCREL values, and every other key is unchanged |
| ModelCreation.ResourceStepFacts | pymusas_models/__main__.py:301-310 | a resource is accepted exactly when its data type is `single` or `mwe`, and it replaces that URL only |
| ModelCreation.ParseResourcesAccepts | pymusas_models/__main__.py:297-310 | the resource loop succeeds exactly when every resource has a known data type |
| ModelCreation.ParseResourcesLastWins | pymusas_models/__main__.py:299-306 | each URL is that of the last resource of its type, or the empty default |
| ModelCreation.ParseResources | pymusas_models/__main__.py:297-310 | the resource loop computes the URLs described above |
| ModelCreation.LanguageWithoutTable | pymusas_models/__main__.py:297-327 | a language entry that reads without error fails only on a code missing from the spaCy language table, with a KeyError |
| ModelCreation.EmptySingleLexiconRaises | pymusas_models/__main__.py:297-318 | the `ValueError` for an empty single lexicon is raised exactly when the resources, `model information` and `language data` were read without error and the single URL is falsy |
| ModelCreation.ReadLanguage | pymusas_models/__main__.py:297-327 | reading one language entry (resources, model information, language data, empty single URL, mapper, spaCy language) agrees with `LanguageOf` |
| ModelCreation.PermutationConfig | pymusas_models/__main__.py:161-249 | a configuration is written only when the mapper is given as a string, names a known mapper, and the single URL is a string |
| ModelCreation.UnknownMapperRaisesFirst | pymusas_models/__main__.py:178-195 | an unknown POS mapper fails the permutation with the configuration error and writes nothing, whatever the URLs are |
| ModelCreation.ApplyLater | pymusas_models/__main__.py:335-343 | two configuration writes in a row leave the state the later write gives |
| ModelCreation.PermutationBuildFacts | pymusas_models/__main__.py:335-373 | a built permutation has the model name, version and package name; the single URL, lexicon rule, mapper, MWE URL and MWE mapper (present exactly for `dual`) and tagger settings of its configuration; the model's or default spaCy version and the UCREL author, email, url and license in its meta data; the language description as its language name; and the configuration write it made |
| ModelCreation.PermutationBuildsHead | pymusas_models/__main__.py:335-373 | the first model of a non-empty permutation run is built for the first permutation |
| ModelCreation.PermutationBuildsTail | pymusas_models/__main__.py:335-373 | after the first model, the permutation loop goes on from that model's pipeline meta data |
| ModelCreation.PermutationBuildsComplete | pymusas_models/__main__.py:335-343 | a permutation loop without error builds one model per permutation |
| ModelCreation.PermutationBuildsShape | pymusas_models/__main__.py:331-343 | the single model has no MWE rule; a dual model has one and a different package name |
| ModelCreation.BuildPermutation | pymusas_models/__main__.py:335-373 | configuring and naming one permutation agrees with `PermutationBuild`; the pipeline configuration is the old one with that permutation's write applied, or unchanged when it fails before writing |
| ModelCreation.BuildLanguage | pymusas_models/__main__.py:297-384 | the per-language body agrees with `LanguageModels` |
| ModelCreation.LastWriteIsLastBuild | pymusas_models/__main__.py:335-373 | after a permutation loop without error, the pipeline configuration holds the rules and tagger of the last model built |
| ModelCreation.BuildPermutations | pymusas_models/__main__.py:335-384 | the permutation loop on one pipeline agrees with `PermutationBuilds`: the builds in order and the error that stopped it; the pipeline configuration ends with the last write the loop made |
| ModelCreation.LanguagesFromKeepsDone | pymusas_models/__main__.py:297-384 | models built for earlier languages are kept when later languages are processed |
| ModelCreation.CreateModels | pymusas_models/__main__.py:292-384 | the language loop, including the empty-file assertion, agrees with `CreateModelsOf` |
| MetaData.CreateNotes | pymusas_models/__main__.py:42-46 | the install note is a bash block installing the package's wheel URL |
| MetaData.WheelUrl | pymusas_models/__main__.py:43-45 | the wheel URL ends in `-py3-none-any.whl` |
| MetaData.CreateDescription | pymusas_models/__main__.py:49-68 | the description ends with `{language} USAS semantic tagger` |
| MetaData.CreateDescriptionShows | pymusas_models/__main__.py:49-68 | the description opens with the paragraph of the two download shields, then gives the `.tar.gz` checksum and then the wheel checksum, each as inline code |
| MetaData.SizeHundredths | pymusas_models/__main__.py:126 | the hundredths of MB are the size divided by 2^20, rounded to nearest with ties to even |
| MetaData.SizeTextWhole | pymusas_models/__main__.py:126 | a whole number of MiB prints as `{n}.00MB` |
| MetaData.MaxSize | pymusas_models/__main__.py:105-109 | the recorded size is the largest dist file size, or 0 for no files |
| MetaData.LastHash | pymusas_models/__main__.py:111-116 | a checksum is recorded exactly when some file has that suffix |
| MetaData.ClassifyAccepts | pymusas_models/__main__.py:106-124 | the dist loop succeeds exactly when every file's suffix is `.whl` or `.gz` |
| MetaData.ClassifyReportsFirstBad | pymusas_models/__main__.py:112-123 | the error names the suffix of the first bad file |
| MetaData.ClassifyErrIsSuffix | pymusas_models/__main__.py:117-123 | the dist loop can fail only with a bad suffix |
| MetaData.ClassifyMax | pymusas_models/__main__.py:105-109 | the loop's maximum is the largest file size |
| MetaData.ClassifyNames | pymusas_models/__main__.py:124 | the loop appends every file name in order |
| MetaData.ClassifyChecksum | pymusas_models/__main__.py:111-116 | `checksum_whl` and `checksum` hold the hash of the last file with that suffix, or keep their old value |
| MetaData.ClassifyOtherKeys | pymusas_models/__main__.py:113-116 | the loop changes no other key |
| MetaData.ClassifyDistFiles | pymusas_models/__main__.py:105-124 | the dist loop agrees with `ClassifyFrom` |
| MetaData.ReadmeInput | pymusas_models/__main__.py:131-137 | the README input exists exactly when both checksums were written; otherwise there is a `KeyError` for `checksum` first |
| MetaData.AfterClassify | pymusas_models/__main__.py:126-141 | after the dist loop, the written `meta.json` is the updated meta data; the error is `DistCountNotTwo` with the count exactly when there are not two dist names, and then the README is untouched |
| MetaData.WithReadme | pymusas_models/__main__.py:139-141 | the README file is opened (emptied) before rendering; it holds the text on success and reports the error otherwise |
| MetaData.EnrichmentEarlyErrors | pymusas_models/__main__.py:86-123 | a missing `meta.json`, more than two dist files and a bad suffix each stop with nothing written |
| MetaData.WrittenMetaKeys | pymusas_models/__main__.py:126-129 | the written meta data has the size text, the full language name and the checksums, and every other key is unchanged |
| MetaData.ClassifyPair | pymusas_models/__main__.py:106-124 | a wheel and a tarball record both checksums and both names in order |
| MetaData.ReadmeInputOfChecksums | pymusas_models/__main__.py:131-137 | the README input carries the description built from both checksums, and the install notes |
| MetaData.ReadmeInputOfPair | pymusas_models/__main__.py:131-137 | for a wheel and a tarball, the README input is always available and describes both |
| MetaData.AfterClassifyReadme | pymusas_models/__main__.py:131-141 | the README written is `ReadmeGenerator.ReadmeText` of that input |
| MetaData.ModelDirectory.AddModelSpecificMetaData | pymusas_models/__main__.py:71-141 | the directory's new `meta.json`, README and error are those of `Enrichment`; the dist files are unchanged |
| MetaData.ModelDirectory.Finish | pymusas_models/__main__.py:126-141 | the steps after the dist loop agree with `AfterClassify` |
| MetaData.ModelDirectory.WriteReadme | pymusas_models/__main__.py:139-141 | writing the README agrees with `WithReadme` |
| Strings.PathSuffixIs | pymusas_models/__main__.py:112 | a name has suffix `.whl` (any one-dot extension) exactly when it is longer than the extension and ends with it |
| Overview.SortKey | pymusas_models/__main__.py:414-416 | the sort key exists exactly when the name contains `_` (otherwise Python's `[1]` raises) |
| Overview.KeyLeTotal | pymusas_models/__main__.py:414-416 | the key order is total |
| Overview.KeyLeTransitive | pymusas_models/__main__.py:414-416 | the key order is transitive |
| Overview.KeyedDirs | pymusas_models/__main__.py:414-416 | every directory gets its key, in order, exactly when every name contains `_` |
| Overview.InsertByKey | pymusas_models/__main__.py:414-416 | insertion adds exactly the one element |
| Overview.SortByKey | pymusas_models/__main__.py:414-416 | sorting is a permutation |
| Overview.InsertByKeySorted | pymusas_models/__main__.py:414-416 | insertion keeps the list sorted by key |
| Overview.SortByKeySorted | pymusas_models/__main__.py:414-416 | the result is sorted by key |
| Overview.RowOf | pymusas_models/__main__.py:419-439 | a row's name and size are the `name` and `size` entries of `meta.json`; a missing `name` is a lookup error |
| Overview.RowFacts | pymusas_models/__main__.py:422-439 | the language cell is `{language} ({code})`; MWE is a tick exactly when the name contains `dual`; the mapper label follows `upos2usas`, then `basiccorcencc2usas`, then `None`; the ranker is the capitalised last part |
| Overview.RowOfCreatedName | pymusas_models/__main__.py:422-438 | for a name made by `create_models`, the row shows that code, the `Contextual` ranker, a tick for `dual` and `UPOS 2 USAS` for `upos2usas` |
| Overview.RowsFromAligned | pymusas_models/__main__.py:418-442 | the row loop gives one row per directory, in order |
| Overview.CellRows | pymusas_models/__main__.py:441-442 | one six-cell row per model row |
| Overview.TableText | pymusas_models/__main__.py:441-444 | the table can be rendered exactly when every size is a string |
| Overview.SortedRows | pymusas_models/__main__.py:414-442 | the rows follow the sorted order of the directories |
| Overview.OverviewRows | pymusas_models/__main__.py:409-444 | a rendered overview has one row per directory, in key order, taken from a permutation of the directories |
| Overview.OverviewOfModels | pymusas_models/__main__.py:409-445 | the overview loop agrees with `OverviewOf` |
| ReadmeGenerator.CodeList | pymusas_models/readme_generator.py:22-23 | the pipeline and component lists render exactly when the value can be iterated |
| ReadmeGenerator.GetOrElse | pymusas_models/readme_generator.py:26-27 | `meta.get(k) or default` is the value when it is truthy, and the default otherwise |
| ReadmeGenerator.Required | pymusas_models/readme_generator.py:20-21 | a required key is present or a `KeyError` names it |
| ReadmeGenerator.SourceEntry | pymusas_models/readme_generator.py:65-76 | a source is skipped exactly when it has no truthy name |
| ReadmeGenerator.SourceNotDict | pymusas_models/readme_generator.py:66-67 | a non-dict source is treated as `{"name": source}` |
| ReadmeGenerator.SourceEntryText | pymusas_models/readme_generator.py:68-76 | a named source renders as its name, linked when it has a URL, followed by ` (author)` when it has an author |
| ReadmeGenerator.SourcesSkipUnnamed | pymusas_models/readme_generator.py:65-76 | the loop collects one entry per named source, after those already collected |
| ReadmeGenerator.FormatSources | pymusas_models/readme_generator.py:61-77 | falsy data or data that is not a list gives `n/a`; the loop agrees with `SourcesText` |
| ReadmeGenerator.LabelRowOf | pymusas_models/readme_generator.py:101-110 | a pipe is skipped exactly when its labels are falsy; otherwise its row names the pipe and counts its labels |
| ReadmeGenerator.LabelCounters | pymusas_models/readme_generator.py:98-110 | the counters equal the number of labelled pipes and the total label count of the rows |
| ReadmeGenerator.LabelSchemeEmpty | pymusas_models/readme_generator.py:94-118 | the label scheme is empty exactly when the data is falsy or no pipe has labels; otherwise it is the details block with the counts |
| ReadmeGenerator.CollectLabels | pymusas_models/readme_generator.py:97-110 | the label loop collects exactly the rows, label count and pipe count of `LabelsFrom` from the empty state |
| ReadmeGenerator.FormatLabelScheme | pymusas_models/readme_generator.py:94-118 | the rendered label scheme agrees with `LabelSchemeText` |
| Strings.EscapeBarsEscapes | pymusas_models/readme_generator.py:106 | every `\|` in a label is preceded by a backslash |
| ReadmeGenerator.ScoreRows | pymusas_models/readme_generator.py:84-89 | at most one score row per entry |
| ReadmeGenerator.ScoreRowsFromKept | pymusas_models/readme_generator.py:84-89 | every score row comes from a numeric, non-excluded entry |
| ReadmeGenerator.ScoreRowsComplete | pymusas_models/readme_generator.py:84-89 | every numeric, non-excluded entry has its row |
| ReadmeGenerator.AccuracyText | pymusas_models/readme_generator.py:80-91 | falsy data gives nothing; data that is not a dict raises; otherwise it is the `Type`/`Score` table of the kept scores |
| ReadmeGenerator.HeadCells | pymusas_models/readme_generator.py:20-25 | the name and version cells are the code-formatted `name` and `version`; a missing name is a `KeyError` |
| ReadmeGenerator.LicenseCell | pymusas_models/readme_generator.py:29-42 | the license is code-formatted when truthy, and `n/a` otherwise |
| ReadmeGenerator.TailCells | pymusas_models/readme_generator.py:26-44 | the author is linked to `url` when that key exists; the author and size cells default to `n/a` |
| ReadmeGenerator.ReadmeParts | pymusas_models/readme_generator.py:19-45 | the feature table has the ten rows in the source's order with their cells |
| ReadmeGenerator.ReadmeBlocks | pymusas_models/readme_generator.py:46-58 | the blocks are the description if truthy, the table, the label scheme and accuracy when non-empty, and the notes if truthy |
| ReadmeGenerator.RenderParts | pymusas_models/readme_generator.py:46-58 | the rendering loop agrees with `RenderedText` |
| ReadmeGenerator.GenerateReadme | pymusas_models/readme_generator.py:13-58 | `generate_readme` agrees with `ReadmeText` |
| LegacyScript.LegacySelectPosMapper | scripts/create_config_and_meta_files.py:140-152 | both known mappers select the UPOS mapper functions, each with its own tags; any other name is an error |
| LegacyScript.LegacySelectDiverges | scripts/create_config_and_meta_files.py:140-152 | the selection agrees with the current code except for BasicCorCenCC, where the mappers differ and the tags agree |
| LegacyScript.LegacyRuleListFor | scripts/create_config_and_meta_files.py:154-189 | the MWE rule is present exactly when the MWE URL is a non-empty string |
| LegacyScript.LegacyRuleListAgrees | scripts/create_config_and_meta_files.py:186-187 | it is the current rule list with an empty MWE URL read as none |
| LegacyScript.LegacyTaggerInitializeFor | scripts/create_config_and_meta_files.py:191-203 | only `id` overrides the tags |
| LegacyScript.LegacyTaggerAgrees | scripts/create_config_and_meta_files.py:191-203 | it agrees with the current code except for `en` with non-UPOS tags |
| LegacyScript.LegacyCreatePymusasConfig | scripts/create_config_and_meta_files.py:125-203 | an unknown mapper changes nothing; otherwise the rule list and the tagger entry are set |
| LegacyScript.LegacySpacyLanguage | scripts/create_config_and_meta_files.py:18-27 | eight codes, each mapped as in the current table |
| LegacyScript.LegacyModelNameIsRaw | scripts/create_config_and_meta_files.py:255 | the name embeds the raw mapper value, so `UPOS` gives a name different from the current `upos2usas` one |
| LegacyScript.LegacyLanguageAgrees | scripts/create_config_and_meta_files.py:214-244 | reading a language agrees with the current code for the eight codes; `fi` and `en` fail with a `KeyError` |
| LegacyScript.LegacyBuildFacts | scripts/create_config_and_meta_files.py:246-271 | only the single model is built, named with the raw mapper and versioned with the full PyMUSAS version, in a directory prefixed by the spaCy language |
| LegacyScript.LegacyFirstLanguageOnly | scripts/create_config_and_meta_files.py:214-272 | the result depends only on the first language, because of the `break` |
| LegacyScript.LegacyReadLanguage | scripts/create_config_and_meta_files.py:215-244 | the reading loop agrees with `LegacyLanguageOf` |
| LegacyScript.LegacyUnknownMapperRaisesFirst | scripts/create_config_and_meta_files.py:140-152 | an unknown POS mapper fails with the configuration error before the URL is looked at |
| LegacyScript.LegacyConfigure | scripts/create_config_and_meta_files.py:246-271 | configuring and naming agrees with `LegacyBuildFor` |
| LegacyScript.LegacyBuildLanguage | scripts/create_config_and_meta_files.py:215-271 | the per-language body agrees with `LegacyModel` |
| LegacyScript.LegacyMain | scripts/create_config_and_meta_files.py:206-281 | the main loop agrees with `LegacyMainOf` |
| LegacyScript.LegacyDescription | scripts/create_config_and_meta_files.py:30-50 | the description starts with `# {package}` and ends with `{language} USAS semantic tagger` |
| LegacyScript.LegacyDescriptionShows | scripts/create_config_and_meta_files.py:30-50 | after the heading, the description shows the two download shields, then the `.tar.gz` checksum and then the wheel checksum as inline code |
| LegacyScript.RenamedNameDropsFirst | scripts/create_config_and_meta_files.py:77 | the new name is the old name without its first `_`-separated part, and is empty when there is no `_` |
| LegacyScript.RenamedAll | scripts/create_config_and_meta_files.py:76-81 | every dist file is renamed, in order |
| LegacyScript.RenamePass | scripts/create_config_and_meta_files.py:76-99 | the rename-and-classify loop keeps one dist entry per file |
| LegacyScript.RenamePassAgrees | scripts/create_config_and_meta_files.py:76-99 | when every new name is non-empty, the loop is the current classification applied to the renamed files |
| LegacyScript.RenamePassRenames | scripts/create_config_and_meta_files.py:77-81 | a successful loop only saw names with `_` and a non-empty remainder |
| LegacyScript.RenamePassValue | scripts/create_config_and_meta_files.py:76-99 | a successful loop's result is the classification of the renamed files |
| LegacyScript.SameSizes | scripts/create_config_and_meta_files.py:82-84 | renaming does not change the largest size |
| LegacyScript.LegacyWrittenMetaKeys | scripts/create_config_and_meta_files.py:60-103 | the written meta data has `spacy>=3.0`, the size text and the checksums of the renamed files |
| LegacyScript.LegacyWrittenMetaOtherKeys | scripts/create_config_and_meta_files.py:60-103 | every other key, `full_language_name` included, is unchanged |
| LegacyScript.LegacyReadmeInput | scripts/create_config_and_meta_files.py:105-110 | the README input needs both checksums, adds the description and no notes |
| LegacyScript.LegacyAfterClassify | scripts/create_config_and_meta_files.py:101-115 | after the dist loop, the written `meta.json` is the updated meta data; the error is `DistCountNotTwo` with the count exactly when there are not two dist names, and then the README is untouched |
| LegacyScript.WithLegacyReadme | scripts/create_config_and_meta_files.py:112-115 | the README file is opened (emptied) before rendering; it holds the text on success |
| LegacyScript.RenameDistFiles | scripts/create_config_and_meta_files.py:75-99 | the rename loop updates the directory's dist files as `RenamePass` says, and nothing else |
| LegacyScript.RenameLoop | scripts/create_config_and_meta_files.py:75-99 | the listing the rename loop leaves and its result agree with `RenamePass` |
| LegacyScript.LegacyFinish | scripts/create_config_and_meta_files.py:101-115 | the steps after the dist loop agree with `LegacyAfterClassify` |
| LegacyScript.LegacyAddModelSpecificMetaData | scripts/create_config_and_meta_files.py:53-115 | the directory's new state and error are those of `LegacyEnrichment` |
| ModelRelease.PatOf | model_release.py:11-16 | the token is accepted exactly when the file is an object with a truthy `PAT` |
| ModelRelease.Uploads | model_release.py:28-46 | the upload loop can stop only for a missing README or a refused release |
| ModelRelease.UploadsAll | model_release.py:28-46 | the loop finishes exactly when every folder has a README and is accepted; it then creates one release per folder, in order, tagged and named after the folder, with its README and dist files |
| ModelRelease.UploadsStopAt | model_release.py:30-45 | the first failing folder stops the loop after the releases of the folders before it |
| ModelRelease.UploadedTags | model_release.py:28-46 | after a complete loop, the uploaded tags are the folder names |
| ModelRelease.ToSet | model_release.py:48 | `set(tags)` holds exactly the listed tags |
| ModelRelease.SetSizeDetectsRepeats | model_release.py:48-54 | the set is never larger than the list, and it is as large exactly when no tag repeats |
| ModelRelease.DuplicatesAfterUpload | model_release.py:48-54 | a repeated folder name is reported only after every folder was uploaded |
| ModelRelease.AllowedAssets | model_release.py:63-65 | the wheel and source-archive names of a tag are distinct |
| ModelRelease.RemoveFirst | model_release.py:68 | `list.remove` takes away one occurrence |
| ModelRelease.RemainingIsDifference | model_release.py:66-68 | the names left over are the allowed names minus the assets, as multisets |
| ModelRelease.AssetsAccepted | model_release.py:62-69 | two assets pass exactly when they are the tag's wheel and source archive, in either order |
| ModelRelease.CheckFrom | model_release.py:57-72 | the release loop fails only on one of its three assertions |
| ModelRelease.CheckReleasePasses | model_release.py:60-72 | one release passes the per-release checks exactly when its name is its tag and its two assets are exactly the expected wheel and archive |
| ModelRelease.CheckReleaseLeaves | model_release.py:60-72 | a release that passes removes its tag from the set of uploaded tags still waiting for a release |
| ModelRelease.CheckFromPasses | model_release.py:57-69 | the release loop passes exactly when every release is valid |
| ModelRelease.CheckFromLeaves | model_release.py:71-72 | what is left are the uploaded tags that no release carries |
| ModelRelease.AllReleasedIff | model_release.py:74-76 | nothing is left exactly when every uploaded tag is among the released tags |
| ModelRelease.ReleaseSucceeds | model_release.py:9-76 | the script succeeds exactly when the token is present, every folder is uploaded, no two folders share a name, every release is valid and every folder's tag was released |
| ModelRelease.UploadModels | model_release.py:24-46 | the upload loop agrees with `Uploads` |
| ModelRelease.RemoveAllowed | model_release.py:63-68 | the asset loop agrees with `Remaining` |
| ModelRelease.CheckReleases | model_release.py:57-72 | the page and release loops agree with `CheckFrom` over all pages |
| ModelRelease.ReleaseModels | model_release.py:9-76 | the script agrees with `ReleaseOutcome` |

## Left out

- The following are inputs or are not modelled:
  - reading and writing files, listing directories and temporary directories;
  - spaCy pipeline construction, initialisation, `to_disk` and `package`;
  - SHA-256 hashing: hashes and sizes are inputs;
  - printing, including the rate-limit and error messages;
  - the `typer` command line.
- `model_release.py`: the GitHub API is an input.
  - Which tags `create_release` refuses is a set of tags.
  - The listed releases are a sequence of pages; pagination itself is not modelled.
  - An HTTP error and any other exception from `create_release` are one error.
- Model meta data: only the size is formatted in full (`{MB:.2f}MB`). A float accuracy score `{score*100:.2f}` is carried as ready-made text, and floats are otherwise their Python `repr`.
- `ReadmeGenerator.ScoreText`: an integer score is printed exactly as `{score*100}.00`. Python formats it through a float, so integers above 2^53 lose digits there; that loss is not modelled.
- `MetaData`: `pymusas_models/__main__.py` imports `generate_readme` from `pymusas_models.package`, and that module is not part of this model. The model assumes it renders the README as `generate_readme` in `pymusas_models/readme_generator.py` does, and uses `ReadmeGenerator.ReadmeText` for both the current code and the legacy script.
- `Json`: object keys are not required to be unique. `json.load` never produces a repeated key (it keeps the last value), so an object with one is outside what the source sees. On such an object the model's lookups take the first value, and its iteration visits the key twice.
- `Markdown`: the `wasabi` Markdown renderer is modelled only as far as the README and overview use it (code, bold, link, title, table rows and blocks joined by blank lines). Its column alignment and padding are not modelled.
- `Overview`: the sort is an insertion sort, stable like Python's `sorted`. The proof states that the result is sorted and a permutation, not that ties keep their listing order.
- `LegacyScript.RenamePass`: in the source, renaming a dist file onto the name of another existing file replaces that file. The model keeps both entries and states only that the loop's record holds the renamed names.
- The legacy script reads the module-level `language_code` inside `create_pymusas_config`. Here it is an explicit parameter.
- `LanguageResource`: pydantic's coercion is not modelled. Types are checked strictly: strings must be JSON strings and booleans JSON booleans.
- The model follows the code as written:
  - in `model_release.py` the duplicate-folder check runs after the upload loop;
  - in the legacy script the `break` ends the language loop after the first language is built.
- `ModelCreation.NonStringUrl`: a single or MWE lexicon URL that is not a string stands for the failure of spaCy's `initialize()` on it. The source writes the configuration first and fails afterwards; the model fails before the write, so `BuildPermutation` and `LegacyScript.LegacyConfigure` leave the configuration unchanged in that case.
- `Strings.Upper`, `Strings.Lower` and `Strings.Capitalize` change ASCII letters only. Python's `str.upper()` and `str.capitalize()` (used for the mapper label and the ranker cell of the overview) also change other Unicode letters.
- `Json.Repr`: Python's `repr()` is modelled by putting strings in single quotes. Its choice of double quotes for strings holding `'` and its escaping of backslashes and control characters are not modelled.
