# assistant_to_the_assistant, modelled in Dafny

assistant_to_the_assistant assembles prompts for coding assistants. It turns a user's
request into a model-specific prompt. It selects the relevant artifacts (business goals,
system description, components, infrastructure sections, input/output examples) by
keyword or through an LLM classification, renders them for the target model and
optionally asks an LLM to optimise the result. A second half indexes a project so those
artifacts exist: it groups source files into components, parses infrastructure files
(Terraform state, GitLab CI, Dockerfile, docker-compose, ECS, CloudFormation) into
markdown sections, summarises business documents and crawls GitLab repositories for
those files.

This project models that logic as pure Dafny functions over immutable datatypes and
proves properties of it. The chat service, the file system, git, the clock and the
JSON/YAML/PDF/CSV decoders are parameters of the functions (oracles), so every outcome
the code can reach, failure paths included, is a case of some contract, except for the
failures listed under "## Left out".

Modules, one per source file:

- `Artifacts`: the record types with their defaults and the validation that constructing them performs.
- `Keywords`: keyword extraction and keyword matching.
- `ContextSelector` and `LegacySelector`: the two keyword-only selectors. The prompt builder uses the legacy one.
- `Classifier`: the LLM classifier's context summary, its decision resolution and its keyword fallback.
- `Formatter`: the GPT-4 and Claude prompt renderers.
- `Optimizer`: the per-model guidelines and the optimisation request with its fallback.
- `PromptBuilder`: flag resolution, the model-to-formatter table and the result record.
- `FileUtils` and `LlmClient`: artifact summaries, API-key resolution, request shaping and code-fence stripping.
- `BusinessIndexer`: reading local and S3 documents, artifact creation and the indexing loop.
- `ProjectIndexer`: component grouping with its directory fallback, and the infrastructure and document summaries.
- `CodebaseAnalyzer`: language detection, imports, dependencies and directory grouping.
- `InfraParsers`: the Dockerfile line parser, GitLab CI job extraction, the Terraform, compose, ECS and CloudFormation shaping, and `parse_all`'s error routing.
- `InfraIndexer`: path precedence, section generation and order, the combined document and the legacy fields.
- `RepoCrawler`: GitLab URL parsing, the clone URL and command, cleanup and file discovery.

`Base`, `Text`, `Collections`, `Json` and `PyPath` are shared helpers. They give Python's
meaning to `Option`/exceptions, string methods, dict and set building, decoded
documents and `pathlib` paths.

Two behaviours are modelled as the code does them, though a reader might expect
otherwise:

- The prompt builder does not raise when no classifier is configured. It falls back to
  the keyword selector (prompt_construction/prompt_builder.py:113-115).
- An empty selected-component list does not suppress the component headers. The
  formatter then renders every component (prompt_construction/model_formatters.py:95-97).

## Model

| member | source | states |
|---|---|---|
| Artifacts.ReqStr | src/assistant_to_the_assistant/types/prompt_artifacts.py:11 | a required text field validates exactly when the key is present with a string value, and yields that string |
| Artifacts.DefStr | src/assistant_to_the_assistant/types/prompt_artifacts.py:91 | a text field with a default yields the default when the key is absent and fails only on a non-string value |
| Artifacts.OptStr | src/assistant_to_the_assistant/types/prompt_artifacts.py:22 | an optional text field is `None` when absent and accepts a string or null |
| Artifacts.StrListField | src/assistant_to_the_assistant/types/prompt_artifacts.py:12-15 | a list-of-text field is empty when absent, accepts only a list of strings, and keeps its items |
| Artifacts.DictField | types/components.py:15 | a mapping field is empty when absent and accepts only an object |
| Artifacts.FieldsOf | src/assistant_to_the_assistant/types/prompt_artifacts.py:116-125 | a model is built only from an object |
| Artifacts.ValidateEach | src/assistant_to_the_assistant/types/prompt_artifacts.py:53-56 | a list of models validates iff every element does, with one model per element in order |
| Artifacts.ModelListField | src/assistant_to_the_assistant/types/prompt_artifacts.py:44-47 | a list-of-models field defaults to empty |
| Artifacts.ValidateBusinessGoals | src/assistant_to_the_assistant/types/prompt_artifacts.py:9-15 | business goals need a string purpose; constraints default to empty |
| Artifacts.ValidateIoExample | src/assistant_to_the_assistant/types/prompt_artifacts.py:18-27 | an I/O example needs both descriptions as strings; the concrete example is optional and absent by default |
| Artifacts.ValidateSection | src/assistant_to_the_assistant/types/prompt_artifacts.py:30-35 | a section needs title, content and type as strings; keywords default to empty |
| Artifacts.ValidateInfrastructure | src/assistant_to_the_assistant/types/prompt_artifacts.py:38-48 | an empty object gives the empty infrastructure description |
| Artifacts.ValidateSystemDescription | src/assistant_to_the_assistant/types/prompt_artifacts.py:51-64 | a missing infrastructure gives the empty description, never an absent one; an empty object gives the empty system description |
| Artifacts.ValidateGuidelines | src/assistant_to_the_assistant/types/prompt_artifacts.py:67-80 | an empty object gives guidelines with three empty lists |
| Artifacts.ValidateFeaturePrompt | src/assistant_to_the_assistant/types/prompt_artifacts.py:88-95 | a feature prompt needs a string description; its type is any string and defaults to "feature"; examples default to empty |
| Artifacts.ValidateBusinessContextArtifact | src/assistant_to_the_assistant/types/prompt_artifacts.py:98-104 | an artifact record validates iff all five text fields are present as strings |
| Artifacts.ValidateBusinessContext | src/assistant_to_the_assistant/types/prompt_artifacts.py:107-113 | business context needs its timestamp; artifacts default to empty |
| Artifacts.ValidatePromptArtifacts | src/assistant_to_the_assistant/types/prompt_artifacts.py:116-125 | the four parts are required; business context is optional and absent by default |
| Artifacts.OptionalModel | src/assistant_to_the_assistant/types/prompt_artifacts.py:122-125 | an optional nested model is `None` when absent |
| Artifacts.Required | src/assistant_to_the_assistant/types/prompt_artifacts.py:118-121 | a required nested model fails when the key is missing |
| Artifacts.ValidateComponent | types/components.py:8-15 | a component needs name and description as strings and keeps them; its lists default to empty and its metadata to an empty mapping |
| Artifacts.ValidateComponentIndex | types/components.py:18-22 | an empty object gives an empty index; timestamp and root default to `None` |
| Artifacts.GoalsFromPurpose | src/assistant_to_the_assistant/types/prompt_artifacts.py:9-15 | a purpose alone gives goals with no constraints |
| Artifacts.DanglingDependenciesAccepted | types/components.py:13 | dependency names are taken as given, even when no component has them |
| Keywords.Candidates | src/assistant_to_the_assistant/utils/keyword_extractor.py:29-32 | every candidate is a lowercased word of the text that is not a stop word and is at least `min_length` long |
| Keywords.ExtractKeywords | src/assistant_to_the_assistant/utils/keyword_extractor.py:16-36 | the keywords are distinct candidates, a prefix of the candidates in first-seen order, at most `max_keywords` of them, and all candidates when fewer than the cap |
| Keywords.AnyLongIn | src/assistant_to_the_assistant/utils/keyword_extractor.py:58 | true iff some keyword longer than three characters occurs in the text |
| Keywords.MatchesKeywords | src/assistant_to_the_assistant/utils/keyword_extractor.py:39-58 | true iff some keyword longer than three characters occurs in the text, both lowercased unless matching is case-sensitive |
| Keywords.ShortKeywordsNeverMatch | src/assistant_to_the_assistant/utils/keyword_extractor.py:58 | keywords of three characters or fewer, and so an empty list, never match |
| Keywords.DropShortKeywords | src/assistant_to_the_assistant/utils/keyword_extractor.py:58 | removing the short keywords does not change the outcome |
| Keywords.MatchIgnoresCase | src/assistant_to_the_assistant/utils/keyword_extractor.py:54-56 | without case sensitivity any change of case in text or keywords leaves the outcome unchanged |
| Keywords.MatchUpperText | src/assistant_to_the_assistant/utils/keyword_extractor.py:55 | upper-casing the text does not change a case-insensitive match |
| Keywords.ExtractIdempotent | src/assistant_to_the_assistant/utils/keyword_extractor.py:16-36 | extracting keywords from the space-joined keywords gives the same keywords |
| FileUtils.ReadArtifact | src/assistant_to_the_assistant/utils/file_utils.py:11-33 | the artifact's text when its file reads, `None` when it is missing or unreadable |
| FileUtils.OverviewStart | src/assistant_to_the_assistant/utils/file_utils.py:53-56 | the overview starts at the first "## Overview", else at the first "**Overview**", else there is none |
| FileUtils.OverviewSlice | src/assistant_to_the_assistant/utils/file_utils.py:58-65 | the delimited overview starts with its marker at the overview start, is at least ten characters long and ends at a section break; there is none exactly when no marker or no break follows |
| FileUtils.MarkerBeforeBreak | src/assistant_to_the_assistant/utils/file_utils.py:60-65 | a break at least ten characters after a marker lies beyond the marker, so the slice between them starts with the marker |
| FileUtils.ArtifactSummary | src/assistant_to_the_assistant/utils/file_utils.py:36-71 | an empty or unreadable artifact is named by its filename; otherwise the overview when it fits, else the first `max_length` characters with "..." when cut, never longer than `max_length` + 3 |
| LlmClient.ResolveApiKey | src/assistant_to_the_assistant/utils/llm_client.py:31-33 | the explicit key when non-empty, else the environment key; failure when neither is set |
| LlmClient.NewClient | src/assistant_to_the_assistant/utils/llm_client.py:19-36 | a client exists iff a key resolves; it keeps the model and a non-empty key |
| LlmClient.Request | src/assistant_to_the_assistant/utils/llm_client.py:66-78 | the request holds the system message then the user message, the model, temperature and response format |
| LlmClient.CleanContent | src/assistant_to_the_assistant/utils/llm_client.py:82-86 | a reply without an opening fence is only stripped |
| LlmClient.MakeLlmCall | src/assistant_to_the_assistant/utils/llm_client.py:39-91 | succeeds iff the chat call returns content, and returns that content cleaned |
| LlmClient.MakeJsonLlmCall | src/assistant_to_the_assistant/utils/llm_client.py:94-131 | asks for a JSON object; succeeds iff the call succeeds and the cleaned text decodes, and returns the decoded value |
| LlmClient.FullyFencedReplyIsEmpty | src/assistant_to_the_assistant/utils/llm_client.py:85-86 | a reply wrapped in a complete fence pair cleans to the empty string |
| LlmClient.UnclosedFenceKeepsTag | src/assistant_to_the_assistant/utils/llm_client.py:85-86 | a reply with an opening fence and no closing fence keeps the text after the fence, language tag included |
| ContextSelector.FewestDependencies | src/assistant_to_the_assistant/prompt_construction/context_selector.py:88-92 | the fallback is three components (or all when fewer) drawn from the index, none with more dependencies than any component left out, in ascending dependency order; among components with equal counts, the ones taken are the earliest in index order and keep that order (the sort is stable) |
| ContextSelector.EqualCountsKeepFirstThree | src/assistant_to_the_assistant/prompt_construction/context_selector.py:88-92 | when every component has the same dependency count, the fallback is the first three components in index order |
| ContextSelector.MatchedBy | src/assistant_to_the_assistant/prompt_construction/context_selector.py:76-85 | the selection keeps index order and holds a component exactly when it matches |
| ContextSelector.SelectComponents | src/assistant_to_the_assistant/prompt_construction/context_selector.py:65-94 | when some component matches, exactly the matching components in index order; when none matches, the fewest-dependencies fallback; never empty for a non-empty index |
| ContextSelector.SelectSections | src/assistant_to_the_assistant/prompt_construction/context_selector.py:96-117 | exactly the sections whose text matches a description keyword or whose type's trigger words occur in the description, in order |
| ContextSelector.SelectRelevantContext | src/assistant_to_the_assistant/prompt_construction/context_selector.py:11-63 | components are selected only from a non-empty index, sections only from a system description; infrastructure is included iff some section was selected or the description is infrastructure-relevant; all I/O examples iff the system description has some |
| ContextSelector.ShortInfraWordsNeverFire | src/assistant_to_the_assistant/prompt_construction/context_selector.py:132-140 | the three-letter-or-shorter vocabulary words can never fire, so relevance depends on the long words alone |
| ContextSelector.AwsAloneIsNotInfra | src/assistant_to_the_assistant/prompt_construction/context_selector.py:134-140 | a description of only "aws" is not infrastructure-relevant |
| ContextSelector.CiInsideAnyWordSelectsCicd | src/assistant_to_the_assistant/prompt_construction/context_selector.py:119-130 | "ci" or "cd" anywhere in the description, even inside another word, selects every section of type "cicd" |
| ContextSelector.UnknownTypeHasNoTriggers | src/assistant_to_the_assistant/prompt_construction/context_selector.py:129-130 | a section type outside the table is selected only through keywords |
| LegacySelector.LegacyCandidates | prompt_construction/context_selector.py:100-111 | every candidate is a lowercased word of the text, not a stop word, longer than three characters |
| LegacySelector.LegacyKeywords | prompt_construction/context_selector.py:97-114 | distinct candidates, as many as the distinct candidates up to ten, and all of them when there are ten or fewer |
| LegacySelector.KeywordsFollowSetOrder | prompt_construction/context_selector.py:114 | given the set's listing order, the keywords are the first ten of it |
| LegacySelector.LegacySelectComponents | prompt_construction/context_selector.py:65-95 | when some component's lowercased text contains a keyword, exactly those components in order; otherwise the fewest-dependencies fallback; never empty for a non-empty index |
| LegacySelector.LegacySelectSections | prompt_construction/context_selector.py:116-144 | exactly the sections matched through keywords, title, type or type triggers, in order |
| LegacySelector.LegacySelectRelevantContext | prompt_construction/context_selector.py:11-63 | the same decision structure as the other selector, with the legacy keyword and relevance tests |
| LegacySelector.ShortInfraWordsFire | prompt_construction/context_selector.py:159-168 | "aws", "gcp", "db" or "api" anywhere in the description makes it infrastructure-relevant |
| LegacySelector.SelectorsDisagreeOnAws | prompt_construction/context_selector.py:159-168 | on "aws" the legacy selector includes infrastructure and the other selector does not |
| Classifier.PrepareContext | src/assistant_to_the_assistant/prompt_construction/prompt_classifier.py:60-133 | one summary per component and per section, keeping names, titles and descriptions; a section summary is its content cut to 500 characters plus "..." when longer; goals and guidelines pass through; one summary per artifact |
| Classifier.ClassificationPrompt | src/assistant_to_the_assistant/prompt_construction/prompt_classifier.py:169-263 | the request text contains the feature description |
| Classifier.PromptShowsTwentyComponents | src/assistant_to_the_assistant/prompt_construction/prompt_classifier.py:178-181 | components past the twentieth do not change the request |
| Classifier.SectionLineShowsFiveKeywords | src/assistant_to_the_assistant/prompt_construction/prompt_classifier.py:190 | keywords past the fifth do not change a section's line |
| Classifier.GoalsShowFiveConstraints | src/assistant_to_the_assistant/prompt_construction/prompt_classifier.py:203 | constraints past the fifth do not change the goals block |
| Classifier.LlmClassify | src/assistant_to_the_assistant/prompt_construction/prompt_classifier.py:135-167 | the decoded reply when the call and decoding succeed, otherwise the keyword fallback; no error escapes |
| Classifier.Picks | src/assistant_to_the_assistant/prompt_construction/prompt_classifier.py:322-349 | at most `cap` labels, each the label of a matching item, and all matching labels when fewer than the cap |
| Classifier.FallbackComponentNamesKey | src/assistant_to_the_assistant/prompt_construction/prompt_classifier.py:347 | the fallback lists the keyword-matched component names |
| Classifier.FallbackSectionTitlesKey | src/assistant_to_the_assistant/prompt_construction/prompt_classifier.py:348 | the fallback lists the keyword-matched section titles |
| Classifier.FallbackDocumentNamesKey | src/assistant_to_the_assistant/prompt_construction/prompt_classifier.py:349 | the fallback lists the keyword-matched document filenames |
| Classifier.FallbackGoalsFlagKey | src/assistant_to_the_assistant/prompt_construction/prompt_classifier.py:350 | the fallback includes business goals |
| Classifier.FallbackGuidelinesFlagKey | src/assistant_to_the_assistant/prompt_construction/prompt_classifier.py:351 | the fallback includes agent guidelines |
| Classifier.FallbackIoFlagKey | src/assistant_to_the_assistant/prompt_construction/prompt_classifier.py:352 | the fallback leaves out system I/O examples |
| Classifier.FallbackReasoningKey | src/assistant_to_the_assistant/prompt_construction/prompt_classifier.py:353 | the fallback gives its fixed reasoning text |
| Classifier.FallbackScoresKey | src/assistant_to_the_assistant/prompt_construction/prompt_classifier.py:356 | the fallback has an empty score table |
| Classifier.FilterOk | src/assistant_to_the_assistant/prompt_construction/prompt_classifier.py:284-287 | a comprehension whose test may raise succeeds iff the test succeeds on every item, and keeps the accepted items in order |
| Classifier.DocumentChosen | src/assistant_to_the_assistant/prompt_construction/prompt_classifier.py:310-311 | a document is chosen iff its filename is listed, or it is not listed and its score is at least 0.5 |
| Classifier.ChooseComponents | src/assistant_to_the_assistant/prompt_construction/prompt_classifier.py:281-287 | the chosen components keep index order and are exactly those whose name is in the listed names |
| Classifier.ChooseSections | src/assistant_to_the_assistant/prompt_construction/prompt_classifier.py:290-298 | the chosen sections keep order and are exactly those whose title is in the listed titles |
| Classifier.ChooseDocuments | src/assistant_to_the_assistant/prompt_construction/prompt_classifier.py:301-312 | the chosen documents keep order and are exactly those listed or scored high enough |
| Classifier.ChooseListedComponents | src/assistant_to_the_assistant/prompt_construction/prompt_classifier.py:283-287 | against a list of names, a component is chosen iff its name is in the list |
| Classifier.ChooseListedSections | src/assistant_to_the_assistant/prompt_construction/prompt_classifier.py:294-298 | against a list of titles, a section is chosen iff its title is in the list |
| Classifier.ChooseListedDocuments | src/assistant_to_the_assistant/prompt_construction/prompt_classifier.py:303-312 | with an empty score table, a document is chosen iff its filename is listed |
| Classifier.ExtractSelectedArtifacts | src/assistant_to_the_assistant/prompt_construction/prompt_classifier.py:265-314 | only an object resolves; the flags default to goals and guidelines on and I/O examples off; each choice keeps resource order and holds exactly the listed items |
| Classifier.ExtractOfChoices | src/assistant_to_the_assistant/prompt_construction/prompt_classifier.py:271-314 | when every choice succeeds the result is the three choices and the three flags as read |
| Classifier.FallbackObjectResolves | src/assistant_to_the_assistant/prompt_construction/prompt_classifier.py:316-357 | a fallback-shaped object always resolves, selects exactly the listed items and has the default flags |
| Classifier.FallbackResolves | src/assistant_to_the_assistant/prompt_construction/prompt_classifier.py:316-357 | the keyword fallback always resolves and selects exactly the items it picked by keyword |
| Classifier.ClassifyAndSelect | src/assistant_to_the_assistant/prompt_construction/prompt_classifier.py:24-58 | the classification is the LLM's (or the keyword fallback's); the selection is exactly what `_extract_selected_artifacts` makes of it, and the call succeeds iff that extraction does; the reasoning defaults to "" |
| Classifier.SelectionFollowsClassification | src/assistant_to_the_assistant/prompt_construction/prompt_classifier.py:41-52 | a component or section is selected iff the classification lists its name or title |
| Classifier.FailedCallFallsBack | src/assistant_to_the_assistant/prompt_construction/prompt_classifier.py:154-167 | when the call fails, classification still succeeds with the fallback, its reasoning and default flags |
| Formatter.ArtifactEntry | prompt_construction/model_formatters.py:64-77 | a readable document contributes its text and a separator, a missing file contributes nothing, and a read error contributes the document's metadata |
| Formatter.InfrastructureBlock | prompt_construction/model_formatters.py:114-147 | the infrastructure block is present iff the selection asks for infrastructure (always without a selection), and starts with its heading |
| Formatter.Format | prompt_construction/model_formatters.py:31-188 | the document starts with the task header and ends with the closing rule and instruction |
| Formatter.FormatParts | prompt_construction/model_formatters.py:37-188 | the document is the header, the context blocks and the task block in that order |
| Formatter.Render | prompt_construction/model_formatters.py:191-205 | the Claude formatter renders exactly what the GPT-4 formatter does |
| Formatter.TaskAlwaysShown | prompt_construction/model_formatters.py:172-174 | the task's type and description always appear |
| Formatter.EmptySelectionShowsAllComponents | prompt_construction/model_formatters.py:95-102 | with no selection or an empty component selection, every component of the system is rendered |
| Formatter.SelectedComponentsShown | prompt_construction/model_formatters.py:96-97 | a non-empty component selection replaces the system's components |
| Formatter.FirstFiveFilePaths | prompt_construction/model_formatters.py:110-111 | only the first five file paths of a component are rendered |
| Formatter.SelectedSectionsReplaceLegacy | prompt_construction/model_formatters.py:126-130 | with selected sections the infrastructure record itself is not consulted |
| Formatter.IoExamplesIgnoreFlag | prompt_construction/model_formatters.py:84-92 | the selection's I/O-examples flag never changes the document |
| Formatter.ReadableArtifactShown | prompt_construction/model_formatters.py:66-72 | a document whose file reads appears in full |
| Formatter.MissingArtifactsRenderNothing | prompt_construction/model_formatters.py:60-78 | documents whose files are all missing leave only the block's frame |
| Optimizer.Guidelines | src/assistant_to_the_assistant/prompt_construction/prompt_optimizer.py:14-64 | a profile exists exactly for the known target models |
| Optimizer.ProfileFor | src/assistant_to_the_assistant/prompt_construction/prompt_optimizer.py:99-102 | a known target gets its own profile, any other target the gpt-4-turbo-preview profile |
| Optimizer.FeatureContext | src/assistant_to_the_assistant/prompt_construction/prompt_optimizer.py:160-165 | the feature block is empty iff the feature description is absent or empty |
| Optimizer.NewOptimizer | src/assistant_to_the_assistant/prompt_construction/prompt_optimizer.py:66-79 | an optimiser exists iff an API key resolves, and uses the optimiser model |
| Optimizer.Optimize | src/assistant_to_the_assistant/prompt_construction/prompt_optimizer.py:81-149 | the model's rewrite, or the prompt unchanged when the call raises |
| Optimizer.OptimizeWithFeedback | src/assistant_to_the_assistant/prompt_construction/prompt_optimizer.py:191-234 | without feedback the plain optimisation; with feedback the feedback call's rewrite, or the prompt unchanged when it raises |
| Optimizer.GuidelineLinesShow | src/assistant_to_the_assistant/prompt_construction/prompt_optimizer.py:167-174 | the guideline lines name the target and every field of its profile |
| Optimizer.OptimizationPromptShowsProfile | src/assistant_to_the_assistant/prompt_construction/prompt_optimizer.py:167-174 | the optimisation request carries the target and the whole profile |
| Optimizer.OptimizationPromptShowsPrompt | src/assistant_to_the_assistant/prompt_construction/prompt_optimizer.py:176-178 | the optimisation request carries the whole prompt |
| Optimizer.OptimizationPromptShowsFeature | src/assistant_to_the_assistant/prompt_construction/prompt_optimizer.py:160-165 | a non-empty feature description appears in the request |
| Optimizer.EmptyFeatureDescriptionIgnored | src/assistant_to_the_assistant/prompt_construction/prompt_optimizer.py:161 | an empty feature description asks the same as none |
| Optimizer.UnknownTargetUsesDefault | src/assistant_to_the_assistant/prompt_construction/prompt_optimizer.py:99-102 | an unknown target is optimised with the gpt-4-turbo-preview profile |
| PromptBuilder.NewBuilder | prompt_construction/prompt_builder.py:22-65 | a builder exists iff every enabled client finds an API key; the classifier and optimizer exist exactly when enabled |
| PromptBuilder.FormatterFor | prompt_construction/prompt_builder.py:57-65 | the three Claude models get the Claude formatter; every other model, known or not, gets the GPT-4 formatter |
| PromptBuilder.RowOf | prompt_construction/prompt_builder.py:173 | the first table row naming the model, with no earlier row naming it, or none |
| PromptBuilder.FormatterTableKnowsGuidelineTargets | prompt_construction/prompt_builder.py:57-65 | the formatter table and the optimiser's guideline table name the same models in the same order |
| PromptBuilder.FeatureExamples | prompt_construction/prompt_builder.py:99-101 | no or empty examples give none; otherwise one example per record, failing when any record is invalid |
| PromptBuilder.MakeArtifacts | prompt_construction/prompt_builder.py:162-170 | missing goals become "Not specified" with no constraints, missing guidelines empty guidelines; no business context is passed |
| PromptBuilder.NarrowSystem | prompt_construction/prompt_builder.py:140-148 | selected components and sections replace the stored ones only when non-empty; everything else is kept |
| PromptBuilder.ClassifiedContext | prompt_construction/prompt_builder.py:124-129 | the formatter's selection carries the chosen components and sections, with infrastructure iff some section was chosen |
| PromptBuilder.Assemble | prompt_construction/prompt_builder.py:94-170 | classification runs exactly when enabled, present and the build is selective; otherwise the keyword selector decides, or nothing is selected when all context is included; no business context ever reaches the artifacts |
| PromptBuilder.InitialPrompt | prompt_construction/prompt_builder.py:172-176 | the initial prompt is the formatted artifacts under the selection |
| PromptBuilder.BuildPrompt | prompt_construction/prompt_builder.py:67-197 | the build succeeds iff assembly does; it reports the model, type, the effective flags, and the initial prompt exactly when optimising |
| PromptBuilder.BusinessContextNeverRendered | prompt_construction/prompt_builder.py:162-170 | the rendered prompt never has a business-context documentation block |
| PromptBuilder.FailedClassificationStillBuilds | prompt_construction/prompt_builder.py:115-148 | a failing classification call does not fail the build: the keyword fallback decides and goals and guidelines are kept |
| PromptBuilder.ClassifiedAssembly | prompt_construction/prompt_builder.py:132-138 | on the classifier path, goals and guidelines are kept exactly when the classification includes them |
| PromptBuilder.OptimizedWithoutOptimizer | prompt_construction/prompt_builder.py:179-196 | an enabled optimisation without an optimiser still reports `optimized` and returns the initial prompt twice |
| PromptBuilder.IncludeAllStillReportsClassified | prompt_construction/prompt_builder.py:113-115 | with all context included nothing is classified, yet `classified` reports the flag |
| BusinessIndexer.FileTypeOfSuffix | project_indexer/business_context_indexer.py:212-219 | ".pdf" is pdf, ".csv" is csv, ".md" and ".markdown" are markdown, and anything else is text |
| BusinessIndexer.DetectFileType | project_indexer/business_context_indexer.py:207-219 | the type depends only on the path's last component: when its last "." is neither its first nor its last character, the type of the lower-cased suffix from that "."; otherwise text; always one of pdf, csv, markdown, text |
| BusinessIndexer.TypeOfName | project_indexer/business_context_indexer.py:209-210 | a file `base.ext` in any directory gets the type of ".ext" lower-cased, whatever the case of `ext` |
| BusinessIndexer.UpperCasePdf | project_indexer/business_context_indexer.py:209-212 | a file named "Spec.PDF", in any directory, is a PDF |
| BusinessIndexer.SanitizeStem | project_indexer/business_context_indexer.py:394-403 | every invalid character becomes "_", every other character is kept, and the name is cut to 100 characters |
| BusinessIndexer.SanitizeFilename | project_indexer/business_context_indexer.py:392-403 | the artifact name has at most 100 characters and none of them invalid |
| BusinessIndexer.SanitizeKeepsCleanBase | project_indexer/business_context_indexer.py:392-403 | a short base name without invalid characters is kept as it is |
| BusinessIndexer.ArtifactInOutputDir | project_indexer/business_context_indexer.py:112-113 | the artifact file lands directly inside the output directory, under the sanitised name plus ".md" |
| BusinessIndexer.OutputPath | project_indexer/business_context_indexer.py:81-84 | the given directory when non-empty, else `.project-resources/business-context` |
| BusinessIndexer.DefaultOutputIsJoin | project_indexer/business_context_indexer.py:84 | the default output directory is ".project-resources" joined with "business-context" |
| BusinessIndexer.ReadLocalFile | project_indexer/business_context_indexer.py:178-205 | a missing path raises; otherwise the given or detected type selects the reader; the name is the path's last component; a failing reader gives no content and no type |
| BusinessIndexer.S3Location | project_indexer/business_context_indexer.py:150-153 | the key never starts with a slash |
| BusinessIndexer.S3LocationRoundTrip | project_indexer/business_context_indexer.py:150-153 | `s3://bucket/key` splits back into its bucket and key |
| BusinessIndexer.ReadFromS3 | project_indexer/business_context_indexer.py:139-176 | without a client it raises; a location whose bucket holds one square bracket without the other raises, as `urlparse` does; a location without bucket or key raises; a client error gives no content; otherwise the downloaded copy is read with the type detected from the key, named by the key's last component |
| BusinessIndexer.FromDownload | project_indexer/business_context_indexer.py:158-176 | a downloaded copy is read with the key's detected type, a client error gives no content, any other failure raises; the name is the key's last component |
| BusinessIndexer.Preview | project_indexer/business_context_indexer.py:310-313 | the first 15000 characters, followed by a truncation marker exactly when something was cut |
| BusinessIndexer.PromptShowsDocument | project_indexer/business_context_indexer.py:315-341 | the request names the file and its upper-cased type and carries the whole preview |
| BusinessIndexer.MetadataNamesSource | project_indexer/business_context_indexer.py:366-374 | the metadata header names the file, the source, the upper-cased type and the time |
| BusinessIndexer.Analyse | project_indexer/business_context_indexer.py:343-363 | the analysis reply, stripped and freed of code fences, iff the call returns content |
| BusinessIndexer.Described | project_indexer/business_context_indexer.py:364-376 | the artifact is exactly the metadata, then the rule "---" and a blank line, then the answer |
| BusinessIndexer.Summarised | project_indexer/business_context_indexer.py:378-390 | the fallback artifact is exactly the metadata, the "## Content Summary" heading, the first 2000 characters of the document, then "...\n" when the document is longer and "\n" otherwise; a short document appears whole |
| BusinessIndexer.CreateArtifact | project_indexer/business_context_indexer.py:291-390 | when the analysis call returns, exactly the metadata, the rule and the answer; when it fails, exactly the metadata, the summary heading, the first 2000 characters of the document and "..." when it is longer, then a newline |
| BusinessIndexer.IndexOne | project_indexer/business_context_indexer.py:91-127 | a file is recorded iff it reads with non-empty content and its artifact is written; the record names the path, the artifact path and a positive size |
| BusinessIndexer.IndexedRecord | project_indexer/business_context_indexer.py:101-122 | a record carries the filename and file type the read reported and the exact length of the artifact text written for it |
| BusinessIndexer.UnusableS3Skipped | project_indexer/business_context_indexer.py:141-156 | an S3 location without a client, bucket or key is skipped |
| BusinessIndexer.OpenBracketBucketSkipped | project_indexer/business_context_indexer.py:150-152 | an S3 location whose bucket has "[" but no "]" is rejected by `urlparse` and skipped, whatever the client would download |
| BusinessIndexer.LocalIndexed | project_indexer/business_context_indexer.py:96-113 | a local path is indexed iff it exists, its reader yields non-empty text and the artifact can be written |
| BusinessIndexer.IndexLoop | project_indexer/business_context_indexer.py:91-128 | one record per indexed path, each the one that path produced |
| BusinessIndexer.IndexLoopFilters | project_indexer/business_context_indexer.py:91-128 | the indexed paths are the listed paths whose step succeeds, in order |
| BusinessIndexer.IndexLoopConcat | project_indexer/business_context_indexer.py:91-128 | files are indexed independently: indexing a concatenation gives the concatenated results |
| BusinessIndexer.IndexBusinessContext | project_indexer/business_context_indexer.py:66-137 | the totals count all listed paths and the indexed ones; indexed files keep the listed order; one artifact per indexed file |
| BusinessIndexer.IndexedExactly | project_indexer/business_context_indexer.py:91-128 | a listed path is indexed exactly when its artifact was produced and saved |
| BusinessIndexer.ArtifactsMatchIndexed | project_indexer/business_context_indexer.py:116-124 | each artifact record is the one its indexed path produced, and names that path as its source |
| ProjectIndexer.NewIndexer | src/assistant_to_the_assistant/project_indexer/indexer.py:22-42 | the indexer is built iff the argument or the environment supplies a non-empty key, preferring the argument; otherwise it raises the documented ValueError; the root is the given path or the working directory |
| ProjectIndexer.Capped | src/assistant_to_the_assistant/project_indexer/indexer.py:199-201 | a file's content is kept whole up to 10000 characters, else cut to 10000 and ended with the truncation marker |
| ProjectIndexer.ReadContents | src/assistant_to_the_assistant/project_indexer/indexer.py:195-204 | one entry per readable file with a distinct key, each holding that file's capped content |
| ProjectIndexer.ReadContentsKeys | src/assistant_to_the_assistant/project_indexer/indexer.py:195-204 | the keys are exactly the readable files' text forms in first-seen order, each with its capped content; unreadable files are skipped |
| ProjectIndexer.PromptShowsFile | src/assistant_to_the_assistant/project_indexer/indexer.py:237-242 | each of the first twenty files appears as its path and the first 500 characters of its content |
| ProjectIndexer.PromptIgnoresLaterFiles | src/assistant_to_the_assistant/project_indexer/indexer.py:241 | files past the twentieth do not change the request |
| ProjectIndexer.ParseComponents | src/assistant_to_the_assistant/project_indexer/indexer.py:226-230 | an object without "components" gives none; an object with a "components" list gives its items validated as components; other shapes give none or raise |
| ProjectIndexer.ParentLabel | src/assistant_to_the_assistant/project_indexer/indexer.py:276 | the group name is never empty and is the parent directory's name when that is non-empty |
| ProjectIndexer.FallbackGrouping | src/assistant_to_the_assistant/project_indexer/indexer.py:270-295 | there are never more components than files, and at least one when there are files |
| ProjectIndexer.FallbackNames | src/assistant_to_the_assistant/project_indexer/indexer.py:272-283 | one component per distinct parent name, in first-appearance order, so names are distinct |
| ProjectIndexer.FallbackHoldsFiles | src/assistant_to_the_assistant/project_indexer/indexer.py:274-284 | each component holds exactly the files with its parent name, in input order, and is non-empty |
| ProjectIndexer.FallbackCoversFiles | src/assistant_to_the_assistant/project_indexer/indexer.py:274-284 | every file's parent name is the name of some component |
| ProjectIndexer.FallbackShape | src/assistant_to_the_assistant/project_indexer/indexer.py:286-295 | each fallback component has the description "Component in <name> directory" and no dependencies or responsibilities |
| ProjectIndexer.TopLevelFileIsRoot | src/assistant_to_the_assistant/project_indexer/indexer.py:276 | a file with no parent directory falls into "root" |
| ProjectIndexer.AnalyseAndGroup | src/assistant_to_the_assistant/project_indexer/indexer.py:186-235 | no files give no components; otherwise the model's validated components when the call and validation succeed, else the fallback grouping of all files |
| ProjectIndexer.OnlyFirstHundredRead | src/assistant_to_the_assistant/project_indexer/indexer.py:196 | files past the hundredth never reach the request |
| ProjectIndexer.FailedAnalysisFallsBack | src/assistant_to_the_assistant/project_indexer/indexer.py:232-235 | a raising chat service yields the fallback grouping |
| ProjectIndexer.Resolve | src/assistant_to_the_assistant/project_indexer/indexer.py:64-66 | an absolute argument is taken as is; a relative one is appended to the project root |
| ProjectIndexer.Found | src/assistant_to_the_assistant/project_indexer/indexer.py:64-72 | the argument is resolved against the project root; a file contributes itself, a directory contributes the walk's files under the resolved path with the exclusion patterns, and something that is neither contributes nothing |
| ProjectIndexer.Excludes | src/assistant_to_the_assistant/project_indexer/indexer.py:59 | a non-empty exclusion list is used as given; a missing or empty one means the defaults |
| ProjectIndexer.IndexCodebase | src/assistant_to_the_assistant/project_indexer/indexer.py:44-80 | the index groups the files found under each argument, in argument order, and is stamped with the time and the project root |
| ProjectIndexer.NothingFoundNoComponents | src/assistant_to_the_assistant/project_indexer/indexer.py:63-74 | arguments that name nothing give an index without components |
| ProjectIndexer.SummarizeInfrastructure | src/assistant_to_the_assistant/project_indexer/indexer.py:297-317 | the reply's content when the call returns; on failure the content cut to 500 characters plus "...", or the content itself when short |
| ProjectIndexer.ExtractFromReadme | src/assistant_to_the_assistant/project_indexer/indexer.py:319-339 | the reply's content when the call returns, "" when it raises |
| ProjectIndexer.SummarizeDocument | src/assistant_to_the_assistant/project_indexer/indexer.py:341-361 | the reply's content when the call returns; on failure the content cut to 200 characters plus "...", or the content itself when short |
| ProjectIndexer.RequestsCarryBoundedInput | src/assistant_to_the_assistant/project_indexer/indexer.py:309 | a summary request carries at most 5000 characters of its input, and all of a short input |
| ProjectIndexer.ReadText | src/assistant_to_the_assistant/project_indexer/indexer.py:110 | reading succeeds iff the file can be read, and gives its text |
| ProjectIndexer.ExistingContents | src/assistant_to_the_assistant/project_indexer/indexer.py:117-121 | the contents are gathered iff every existing path reads; there are at most as many as paths |
| ProjectIndexer.ExistingContentsInOrder | src/assistant_to_the_assistant/project_indexer/indexer.py:117-121 | the gathered texts are those of the existing paths, one each, in order |
| ProjectIndexer.DockerDeployment | src/assistant_to_the_assistant/project_indexer/indexer.py:106-113 | no Dockerfile text unless the path is given and exists; then its summary, or a raised read error |
| ProjectIndexer.Configuration | src/assistant_to_the_assistant/project_indexer/indexer.py:115-126 | no configuration unless paths are given; a failing read raises; no existing file gives none; otherwise the summary of the texts joined by blank lines |
| ProjectIndexer.ReadmeDeployment | src/assistant_to_the_assistant/project_indexer/indexer.py:128-136 | no README text unless the path is given and exists; then its extraction, or a raised read error |
| ProjectIndexer.IndexInfrastructure | src/assistant_to_the_assistant/project_indexer/indexer.py:82-138 | the result succeeds iff each part reads; databases and services stay empty; an existing README's extraction replaces the Dockerfile's summary |
| ProjectIndexer.ReadmeOverridesDockerfile | src/assistant_to_the_assistant/project_indexer/indexer.py:128-136 | an existing README overrides the deployment even when its extraction fails, leaving "" |
| ProjectIndexer.FirstUnreadable | src/assistant_to_the_assistant/project_indexer/indexer.py:155-159 | the first existing path that cannot be read, absent exactly when all existing paths read |
| ProjectIndexer.IndexDocuments | src/assistant_to_the_assistant/project_indexer/indexer.py:140-162 | succeeds iff every existing document reads; keys are distinct and each maps to the document's summary |
| ProjectIndexer.DocumentKeysInOrder | src/assistant_to_the_assistant/project_indexer/indexer.py:155-160 | the keys are the existing documents' path texts in first-seen order |
| ProjectIndexer.DocumentNamedByPath | src/assistant_to_the_assistant/project_indexer/indexer.py:158 | the summary request names the document by its own file name |
| CodebaseAnalyzer.Language | src/assistant_to_the_assistant/project_indexer/codebase_analyzer.py:14-26 | a language other than "unknown" exactly for the ten listed extensions |
| CodebaseAnalyzer.LanguageRoundTrip | src/assistant_to_the_assistant/project_indexer/codebase_analyzer.py:14-25 | the extension table is one-to-one between extensions and languages |
| CodebaseAnalyzer.DetectLanguage | src/assistant_to_the_assistant/project_indexer/codebase_analyzer.py:12-26 | the language depends only on the path's last component: when its last "." is neither its first nor its last character, the language of the lower-cased suffix from that "."; otherwise "unknown" |
| CodebaseAnalyzer.LanguageOfName | src/assistant_to_the_assistant/project_indexer/codebase_analyzer.py:26 | a file `base.ext` in any directory gets the language of ".ext" lower-cased |
| CodebaseAnalyzer.ImportsOf | src/assistant_to_the_assistant/project_indexer/codebase_analyzer.py:36-42 | a name is collected iff some import node in the walk names it |
| CodebaseAnalyzer.ImportsConcat | src/assistant_to_the_assistant/project_indexer/codebase_analyzer.py:36-42 | imports are collected node by node in walk order |
| CodebaseAnalyzer.ExtractPythonImports | src/assistant_to_the_assistant/project_indexer/codebase_analyzer.py:29-46 | a read or parse failure gives no imports; otherwise the walk's imports |
| CodebaseAnalyzer.NoImportNodes | src/assistant_to_the_assistant/project_indexer/codebase_analyzer.py:37-42 | nodes that are not imports contribute nothing |
| CodebaseAnalyzer.ToSet | src/assistant_to_the_assistant/project_indexer/codebase_analyzer.py:56 | the set holds exactly the list's elements |
| CodebaseAnalyzer.Imports | src/assistant_to_the_assistant/project_indexer/codebase_analyzer.py:55-56 | the set of a file's extracted imports |
| CodebaseAnalyzer.FindDependencies | src/assistant_to_the_assistant/project_indexer/codebase_analyzer.py:49-58 | keys are distinct and each maps to its file's import set |
| CodebaseAnalyzer.DependencyKeys | src/assistant_to_the_assistant/project_indexer/codebase_analyzer.py:53-56 | the keys are exactly the ".py" files' text forms, in first-seen order |
| CodebaseAnalyzer.PythonOnlyForLowerPy | src/assistant_to_the_assistant/project_indexer/codebase_analyzer.py:54 | the Python test is case-sensitive: only a lower-case "py" extension counts |
| CodebaseAnalyzer.GroupByDirectory | src/assistant_to_the_assistant/project_indexer/codebase_analyzer.py:61-71 | never more groups than files, and at least one when there are files |
| CodebaseAnalyzer.DirectoryGroups | src/assistant_to_the_assistant/project_indexer/codebase_analyzer.py:63-71 | groups are keyed by parent directory in first-seen order, distinct, each holding exactly its files in input order, and every file has a group |
| CodebaseAnalyzer.TopLevelFileUnderDot | src/assistant_to_the_assistant/project_indexer/codebase_analyzer.py:66 | a top-level file of a relative tree is grouped under "." |
| InfraIndexer.Generate | src/assistant_to_the_assistant/project_indexer/infrastructure_indexer.py:210-228 | a section text exists iff the chat call returns content; it is that content stripped and freed of code fences |
| InfraIndexer.SelectByType | src/assistant_to_the_assistant/project_indexer/infrastructure_indexer.py:387-391 | selection succeeds iff every resource type is a string; the picked resources are those whose lower-cased type mentions a word, in order |
| InfraIndexer.CfStorageOf | src/assistant_to_the_assistant/project_indexer/infrastructure_indexer.py:394-398 | CloudFormation storage selection succeeds iff every definition is a mapping with a string type; the entries are exactly the storage names, in key order, each with its own definition |
| InfraIndexer.TfStorageItems | src/assistant_to_the_assistant/project_indexer/infrastructure_indexer.py:386-391 | succeeds iff every Terraform type is a string; the Terraform items are exactly the resources whose lower-cased type mentions a storage word, in state order; none without Terraform data |
| InfraIndexer.CfStorageItems | src/assistant_to_the_assistant/project_indexer/infrastructure_indexer.py:393-398 | succeeds iff the template's resources are a mapping of readable definitions (or there is no template); the items are exactly its storage resources in key order |
| InfraIndexer.StorageItems | src/assistant_to_the_assistant/project_indexer/infrastructure_indexer.py:382-398 | succeeds iff both halves do; the Terraform items followed by the CloudFormation items; no source gives none |
| InfraIndexer.StorageItemsExactly | src/assistant_to_the_assistant/project_indexer/infrastructure_indexer.py:382-398 | the Terraform items are exactly the matching resources in order, the CloudFormation items exactly the storage keys in order (none without a template), and no Terraform item follows a CloudFormation one |
| InfraIndexer.TfNetworkItems | src/assistant_to_the_assistant/project_indexer/infrastructure_indexer.py:459-463 | succeeds iff every Terraform type is a string; the items are exactly the resources whose lower-cased type mentions a networking word, in state order; none without Terraform data |
| InfraIndexer.NetworkItems | src/assistant_to_the_assistant/project_indexer/infrastructure_indexer.py:454-470 | succeeds iff Terraform types are strings; the Terraform items are exactly the resources whose type mentions a networking word, in order; a compose summary adds its networks once, last |
| InfraIndexer.CicdKeywords | src/assistant_to_the_assistant/project_indexer/infrastructure_indexer.py:525-536 | keywords succeed iff every stage is a string; they are distinct and include the base words, every lower-cased stage and every lower-cased job name |
| InfraIndexer.CicdKeywordsOnly | src/assistant_to_the_assistant/project_indexer/infrastructure_indexer.py:527-536 | nothing else is a keyword: each is a base word, a lower-cased stage or a lower-cased job name |
| InfraIndexer.CicdSection | src/assistant_to_the_assistant/project_indexer/infrastructure_indexer.py:185-246 | the LLM's text with the CI keywords when both succeed; otherwise the job and stage count summary with the base keywords, which fails when the stages cannot be counted |
| InfraIndexer.DeploymentInput | src/assistant_to_the_assistant/project_indexer/infrastructure_indexer.py:153-163 | the payload carries each of Dockerfile, compose, ECS and Terraform exactly when it is present |
| InfraIndexer.DeploymentSection | src/assistant_to_the_assistant/project_indexer/infrastructure_indexer.py:248-310 | the LLM's text with the base keywords plus "terraform" and the ECS words when those inputs are present; else the fixed sentence |
| InfraIndexer.ComputeInput | src/assistant_to_the_assistant/project_indexer/infrastructure_indexer.py:313-319 | the payload carries Terraform and CloudFormation resources exactly when each is present |
| InfraIndexer.ComputeSection | src/assistant_to_the_assistant/project_indexer/infrastructure_indexer.py:312-380 | the LLM's text with the compute keywords plus "terraform" when present; else the fixed sentence with two keywords |
| InfraIndexer.StorageSection | src/assistant_to_the_assistant/project_indexer/infrastructure_indexer.py:382-452 | a storage section exists iff there are storage items and the request succeeds |
| InfraIndexer.NetworkingSection | src/assistant_to_the_assistant/project_indexer/infrastructure_indexer.py:454-523 | a networking section exists iff there are networking items and the request succeeds |
| InfraIndexer.PushInOrder | src/assistant_to_the_assistant/project_indexer/infrastructure_indexer.py:141-183 | appending a section of the next rank keeps the sections in order |
| InfraIndexer.AppendHasType | src/assistant_to_the_assistant/project_indexer/infrastructure_indexer.py:141-183 | a type is present after appending iff it was present or is the appended one |
| InfraIndexer.Assemble | src/assistant_to_the_assistant/project_indexer/infrastructure_indexer.py:141-183 | the optional sections are joined in the fixed order CI/CD, deployment, compute, storage, networking |
| InfraIndexer.AssembleTypes | src/assistant_to_the_assistant/project_indexer/infrastructure_indexer.py:141-183 | each section type is present exactly when its optional section is |
| InfraIndexer.GenerateSections | src/assistant_to_the_assistant/project_indexer/infrastructure_indexer.py:141-183 | sections are in fixed order; CI/CD iff GitLab CI data, deployment iff any deployment input, compute iff Terraform or CloudFormation; a successful run has selected its storage and networking items |
| InfraIndexer.GeneratedLaterSections | src/assistant_to_the_assistant/project_indexer/infrastructure_indexer.py:172-181 | in a successful run, storage and networking sections are present iff their items exist and the request for them succeeds |
| InfraIndexer.StorageDroppedOnFailure | src/assistant_to_the_assistant/project_indexer/infrastructure_indexer.py:450-452 | a failed storage request drops the section rather than replacing it |
| InfraIndexer.CombineSections | src/assistant_to_the_assistant/project_indexer/infrastructure_indexer.py:538-550 | no sections give ""; otherwise the document starts with its header |
| InfraIndexer.CombineEmptyIff | src/assistant_to_the_assistant/project_indexer/infrastructure_indexer.py:540-541 | the document is empty exactly when there are no sections |
| InfraIndexer.CombineContainsSection | src/assistant_to_the_assistant/project_indexer/infrastructure_indexer.py:545-548 | every section appears as its own titled block with its content |
| InfraIndexer.CombineAppend | src/assistant_to_the_assistant/project_indexer/infrastructure_indexer.py:545-550 | adding a section appends exactly its block |
| InfraIndexer.FirstDeployment | src/assistant_to_the_assistant/project_indexer/infrastructure_indexer.py:558 | the index of the first deployment section, with none before it |
| InfraIndexer.DeploymentInfo | src/assistant_to_the_assistant/project_indexer/infrastructure_indexer.py:552-561 | present iff a deployment section exists; then the first one's content cut to 500 characters plus "..." |
| InfraIndexer.Databases | src/assistant_to_the_assistant/project_indexer/infrastructure_indexer.py:563-573 | "<type> database" for each Terraform resource whose lower-cased type mentions "rds" or "database", in order; fails on a non-string type |
| InfraIndexer.Services | src/assistant_to_the_assistant/project_indexer/infrastructure_indexer.py:575-582 | the compose service names in document order, or none without compose data |
| InfraIndexer.Merge | src/assistant_to_the_assistant/project_indexer/infrastructure_indexer.py:94-99 | for each of the five discoverable paths, the explicit one when given and the discovered one otherwise; the state file is never discovered |
| InfraIndexer.ResolvePaths | src/assistant_to_the_assistant/project_indexer/infrastructure_indexer.py:72-105 | without a repository URL the explicit paths are used; a URL that `urlparse` rejects leaves no crawler and the explicit paths; otherwise a crawler is made from the URL and token, and discovered paths fill in only when cloning and discovery succeed |
| InfraIndexer.IndexInfrastructure | src/assistant_to_the_assistant/project_indexer/infrastructure_indexer.py:33-139 | the description holds the generated sections, their combined document, the deployment excerpt, databases and services, and no configuration; any crawler is cleaned up |
| InfraParsers.Kind | src/assistant_to_the_assistant/project_indexer/infrastructure_parsers.py:177-213 | blank and comment lines are skipped; otherwise the first instruction keyword the upper-cased line starts with decides, and a line matching none is ignored |
| InfraParsers.EnvPairs | src/assistant_to_the_assistant/project_indexer/infrastructure_parsers.py:194-196 | every pair found has a word name and a non-empty value without whitespace |
| InfraParsers.EnvPairsNeedEquals | src/assistant_to_the_assistant/project_indexer/infrastructure_parsers.py:194 | text without "=" yields no pair, so the "=" guard changes nothing |
| InfraParsers.EnvPairsSkipSpace | src/assistant_to_the_assistant/project_indexer/infrastructure_parsers.py:195 | leading whitespace is passed over by the scan |
| InfraParsers.EnvPairsHead | src/assistant_to_the_assistant/project_indexer/infrastructure_parsers.py:195 | one well-formed NAME=VALUE followed by a space or the end is read back, and the scan resumes after it |
| InfraParsers.EnvRoundTrip | src/assistant_to_the_assistant/project_indexer/infrastructure_parsers.py:195 | rendering well-formed pairs as space-separated NAME=VALUE and scanning them gives the pairs back |
| InfraParsers.StepFields | src/assistant_to_the_assistant/project_indexer/infrastructure_parsers.py:177-213 | one line changes at most one field: list instructions append their items, scalar instructions overwrite their value, other lines change nothing |
| InfraParsers.StepPorts | src/assistant_to_the_assistant/project_indexer/infrastructure_parsers.py:187-190 | one line's effect on the exposed ports is to append its own ports |
| InfraParsers.StepEnv | src/assistant_to_the_assistant/project_indexer/infrastructure_parsers.py:192-197 | one line's effect on the environment is to append its own pairs |
| InfraParsers.StepVolumes | src/assistant_to_the_assistant/project_indexer/infrastructure_parsers.py:199-202 | one line's effect on the volumes is to append its own volume text |
| InfraParsers.StepRuns | src/assistant_to_the_assistant/project_indexer/infrastructure_parsers.py:212-213 | one line's effect on the run commands is to append its own command |
| InfraParsers.StepScalar | src/assistant_to_the_assistant/project_indexer/infrastructure_parsers.py:183-210 | a line overwrites base image, workdir or user exactly when it sets that field |
| InfraParsers.FoldAppend | src/assistant_to_the_assistant/project_indexer/infrastructure_parsers.py:177 | parsing a concatenation of lines continues from the state after the first part |
| InfraParsers.FoldPorts | src/assistant_to_the_assistant/project_indexer/infrastructure_parsers.py:187-190 | the exposed ports are all lines' ports concatenated in line order |
| InfraParsers.FoldEnv | src/assistant_to_the_assistant/project_indexer/infrastructure_parsers.py:192-197 | the environment pairs are all lines' pairs concatenated in line order |
| InfraParsers.FoldVolumes | src/assistant_to_the_assistant/project_indexer/infrastructure_parsers.py:199-202 | the volumes are all lines' volume texts concatenated in line order |
| InfraParsers.FoldRuns | src/assistant_to_the_assistant/project_indexer/infrastructure_parsers.py:212-213 | the run commands are all lines' commands concatenated in line order |
| InfraParsers.FoldContent | src/assistant_to_the_assistant/project_indexer/infrastructure_parsers.py:215-223 | the file text is carried through unchanged |
| InfraParsers.NothingSetKeeps | src/assistant_to_the_assistant/project_indexer/infrastructure_parsers.py:183-210 | lines that do not set a single-valued field leave it as it was |
| InfraParsers.FoldAround | src/assistant_to_the_assistant/project_indexer/infrastructure_parsers.py:177 | parsing is the prefix, then line i, then the rest |
| InfraParsers.LastSetWins | src/assistant_to_the_assistant/project_indexer/infrastructure_parsers.py:183-210 | base image, workdir and user take the value from the last line that sets them |
| InfraParsers.IgnoredLineIrrelevant | src/assistant_to_the_assistant/project_indexer/infrastructure_parsers.py:179-213 | deleting a blank, comment or unrecognised line changes nothing |
| InfraParsers.DockerfileInfo | src/assistant_to_the_assistant/project_indexer/infrastructure_parsers.py:165-223 | the record keeps the text and holds every line's ports, environment pairs, volumes and run commands in order |
| InfraParsers.ParseDockerfile | src/assistant_to_the_assistant/project_indexer/infrastructure_parsers.py:151-226 | a missing file raises FileNotFoundError, a read failure raises ValueError, otherwise the record of the text |
| InfraParsers.At | src/assistant_to_the_assistant/project_indexer/infrastructure_parsers.py:100-124 | a dict lookup with a default: the bound value when the key is present, else the default |
| InfraParsers.JobDefaults | src/assistant_to_the_assistant/project_indexer/infrastructure_parsers.py:110-124 | each missing job key takes the parser's default: "unknown" stage, "on_success" when, empty lists, no image |
| InfraParsers.CollectServices | src/assistant_to_the_assistant/project_indexer/infrastructure_parsers.py:129-130 | collecting services succeeds iff every truthy services value can be iterated |
| InfraParsers.CiFromDoc | src/assistant_to_the_assistant/project_indexer/infrastructure_parsers.py:95-140 | a falsy document gives {}; a non-mapping raises; otherwise the jobs are the mapping-valued non-reserved keys, counted, with the stages and distinct services |
| InfraParsers.Rewrap | src/assistant_to_the_assistant/project_indexer/infrastructure_parsers.py:143-144 | a failure is re-raised as ValueError, a success is kept |
| InfraParsers.Load | src/assistant_to_the_assistant/project_indexer/infrastructure_parsers.py:90-96 | a missing file raises FileNotFoundError; decoding succeeds only on readable, well-formed text |
| InfraParsers.Shape | src/assistant_to_the_assistant/project_indexer/infrastructure_parsers.py:141-144 | a missing file propagates as is; every other failure becomes ValueError |
| InfraParsers.ParseGitLabCi | src/assistant_to_the_assistant/project_indexer/infrastructure_parsers.py:79-144 | a missing file raises FileNotFoundError; success means the YAML decoded and the CI record built from it |
| InfraParsers.InstanceOf | src/assistant_to_the_assistant/project_indexer/infrastructure_parsers.py:49-53 | an instance is read iff it is a mapping |
| InfraParsers.ResourceOf | src/assistant_to_the_assistant/project_indexer/infrastructure_parsers.py:39-57 | type, name and provider default to "unknown"; a resource without instances lists none |
| InfraParsers.TfFromDoc | src/assistant_to_the_assistant/project_indexer/infrastructure_parsers.py:33-67 | a non-mapping fails; version and Terraform version default to "unknown"; the count equals the resources; missing resources give none |
| InfraParsers.ParseTerraform | src/assistant_to_the_assistant/project_indexer/infrastructure_parsers.py:16-72 | a missing file raises FileNotFoundError; success means the JSON decoded and the state built from it |
| InfraParsers.ServiceOf | src/assistant_to_the_assistant/project_indexer/infrastructure_parsers.py:256-268 | a service is read iff its configuration is a mapping |
| InfraParsers.ServicesOf | src/assistant_to_the_assistant/project_indexer/infrastructure_parsers.py:256-268 | the services are listed by name in document order |
| InfraParsers.ComposeFromDoc | src/assistant_to_the_assistant/project_indexer/infrastructure_parsers.py:243-276 | a falsy document gives {}; a non-mapping raises; otherwise the services are the "services" mapping's entries in order, counted |
| InfraParsers.ParseCompose | src/assistant_to_the_assistant/project_indexer/infrastructure_parsers.py:229-280 | a missing file raises FileNotFoundError; success means the YAML decoded and the compose record built from it |
| InfraParsers.EcsFromDoc | src/assistant_to_the_assistant/project_indexer/infrastructure_parsers.py:297-306 | succeeds iff the document is a mapping; family, container definitions and compatibilities are read with their defaults |
| InfraParsers.ParseEcs | src/assistant_to_the_assistant/project_indexer/infrastructure_parsers.py:287-308 | a missing file raises FileNotFoundError; success iff the text decodes to a JSON mapping |
| InfraParsers.CfFromDoc | src/assistant_to_the_assistant/project_indexer/infrastructure_parsers.py:327-333 | succeeds iff the document is a mapping whose resources have a length; the count is that length |
| InfraParsers.YamlOrJson | src/assistant_to_the_assistant/project_indexer/infrastructure_parsers.py:318-325 | YAML is tried first and JSON only on text YAML rejects |
| InfraParsers.ParseCloudFormation | src/assistant_to_the_assistant/project_indexer/infrastructure_parsers.py:311-335 | a missing file raises FileNotFoundError; otherwise the template decoded as YAML, or as JSON when YAML rejects it |
| InfraParsers.Route | src/assistant_to_the_assistant/project_indexer/infrastructure_parsers.py:373-382 | an absent path or missing file leaves the slot empty without error; a success fills it; any other failure records the message |
| InfraParsers.ParseAll | src/assistant_to_the_assistant/project_indexer/infrastructure_parsers.py:347-434 | each parser runs on its own path and its outcome lands in its own slot only |
| RepoCrawler.Before | src/assistant_to_the_assistant/project_indexer/repository_crawler.py:96 | the text up to, not including, the first character failing the test, which is a prefix of the input |
| RepoCrawler.BeforeExact | src/assistant_to_the_assistant/project_indexer/repository_crawler.py:96 | the cut falls exactly at the first character failing the test |
| RepoCrawler.SchemeOf | src/assistant_to_the_assistant/project_indexer/repository_crawler.py:87 | without a scheme the remainder is the whole URL |
| RepoCrawler.SchemeOfExact | src/assistant_to_the_assistant/project_indexer/repository_crawler.py:87 | a lower-case scheme before ":" is split off exactly |
| RepoCrawler.NetlocOf | src/assistant_to_the_assistant/project_indexer/repository_crawler.py:87 | the network location holds no "/", "?" or "#" |
| RepoCrawler.NetlocOfExact | src/assistant_to_the_assistant/project_indexer/repository_crawler.py:87 | "//host/path" splits into the host and the path |
| RepoCrawler.PathOf | src/assistant_to_the_assistant/project_indexer/repository_crawler.py:87 | the path holds no query or fragment character |
| RepoCrawler.PathOfExact | src/assistant_to_the_assistant/project_indexer/repository_crawler.py:87 | a path without query or fragment is kept as it is |
| RepoCrawler.SplitUrl | src/assistant_to_the_assistant/project_indexer/repository_crawler.py:87 | the split host and path hold no characters that would end them |
| RepoCrawler.SplitUrlRoundTrip | src/assistant_to_the_assistant/project_indexer/repository_crawler.py:87 | a URL built from a scheme, host and path splits back into them |
| RepoCrawler.ParseGitLabUrl | src/assistant_to_the_assistant/project_indexer/repository_crawler.py:85-108 | the full URL is kept; an SSH URL's host and path hold no ":"; another URL's host is its network location and its path is no longer than the split path |
| RepoCrawler.AbsentAcross | src/assistant_to_the_assistant/project_indexer/repository_crawler.py:96 | a string absent from both sides of a separator it lacks is absent from the joined text |
| RepoCrawler.AbsentBeforeTail | src/assistant_to_the_assistant/project_indexer/repository_crawler.py:96 | a string whose last character the tail lacks is absent from the text plus the tail when absent from the text |
| RepoCrawler.DropGitSuffix | src/assistant_to_the_assistant/project_indexer/repository_crawler.py:96 | removing ".git" from a name ending in it gives the name when it holds no other ".git" |
| RepoCrawler.SshRoundTrip | src/assistant_to_the_assistant/project_indexer/repository_crawler.py:94-98 | "git@host:path.git" parses back into the host and path |
| RepoCrawler.HttpsSplit | src/assistant_to_the_assistant/project_indexer/repository_crawler.py:87 | an "https://" URL splits into "https", its host and its path |
| RepoCrawler.HttpsRoundTrip | src/assistant_to_the_assistant/project_indexer/repository_crawler.py:99-102 | "https://host/path" parses back into the host and path |
| RepoCrawler.ParseOtherUrl | src/assistant_to_the_assistant/project_indexer/repository_crawler.py:99-102 | a non-SSH URL is parsed from its split parts alone |
| RepoCrawler.CloneUrl | src/assistant_to_the_assistant/project_indexer/repository_crawler.py:115-120 | without a token or an HTTPS URL, git gets the URL unchanged |
| RepoCrawler.TokenInjected | src/assistant_to_the_assistant/project_indexer/repository_crawler.py:118-120 | with a token, "oauth2:<token>@" lands between the scheme and the host, and the rest is kept |
| RepoCrawler.CloneUrlWithToken | src/assistant_to_the_assistant/project_indexer/repository_crawler.py:118-120 | with a token an HTTPS URL is rebuilt from its scheme, network location and path |
| RepoCrawler.CloneCommand | src/assistant_to_the_assistant/project_indexer/repository_crawler.py:124-129 | the command is "git clone --depth 1", then "-b branch" when a branch is given, then the URL and the directory |
| RepoCrawler.NewCrawler | src/assistant_to_the_assistant/project_indexer/repository_crawler.py:72-87 | construction fails iff the URL's network location holds one square bracket without the other; otherwise the crawler has no directory and holds the URL, token, branch and parsed URL |
| RepoCrawler.OpenBracketRejected | src/assistant_to_the_assistant/project_indexer/repository_crawler.py:83-87 | an "https://" URL whose host has "[" but no "]" makes no crawler |
| RepoCrawler.CreateCrawler | src/assistant_to_the_assistant/project_indexer/repository_crawler.py:227-254 | every URL gets a GitLab crawler, or the constructor's failure |
| RepoCrawler.Cleanup | src/assistant_to_the_assistant/project_indexer/repository_crawler.py:42-45 | an existing directory is removed and forgotten; without one nothing changes |
| RepoCrawler.CleanupIdempotent | src/assistant_to_the_assistant/project_indexer/repository_crawler.py:42-45 | cleaning up twice is cleaning up once |
| RepoCrawler.Clone | src/assistant_to_the_assistant/project_indexer/repository_crawler.py:110-145 | the clone succeeds iff git does, returning the recorded directory; on failure the directory is cleaned up and a ValueError raised |
| RepoCrawler.FirstPattern | src/assistant_to_the_assistant/project_indexer/repository_crawler.py:178-182 | the first pattern naming an existing file, with none before it |
| RepoCrawler.FirstExisting | src/assistant_to_the_assistant/project_indexer/repository_crawler.py:173-182 | nothing iff no pattern names an existing file; otherwise the path of the first that does |
| RepoCrawler.Walk | src/assistant_to_the_assistant/project_indexer/repository_crawler.py:196-207 | a found path leads to the name through non-ignored directories; a name in the top directory is found there first |
| RepoCrawler.WalkFrom | src/assistant_to_the_assistant/project_indexer/repository_crawler.py:200-205 | a found path enters a non-ignored sub-directory and leads to the name from there |
| RepoCrawler.WalkFromFirst | src/assistant_to_the_assistant/project_indexer/repository_crawler.py:200-205 | the walk descends into the first non-ignored sub-directory that holds the name somewhere below it; no earlier non-ignored sub-directory holds it |
| RepoCrawler.WalkComplete | src/assistant_to_the_assistant/project_indexer/repository_crawler.py:196-207 | whenever the name is reachable without entering an ignored directory, the walk finds it |
| RepoCrawler.FindRecursive | src/assistant_to_the_assistant/project_indexer/repository_crawler.py:196-207 | a path is found iff the name is reachable without entering an ignored directory; the path is the root joined with the directories of the walk's first hit and the name, so a name in the root itself gives root/name |
| RepoCrawler.WithFallback | src/assistant_to_the_assistant/project_indexer/repository_crawler.py:184-192 | the listed locations first, then the recursive search |
| RepoCrawler.DiscoverFiles | src/assistant_to_the_assistant/project_indexer/repository_crawler.py:147-194 | succeeds iff the given or cloned directory exists; Terraform is never discovered; CI, Dockerfile and compose fall back to the recursive search, ECS and CloudFormation do not |
| RepoCrawler.GetFileContent | src/assistant_to_the_assistant/project_indexer/repository_crawler.py:209-220 | the text iff a non-empty path names a readable file |

## Left out

- `_collect_files` (the `os.walk`/`glob` walk with exclusion patterns) is an oracle parameter of `ProjectIndexer.IndexCodebase`, because it only enumerates the file system.
- Python's `ast` parsing is an oracle returning the walk's import nodes, because the parser is not part of the repository.
- Construction of the OpenAI and boto3 clients is left out; the chat service and the S3 download are parameters.
- `datetime.now()` is a `now` parameter, because the clock is outside the model.
- Logging calls are left out; they do not affect results.
- Deleting the temporary S3 download is left out, because it has no effect on the result.
- The PDF and CSV readers (`pypdf`, `csv`) are oracles returning the extracted text or a failure.
- The long literal request texts are carried in `Wording` records (`SourceWording` holds the literals), so the proofs need not carry them.
- InfraIndexer.Llm: the text of each infrastructure section request is the parameter `render`. It stands for the request's f-string wording and the `json.dumps` of the input data embedded in it. The model states which data each request carries (`DeploymentInput`, `ComputeInput` and the item lists), not the text it becomes.
- `mkdir` of output directories is assumed to succeed; only writing the artifact file can fail.
- `str.lower`, `str.upper` and the regular expression class `\w` are modelled on ASCII letters, digits and `_`. Unicode case mapping is not modelled.
- JSON and YAML decoding are oracles returning a decoded document or failure, because the decoders are library code.
- Exception types are collapsed to the two the code distinguishes: `NotFound` (FileNotFoundError) and `Invalid` (everything else, including ValueError, TypeError, KeyError and AttributeError).
- The text encoding of `read_text` and `errors='ignore'` are left out; a read yields text or fails.
- The resource manager and storage layer (project_resources/), the CLI and the HTTP API are left out: they are I/O wrappers around the modelled operations.
- The `PromptBuilderConfig` class is left out, because nothing in the code uses it.
- `RepoCrawler.Walk` follows the tree given as a datatype and ignores symbolic links and `os.walk` errors, which the crawler does not handle either.
- RepoCrawler.SplitUrl: models `urlparse` for scheme, network location and path, and drops the query and fragment from the path. It does not remove tab, CR and LF or strip leading control characters and spaces first, as recent Python versions do. It keeps ";params" in the path for the schemes where `urlparse` splits them off. It does not run the bracketed-host (IPv6) validation, whose behaviour varies with the Python version. The one `urlparse` failure the model has, a network location with one square bracket but not the other, is checked by its two callers, `RepoCrawler.NewCrawler` and `BusinessIndexer.ReadFromS3`.
- InfraIndexer.CicdSection: the `json.dumps` of the CI data has no `default=str` and runs outside the `try`, so a YAML value JSON cannot represent (a date, for instance) raises TypeError and fails the whole run. The model's `Json` values are always serialisable, so this failure is not modelled.
