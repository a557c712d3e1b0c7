# Repository skill scanner, modelled in Dafny

This project models the classification engine of `repo_skill_scanner.py`.
That script scans a list of Git repositories and infers the "skills"
(technologies) each one uses. Its output has three tiers per category:

- candidate: every label the tokens of the repository map to;
- accepted: the label of a token with strong evidence;
- possible: the label of a token with weak evidence.

The accepted tiers of all repositories are then rolled up into one
category map and a list of summary lines.

The pieces, one Dafny module each:

- `Taxonomy`: the keyword table, the package table, the manifest file names
  and the extension-to-language map. The two tables are ordered sequences
  of `(key, label, category)` rows in source order.
- `Text` and `Order`: the Python string methods the script relies on: ASCII
  `lower`, `in`, `startswith`, `split(...)[0]`, `split(...)[-1]`, `rstrip`,
  `strip` and `replace` of one character. `Order` also holds code-point
  order and `sorted(set(...))`.
- `Matching`: `keyword_present` and `map_token_to_skill`. The second is both
  a function and the loop method proved against it.
- `Extractors`: the post-processing of the import captures for Python,
  JavaScript and Java, `normalize_js_pkg`, and the manifest tokenizer.
- `ScanSpec`: what the file walk of `scan_repo` gathers, stated as a pure
  fold over the files in walk order.
- `Scanner`: the walk as methods with loops, proved equal to that fold.
- `Classifier`: the token universe, the candidate skills, each token's first
  mapping and the promotion rule, over sets of skills.
- `Repo`: the whole record `scan_repo` returns (`RecordOf`), the methods
  `ScanRepoWith` and `ScanRepo` that build it with the source's loops, and
  the properties of the record.
- `Aggregate`: `aggregate_results` and `generate_resume_bullets`.
- `JsonSafe`: `make_json_safe` over a small JSON value type, and what it
  does to the results document of `main`.
- `Inputs`: the repository name derived from a URL, and the parsing of the
  repository list.
- `Scenarios`: concrete consequences of the real tables.

The scanner's specification is stated for any tables (`ScanSpec.Tables`).
`Repo.ScanRepo` instantiates it with the program's own tables
(`ScanSpec.Standard`).

## Model

| member | source | states |
|---|---|---|
| Text.Lower | repo_skill_scanner.py:276 | lowering a character gives no upper-case letter and keeps every other character |
| Text.LowerStr | repo_skill_scanner.py:344 | `str.lower` keeps the length, maps each character by `Lower`, and gives lower-case text |
| Text.LowerOfLowerCase | repo_skill_scanner.py:276 | lowering text that is already lower case leaves it unchanged |
| Text.LowerIdempotent | repo_skill_scanner.py:276 | lowering twice is lowering once |
| Text.LowerSet | repo_skill_scanner.py:388-392 | the lowered set holds the lowered form of every member |
| Text.LowerSetOnly | repo_skill_scanner.py:388-392 | conversely, the lowered set holds nothing but lowered forms of members |
| Text.Contains | repo_skill_scanner.py:282 | `key in text` holds exactly when the key occurs at some position of the text |
| Text.ContainsFrom | repo_skill_scanner.py:233 | the search from position i succeeds exactly when the key occurs at some position at or after i |
| Text.StartsWith | repo_skill_scanner.py:249 | `startswith` holds exactly when the prefix occurs at position 0 |
| Text.Split | repo_skill_scanner.py:245 | `split` yields at least one field, and no field holds a separator |
| Text.SplitNoSeparator | repo_skill_scanner.py:245 | text without a separator splits into itself alone |
| Text.SplitAtSeparator | repo_skill_scanner.py:441 | splitting `a + sep + b` is splitting a and then splitting b |
| Text.NonEmpty | repo_skill_scanner.py:441 | the filter keeps exactly the non-empty strings of its input |
| Text.NonEmptyAppend | repo_skill_scanner.py:441 | filtering a concatenation is concatenating the filtered parts |
| Text.FirstField | repo_skill_scanner.py:245 | `split(sep)[0]` holds no separator |
| Text.FirstFieldIsPrefix | repo_skill_scanner.py:245 | the first field is a prefix of the text, and the text ends there or a separator follows |
| Text.FirstFieldWhole | repo_skill_scanner.py:249 | the first field is the whole text exactly when the text holds no separator |
| Text.FirstFieldIdempotent | repo_skill_scanner.py:249 | taking the first field twice is taking it once |
| Text.LastField | repo_skill_scanner.py:288 | `split(sep)[-1]` holds no separator |
| Text.LastFieldAfterSeparator | repo_skill_scanner.py:288 | the last field of `a + sep + b` is the last field of b |
| Text.TrimStart | repo_skill_scanner.py:441 | the result is a suffix of the text, everything dropped is droppable, and the result does not start with a droppable character |
| Text.TrimEnd | repo_skill_scanner.py:288 | `rstrip` gives a prefix of the text, everything dropped is droppable, and the result does not end with a droppable character |
| Text.StripSlice | repo_skill_scanner.py:441 | `strip` gives a contiguous slice of the text |
| Text.StripEnds | repo_skill_scanner.py:441 | a stripped line is empty or starts and ends with a non-space character |
| Text.StripKeepsAbsence | repo_skill_scanner.py:441 | stripping adds no character the line did not hold |
| Text.StripIdempotent | repo_skill_scanner.py:441 | stripping twice is stripping once |
| Text.ReplaceChar | repo_skill_scanner.py:334 | `replace` of one character keeps the length, and no occurrence of the old character remains when the new one differs |
| Order.LessIrreflexive | repo_skill_scanner.py:412-418 | the order `sorted` uses is irreflexive |
| Order.LessTransitive | repo_skill_scanner.py:412-418 | that order is transitive |
| Order.LessTotal | repo_skill_scanner.py:412-418 | that order is total on distinct strings |
| Order.LessAsymmetric | repo_skill_scanner.py:412-418 | that order is asymmetric |
| Order.LeastExists | repo_skill_scanner.py:412-418 | every non-empty set of strings has a least member |
| Order.LeastUnique | repo_skill_scanner.py:412-418 | the least member is unique |
| Order.SortSet | repo_skill_scanner.py:412-418 | `sorted` of a set is strictly increasing, holds exactly the members of the set, and has the set's size |
| Order.SortedUnique | repo_skill_scanner.py:412-418 | two strictly increasing lists with the same members are equal |
| Order.SortSetOfSorted | repo_skill_scanner.py:271 | sorting the members of a strictly increasing list gives that list back |
| Order.Dedup | repo_skill_scanner.py:384 | `sorted(set(v))` is strictly increasing and holds exactly the members of v |
| Matching.FindWholeWord | repo_skill_scanner.py:232 | the search succeeds exactly when the key occurs as a whole word at some position at or after i |
| Matching.KeywordPresent | repo_skill_scanner.py:230-233 | a key of at most four characters matches exactly when it occurs with a `\b` word boundary at both of its ends; a longer key matches exactly when it is a substring |
| Matching.WholeWordOfWordKey | repo_skill_scanner.py:232 | for a key that starts and ends with word characters, a whole-word match is an occurrence with a non-word character or an end of text on each side |
| Matching.ShortKeyNotInsideWord | repo_skill_scanner.py:230-233 | the short key `mpi` is not found inside `compile` |
| Matching.ShortKeyAsWord | repo_skill_scanner.py:230-233 | `mpi` is found as a word, and the long key `redis` is found inside another word |
| Matching.PackageKeyMatchesIff | repo_skill_scanner.py:279 | a package key matches a token exactly when the token equals the key or starts with the key followed by `-`, `_` or `.` |
| Matching.PackageKeyMismatch | repo_skill_scanner.py:279 | a token that differs from the key inside the key's length does not match |
| Matching.SelectSnoc | repo_skill_scanner.py:278-283 | selection over a table extended by one row adds that row exactly when it applies |
| Matching.SelectMembers | repo_skill_scanner.py:278-283 | a row is selected exactly when it is in the table and its key applies |
| Matching.SelectOrder | repo_skill_scanner.py:278-283 | the selected rows are the applying rows in table order, each taken once |
| Matching.SelectFirst | repo_skill_scanner.py:278-283 | the first selected row is the first row that applies |
| Matching.MappingsMembers | repo_skill_scanner.py:275-284 | a skill is in the mapping of a token exactly when a package row whose key matches, or a keyword row whose key is a substring, carries it |
| Matching.MappingsFirst | repo_skill_scanner.py:275-284 | when the first matching package row is row i, the mapping is non-empty and starts with that row's skill |
| Matching.TokenSkillsMembers | repo_skill_scanner.py:275-284 | the same membership rule over the program's own tables, for the lowered token |
| Matching.SelectedSkillsStep | repo_skill_scanner.py:278-283 | the skills selected from the first i+1 rows are those of the first i rows, plus row i when it applies |
| Matching.AppendMatches | repo_skill_scanner.py:278-283 | the loop over a table appends the skills of the rows the rule selects, in table order |
| Matching.MapToken | repo_skill_scanner.py:275-284 | the two loops build the mapping of the lowered token: package hits first, then keyword hits |
| Matching.MapTokenToSkill | repo_skill_scanner.py:275-284 | `map_token_to_skill` over the program's own tables |
| Extractors.ExtractPy | repo_skill_scanner.py:244-245 | every extracted name is dot-free; the part of each capture before its first dot is extracted; every extracted name comes from some capture |
| Extractors.ExtractPyLeading | repo_skill_scanner.py:245 | every extracted name is a leading segment of some capture that ends there or before a dot |
| Extractors.NormalizeJsPkg | repo_skill_scanner.py:248-249 | a scoped name (starting with `@`) is kept whole; any other name is cut to the slash-free prefix before its first slash, or kept whole when it has none |
| Extractors.NormalizeJsPkgIdempotent | repo_skill_scanner.py:248-249 | normalizing twice is normalizing once |
| Extractors.NormalizedSnoc | repo_skill_scanner.py:252-258 | one more capture adds exactly its normalized name |
| Extractors.ExtractJs | repo_skill_scanner.py:252-258 | the loops over the `from` captures and the `require` captures collect the normalized name of every capture |
| Extractors.JsPackagesShape | repo_skill_scanner.py:252-258 | every package name is a prefix of some capture that is the whole capture, starts with `@`, or is cut at the capture's first slash |
| Extractors.LowerHead | repo_skill_scanner.py:262 | the result is the lowered prefix of the capture before its first dot (the whole capture when it has none), so it is dot-free and lower case |
| Extractors.ExtractJava | repo_skill_scanner.py:261-262 | every extracted name is dot-free and lower case; each capture contributes its lowered first field; nothing else is extracted |
| Extractors.ManifestTokens | repo_skill_scanner.py:348 | every token is a non-empty run of `[a-zA-Z0-9_.-]` characters |
| Extractors.ManifestTokensAtSeparator | repo_skill_scanner.py:348 | a character outside the class splits the text into independent token runs |
| Extractors.ManifestTokensOfRun | repo_skill_scanner.py:348 | a maximal run of token characters is one token |
| Extractors.ManifestTokensOfGap | repo_skill_scanner.py:348 | text with no token character has no token |
| Extractors.SplitKeepsAbsence | repo_skill_scanner.py:348 | splitting adds no character the text did not hold |
| Extractors.ManifestTokensLowerCase | repo_skill_scanner.py:346-348 | the tokens of lowered content are non-empty lower-case runs of `[a-z0-9_.-]` |
| Extractors.ManifestTokensOfTwoLines | repo_skill_scanner.py:348 | two token-only lines give their two tokens in order |
| Extractors.RequirementsExample | repo_skill_scanner.py:348 | `flask\nrequests\n` gives the tokens `flask` and `requests` |
| ScanSpec.RelLower | repo_skill_scanner.py:334 | the normalized path keeps the length, is lower case and holds no backslash |
| ScanSpec.LowerHeads | repo_skill_scanner.py:370 | there is one token per `#include` capture, in order, and each is dot-free and lower case |
| Scanner.LowerHeadsSnoc | repo_skill_scanner.py:368-371 | one more capture appends its lowered first dot-field to the tokens |
| ScanSpec.IncludeTokens | repo_skill_scanner.py:368-371 | include tokens are dot-free and lower case |
| ScanSpec.AddPath | repo_skill_scanner.py:350 | `setdefault(k, []).append(rel)` for each key: the keys grow by the new keys and each list gains the path under exactly those keys |
| ScanSpec.AddNothing | repo_skill_scanner.py:350 | adding a path under no key changes nothing |
| ScanSpec.AddPathUnion | repo_skill_scanner.py:343-381 | adding a path under a and then under b is adding it under a ∪ b |
| ScanSpec.PathMap | repo_skill_scanner.py:323-381 | the keys of `packages_found` after the walk are exactly the keys some file produced |
| ScanSpec.CollectedSnoc | repo_skill_scanner.py:323-381 | one more file adds exactly its keys |
| ScanSpec.PathsAfterSnoc | repo_skill_scanner.py:323-381 | one more file adds its path under exactly its keys |
| ScanSpec.PathsAfterNonEmpty | repo_skill_scanner.py:350 | a key is present exactly when at least one path was recorded for it |
| ScanSpec.AddFile | repo_skill_scanner.py:323-381 | the path map after one more file is the old map with that file's path added under its keys |
| ScanSpec.FilePaths | repo_skill_scanner.py:335 | `file_paths` holds one path per file, in walk order, each lower case and free of backslashes |
| ScanSpec.WalkSnoc | repo_skill_scanner.py:323-381 | the walk over one more file is one more step |
| ScanSpec.SummarySnoc | repo_skill_scanner.py:323-381 | the closed-form summary of the walk also takes exactly one step per file |
| ScanSpec.WalkIsSummary | repo_skill_scanner.py:323-381 | the step-by-step walk equals the closed form: counts, paths, extension and language sets, token and import sets, and the two path maps |
| ScanSpec.SummaryEvidence | repo_skill_scanner.py:388-407 | the evidence the classifier reads is the one gathered by the walk |
| ScanSpec.ManifestTokensWellFormed | repo_skill_scanner.py:346-349 | every manifest token of a scan is a non-empty lower-case run of `[a-z0-9_.-]` |
| ScanSpec.KeysCover | repo_skill_scanner.py:388-392 | every manifest token and every import is also a key of `packages_found`, so `packages_found` alone spans the token universe |
| ScanSpec.TwoPaths | repo_skill_scanner.py:406 | a key produced by two files with different paths has at least two distinct paths |
| ScanSpec.TwoFilesSeen | repo_skill_scanner.py:402-407 | such a key counts as seen, and a lower-case one is in the token universe |
| Scanner.ElemsSnoc | repo_skill_scanner.py:350 | appending a path adds exactly that path to the list's members |
| Scanner.AppendAdds | repo_skill_scanner.py:350 | appending under one more key is adding the path under one more key |
| Scanner.AppendOne | repo_skill_scanner.py:350 | one append, read as sets, is `AddPath` with one key |
| Scanner.AppendAllSnoc | repo_skill_scanner.py:349-350 | appending under one more key in a sequence of keys is one more append |
| Scanner.AppendAllPaths | repo_skill_scanner.py:349-350 | appending a path under a sequence of keys, read as sets, adds it under exactly those keys |
| Scanner.RowsSnoc | repo_skill_scanner.py:373-381 | a table extended by one row has one more key and one more label |
| Scanner.AddTokens | repo_skill_scanner.py:348-350 | the token loop adds every token to `manifest_tokens` and appends the path under every token |
| Scanner.AddImports | repo_skill_scanner.py:353-366 | the import loop adds the imports to `imports_found` and appends the path under each of them, in some order of the set |
| Scanner.ImportsStep | repo_skill_scanner.py:353-366 | one iteration of the import loop keeps its invariant |
| Scanner.AddIncludes | repo_skill_scanner.py:368-371 | the include loop appends the path under each capture's lowered first field |
| Scanner.ScanTable | repo_skill_scanner.py:373-381 | the table loop appends the path under the key and under the label of every row that matches the content or the path |
| Scanner.ScanManifest | repo_skill_scanner.py:347-351 | a manifest file adds its tokens and the pseudo-label `manifests`; any other file adds nothing |
| Scanner.ScanImports | repo_skill_scanner.py:353-366 | the import branches add the file's imports, chosen by its extension |
| Scanner.ScanIncludes | repo_skill_scanner.py:368-371 | a C or C++ file adds its include tokens to `packages_found` only, not to `imports_found` |
| Scanner.ScanFileTable | repo_skill_scanner.py:373-381 | one table adds the keys and labels of the rows that hit the file |
| Scanner.ScanContent | repo_skill_scanner.py:343-381 | the content part of one file: `packages_found`, `evidence`, tokens and imports each grow by that file's contribution |
| Scanner.ScanExtension | repo_skill_scanner.py:337-341 | a non-empty extension is recorded, and its language too when the table knows it |
| Scanner.StepOf | repo_skill_scanner.py:329-381 | field-wise effects that match one file's contribution make one step of the walk |
| Scanner.WalkFile | repo_skill_scanner.py:329-381 | the body of the file loop performs one step of the walk |
| Scanner.WalkFiles | repo_skill_scanner.py:323-381 | the file loop computes the walk over the files in order |
| Classifier.CandidatesStep | repo_skill_scanner.py:397-399 | one more token adds exactly the skills it maps to |
| Classifier.FirstsStep | repo_skill_scanner.py:400 | a new token records its first mapping when it has one, and the others stay |
| Classifier.PromotedStep | repo_skill_scanner.py:402-410 | one more recorded token adds its skill to the tier its evidence selects |
| Classifier.Group | repo_skill_scanner.py:398-399 | the categories are those of the skills, and a label is under a category exactly when that skill is in the set |
| Classifier.GroupAdd | repo_skill_scanner.py:399 | `setdefault(category, set()).add(label)` on the grouping is grouping the enlarged set |
| Classifier.CategoriesAdd | repo_skill_scanner.py:399 | adding a skill adds exactly its category |
| Classifier.GroupAddAt | repo_skill_scanner.py:399 | the same, category by category |
| Classifier.SortValues | repo_skill_scanner.py:412-416 | `{k: sorted(v)}` keeps the keys, sorts every list strictly and keeps its members |
| Classifier.Tier | repo_skill_scanner.py:412-414 | a tier map has the skills' categories as keys and strictly sorted lists |
| Classifier.InTier | repo_skill_scanner.py:412-414 | a skill is listed in the tier exactly when it is in the set |
| Classifier.TiersExactly | repo_skill_scanner.py:394-414 | accepted lists exactly the first mappings of seen tokens, possible those of unseen tokens, and candidate every mapping of every token |
| Classifier.PromotedExactly | repo_skill_scanner.py:402-410 | a skill is promoted to a tier exactly when it is the first mapping of a token with the tier's evidence |
| Classifier.PromotionRule | repo_skill_scanner.py:402-410 | a token's first mapping is accepted when the token is seen and possible when it is not |
| Classifier.TierMonotone | repo_skill_scanner.py:412-414 | a subset of skills gives a tier map within the other's |
| Classifier.TiersWithinCandidates | repo_skill_scanner.py:394-410 | under every category, the accepted and the possible labels are candidate labels |
| Classifier.PathsOnly | repo_skill_scanner.py:402-410 | without imports and manifest tokens, a token is accepted with two distinct paths and possible with fewer |
| Classifier.SingleToken | repo_skill_scanner.py:394-410 | with one token, its first mapping is the only tiered skill, in the tier its evidence selects, and its candidates are its mappings |
| Classifier.CategoriesOfOne | repo_skill_scanner.py:399 | a set of at most one skill has at most its category |
| Classifier.OnlyFirstTiered | repo_skill_scanner.py:400 | a later mapping in another category is a candidate, but neither accepted nor possible |
| Classifier.StrongSignalsAccepted | repo_skill_scanner.py:403-407 | an import, a manifest token or two distinct paths make the token's first mapping accepted |
| Repo.AddMappings | repo_skill_scanner.py:398-400 | the inner loop adds every mapping of the token to the candidates and records its first mapping once |
| Repo.CandidateToken | repo_skill_scanner.py:397-400 | one iteration of the candidate loop keeps the candidates and first mappings equal to those of the tokens done |
| Repo.CandidateLoop | repo_skill_scanner.py:397-400 | the candidate loop computes the candidates and the first mappings of the whole universe |
| Repo.SetStep | repo_skill_scanner.py:397-410 | moving one element from the rest to the done set keeps the partition and shrinks the rest |
| Repo.TierStep | repo_skill_scanner.py:402-410 | one iteration of the tier loop adds the token's skill to exactly the tier its evidence selects |
| Repo.TierLoop | repo_skill_scanner.py:402-410 | the tier loop computes the accepted and the possible groupings |
| Repo.ScanRepoWith | repo_skill_scanner.py:287-420 | the method builds exactly the record `RecordOf` describes, for any tables, with the repository name derived as written at line 288 |
| Repo.ScanRepo | repo_skill_scanner.py:287-420 | `scan_repo` with the program's own tables |
| Repo.CloneFailed | repo_skill_scanner.py:309-319 | a failed clone gives `cloned` false, the one error, no files, no paths and three empty tier maps |
| Repo.CloneSucceeded | repo_skill_scanner.py:309-316 | a successful clone gives `cloned` true and no error |
| Repo.RecordPaths | repo_skill_scanner.py:329-335 | `files_scanned` equals the length of `file_paths`, on both outcomes |
| Repo.ClassifiedSorted | repo_skill_scanner.py:383-418 | every list of a classified record is strictly sorted: languages, imports, tokens, and every list of the five maps |
| Repo.RecordSorted | repo_skill_scanner.py:383-418 | every list of every record is sorted and free of duplicates |
| Repo.ClassifiedLists | repo_skill_scanner.py:412-418 | the lists of a classified record hold exactly the members of the gathered sets |
| Repo.RecordContents | repo_skill_scanner.py:412-418 | languages, imports and tokens hold exactly what the walk gathered, and the extensions are the walk's |
| Repo.ClassifiedPaths | repo_skill_scanner.py:383-416 | under every key, the sorted lists hold exactly the gathered paths |
| Repo.RecordPackagePaths | repo_skill_scanner.py:416 | a key of `packages_found` is a key some file produced, and its list holds exactly the paths of those files |
| Repo.RecordEvidencePaths | repo_skill_scanner.py:383-384 | the same for `evidence` and the labels |
| Repo.ClassifiedTokens | repo_skill_scanner.py:418 | the sorted token list keeps the shape of the tokens |
| Repo.RecordTokensWellFormed | repo_skill_scanner.py:346-418 | every manifest token of every record is a non-empty lower-case run of `[a-z0-9_.-]` |
| Repo.ClassifiedTiers | repo_skill_scanner.py:394-414 | the three tiers of a classified record are the tiers of its evidence |
| Repo.RecordTierSets | repo_skill_scanner.py:388-414 | the three tiers of a record are the tiers of the evidence its files give |
| Repo.TiersOfRecord | repo_skill_scanner.py:394-414 | in a so-tiered record, a skill is accepted, possible or candidate exactly as the promotion rule says |
| Repo.RecordAccepted | repo_skill_scanner.py:402-413 | a skill is accepted exactly when it is the first mapping of a seen token of the scan |
| Repo.RecordPossible | repo_skill_scanner.py:402-414 | a skill is possible exactly when it is the first mapping of an unseen token of the scan |
| Repo.RecordCandidate | repo_skill_scanner.py:394-412 | a skill is a candidate exactly when some token of the scan maps to it |
| Repo.NestedOfTiered | repo_skill_scanner.py:394-410 | tiers that follow the promotion rule lie within the candidates |
| Repo.RecordTiersWithinCandidates | repo_skill_scanner.py:394-414 | in every record, the accepted and the possible tiers lie within the candidate tier |
| Repo.TwoFilesAccepted | repo_skill_scanner.py:402-410 | a key found in two files with different paths has its first mapping accepted |
| Repo.RecordTwoFiles | repo_skill_scanner.py:402-413 | the same, in the record of a successful scan |
| Repo.CSourcesNoSignals | repo_skill_scanner.py:353-371 | a scan of C sources with no manifest gives no imports and no manifest tokens |
| Repo.CSourcesTiers | repo_skill_scanner.py:368-410 | then a token is accepted only with two distinct paths, and is possible otherwise |
| Repo.RecordCSourcesAccepted | repo_skill_scanner.py:368-413 | in the record: an include token in two distinct files is accepted |
| Repo.RecordCSourcesPossible | repo_skill_scanner.py:368-414 | in the record: an include token in fewer than two files is possible |
| Aggregate.MergeRecord | repo_skill_scanner.py:425-426 | the loop over one record's accepted map merges every category's labels into the aggregate |
| Aggregate.MergeOnNothing | repo_skill_scanner.py:425-426 | merging no category changes nothing |
| Aggregate.MergeStep | repo_skill_scanner.py:426 | merging one more category is one `setdefault(cat, set()).update(skills)` |
| Aggregate.AggregateResults | repo_skill_scanner.py:423-428 | the method computes the sorted merge of all records' accepted maps |
| Aggregate.MergedCategories | repo_skill_scanner.py:423-428 | a category is aggregated exactly when some record's accepted map has it |
| Aggregate.MergedNames | repo_skill_scanner.py:423-428 | a label is aggregated under a category exactly when some record accepts it there |
| Aggregate.AggregateListed | repo_skill_scanner.py:423-428 | a skill is in the aggregate exactly when some record accepts it |
| Aggregate.AggregateCategories | repo_skill_scanner.py:423-428 | an aggregated category comes from some record, and its labels are sorted and free of duplicates |
| Aggregate.AggregateEmptyRecord | repo_skill_scanner.py:425 | a record without an accepted map, or with an empty one, contributes nothing |
| Aggregate.AcceptsRecords | repo_skill_scanner.py:423-428 | accepting through the maps is accepting through some record |
| Aggregate.AggregateOfRecords | repo_skill_scanner.py:423-428 | a skill is aggregated exactly when it is in some record's accepted tier, so labels only possible or candidate never appear |
| Aggregate.AggregateOfTiered | repo_skill_scanner.py:423-428 | over records tiered by their evidence, a skill is aggregated exactly when it is the first mapping of a seen token in some repository |
| Aggregate.FailedTiered | repo_skill_scanner.py:309-319 | a failed clone's record has the tiers of no evidence |
| Aggregate.NoEvidenceNothingPromoted | repo_skill_scanner.py:309-319 | no evidence promotes no skill, so a failed clone accepts nothing |
| Aggregate.FailedRecordTiered | repo_skill_scanner.py:309-319 | the record built for a failed clone is tiered by no evidence |
| Aggregate.Contributed | repo_skill_scanner.py:447-449 | a repository whose clone succeeded contributes its walk's evidence, and one whose clone failed contributes none |
| Aggregate.PromotedContributed | repo_skill_scanner.py:447-451 | a skill is promoted in the contributed evidence exactly when it is promoted in some repository whose clone succeeded |
| Aggregate.ClonedTiered | repo_skill_scanner.py:447-449 | the record of a scan whose clone succeeded is tiered by its walk's evidence |
| Aggregate.NotClonedTiered | repo_skill_scanner.py:447-449 | the record of a scan whose clone failed is tiered by no evidence |
| Aggregate.AggregateOfScans | repo_skill_scanner.py:447-451 | after scanning every repository, failed clones included, a skill is aggregated exactly when it is promoted to accepted in some repository whose clone succeeded |
| Aggregate.BulletParts | repo_skill_scanner.py:432 | a bullet is the category, `": "`, the labels joined by `", "` and a final `"."` |
| Aggregate.BulletCategory | repo_skill_scanner.py:432 | the text before a bullet's first colon is its category, when the category has no colon |
| Aggregate.BulletsPerCategory | repo_skill_scanner.py:431-432 | in map order, each bullet shows its category's labels, no two bullets share a category, and every category has a bullet |
| JsonSafe.MakeJsonSafeShape | repo_skill_scanner.py:265-272 | a dict keeps its keys, a list its length, a set becomes its sorted list, and any other value is unchanged |
| JsonSafe.SetBecomesSorted | repo_skill_scanner.py:270-271 | a set becomes a list of strictly sorted strings holding exactly its members |
| JsonSafe.MakeJsonSafeNoSets | repo_skill_scanner.py:265-272 | the result holds no set at any depth |
| JsonSafe.MakeJsonSafeFixes | repo_skill_scanner.py:265-272 | a value with no set is unchanged |
| JsonSafe.MakeJsonSafeIdempotent | repo_skill_scanner.py:265-272 | applying it twice is applying it once |
| JsonSafe.FixedValue | repo_skill_scanner.py:290-306 | the eleven fields other than the four set-valued collections hold no set |
| JsonSafe.ItemValue | repo_skill_scanner.py:290-306 | every field of the record except the four set-valued ones holds no set |
| JsonSafe.SortedListOfSet | repo_skill_scanner.py:271 | the set of a sorted list becomes that list again |
| JsonSafe.DictMadeSafe | repo_skill_scanner.py:267 | a dict is made safe entry by entry |
| JsonSafe.ItemMadeSafe | repo_skill_scanner.py:290-306 | each field of the record is made safe as the final record expects |
| JsonSafe.ItemsMadeSafe | repo_skill_scanner.py:290-306 | so are all 15 fields |
| JsonSafe.RecordMadeSafe | repo_skill_scanner.py:290-420 | a sorted record, failed or not, becomes its JSON form with every collection a sorted list |
| JsonSafe.ScanRecordMadeSafe | repo_skill_scanner.py:287-420 | every record `scan_repo` returns is written as that JSON form |
| JsonSafe.ResultsMadeSafe | repo_skill_scanner.py:444-455 | the results document is written with each record in its JSON form, and the aggregate and bullets unchanged |
| Inputs.RemoveAllAbsent | repo_skill_scanner.py:288 | text without the pattern is unchanged |
| Inputs.RemoveAllKeepsPrefix | repo_skill_scanner.py:288 | a prefix without the pattern's first character is kept |
| Inputs.RemoveAllChars | repo_skill_scanner.py:288 | removal only drops characters |
| Inputs.RemoveInnerGit | repo_skill_scanner.py:288 | a `.git` after a dot-free prefix is removed wherever it stands |
| Inputs.RemoveGitOfGithubIo | repo_skill_scanner.py:288 | removing `.git` from `<user>.github.io` gives `<user>hub.io` |
| Inputs.LastSegmentOf | repo_skill_scanner.py:288 | the last segment of `base/name` is `name` |
| Inputs.LastSegmentTrailingSlash | repo_skill_scanner.py:288 | a trailing slash does not change the last segment |
| Inputs.RepoNameAsWrittenInnerGit | repo_skill_scanner.py:288 | as written, the repository `<user>.github.io` is named `<user>hub.io` |
| Inputs.RepoNameAsWrittenOfGitUrl | repo_skill_scanner.py:288 | as written, `base/name.git` with a dot-free name is named `name` |
| Inputs.RepoNameOfSegment | repo_skill_scanner.py:288 | `base/name.git` is named `name`, `base/name` too when the name has no `.git` suffix, and a trailing slash changes nothing |
| Inputs.RepoNameKeepsInnerGit | repo_skill_scanner.py:288 | the intended name of `<user>.github.io` is `<user>.github.io` |
| Inputs.RepoNameAgrees | repo_skill_scanner.py:288 | the two derivations agree on `base/name.git` with a dot-free name |
| Inputs.ParseRepoListAppend | repo_skill_scanner.py:441 | reading two texts joined at a line break is reading each in turn |
| Inputs.ParseRepoListEntries | repo_skill_scanner.py:441 | every entry is a non-empty stripped line, and every line that is not blank gives an entry |
| Scenarios.AzurePipelinesFirst | repo_skill_scanner.py:28-114 | with the real tables, the first mapping of `azure-pipelines` is the package row Azure (Cloud) |
| Scenarios.AzurePipelinesKeyword | repo_skill_scanner.py:116-158 | the keyword row Azure Pipelines (CI/CD) also maps `azure-pipelines` |
| Scenarios.CandidatesExceedTiers | repo_skill_scanner.py:394-410 | a candidate category can be in neither the accepted nor the possible tier, so candidate is not accepted ∪ possible |

## Left out

- The `git clone` subprocess is left out. Its outcome is the parameter `cloneError` of `Repo.RecordOf`: `None` on success, the error text on failure.
- The `os.walk` traversal and its `.git` pruning are left out. The files the walk reaches are the parameter `files`, in walk order.
- `safe_read` (file I/O and its error fallback) is left out. A file's content is a field of `ScanSpec.FileEntry`.
- The temporary workspace, `shutil.rmtree`, `sys.argv`, the usage message, the progress prints and `json.dump` are left out because they are I/O. `JsonSafe` models the value handed to `json.dump`, not its text.
- The regular expressions themselves are left out: `IMPORT_RE_PY`, `IMPORT_RE_JAVA`, `INCLUDE_RE_C` and the two JavaScript patterns. Their captures are input fields of `FileEntry`, and only the post-processing of the captures is modelled. The manifest token pattern is modelled, by `Extractors.ManifestTokens`.
- `Path(filename).suffix` is left out. The raw suffix is an input field, and the model lowers it.
- `str.lower` is ASCII-only in the model; Python's Unicode case mapping is not modelled. `\b` in `keyword_present` uses ASCII word characters.
- String order is code-point order, as in Python's `sorted` on strings.
- The `all_content` list and `repo_content` (repo_skill_scanner.py:321, 345, 386) are left out because no output depends on them.
- `report_generator.py` is not part of this model. It only prints a JSON file.
- Dict and set iteration order is not modelled. The loops over sets take the elements in an order the method chooses. The classifier's result does not depend on that order because each token's first mapping depends only on table order and the tiers are sets.
- The order of dict entries in the JSON output is an input (`JsonSafe.MapItems`), related to the record by `JsonSafe.ItemsOfRecord`. The order of the bullets is likewise the order of the items given to `Aggregate.Bullets`.
- `packages_found` and `evidence` keep one list entry per hit, with repeats, before the final `sorted(set(...))`. The specification functions state these lists by their sets of paths. Every reader of the lists (the promotion test and the final record) takes their set, so nothing observable is lost.
- The scan is modelled as methods over local variables and value results, not as a class. The source's `result` dict is local to one call of `scan_repo`, and the model returns the record as a value.
- In `JsonSafe.Value`, sets can hold only strings. Those are the only sets the results document contains.
- Scanner.AddImports: the order in which a set of imports is appended is an out-parameter `order`, with its members stated but not its order. The path lists are compared as sets, so that order does not matter.

## Findings

| source | as written | input that shows it | evidently intended | confidence | as-written member | corrected member |
|---|---|---|---|---|---|---|
| repo_skill_scanner.py:288 | `.replace(".git", "")` removes every `.git` in the last path segment | `https://github.com/user/user.github.io` is named `userhub.io` | remove only a trailing `.git` suffix, which names it `user.github.io` | high (not executed) | Inputs.RepoNameAsWritten, Inputs.RepoNameAsWrittenInnerGit | Inputs.RepoName, Inputs.RepoNameOfSegment, Inputs.RepoNameKeepsInnerGit |

`Repo.RecordOf`, and so every scan, uses the name as written (`Inputs.RepoNameAsWritten`); the corrected `Inputs.RepoName` is defined and proved beside it. On the usual URL `base/name.git`, where the name has no dot, the two derivations agree (`Inputs.RepoNameAgrees`).
