/** `scan_repo` from end to end: the record it returns, as a function of
    the clone URL, the outcome of the clone and the files the walk
    reaches, and the method that builds it step by step. */
module Repo {
  import opened Text
  import opened Order
  import opened Taxonomy
  import opened Matching
  import opened Extractors
  import opened Classifier
  import opened ScanSpec
  import opened Scanner
  import opened Inputs

  datatype Option<T> = None | Some(value: T)

  /** The dictionary `scan_repo` returns. */
  datatype ScanRecord = ScanRecord(
    repoUrl: string,
    repoName: string,
    cloned: bool,
    errors: seq<string>,
    languages: seq<string>,
    packagesFound: map<string, seq<string>>,
    importsFound: seq<string>,
    manifestTokens: seq<string>,
    fileExtensions: set<string>,
    filePaths: seq<string>,
    candidate: map<string, seq<string>>,   // candidate_skills_by_category
    accepted: map<string, seq<string>>,    // accepted_skills_by_category
    possible: map<string, seq<string>>,    // possible_skills_by_category
    evidence: map<string, seq<string>>,
    filesScanned: nat)

  /* ------------------------------------------------------ the record */

  /** The record a failed clone returns: the initial record with the
      error message. */
  function Failed(url: string, name: string, error: string): ScanRecord {
    ScanRecord(url, name, false, [error], [], map[], [], [], {}, [], map[], map[], map[], map[], 0)
  }

  /** The record of a successful clone whose walk gathered `s`, with
      tokens mapped by `lookup`. */
  function Classified(lookup: string -> seq<Skill>, url: string, name: string, s: Fields): ScanRecord {
    var ev := FieldsEvidence(s);
    ScanRecord(url, name, true, [], SortSet(s.languages), SortValues(s.packages), SortSet(s.imports),
               SortSet(s.tokens), s.exts, s.filePaths,
               Tier(CandidateSkills(ev, lookup)), Tier(AcceptedSkills(ev, lookup)),
               Tier(PossibleSkills(ev, lookup)), SortValues(s.evidence), s.filesScanned)
  }

  /** What `scan_repo(url, dest)` returns, over the tables `tx`, when the
      clone ends with `cloneError` (`None` when it succeeds) and the walk
      reaches `files`, in walk order. */
  function RecordOf(tx: Tables, url: string, cloneError: Option<string>, files: seq<FileEntry>): ScanRecord {
    var name := RepoNameAsWritten(url);
    match cloneError
    case Some(e) => Failed(url, name, e)
    case None => Classified(LookupOf(tx), url, name, Summary(tx, files))
  }

  /* ------------------------------------------------ classifier loops */

  /** The inner loop over the mappings of one token:
      `candidate_skills.setdefault(category, set()).add(label)` and
      `candidate_mappings.setdefault(token, (label, category))` for each
      in turn. */
  method AddMappings(candidates: map<string, set<string>>, mappings: map<string, Skill>,
                     token: string, found: seq<Skill>, ghost skills: set<Skill>)
    returns (candidates': map<string, set<string>>, mappings': map<string, Skill>)
    requires candidates == Group(skills)
    ensures candidates' == Group(skills + SkillSet(found))
    ensures mappings' == if token in mappings || found == [] then mappings else mappings[token := found[0]]
  {
    candidates', mappings' := candidates, mappings;
    assert skills + SkillSet(found[..0]) == skills;
    for j := 0 to |found|
      invariant candidates' == Group(skills + SkillSet(found[..j]))
      invariant mappings' == if token in mappings || j == 0 then mappings else mappings[token := found[0]]
    {
      ghost var before := skills + SkillSet(found[..j]);
      assert skills + SkillSet(found[..j + 1]) == before + {found[j]} by {
        assert found[..j + 1] == found[..j] + [found[j]];
      }
      GroupAdd(before, found[j]);
      candidates' := AddSkill(candidates', found[j]);
      if token !in mappings' {
        mappings' := mappings'[token := found[j]];
      }
    }
    assert found[..|found|] == found;
  }

  /** The body of the loop over `all_tokens` for one token not visited
      yet: its mappings are looked up and added. */
  method CandidateToken(tx: Tables, candidates: map<string, set<string>>, mappings: map<string, Skill>,
                        token: string, ghost done: set<string>, ghost lookup: string -> seq<Skill>)
    returns (candidates': map<string, set<string>>, mappings': map<string, Skill>)
    requires lookup == LookupOf(tx)
    requires token !in done
    requires candidates == Group(CandidatesAmong(done, lookup))
    requires mappings == FirstsAmong(done, lookup)
    ensures candidates' == Group(CandidatesAmong(done + {token}, lookup))
    ensures mappings' == FirstsAmong(done + {token}, lookup)
  {
    var found := MapToken(token, tx.packages, tx.keywords);
    assert found == lookup(token);
    assert token !in mappings;
    CandidatesStep(done, token, lookup);
    FirstsStep(done, token, lookup);
    candidates', mappings' := AddMappings(candidates, mappings, token, found, CandidatesAmong(done, lookup));
  }

  /** The loop over `all_tokens`: every token's mappings are candidates,
      and its first mapping is recorded. The set is visited in an order
      the model leaves open. */
  method CandidateLoop(tx: Tables, allTokens: set<string>)
    returns (candidates: map<string, set<string>>, mappings: map<string, Skill>)
    ensures candidates == Group(CandidatesAmong(allTokens, LookupOf(tx)))
    ensures mappings == FirstsAmong(allTokens, LookupOf(tx))
  {
    ghost var lookup := LookupOf(tx);
    candidates, mappings := map[], map[];
    var rest := allTokens;
    ghost var done: set<string> := {};
    assert CandidatesAmong(done, lookup) == {} && FirstsAmong(done, lookup) == map[];
    assert Group({}) == map[];
    while rest != {}
      invariant done + rest == allTokens && done !! rest
      invariant candidates == Group(CandidatesAmong(done, lookup))
      invariant mappings == FirstsAmong(done, lookup)
      decreases |rest|
    {
      var token :| token in rest;
      candidates, mappings := CandidateToken(tx, candidates, mappings, token, done, lookup);
      SetStep(allTokens, done, rest, token);
      done, rest := done + {token}, rest - {token};
    }
  }

  /** Moving one element from the elements left to the elements done. */
  lemma SetStep(all: set<string>, done: set<string>, rest: set<string>, x: string)
    requires done + rest == all && done !! rest && x in rest
    ensures (done + {x}) + (rest - {x}) == all && (done + {x}) !! (rest - {x})
    ensures |rest - {x}| < |rest|
  {
  }

  /** One token of the tier loop, for one side: the token's recorded
      skill is added when its promotion test picks that side, and the side
      is left as it is otherwise. */
  lemma TierStep(ev: Evidence, mappings: map<string, Skill>, done: set<string>, t: string,
                 side: map<string, set<string>>, seen: bool)
    requires t in mappings
    requires side == Group(PromotedAmong(ev, mappings, done, seen))
    ensures Seen(ev, t) == seen ==> AddSkill(side, mappings[t]) == Group(PromotedAmong(ev, mappings, done + {t}, seen))
    ensures Seen(ev, t) != seen ==> side == Group(PromotedAmong(ev, mappings, done + {t}, seen))
  {
    PromotedStep(ev, mappings, done, t, seen);
    if Seen(ev, t) == seen {
      GroupAdd(PromotedAmong(ev, mappings, done, seen), mappings[t]);
    } else {
      assert PromotedAmong(ev, mappings, done + {t}, seen) == PromotedAmong(ev, mappings, done, seen);
    }
  }

  /** The loop over `candidate_mappings`: each recorded skill goes to
      `accepted` when its token passes the promotion test, to `possible`
      otherwise. */
  method TierLoop(ev: Evidence, mappings: map<string, Skill>)
    returns (accepted: map<string, set<string>>, possible: map<string, set<string>>)
    ensures accepted == Group(PromotedAmong(ev, mappings, mappings.Keys, true))
    ensures possible == Group(PromotedAmong(ev, mappings, mappings.Keys, false))
  {
    accepted, possible := map[], map[];
    var rest := mappings.Keys;
    ghost var done: set<string> := {};
    assert PromotedAmong(ev, mappings, done, true) == {} && PromotedAmong(ev, mappings, done, false) == {};
    assert Group({}) == map[];
    while rest != {}
      invariant done + rest == mappings.Keys && done !! rest
      invariant accepted == Group(PromotedAmong(ev, mappings, done, true))
      invariant possible == Group(PromotedAmong(ev, mappings, done, false))
      decreases |rest|
    {
      var token :| token in rest;
      var s := mappings[token];
      var seen := token in LowerSet(ev.imports) || token in LowerSet(ev.manifest) || |PathsOf(ev, token)| >= 2;
      TierStep(ev, mappings, done, token, accepted, true);
      TierStep(ev, mappings, done, token, possible, false);
      if seen {
        accepted := AddSkill(accepted, s);
      } else {
        possible := AddSkill(possible, s);
      }
      SetStep(mappings.Keys, done, rest, token);
      done, rest := done + {token}, rest - {token};
    }
  }

  /* -------------------------------------------------------- scan_repo */

  /** `scan_repo` over the tables `tx`, with the clone's outcome and the
      walk's files as inputs. */
  method ScanRepoWith(tx: Tables, url: string, cloneError: Option<string>, files: seq<FileEntry>) returns (r: ScanRecord)
    ensures r == RecordOf(tx, url, cloneError, files)
  {
    var name := RepoNameAsWritten(url);
    if cloneError.Some? {
      return Failed(url, name, cloneError.value);
    }
    var n, paths, exts, langs, tokens, imports, pf, ev := WalkFiles(tx, files);
    WalkIsSummary(tx, files);
    var evidence := SortValues(Paths(ev));
    var e := Evidence(Paths(pf), imports, tokens);
    var allTokens := LowerSet(Paths(pf).Keys) + LowerSet(imports) + LowerSet(tokens);
    var candidates, mappings := CandidateLoop(tx, allTokens);
    var accepted, possible := TierLoop(e, mappings);
    r := ScanRecord(url, name, true, [], SortSet(langs), SortValues(Paths(pf)), SortSet(imports), SortSet(tokens),
                    exts, paths, SortValues(candidates), SortValues(accepted), SortValues(possible), evidence, n);
  }

  /** `scan_repo` over the taxonomy's own tables. */
  method ScanRepo(url: string, cloneError: Option<string>, files: seq<FileEntry>) returns (r: ScanRecord)
    ensures r == RecordOf(Standard, url, cloneError, files)
  {
    r := ScanRepoWith(Standard, url, cloneError, files);
  }

  /* ---------------------------------------------------------- lemmas */

  /** The record of a failed clone: not cloned, the one error message,
      nothing scanned and every tier empty. */
  predicate FailedWith(r: ScanRecord, error: string) {
    && !r.cloned && r.errors == [error] && r.filesScanned == 0 && r.filePaths == []
    && r.candidate == map[] && r.accepted == map[] && r.possible == map[]
  }

  /** A failed clone gives the initial record with its error and empty
      tiers. */
  lemma CloneFailed(tx: Tables, url: string, error: string, files: seq<FileEntry>)
    ensures FailedWith(RecordOf(tx, url, Some(error), files), error)
  {
  }

  /** A successful clone is marked cloned and records no error. */
  lemma CloneSucceeded(tx: Tables, url: string, files: seq<FileEntry>)
    ensures RecordOf(tx, url, None, files).cloned && RecordOf(tx, url, None, files).errors == []
  {
  }

  /** `files_scanned` counts the entries of `file_paths`, one per file
      walked, each the file's path with `/` separators, lower-cased. */
  lemma RecordPaths(tx: Tables, url: string, cloneError: Option<string>, files: seq<FileEntry>)
    ensures var r := RecordOf(tx, url, cloneError, files);
            && r.filesScanned == |r.filePaths|
            && (r.cloned ==> |r.filePaths| == |files| && forall i :: 0 <= i < |files| ==> r.filePaths[i] == RelLower(files[i]))
  {
  }

  /** Every list of the record is sorted and free of duplicates. */
  predicate SortedRecord(r: ScanRecord) {
    && StrictlySorted(r.languages) && StrictlySorted(r.importsFound) && StrictlySorted(r.manifestTokens)
    && ValuesSorted(r.packagesFound) && ValuesSorted(r.evidence)
    && ValuesSorted(r.candidate) && ValuesSorted(r.accepted) && ValuesSorted(r.possible)
  }

  /** Every list of a successful scan's record is sorted and free of
      duplicates, whatever the walk gathered. */
  lemma ClassifiedSorted(lookup: string -> seq<Skill>, url: string, name: string, s: Fields)
    ensures SortedRecord(Classified(lookup, url, name, s))
  {
  }

  /** Every list of the record is sorted and free of duplicates: the
      languages, imports and manifest tokens, the paths under every key
      of `packages_found` and `evidence`, and the names under every
      category of the three tiers. */
  lemma RecordSorted(tx: Tables, url: string, cloneError: Option<string>, files: seq<FileEntry>)
    ensures SortedRecord(RecordOf(tx, url, cloneError, files))
  {
    if cloneError.None? {
      ClassifiedSorted(LookupOf(tx), url, RepoNameAsWritten(url), Summary(tx, files));
    }
  }

  /** The lists of a successful scan's record hold what the walk
      gathered. */
  lemma ClassifiedLists(lookup: string -> seq<Skill>, url: string, name: string, s: Fields)
    ensures var r := Classified(lookup, url, name, s);
            && Elems(r.languages) == s.languages && Elems(r.importsFound) == s.imports
            && Elems(r.manifestTokens) == s.tokens && r.fileExtensions == s.exts
            && r.packagesFound.Keys == s.packages.Keys && r.evidence.Keys == s.evidence.Keys
  {
  }

  /** What a successful scan records, independently of the walk's order:
      every language, import, manifest token and extension some file has,
      and as keys of `packages_found` and `evidence` every key and every
      label some file gives. */
  lemma RecordContents(tx: Tables, url: string, files: seq<FileEntry>)
    ensures var r := RecordOf(tx, url, None, files);
            && Elems(r.languages) == Collected(files, LanguageOf(tx))
            && Elems(r.importsFound) == Collected(files, FileImports)
            && Elems(r.manifestTokens) == Collected(files, TokenSetOf(tx))
            && r.fileExtensions == Collected(files, FileExt)
            && r.packagesFound.Keys == Collected(files, KeysOf(tx))
            && r.evidence.Keys == Collected(files, LabelsOf(tx))
  {
    ClassifiedLists(LookupOf(tx), url, RepoNameAsWritten(url), Summary(tx, files));
  }

  /** The paths a map lists under `k`, when it has the key, are the set
      `paths` holds under it. */
  predicate ListsUnder(m: map<string, seq<string>>, paths: map<string, set<string>>, k: string) {
    k in m ==> k in paths && Elems(m[k]) == paths[k]
  }

  /** Under each key of a successful scan's `packages_found` and
      `evidence`, the record lists the paths the walk gathered. */
  lemma ClassifiedPaths(lookup: string -> seq<Skill>, url: string, name: string, s: Fields, k: string)
    ensures ListsUnder(Classified(lookup, url, name, s).packagesFound, s.packages, k)
    ensures ListsUnder(Classified(lookup, url, name, s).evidence, s.evidence, k)
  {
  }

  /** Under a key of `packages_found` a successful scan lists exactly the
      paths of the files that have that key. */
  lemma RecordPackagePaths(tx: Tables, url: string, files: seq<FileEntry>, k: string)
    ensures ListsUnder(RecordOf(tx, url, None, files).packagesFound, PathMap(files, KeysOf(tx)), k)
  {
    ClassifiedPaths(LookupOf(tx), url, RepoNameAsWritten(url), Summary(tx, files), k);
  }

  /** Under a label of `evidence` a successful scan lists exactly the
      paths of the files that give that label. */
  lemma RecordEvidencePaths(tx: Tables, url: string, files: seq<FileEntry>, k: string)
    ensures ListsUnder(RecordOf(tx, url, None, files).evidence, PathMap(files, LabelsOf(tx)), k)
  {
    ClassifiedPaths(LookupOf(tx), url, RepoNameAsWritten(url), Summary(tx, files), k);
  }

  /** Every entry of a list is a manifest token. */
  predicate TokensWellFormed(toks: seq<string>) {
    forall k :: 0 <= k < |toks| ==> IsManifestToken(toks[k])
  }

  /** A successful scan's record lists only the tokens the walk gathered. */
  lemma ClassifiedTokens(lookup: string -> seq<Skill>, url: string, name: string, s: Fields)
    requires AllManifestTokens(s.tokens)
    ensures TokensWellFormed(Classified(lookup, url, name, s).manifestTokens)
  {
    var toks := Classified(lookup, url, name, s).manifestTokens;
    forall k | 0 <= k < |toks|
      ensures IsManifestToken(toks[k])
    {
      assert toks[k] in Elems(toks);
    }
  }

  /** Manifest tokens are non-empty lower-case runs of `[a-z0-9_.-]`. */
  lemma RecordTokensWellFormed(tx: Tables, url: string, cloneError: Option<string>, files: seq<FileEntry>)
    ensures TokensWellFormed(RecordOf(tx, url, cloneError, files).manifestTokens)
  {
    match cloneError
    case None =>
      ManifestTokensWellFormed(tx, files);
      ClassifiedTokens(LookupOf(tx), url, RepoNameAsWritten(url), Summary(tx, files));
    case Some(e) =>
      assert RecordOf(tx, url, cloneError, files) == Failed(url, RepoNameAsWritten(url), e);
  }

  /** The record's tiers are those the classifier computes from `ev` with
      `lookup`. */
  predicate TieredBy(r: ScanRecord, ev: Evidence, lookup: string -> seq<Skill>) {
    && r.candidate == Tier(CandidateSkills(ev, lookup))
    && r.accepted == Tier(AcceptedSkills(ev, lookup))
    && r.possible == Tier(PossibleSkills(ev, lookup))
  }

  /** The record's tiers are those the classifier computes from the
      scan's evidence. */
  lemma RecordTierSets(tx: Tables, url: string, files: seq<FileEntry>)
    ensures TieredBy(RecordOf(tx, url, None, files), EvidenceOf(tx, files), LookupOf(tx))
  {
    ClassifiedTiers(LookupOf(tx), url, RepoNameAsWritten(url), Summary(tx, files));
    SummaryEvidence(tx, files);
  }

  /** The tiers of a successful scan's record are the classifier's, over
      the evidence the walk gathered. */
  lemma ClassifiedTiers(lookup: string -> seq<Skill>, url: string, name: string, s: Fields)
    ensures TieredBy(Classified(lookup, url, name, s), FieldsEvidence(s), lookup)
  {
  }

  /** A record whose tiers are the classifier's lists a skill exactly as
      the classifier tiers it. */
  lemma TiersOfRecord(r: ScanRecord, ev: Evidence, lookup: string -> seq<Skill>, sk: Skill)
    requires TieredBy(r, ev, lookup)
    ensures Listed(r.accepted, sk) <==> FirstMappedTo(ev, lookup, sk, true)
    ensures Listed(r.possible, sk) <==> FirstMappedTo(ev, lookup, sk, false)
    ensures Listed(r.candidate, sk) <==> MappedTo(ev, lookup, sk)
  {
    TiersExactly(ev, lookup, sk);
  }

  /** A successful scan accepts a skill exactly when some token's first
      mapping is that skill and the token passes the promotion test. */
  lemma RecordAccepted(tx: Tables, url: string, files: seq<FileEntry>, sk: Skill)
    ensures Listed(RecordOf(tx, url, None, files).accepted, sk) <==> FirstMappedTo(EvidenceOf(tx, files), LookupOf(tx), sk, true)
  {
    RecordTierSets(tx, url, files);
    TiersOfRecord(RecordOf(tx, url, None, files), EvidenceOf(tx, files), LookupOf(tx), sk);
  }

  /** A successful scan lists a skill as possible exactly when some
      token's first mapping is that skill and the token fails the
      promotion test. */
  lemma RecordPossible(tx: Tables, url: string, files: seq<FileEntry>, sk: Skill)
    ensures Listed(RecordOf(tx, url, None, files).possible, sk) <==> FirstMappedTo(EvidenceOf(tx, files), LookupOf(tx), sk, false)
  {
    RecordTierSets(tx, url, files);
    TiersOfRecord(RecordOf(tx, url, None, files), EvidenceOf(tx, files), LookupOf(tx), sk);
  }

  /** A successful scan lists a skill as a candidate exactly when some
      token maps to it at all. */
  lemma RecordCandidate(tx: Tables, url: string, files: seq<FileEntry>, sk: Skill)
    ensures Listed(RecordOf(tx, url, None, files).candidate, sk) <==> MappedTo(EvidenceOf(tx, files), LookupOf(tx), sk)
  {
    RecordTierSets(tx, url, files);
    TiersOfRecord(RecordOf(tx, url, None, files), EvidenceOf(tx, files), LookupOf(tx), sk);
  }

  /** Every accepted and every possible name of a category is also a
      candidate name of that category. */
  predicate Nested(r: ScanRecord) {
    Within(r.accepted, r.candidate) && Within(r.possible, r.candidate)
  }

  /** A record whose tiers are the classifier's has them nested. */
  lemma NestedOfTiered(r: ScanRecord, ev: Evidence, lookup: string -> seq<Skill>)
    requires TieredBy(r, ev, lookup)
    ensures Nested(r)
  {
    TiersWithinCandidates(ev, lookup);
  }

  /** Every accepted and every possible name of a category is also a
      candidate name of that category, whatever the clone's outcome. */
  lemma RecordTiersWithinCandidates(tx: Tables, url: string, cloneError: Option<string>, files: seq<FileEntry>)
    ensures Nested(RecordOf(tx, url, cloneError, files))
  {
    if cloneError.None? {
      RecordTierSets(tx, url, files);
      NestedOfTiered(RecordOf(tx, url, None, files), EvidenceOf(tx, files), LookupOf(tx));
    }
  }

  /** A lower-case key that two files with different paths share is
      accepted through its first mapping, however the files hit it. */
  lemma RecordTwoFiles(tx: Tables, url: string, files: seq<FileEntry>, k: string, i: nat, j: nat)
    requires i < |files| && j < |files| && files[i].rel != files[j].rel
    requires k in FileKeys(tx, files[i]) && k in FileKeys(tx, files[j])
    requires IsLowerCase(k) && |LookupOf(tx)(k)| > 0
    ensures Listed(RecordOf(tx, url, None, files).accepted, LookupOf(tx)(k)[0])
  {
    TwoFilesAccepted(tx, files, k, i, j, LookupOf(tx));
    RecordTierSets(tx, url, files);
  }

  /** A lower-case key two files with different paths share is accepted
      by the classifier, whatever the token lookup. */
  lemma TwoFilesAccepted(tx: Tables, files: seq<FileEntry>, k: string, i: nat, j: nat, lookup: string -> seq<Skill>)
    requires i < |files| && j < |files| && files[i].rel != files[j].rel
    requires k in FileKeys(tx, files[i]) && k in FileKeys(tx, files[j])
    requires IsLowerCase(k) && |lookup(k)| > 0
    ensures Listed(Tier(AcceptedSkills(EvidenceOf(tx, files), lookup)), lookup(k)[0])
  {
    TwoFilesSeen(tx, files, k, i, j);
    PromotionRule(EvidenceOf(tx, files), lookup, k);
  }

  /** C and C++ sources alone, whatever the token lookup: a mapped token
      is accepted when it has two distinct paths, possible otherwise. */
  lemma CSourcesTiers(tx: Tables, files: seq<FileEntry>, t: string, lookup: string -> seq<Skill>)
    requires CSourcesOnly(tx, files)
    requires t in Universe(EvidenceOf(tx, files)) && |lookup(t)| > 0
    ensures |PathsOf(EvidenceOf(tx, files), t)| >= 2 ==> Listed(Tier(AcceptedSkills(EvidenceOf(tx, files), lookup)), lookup(t)[0])
    ensures |PathsOf(EvidenceOf(tx, files), t)| < 2 ==> Listed(Tier(PossibleSkills(EvidenceOf(tx, files), lookup)), lookup(t)[0])
  {
    CSourcesNoSignals(tx, files);
    PathsOnly(EvidenceOf(tx, files), lookup, t);
  }

  /** In a clone of C and C++ sources without a manifest, nothing is an
      import or a manifest token, so a mapped token with two distinct
      paths is accepted. */
  lemma RecordCSourcesAccepted(tx: Tables, url: string, files: seq<FileEntry>, t: string)
    requires CSourcesOnly(tx, files)
    requires t in Universe(EvidenceOf(tx, files)) && |LookupOf(tx)(t)| > 0
    requires |PathsOf(EvidenceOf(tx, files), t)| >= 2
    ensures Listed(RecordOf(tx, url, None, files).accepted, LookupOf(tx)(t)[0])
  {
    CSourcesTiers(tx, files, t, LookupOf(tx));
    RecordTierSets(tx, url, files);
  }

  /** In a clone of C and C++ sources without a manifest, a mapped token
      with fewer than two distinct paths is only possible. */
  lemma RecordCSourcesPossible(tx: Tables, url: string, files: seq<FileEntry>, t: string)
    requires CSourcesOnly(tx, files)
    requires t in Universe(EvidenceOf(tx, files)) && |LookupOf(tx)(t)| > 0
    requires |PathsOf(EvidenceOf(tx, files), t)| < 2
    ensures Listed(RecordOf(tx, url, None, files).possible, LookupOf(tx)(t)[0])
  {
    CSourcesTiers(tx, files, t, LookupOf(tx));
    RecordTierSets(tx, url, files);
  }

  /** Every file is a C or C++ source and none is a manifest. */
  predicate CSourcesOnly(tx: Tables, files: seq<FileEntry>) {
    forall i :: 0 <= i < |files| ==> Ext(files[i]) in CExts && !IsManifest(tx, files[i])
  }

  /** C and C++ sources that are not manifests give no import and no
      manifest token: `#include` targets only reach `packages_found`. */
  lemma CSourcesNoSignals(tx: Tables, files: seq<FileEntry>)
    requires CSourcesOnly(tx, files)
    ensures EvidenceOf(tx, files).imports == {} && EvidenceOf(tx, files).manifest == {}
  {
    forall i | 0 <= i < |files|
      ensures FileImports(files[i]) == {} && TokenSetOf(tx)(files[i]) == {}
    {
      assert Ext(files[i]) in CExts && !IsManifest(tx, files[i]);
    }
  }
}
