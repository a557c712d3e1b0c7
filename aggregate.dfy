/** What happens after every repository is scanned: `aggregate_results`
    merges the accepted tiers of all records, and
    `generate_resume_bullets` writes one line per category. */
module Aggregate {
  import opened Text
  import opened Order
  import opened Taxonomy
  import opened Classifier
  import opened Repo
  import opened ScanSpec
  import opened Matching
  import opened Inputs

  /** A tier as a record stores it: category -> sorted names. */
  type Tiers = map<string, seq<string>>

  /** `r.get("accepted_skills_by_category", {})`: a record without the
      key contributes an empty map. */
  function AcceptedOr(r: Option<Tiers>): Tiers {
    if r.Some? then r.value else map[]
  }

  /** The names under category `c` of a grouped map, none when it lacks
      the category. */
  function NamesAt(g: map<string, set<string>>, c: string): set<string> {
    if c in g then g[c] else {}
  }

  /** `agg.setdefault(cat, set()).update(skills)`. */
  function Put(g: map<string, set<string>>, c: string, labels: seq<string>): map<string, set<string>> {
    g[c := NamesAt(g, c) + Elems(labels)]
  }

  /** The categories `done` of `m` merged into `g`: every category of
      either, with the names of both. */
  function MergeOn(g: map<string, set<string>>, m: Tiers, done: set<string>): map<string, set<string>>
    requires done <= m.Keys
  {
    map c | c in g.Keys + done :: NamesAt(g, c) + (if c in done then Elems(m[c]) else {})
  }

  /** One record's accepted map merged into `g`. */
  function Merge(g: map<string, set<string>>, m: Tiers): map<string, set<string>> {
    MergeOn(g, m, m.Keys)
  }

  /** The merge of the records in turn, before the values are sorted. */
  function Merged(rs: seq<Option<Tiers>>): map<string, set<string>>
    decreases |rs|
  {
    if rs == [] then map[]
    else Merge(Merged(rs[..|rs| - 1]), AcceptedOr(rs[|rs| - 1]))
  }

  /** Some record has category `c` in its accepted map. */
  predicate HasCategory(rs: seq<Option<Tiers>>, c: string) {
    exists i :: 0 <= i < |rs| && c in AcceptedOr(rs[i])
  }

  /** Some record accepts name `l` under category `c`. */
  predicate Accepts(rs: seq<Option<Tiers>>, c: string, l: string) {
    exists i :: 0 <= i < |rs| && c in AcceptedOr(rs[i]) && l in AcceptedOr(rs[i])[c]
  }

  /* ------------------------------------------------------ the method */

  /** The loop over one record's categories, in an order the model leaves
      open: `agg` goes from `Merged(done)` to the merge with `m`. */
  method MergeRecord(agg: map<string, set<string>>, m: Tiers) returns (agg': map<string, set<string>>)
    ensures agg' == Merge(agg, m)
  {
    agg' := agg;
    var rest := m.Keys;
    ghost var done: set<string> := {};
    MergeOnNothing(agg, m);
    while rest != {}
      invariant done + rest == m.Keys && done !! rest
      invariant agg' == MergeOn(agg, m, done)
      decreases |rest|
    {
      var c :| c in rest;
      MergeStep(agg, m, done, c);
      agg' := Put(agg', c, m[c]);
      SetStep(m.Keys, done, rest, c);
      done, rest := done + {c}, rest - {c};
    }
  }

  /** Merging no category changes nothing. */
  lemma MergeOnNothing(g: map<string, set<string>>, m: Tiers)
    ensures MergeOn(g, m, {}) == g
  {
    forall c | c in g
      ensures MergeOn(g, m, {})[c] == g[c]
    {
      assert NamesAt(g, c) == g[c];
    }
  }

  /** Merging one more category of `m` is one `setdefault(...).update`. */
  lemma MergeStep(g: map<string, set<string>>, m: Tiers, done: set<string>, c: string)
    requires done <= m.Keys && c in m
    ensures MergeOn(g, m, done + {c}) == Put(MergeOn(g, m, done), c, m[c])
  {
    var l := MergeOn(g, m, done + {c});
    var r := Put(MergeOn(g, m, done), c, m[c]);
    assert l.Keys == r.Keys;
    forall k | k in l
      ensures l[k] == r[k]
    {
      MergeOnAt(g, m, done, c, k);
    }
  }

  /** `MergeStep` under one category. */
  lemma MergeOnAt(g: map<string, set<string>>, m: Tiers, done: set<string>, c: string, k: string)
    requires done <= m.Keys && c in m && k in g.Keys + done + {c}
    ensures MergeOn(g, m, done + {c})[k] == Put(MergeOn(g, m, done), c, m[c])[k]
  {
    if k != c {
      assert k in g.Keys + done;
    }
  }

  /** `aggregate_results`: the accepted maps of all records merged, each
      category's names sorted. */
  method AggregateResults(rs: seq<Option<Tiers>>) returns (agg: Tiers)
    ensures agg == SortValues(Merged(rs))
  {
    var acc: map<string, set<string>> := map[];
    for i := 0 to |rs|
      invariant acc == Merged(rs[..i])
    {
      assert rs[..i + 1][..i] == rs[..i];
      acc := MergeRecord(acc, AcceptedOr(rs[i]));
    }
    assert rs[..|rs|] == rs;
    agg := SortValues(acc);
  }

  /* ---------------------------------------------------------- lemmas */

  /** The merged categories are those some record has. */
  lemma {:induction false} MergedCategories(rs: seq<Option<Tiers>>, c: string)
    ensures c in Merged(rs) <==> HasCategory(rs, c)
    decreases |rs|
  {
    if rs != [] {
      var front := rs[..|rs| - 1];
      MergedCategories(front, c);
      if HasCategory(rs, c) && !(c in AcceptedOr(rs[|rs| - 1])) {
        var i :| 0 <= i < |rs| && c in AcceptedOr(rs[i]);
        assert front[i] == rs[i];
      }
      if HasCategory(front, c) {
        var i :| 0 <= i < |front| && c in AcceptedOr(front[i]);
        assert rs[i] == front[i];
      }
    }
  }

  /** The merged names of a category are those some record accepts under
      it. */
  lemma {:induction false} MergedNames(rs: seq<Option<Tiers>>, c: string, l: string)
    ensures l in NamesAt(Merged(rs), c) <==> Accepts(rs, c, l)
    decreases |rs|
  {
    if rs != [] {
      var front := rs[..|rs| - 1];
      var last := AcceptedOr(rs[|rs| - 1]);
      MergedNames(front, c, l);
      assert NamesAt(Merged(rs), c) == NamesAt(Merged(front), c) + (if c in last then Elems(last[c]) else {});
      if Accepts(rs, c, l) && !(c in last && l in last[c]) {
        var i :| 0 <= i < |rs| && c in AcceptedOr(rs[i]) && l in AcceptedOr(rs[i])[c];
        assert front[i] == rs[i];
      }
      if Accepts(front, c, l) {
        var i :| 0 <= i < |front| && c in AcceptedOr(front[i]) && l in AcceptedOr(front[i])[c];
        assert rs[i] == front[i];
      }
    }
  }

  /** A name is listed in the aggregate exactly when some record accepts
      it under that category; a name that only some record's candidate or
      possible tier holds is not listed. */
  lemma AggregateListed(rs: seq<Option<Tiers>>, sk: Skill)
    ensures Listed(SortValues(Merged(rs)), sk) <==> Accepts(rs, sk.category, sk.name)
  {
    MergedNames(rs, sk.category, sk.name);
  }

  /** Every category of the aggregate comes from some record, and every
      category some record has is in the aggregate, with its names sorted
      and free of duplicates. */
  lemma AggregateCategories(rs: seq<Option<Tiers>>, c: string)
    ensures c in SortValues(Merged(rs)) <==> HasCategory(rs, c)
    ensures c in SortValues(Merged(rs)) ==> StrictlySorted(SortValues(Merged(rs))[c])
  {
    MergedCategories(rs, c);
  }

  /** A record without an accepted map, or with an empty one, as a failed
      clone's, changes nothing. */
  lemma AggregateEmptyRecord(rs: seq<Option<Tiers>>, r: Option<Tiers>)
    requires AcceptedOr(r) == map[]
    ensures Merged(rs + [r]) == Merged(rs)
  {
    assert (rs + [r])[..|rs|] == rs;
    assert AcceptedOr(r).Keys == {};
    MergeOnNothing(Merged(rs), AcceptedOr(r));
  }

  /** The accepted maps of scan records, as `aggregate_results` reads
      them. */
  function AcceptedMaps(records: seq<ScanRecord>): (r: seq<Option<Tiers>>)
    ensures |r| == |records|
    ensures forall i :: 0 <= i < |records| ==> r[i] == Some(records[i].accepted)
  {
    seq(|records|, i requires 0 <= i < |records| => Some(records[i].accepted))
  }

  /** Some scan record accepts skill `sk`. */
  predicate AcceptedBySome(records: seq<ScanRecord>, sk: Skill) {
    exists i :: 0 <= i < |records| && Listed(records[i].accepted, sk)
  }

  /** Over scan records: the aggregate lists a skill exactly when some
      record's accepted tier does. */
  lemma AggregateOfRecords(records: seq<ScanRecord>, sk: Skill)
    ensures Listed(SortValues(Merged(AcceptedMaps(records))), sk) <==> AcceptedBySome(records, sk)
  {
    AggregateListed(AcceptedMaps(records), sk);
    AcceptsRecords(records, sk);
  }

  /** The records' accepted maps accept what the records' accepted tiers
      list. */
  lemma AcceptsRecords(records: seq<ScanRecord>, sk: Skill)
    ensures Accepts(AcceptedMaps(records), sk.category, sk.name) <==> AcceptedBySome(records, sk)
  {
    var rs := AcceptedMaps(records);
    if AcceptedBySome(records, sk) {
      var i :| 0 <= i < |records| && Listed(records[i].accepted, sk);
      assert AcceptedOr(rs[i]) == records[i].accepted;
    }
    if Accepts(rs, sk.category, sk.name) {
      var i :| 0 <= i < |rs| && sk.category in AcceptedOr(rs[i]) && sk.name in AcceptedOr(rs[i])[sk.category];
      assert AcceptedOr(rs[i]) == records[i].accepted;
    }
  }

  /** The records of the scans of the clones `urls`: the clone of
      `urls[i]` ends with `errs[i]` (`None` when it succeeds) and its walk
      reaches `fileSets[i]`. */
  function Scans(tx: Tables, urls: seq<string>, errs: seq<Option<string>>, fileSets: seq<seq<FileEntry>>): (r: seq<ScanRecord>)
    requires |urls| == |errs| == |fileSets|
    ensures |r| == |urls|
  {
    seq(|urls|, i requires 0 <= i < |urls| => RecordOf(tx, urls[i], errs[i], fileSets[i]))
  }

  /** Some evidence of `evs` has a token whose first mapping by `lookup`
      is `sk` and which passes the promotion test. */
  ghost predicate PromotedInSome(evs: seq<Evidence>, lookup: string -> seq<Skill>, sk: Skill) {
    exists i :: 0 <= i < |evs| && FirstMappedTo(evs[i], lookup, sk, true)
  }

  /** Over records whose tiers the classifier computed from `evs`, the
      aggregate lists a skill exactly when some evidence promotes it. */
  lemma AggregateOfTiered(records: seq<ScanRecord>, evs: seq<Evidence>, lookup: string -> seq<Skill>, sk: Skill)
    requires |records| == |evs|
    requires forall i :: 0 <= i < |records| ==> TieredBy(records[i], evs[i], lookup)
    ensures Listed(SortValues(Merged(AcceptedMaps(records))), sk) <==> PromotedInSome(evs, lookup, sk)
  {
    AggregateOfRecords(records, sk);
    if AcceptedBySome(records, sk) {
      var i :| 0 <= i < |records| && Listed(records[i].accepted, sk);
      TiersOfRecord(records[i], evs[i], lookup, sk);
    }
    if PromotedInSome(evs, lookup, sk) {
      var i :| 0 <= i < |evs| && FirstMappedTo(evs[i], lookup, sk, true);
      TiersOfRecord(records[i], evs[i], lookup, sk);
    }
  }

  /** The evidence of a repository whose clone failed: none at all. */
  const NoEvidence: Evidence := Evidence(map[], {}, {})

  /** The three tiers of a failed clone's record are those of no
      evidence. */
  lemma FailedTiered(url: string, name: string, error: string, lookup: string -> seq<Skill>)
    ensures TieredBy(Failed(url, name, error), NoEvidence, lookup)
  {
    assert Universe(NoEvidence) == {};
    assert CategoriesOf(CandidateSkills(NoEvidence, lookup)) == {};
  }

  /** No evidence promotes no skill. */
  lemma NoEvidenceNothingPromoted(lookup: string -> seq<Skill>, sk: Skill)
    ensures !FirstMappedTo(NoEvidence, lookup, sk, true)
  {
    assert Universe(NoEvidence) == {};
  }

  /** The evidence the walks of `fileSets` gather. */
  function EvidenceOfAll(tx: Tables, fileSets: seq<seq<FileEntry>>): (r: seq<Evidence>)
    ensures |r| == |fileSets|
    ensures forall i :: 0 <= i < |fileSets| ==> r[i] == EvidenceOf(tx, fileSets[i])
  {
    seq(|fileSets|, i requires 0 <= i < |fileSets| => EvidenceOf(tx, fileSets[i]))
  }

  /** The evidence each scan contributes: that of its walk when its clone
      succeeds, none when it fails. */
  function Contributed(errs: seq<Option<string>>, evs: seq<Evidence>): (r: seq<Evidence>)
    requires |errs| == |evs|
    ensures |r| == |evs|
    ensures forall i :: 0 <= i < |evs| && errs[i].None? ==> r[i] == evs[i]
    ensures forall i :: 0 <= i < |evs| && errs[i].Some? ==> r[i] == NoEvidence
  {
    seq(|evs|, i requires 0 <= i < |evs| => if errs[i].None? then evs[i] else NoEvidence)
  }

  /** Some repository whose clone succeeded has, in its evidence, a token
      whose first mapping is `sk` and which passes the promotion test. */
  ghost predicate PromotedInSomeClone(errs: seq<Option<string>>, evs: seq<Evidence>, lookup: string -> seq<Skill>, sk: Skill) {
    exists i :: 0 <= i < |errs| && i < |evs| && errs[i].None? && FirstMappedTo(evs[i], lookup, sk, true)
  }

  /** Promotion over the contributed evidence is promotion in a
      repository whose clone succeeded. */
  lemma PromotedContributed(errs: seq<Option<string>>, evs: seq<Evidence>, lookup: string -> seq<Skill>, sk: Skill)
    requires |errs| == |evs|
    ensures PromotedInSome(Contributed(errs, evs), lookup, sk) <==> PromotedInSomeClone(errs, evs, lookup, sk)
  {
    var c := Contributed(errs, evs);
    if PromotedInSome(c, lookup, sk) {
      var i :| 0 <= i < |c| && FirstMappedTo(c[i], lookup, sk, true);
      if errs[i].Some? {
        NoEvidenceNothingPromoted(lookup, sk);
      }
    }
    if PromotedInSomeClone(errs, evs, lookup, sk) {
      var i :| 0 <= i < |errs| && i < |evs| && errs[i].None? && FirstMappedTo(evs[i], lookup, sk, true);
      assert c[i] == evs[i];
    }
  }

  /** A failed scan's record is tiered by no evidence, under any
      lookup. */
  lemma FailedRecordTiered(tx: Tables, url: string, e: string, files: seq<FileEntry>, lookup: string -> seq<Skill>)
    ensures TieredBy(RecordOf(tx, url, Some(e), files), NoEvidence, lookup)
  {
    FailedTiered(url, RepoNameAsWritten(url), e, lookup);
  }

  /** The record of the `i`-th scan, whose clone succeeded, is tiered by
      its walk's evidence. */
  lemma ClonedTiered(tx: Tables, urls: seq<string>, errs: seq<Option<string>>, fileSets: seq<seq<FileEntry>>, i: nat)
    requires |urls| == |errs| == |fileSets| && i < |urls| && errs[i].None?
    ensures TieredBy(Scans(tx, urls, errs, fileSets)[i], EvidenceOf(tx, fileSets[i]), LookupOf(tx))
  {
    RecordTierSets(tx, urls[i], fileSets[i]);
  }

  /** The record of the `i`-th scan, whose clone failed, is tiered by no
      evidence. */
  lemma NotClonedTiered(tx: Tables, urls: seq<string>, errs: seq<Option<string>>, fileSets: seq<seq<FileEntry>>, i: nat)
    requires |urls| == |errs| == |fileSets| && i < |urls| && errs[i].Some?
    ensures TieredBy(Scans(tx, urls, errs, fileSets)[i], NoEvidence, LookupOf(tx))
  {
    FailedRecordTiered(tx, urls[i], errs[i].value, fileSets[i], LookupOf(tx));
  }

  /** End to end: after scanning every repository, failed clones
      included, the aggregate lists a skill exactly when, in some
      repository whose clone succeeded, a token first maps to it and
      passes the promotion test. */
  lemma AggregateOfScans(tx: Tables, urls: seq<string>, errs: seq<Option<string>>, fileSets: seq<seq<FileEntry>>, sk: Skill)
    requires |urls| == |errs| == |fileSets|
    ensures Listed(SortValues(Merged(AcceptedMaps(Scans(tx, urls, errs, fileSets)))), sk)
            <==> PromotedInSomeClone(errs, EvidenceOfAll(tx, fileSets), LookupOf(tx), sk)
  {
    var records := Scans(tx, urls, errs, fileSets);
    var evs := Contributed(errs, EvidenceOfAll(tx, fileSets));
    forall i | 0 <= i < |records|
      ensures TieredBy(records[i], evs[i], LookupOf(tx))
    {
      if errs[i].None? {
        ClonedTiered(tx, urls, errs, fileSets, i);
      } else {
        NotClonedTiered(tx, urls, errs, fileSets, i);
      }
    }
    AggregateOfTiered(records, evs, LookupOf(tx), sk);
    PromotedContributed(errs, EvidenceOfAll(tx, fileSets), LookupOf(tx), sk);
  }

  /* --------------------------------------------------- resume bullets */

  predicate IsColon(c: char) { c == ':' }

  /** One resume line: `f"{cat}: {', '.join(skills)}."`. */
  function Bullet(cat: string, labels: seq<string>): string {
    cat + ": " + Join(labels, ", ") + "."
  }

  /** `generate_resume_bullets`: one line per item of the aggregate, in
      the order of `items`, which lists the dictionary's items. */
  function Bullets(items: seq<(string, seq<string>)>): (r: seq<string>)
    ensures |r| == |items|
  {
    seq(|items|, i requires 0 <= i < |items| => Bullet(items[i].0, items[i].1))
  }

  /** A line falls apart into its category, the joined names and the
      closing period. */
  lemma BulletParts(cat: string, labels: seq<string>)
    ensures var b := Bullet(cat, labels);
            && b[..|cat|] == cat && b[|cat|..|cat| + 2] == ": "
            && b[|cat| + 2..|b| - 1] == Join(labels, ", ") && b[|b| - 1] == '.'
  {
  }

  /** The category of a line is the text before its first colon, when
      the category has none. */
  lemma BulletCategory(cat: string, labels: seq<string>)
    requires NoneOf(cat, IsColon)
    ensures FirstField(Bullet(cat, labels), IsColon) == cat
  {
    var rest := " " + Join(labels, ", ") + ".";
    assert Bullet(cat, labels) == cat + [':'] + rest;
    SplitAtSeparator(cat, ':', rest, IsColon);
    SplitNoSeparator(cat, IsColon);
  }

  /** `items` lists the entries of `agg`, each key once. */
  predicate ItemsOf(items: seq<(string, seq<string>)>, agg: Tiers) {
    && (forall i :: 0 <= i < |items| ==> items[i].0 in agg && items[i].1 == agg[items[i].0])
    && (forall c :: c in agg ==> exists i :: 0 <= i < |items| && items[i].0 == c)
    && (forall i, j :: 0 <= i < j < |items| ==> items[i].0 != items[j].0)
  }

  /** The bullets name each category of the aggregate exactly once, when
      no category holds a colon: every line is the bullet of one of its
      categories, the lines name distinct categories, and every category
      has its line. */
  lemma BulletsPerCategory(items: seq<(string, seq<string>)>, agg: Tiers)
    requires ItemsOf(items, agg)
    requires forall c :: c in agg ==> NoneOf(c, IsColon)
    ensures forall i :: 0 <= i < |items| ==> Bullets(items)[i] == Bullet(items[i].0, agg[items[i].0])
    ensures forall i, j :: 0 <= i < j < |items| ==>
              FirstField(Bullets(items)[i], IsColon) != FirstField(Bullets(items)[j], IsColon)
    ensures forall c :: c in agg ==> exists i :: 0 <= i < |items| && FirstField(Bullets(items)[i], IsColon) == c
  {
    var r := Bullets(items);
    forall i | 0 <= i < |items|
      ensures FirstField(r[i], IsColon) == items[i].0
    {
      BulletCategory(items[i].0, items[i].1);
    }
  }
}
