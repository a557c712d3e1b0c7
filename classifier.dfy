/** The classifier of `scan_repo`: from the evidence a scan gathered
    (`packages_found`, `imports_found`, `manifest_tokens`) to the three
    tiers candidate / accepted / possible, each a map from category to
    the sorted list of skill names.

    Only the first mapping of each token is tiered, so the candidate tier
    can hold names that are in neither of the other two, and one name can
    reach both accepted and possible through two different tokens. */
module Classifier {
  import opened Text
  import opened Order
  import opened Taxonomy
  import opened Matching

  /** What the classifier reads of a scan record. */
  datatype Evidence = Evidence(
    packages: map<string, set<string>>,  // token -> distinct paths it was seen in
    imports: set<string>,                // tokens found by the import extractors
    manifest: set<string>)               // tokens found in manifest files

  /** `set(packages_found.get(token, []))`. */
  function PathsOf(ev: Evidence, t: string): set<string> {
    if t in ev.packages then ev.packages[t] else {}
  }

  /** `all_tokens`: every token lower-cased. */
  function Universe(ev: Evidence): set<string> {
    LowerSet(ev.packages.Keys) + LowerSet(ev.imports) + LowerSet(ev.manifest)
  }

  /** The promotion test of a token: found by an import extractor, found
      in a manifest, or seen in at least two distinct paths. */
  predicate Seen(ev: Evidence, t: string) {
    || t in LowerSet(ev.imports)
    || t in LowerSet(ev.manifest)
    || |PathsOf(ev, t)| >= 2
  }

  /** The skills of a list of mappings. */
  function SkillSet(xs: seq<Skill>): (r: set<Skill>)
    ensures forall s :: s in r <==> s in xs
  {
    set s | s in xs
  }

  /** The first mapping of each of some tokens that maps to a skill. */
  function FirstsAmong(tokens: set<string>, lookup: string -> seq<Skill>): map<string, Skill> {
    map t | t in tokens && lookup(t) != [] :: lookup(t)[0]
  }

  /** Every skill some of the tokens map to. */
  function CandidatesAmong(tokens: set<string>, lookup: string -> seq<Skill>): set<Skill> {
    set t, s | t in tokens && s in lookup(t) :: s
  }

  /** The recorded skills of those of some tokens whose promotion test
      comes out as `seen`. */
  function PromotedAmong(ev: Evidence, firsts: map<string, Skill>, tokens: set<string>, seen: bool): set<Skill> {
    set t | t in tokens && t in firsts && Seen(ev, t) == seen :: firsts[t]
  }

  /** `candidate_mappings`: each token that maps to some skill, with its
      first mapping. */
  function FirstMappings(ev: Evidence, lookup: string -> seq<Skill>): map<string, Skill> {
    FirstsAmong(Universe(ev), lookup)
  }

  /** Every skill any token maps to. */
  function CandidateSkills(ev: Evidence, lookup: string -> seq<Skill>): set<Skill> {
    CandidatesAmong(Universe(ev), lookup)
  }

  /** The first mappings of the tokens that pass the promotion test. */
  function AcceptedSkills(ev: Evidence, lookup: string -> seq<Skill>): set<Skill> {
    var firsts := FirstMappings(ev, lookup);
    PromotedAmong(ev, firsts, firsts.Keys, true)
  }

  /** The first mappings of the tokens that do not. */
  function PossibleSkills(ev: Evidence, lookup: string -> seq<Skill>): set<Skill> {
    var firsts := FirstMappings(ev, lookup);
    PromotedAmong(ev, firsts, firsts.Keys, false)
  }

  /** One more token adds the skills it maps to. */
  lemma CandidatesStep(tokens: set<string>, t: string, lookup: string -> seq<Skill>)
    ensures CandidatesAmong(tokens + {t}, lookup) == CandidatesAmong(tokens, lookup) + SkillSet(lookup(t))
  {
  }

  /** One more token that maps to a skill adds its first mapping. */
  lemma FirstsStep(tokens: set<string>, t: string, lookup: string -> seq<Skill>)
    requires t !in tokens
    ensures FirstsAmong(tokens + {t}, lookup) ==
            if lookup(t) == [] then FirstsAmong(tokens, lookup) else FirstsAmong(tokens, lookup)[t := lookup(t)[0]]
  {
  }

  /** One more token adds its recorded skill to the side its promotion
      test picks. */
  lemma PromotedStep(ev: Evidence, firsts: map<string, Skill>, tokens: set<string>, t: string, seen: bool)
    requires t in firsts
    ensures PromotedAmong(ev, firsts, tokens + {t}, seen) ==
            PromotedAmong(ev, firsts, tokens, seen) + (if Seen(ev, t) == seen then {firsts[t]} else {})
  {
  }

  /* -------------------------------------------------- category maps */

  function CategoriesOf(skills: set<Skill>): set<string> {
    set s | s in skills :: s.category
  }

  /** `d.setdefault(category, set()).add(name)` for every skill: category
      -> names. */
  function Group(skills: set<Skill>): (g: map<string, set<string>>)
    ensures g.Keys == CategoriesOf(skills)
    ensures forall c, n :: c in g && n in g[c] <==> Skill(n, c) in skills
  {
    map c | c in CategoriesOf(skills) :: set s | s in skills && s.category == c :: s.name
  }

  /** `d.setdefault(s.category, set()).add(s.name)`. */
  function AddSkill(g: map<string, set<string>>, s: Skill): map<string, set<string>> {
    g[s.category := (if s.category in g then g[s.category] else {}) + {s.name}]
  }

  /** Adding one skill to a grouped map is grouping one more skill. */
  lemma GroupAdd(skills: set<Skill>, s: Skill)
    ensures Group(skills + {s}) == AddSkill(Group(skills), s)
  {
    var l := Group(skills + {s});
    var r := AddSkill(Group(skills), s);
    CategoriesAdd(skills, s);
    forall c | c in l
      ensures l[c] == r[c]
    {
      GroupAddAt(skills, s, c);
    }
  }

  /** One more skill adds at most its category. */
  lemma CategoriesAdd(skills: set<Skill>, s: Skill)
    ensures CategoriesOf(skills + {s}) == CategoriesOf(skills) + {s.category}
  {
  }

  /** Under one category, grouping one more skill adds its name when the
      category is the skill's. */
  lemma GroupAddAt(skills: set<Skill>, s: Skill, c: string)
    requires c in CategoriesOf(skills + {s})
    ensures c in AddSkill(Group(skills), s) && Group(skills + {s})[c] == AddSkill(Group(skills), s)[c]
  {
    var g := Group(skills);
    if c == s.category {
      assert AddSkill(g, s)[c] == (if c in g then g[c] else {}) + {s.name};
    } else {
      assert AddSkill(g, s)[c] == g[c];
    }
  }

  /** `{k: sorted(v) for k, v in d.items()}`. */
  function SortValues(g: map<string, set<string>>): (r: map<string, seq<string>>)
    ensures r.Keys == g.Keys
    ensures forall c :: c in r ==> StrictlySorted(r[c]) && Elems(r[c]) == g[c]
  {
    map c | c in g :: SortSet(g[c])
  }

  /** A tier as the scan record stores it: category -> sorted names. */
  function Tier(skills: set<Skill>): (r: map<string, seq<string>>)
    ensures r.Keys == CategoriesOf(skills)
    ensures forall c :: c in r ==> StrictlySorted(r[c])
  {
    SortValues(Group(skills))
  }

  /** Skill `sk` is listed in a tier: its name under its category. */
  predicate Listed(tier: map<string, seq<string>>, sk: Skill) {
    sk.category in tier && sk.name in tier[sk.category]
  }

  /** Every category of `a` is one of `b`, and lists no name `b` lacks
      there. */
  predicate Within(a: map<string, seq<string>>, b: map<string, seq<string>>) {
    forall c :: c in a ==> c in b && Elems(a[c]) <= Elems(b[c])
  }

  /** Every list a map holds is sorted and free of duplicates. */
  predicate ValuesSorted(m: map<string, seq<string>>) {
    forall k :: k in m ==> StrictlySorted(m[k])
  }

  /** Some token has `sk` as its first mapping and passes the promotion
      test exactly when `seen` holds. */
  ghost predicate FirstMappedTo(ev: Evidence, lookup: string -> seq<Skill>, sk: Skill, seen: bool) {
    exists t :: t in Universe(ev) && lookup(t) != [] && lookup(t)[0] == sk && Seen(ev, t) == seen
  }

  /** Some token maps to `sk`, first or not. */
  ghost predicate MappedTo(ev: Evidence, lookup: string -> seq<Skill>, sk: Skill) {
    exists t :: t in Universe(ev) && sk in lookup(t)
  }

  /** A name is listed under a category of a tier exactly when that skill
      is in the tier. */
  lemma InTier(skills: set<Skill>, sk: Skill)
    ensures Listed(Tier(skills), sk) <==> sk in skills
  {
    if sk in skills {
      assert sk.category in CategoriesOf(skills);
    }
  }

  /* ---------------------------------------------------------- lemmas */

  /** The tiers, in full: a name is accepted under a category exactly when
      some token's first mapping is that skill and the token passes the
      promotion test; possible exactly when some token's first mapping is
      that skill and the token fails it; a candidate exactly when it is
      any mapping of some token. */
  lemma TiersExactly(ev: Evidence, lookup: string -> seq<Skill>, sk: Skill)
    ensures Listed(Tier(AcceptedSkills(ev, lookup)), sk) <==> FirstMappedTo(ev, lookup, sk, true)
    ensures Listed(Tier(PossibleSkills(ev, lookup)), sk) <==> FirstMappedTo(ev, lookup, sk, false)
    ensures Listed(Tier(CandidateSkills(ev, lookup)), sk) <==> MappedTo(ev, lookup, sk)
  {
    InTier(AcceptedSkills(ev, lookup), sk);
    InTier(PossibleSkills(ev, lookup), sk);
    InTier(CandidateSkills(ev, lookup), sk);
    PromotedExactly(ev, lookup, sk, true);
    PromotedExactly(ev, lookup, sk, false);
  }

  /** A skill is recorded on one side exactly when some token has it as
      its first mapping and the promotion test picks that side. */
  lemma PromotedExactly(ev: Evidence, lookup: string -> seq<Skill>, sk: Skill, seen: bool)
    ensures var firsts := FirstMappings(ev, lookup);
            sk in PromotedAmong(ev, firsts, firsts.Keys, seen) <==> FirstMappedTo(ev, lookup, sk, seen)
  {
    var firsts := FirstMappings(ev, lookup);
    if sk in PromotedAmong(ev, firsts, firsts.Keys, seen) {
      var t :| t in firsts && Seen(ev, t) == seen && firsts[t] == sk;
      assert t in Universe(ev) && lookup(t) != [] && lookup(t)[0] == sk;
    }
    if FirstMappedTo(ev, lookup, sk, seen) {
      var t :| t in Universe(ev) && lookup(t) != [] && lookup(t)[0] == sk && Seen(ev, t) == seen;
      assert t in firsts;
    }
  }

  /** Promotion rule: the first mapping of every mapped token is listed in
      exactly one of the accepted and possible tiers' sets it contributes
      to, accepted exactly when the token passes the promotion test. */
  lemma PromotionRule(ev: Evidence, lookup: string -> seq<Skill>, t: string)
    requires t in Universe(ev) && lookup(t) != []
    ensures Seen(ev, t) ==> Listed(Tier(AcceptedSkills(ev, lookup)), lookup(t)[0])
    ensures !Seen(ev, t) ==> Listed(Tier(PossibleSkills(ev, lookup)), lookup(t)[0])
  {
    TiersExactly(ev, lookup, lookup(t)[0]);
  }

  /** A larger set of skills has a larger tier, category by category. */
  lemma TierMonotone(a: set<Skill>, b: set<Skill>)
    requires a <= b
    ensures Within(Tier(a), Tier(b))
  {
    forall c | c in Tier(a)
      ensures c in Tier(b) && Elems(Tier(a)[c]) <= Elems(Tier(b)[c])
    {
      var s :| s in a && s.category == c;
      assert c in CategoriesOf(b);
      forall n | n in Tier(a)[c]
        ensures n in Tier(b)[c]
      {
        InTier(a, Skill(n, c));
        InTier(b, Skill(n, c));
      }
    }
  }

  /** Every accepted and every possible name is also a candidate under
      the same category. */
  lemma TiersWithinCandidates(ev: Evidence, lookup: string -> seq<Skill>)
    ensures Within(Tier(AcceptedSkills(ev, lookup)), Tier(CandidateSkills(ev, lookup)))
    ensures Within(Tier(PossibleSkills(ev, lookup)), Tier(CandidateSkills(ev, lookup)))
  {
    var firsts := FirstMappings(ev, lookup);
    forall s | s in AcceptedSkills(ev, lookup) + PossibleSkills(ev, lookup)
      ensures s in CandidateSkills(ev, lookup)
    {
      var t :| t in firsts && firsts[t] == s;
      assert s in lookup(t);
    }
    TierMonotone(AcceptedSkills(ev, lookup), CandidateSkills(ev, lookup));
    TierMonotone(PossibleSkills(ev, lookup), CandidateSkills(ev, lookup));
  }

  /** Without imports and manifest tokens only the paths decide: a
      mapped token is accepted when it was seen in two distinct paths,
      possible otherwise. */
  lemma PathsOnly(ev: Evidence, lookup: string -> seq<Skill>, t: string)
    requires ev.imports == {} && ev.manifest == {}
    requires t in Universe(ev) && lookup(t) != []
    ensures |PathsOf(ev, t)| >= 2 ==> Listed(Tier(AcceptedSkills(ev, lookup)), lookup(t)[0])
    ensures |PathsOf(ev, t)| < 2 ==> Listed(Tier(PossibleSkills(ev, lookup)), lookup(t)[0])
  {
    assert LowerSet(ev.imports) == {} && LowerSet(ev.manifest) == {};
    PromotionRule(ev, lookup, t);
  }

  /** Evidence made of one token: its first mapping is its only tiered
      skill, in the tier the promotion test picks, while every mapping of
      it is a candidate. */
  lemma SingleToken(ev: Evidence, lookup: string -> seq<Skill>, t: string)
    requires Universe(ev) == {t} && lookup(t) != []
    ensures Seen(ev, t) ==> AcceptedSkills(ev, lookup) == {lookup(t)[0]} && PossibleSkills(ev, lookup) == {}
    ensures !Seen(ev, t) ==> AcceptedSkills(ev, lookup) == {} && PossibleSkills(ev, lookup) == {lookup(t)[0]}
    ensures forall s :: s in CandidateSkills(ev, lookup) <==> s in lookup(t)
  {
    assert FirstMappings(ev, lookup) == map[t := lookup(t)[0]];
  }

  /** At most one skill has at most that skill's category. */
  lemma CategoriesOfOne(skills: set<Skill>, s: Skill)
    requires skills == {s} || skills == {}
    ensures forall c :: c in CategoriesOf(skills) ==> c == s.category
  {
    if skills == {} {
      assert CategoriesOf(skills) == {};
    } else {
      assert CategoriesOf(skills) == {s.category};
    }
  }

  /** With one token, a later mapping in another category than the
      first is a candidate and is in neither of the other tiers. */
  lemma OnlyFirstTiered(ev: Evidence, lookup: string -> seq<Skill>, t: string, later: Skill)
    requires Universe(ev) == {t} && lookup(t) != []
    requires later in lookup(t) && later.category != lookup(t)[0].category
    ensures Listed(Tier(CandidateSkills(ev, lookup)), later)
    ensures later.category !in Tier(AcceptedSkills(ev, lookup))
    ensures later.category !in Tier(PossibleSkills(ev, lookup))
  {
    SingleToken(ev, lookup, t);
    InTier(CandidateSkills(ev, lookup), later);
    CategoriesOfOne(AcceptedSkills(ev, lookup), lookup(t)[0]);
    CategoriesOfOne(PossibleSkills(ev, lookup), lookup(t)[0]);
  }

  /** A token with two distinct paths is accepted however it was found,
      and so is every token found in a manifest or by an import
      extractor. */
  lemma StrongSignalsAccepted(ev: Evidence, lookup: string -> seq<Skill>, t: string)
    requires t in Universe(ev) && lookup(t) != []
    requires t in LowerSet(ev.imports) || t in LowerSet(ev.manifest) || |PathsOf(ev, t)| >= 2
    ensures Listed(Tier(AcceptedSkills(ev, lookup)), lookup(t)[0])
  {
    PromotionRule(ev, lookup, t);
  }
}
