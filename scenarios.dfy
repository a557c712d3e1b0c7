/** Concrete cases of the classifier over the taxonomy's own tables. */
module Scenarios {
  import opened Text
  import opened Order
  import opened Taxonomy
  import opened Matching
  import opened Classifier

  /** The first mapping of `azure-pipelines` is Azure: package row
      `azure`, followed by the separator `-`. */
  lemma AzurePipelinesFirst()
    ensures TokenSkills("azure-pipelines") != []
    ensures TokenSkills("azure-pipelines")[0] == Skill("Azure", "Cloud")
  {
    var t := "azure-pipelines";
    LowerOfLowerCase(t);
    assert StartsWith(t, "azure" + "-");
    var rows := PackageTable;
    assert rows[..4] == PackageRows0[..4];
    forall j | 0 <= j < 3
      ensures !PackageKeyMatches(t, rows[j].key)
    {
      PackageKeyMismatch(t, rows[j].key, if j == 0 then 0 else 1);
    }
    MappingsFirst(t, rows, KeywordTable, 3);
    assert rows[3].skill == Skill("Azure", "Cloud");
    assert TokenSkills(t) == Mappings(t, rows, KeywordTable);
  }

  /** `azure-pipelines` also maps to Azure Pipelines, by keyword row. */
  lemma AzurePipelinesKeyword()
    ensures Skill("Azure Pipelines", "CI/CD") in TokenSkills("azure-pipelines")
  {
    var t := "azure-pipelines";
    LowerOfLowerCase(t);
    var e := KeywordTable[4];
    assert e == Entry("azure-pipelines", Skill("Azure Pipelines", "CI/CD"));
    assert OccursAt(e.key, t, 0);
    MappingsMembers(t, PackageTable, KeywordTable, e.skill);
  }

  /** The candidate tier is not the union of the other two: evidence of
      the token `azure-pipelines` in one path makes Azure Pipelines a CI/CD
      candidate, while only the token's first mapping, Azure, is tiered. */
  lemma CandidatesExceedTiers(path: string)
    ensures var ev := Evidence(map["azure-pipelines" := {path}], {}, {});
            && "CI/CD" in Tier(CandidateSkills(ev, TokenSkills))
            && "Azure Pipelines" in Tier(CandidateSkills(ev, TokenSkills))["CI/CD"]
            && "CI/CD" !in Tier(AcceptedSkills(ev, TokenSkills))
            && "CI/CD" !in Tier(PossibleSkills(ev, TokenSkills))
  {
    var t := "azure-pipelines";
    var ev := Evidence(map[t := {path}], {}, {});
    LowerOfLowerCase(t);
    assert ev.packages.Keys == {t};
    assert Universe(ev) == {t};
    AzurePipelinesFirst();
    AzurePipelinesKeyword();
    OnlyFirstTiered(ev, TokenSkills, t, Skill("Azure Pipelines", "CI/CD"));
  }
}
