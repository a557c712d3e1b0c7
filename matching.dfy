/** Matching a token or a text against the taxonomy tables:
    `keyword_present` (whole-word search for short keys, substring search
    for longer ones) and `map_token_to_skill`. */
module Matching {
  import opened Text
  import opened Taxonomy

  /* ---------------------------------------------------- keyword_present */

  /** A character of the regular-expression class `\w`, restricted to
      ASCII: letters, digits and the underscore. */
  predicate IsWordChar(c: char) {
    'a' <= c <= 'z' || 'A' <= c <= 'Z' || '0' <= c <= '9' || c == '_'
  }

  /** Index `i` holds a word character (an index outside the text holds
      none). */
  predicate WordCharAt(text: string, i: int) {
    0 <= i < |text| && IsWordChar(text[i])
  }

  /** `\b` matches at position `i` (between `text[i-1]` and `text[i]`):
      exactly one of the two sides is a word character. */
  predicate IsBoundary(text: string, i: int) {
    WordCharAt(text, i - 1) != WordCharAt(text, i)
  }

  /** The pattern `\bkey\b` matches at position `i`. */
  predicate WholeWordAt(key: string, text: string, i: nat) {
    OccursAt(key, text, i) && IsBoundary(text, i) && IsBoundary(text, i + |key|)
  }

  /** Searches for `\bkey\b` from position `i` onwards, as `re.search`
      does. */
  function FindWholeWord(key: string, text: string, i: nat): (r: bool)
    requires i <= |text| + 1
    ensures r <==> exists j :: i <= j <= |text| && WholeWordAt(key, text, j)
    decreases |text| + 1 - i
  {
    if i > |text| then false
    else WholeWordAt(key, text, i) || FindWholeWord(key, text, i + 1)
  }

  /** `keyword_present(key, text)`: a key of at most four characters has
      to occur as a whole word, a longer key anywhere. */
  function KeywordPresent(key: string, text: string): (r: bool)
    ensures |key| <= 4 ==> (r <==> exists j :: 0 <= j <= |text| && WholeWordAt(key, text, j))
    ensures |key| > 4 ==> (r <==> exists j :: 0 <= j <= |text| && OccursAt(key, text, j))
  {
    if |key| <= 4 then FindWholeWord(key, text, 0) else Contains(text, key)
  }

  /** For a key that begins and ends with a word character (every short
      key of the taxonomy does), a whole-word match is an occurrence that
      is not preceded and not followed by a word character. */
  lemma WholeWordOfWordKey(key: string, text: string, j: nat)
    requires 0 < |key| && IsWordChar(key[0]) && IsWordChar(key[|key| - 1])
    ensures WholeWordAt(key, text, j) <==>
              && OccursAt(key, text, j)
              && (j == 0 || !IsWordChar(text[j - 1]))
              && (j + |key| == |text| || !IsWordChar(text[j + |key|]))
  {
    if OccursAt(key, text, j) {
      assert text[j] == key[0];
      assert text[j + |key| - 1] == key[|key| - 1];
    }
  }

  /** A three-letter key does not match inside a longer word ... */
  lemma ShortKeyNotInsideWord()
    ensures !KeywordPresent("mpi", "compile")
  {
    var text := "compile";
    forall j | 0 <= j <= |text|
      ensures !WholeWordAt("mpi", text, j)
    {
      if j == 2 {
        assert WordCharAt(text, 1) && WordCharAt(text, 2);
      } else if j + 3 <= |text| {
        assert text[j..j + 3][0] == text[j] != 'm';
      }
    }
  }

  /** ... but does match on its own, and a longer key matches anywhere. */
  lemma ShortKeyAsWord()
    ensures KeywordPresent("mpi", "use mpi;")
    ensures KeywordPresent("redis", "myredisclient")
  {
    assert WholeWordAt("mpi", "use mpi;", 4);
    assert OccursAt("redis", "myredisclient", 2);
  }

  /* ------------------------------------------------------------- rules */

  /** `token == key or token.startswith((key + "-", key + "_", key + "."))`. */
  predicate PackageKeyMatches(token: string, key: string) {
    || token == key
    || StartsWith(token, key + "-")
    || StartsWith(token, key + "_")
    || StartsWith(token, key + ".")
  }

  /** A package key matches exactly when the token is the key or the key
      followed by `-`, `_` or `.` and anything. */
  lemma PackageKeyMatchesIff(token: string, key: string)
    ensures PackageKeyMatches(token, key) <==>
              && StartsWith(token, key)
              && (|token| == |key| || token[|key|] in {'-', '_', '.'})
  {
    if StartsWith(token, key) && |token| > |key| {
      var c := token[|key|];
      assert token[..|key| + 1] == key + [c];
    }
    if StartsWith(token, key + "-") { assert token[..|key|] == (key + "-")[..|key|]; }
    if StartsWith(token, key + "_") { assert token[..|key|] == (key + "_")[..|key|]; }
    if StartsWith(token, key + ".") { assert token[..|key|] == (key + ".")[..|key|]; }
  }

  /** A token that differs from a key at a position both have does not
      match that key. */
  lemma PackageKeyMismatch(token: string, key: string, k: nat)
    requires k < |key| && k < |token| && token[k] != key[k]
    ensures !PackageKeyMatches(token, key)
  {
    PackageKeyMatchesIff(token, key);
    assert |key| <= |token| ==> token[..|key|][k] != key[k];
  }

  /** The three ways a table key is matched. */
  datatype Rule =
    | PackageRule(token: string)               // map_token_to_skill, package table
    | KeywordRule(token: string)               // map_token_to_skill, keyword table: `key in token`
    | TextRule(content: string, path: string)  // scan_repo: keyword_present on content or path

  predicate Applies(rule: Rule, key: string) {
    match rule
    case PackageRule(token) => PackageKeyMatches(token, key)
    case KeywordRule(token) => Contains(token, key)
    case TextRule(content, path) => KeywordPresent(key, content) || KeywordPresent(key, path)
  }

  /** The rows of `table` whose key the rule accepts, in table order. */
  function Select(rule: Rule, table: seq<Entry>): (r: seq<Entry>)
    ensures |r| <= |table|
    decreases |table|
  {
    if table == [] then []
    else
      var last := table[|table| - 1];
      Select(rule, table[..|table| - 1]) + (if Applies(rule, last.key) then [last] else [])
  }

  /** One more row at the end of the table. */
  lemma SelectSnoc(rule: Rule, table: seq<Entry>, e: Entry)
    ensures Select(rule, table + [e]) == Select(rule, table) + (if Applies(rule, e.key) then [e] else [])
  {
    assert (table + [e])[..|table|] == table;
  }

  /** A row is selected exactly when it is in the table and the rule
      accepts its key. */
  lemma {:induction false} SelectMembers(rule: Rule, table: seq<Entry>, e: Entry)
    ensures e in Select(rule, table) <==> e in table && Applies(rule, e.key)
    decreases |table|
  {
    if table != [] {
      var init := table[..|table| - 1];
      SelectMembers(rule, init, e);
      assert table == init + [table[|table| - 1]];
    }
  }

  /** The selected rows are the accepted rows in table order: the
      positions they come from are strictly increasing and are exactly the
      accepted positions. */
  lemma {:induction false} SelectOrder(rule: Rule, table: seq<Entry>)
    returns (idx: seq<nat>)
    ensures |idx| == |Select(rule, table)|
    ensures forall k :: 0 <= k < |idx| ==> idx[k] < |table| && Select(rule, table)[k] == table[idx[k]]
    ensures forall k, l :: 0 <= k < l < |idx| ==> idx[k] < idx[l]
    ensures forall i :: 0 <= i < |table| ==> (i in idx <==> Applies(rule, table[i].key))
    decreases |table|
  {
    if table == [] {
      idx := [];
    } else {
      var n := |table| - 1;
      var init := table[..n];
      var pre := SelectOrder(rule, init);
      assert forall i :: 0 <= i < n ==> init[i] == table[i];
      var s0 := Select(rule, init);
      assert forall k :: 0 <= k < |pre| ==> pre[k] < n;
      if Applies(rule, table[n].key) {
        idx := pre + [n];
        assert Select(rule, table) == s0 + [table[n]];
        assert forall k :: 0 <= k < |pre| ==> idx[k] == pre[k];
      } else {
        idx := pre;
        assert Select(rule, table) == s0;
      }
    }
  }

  /** The first selected row is the first accepted row. */
  lemma SelectFirst(rule: Rule, table: seq<Entry>, i: nat)
    requires i < |table| && Applies(rule, table[i].key)
    requires forall j :: 0 <= j < i ==> !Applies(rule, table[j].key)
    ensures Select(rule, table) != [] && Select(rule, table)[0] == table[i]
  {
    var idx := SelectOrder(rule, table);
    assert i in idx;
    var k :| 0 <= k < |idx| && idx[k] == i;
    assert idx[0] in idx;
    assert Applies(rule, table[idx[0]].key);
    assert idx[0] >= i;
    assert k == 0;
  }

  /* ------------------------------------------------- map_token_to_skill */

  function SkillsOf(rows: seq<Entry>): (r: seq<Skill>)
    ensures |r| == |rows|
    ensures forall k :: 0 <= k < |rows| ==> r[k] == rows[k].skill
  {
    seq(|rows|, k requires 0 <= k < |rows| => rows[k].skill)
  }

  /** The mappings of a lower-cased token against a package table and a
      keyword table: the package matches, then the keyword matches, each
      in table order. */
  function Mappings(t: string, packages: seq<Entry>, keywords: seq<Entry>): seq<Skill> {
    SkillsOf(Select(PackageRule(t), packages)) + SkillsOf(Select(KeywordRule(t), keywords))
  }

  /** What `map_token_to_skill(token)` returns. */
  function TokenSkills(token: string): seq<Skill> {
    Mappings(LowerStr(token), PackageTable, KeywordTable)
  }

  /** A skill is among the mappings exactly when a package row for it
      matches the token by equality or separator prefix, or a keyword row
      for it has its key inside the token. */
  lemma MappingsMembers(t: string, packages: seq<Entry>, keywords: seq<Entry>, s: Skill)
    ensures s in Mappings(t, packages, keywords) <==>
              || (exists e :: e in packages && e.skill == s && PackageKeyMatches(t, e.key))
              || (exists e :: e in keywords && e.skill == s && Contains(t, e.key))
  {
    var p := Select(PackageRule(t), packages);
    var q := Select(KeywordRule(t), keywords);
    if s in SkillsOf(p) {
      var k :| 0 <= k < |p| && SkillsOf(p)[k] == s;
      SelectMembers(PackageRule(t), packages, p[k]);
    }
    if s in SkillsOf(q) {
      var k :| 0 <= k < |q| && SkillsOf(q)[k] == s;
      SelectMembers(KeywordRule(t), keywords, q[k]);
    }
    if e :| e in packages && e.skill == s && PackageKeyMatches(t, e.key) {
      SelectMembers(PackageRule(t), packages, e);
      var k :| 0 <= k < |p| && p[k] == e;
      assert SkillsOf(p)[k] == s;
    }
    if e :| e in keywords && e.skill == s && Contains(t, e.key) {
      SelectMembers(KeywordRule(t), keywords, e);
      var k :| 0 <= k < |q| && q[k] == e;
      assert SkillsOf(q)[k] == s;
    }
  }

  /** The first mapping comes from the first package row that matches. */
  lemma MappingsFirst(t: string, packages: seq<Entry>, keywords: seq<Entry>, i: nat)
    requires i < |packages| && PackageKeyMatches(t, packages[i].key)
    requires forall j :: 0 <= j < i ==> !PackageKeyMatches(t, packages[j].key)
    ensures Mappings(t, packages, keywords) != []
    ensures Mappings(t, packages, keywords)[0] == packages[i].skill
  {
    SelectFirst(PackageRule(t), packages, i);
  }

  /** The same for the taxonomy's own tables and `map_token_to_skill`. */
  lemma TokenSkillsMembers(token: string, s: Skill)
    ensures s in TokenSkills(token) <==>
              || (exists e :: e in PackageTable && e.skill == s && PackageKeyMatches(LowerStr(token), e.key))
              || (exists e :: e in KeywordTable && e.skill == s && Contains(LowerStr(token), e.key))
  {
    MappingsMembers(LowerStr(token), PackageTable, KeywordTable, s);
  }

  /** Extending a table prefix by one row extends the selected skills by
      that row's skill when the rule accepts its key. */
  lemma SelectedSkillsStep(rule: Rule, table: seq<Entry>, i: nat)
    requires i < |table|
    ensures SkillsOf(Select(rule, table[..i + 1])) ==
              SkillsOf(Select(rule, table[..i])) + (if Applies(rule, table[i].key) then [table[i].skill] else [])
  {
    assert table[..i + 1] == table[..i] + [table[i]];
    SelectSnoc(rule, table[..i], table[i]);
    var a := Select(rule, table[..i]);
    var extra: seq<Entry> := if Applies(rule, table[i].key) then [table[i]] else [];
    assert SkillsOf(a + extra) == SkillsOf(a) + SkillsOf(extra);
  }

  /** One pass of `map_token_to_skill` over a table: the skill of every
      row whose key the rule accepts is appended, in table order. */
  method AppendMatches(results: seq<Skill>, rule: Rule, table: seq<Entry>) returns (results': seq<Skill>)
    ensures results' == results + SkillsOf(Select(rule, table))
  {
    results' := results;
    var i := 0;
    while i < |table|
      invariant 0 <= i <= |table|
      invariant results' == results + SkillsOf(Select(rule, table[..i]))
    {
      var e := table[i];
      SelectedSkillsStep(rule, table, i);
      if Applies(rule, e.key) {
        results' := results' + [e.skill];
      }
      i := i + 1;
    }
    assert table[..i] == table;
  }

  /** `map_token_to_skill` against any pair of tables: a pass over the
      package table, matching the token by equality or separator prefix,
      then a pass over the keyword table, matching keys inside the
      token. */
  method MapToken(token: string, packages: seq<Entry>, keywords: seq<Entry>) returns (results: seq<Skill>)
    ensures results == Mappings(LowerStr(token), packages, keywords)
  {
    var tl := LowerStr(token);
    results := AppendMatches([], PackageRule(tl), packages);
    results := AppendMatches(results, KeywordRule(tl), keywords);
  }

  /** `map_token_to_skill` itself, over the taxonomy's tables. */
  method MapTokenToSkill(token: string) returns (results: seq<Skill>)
    ensures results == TokenSkills(token)
  {
    results := MapToken(token, PackageTable, KeywordTable);
  }
}
