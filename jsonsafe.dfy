/** `make_json_safe`: the results, as nested values, with every set
    turned into its sorted list before they are written as JSON. */
module JsonSafe {
  import opened Order
  import opened ScanSpec
  import opened Repo
  import opened Aggregate

  /** The values the results hold: strings, numbers, flags, lists,
      dictionaries with string keys, as their items in order, and sets of
      strings. */
  datatype Value =
    | Str(s: string)
    | Int(i: int)
    | Bool(b: bool)
    | Null
    | List(items: seq<Value>)
    | Dict(entries: seq<(string, Value)>)
    | StrSet(elems: set<string>)

  /** The value holds no set anywhere. */
  predicate NoSets(v: Value) {
    match v
    case List(items) => forall i :: 0 <= i < |items| ==> NoSets(items[i])
    case Dict(entries) => forall i :: 0 <= i < |entries| ==> NoSets(entries[i].1)
    case StrSet(_) => false
    case _ => true
  }

  /** A list of strings as list values. */
  function Strs(xs: seq<string>): (r: seq<Value>)
    ensures |r| == |xs|
    ensures forall i :: 0 <= i < |xs| ==> r[i] == Str(xs[i])
  {
    seq(|xs|, i requires 0 <= i < |xs| => Str(xs[i]))
  }

  /** The keys of a dictionary's items, in order. */
  function Keys(entries: seq<(string, Value)>): (r: seq<string>)
    ensures |r| == |entries|
    ensures forall i :: 0 <= i < |entries| ==> r[i] == entries[i].0
  {
    seq(|entries|, i requires 0 <= i < |entries| => entries[i].0)
  }

  /** `make_json_safe(obj)`: dictionaries keep their keys with every value
      made safe, lists keep their length and order with every element made
      safe, a set becomes its sorted list, and anything else is returned
      as it is. */
  function MakeJsonSafe(v: Value): (r: Value)
    decreases v
  {
    match v
    case Dict(entries) =>
      Dict(seq(|entries|, i requires 0 <= i < |entries| => (entries[i].0, MakeJsonSafe(entries[i].1))))
    case List(items) => List(seq(|items|, i requires 0 <= i < |items| => MakeJsonSafe(items[i])))
    case StrSet(elems) => List(Strs(SortSet(elems)))
    case _ => v
  }

  /** The shape of the result: the same kind of value with the same keys
      and the same length, a set's elements sorted as a list of strings,
      and every other value untouched. */
  lemma MakeJsonSafeShape(v: Value)
    ensures v.Dict? ==> MakeJsonSafe(v).Dict? && Keys(MakeJsonSafe(v).entries) == Keys(v.entries)
    ensures v.List? ==> MakeJsonSafe(v).List? && |MakeJsonSafe(v).items| == |v.items|
    ensures v.StrSet? ==> MakeJsonSafe(v) == List(Strs(SortSet(v.elems)))
    ensures !v.Dict? && !v.List? && !v.StrSet? ==> MakeJsonSafe(v) == v
  {
  }

  /** A set becomes the list of its elements, sorted and free of
      duplicates. */
  lemma SetBecomesSorted(elems: set<string>)
    ensures MakeJsonSafe(StrSet(elems)).List?
    ensures var xs := MakeJsonSafe(StrSet(elems)).items;
            && |xs| == |elems|
            && (forall i :: 0 <= i < |xs| ==> xs[i].Str? && xs[i].s in elems)
            && (forall e :: e in elems ==> Str(e) in xs)
            && (forall i, j :: 0 <= i < j < |xs| ==> Less(xs[i].s, xs[j].s))
  {
    var sorted := SortSet(elems);
    forall e | e in elems
      ensures Str(e) in Strs(sorted)
    {
      assert e in Elems(sorted);
      var i :| 0 <= i < |sorted| && sorted[i] == e;
      assert Strs(sorted)[i] == Str(e);
    }
  }

  /** The result holds no set. */
  lemma {:induction false} MakeJsonSafeNoSets(v: Value)
    ensures NoSets(MakeJsonSafe(v))
    decreases v
  {
    match v
    case Dict(entries) =>
      forall i | 0 <= i < |entries|
        ensures NoSets(MakeJsonSafe(entries[i].1))
      {
        MakeJsonSafeNoSets(entries[i].1);
      }
    case List(items) =>
      forall i | 0 <= i < |items|
        ensures NoSets(MakeJsonSafe(items[i]))
      {
        MakeJsonSafeNoSets(items[i]);
      }
    case _ =>
  }

  /** A value without sets is already safe: it is returned unchanged. */
  lemma {:induction false} MakeJsonSafeFixes(v: Value)
    requires NoSets(v)
    ensures MakeJsonSafe(v) == v
    decreases v
  {
    match v
    case Dict(entries) =>
      forall i | 0 <= i < |entries|
        ensures MakeJsonSafe(entries[i].1) == entries[i].1
      {
        MakeJsonSafeFixes(entries[i].1);
      }
      assert MakeJsonSafe(v).entries == entries;
    case List(items) =>
      forall i | 0 <= i < |items|
        ensures MakeJsonSafe(items[i]) == items[i]
      {
        MakeJsonSafeFixes(items[i]);
      }
      assert MakeJsonSafe(v).items == items;
    case _ =>
  }

  /** Making a value safe twice is making it safe once. */
  lemma MakeJsonSafeIdempotent(v: Value)
    ensures MakeJsonSafe(MakeJsonSafe(v)) == MakeJsonSafe(v)
  {
    MakeJsonSafeNoSets(v);
    MakeJsonSafeFixes(MakeJsonSafe(v));
  }

  /* ------------------------------------------------- the scan record */

  /** A list of strings as a list value. */
  function StrList(xs: seq<string>): (v: Value)
    ensures NoSets(v)
  {
    List(Strs(xs))
  }

  /** A tier, `packages_found` or `evidence`, given by its items in the
      dictionary's order: keys to lists of strings. */
  function ListsValue(items: seq<(string, seq<string>)>): (r: Value)
    ensures NoSets(r)
  {
    Dict(seq(|items|, i requires 0 <= i < |items| => (items[i].0, StrList(items[i].1))))
  }

  /** The items of the five maps of a record, in the order the dictionaries
      hold them, which the model leaves open (`ItemsOf` says when they list
      a map). */
  datatype MapItems = MapItems(packages: seq<(string, seq<string>)>, candidate: seq<(string, seq<string>)>,
                               accepted: seq<(string, seq<string>)>, possible: seq<(string, seq<string>)>,
                               evidence: seq<(string, seq<string>)>)

  /** `o` lists the items of the record's five maps. */
  predicate ItemsOfRecord(r: ScanRecord, o: MapItems) {
    && ItemsOf(o.packages, r.packagesFound) && ItemsOf(o.candidate, r.candidate)
    && ItemsOf(o.accepted, r.accepted) && ItemsOf(o.possible, r.possible) && ItemsOf(o.evidence, r.evidence)
  }

  /** The keys of a record's dictionary, in the order `scan_repo` creates
      them. */
  const RecordKeys: seq<string> :=
    [ "repo_url", "repo_name", "cloned", "errors", "languages", "packages_found", "imports_found",
      "manifest_tokens", "file_extensions", "file_paths", "candidate_skills_by_category",
      "accepted_skills_by_category", "possible_skills_by_category", "evidence", "files_scanned" ]

  /** The positions of the four collections `scan_repo` fills as sets. */
  predicate IsSetItem(i: nat) { i == 4 || i == 6 || i == 7 || i == 8 }

  /** The value under the `i`-th key of a record's dictionary, for the
      eleven keys whose value holds no set. */
  function FixedValue(r: ScanRecord, o: MapItems, i: nat): (v: Value)
    requires i < 15 && !IsSetItem(i)
    ensures NoSets(v)
  {
    match i
    case 0 => Str(r.repoUrl)
    case 1 => Str(r.repoName)
    case 2 => Bool(r.cloned)
    case 3 => StrList(r.errors)
    case 5 => ListsValue(o.packages)
    case 9 => StrList(r.filePaths)
    case 10 => ListsValue(o.candidate)
    case 11 => ListsValue(o.accepted)
    case 12 => ListsValue(o.possible)
    case 13 => ListsValue(o.evidence)
    case _ => Int(r.filesScanned)
  }

  /** The value under the `i`-th key of a record's dictionary, with the
      four collections given as values. */
  function ItemValue(r: ScanRecord, o: MapItems, i: nat, languages: Value, imports: Value, tokens: Value, exts: Value): (v: Value)
    requires i < 15
    ensures !IsSetItem(i) ==> NoSets(v)
  {
    if i == 4 then languages
    else if i == 6 then imports
    else if i == 7 then tokens
    else if i == 8 then exts
    else FixedValue(r, o, i)
  }

  /** The items of a record's dictionary. */
  function Items(r: ScanRecord, o: MapItems, languages: Value, imports: Value, tokens: Value, exts: Value): (e: seq<(string, Value)>)
    ensures |e| == 15
  {
    seq(15, i requires 0 <= i < 15 => (RecordKeys[i], ItemValue(r, o, i, languages, imports, tokens, exts)))
  }

  /** The dictionary `scan_repo` returns: `file_extensions` is still a
      set, and after a failed clone, which returns before the final sorts,
      so are `languages`, `imports_found` and `manifest_tokens`. */
  function RecordValue(r: ScanRecord, o: MapItems): Value {
    if r.cloned then
      Dict(Items(r, o, StrList(r.languages), StrList(r.importsFound), StrList(r.manifestTokens), StrSet(r.fileExtensions)))
    else
      Dict(Items(r, o, StrSet(Elems(r.languages)), StrSet(Elems(r.importsFound)), StrSet(Elems(r.manifestTokens)),
                 StrSet(r.fileExtensions)))
  }

  /** The record as it is written: every collection a list, the
      extensions sorted. */
  function JsonRecord(r: ScanRecord, o: MapItems): Value {
    Dict(Items(r, o, StrList(r.languages), StrList(r.importsFound), StrList(r.manifestTokens), StrList(SortSet(r.fileExtensions))))
  }

  /** A sorted list of strings is what its set becomes. */
  lemma SortedListOfSet(xs: seq<string>)
    requires StrictlySorted(xs)
    ensures MakeJsonSafe(StrSet(Elems(xs))) == StrList(xs)
  {
    SortSetOfSorted(xs);
  }

  /** A dictionary is made safe item by item. */
  lemma DictMadeSafe(e: seq<(string, Value)>, f: seq<(string, Value)>)
    requires |e| == |f|
    requires forall i :: 0 <= i < |e| ==> e[i].0 == f[i].0 && MakeJsonSafe(e[i].1) == f[i].1
    ensures MakeJsonSafe(Dict(e)) == Dict(f)
  {
    assert MakeJsonSafe(Dict(e)).entries == f;
  }

  /** Making one item of a record's dictionary safe. */
  lemma ItemMadeSafe(r: ScanRecord, o: MapItems, i: nat, languages: Value, imports: Value, tokens: Value, exts: Value)
    requires i < 15
    ensures MakeJsonSafe(ItemValue(r, o, i, languages, imports, tokens, exts))
            == ItemValue(r, o, i, MakeJsonSafe(languages), MakeJsonSafe(imports), MakeJsonSafe(tokens), MakeJsonSafe(exts))
  {
    if !IsSetItem(i) {
      MakeJsonSafeFixes(FixedValue(r, o, i));
    }
  }

  /** Making a record's dictionary safe makes its four collections safe
      and leaves every other item as it is. */
  lemma ItemsMadeSafe(r: ScanRecord, o: MapItems, languages: Value, imports: Value, tokens: Value, exts: Value)
    ensures MakeJsonSafe(Dict(Items(r, o, languages, imports, tokens, exts)))
            == Dict(Items(r, o, MakeJsonSafe(languages), MakeJsonSafe(imports), MakeJsonSafe(tokens), MakeJsonSafe(exts)))
  {
    var e := Items(r, o, languages, imports, tokens, exts);
    var f := Items(r, o, MakeJsonSafe(languages), MakeJsonSafe(imports), MakeJsonSafe(tokens), MakeJsonSafe(exts));
    forall i | 0 <= i < |e|
      ensures e[i].0 == f[i].0 && MakeJsonSafe(e[i].1) == f[i].1
    {
      ItemMadeSafe(r, o, i, languages, imports, tokens, exts);
    }
    DictMadeSafe(e, f);
  }

  /** Making the record safe sorts `file_extensions` and, after a failed
      clone, turns the sets it still holds into their sorted lists;
      nothing else changes. */
  lemma RecordMadeSafe(r: ScanRecord, o: MapItems)
    requires SortedRecord(r)
    ensures MakeJsonSafe(RecordValue(r, o)) == JsonRecord(r, o)
  {
    if r.cloned {
      MakeJsonSafeFixes(StrList(r.languages));
      MakeJsonSafeFixes(StrList(r.importsFound));
      MakeJsonSafeFixes(StrList(r.manifestTokens));
      ItemsMadeSafe(r, o, StrList(r.languages), StrList(r.importsFound), StrList(r.manifestTokens), StrSet(r.fileExtensions));
    } else {
      SortedListOfSet(r.languages);
      SortedListOfSet(r.importsFound);
      SortedListOfSet(r.manifestTokens);
      ItemsMadeSafe(r, o, StrSet(Elems(r.languages)), StrSet(Elems(r.importsFound)), StrSet(Elems(r.manifestTokens)),
                    StrSet(r.fileExtensions));
    }
  }

  /** The record `scan_repo` returns is written with every collection a
      sorted list, whatever the outcome of the clone and in whatever order
      its maps hold their items. */
  lemma ScanRecordMadeSafe(tx: Tables, url: string, cloneError: Option<string>, files: seq<FileEntry>, o: MapItems)
    ensures MakeJsonSafe(RecordValue(RecordOf(tx, url, cloneError, files), o)) == JsonRecord(RecordOf(tx, url, cloneError, files), o)
  {
    RecordSorted(tx, url, cloneError, files);
    RecordMadeSafe(RecordOf(tx, url, cloneError, files), o);
  }

  /* ------------------------------------------------------ the results */

  /** `{"repos": [...], "aggregated": ..., "summary": {"resume_bullets":
      [...]}}`, with the records, the aggregate's items in its order and
      the bullets. */
  function ResultsValue(repos: seq<Value>, aggregated: seq<(string, seq<string>)>, bullets: seq<string>): Value {
    Dict([("repos", List(repos)), ("aggregated", ListsValue(aggregated)),
          ("summary", Dict([("resume_bullets", StrList(bullets))]))])
  }

  /** The record values of a run, each with the order of its maps. */
  function RecordValues(records: seq<ScanRecord>, orders: seq<MapItems>): (r: seq<Value>)
    requires |records| == |orders|
    ensures |r| == |records|
  {
    seq(|records|, i requires 0 <= i < |records| => RecordValue(records[i], orders[i]))
  }

  /** The records as they are written. */
  function JsonRecords(records: seq<ScanRecord>, orders: seq<MapItems>): (r: seq<Value>)
    requires |records| == |orders|
    ensures |r| == |records|
  {
    seq(|records|, i requires 0 <= i < |records| => JsonRecord(records[i], orders[i]))
  }

  /** What `json.dump` receives: the results with every record made safe
      and the aggregate and the bullets as they are. */
  lemma ResultsMadeSafe(records: seq<ScanRecord>, orders: seq<MapItems>, aggregated: seq<(string, seq<string>)>,
                        bullets: seq<string>)
    requires |records| == |orders|
    requires forall i :: 0 <= i < |records| ==> SortedRecord(records[i])
    ensures MakeJsonSafe(ResultsValue(RecordValues(records, orders), aggregated, bullets))
            == ResultsValue(JsonRecords(records, orders), aggregated, bullets)
  {
    var repos := RecordValues(records, orders);
    forall i | 0 <= i < |repos|
      ensures MakeJsonSafe(repos[i]) == JsonRecords(records, orders)[i]
    {
      RecordMadeSafe(records[i], orders[i]);
    }
    assert MakeJsonSafe(List(repos)) == List(JsonRecords(records, orders));
    MakeJsonSafeFixes(ListsValue(aggregated));
    var summary := Dict([("resume_bullets", StrList(bullets))]);
    MakeJsonSafeFixes(summary);
    var e := ResultsValue(repos, aggregated, bullets).entries;
    var f := ResultsValue(JsonRecords(records, orders), aggregated, bullets).entries;
    DictMadeSafe(e, f);
  }
}
