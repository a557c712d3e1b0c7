/** `scan_repo` as the program runs it: a scan whose fields the walk
    updates file by file, the two loops of the classifier, and the record
    written at the end. Each step is proved against the functions of
    `ScanSpec` and `Classifier`. */
module Scanner {
  import opened Text
  import opened Order
  import opened Taxonomy
  import opened Matching
  import opened Extractors
  import opened Classifier
  import opened ScanSpec

  /* --------------------------------------------------- path lists */

  /** The paths a list map holds under each key: `{k: set(v) for k, v in
      m.items()}`. */
  function Paths(m: map<string, seq<string>>): (r: map<string, set<string>>)
    ensures r.Keys == m.Keys
    ensures forall k :: k in r ==> r[k] == Elems(m[k])
  {
    map k | k in m :: Elems(m[k])
  }

  /** `m.setdefault(k, []).append(p)`. */
  function Append(m: map<string, seq<string>>, k: string, p: string): (r: map<string, seq<string>>)
    ensures r.Keys == m.Keys + {k}
  {
    m[k := (if k in m then m[k] else []) + [p]]
  }

  /** The elements of a list with one more element. */
  lemma ElemsSnoc(xs: seq<string>, x: string)
    ensures Elems(xs + [x]) == Elems(xs) + {x}
  {
  }

  /** One append, at one key. */
  lemma AppendAddsAt(m: map<string, seq<string>>, s: map<string, set<string>>, keys: set<string>, k: string, p: string, j: string)
    requires Paths(m) == AddPath(s, keys, p)
    requires j in Append(m, k, p)
    ensures Elems(Append(m, k, p)[j]) == Added(s, keys + {k}, p, j)
  {
    var m' := Append(m, k, p);
    if j == k {
      var old_ := if k in m then m[k] else [];
      assert m'[k] == old_ + [p];
      ElemsSnoc(old_, p);
      assert Elems(old_) == GetSet(AddPath(s, keys, p), k);
    } else {
      assert m'[j] == m[j];
      assert Elems(m[j]) == Added(s, keys, p, j);
    }
  }

  /** One append is one more key the path is added under. */
  lemma AppendAdds(m: map<string, seq<string>>, s: map<string, set<string>>, keys: set<string>, k: string, p: string)
    requires Paths(m) == AddPath(s, keys, p)
    ensures Paths(Append(m, k, p)) == AddPath(s, keys + {k}, p)
  {
    var l := Paths(Append(m, k, p));
    var r := AddPath(s, keys + {k}, p);
    assert l.Keys == r.Keys;
    forall j | j in l
      ensures l[j] == r[j]
    {
      AppendAddsAt(m, s, keys, k, p, j);
    }
  }

  /** One append adds the path under that one key. */
  lemma AppendOne(m: map<string, seq<string>>, k: string, p: string)
    ensures Paths(Append(m, k, p)) == AddPath(Paths(m), {k}, p)
  {
    AddNothing(Paths(m), p);
    AppendAdds(m, Paths(m), {}, k, p);
    assert {} + {k} == {k};
  }

  /** `for k in keys: m.setdefault(k, []).append(p)`. */
  function AppendAll(m: map<string, seq<string>>, keys: seq<string>, p: string): map<string, seq<string>>
    decreases |keys|
  {
    if keys == [] then m
    else Append(AppendAll(m, keys[..|keys| - 1], p), keys[|keys| - 1], p)
  }

  /** One more key at the end of the list is one more append. */
  lemma AppendAllSnoc(m: map<string, seq<string>>, keys: seq<string>, k: string, p: string)
    ensures AppendAll(m, keys + [k], p) == Append(AppendAll(m, keys, p), k, p)
  {
    assert (keys + [k])[..|keys|] == keys;
  }

  /** Appending under a list of keys adds the path under each of them,
      and under nothing else. */
  lemma {:induction false} AppendAllPaths(m: map<string, seq<string>>, keys: seq<string>, p: string)
    ensures Paths(AppendAll(m, keys, p)) == AddPath(Paths(m), Elems(keys), p)
    decreases |keys|
  {
    if keys == [] {
      assert Elems(keys) == {};
      AddNothing(Paths(m), p);
    } else {
      var init := keys[..|keys| - 1];
      var k := keys[|keys| - 1];
      assert keys == init + [k];
      AppendAllSnoc(m, init, k, p);
      ElemsSnoc(init, k);
      AppendAllPaths(m, init, p);
      AppendAdds(AppendAll(m, init, p), Paths(m), Elems(init), k, p);
    }
  }

  /** The keys of some rows and one more. */
  lemma RowsSnoc(rows: seq<Entry>, e: Entry)
    ensures Keys(rows + [e]) == Keys(rows) + [e.key]
    ensures Names(rows + [e]) == Names(rows) + [e.skill.name]
  {
  }

  /* --------------------------------------------------- inner loops */

  /** The loop over a manifest's tokens: each is added to
      `manifest_tokens` and appends the path. */
  method AddTokens(tokens: set<string>, pf: map<string, seq<string>>, toks: seq<string>, rel: string)
    returns (tokens': set<string>, pf': map<string, seq<string>>)
    ensures tokens' == tokens + Elems(toks)
    ensures pf' == AppendAll(pf, toks, rel)
  {
    tokens', pf' := tokens, pf;
    for i := 0 to |toks|
      invariant tokens' == tokens + Elems(toks[..i])
      invariant pf' == AppendAll(pf, toks[..i], rel)
    {
      assert toks[..i + 1] == toks[..i] + [toks[i]];
      AppendAllSnoc(pf, toks[..i], toks[i], rel);
      assert Elems(toks[..i + 1]) == Elems(toks[..i]) + {toks[i]} by {
        assert toks[..i + 1] == toks[..i] + [toks[i]];
      }
      tokens' := tokens' + {toks[i]};
      pf' := Append(pf', toks[i], rel);
    }
    assert toks[..|toks|] == toks;
  }

  /** The loop over the packages an import extractor returned: each is
      added to `imports_found` and appends the path. The set is visited in
      an order the model leaves open; `order` is the order taken. */
  method AddImports(imports: set<string>, pf: map<string, seq<string>>, pkgs: set<string>, rel: string)
    returns (imports': set<string>, pf': map<string, seq<string>>, ghost order: seq<string>)
    ensures imports' == imports + pkgs
    ensures Elems(order) == pkgs
    ensures pf' == AppendAll(pf, order, rel)
  {
    imports', pf', order := imports, pf, [];
    var rest := pkgs;
    while rest != {}
      invariant Elems(order) + rest == pkgs
      invariant imports' == imports + Elems(order)
      invariant pf' == AppendAll(pf, order, rel)
      decreases |rest|
    {
      var pkg :| pkg in rest;
      ImportsStep(imports, pf, pkgs, rel, order, rest, pkg, imports');
      imports' := imports' + {pkg};
      pf' := Append(pf', pkg, rel);
      order := order + [pkg];
      rest := rest - {pkg};
    }
  }

  /** One more package taken from the rest keeps the import loop's
      invariants. */
  lemma ImportsStep(imports: set<string>, pf: map<string, seq<string>>, pkgs: set<string>, rel: string,
                    order: seq<string>, rest: set<string>, pkg: string, imports': set<string>)
    requires Elems(order) + rest == pkgs && pkg in rest
    requires imports' == imports + Elems(order)
    ensures Elems(order + [pkg]) + (rest - {pkg}) == pkgs
    ensures imports' + {pkg} == imports + Elems(order + [pkg])
    ensures AppendAll(pf, order + [pkg], rel) == Append(AppendAll(pf, order, rel), pkg, rel)
  {
    AppendAllSnoc(pf, order, pkg, rel);
    ElemsSnoc(order, pkg);
  }

  /** One more capture adds its head at the end. */
  lemma LowerHeadsSnoc(matches: seq<string>, m: string)
    ensures LowerHeads(matches + [m]) == LowerHeads(matches) + [LowerHead(m)]
  {
    var l, r := LowerHeads(matches + [m]), LowerHeads(matches) + [LowerHead(m)];
    assert |l| == |r|;
    forall k | 0 <= k < |l|
      ensures l[k] == r[k]
    {
      if k < |matches| {
        assert (matches + [m])[k] == matches[k];
      }
    }
  }

  /** The loop over a C or C++ file's `#include` targets: the head of
      each, lower-cased, appends the path. */
  method AddIncludes(pf: map<string, seq<string>>, matches: seq<string>, rel: string)
    returns (pf': map<string, seq<string>>)
    ensures pf' == AppendAll(pf, LowerHeads(matches), rel)
  {
    pf' := pf;
    for i := 0 to |matches|
      invariant pf' == AppendAll(pf, LowerHeads(matches[..i]), rel)
    {
      var tok := LowerHead(matches[i]);
      assert matches[..i + 1] == matches[..i] + [matches[i]];
      LowerHeadsSnoc(matches[..i], matches[i]);
      AppendAllSnoc(pf, LowerHeads(matches[..i]), tok, rel);
      pf' := Append(pf', tok, rel);
    }
    assert matches[..|matches|] == matches;
  }

  /** The loop over a table for one file: every row whose key
      `keyword_present` finds in the content or the path appends the path
      under the key in `packages_found` and under the row's skill name in
      `evidence`. */
  method ScanTable(table: seq<Entry>, contentL: string, relL: string, rel: string,
                   pf: map<string, seq<string>>, ev: map<string, seq<string>>)
    returns (pf': map<string, seq<string>>, ev': map<string, seq<string>>)
    ensures pf' == AppendAll(pf, Keys(Select(TextRule(contentL, relL), table)), rel)
    ensures ev' == AppendAll(ev, Names(Select(TextRule(contentL, relL), table)), rel)
  {
    var rule := TextRule(contentL, relL);
    pf', ev' := pf, ev;
    ghost var hits: seq<Entry> := [];
    for j := 0 to |table|
      invariant hits == Select(rule, table[..j])
      invariant pf' == AppendAll(pf, Keys(hits), rel)
      invariant ev' == AppendAll(ev, Names(hits), rel)
    {
      var e := table[j];
      assert table[..j + 1] == table[..j] + [e];
      SelectSnoc(rule, table[..j], e);
      if KeywordPresent(e.key, contentL) || KeywordPresent(e.key, relL) {
        RowsSnoc(hits, e);
        AppendAllSnoc(pf, Keys(hits), e.key, rel);
        AppendAllSnoc(ev, Names(hits), e.skill.name, rel);
        pf' := Append(pf', e.key, rel);
        ev' := Append(ev', e.skill.name, rel);
        hits := hits + [e];
      }
    }
    assert table[..|table|] == table;
  }

  /** The manifest step of the walk: a manifest's tokens go into
      `manifest_tokens` and `packages_found`, and its path under
      `manifests` in `evidence`. */
  method ScanManifest(tx: Tables, f: FileEntry, contentL: string, pf: map<string, seq<string>>,
                      ev: map<string, seq<string>>, tokens: set<string>)
    returns (pf': map<string, seq<string>>, ev': map<string, seq<string>>, tokens': set<string>)
    requires contentL == LowerStr(f.content)
    ensures Paths(pf') == AddPath(Paths(pf), FileTokenSet(tx, f), f.rel)
    ensures Paths(ev') == AddPath(Paths(ev), if IsManifest(tx, f) then {"manifests"} else {}, f.rel)
    ensures tokens' == tokens + FileTokenSet(tx, f)
  {
    if LowerStr(f.filename) in tx.manifests {
      var toks := ManifestTokens(contentL);
      tokens', pf' := AddTokens(tokens, pf, toks, f.rel);
      AppendAllPaths(pf, toks, f.rel);
      AppendOne(ev, "manifests", f.rel);
      ev' := Append(ev, "manifests", f.rel);
      assert FileTokenSet(tx, f) == Elems(toks);
    } else {
      pf', ev', tokens' := pf, ev, tokens;
      AddNothing(Paths(pf), f.rel);
      AddNothing(Paths(ev), f.rel);
      assert FileTokenSet(tx, f) == {};
    }
  }

  /** The import step of the walk: the packages of the extractor the
      extension selects go into `imports_found` and `packages_found`. */
  method ScanImports(f: FileEntry, ext: string, pf: map<string, seq<string>>, imports: set<string>)
    returns (pf': map<string, seq<string>>, imports': set<string>)
    requires ext == Ext(f)
    ensures Paths(pf') == AddPath(Paths(pf), FileImports(f), f.rel)
    ensures imports' == imports + FileImports(f)
  {
    var pkgs: set<string> := {};
    if ext == ".py" {
      pkgs := ExtractPy(f.pyMatches);
    } else if ext in JsExts {
      pkgs := ExtractJs(f.jsFromMatches, f.jsRequireMatches);
    } else if ext == ".java" {
      pkgs := ExtractJava(f.javaMatches);
    }
    assert pkgs == FileImports(f);
    ghost var order;
    imports', pf', order := AddImports(imports, pf, pkgs, f.rel);
    AppendAllPaths(pf, order, f.rel);
  }

  /** The `#include` step of the walk, for C and C++ files. */
  method ScanIncludes(f: FileEntry, ext: string, pf: map<string, seq<string>>)
    returns (pf': map<string, seq<string>>)
    requires ext == Ext(f)
    ensures Paths(pf') == AddPath(Paths(pf), Elems(IncludeTokens(f)), f.rel)
  {
    if ext in CExts {
      pf' := AddIncludes(pf, f.includeMatches, f.rel);
      AppendAllPaths(pf, LowerHeads(f.includeMatches), f.rel);
    } else {
      pf' := pf;
      AddNothing(Paths(pf), f.rel);
    }
  }

  /** The table step of the walk for one table, stated by the keys and
      the labels of the rows it finds. */
  method ScanFileTable(f: FileEntry, table: seq<Entry>, contentL: string, relL: string,
                       pf: map<string, seq<string>>, ev: map<string, seq<string>>)
    returns (pf': map<string, seq<string>>, ev': map<string, seq<string>>)
    requires contentL == LowerStr(f.content) && relL == RelLower(f)
    ensures Paths(pf') == AddPath(Paths(pf), Elems(Keys(TextHits(f, table))), f.rel)
    ensures Paths(ev') == AddPath(Paths(ev), Elems(Names(TextHits(f, table))), f.rel)
  {
    pf', ev' := ScanTable(table, contentL, relL, f.rel, pf, ev);
    AppendAllPaths(pf, Keys(TextHits(f, table)), f.rel);
    AppendAllPaths(ev, Names(TextHits(f, table)), f.rel);
  }

  /** What the walk does with one file's content, in the program's
      order: the manifest tokens, the imports, the `#include` targets and
      the two tables, keyword table first. Stated by the sets of keys and
      labels the file appends its path under. */
  method ScanContent(tx: Tables, f: FileEntry, ext: string, contentL: string, relL: string,
                     pf: map<string, seq<string>>, ev: map<string, seq<string>>,
                     tokens: set<string>, imports: set<string>)
    returns (pf': map<string, seq<string>>, ev': map<string, seq<string>>,
             tokens': set<string>, imports': set<string>)
    requires ext == Ext(f) && contentL == LowerStr(f.content) && relL == RelLower(f)
    ensures Paths(pf') == AddPath(Paths(pf), FileKeys(tx, f), f.rel)
    ensures Paths(ev') == AddPath(Paths(ev), FileLabels(tx, f), f.rel)
    ensures tokens' == tokens + FileTokenSet(tx, f)
    ensures imports' == imports + FileImports(f)
  {
    var pf1, ev1;
    pf1, ev1, tokens' := ScanManifest(tx, f, contentL, pf, ev, tokens);
    var pf2;
    pf2, imports' := ScanImports(f, ext, pf1, imports);
    var pf3 := ScanIncludes(f, ext, pf2);
    var pf4, ev4 := ScanFileTable(f, tx.keywords, contentL, relL, pf3, ev1);
    pf', ev' := ScanFileTable(f, tx.packages, contentL, relL, pf4, ev4);
    ghost var s, p := Paths(pf), f.rel;
    ghost var a, b, c := FileTokenSet(tx, f), FileImports(f), Elems(IncludeTokens(f));
    ghost var d, e := Elems(Keys(TextHits(f, tx.keywords))), Elems(Keys(TextHits(f, tx.packages)));
    AddPathUnion(s, a, b, p);
    AddPathUnion(s, a + b, c, p);
    AddPathUnion(s, a + b + c, d, p);
    AddPathUnion(s, a + b + c + d, e, p);
    ghost var t, m := Paths(ev), if IsManifest(tx, f) then {"manifests"} else {};
    ghost var x, y := Elems(Names(TextHits(f, tx.keywords))), Elems(Names(TextHits(f, tx.packages)));
    AddPathUnion(t, m, x, p);
    AddPathUnion(t, m + x, y, p);
  }

  /* ------------------------------------------------------ the scan */

  /** The extension step of the walk: a file with an extension adds it to
      `file_extensions`, and its language to `languages` when the map
      knows it. */
  method ScanExtension(tx: Tables, f: FileEntry, ext: string, exts: set<string>, langs: set<string>)
    returns (exts': set<string>, langs': set<string>)
    requires ext == Ext(f)
    ensures exts' == exts + FileExt(f)
    ensures langs' == langs + FileLanguage(tx, f)
  {
    exts', langs' := exts, langs;
    if ext != "" {
      exts' := exts' + {ext};
      if ext in tx.languages {
        langs' := langs' + {tx.languages[ext]};
      }
    }
  }

  /** The fields one step further on, field by field. */
  lemma StepOf(tx: Tables, f: FileEntry, s: Fields, s': Fields)
    requires s'.filesScanned == s.filesScanned + 1 && s'.filePaths == s.filePaths + [RelLower(f)]
    requires s'.exts == s.exts + FileExt(f) && s'.languages == s.languages + FileLanguage(tx, f)
    requires s'.tokens == s.tokens + FileTokenSet(tx, f) && s'.imports == s.imports + FileImports(f)
    requires s'.packages == AddPath(s.packages, FileKeys(tx, f), f.rel)
    requires s'.evidence == AddPath(s.evidence, FileLabels(tx, f), f.rel)
    ensures s' == Step(tx, s, f)
  {
  }

  /** The body of the walk for one file, on the values of the fields: the
      count and the path, the extension and its language, then what the
      content gives. */
  method WalkFile(tx: Tables, f: FileEntry, n: nat, paths: seq<string>, exts: set<string>, langs: set<string>,
                  tokens: set<string>, imports: set<string>, pf: map<string, seq<string>>, ev: map<string, seq<string>>)
    returns (n': nat, paths': seq<string>, exts': set<string>, langs': set<string>,
             tokens': set<string>, imports': set<string>, pf': map<string, seq<string>>, ev': map<string, seq<string>>)
    ensures Fields(n', paths', exts', langs', tokens', imports', Paths(pf'), Paths(ev')) ==
            Step(tx, Fields(n, paths, exts, langs, tokens, imports, Paths(pf), Paths(ev)), f)
  {
    var relL := LowerStr(ReplaceChar(f.rel, '\\', '/'));
    n', paths' := n + 1, paths + [relL];
    var ext := LowerStr(f.suffix);
    exts', langs' := ScanExtension(tx, f, ext, exts, langs);
    var contentL := LowerStr(f.content);
    pf', ev', tokens', imports' := ScanContent(tx, f, ext, contentL, relL, pf, ev, tokens, imports);
    StepOf(tx, f, Fields(n, paths, exts, langs, tokens, imports, Paths(pf), Paths(ev)),
           Fields(n', paths', exts', langs', tokens', imports', Paths(pf'), Paths(ev')));
  }

  /** The walk over the files of a clone, in walk order, from the empty
      record: `files_scanned` counts them, and each file adds what
      `WalkFile` adds. */
  method WalkFiles(tx: Tables, files: seq<FileEntry>)
    returns (n: nat, paths: seq<string>, exts: set<string>, langs: set<string>,
             tokens: set<string>, imports: set<string>, pf: map<string, seq<string>>, ev: map<string, seq<string>>)
    ensures Fields(n, paths, exts, langs, tokens, imports, Paths(pf), Paths(ev)) == Walk(tx, files)
  {
    n, paths, exts, langs, tokens, imports, pf, ev := 0, [], {}, {}, {}, {}, map[], map[];
    assert Paths(pf) == map[] && Paths(ev) == map[];
    for i := 0 to |files|
      invariant Fields(n, paths, exts, langs, tokens, imports, Paths(pf), Paths(ev)) == Walk(tx, files[..i])
    {
      assert files[..i + 1] == files[..i] + [files[i]];
      WalkSnoc(tx, files[..i], files[i]);
      n, paths, exts, langs, tokens, imports, pf, ev := WalkFile(tx, files[i], n, paths, exts, langs, tokens, imports, pf, ev);
    }
    assert files[..|files|] == files;
  }
}
