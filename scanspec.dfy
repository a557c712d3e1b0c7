/** What `scan_repo` gathers from the files of a clone, stated as pure
    functions: the contribution of one file, and the fold of those
    contributions over the files in walk order.

    `packages_found` and `evidence` map a key to the list of relative
    paths it was seen in, one entry per hit. Every reader of those lists
    (the promotion test and the record written at the end) takes
    `set(v)` of them, so the specification states each list by the set
    of its paths. */
module ScanSpec {
  import opened Text
  import opened Order
  import opened Taxonomy
  import opened Matching
  import opened Extractors
  import opened Classifier

  /** One file of the clone as the walk reaches it. The regular-expression
      captures on its content are inputs. */
  datatype FileEntry = FileEntry(
    rel: string,                // os.path.relpath(path, target)
    filename: string,           // the file's own name
    suffix: string,             // Path(filename).suffix
    content: string,            // safe_read(path)
    pyMatches: seq<string>,     // IMPORT_RE_PY.findall(content)
    jsFromMatches: seq<string>, // the `import ... from '...'` captures
    jsRequireMatches: seq<string>, // the `require('...')` captures
    javaMatches: seq<string>,   // IMPORT_RE_JAVA.findall(content)
    includeMatches: seq<string>) // INCLUDE_RE_C.findall(content)

  /** The tables the walk consults: the keyword and the package tables,
      the manifest file names and the extension-to-language map. The
      specification is stated for any tables; `Standard` holds the
      program's own. */
  datatype Tables = Tables(
    keywords: seq<Entry>,
    packages: seq<Entry>,
    manifests: set<string>,
    languages: map<string, string>)

  const Standard: Tables := Tables(KeywordTable, PackageTable, ManifestFiles, ExtLanguages)

  /** `map_token_to_skill` over the tables. */
  function LookupOf(tx: Tables): string -> seq<Skill> {
    t => Mappings(LowerStr(t), tx.packages, tx.keywords)
  }

  /* ------------------------------------------------------ one file */

  /** `rel.replace("\\", "/").lower()`. */
  function RelLower(f: FileEntry): (r: string)
    ensures |r| == |f.rel| && IsLowerCase(r)
    ensures forall i :: 0 <= i < |r| ==> r[i] != '\\'
  {
    LowerStr(ReplaceChar(f.rel, '\\', '/'))
  }

  /** `Path(filename).suffix.lower()`. */
  function Ext(f: FileEntry): string {
    LowerStr(f.suffix)
  }

  /** `filename.lower() in MANIFEST_FILES`. */
  predicate IsManifest(tx: Tables, f: FileEntry) {
    LowerStr(f.filename) in tx.manifests
  }

  const JsExts: set<string> := {".js", ".ts", ".jsx", ".tsx"}
  const CExts: set<string> := {".c", ".h", ".cpp", ".cc", ".cxx"}

  /** The manifest tokens of the file, in `findall` order. */
  function FileTokens(tx: Tables, f: FileEntry): seq<string> {
    if IsManifest(tx, f) then ManifestTokens(LowerStr(f.content)) else []
  }

  /** The imports the file's extension selects an extractor for. */
  function FileImports(f: FileEntry): set<string> {
    if Ext(f) == ".py" then ExtractPy(f.pyMatches)
    else if Ext(f) in JsExts then JsPackages(f.jsFromMatches, f.jsRequireMatches)
    else if Ext(f) == ".java" then ExtractJava(f.javaMatches)
    else {}
  }

  /** The token kept of each `#include` target, in `findall` order. */
  function LowerHeads(matches: seq<string>): (r: seq<string>)
    ensures |r| == |matches|
    ensures forall k :: 0 <= k < |r| ==> r[k] == LowerHead(matches[k])
    ensures forall k :: 0 <= k < |r| ==> NoneOf(r[k], IsDot) && IsLowerCase(r[k])
  {
    seq(|matches|, i requires 0 <= i < |matches| => LowerHead(matches[i]))
  }

  /** The include tokens of a C or C++ file. */
  function IncludeTokens(f: FileEntry): (r: seq<string>)
    ensures forall k :: 0 <= k < |r| ==> NoneOf(r[k], IsDot) && IsLowerCase(r[k])
  {
    if Ext(f) in CExts then LowerHeads(f.includeMatches) else []
  }

  /** The rows of a table whose key `keyword_present` finds in the
      lower-cased content or the lower-cased path, in table order. */
  function TextHits(f: FileEntry, table: seq<Entry>): seq<Entry> {
    Select(TextRule(LowerStr(f.content), RelLower(f)), table)
  }

  /** The skill names of some rows, in order. */
  function Names(rows: seq<Entry>): (r: seq<string>)
    ensures |r| == |rows|
    ensures forall k :: 0 <= k < |rows| ==> r[k] == rows[k].skill.name
  {
    seq(|rows|, k requires 0 <= k < |rows| => rows[k].skill.name)
  }

  /** Every key the file appends its path under in `packages_found`. */
  function FileKeys(tx: Tables, f: FileEntry): set<string> {
    Elems(FileTokens(tx, f)) + FileImports(f) + Elems(IncludeTokens(f))
    + Elems(Keys(TextHits(f, tx.keywords))) + Elems(Keys(TextHits(f, tx.packages)))
  }

  /** Every key the file appends its path under in `evidence`. */
  function FileLabels(tx: Tables, f: FileEntry): set<string> {
    (if IsManifest(tx, f) then {"manifests"} else {})
    + Elems(Names(TextHits(f, tx.keywords))) + Elems(Names(TextHits(f, tx.packages)))
  }

  /** `FileKeys` and `FileLabels` as the function of a file that the
      folds below take. */
  function KeysOf(tx: Tables): FileEntry -> set<string> {
    f => FileKeys(tx, f)
  }

  function LabelsOf(tx: Tables): FileEntry -> set<string> {
    f => FileLabels(tx, f)
  }

  /* ------------------------------------------------- path sets */

  /** What a set map holds under a key, empty for a missing key. */
  function GetSet(s: map<string, set<string>>, k: string): set<string> {
    if k in s then s[k] else {}
  }

  /** What key `k` holds once `p` is added under each of `keys`. */
  function Added(s: map<string, set<string>>, keys: set<string>, p: string, k: string): set<string> {
    if k in keys then GetSet(s, k) + {p} else GetSet(s, k)
  }

  /** The set map `s` with `p` added under each of `keys`. */
  function AddPath(s: map<string, set<string>>, keys: set<string>, p: string): (r: map<string, set<string>>)
    ensures r.Keys == s.Keys + keys
    ensures forall k :: k in r ==> r[k] == Added(s, keys, p, k)
  {
    map k | k in s.Keys + keys :: Added(s, keys, p, k)
  }

  /** Adding a path under no key changes nothing. */
  lemma AddNothing(s: map<string, set<string>>, p: string)
    ensures AddPath(s, {}, p) == s
  {
    var r := AddPath(s, {}, p);
    assert r.Keys == s.Keys;
    forall j | j in r
      ensures r[j] == s[j]
    {
      assert Added(s, {}, p, j) == s[j];
    }
  }

  /** Adding a path under two sets of keys in turn is adding it under
      their union. */
  lemma AddPathUnion(s: map<string, set<string>>, a: set<string>, b: set<string>, p: string)
    ensures AddPath(AddPath(s, a, p), b, p) == AddPath(s, a + b, p)
  {
    var m := AddPath(s, a, p);
    var l := AddPath(m, b, p);
    var r := AddPath(s, a + b, p);
    assert l.Keys == r.Keys;
    forall j | j in l
      ensures l[j] == r[j]
    {
      assert GetSet(m, j) == Added(s, a, p, j);
      if j in b && j !in a {
        assert l[j] == GetSet(s, j) + {p};
      }
      if j in b && j in a {
        assert l[j] == GetSet(s, j) + {p} + {p};
      }
    }
  }

  /* ---------------------------------------------- what a scan gathers */

  /** Everything some file contributes: the keys of a path map, or the
      elements of a set the scan adds to. */
  function Collected(files: seq<FileEntry>, part: FileEntry -> set<string>): set<string> {
    set i, k | 0 <= i < |files| && k in part(files[i]) :: k
  }

  /** The paths of the files that have key `k`. */
  function PathsAfter(files: seq<FileEntry>, keysOf: FileEntry -> set<string>, k: string): set<string> {
    set i | 0 <= i < |files| && k in keysOf(files[i]) :: files[i].rel
  }

  /** `{k: set(v) for k, v in d.items()}` of `packages_found` or
      `evidence` after the files. */
  function PathMap(files: seq<FileEntry>, keysOf: FileEntry -> set<string>): (r: map<string, set<string>>)
    ensures r.Keys == Collected(files, keysOf)
  {
    map k | k in Collected(files, keysOf) :: PathsAfter(files, keysOf, k)
  }

  /** One more file adds its contribution. */
  lemma CollectedSnoc(files: seq<FileEntry>, keysOf: FileEntry -> set<string>, f: FileEntry)
    ensures Collected(files + [f], keysOf) == Collected(files, keysOf) + keysOf(f)
  {
    var g := files + [f];
    forall k | k in Collected(g, keysOf)
      ensures k in Collected(files, keysOf) + keysOf(f)
    {
      var i :| 0 <= i < |g| && k in keysOf(g[i]);
      if i < |files| {
        assert g[i] == files[i];
      }
    }
    forall k | k in Collected(files, keysOf) + keysOf(f)
      ensures k in Collected(g, keysOf)
    {
      if k in keysOf(f) {
        assert g[|files|] == f;
      } else {
        var i :| 0 <= i < |files| && k in keysOf(files[i]);
        assert g[i] == files[i];
      }
    }
  }

  /** One more file adds its path under each of its keys. */
  lemma PathsAfterSnoc(files: seq<FileEntry>, keysOf: FileEntry -> set<string>, f: FileEntry, k: string)
    ensures PathsAfter(files + [f], keysOf, k) ==
            PathsAfter(files, keysOf, k) + (if k in keysOf(f) then {f.rel} else {})
  {
    var g := files + [f];
    forall p | p in PathsAfter(g, keysOf, k)
      ensures p in PathsAfter(files, keysOf, k) + (if k in keysOf(f) then {f.rel} else {})
    {
      var i :| 0 <= i < |g| && k in keysOf(g[i]) && p == g[i].rel;
      if i < |files| {
        assert g[i] == files[i];
      }
    }
    forall p | p in PathsAfter(files, keysOf, k)
      ensures p in PathsAfter(g, keysOf, k)
    {
      var i :| 0 <= i < |files| && k in keysOf(files[i]) && p == files[i].rel;
      assert g[i] == files[i];
    }
    if k in keysOf(f) {
      assert g[|files|] == f;
    }
  }

  /** A key has paths exactly when it is a key. */
  lemma PathsAfterNonEmpty(files: seq<FileEntry>, keysOf: FileEntry -> set<string>, k: string)
    ensures k in Collected(files, keysOf) <==> PathsAfter(files, keysOf, k) != {}
  {
    if k in Collected(files, keysOf) {
      var i :| 0 <= i < |files| && k in keysOf(files[i]);
      assert files[i].rel in PathsAfter(files, keysOf, k);
    }
    if PathsAfter(files, keysOf, k) != {} {
      var p :| p in PathsAfter(files, keysOf, k);
    }
  }

  /** The path of one file added under all its keys is the path map of
      the files so far with that file appended. */
  lemma AddFile(files: seq<FileEntry>, keysOf: FileEntry -> set<string>, f: FileEntry)
    ensures AddPath(PathMap(files, keysOf), keysOf(f), f.rel) == PathMap(files + [f], keysOf)
  {
    var l := AddPath(PathMap(files, keysOf), keysOf(f), f.rel);
    var r := PathMap(files + [f], keysOf);
    CollectedSnoc(files, keysOf, f);
    assert l.Keys == r.Keys;
    forall k | k in l
      ensures l[k] == r[k]
    {
      PathsAfterSnoc(files, keysOf, f, k);
      assert GetSet(PathMap(files, keysOf), k) == PathsAfter(files, keysOf, k) by {
        PathsAfterNonEmpty(files, keysOf, k);
      }
    }
  }

  /** `file_paths`: each file's path with `/` separators, lower-cased. */
  function FilePaths(files: seq<FileEntry>): (r: seq<string>)
    ensures |r| == |files|
    ensures forall i :: 0 <= i < |files| ==> r[i] == RelLower(files[i])
    ensures forall i :: 0 <= i < |r| ==> IsLowerCase(r[i]) && NoneOf(r[i], IsBackslash)
  {
    seq(|files|, i requires 0 <= i < |files| => RelLower(files[i]))
  }

  /** The extension a file adds to `file_extensions`: its own, when it
      has one. */
  function FileExt(f: FileEntry): set<string> {
    if Ext(f) != "" then {Ext(f)} else {}
  }

  /** The language a file adds to `languages`: the one its extension
      maps to, when the map knows it. */
  function FileLanguage(tx: Tables, f: FileEntry): set<string> {
    if Ext(f) != "" && Ext(f) in tx.languages then {tx.languages[Ext(f)]} else {}
  }

  function LanguageOf(tx: Tables): FileEntry -> set<string> {
    f => FileLanguage(tx, f)
  }

  /** The tokens a file adds to `manifest_tokens`. */
  function FileTokenSet(tx: Tables, f: FileEntry): set<string> {
    Elems(FileTokens(tx, f))
  }

  function TokenSetOf(tx: Tables): FileEntry -> set<string> {
    f => FileTokenSet(tx, f)
  }

  /** The fields of the scan record that the walk updates, each list of
      paths stated by its set of paths. */
  datatype Fields = Fields(
    filesScanned: nat,
    filePaths: seq<string>,
    exts: set<string>,                    // file_extensions
    languages: set<string>,
    tokens: set<string>,                  // manifest_tokens
    imports: set<string>,                 // imports_found
    packages: map<string, set<string>>,   // packages_found
    evidence: map<string, set<string>>)

  /** The fields before the walk: everything empty. */
  const Before: Fields := Fields(0, [], {}, {}, {}, {}, map[], map[])

  /** The body of the walk for one file, on the fields. */
  function Step(tx: Tables, s: Fields, f: FileEntry): Fields {
    Fields(s.filesScanned + 1, s.filePaths + [RelLower(f)], s.exts + FileExt(f),
           s.languages + FileLanguage(tx, f), s.tokens + FileTokenSet(tx, f), s.imports + FileImports(f),
           AddPath(s.packages, FileKeys(tx, f), f.rel), AddPath(s.evidence, FileLabels(tx, f), f.rel))
  }

  /** The fields after the walk over some files: `Step` folded over them
      in walk order. */
  function Walk(tx: Tables, files: seq<FileEntry>): Fields
    decreases |files|
  {
    if files == [] then Before
    else Step(tx, Walk(tx, files[..|files| - 1]), files[|files| - 1])
  }

  /** One more file is one more step. */
  lemma WalkSnoc(tx: Tables, files: seq<FileEntry>, f: FileEntry)
    ensures Walk(tx, files + [f]) == Step(tx, Walk(tx, files), f)
  {
    assert (files + [f])[..|files|] == files;
  }

  /** What the files contribute, field by field, independently of the
      order of the walk: every extension, language, token and import some
      file has, and under each key the paths of the files that have it. */
  function Summary(tx: Tables, files: seq<FileEntry>): Fields {
    Fields(|files|, FilePaths(files), Collected(files, FileExt), Collected(files, LanguageOf(tx)),
           Collected(files, TokenSetOf(tx)), Collected(files, FileImports),
           PathMap(files, KeysOf(tx)), PathMap(files, LabelsOf(tx)))
  }

  /** The summary of one more file is one more step. */
  lemma SummarySnoc(tx: Tables, files: seq<FileEntry>, f: FileEntry)
    ensures Summary(tx, files + [f]) == Step(tx, Summary(tx, files), f)
  {
    assert FilePaths(files + [f]) == FilePaths(files) + [RelLower(f)];
    CollectedSnoc(files, FileExt, f);
    CollectedSnoc(files, LanguageOf(tx), f);
    CollectedSnoc(files, TokenSetOf(tx), f);
    CollectedSnoc(files, FileImports, f);
    AddFile(files, KeysOf(tx), f);
    AddFile(files, LabelsOf(tx), f);
  }

  /** The walk gathers what the files contribute. */
  lemma {:induction false} WalkIsSummary(tx: Tables, files: seq<FileEntry>)
    ensures Walk(tx, files) == Summary(tx, files)
    decreases |files|
  {
    if files == [] {
      assert Collected(files, FileExt) == {};
      assert Collected(files, LanguageOf(tx)) == {};
      assert Collected(files, TokenSetOf(tx)) == {};
      assert Collected(files, FileImports) == {};
      assert Collected(files, KeysOf(tx)) == {};
      assert Collected(files, LabelsOf(tx)) == {};
      assert PathMap(files, KeysOf(tx)) == map[];
      assert PathMap(files, LabelsOf(tx)) == map[];
    } else {
      var init, f := files[..|files| - 1], files[|files| - 1];
      assert files == init + [f];
      WalkIsSummary(tx, init);
      SummarySnoc(tx, init, f);
    }
  }

  /** The classifier's view of the files: each key with its distinct
      paths, the imports and the manifest tokens. */
  function EvidenceOf(tx: Tables, files: seq<FileEntry>): Evidence {
    Evidence(PathMap(files, KeysOf(tx)), Collected(files, FileImports), Collected(files, TokenSetOf(tx)))
  }

  /** The classifier's view of some fields. */
  function FieldsEvidence(s: Fields): Evidence {
    Evidence(s.packages, s.imports, s.tokens)
  }

  /* ---------------------------------------------------------- lemmas */

  /** The evidence of the walk's summary is the evidence of its files. */
  lemma SummaryEvidence(tx: Tables, files: seq<FileEntry>)
    ensures FieldsEvidence(Summary(tx, files)) == EvidenceOf(tx, files)
  {
  }

  /** Every element is a manifest token. */
  predicate AllManifestTokens(ts: set<string>) {
    forall t :: t in ts ==> IsManifestToken(t)
  }

  /** Manifest tokens are non-empty lower-case runs of `[a-z0-9_.-]`. */
  lemma ManifestTokensWellFormed(tx: Tables, files: seq<FileEntry>)
    ensures AllManifestTokens(Summary(tx, files).tokens)
  {
    forall t | t in Collected(files, TokenSetOf(tx))
      ensures IsManifestToken(t)
    {
      var i :| 0 <= i < |files| && t in TokenSetOf(tx)(files[i]);
      ManifestTokensLowerCase(files[i].content);
    }
  }

  /** Every manifest token and every import has paths in
      `packages_found`: the loop appends a path for each. */
  lemma KeysCover(tx: Tables, files: seq<FileEntry>)
    ensures Collected(files, TokenSetOf(tx)) <= Collected(files, KeysOf(tx))
    ensures Collected(files, FileImports) <= Collected(files, KeysOf(tx))
  {
    forall t | t in Collected(files, TokenSetOf(tx))
      ensures t in Collected(files, KeysOf(tx))
    {
      var i :| 0 <= i < |files| && t in TokenSetOf(tx)(files[i]);
      assert t in KeysOf(tx)(files[i]);
    }
    forall t | t in Collected(files, FileImports)
      ensures t in Collected(files, KeysOf(tx))
    {
      var i :| 0 <= i < |files| && t in FileImports(files[i]);
      assert t in KeysOf(tx)(files[i]);
    }
  }

  /** Two files with different paths that share a key give it two
      distinct paths. */
  lemma TwoPaths(files: seq<FileEntry>, keysOf: FileEntry -> set<string>, k: string, i: nat, j: nat)
    requires i < |files| && j < |files| && files[i].rel != files[j].rel
    requires k in keysOf(files[i]) && k in keysOf(files[j])
    ensures k in PathMap(files, keysOf) && |PathMap(files, keysOf)[k]| >= 2
  {
    var ps := PathsAfter(files, keysOf, k);
    var two := {files[i].rel, files[j].rel};
    assert two <= ps;
    assert |two| == 2;
    assert |ps| == |two| + |ps - two|;
    assert k in Collected(files, keysOf);
  }

  /** A key hit in two files with different paths passes the promotion
      test. */
  lemma TwoFilesSeen(tx: Tables, files: seq<FileEntry>, k: string, i: nat, j: nat)
    requires i < |files| && j < |files| && files[i].rel != files[j].rel
    requires k in FileKeys(tx, files[i]) && k in FileKeys(tx, files[j])
    ensures Seen(EvidenceOf(tx, files), k)
    ensures IsLowerCase(k) ==> k in Universe(EvidenceOf(tx, files))
  {
    TwoPaths(files, KeysOf(tx), k, i, j);
    if IsLowerCase(k) {
      LowerOfLowerCase(k);
    }
  }
}
