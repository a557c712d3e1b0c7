/** The signal extractors: what `scan_repo` keeps of each regular-expression
    match (the part before the first `.` or `/`, lower-cased where the
    source lower-cases it) and the loose manifest tokenizer. The regular
    expressions themselves are not modelled: their matches are inputs. */
module Extractors {
  import opened Text

  /* ------------------------------------------------------------ Python */

  /** `extract_imports_from_py`: `{m.split(".")[0] for m in matches}`. */
  function ExtractPy(matches: seq<string>): (r: set<string>)
    ensures forall x :: x in r ==> NoneOf(x, IsDot)
    ensures forall m :: m in matches ==> FirstField(m, IsDot) in r
    ensures forall x :: x in r ==> exists m :: m in matches && x == FirstField(m, IsDot)
  {
    set m | m in matches :: FirstField(m, IsDot)
  }

  /** Each Python import is the leading dotted component of some match: a
      prefix of it that is either all of it or is followed by a dot. */
  lemma ExtractPyLeading(matches: seq<string>, x: string)
    requires x in ExtractPy(matches)
    ensures exists m :: m in matches && StartsWith(m, x) && (|x| == |m| || m[|x|] == '.')
  {
    var m :| m in matches && x == FirstField(m, IsDot);
    FirstFieldIsPrefix(m, IsDot);
  }

  /* -------------------------------------------------------- JavaScript */

  /** `normalize_js_pkg`: a scoped name (`@scope/name`) is kept whole,
      any other name is cut at its first `/`. */
  function NormalizeJsPkg(name: string): (r: string)
    ensures StartsWith(name, "@") ==> r == name
    ensures !StartsWith(name, "@") ==> NoneOf(r, IsSlash) && StartsWith(name, r)
    ensures !StartsWith(name, "@") ==> |r| == |name| || (|r| < |name| && name[|r|] == '/')
  {
    if StartsWith(name, "@") then name
    else
      FirstFieldIsPrefix(name, IsSlash);
      FirstField(name, IsSlash)
  }

  /** Normalising twice is normalising once. */
  lemma NormalizeJsPkgIdempotent(name: string)
    ensures NormalizeJsPkg(NormalizeJsPkg(name)) == NormalizeJsPkg(name)
  {
    if !StartsWith(name, "@") {
      var r := NormalizeJsPkg(name);
      assert r != [] ==> r[0] == name[0];
      FirstFieldWhole(r, IsSlash);
    }
  }

  /** The normalised names of some matches. */
  function Normalized(matches: seq<string>): set<string> {
    set m | m in matches :: NormalizeJsPkg(m)
  }

  /** One more match adds its normalised name. */
  lemma NormalizedSnoc(matches: seq<string>, m: string)
    ensures Normalized(matches + [m]) == Normalized(matches) + {NormalizeJsPkg(m)}
  {
  }

  /** The packages `extract_imports_from_js` collects from the
      `import ... from "x"` matches and the `require("x")` matches. */
  function JsPackages(fromMatches: seq<string>, requireMatches: seq<string>): set<string> {
    Normalized(fromMatches) + Normalized(requireMatches)
  }

  /** `extract_imports_from_js`: two loops adding the normalised name of
      every match to a set. */
  method ExtractJs(fromMatches: seq<string>, requireMatches: seq<string>) returns (pkgs: set<string>)
    ensures pkgs == JsPackages(fromMatches, requireMatches)
  {
    pkgs := {};
    for i := 0 to |fromMatches|
      invariant pkgs == Normalized(fromMatches[..i])
    {
      assert fromMatches[..i + 1] == fromMatches[..i] + [fromMatches[i]];
      NormalizedSnoc(fromMatches[..i], fromMatches[i]);
      pkgs := pkgs + {NormalizeJsPkg(fromMatches[i])};
    }
    assert fromMatches[..|fromMatches|] == fromMatches;
    var fromPkgs := pkgs;
    assert requireMatches[..0] == [];
    for j := 0 to |requireMatches|
      invariant pkgs == fromPkgs + Normalized(requireMatches[..j])
    {
      assert requireMatches[..j + 1] == requireMatches[..j] + [requireMatches[j]];
      NormalizedSnoc(requireMatches[..j], requireMatches[j]);
      pkgs := pkgs + {NormalizeJsPkg(requireMatches[j])};
    }
    assert requireMatches[..|requireMatches|] == requireMatches;
  }

  /** Every JavaScript package is either a scoped name taken whole or a
      name without `/` that begins one of the matches. */
  lemma JsPackagesShape(fromMatches: seq<string>, requireMatches: seq<string>, p: string)
    requires p in JsPackages(fromMatches, requireMatches)
    ensures exists m :: (m in fromMatches || m in requireMatches) && StartsWith(m, p) &&
                        (StartsWith(m, "@") ==> p == m) &&
                        (!StartsWith(m, "@") ==> NoneOf(p, IsSlash)) &&
                        (!StartsWith(m, "@") ==> |p| == |m| || (|p| < |m| && m[|p|] == '/'))
  {
  }

  /* ---------------------------------------------------- Java and C/C++ */

  /** `m.split(".")[0].lower()`: the token kept of a Java import or of a
      C `#include` target. */
  function LowerHead(m: string): (r: string)
    ensures NoneOf(r, IsDot) && IsLowerCase(r)
    ensures |r| <= |m| && r == LowerStr(m[..|r|])
    ensures |r| == |m| || m[|r|] == '.'
  {
    FirstFieldIsPrefix(m, IsDot);
    var h := FirstField(m, IsDot);
    var r := LowerStr(h);
    assert forall i :: 0 <= i < |r| ==> r[i] == Lower(h[i]) && h[i] != '.';
    r
  }

  /** `extract_imports_from_java`. */
  function ExtractJava(matches: seq<string>): (r: set<string>)
    ensures forall x :: x in r ==> NoneOf(x, IsDot) && IsLowerCase(x)
    ensures forall m :: m in matches ==> LowerHead(m) in r
    ensures forall x :: x in r ==> exists m :: m in matches && x == LowerHead(m)
  {
    set m | m in matches :: LowerHead(m)
  }

  /* ------------------------------------------------- manifest tokens */

  /** The class `[a-zA-Z0-9_\-.]`. */
  predicate IsTokenChar(c: char) {
    'a' <= c <= 'z' || 'A' <= c <= 'Z' || '0' <= c <= '9' || c == '_' || c == '-' || c == '.'
  }

  predicate IsNotTokenChar(c: char) { !IsTokenChar(c) }

  /** What a manifest token looks like: a non-empty, lower-case run of
      `[a-z0-9_.-]`. */
  predicate IsManifestToken(t: string) {
    t != "" && AllOf(t, IsTokenChar) && IsLowerCase(t)
  }

  /** `re.findall(r"[a-zA-Z0-9_\-.]+", text)`: the maximal runs of token
      characters, in order. A maximal run is a non-empty piece between
      characters outside the class. */
  function ManifestTokens(text: string): (r: seq<string>)
    ensures forall k :: 0 <= k < |r| ==> r[k] != "" && AllOf(r[k], IsTokenChar)
  {
    var r := NonEmpty(Split(text, IsNotTokenChar));
    assert forall k :: 0 <= k < |r| ==> r[k] in Split(text, IsNotTokenChar);
    r
  }

  /** A character outside the class separates the tokens on its two
      sides. */
  lemma ManifestTokensAtSeparator(a: string, c: char, b: string)
    requires !IsTokenChar(c)
    ensures ManifestTokens(a + [c] + b) == ManifestTokens(a) + ManifestTokens(b)
  {
    SplitAtSeparator(a, c, b, IsNotTokenChar);
    NonEmptyAppend(Split(a, IsNotTokenChar), Split(b, IsNotTokenChar));
  }

  /** A non-empty run of class characters is one token. */
  lemma ManifestTokensOfRun(s: string)
    requires s != "" && AllOf(s, IsTokenChar)
    ensures ManifestTokens(s) == [s]
  {
    SplitNoSeparator(s, IsNotTokenChar);
    assert NonEmpty([s]) == [s] + NonEmpty([]);
  }

  /** A run of characters outside the class has no token. */
  lemma {:induction false} ManifestTokensOfGap(s: string)
    requires NoneOf(s, IsTokenChar)
    ensures ManifestTokens(s) == []
    decreases |s|
  {
    assert NonEmpty([""]) == [];
    if s != [] {
      ManifestTokensOfGap(s[1..]);
      ManifestTokensAtSeparator([], s[0], s[1..]);
      assert [] + [s[0]] + s[1..] == s;
    }
  }

  /** Every piece of a split has only characters of the string split, so
      a property that no character of the string has, no piece has. */
  lemma {:induction false} SplitKeepsAbsence(s: string, isSep: char -> bool, p: char -> bool)
    requires NoneOf(s, p)
    ensures forall k :: 0 <= k < |Split(s, isSep)| ==> NoneOf(Split(s, isSep)[k], p)
    decreases |s|
  {
    if s != [] {
      SplitKeepsAbsence(s[1..], isSep, p);
    }
  }

  /** Tokens of lower-cased text are lower case: runs of `[a-z0-9_.-]`. */
  lemma ManifestTokensLowerCase(content: string)
    ensures forall t :: t in ManifestTokens(LowerStr(content)) ==> IsManifestToken(t)
  {
    var s := LowerStr(content);
    assert NoneOf(s, IsUpper);
    SplitKeepsAbsence(s, IsNotTokenChar, IsUpper);
    var r := ManifestTokens(s);
    forall t | t in r
      ensures IsLowerCase(t)
    {
      assert t in Split(s, IsNotTokenChar);
    }
  }

  /** Two runs, each ended by a line break, are two tokens. */
  lemma ManifestTokensOfTwoLines(a: string, b: string)
    requires a != "" && AllOf(a, IsTokenChar)
    requires b != "" && AllOf(b, IsTokenChar)
    ensures ManifestTokens(a + "\n" + b + "\n") == [a, b]
  {
    assert a + "\n" + b + "\n" == a + ['\n'] + (b + ['\n'] + "");
    ManifestTokensAtSeparator(a, '\n', b + ['\n'] + "");
    ManifestTokensAtSeparator(b, '\n', "");
    ManifestTokensOfRun(a);
    ManifestTokensOfRun(b);
    ManifestTokensOfGap("");
  }

  /** `requirements.txt` holding `flask\nrequests\n` yields the tokens
      `flask` and `requests`. */
  lemma RequirementsExample()
    ensures ManifestTokens("flask\nrequests\n") == ["flask", "requests"]
  {
    assert "flask" + "\n" + "requests" + "\n" == "flask\nrequests\n";
    ManifestTokensOfTwoLines("flask", "requests");
  }
}
