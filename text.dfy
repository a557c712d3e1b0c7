/** String helpers that the scanner relies on, stated the way Python's `str`
    methods behave: ASCII case folding (`lower`), substring search (`in`),
    `split` on a separator, `strip`/`rstrip`, single-character `replace`
    and `join`. */
module Text {

  /* ---------------------------------------------------------------- case */

  predicate IsUpper(c: char) { 'A' <= c <= 'Z' }

  /** `str.lower` on one character; only ASCII letters change. */
  function Lower(c: char): (d: char)
    ensures !IsUpper(d)
    ensures !IsUpper(c) ==> d == c
  {
    if IsUpper(c) then (c as int + 32) as char else c
  }

  /** No upper-case ASCII letter occurs in `s`. */
  predicate IsLowerCase(s: string) {
    forall i :: 0 <= i < |s| ==> !IsUpper(s[i])
  }

  /** `str.lower`: the same characters, each folded. */
  function LowerStr(s: string): (r: string)
    ensures |r| == |s|
    ensures forall i :: 0 <= i < |s| ==> r[i] == Lower(s[i])
    ensures IsLowerCase(r)
  {
    seq(|s|, i requires 0 <= i < |s| => Lower(s[i]))
  }

  /** Folding a string that is already lower case changes nothing, so
      `lower` is idempotent. */
  lemma LowerOfLowerCase(s: string)
    requires IsLowerCase(s)
    ensures LowerStr(s) == s
  {
  }

  lemma LowerIdempotent(s: string)
    ensures LowerStr(LowerStr(s)) == LowerStr(s)
  {
    LowerOfLowerCase(LowerStr(s));
  }

  /** The image of a set of strings under `str.lower`. */
  function LowerSet(s: set<string>): (r: set<string>)
    ensures forall x {:trigger LowerStr(x)} :: x in s ==> LowerStr(x) in r
  {
    set x | x in s :: LowerStr(x)
  }

  /** The lowered set holds nothing but lowered members. */
  lemma LowerSetOnly(s: set<string>, y: string)
    requires y in LowerSet(s)
    ensures exists x :: x in s && y == LowerStr(x)
  {
  }

  /* ------------------------------------------------------ character sets */

  predicate IsDot(c: char) { c == '.' }
  predicate IsSlash(c: char) { c == '/' }
  predicate IsBackslash(c: char) { c == '\\' }

  /** The characters Python's `str.strip()` treats as white space
      (`str.isspace`). */
  predicate IsSpace(c: char) {
    || c == ' ' || '\t' <= c <= '\r' || '\U{1C}' <= c <= '\U{1F}'
    || c == '\U{85}' || c == '\U{A0}' || c == '\U{1680}'
    || '\U{2000}' <= c <= '\U{200A}' || c == '\U{2028}' || c == '\U{2029}'
    || c == '\U{202F}' || c == '\U{205F}' || c == '\U{3000}'
  }

  /** No character of `s` satisfies `p`. */
  predicate NoneOf(s: string, p: char -> bool) {
    forall i :: 0 <= i < |s| ==> !p(s[i])
  }

  /** Every character of `s` satisfies `p`. */
  predicate AllOf(s: string, p: char -> bool) {
    forall i :: 0 <= i < |s| ==> p(s[i])
  }

  /* --------------------------------------------------------- searching */

  /** `key` occurs in `text` starting at index `i`. */
  predicate OccursAt(key: string, text: string, i: nat) {
    i + |key| <= |text| && text[i..i + |key|] == key
  }

  /** Python's `key in text`, searching from index `i` onwards. */
  function ContainsFrom(text: string, key: string, i: nat): (r: bool)
    requires i <= |text| + 1
    ensures r <==> exists j :: i <= j <= |text| && OccursAt(key, text, j)
    decreases |text| + 1 - i
  {
    if i > |text| then false
    else OccursAt(key, text, i) || ContainsFrom(text, key, i + 1)
  }

  /** Python's `key in text`. */
  function Contains(text: string, key: string): (r: bool)
    ensures r <==> exists j :: 0 <= j <= |text| && OccursAt(key, text, j)
  {
    ContainsFrom(text, key, 0)
  }

  function StartsWith(s: string, prefix: string): (r: bool)
    ensures r <==> OccursAt(prefix, s, 0)
  {
    |prefix| <= |s| && s[..|prefix|] == prefix
  }

  /* ----------------------------------------------------------- split */

  /** Python's `s.split(sep)` where `isSep` recognises the separator
      character: the pieces between separators, empty pieces included. */
  function Split(s: string, isSep: char -> bool): (r: seq<string>)
    ensures |r| >= 1
    ensures forall k :: 0 <= k < |r| ==> NoneOf(r[k], isSep)
    decreases |s|
  {
    if s == [] then [""]
    else if isSep(s[0]) then [""] + Split(s[1..], isSep)
    else
      var rest := Split(s[1..], isSep);
      [[s[0]] + rest[0]] + rest[1..]
  }

  /** A string with no separator splits into itself. */
  lemma {:induction false} SplitNoSeparator(s: string, isSep: char -> bool)
    requires NoneOf(s, isSep)
    ensures Split(s, isSep) == [s]
    decreases |s|
  {
    if s != [] {
      SplitNoSeparator(s[1..], isSep);
      assert [s[0]] + s[1..] == s;
    }
  }

  /** Splitting distributes over a separator: the pieces of `a + [c] + b`
      are the pieces of `a` followed by those of `b`. */
  lemma {:induction false} SplitAtSeparator(a: string, c: char, b: string, isSep: char -> bool)
    requires isSep(c)
    ensures Split(a + [c] + b, isSep) == Split(a, isSep) + Split(b, isSep)
    decreases |a|
  {
    var s := a + [c] + b;
    if a == [] {
      assert s[1..] == b;
    } else {
      assert s[0] == a[0];
      assert s[1..] == a[1..] + [c] + b;
      SplitAtSeparator(a[1..], c, b, isSep);
    }
  }

  /** The non-empty strings of a list, in order. */
  function NonEmpty(xs: seq<string>): (r: seq<string>)
    ensures forall k :: 0 <= k < |r| ==> r[k] != "" && r[k] in xs
    ensures forall x :: x in xs && x != "" ==> x in r
    decreases |xs|
  {
    if xs == [] then []
    else if xs[0] == "" then NonEmpty(xs[1..])
    else [xs[0]] + NonEmpty(xs[1..])
  }

  lemma {:induction false} NonEmptyAppend(a: seq<string>, b: seq<string>)
    ensures NonEmpty(a + b) == NonEmpty(a) + NonEmpty(b)
    decreases |a|
  {
    if a == [] {
      assert a + b == b;
    } else {
      var ab := a + b;
      assert ab[0] == a[0] && ab[1..] == a[1..] + b;
      NonEmptyAppend(a[1..], b);
      if a[0] == "" {
        assert NonEmpty(ab) == NonEmpty(a[1..] + b);
      } else {
        assert NonEmpty(ab) == [a[0]] + NonEmpty(a[1..] + b);
        assert NonEmpty(a) == [a[0]] + NonEmpty(a[1..]);
        SeqAssoc([a[0]], NonEmpty(a[1..]), NonEmpty(b));
      }
    }
  }

  lemma SeqAssoc(x: seq<string>, y: seq<string>, z: seq<string>)
    ensures x + (y + z) == (x + y) + z
  {
  }

  /** The text before the first separator: `s.split(sep)[0]`. */
  function FirstField(s: string, isSep: char -> bool): (r: string)
    ensures NoneOf(r, isSep)
  {
    Split(s, isSep)[0]
  }

  /** The first field is a prefix of `s`; when it is shorter than `s`, the
      character that follows it is a separator. */
  lemma {:induction false} FirstFieldIsPrefix(s: string, isSep: char -> bool)
    ensures |FirstField(s, isSep)| <= |s|
    ensures FirstField(s, isSep) == s[..|FirstField(s, isSep)|]
    ensures |FirstField(s, isSep)| < |s| ==> isSep(s[|FirstField(s, isSep)|])
    decreases |s|
  {
    if s != [] && !isSep(s[0]) {
      FirstFieldIsPrefix(s[1..], isSep);
    }
  }

  /** The first field of `s` is all of `s` exactly when `s` has no
      separator. */
  lemma FirstFieldWhole(s: string, isSep: char -> bool)
    ensures FirstField(s, isSep) == s <==> NoneOf(s, isSep)
  {
    if NoneOf(s, isSep) {
      SplitNoSeparator(s, isSep);
    }
  }

  /** Taking the first field twice is taking it once. */
  lemma FirstFieldIdempotent(s: string, isSep: char -> bool)
    ensures FirstField(FirstField(s, isSep), isSep) == FirstField(s, isSep)
  {
    FirstFieldWhole(FirstField(s, isSep), isSep);
  }

  /** The text after the last separator: `s.split(sep)[-1]`. */
  function LastField(s: string, isSep: char -> bool): (r: string)
    ensures NoneOf(r, isSep)
  {
    var parts := Split(s, isSep);
    parts[|parts| - 1]
  }

  /** The last field of `a + [c] + b`, for a separator `c`, is the last
      field of `b`. */
  lemma LastFieldAfterSeparator(a: string, c: char, b: string, isSep: char -> bool)
    requires isSep(c)
    ensures LastField(a + [c] + b, isSep) == LastField(b, isSep)
  {
    SplitAtSeparator(a, c, b, isSep);
  }

  /* ------------------------------------------------------- strip, join */

  /** Python's `s.lstrip(chars)`: drop the leading characters in the set. */
  function TrimStart(s: string, drop: char -> bool): (r: string)
    ensures |r| <= |s| && r == s[|s| - |r|..]
    ensures AllOf(s[..|s| - |r|], drop)
    ensures r == [] || !drop(r[0])
    decreases |s|
  {
    if s != [] && drop(s[0]) then TrimStart(s[1..], drop) else s
  }

  /** Python's `s.rstrip(chars)`: drop the trailing characters in the set. */
  function TrimEnd(s: string, drop: char -> bool): (r: string)
    ensures |r| <= |s| && r == s[..|r|]
    ensures AllOf(s[|r|..], drop)
    ensures r == [] || !drop(r[|r| - 1])
    decreases |s|
  {
    if s != [] && drop(s[|s| - 1]) then TrimEnd(s[..|s| - 1], drop) else s
  }

  /** Python's `s.strip()`: drop white space at both ends. */
  function Strip(s: string): (r: string)
  {
    TrimEnd(TrimStart(s, IsSpace), IsSpace)
  }

  /** Stripping adds no character: what `s` lacks, `strip(s)` lacks. */
  lemma StripKeepsAbsence(s: string, p: char -> bool)
    requires NoneOf(s, p)
    ensures NoneOf(Strip(s), p)
  {
    var t := TrimStart(s, IsSpace);
    assert NoneOf(t, p) by {
      forall k | 0 <= k < |t|
        ensures !p(t[k])
      {
        assert t[k] == s[|s| - |t| + k];
      }
    }
    var r := TrimEnd(t, IsSpace);
    forall k | 0 <= k < |r|
      ensures !p(r[k])
    {
      assert r[k] == t[k];
    }
  }

  /** `s[i..j]` is `s` with only white space cut off at either end. */
  predicate IsStripSlice(s: string, i: int, j: int) {
    0 <= i <= j <= |s| && AllOf(s[..i], IsSpace) && AllOf(s[j..], IsSpace)
  }

  /** `strip` returns a middle slice of `s` with only white space cut off. */
  lemma StripSlice(s: string)
    ensures exists i, j :: IsStripSlice(s, i, j) && Strip(s) == s[i..j]
  {
    var t := TrimStart(s, IsSpace);
    var r := TrimEnd(t, IsSpace);
    var i := |s| - |t|;
    var j := i + |r|;
    assert s[j..] == t[|r|..];
    assert IsStripSlice(s, i, j);
    assert s[i..j] == t[..|r|];
  }

  /** `strip` leaves no white space at either end. */
  lemma StripEnds(s: string)
    ensures Strip(s) == [] || (!IsSpace(Strip(s)[0]) && !IsSpace(Strip(s)[|Strip(s)| - 1]))
  {
    var t := TrimStart(s, IsSpace);
    var r := TrimEnd(t, IsSpace);
    if r != [] {
      assert r[0] == t[0];
    }
  }

  /** Stripping twice is stripping once. */
  lemma StripIdempotent(s: string)
    ensures Strip(Strip(s)) == Strip(s)
  {
    StripEnds(s);
    var r := Strip(s);
    if r != [] {
      assert TrimStart(r, IsSpace) == r;
      assert TrimEnd(r, IsSpace) == r;
    }
  }

  /** Python's `s.replace(old, new)` for one-character `old` and `new`. */
  function ReplaceChar(s: string, old_: char, new_: char): (r: string)
    ensures |r| == |s|
    ensures forall i :: 0 <= i < |s| ==> r[i] == (if s[i] == old_ then new_ else s[i])
    ensures old_ != new_ ==> forall i :: 0 <= i < |r| ==> r[i] != old_
  {
    seq(|s|, i requires 0 <= i < |s| => if s[i] == old_ then new_ else s[i])
  }

  /** Python's `sep.join(parts)`. */
  function Join(parts: seq<string>, sep: string): (r: string)
    decreases |parts|
  {
    if parts == [] then ""
    else if |parts| == 1 then parts[0]
    else parts[0] + sep + Join(parts[1..], sep)
  }
}
