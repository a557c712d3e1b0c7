/** The string handling at the two ends of a run: the repository name
    derived from a clone URL, and the list of URLs read from the input
    file. */
module Inputs {
  import opened Text

  /* ------------------------------------------------------ replace */

  /** Python's `s.replace(pat, "")`: every occurrence of `pat`, found left
      to right without overlap, removed. */
  function RemoveAll(s: string, pat: string): (r: string)
    requires pat != []
    ensures |r| <= |s|
    decreases |s|
  {
    if |s| < |pat| then s
    else if s[..|pat|] == pat then RemoveAll(s[|pat|..], pat)
    else [s[0]] + RemoveAll(s[1..], pat)
  }

  /** A string with no occurrence of the pattern is left as it is. */
  lemma {:induction false} RemoveAllAbsent(s: string, pat: string)
    requires pat != [] && !Contains(s, pat)
    ensures RemoveAll(s, pat) == s
    decreases |s|
  {
    if |s| >= |pat| {
      assert !OccursAt(pat, s, 0);
      assert !Contains(s[1..], pat) by {
        forall j | 0 <= j <= |s[1..]|
          ensures !OccursAt(pat, s[1..], j)
        {
          assert !OccursAt(pat, s, j + 1);
          if j + |pat| <= |s[1..]| {
            assert s[1..][j..j + |pat|] == s[j + 1..j + 1 + |pat|];
          }
        }
      }
      RemoveAllAbsent(s[1..], pat);
      assert [s[0]] + s[1..] == s;
    }
  }

  /** A prefix without the pattern's first character passes through
      untouched. */
  lemma {:induction false} RemoveAllKeepsPrefix(a: string, b: string, pat: string)
    requires pat != [] && forall i :: 0 <= i < |a| ==> a[i] != pat[0]
    ensures RemoveAll(a + b, pat) == a + RemoveAll(b, pat)
    decreases |a|
  {
    if a == [] {
      assert a + b == b;
    } else {
      var s := a + b;
      assert s[0] == a[0] && s[1..] == a[1..] + b;
      RemoveAllKeepsPrefix(a[1..], b, pat);
      if |s| < |pat| {
        assert |b| < |pat|;
        assert RemoveAll(a[1..] + b, pat) == a[1..] + b;
        assert [a[0]] + a[1..] == a;
      } else {
        assert s[..|pat|][0] != pat[0];
        assert RemoveAll(s, pat) == [a[0]] + RemoveAll(a[1..] + b, pat);
        assert [a[0]] + a[1..] == a;
      }
    }
  }

  /* ------------------------------------------------------ repo name */

  /** `url.rstrip("/").split("/")[-1]`: the last path segment. */
  function LastSegment(url: string): (r: string)
    ensures NoneOf(r, IsSlash)
  {
    LastField(TrimEnd(url, IsSlash), IsSlash)
  }

  /** The last segment of `base/name` is `name`. */
  lemma LastSegmentOf(base: string, name: string)
    requires NoneOf(name, IsSlash) && name != []
    ensures LastSegment(base + "/" + name) == name
  {
    var u := base + "/" + name;
    assert u == base + ['/'] + name;
    assert TrimEnd(u, IsSlash) == u;
    LastFieldAfterSeparator(base, '/', name, IsSlash);
    SplitNoSeparator(name, IsSlash);
  }

  /** Trailing slashes do not change the last segment. */
  lemma LastSegmentTrailingSlash(url: string)
    ensures LastSegment(url + "/") == LastSegment(url)
  {
    assert (url + "/")[..|url + "/"| - 1] == url;
  }

  /** `repo_url.rstrip("/").split("/")[-1].replace(".git", "")`, as
      written: every `.git` in the last path segment is removed, not only
      a trailing one. */
  function RepoNameAsWritten(url: string): (r: string)
    ensures NoneOf(r, IsSlash)
  {
    var last := LastSegment(url);
    var r := RemoveAll(last, ".git");
    assert forall i :: 0 <= i < |r| ==> r[i] in last by {
      RemoveAllChars(last, ".git");
    }
    r
  }

  /** Removing a pattern only drops characters. */
  lemma {:induction false} RemoveAllChars(s: string, pat: string)
    requires pat != []
    ensures forall i :: 0 <= i < |RemoveAll(s, pat)| ==> RemoveAll(s, pat)[i] in s
    decreases |s|
  {
    if |s| >= |pat| {
      if s[..|pat|] == pat {
        RemoveAllChars(s[|pat|..], pat);
      } else {
        RemoveAllChars(s[1..], pat);
      }
    }
  }

  /** A `.git` after a dot-free prefix is removed wherever it stands. */
  lemma RemoveInnerGit(user: string, rest: string)
    requires NoneOf(user, IsDot)
    ensures RemoveAll(user + ".git" + rest, ".git") == user + RemoveAll(rest, ".git")
  {
    var pat := ".git";
    assert forall i :: 0 <= i < |user| ==> user[i] != pat[0];
    assert user + pat + rest == user + (pat + rest);
    RemoveAllKeepsPrefix(user, pat + rest, pat);
    assert (pat + rest)[..4] == pat && (pat + rest)[4..] == rest;
  }

  /** Removing `.git` from `<user>.github.io`. */
  lemma RemoveGitOfGithubIo(user: string)
    requires NoneOf(user, IsDot)
    ensures RemoveAll(user + ".github.io", ".git") == user + "hub.io"
  {
    assert user + ".github.io" == user + ".git" + "hub.io";
    RemoveInnerGit(user, "hub.io");
    RemoveAllKeepsPrefix("hub", ".io", ".git");
    assert "hub.io" == "hub" + ".io";
  }

  /** `.git` inside a segment is removed too: the repository
      `<user>.github.io` is named `<user>hub.io`. */
  lemma RepoNameAsWrittenInnerGit(base: string, user: string)
    requires user != [] && NoneOf(user, IsSlash) && NoneOf(user, IsDot)
    ensures RepoNameAsWritten(base + "/" + user + ".github.io") == user + "hub.io"
  {
    var seg := user + ".github.io";
    assert NoneOf(seg, IsSlash);
    assert base + "/" + user + ".github.io" == base + "/" + seg;
    LastSegmentOf(base, seg);
    RemoveGitOfGithubIo(user);
  }

  /** The as-written derivation gives the name of `base/name.git` for a
      name without dots. */
  lemma RepoNameAsWrittenOfGitUrl(base: string, name: string)
    requires NoneOf(name, IsSlash) && name != [] && NoneOf(name, IsDot)
    ensures RepoNameAsWritten(base + "/" + name + ".git") == name
  {
    var g := name + ".git";
    assert base + "/" + name + ".git" == base + "/" + g;
    assert NoneOf(g, IsSlash);
    LastSegmentOf(base, g);
    RemoveInnerGit(name, "");
    assert name + ".git" + "" == g;
  }

  /** The name the derivation is meant to give: the last path segment
      with one trailing `.git` suffix removed. */
  function RepoName(url: string): (r: string)
    ensures NoneOf(r, IsSlash)
  {
    var last := LastSegment(url);
    if |last| >= 4 && last[|last| - 4..] == ".git" then last[..|last| - 4] else last
  }

  /** `base/name.git` is named `name`, whatever `name` holds, and so is
      `base/name` when `name` does not end in `.git`; trailing slashes
      change nothing. */
  lemma RepoNameOfSegment(base: string, name: string)
    requires NoneOf(name, IsSlash) && name != []
    ensures RepoName(base + "/" + name + ".git") == name
    ensures !(|name| >= 4 && name[|name| - 4..] == ".git") ==> RepoName(base + "/" + name) == name
    ensures RepoName(base + "/" + name + "/") == RepoName(base + "/" + name)
  {
    LastSegmentOf(base, name);
    var g := name + ".git";
    assert base + "/" + name + ".git" == base + "/" + g;
    assert NoneOf(g, IsSlash);
    LastSegmentOf(base, g);
    assert g[|g| - 4..] == ".git" && g[..|g| - 4] == name;
    LastSegmentTrailingSlash(base + "/" + name);
  }

  /** The intended derivation keeps a `.git` inside the name. */
  lemma RepoNameKeepsInnerGit(base: string, user: string)
    requires user != [] && NoneOf(user, IsSlash)
    ensures RepoName(base + "/" + user + ".github.io") == user + ".github.io"
  {
    var seg := user + ".github.io";
    assert NoneOf(seg, IsSlash);
    assert base + "/" + user + ".github.io" == base + "/" + seg;
    LastSegmentOf(base, seg);
    assert seg[|seg| - 4..][0] == 'b';
  }

  /** The two derivations agree on the usual clone URL, `base/name.git`
      for a name without dots. */
  lemma RepoNameAgrees(base: string, name: string)
    requires NoneOf(name, IsSlash) && name != [] && NoneOf(name, IsDot)
    ensures RepoNameAsWritten(base + "/" + name + ".git") == RepoName(base + "/" + name + ".git")
  {
    RepoNameOfSegment(base, name);
    RepoNameAsWrittenOfGitUrl(base, name);
  }

  /* ------------------------------------------------------ repo list */

  /** The characters a text-mode file read ends a line at, after newline
      translation (`\n`, and `\r` on its own or before `\n`). */
  predicate IsLineEnd(c: char) { c == '\n' || c == '\r' }

  /** Every line stripped. */
  function StripAll(lines: seq<string>): (r: seq<string>)
    ensures |r| == |lines|
    ensures forall i :: 0 <= i < |lines| ==> r[i] == Strip(lines[i])
  {
    seq(|lines|, i requires 0 <= i < |lines| => Strip(lines[i]))
  }

  /** `[l.strip() for l in f if l.strip()]` over the file's text. */
  function ParseRepoList(text: string): seq<string>
  {
    NonEmpty(StripAll(Split(text, IsLineEnd)))
  }

  /** Reading two texts joined at a line break is reading each in turn. */
  lemma ParseRepoListAppend(a: string, c: char, b: string)
    requires IsLineEnd(c)
    ensures ParseRepoList(a + [c] + b) == ParseRepoList(a) + ParseRepoList(b)
  {
    SplitAtSeparator(a, c, b, IsLineEnd);
    var la := Split(a, IsLineEnd);
    var lb := Split(b, IsLineEnd);
    assert StripAll(la + lb) == StripAll(la) + StripAll(lb);
    NonEmptyAppend(StripAll(la), StripAll(lb));
  }

  /** Every entry is a stripped, non-empty line of the text, and every
      line that is not blank is an entry. */
  lemma ParseRepoListEntries(text: string)
    ensures forall k :: 0 <= k < |ParseRepoList(text)| ==>
              var u := ParseRepoList(text)[k];
              u != "" && Strip(u) == u && NoneOf(u, IsLineEnd)
    ensures forall l :: l in Split(text, IsLineEnd) && Strip(l) != "" ==> Strip(l) in ParseRepoList(text)
  {
    var lines := Split(text, IsLineEnd);
    var stripped := StripAll(lines);
    forall k | 0 <= k < |ParseRepoList(text)|
      ensures Strip(ParseRepoList(text)[k]) == ParseRepoList(text)[k]
      ensures NoneOf(ParseRepoList(text)[k], IsLineEnd)
    {
      var u := ParseRepoList(text)[k];
      assert u in stripped;
      var i :| 0 <= i < |lines| && u == stripped[i];
      StripIdempotent(lines[i]);
      StripKeepsAbsence(lines[i], IsLineEnd);
    }
    forall l | l in lines && Strip(l) != ""
      ensures Strip(l) in ParseRepoList(text)
    {
      var i :| 0 <= i < |lines| && lines[i] == l;
      assert stripped[i] == Strip(l);
    }
  }
}
