/**
 * Repository names derived from clone URLs: `RepoURLToName` (and its twin `RepoUrlToName`)
 * takes the last `/`-segment and drops one trailing `.git`; the plugin installer's
 * `extractRepoName` drops the `.git` first and then takes the last segment.
 */
module RepoNames {
  import opened Text

  /** The repository name of a clone URL: last `/`-segment, one trailing `.git` removed. */
  function RepoURLToName(url: string): (r: string)
    ensures '/' !in r
    ensures var seg := LastSegment(url, '/');
      if HasSuffix(seg, ".git") then r + ".git" == seg else r == seg
  {
    TrimSuffix(LastSegment(url, '/'), ".git")
  }

  /** The installer's variant: one trailing `.git` removed, then the last `/`-segment. */
  function ExtractRepoName(url: string): (r: string)
    ensures '/' !in r
  {
    LastSegment(TrimSuffix(url, ".git"), '/')
  }

  /** Both orders of the two steps give the same name for every URL. */
  lemma ExtractAgreesWithRepoURLToName(url: string)
    ensures ExtractRepoName(url) == RepoURLToName(url)
  {
    if HasSuffix(url, ".git") {
      var v := TrimSuffix(url, ".git");
      LastSegmentAppend(v, ".git", '/');
      assert LastSegment(url, '/') == LastSegment(v, '/') + ".git";
      var l := LastSegment(v, '/') + ".git";
      assert l[|l| - 4..] == ".git";
    } else {
      LastSegmentSuffix(url, '/');
    }
  }

  /** The name is a suffix of the URL that starts the URL or follows a `/`. */
  lemma RepoNameIsLastSegment(url: string)
    ensures var r := RepoURLToName(url);
      var k := if HasSuffix(LastSegment(url, '/'), ".git") then |r| + 4 else |r|;
      k <= |url| && url[|url| - k..][..|r|] == r && (k == |url| || url[|url| - k - 1] == '/')
  {
    LastSegmentSuffix(url, '/');
  }

  /** A URL without `/` is its own segment: only a trailing `.git` is removed. */
  lemma RepoNameWithoutSlash(url: string)
    requires '/' !in url
    ensures RepoURLToName(url) == TrimSuffix(url, ".git")
  {
    LastSegmentNoSep(url, '/');
  }

  /** A URL ending in `/` has an empty last segment, so its name is empty. */
  lemma RepoNameTrailingSlash(url: string)
    requires url != [] && url[|url| - 1] == '/'
    ensures RepoURLToName(url) == ""
  {
    LastSegmentUnique(url, '/', "");
  }

  /**
   * The round trip from a name: a URL built as `prefix/name.git` or `prefix/name` gives back
   * `name`, for any name without `/` that does not itself end in `.git`.
   */
  lemma RepoNameOfBuiltURL(prefix: string, name: string, dotGit: bool)
    requires '/' !in name && !HasSuffix(name, ".git")
    ensures RepoURLToName(prefix + "/" + name + (if dotGit then ".git" else "")) == name
  {
    var seg := name + (if dotGit then ".git" else "");
    var url := prefix + "/" + seg;
    assert url == (prefix + "/") + seg;
    assert url == prefix + "/" + name + (if dotGit then ".git" else "");
    assert '/' !in seg;
    LastSegmentAppend(prefix + "/", seg, '/');
    LastSegmentUnique(prefix + "/", '/', "");
    assert LastSegment(url, '/') == seg;
    if dotGit {
      assert seg[|seg| - 4..] == ".git";
      assert TrimSuffix(seg, ".git") == name;
    } else {
      assert seg == name;
    }
  }
}
