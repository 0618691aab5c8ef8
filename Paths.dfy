/**
 * The lexical part of Go's `path/filepath` on Unix: `Clean`, `Join`, `Dir`, `Base` and `IsAbs`.
 * A path is cleaned by splitting it at '/', dropping empty and "." names, and letting ".."
 * cancel the name before it; the result is kept as a stack of names and rendered back.
 */
module Paths {
  import opened Text

  /** `filepath.IsAbs`: the path starts at the root. */
  predicate IsAbs(p: string) {
    p != [] && p[0] == '/'
  }

  /** A proper name: what a cleaned path is made of. */
  predicate IsName(n: string) {
    n != "" && n != "." && '/' !in n
  }

  /**
   * The stack of a cleaned path: proper names, where ".." occurs only in front of the
   * others, and never in a rooted path (".." at the root is the root).
   */
  predicate Canonical(st: seq<string>, rooted: bool) {
    && (forall i :: 0 <= i < |st| ==> IsName(st[i]))
    && (forall i, j :: 0 <= i < j < |st| && st[j] == ".." ==> st[i] == "..")
    && (rooted ==> forall i :: 0 <= i < |st| ==> st[i] != "..")
  }

  /** Processes one name of a path: "" and "." change nothing, ".." goes back one level. */
  function Step(st: seq<string>, name: string, rooted: bool): (r: seq<string>)
    requires Canonical(st, rooted) && '/' !in name
    ensures Canonical(r, rooted)
  {
    if name == "" || name == "." then st
    else if name == ".." then
      if st != [] && st[|st| - 1] != ".." then st[..|st| - 1]
      else if rooted then st
      else
        assert forall i :: 0 <= i < |st| ==> st[i] == ".." by {
          forall i | 0 <= i < |st| ensures st[i] == ".." {
            if i < |st| - 1 { assert st[|st| - 1] == ".."; }
          }
        }
        st + [".."]
    else st + [name]
  }

  /** Processes the names of a path in order. */
  function Fold(names: seq<string>, rooted: bool, st: seq<string>): (r: seq<string>)
    requires Canonical(st, rooted)
    requires forall i :: 0 <= i < |names| ==> '/' !in names[i]
    ensures Canonical(r, rooted)
  {
    if names == [] then st else Fold(names[1..], rooted, Step(st, names[0], rooted))
  }

  /** The names of the cleaned path. */
  function CleanNames(p: string): seq<string> {
    Fold(Split(p, '/'), IsAbs(p), [])
  }

  /** Writes a stack of names back as a path; the empty relative path is ".". */
  function Render(rooted: bool, st: seq<string>): string {
    if rooted then "/" + JoinWith(st, '/')
    else if st == [] then "."
    else JoinWith(st, '/')
  }

  /** `filepath.Clean`: the shortest lexically equivalent path, never empty. */
  function Clean(p: string): (r: string)
    ensures r != ""
  {
    Render(IsAbs(p), CleanNames(p))
  }

  /** `filepath.Join`: the non-empty elements joined with '/' and cleaned; "" if all are empty. */
  function Join(elems: seq<string>): (r: string)
    ensures r == "" <==> forall i :: 0 <= i < |elems| ==> elems[i] == ""
  {
    if elems == [] then ""
    else if elems[0] == "" then Join(elems[1..])
    else Clean(JoinWith(elems, '/'))
  }

  /** The length of `p` up to and including its last '/', or 0 when it has none. */
  function LastSlashEnd(p: string): (k: nat)
    ensures k <= |p|
    ensures k > 0 ==> p[k - 1] == '/'
    ensures forall i :: k <= i < |p| ==> p[i] != '/'
  {
    if p == [] then 0
    else if p[|p| - 1] == '/' then |p|
    else LastSlashEnd(p[..|p| - 1])
  }

  /** `filepath.Dir`: everything up to the last '/', cleaned. */
  function Dir(p: string): (r: string)
    ensures '/' !in p ==> r == "."
  {
    Clean(p[..LastSlashEnd(p)])
  }

  /** `filepath.Base`: the last name of the path, after trailing slashes are dropped. */
  function Base(p: string): (r: string)
    ensures r != ""
    ensures r == "/" || '/' !in r
  {
    if p == "" then "."
    else
      var q := TrimRightChar(p, '/');
      if q == "" then "/"
      else
        var b := q[LastSlashEnd(q)..];
        if b == "" then "/" else b
  }

  /** The first character of a join of names is that of the first name. */
  lemma JoinWithHead(st: seq<string>)
    requires st != [] && st[0] != ""
    ensures JoinWith(st, '/') != [] && JoinWith(st, '/')[0] == st[0][0]
  {
  }

  /** A rendered stack reads back as the same stack, rooted or not as it was. */
  lemma RenderRoundTrip(rooted: bool, st: seq<string>)
    requires Canonical(st, rooted)
    ensures IsAbs(Render(rooted, st)) == rooted
    ensures CleanNames(Render(rooted, st)) == st
  {
    var p := Render(rooted, st);
    if st != [] {
      JoinWithHead(st);
      SplitJoin(st, '/');
    }
    if rooted {
      SplitAppend("", '/', JoinWith(st, '/'));
      assert p == "" + ['/'] + JoinWith(st, '/');
      assert IsAbs(p);
      if st == [] {
        assert Split(p, '/') == ["", ""];
        assert ["", ""][1..] == [""];
        assert Fold(["", ""], rooted, []) == Fold([""], rooted, []) == Fold([], rooted, []);
      } else {
        assert Split(p, '/') == [""] + st;
        assert ([""] + st)[1..] == st;
        assert [] + st == st;
        FoldCanonical(st, rooted, []);
        assert Fold([""] + st, rooted, []) == Fold(st, rooted, []);
      }
    } else if st == [] {
      SplitNoSep(".", '/');
    } else {
      assert [] + st == st;
      FoldCanonical(st, rooted, []);
    }
  }

  /** Names that are already canonical after `st` are pushed unchanged. */
  lemma {:induction false} FoldCanonical(names: seq<string>, rooted: bool, st: seq<string>)
    requires Canonical(st + names, rooted)
    ensures Canonical(st, rooted)
    ensures forall i :: 0 <= i < |names| ==> '/' !in names[i]
    ensures Fold(names, rooted, st) == st + names
  {
    assert forall i :: 0 <= i < |st| ==> st[i] == (st + names)[i];
    assert forall i :: 0 <= i < |names| ==> names[i] == (st + names)[|st| + i];
    if names != [] {
      var n := names[0];
      if n == ".." {
        assert forall i :: 0 <= i < |st| ==> st[i] == "..";
        assert !rooted;
      }
      assert Step(st, n, rooted) == st + [n];
      assert st + names == (st + [n]) + names[1..];
      FoldCanonical(names[1..], rooted, st + [n]);
    }
  }

  /** Cleaning the names of `a + b` is cleaning `a`, then going on with `b`. */
  lemma {:induction false} FoldAppend(a: seq<string>, b: seq<string>, rooted: bool, st: seq<string>)
    requires Canonical(st, rooted)
    requires forall i :: 0 <= i < |a| ==> '/' !in a[i]
    requires forall i :: 0 <= i < |b| ==> '/' !in b[i]
    ensures Fold(a + b, rooted, st) == Fold(b, rooted, Fold(a, rooted, st))
  {
    if a != [] {
      assert (a + b)[1..] == a[1..] + b;
      assert (a + b)[0] == a[0];
      FoldAppend(a[1..], b, rooted, Step(st, a[0], rooted));
    } else {
      assert a + b == b;
    }
  }

  /** Cleaning keeps a path absolute or relative. */
  lemma CleanIsAbs(p: string)
    ensures IsAbs(Clean(p)) == IsAbs(p)
  {
    RenderRoundTrip(IsAbs(p), CleanNames(p));
  }

  /** `Clean` is idempotent. */
  lemma CleanIdempotent(p: string)
    ensures Clean(Clean(p)) == Clean(p)
  {
    RenderRoundTrip(IsAbs(p), CleanNames(p));
  }

  /** Appending to a path after cleaning it gives the same clean path as appending first. */
  lemma CleanAppend(x: string, y: string)
    requires x != ""
    ensures Clean(Clean(x) + "/" + y) == Clean(x + "/" + y)
  {
    var r := IsAbs(x);
    var cx := Clean(x);
    RenderRoundTrip(r, CleanNames(x));
    SplitAppend(x, '/', y);
    SplitAppend(cx, '/', y);
    assert x + "/" + y == x + ['/'] + y;
    assert cx + "/" + y == cx + ['/'] + y;
    assert IsAbs(x + "/" + y) == r;
    assert IsAbs(cx + "/" + y) == r;
    FoldAppend(Split(x, '/'), Split(y, '/'), r, []);
    FoldAppend(Split(cx, '/'), Split(y, '/'), r, []);
  }

  /** Joining two elements, the first non-empty. */
  lemma JoinPair(x: string, y: string)
    requires x != ""
    ensures Join([x, y]) == Clean(x + "/" + y)
  {
    assert [x, y][1..] == [y];
    assert JoinWith([y], '/') == y;
    assert JoinWith([x, y], '/') == x + "/" + y;
  }

  /** Joining three elements, the first non-empty. */
  lemma JoinTriple(x: string, y: string, z: string)
    requires x != ""
    ensures Join([x, y, z]) == Clean(x + "/" + y + "/" + z)
  {
    assert [x, y, z][1..] == [y, z];
    assert [y, z][1..] == [z];
    assert JoinWith([z], '/') == z;
    assert JoinWith([y, z], '/') == y + "/" + z;
    assert JoinWith([x, y, z], '/') == x + "/" + y + "/" + z;
  }

  /** `Join` regroups: joining a join with a third element is joining all three. */
  lemma JoinRegroup(a: string, b: string, c: string)
    ensures Join([Join([a, b]), c]) == Join([a, b, c])
  {
    if a == "" && b == "" {
      assert [a, b][1..] == [b] && [b][1..] == [];
      assert [a, b, c][1..] == [b, c] && [b, c][1..] == [c];
      assert [Join([a, b]), c][1..] == [c];
    } else if a == "" {
      assert [a, b][1..] == [b];
      assert [a, b, c][1..] == [b, c];
      assert Join([a, b]) == Clean(b);
      JoinPair(Clean(b), c);
      JoinPair(b, c);
      CleanAppend(b, c);
    } else {
      JoinPair(a, b);
      JoinPair(Join([a, b]), c);
      JoinTriple(a, b, c);
      CleanAppend(a + "/" + b, c);
    }
  }

  /** Joining one more part onto a join. */
  lemma {:induction false} JoinWithSnoc(st: seq<string>, n: string, sep: char)
    ensures JoinWith(st + [n], sep) == if st == [] then n else JoinWith(st, sep) + [sep] + n
  {
    if |st| > 1 {
      assert (st + [n])[1..] == st[1..] + [n];
      JoinWithSnoc(st[1..], n, sep);
    } else if |st| == 1 {
      assert (st + [n])[1..] == [n];
    }
  }

  /** The last '/' of `d + n` is the end of `d` when `d` is empty or ends in '/' and `n` has none. */
  lemma {:induction false} LastSlashEndAppend(d: string, n: string)
    requires d == "" || d[|d| - 1] == '/'
    requires '/' !in n
    ensures LastSlashEnd(d + n) == |d|
  {
    if n != [] {
      assert (d + n)[..|d + n| - 1] == d + n[..|n| - 1];
      LastSlashEndAppend(d, n[..|n| - 1]);
    } else {
      assert d + n == d;
    }
  }

  /** A trailing '/' does not change the cleaned path. */
  lemma CleanTrailingSlash(d: string)
    requires d != ""
    ensures Clean(d + "/") == Clean(d)
  {
    SplitAppend(d, '/', "");
    assert d + "/" == d + ['/'] + "";
    assert IsAbs(d + "/") == IsAbs(d);
    FoldAppend(Split(d, '/'), [""], IsAbs(d), []);
  }

  /** Appending a proper name pushes it on the cleaned stack. */
  lemma CleanNamesChild(d: string, n: string)
    requires d != "" && IsName(n) && n != ".."
    ensures IsAbs(d + "/" + n) == IsAbs(d)
    ensures CleanNames(d + "/" + n) == CleanNames(d) + [n]
  {
    SplitAppend(d, '/', n);
    SplitNoSep(n, '/');
    assert d + "/" + n == d + ['/'] + n;
    FoldAppend(Split(d, '/'), [n], IsAbs(d), []);
  }

  /**
   * `Dir` and `Base` undo a join with a proper name: `Base(Join(d, n))` is `n` and
   * `Dir(Join(d, n))` is `d` cleaned.
   */
  lemma JoinChild(d: string, n: string)
    requires d != "" && IsName(n) && n != ".."
    ensures Base(Join([d, n])) == n
    ensures Dir(Join([d, n])) == Clean(d)
  {
    JoinAsAppend(d, n);
    DirPrefixClean(d);
    BaseDirOfAppend(DirPrefix(d), n);
  }

  /** What comes before the last name in a cleaned path with one more name: "", "/" or `Clean(d) + "/"`. */
  function DirPrefix(d: string): (pre: string)
    ensures pre == "" || pre[|pre| - 1] == '/'
  {
    var st := CleanNames(d);
    if IsAbs(d) then (if st == [] then "/" else "/" + JoinWith(st, '/') + "/")
    else (if st == [] then "" else JoinWith(st, '/') + "/")
  }

  /** Joining a proper name onto `d` appends it to the directory prefix of `d`. */
  lemma JoinAsAppend(d: string, n: string)
    requires d != "" && IsName(n) && n != ".."
    ensures Join([d, n]) == DirPrefix(d) + n
  {
    JoinPair(d, n);
    CleanNamesChild(d, n);
    JoinWithSnoc(CleanNames(d), n, '/');
  }

  /** The directory prefix of `d` cleans back to `d` cleaned. */
  lemma DirPrefixClean(d: string)
    requires d != ""
    ensures Clean(DirPrefix(d)) == Clean(d)
  {
    var st := CleanNames(d);
    var pre := DirPrefix(d);
    if st == [] && IsAbs(d) {
      assert Clean(d) == "/" == pre;
      CleanIdempotent(d);
    } else if st == [] {
      assert Split("", '/') == [""];
    } else {
      assert pre == Clean(d) + "/";
      CleanAppend(d, "");
      assert Clean(d) + "/" == Clean(d) + "/" + "";
      assert d + "/" == d + "/" + "";
      CleanTrailingSlash(d);
    }
  }

  /** After a prefix that is empty or ends in '/', a proper name is the base and the prefix the directory. */
  lemma BaseDirOfAppend(pre: string, n: string)
    requires pre == "" || pre[|pre| - 1] == '/'
    requires IsName(n)
    ensures Base(pre + n) == n
    ensures Dir(pre + n) == Clean(pre)
  {
    var p := pre + n;
    LastSlashEndAppend(pre, n);
    assert TrimRightChar(p, '/') == p;
    assert p[LastSlashEnd(p)..] == n;
    assert p[..LastSlashEnd(p)] == pre;
  }

  /** A join of two elements, the second non-empty, is already clean. */
  lemma JoinIsClean(a: string, b: string)
    requires b != ""
    ensures Clean(Join([a, b])) == Join([a, b])
  {
    if a == "" {
      assert [a, b][1..] == [b];
      CleanIdempotent(b);
    } else {
      JoinPair(a, b);
      CleanIdempotent(a + "/" + b);
    }
  }
}
