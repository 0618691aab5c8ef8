/**
 * The parts of Go's `strings` package (and of `unicode.IsSpace`) that the core uses, on
 * Dafny strings. Case mapping is ASCII only.
 */
module Text {

  /** `unicode.IsSpace`: the characters with the Unicode White_Space property. */
  predicate IsSpace(c: char) {
    || c == '\t' || c == '\n' || c == '\U{0B}' || c == '\U{0C}' || c == '\r' || c == ' '
    || c == '\U{85}' || c == '\U{A0}' || c == '\U{1680}'
    || ('\U{2000}' <= c <= '\U{200A}')
    || c == '\U{2028}' || c == '\U{2029}' || c == '\U{202F}' || c == '\U{205F}' || c == '\U{3000}'
  }

  predicate NoSpace(s: string) {
    forall i :: 0 <= i < |s| ==> !IsSpace(s[i])
  }

  predicate HasPrefix(s: string, prefix: string) {
    |prefix| <= |s| && s[..|prefix|] == prefix
  }

  predicate HasSuffix(s: string, suffix: string) {
    |suffix| <= |s| && s[|s| - |suffix|..] == suffix
  }

  /** `strings.TrimSuffix`: drops one copy of `suffix` if `s` ends with it. */
  function TrimSuffix(s: string, suffix: string): (r: string)
    ensures HasSuffix(s, suffix) ==> r + suffix == s
    ensures !HasSuffix(s, suffix) ==> r == s
  {
    if HasSuffix(s, suffix) then
      assert s == s[..|s| - |suffix|] + s[|s| - |suffix|..];
      s[..|s| - |suffix|]
    else s
  }

  /** Leading white space removed: the longest suffix of `s` that does not start with a space. */
  function TrimLeftSpace(s: string): (r: string)
    ensures |r| <= |s| && r == s[|s| - |r|..]
    ensures r == [] || !IsSpace(r[0])
    ensures forall i :: 0 <= i < |s| - |r| ==> IsSpace(s[i])
  {
    if s != [] && IsSpace(s[0]) then TrimLeftSpace(s[1..]) else s
  }

  /** Trailing white space removed: the longest prefix of `s` that does not end with a space. */
  function TrimRightSpace(s: string): (r: string)
    ensures |r| <= |s| && r == s[..|r|]
    ensures r == [] || !IsSpace(r[|r| - 1])
    ensures forall i :: |r| <= i < |s| ==> IsSpace(s[i])
  {
    if s != [] && IsSpace(s[|s| - 1]) then TrimRightSpace(s[..|s| - 1]) else s
  }

  /** `strings.TrimSpace`. */
  function TrimSpace(s: string): (r: string)
    ensures |r| <= |s|
    ensures r == [] || (!IsSpace(r[0]) && !IsSpace(r[|r| - 1]))
  {
    TrimRightSpace(TrimLeftSpace(s))
  }

  /** Every character of `TrimSpace(s)` occurs in `s`. */
  lemma TrimSpaceChars(s: string)
    ensures forall k :: 0 <= k < |TrimSpace(s)| ==> TrimSpace(s)[k] in s
  {
    var l := TrimLeftSpace(s);
    var r := TrimRightSpace(l);
    forall k | 0 <= k < |r| ensures r[k] in s {
      assert r[k] == l[k];
      assert l[k] == s[|s| - |l| + k];
    }
  }

  /** A string that is white space only trims to the empty string, and only such strings do. */
  lemma TrimSpaceEmpty(s: string)
    ensures TrimSpace(s) == [] <==> forall i :: 0 <= i < |s| ==> IsSpace(s[i])
  {
    var l := TrimLeftSpace(s);
    if TrimSpace(s) == [] {
      assert TrimRightSpace(l) == [];
    }
  }

  /** Strings without surrounding space are left alone by TrimSpace. */
  lemma TrimSpaceFixed(s: string)
    requires s == [] || (!IsSpace(s[0]) && !IsSpace(s[|s| - 1]))
    ensures TrimSpace(s) == s
  {
  }

  /** `strings.Trim(s, cutset)` for a one-character cutset: leading copies of `c` removed. */
  function TrimLeftChar(s: string, c: char): (r: string)
    ensures |r| <= |s| && r == s[|s| - |r|..]
    ensures r == [] || r[0] != c
  {
    if s != [] && s[0] == c then TrimLeftChar(s[1..], c) else s
  }

  /** Trailing copies of `c` removed. */
  function TrimRightChar(s: string, c: char): (r: string)
    ensures |r| <= |s| && r == s[..|r|]
    ensures r == [] || r[|r| - 1] != c
  {
    if s != [] && s[|s| - 1] == c then TrimRightChar(s[..|s| - 1], c) else s
  }

  /** `strings.Trim(s, string(c))`. */
  function TrimChar(s: string, c: char): (r: string)
    ensures |r| <= |s|
    ensures r == [] || (r[0] != c && r[|r| - 1] != c)
  {
    TrimRightChar(TrimLeftChar(s, c), c)
  }

  /** Upper-case ASCII letters mapped to lower case; every other character kept. */
  function LowerChar(c: char): char {
    if 'A' <= c <= 'Z' then (c as int + 32) as char else c
  }

  /** Lower-case ASCII letters mapped to upper case; every other character kept. */
  function UpperChar(c: char): char {
    if 'a' <= c <= 'z' then (c as int - 32) as char else c
  }

  /** `strings.ToLower`, ASCII letters only. */
  function ToLower(s: string): (r: string)
    ensures |r| == |s|
    ensures forall i :: 0 <= i < |s| ==> r[i] == LowerChar(s[i])
  {
    seq(|s|, i requires 0 <= i < |s| => LowerChar(s[i]))
  }

  /** `strings.ToUpper`, ASCII letters only. */
  function ToUpper(s: string): (r: string)
    ensures |r| == |s|
    ensures forall i :: 0 <= i < |s| ==> r[i] == UpperChar(s[i])
  {
    seq(|s|, i requires 0 <= i < |s| => UpperChar(s[i]))
  }

  /** Upper-casing ignores a previous lower-casing: case mapping loses only the case. */
  lemma UpperOfLower(s: string)
    ensures ToUpper(ToLower(s)) == ToUpper(s)
  {
    forall i | 0 <= i < |s| ensures ToUpper(ToLower(s))[i] == ToUpper(s)[i] {
      var c := s[i];
      assert UpperChar(LowerChar(c)) == UpperChar(c);
    }
  }

  /** A string of upper-case ASCII letters is its own upper-case form. */
  lemma UpperFixed(s: string)
    requires forall i :: 0 <= i < |s| ==> 'A' <= s[i] <= 'Z'
    ensures ToUpper(s) == s
  {
  }

  /** No upper-case ASCII letter in `s`. */
  predicate NoUpper(s: string) {
    forall i :: 0 <= i < |s| ==> !('A' <= s[i] <= 'Z')
  }

  /** Lower-casing leaves no upper-case letter. */
  lemma LowerNoUpper(s: string)
    ensures NoUpper(ToLower(s))
  {
  }

  /** A string without upper-case letters is its own lower-case form. */
  lemma LowerFixed(s: string)
    requires NoUpper(s)
    ensures ToLower(s) == s
  {
  }

  /** Trimming adds no upper-case letter. */
  lemma TrimSpaceNoUpper(s: string)
    requires NoUpper(s)
    ensures NoUpper(TrimSpace(s))
  {
    TrimSpaceChars(s);
  }

  /** `strings.ReplaceAll(s, string(a), string(b))` for single characters. */
  function ReplaceChar(s: string, a: char, b: char): (r: string)
    ensures |r| == |s|
    ensures forall i :: 0 <= i < |s| ==> r[i] == (if s[i] == a then b else s[i])
  {
    seq(|s|, i requires 0 <= i < |s| => if s[i] == a then b else s[i])
  }

  /** `strings.Split(s, string(sep))`: never empty, and no part holds the separator. */
  function Split(s: string, sep: char): (parts: seq<string>)
    ensures |parts| >= 1
    ensures forall i :: 0 <= i < |parts| ==> sep !in parts[i]
  {
    if s == [] then [""]
    else
      var rest := Split(s[1..], sep);
      if s[0] == sep then [""] + rest
      else [[s[0]] + rest[0]] + rest[1..]
  }

  /** `strings.Join(parts, string(sep))`. */
  function JoinWith(parts: seq<string>, sep: char): string {
    if |parts| == 0 then ""
    else if |parts| == 1 then parts[0]
    else parts[0] + [sep] + JoinWith(parts[1..], sep)
  }

  /** Joining the parts of a split gives the string back. */
  lemma {:induction false} JoinSplit(s: string, sep: char)
    ensures JoinWith(Split(s, sep), sep) == s
  {
    if s != [] {
      JoinSplit(s[1..], sep);
      var rest := Split(s[1..], sep);
      assert s == [s[0]] + s[1..];
      if s[0] == sep {
        assert ([""] + rest)[1..] == rest;
      } else if |rest| == 1 {
        assert JoinWith(rest, sep) == rest[0];
      } else {
        var parts := [[s[0]] + rest[0]] + rest[1..];
        assert parts[1..] == rest[1..];
        assert JoinWith(rest, sep) == rest[0] + [sep] + JoinWith(rest[1..], sep);
        assert [s[0]] + rest[0] + [sep] + JoinWith(rest[1..], sep) == [s[0]] + JoinWith(rest, sep);
      }
    }
  }

  /** Splitting a part without separator, followed by a separator, yields that part first. */
  lemma {:induction false} SplitAfterPart(p: string, sep: char, t: string)
    requires sep !in p
    ensures Split(p + [sep] + t, sep) == [p] + Split(t, sep)
  {
    if p != [] {
      SplitAfterPart(p[1..], sep, t);
      var s := p + [sep] + t;
      assert s[0] == p[0] && s[0] != sep;
      assert s[1..] == p[1..] + [sep] + t;
      var rest := Split(s[1..], sep);
      assert rest == [p[1..]] + Split(t, sep);
      assert rest[1..] == Split(t, sep);
      assert p == [p[0]] + p[1..];
    } else {
      assert p + [sep] + t == [sep] + t;
    }
  }

  /** The position of the first separator in `s`. */
  function FirstSep(s: string, sep: char): (k: nat)
    requires sep in s
    ensures k < |s| && s[k] == sep && sep !in s[..k]
  {
    if s[0] == sep then 0
    else
      assert sep in s[1..] by {
        var j :| 0 <= j < |s| && s[j] == sep;
        assert s[1..][j - 1] == sep;
      }
      var k := 1 + FirstSep(s[1..], sep);
      assert s[..k] == [s[0]] + s[1..][..k - 1];
      k
  }

  /** Splitting around one separator splits both sides independently. */
  lemma {:induction false} SplitAppend(a: string, sep: char, b: string)
    decreases |a|
    ensures Split(a + [sep] + b, sep) == Split(a, sep) + Split(b, sep)
  {
    if sep !in a {
      SplitNoSep(a, sep);
      SplitAfterPart(a, sep, b);
    } else {
      var k := FirstSep(a, sep);
      var p, rest := a[..k], a[k + 1..];
      SplitAtFirst(a, sep, b, k);
      SplitAppend(rest, sep, b);
      ConsAppend(p, Split(rest, sep), Split(b, sep));
    }
  }

  lemma ConsAppend<T>(x: T, u: seq<T>, v: seq<T>)
    ensures [x] + (u + v) == ([x] + u) + v
  {
  }

  /** Cutting both `a` and `a + [sep] + b` at the first separator of `a`. */
  lemma SplitAtFirst(a: string, sep: char, b: string, k: nat)
    requires k < |a| && a[k] == sep && sep !in a[..k]
    ensures Split(a, sep) == [a[..k]] + Split(a[k + 1..], sep)
    ensures Split(a + [sep] + b, sep) == [a[..k]] + Split(a[k + 1..] + [sep] + b, sep)
  {
    var p := a[..k];
    var rest := a[k + 1..];
    assert a == p + [sep] + rest;
    SplitAfterPart(p, sep, rest);
    assert a + [sep] + b == p + [sep] + (rest + [sep] + b);
    SplitAfterPart(p, sep, rest + [sep] + b);
  }

  /** Splitting a string without separator gives the string itself. */
  lemma {:induction false} SplitNoSep(p: string, sep: char)
    requires sep !in p
    ensures Split(p, sep) == [p]
  {
    if p != [] {
      SplitNoSep(p[1..], sep);
      assert p == [p[0]] + p[1..];
    }
  }

  /** Splitting a join of separator-free parts gives the parts back. */
  lemma {:induction false} SplitJoin(parts: seq<string>, sep: char)
    requires |parts| >= 1
    requires forall i :: 0 <= i < |parts| ==> sep !in parts[i]
    ensures Split(JoinWith(parts, sep), sep) == parts
  {
    if |parts| == 1 {
      SplitNoSep(parts[0], sep);
    } else {
      SplitJoin(parts[1..], sep);
      SplitAfterPart(parts[0], sep, JoinWith(parts[1..], sep));
      assert parts == [parts[0]] + parts[1..];
    }
  }

  /** The text after the last separator: `parts[len(parts)-1]` of a split. */
  function LastSegment(s: string, sep: char): (r: string)
    ensures sep !in r
  {
    var parts := Split(s, sep);
    parts[|parts| - 1]
  }

  /**
   * The last segment is the longest suffix of `s` without the separator: it is a suffix, and
   * either it is all of `s` or the character before it is the separator.
   */
  lemma {:induction false} LastSegmentSuffix(s: string, sep: char)
    ensures |LastSegment(s, sep)| <= |s|
    ensures s[|s| - |LastSegment(s, sep)|..] == LastSegment(s, sep)
    ensures |LastSegment(s, sep)| == |s| || s[|s| - |LastSegment(s, sep)| - 1] == sep
  {
    if sep !in s {
      LastSegmentNoSep(s, sep);
    } else {
      LastSegmentTail(s, sep);
      LastSegmentSuffix(s[1..], sep);
      var r := LastSegment(s, sep);
      assert s[1..][|s[1..]| - |r|..] == s[|s| - |r|..];
      if |r| == |s| - 1 {
        assert s == [s[0]] + r;
      } else {
        assert s[1..][|s[1..]| - |r| - 1] == s[|s| - |r| - 1];
      }
    }
  }

  /** Dropping the first character keeps the last segment of a string with a separator. */
  lemma LastSegmentTail(s: string, sep: char)
    requires sep in s
    ensures LastSegment(s, sep) == LastSegment(s[1..], sep)
  {
    var rest := Split(s[1..], sep);
    if s[0] == sep {
      assert ([""] + rest)[|rest|] == rest[|rest| - 1];
    } else {
      assert sep in s[1..] by {
        var j :| 0 <= j < |s| && s[j] == sep;
        assert s[1..][j - 1] == sep;
      }
      if |rest| == 1 {
        JoinSplit(s[1..], sep);
        assert false;
      }
      var parts := [[s[0]] + rest[0]] + rest[1..];
      assert parts[|parts| - 1] == rest[|rest| - 1];
    }
  }

  /** A string without the separator is its own last segment. */
  lemma LastSegmentNoSep(s: string, sep: char)
    requires sep !in s
    ensures LastSegment(s, sep) == s
  {
    SplitNoSep(s, sep);
  }

  /**
   * The last segment is the only suffix without the separator that is either all of `s` or
   * preceded by the separator.
   */
  lemma LastSegmentUnique(s: string, sep: char, r: string)
    requires HasSuffix(s, r) && sep !in r
    requires |r| == |s| || s[|s| - |r| - 1] == sep
    ensures LastSegment(s, sep) == r
  {
    LastSegmentSuffix(s, sep);
  }

  /** Appending text without the separator extends the last segment by that text. */
  lemma LastSegmentAppend(u: string, t: string, sep: char)
    requires sep !in t
    ensures LastSegment(u + t, sep) == LastSegment(u, sep) + t
  {
    LastSegmentSuffix(u, sep);
    var l := LastSegment(u, sep);
    var s := u + t;
    assert s[|s| - |l + t|..] == l + t;
    if |l| < |u| {
      assert s[|s| - |l + t| - 1] == u[|u| - |l| - 1];
    }
    LastSegmentUnique(s, sep, l + t);
  }

  /** Like Split, with every white space character as a separator. */
  function SplitSpace(s: string): (parts: seq<string>)
    ensures |parts| >= 1
    ensures forall i :: 0 <= i < |parts| ==> NoSpace(parts[i])
    ensures forall i, k :: 0 <= i < |parts| && 0 <= k < |parts[i]| ==> parts[i][k] in s
  {
    if s == [] then [""]
    else
      var rest := SplitSpace(s[1..]);
      if IsSpace(s[0]) then [""] + rest
      else [[s[0]] + rest[0]] + rest[1..]
  }

  function RemoveEmpty(parts: seq<string>): (r: seq<string>)
    ensures forall i :: 0 <= i < |r| ==> r[i] != [] && r[i] in parts
  {
    if parts == [] then []
    else if parts[0] == [] then RemoveEmpty(parts[1..])
    else [parts[0]] + RemoveEmpty(parts[1..])
  }

  /** `strings.Fields`: the maximal runs of non-space characters, in order. */
  function Fields(s: string): (r: seq<string>)
    ensures forall i :: 0 <= i < |r| ==> r[i] != [] && NoSpace(r[i])
    ensures forall i, k :: 0 <= i < |r| && 0 <= k < |r[i]| ==> r[i][k] in s
  {
    RemoveEmpty(SplitSpace(s))
  }

  /** A string with no space at all is its own single field, or has none when empty. */
  lemma FieldsNoSpace(s: string)
    requires NoSpace(s)
    ensures Fields(s) == if s == [] then [] else [s]
  {
    SplitSpaceNoSpace(s);
    assert [s][1..] == [];
    if s == [] {
      assert RemoveEmpty([s]) == RemoveEmpty([]);
    } else {
      assert RemoveEmpty([s]) == [s] + RemoveEmpty([]);
    }
  }

  lemma {:induction false} SplitSpaceNoSpace(s: string)
    requires NoSpace(s)
    ensures SplitSpace(s) == [s]
  {
    if s != [] {
      SplitSpaceNoSpace(s[1..]);
      assert s == [s[0]] + s[1..];
    }
  }

  /** Every character of a join is the separator or a character of one of the parts. */
  lemma {:induction false} JoinWithChars(parts: seq<string>, sep: char, k: nat)
    requires k < |JoinWith(parts, sep)|
    ensures JoinWith(parts, sep)[k] == sep
         || exists i, j :: 0 <= i < |parts| && 0 <= j < |parts[i]| && parts[i][j] == JoinWith(parts, sep)[k]
  {
    if |parts| == 1 {
      assert parts[0][k] == JoinWith(parts, sep)[k];
    } else if |parts| > 1 {
      var j := JoinWith(parts, sep);
      if k < |parts[0]| {
        assert parts[0][k] == j[k];
      } else if k > |parts[0]| {
        var k' := k - |parts[0]| - 1;
        JoinWithChars(parts[1..], sep, k');
        assert j[k] == JoinWith(parts[1..], sep)[k'];
        if JoinWith(parts[1..], sep)[k'] != sep {
          var i, jj :| 0 <= i < |parts[1..]| && 0 <= jj < |parts[1..][i]| && parts[1..][i][jj] == j[k];
          assert parts[i + 1][jj] == j[k];
        }
      }
    }
  }
}
