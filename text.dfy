/** Python string operations the pipeline relies on: `sep.join(parts)`,
    `s.split(c)` with an explicit one-character separator, `s.endswith(x)` and
    `os.path.join(a, b)`, with the facts about them the rest of the model uses. */
module Text {

  /** `sep.join(parts)`: the joined text starts with the first part. */
  function Join(sep: string, parts: seq<string>): (r: string)
    ensures |parts| > 0 ==> |parts[0]| <= |r| && r[..|parts[0]|] == parts[0]
    decreases |parts|
  {
    if |parts| == 0 then ""
    else if |parts| == 1 then parts[0]
    else parts[0] + sep + Join(sep, parts[1..])
  }

  /** Where `parts[i]` starts inside `Join(sep, parts)`: the lengths of the parts before
      it, each followed by one separator. */
  function Offset(sep: string, parts: seq<string>, i: nat): nat
    requires i <= |parts|
    decreases i
  {
    if i == 0 then 0 else |parts[0]| + |sep| + Offset(sep, parts[1..], i - 1)
  }

  /** The joined text is as long as the parts plus one separator between each two. */
  lemma {:induction false} JoinLength(sep: string, parts: seq<string>)
    requires |parts| > 0
    ensures |Join(sep, parts)| + |sep| == Offset(sep, parts, |parts|)
    decreases |parts|
  {
    if |parts| > 1 {
      JoinLength(sep, parts[1..]);
    }
  }

  /** `(a + b)[|a| + x..|a| + y] == b[x..y]`. */
  lemma SliceAfter(a: string, b: string, x: nat, y: nat)
    requires x <= y <= |b|
    ensures (a + b)[|a| + x..|a| + y] == b[x..y]
  {
    assert forall k :: 0 <= k < y - x ==> (a + b)[|a| + x..|a| + y][k] == b[x..y][k];
  }

  /** Every part appears, unchanged, at its own offset in the joined text: joining
      neither reorders, drops nor merges parts. */
  lemma {:induction false} JoinAt(sep: string, parts: seq<string>, i: nat)
    requires i < |parts|
    ensures Offset(sep, parts, i) + |parts[i]| <= |Join(sep, parts)|
    ensures Join(sep, parts)[Offset(sep, parts, i)..Offset(sep, parts, i) + |parts[i]|] == parts[i]
    decreases |parts|
  {
    if |parts| > 1 {
      var j := Join(sep, parts);
      var rest := Join(sep, parts[1..]);
      assert j == parts[0] + sep + rest;
      if i == 0 {
        assert j[..|parts[0]|] == parts[0];
      } else {
        JoinAt(sep, parts[1..], i - 1);
        var o := Offset(sep, parts[1..], i - 1);
        assert parts[1..][i - 1] == parts[i];
        SliceAfter(parts[0] + sep, rest, o, o + |parts[i]|);
      }
    }
  }

  /** Between each part and the next stands exactly one separator. */
  lemma {:induction false} JoinSeparatorAt(sep: string, parts: seq<string>, i: nat)
    requires i + 1 < |parts|
    ensures Offset(sep, parts, i + 1) == Offset(sep, parts, i) + |parts[i]| + |sep| <= |Join(sep, parts)|
    ensures Join(sep, parts)[Offset(sep, parts, i) + |parts[i]|..Offset(sep, parts, i + 1)] == sep
    decreases |parts|
  {
    var j := Join(sep, parts);
    var rest := Join(sep, parts[1..]);
    assert j == parts[0] + sep + rest;
    if i == 0 {
      assert j[|parts[0]|..|parts[0]| + |sep|] == sep;
    } else {
      JoinSeparatorAt(sep, parts[1..], i - 1);
      var o := Offset(sep, parts[1..], i - 1);
      assert parts[1..][i - 1] == parts[i];
      SliceAfter(parts[0] + sep, rest, o + |parts[i]|, Offset(sep, parts[1..], i));
    }
  }

  /** `s.split(c)`: the pieces between occurrences of `c`, empty pieces included;
      there is always at least one piece and no piece contains `c`. */
  function SplitOn(s: string, c: char): (r: seq<string>)
    ensures |r| >= 1
    ensures forall i, k :: 0 <= i < |r| && 0 <= k < |r[i]| ==> r[i][k] != c
    decreases |s|
  {
    if |s| == 0 then [""]
    else if s[0] == c then [""] + SplitOn(s[1..], c)
    else
      var t := SplitOn(s[1..], c);
      assert forall k :: 0 <= k < |[s[0]] + t[0]| ==> ([s[0]] + t[0])[k] != c by {
        forall k | 0 <= k < |[s[0]] + t[0]| ensures ([s[0]] + t[0])[k] != c {
          if k > 0 { assert ([s[0]] + t[0])[k] == t[0][k - 1]; }
        }
      }
      [[s[0]] + t[0]] + t[1..]
  }

  /** How many times `c` occurs in `s`. */
  function Count(s: string, c: char): nat
    decreases |s|
  {
    if |s| == 0 then 0 else (if s[0] == c then 1 else 0) + Count(s[1..], c)
  }

  /** Splitting on `c` yields one piece more than there are occurrences of `c`. */
  lemma {:induction false} SplitOnCount(s: string, c: char)
    ensures |SplitOn(s, c)| == Count(s, c) + 1
    decreases |s|
  {
    if |s| > 0 {
      SplitOnCount(s[1..], c);
    }
  }

  /** Joining the pieces back with `c` gives the original string. */
  lemma {:induction false} JoinSplitOn(s: string, c: char)
    ensures Join([c], SplitOn(s, c)) == s
    decreases |s|
  {
    if |s| > 0 {
      var t := SplitOn(s[1..], c);
      JoinSplitOn(s[1..], c);
      if s[0] == c {
        assert SplitOn(s, c) == [""] + t;
        assert ([""] + t)[1..] == t;
        assert Join([c], [""] + t) == "" + [c] + Join([c], t);
      } else {
        var r := SplitOn(s, c);
        assert r == [[s[0]] + t[0]] + t[1..];
        if |t| == 1 {
          assert Join([c], r) == [s[0]] + t[0];
        } else {
          assert r[1..] == t[1..];
          assert Join([c], r) == ([s[0]] + t[0]) + [c] + Join([c], t[1..]);
          assert Join([c], t) == t[0] + [c] + Join([c], t[1..]);
        }
      }
    }
  }

  /** `s.endswith(suffix)`. */
  predicate EndsWith(s: string, suffix: string) {
    |suffix| <= |s| && s[|s| - |suffix|..] == suffix
  }

  /** `os.path.join(a, b)` on POSIX: an absolute `b` replaces `a`; otherwise a `/` is
      inserted unless `a` is empty or already ends with one. */
  function PathJoin(a: string, b: string): (r: string)
    ensures EndsWith(r, b)
  {
    if |b| > 0 && b[0] == '/' then b
    else if |a| == 0 || a[|a| - 1] == '/' then a + b
    else a + "/" + b
  }
}
