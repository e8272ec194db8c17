/** File names: `base` turns a path into the name that pairs an audio stem
    with its video (app.py:19-20), and the summary labels free clips by the
    last component of their path. */
module Paths {

  /** The last component of a POSIX path: everything after the last '/'. */
  function Basename(p: string): string
  {
    if |p| == 0 then ""
    else if p[|p| - 1] == '/' then ""
    else Basename(p[..|p| - 1]) + [p[|p| - 1]]
  }

  /** The last component holds no '/', ends the path, and is preceded by a
      '/' unless it is the whole path. */
  lemma {:induction false} BasenameSpec(p: string)
    ensures '/' !in Basename(p)
    ensures |Basename(p)| <= |p|
    ensures forall k :: 0 <= k < |Basename(p)| ==> Basename(p)[k] == p[|p| - |Basename(p)| + k]
    ensures |Basename(p)| < |p| ==> p[|p| - |Basename(p)| - 1] == '/'
  {
    if |p| > 0 && p[|p| - 1] != '/' {
      var q := p[..|p| - 1];
      BasenameSpec(q);
      var r := Basename(p);
      assert r == Basename(q) + [p[|p| - 1]];
      forall k | 0 <= k < |r|
        ensures r[k] == p[|p| - |r| + k]
      {
        if k < |r| - 1 {
          assert r[k] == Basename(q)[k];
        }
      }
    }
  }

  /** Index of the last `c` in `s`, or -1 when there is none. */
  function LastIndexOf(s: string, c: char): (r: int)
    ensures -1 <= r < |s|
    ensures r >= 0 ==> s[r] == c
    ensures forall k :: r < k < |s| ==> s[k] != c
  {
    if |s| == 0 then -1
    else if s[|s| - 1] == c then |s| - 1
    else LastIndexOf(s[..|s| - 1], c)
  }

  /** True when some character before position `i` is not a dot. */
  predicate HasNonDotBefore(n: string, i: int)
    requires 0 <= i <= |n|
  {
    exists k :: 0 <= k < i && n[k] != '.'
  }

  /** `os.path.splitext(name)[0]` for a name without '/': the text before the
      last dot, provided that dot is preceded by a character other than a dot
      (so ".bashrc" and "..x" keep their leading dots). */
  function StripExtension(n: string): (r: string)
  {
    var dot := LastIndexOf(n, '.');
    if dot >= 0 && HasNonDotBefore(n, dot) then n[..dot] else n
  }

  function LowerChar(c: char): char
  {
    if 'A' <= c <= 'Z' then (c as int + 32) as char else c
  }

  /** `str.lower()` restricted to ASCII letters. */
  function Lower(s: string): (r: string)
    ensures |r| == |s|
    ensures forall i :: 0 <= i < |s| ==> r[i] == LowerChar(s[i])
  {
    seq(|s|, i requires 0 <= i < |s| => LowerChar(s[i]))
  }

  /** `base(path)`: the file name without directory and extension, lower-cased
      (app.py:19-20). */
  function Base(path: string): string
  {
    Lower(StripExtension(Basename(path)))
  }

  /** The extension is stripped exactly when the name holds a dot that follows
      some character other than a dot; what is stripped starts at the last dot
      and what is kept is a prefix of the name. */
  lemma {:induction false} StripExtensionSpec(n: string)
    ensures var r := StripExtension(n);
      && |r| <= |n| && r == n[..|r|]
      && (r != n <==> exists i, k :: 0 <= k < i < |n| && n[i] == '.' && n[k] != '.')
      && (r != n ==> n[|r|] == '.' && '.' !in n[|r| + 1..])
  {
    var r := StripExtension(n);
    var dot := LastIndexOf(n, '.');
    if exists i, k :: 0 <= k < i < |n| && n[i] == '.' && n[k] != '.' {
      var i, k :| 0 <= k < i < |n| && n[i] == '.' && n[k] != '.';
      assert k < dot;
      assert HasNonDotBefore(n, dot);
    }
    if r != n {
      assert dot >= 0 && HasNonDotBefore(n, dot);
      var k :| 0 <= k < dot && n[k] != '.';
      assert 0 <= k < dot < |n| && n[dot] == '.' && n[k] != '.';
      var tail := n[dot + 1..];
      assert forall j :: 0 <= j < |tail| ==> tail[j] == n[dot + 1 + j];
    }
  }

  /** A name from `base` never holds a directory separator or an upper-case
      ASCII letter, and it is at most as long as the path. */
  lemma {:induction false} BaseIsPlainName(path: string)
    ensures var b := Base(path);
      && '/' !in b
      && |b| <= |path|
      && forall i :: 0 <= i < |b| ==> !('A' <= b[i] <= 'Z')
  {
    var name := Basename(path);
    var stem := StripExtension(name);
    BasenameSpec(path);
    StripExtensionSpec(name);
    var b := Base(path);
    forall i | 0 <= i < |b|
      ensures b[i] != '/' && !('A' <= b[i] <= 'Z')
    {
      assert stem[i] == name[i];
      assert name[i] in name;
    }
  }
}
