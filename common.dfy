/** Shared vocabulary of the model: time stamps and failure-carrying results. */
module Common {

  /** A time stamp or a duration, in whole milliseconds. The program works on
      seconds held in floats, rounds to three decimals when it reports them and
      only compares, adds, subtracts and takes ceilings of them, so milliseconds
      lose nothing it relies on. */
  type Time = int

  /** 0.05 s: the leading part of every source that is never shown. */
  const SafeStart: Time := 50

  /** 0.001 s: the shortest stem segment the assembler builds. */
  const Epsilon: Time := 1

  datatype Option<+T> = None | Some(value: T)

  datatype Result<+T, +E> = Ok(value: T) | Err(error: E)

  predicate NonDecreasing(s: seq<Time>)
  {
    forall i, j :: 0 <= i < j < |s| ==> s[i] <= s[j]
  }

  predicate StrictlyIncreasing(s: seq<Time>)
  {
    forall i, j :: 0 <= i < j < |s| ==> s[i] < s[j]
  }

  function Abs(x: int): (r: nat)
    ensures r == x || r == -x
  {
    if x < 0 then -x else x
  }

  function Max(a: int, b: int): (r: int)
    ensures r >= a && r >= b && (r == a || r == b)
  {
    if a >= b then a else b
  }

  /** The elements of `s` that satisfy `p`, in their order in `s`: a Python
      list comprehension with a condition. */
  function Filter(s: seq<string>, p: string -> bool): (r: seq<string>)
    ensures |r| <= |s|
    ensures forall x :: x in r <==> x in s && p(x)
  {
    if |s| == 0 then []
    else if p(s[|s| - 1]) then Filter(s[..|s| - 1], p) + [s[|s| - 1]]
    else Filter(s[..|s| - 1], p)
  }

  predicate Distinct<T(==)>(s: seq<T>)
  {
    forall i, j :: 0 <= i < j < |s| ==> s[i] != s[j]
  }

  /** Filtering keeps the elements in their order and never repeats one. */
  lemma {:induction false} FilterKeepsOrder(s: seq<string>, p: string -> bool, key: string -> int)
    requires forall i, j :: 0 <= i < j < |s| ==> key(s[i]) < key(s[j])
    ensures forall i, j :: 0 <= i < j < |Filter(s, p)| ==> key(Filter(s, p)[i]) < key(Filter(s, p)[j])
  {
    if |s| > 0 {
      var prefix := s[..|s| - 1];
      FilterKeepsOrder(prefix, p, key);
      var q := Filter(prefix, p);
      forall x | x in q
        ensures key(x) < key(s[|s| - 1])
      {
        var k :| 0 <= k < |prefix| && prefix[k] == x;
        assert s[k] == x;
      }
      var r := Filter(s, p);
      if p(s[|s| - 1]) {
        assert r == q + [s[|s| - 1]];
        forall i, j | 0 <= i < j < |r|
          ensures key(r[i]) < key(r[j])
        {
          assert r[i] == q[i] && q[i] in q;
          if j < |r| - 1 {
            assert r[j] == q[j];
          } else {
            assert r[j] == s[|s| - 1];
            assert key(q[i]) < key(s[|s| - 1]);
          }
        }
      } else {
        assert r == q;
        forall i, j | 0 <= i < j < |r|
          ensures key(r[i]) < key(r[j])
        {
          assert r[i] == q[i] && r[j] == q[j];
        }
      }
    }
  }
}
