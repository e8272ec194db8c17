/** Beat snapping (app.py:87-95): every detected beat moves to its nearest
    detected onset when that onset lies within the snap window, and the result
    is the sorted set of the moved beats. The audio decoding and the beat and
    onset detectors are not modelled: beat and onset times are inputs. */
module Snapping {
  import opened Common

  /** Position of the onset nearest to `b`; Python's `min` with a key keeps the
      first of several equally near onsets. */
  function NearestIndex(onsets: seq<Time>, b: Time): (i: nat)
    requires |onsets| > 0
    ensures i < |onsets|
    ensures forall j :: 0 <= j < |onsets| ==> Abs(onsets[i] - b) <= Abs(onsets[j] - b)
    ensures forall j :: 0 <= j < i ==> Abs(onsets[j] - b) > Abs(onsets[i] - b)
  {
    if |onsets| == 1 then 0
    else
      var m := NearestIndex(onsets[..|onsets| - 1], b);
      if Abs(onsets[|onsets| - 1] - b) < Abs(onsets[m] - b) then |onsets| - 1 else m
  }

  /** Where one beat ends up: the nearest onset if it is within `window`,
      otherwise the beat itself; with no onsets the beat stays. */
  function SnapOne(onsets: seq<Time>, b: Time, window: Time): (r: Time)
    ensures r == b || (r in onsets && Abs(r - b) <= window)
    ensures |onsets| > 0 && Abs(onsets[NearestIndex(onsets, b)] - b) <= window
            ==> r == onsets[NearestIndex(onsets, b)]
  {
    var nearest := if |onsets| > 0 then onsets[NearestIndex(onsets, b)] else b;
    if Abs(nearest - b) <= window then nearest else b
  }

  /** The per-beat list `snapped`, in beat order. */
  function SnapEach(beats: seq<Time>, onsets: seq<Time>, window: Time): (r: seq<Time>)
    ensures |r| == |beats|
    ensures forall i :: 0 <= i < |beats| ==> r[i] == SnapOne(onsets, beats[i], window)
  {
    seq(|beats|, i requires 0 <= i < |beats| => SnapOne(onsets, beats[i], window))
  }

  /** Adds `x` to a strictly increasing sequence, keeping it strictly
      increasing and without duplicates. */
  function InsertUnique(x: Time, s: seq<Time>): (r: seq<Time>)
    requires StrictlyIncreasing(s)
    ensures StrictlyIncreasing(r)
    ensures forall y :: y in r <==> y in s || y == x
    ensures |r| <= |s| + 1
  {
    if |s| == 0 then [x]
    else if x < s[0] then [x] + s
    else if x == s[0] then s
    else
      var rest := InsertUnique(x, s[1..]);
      assert forall j :: 0 <= j < |rest| ==> rest[j] in rest && rest[j] > s[0];
      [s[0]] + rest
  }

  /** `sorted(set(s))`: the elements of `s` in increasing order, each once. */
  function SortedUnique(s: seq<Time>): (r: seq<Time>)
    ensures StrictlyIncreasing(r)
    ensures forall y :: y in r <==> y in s
    ensures |r| <= |s|
  {
    if |s| == 0 then []
    else InsertUnique(s[|s| - 1], SortedUnique(s[..|s| - 1]))
  }

  /** `detect_snapped_beats` after feature extraction (app.py:87-95). */
  function SnapBeats(beats: seq<Time>, onsets: seq<Time>, window: Time): (r: seq<Time>)
  {
    SortedUnique(SnapEach(beats, onsets, window))
  }

  /** Snapping yields a strictly increasing clock with no more ticks than
      there were beats, and every tick is some beat, either kept or moved to an
      onset within the window of it. */
  lemma {:induction false} SnapBeatsSound(beats: seq<Time>, onsets: seq<Time>, window: Time)
    ensures var r := SnapBeats(beats, onsets, window);
      && StrictlyIncreasing(r)
      && |r| <= |beats|
      && forall x :: x in r ==>
           exists i :: 0 <= i < |beats| && (x == beats[i] || (x in onsets && Abs(x - beats[i]) <= window))
  {
    var snapped := SnapEach(beats, onsets, window);
    var r := SnapBeats(beats, onsets, window);
    forall x | x in r
      ensures exists i :: 0 <= i < |beats| && (x == beats[i] || (x in onsets && Abs(x - beats[i]) <= window))
    {
      assert x in snapped;
      SnappedIsNear(beats, onsets, window, x);
    }
  }

  /** A snapped beat is its beat or an onset within the window of it. */
  lemma {:induction false} SnappedIsNear(beats: seq<Time>, onsets: seq<Time>, window: Time, x: Time)
    requires x in SnapEach(beats, onsets, window)
    ensures exists i :: 0 <= i < |beats| && (x == beats[i] || (x in onsets && Abs(x - beats[i]) <= window))
  {
    var snapped := SnapEach(beats, onsets, window);
    var i :| 0 <= i < |snapped| && snapped[i] == x;
    assert x == SnapOne(onsets, beats[i], window);
  }

  /** Every snapped beat is present in the output, and nothing else is. */
  lemma {:induction false} SnapBeatsComplete(beats: seq<Time>, onsets: seq<Time>, window: Time)
    ensures forall x :: x in SnapBeats(beats, onsets, window) <==>
      exists i :: 0 <= i < |beats| && x == SnapOne(onsets, beats[i], window)
  {
    var snapped := SnapEach(beats, onsets, window);
    forall x
      ensures x in snapped <==> exists i :: 0 <= i < |beats| && x == SnapOne(onsets, beats[i], window)
    {
      if exists i :: 0 <= i < |beats| && x == SnapOne(onsets, beats[i], window) {
        var i :| 0 <= i < |beats| && x == SnapOne(onsets, beats[i], window);
        assert snapped[i] == x;
      }
    }
  }

  /** Two strictly increasing sequences with the same elements are equal: the
      sorted set is unique. */
  lemma {:induction false} StrictlyIncreasingUnique(a: seq<Time>, b: seq<Time>)
    requires StrictlyIncreasing(a) && StrictlyIncreasing(b)
    requires forall y :: y in a <==> y in b
    ensures a == b
  {
    if |a| > 0 {
      assert a[0] in a;
    }
    if |b| > 0 {
      assert b[0] in b;
    }
    if |a| > 0 {
      var j :| 0 <= j < |b| && b[j] == a[0];
      var k :| 0 <= k < |a| && a[k] == b[0];
      assert b[0] <= a[0] && a[0] <= b[0];
      forall y
        ensures y in a[1..] <==> y in b[1..]
      {
        if y in a[1..] {
          assert y > a[0];
          assert y in b;
        }
        if y in b[1..] {
          assert y > b[0];
          assert y in a;
        }
      }
      StrictlyIncreasingUnique(a[1..], b[1..]);
      assert a == [a[0]] + a[1..];
      assert b == [b[0]] + b[1..];
    }
  }

  /** With no onsets the snapper only sorts and de-duplicates the beats: its
      result is the one strictly increasing sequence holding exactly the beat
      times. */
  lemma {:induction false} SnapWithoutOnsets(beats: seq<Time>, window: Time, sortedBeats: seq<Time>)
    requires StrictlyIncreasing(sortedBeats)
    requires forall y :: y in sortedBeats <==> y in beats
    ensures SnapBeats(beats, [], window) == sortedBeats
  {
    var snapped := SnapEach(beats, [], window);
    assert snapped == beats;
    StrictlyIncreasingUnique(SnapBeats(beats, [], window), sortedBeats);
  }

  /** When every beat has an onset within the window, the snapped clock is made
      of onsets only. */
  lemma {:induction false} SnapToOnsetsWhenAllNear(beats: seq<Time>, onsets: seq<Time>, window: Time)
    requires forall i :: 0 <= i < |beats| ==> exists j :: 0 <= j < |onsets| && Abs(onsets[j] - beats[i]) <= window
    ensures forall x :: x in SnapBeats(beats, onsets, window) ==> x in onsets
  {
    SnapBeatsComplete(beats, onsets, window);
    forall x | x in SnapBeats(beats, onsets, window)
      ensures x in onsets
    {
      var i :| 0 <= i < |beats| && x == SnapOne(onsets, beats[i], window);
      var j :| 0 <= j < |onsets| && Abs(onsets[j] - beats[i]) <= window;
      assert Abs(onsets[NearestIndex(onsets, beats[i])] - beats[i]) <= window;
    }
  }
}
