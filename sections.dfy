/** Section segmentation (app.py:100-125): per-frame loudness compared with a
    threshold splits the song into alternating verse and chorus runs, and
    `section_at_time` looks a time up in them. Median filtering, the
    percentile threshold and frame timing are not modelled: frame times, frame
    energies and the threshold are inputs. */
module Sections {
  import opened Common

  datatype Label = Verse | Chorus

  datatype Section = Section(start: Time, end: Time, kind: Label)

  /** The label of one frame (app.py:111). */
  function FrameLabel(e: real, thresh: real): Label
  {
    if e >= thresh then Chorus else Verse
  }

  /** `zip(times, rms)` stops at the shorter of the two. */
  function FrameCount(times: seq<Time>, energies: seq<real>): (n: nat)
    ensures n <= |times| && n <= |energies|
    ensures n == |times| || n == |energies|
  {
    if |times| <= |energies| then |times| else |energies|
  }

  function FrameLabels(energies: seq<real>, thresh: real, n: nat): (r: seq<Label>)
    requires n <= |energies|
    ensures |r| == n
    ensures forall k :: 0 <= k < n ==> r[k] == FrameLabel(energies[k], thresh)
  {
    seq(n, k requires 0 <= k < n => FrameLabel(energies[k], thresh))
  }

  predicate IncreasingIndices(r: seq<nat>)
  {
    forall i, j :: 0 <= i < j < |r| ==> r[i] < r[j]
  }

  /** The frames at which a section opens: the first frame and every frame
      whose label differs from the one before it. */
  function RunStarts(labels: seq<Label>): (r: seq<nat>)
    ensures |r| <= |labels|
    ensures forall j :: 0 <= j < |r| ==> r[j] < |labels|
  {
    if |labels| == 0 then []
    else
      var p := RunStarts(labels[..|labels| - 1]);
      if |labels| == 1 || labels[|labels| - 1] != labels[|labels| - 2] then p + [|labels| - 1] else p
  }

  /** The run holding frame `m`: the last run that opens at or before `m`. */
  function RunOf(r: seq<nat>, m: nat): (j: nat)
    requires |r| > 0 && r[0] <= m
    ensures j < |r| && r[j] <= m
    ensures j + 1 < |r| ==> m < r[j + 1]
  {
    if r[|r| - 1] <= m then |r| - 1 else RunOf(r[..|r| - 1], m)
  }

  /** Runs are ordered and the first opens at frame 0, so every frame belongs
      to a run. */
  lemma {:induction false} RunStartsOrdered(labels: seq<Label>)
    ensures var r := RunStarts(labels);
      && IncreasingIndices(r)
      && (|labels| > 0 <==> |r| > 0)
      && (|r| > 0 ==> r[0] == 0)
  {
    var n := |labels|;
    if n > 0 {
      RunStartsOrdered(labels[..n - 1]);
    }
  }

  /** Adding a run after frame `m` does not change the run holding `m`. */
  lemma {:induction false} RunOfExtended(r: seq<nat>, p: seq<nat>, m: nat)
    requires |p| > 0 && p[0] <= m
    requires r == p || (|r| == |p| + 1 && r[..|p|] == p && m < r[|p|])
    ensures RunOf(r, m) == RunOf(p, m)
  {
  }

  /** How the runs of a song relate to the runs of the song without its last
      frame: the same, or the same plus a run opening at the last frame. */
  lemma {:induction false} RunStartsStep(labels: seq<Label>)
    requires |labels| > 1
    ensures var p := RunStarts(labels[..|labels| - 1]);
      var r := RunStarts(labels);
      && (r == p <==> labels[|labels| - 1] == labels[|labels| - 2])
      && (r != p ==> r == p + [|labels| - 1])
  {
  }

  /** The run starts among the first `k` frames, counted forward. */
  function RunStartsUpTo(labels: seq<Label>, k: nat): seq<nat>
    requires k <= |labels|
  {
    if k == 0 then []
    else RunStartsUpTo(labels, k - 1) + (if k == 1 || labels[k - 1] != labels[k - 2] then [k - 1] else [])
  }

  /** Counting forward over a prefix gives the run starts of that prefix. */
  lemma {:induction false} RunStartsUpToPrefix(labels: seq<Label>, k: nat)
    requires k <= |labels|
    ensures RunStartsUpTo(labels, k) == RunStarts(labels[..k])
  {
    if k > 0 {
      RunStartsUpToPrefix(labels, k - 1);
      assert labels[..k][..k - 1] == labels[..k - 1];
    }
  }

  /** Every frame carries the label of the run holding it. */
  lemma {:induction false} RunLabel(labels: seq<Label>, m: nat)
    requires m < |labels|
    ensures var r := RunStarts(labels);
      |r| > 0 && r[0] == 0 && labels[m] == labels[r[RunOf(r, m)]]
    decreases |labels|, 1
  {
    var n := |labels|;
    var r := RunStarts(labels);
    RunStartsOrdered(labels);
    if n > 1 {
      RunStartsStep(labels);
      if m < n - 1 {
        RunLabelBeforeLast(labels, m);
      } else if r == RunStarts(labels[..n - 1]) {
        RunLabelLastContinues(labels);
      } else {
        assert RunOf(r, m) == |r| - 1;
      }
    }
  }

  /** RunLabel for a frame before the last, from the song without its last
      frame. */
  lemma {:induction false} RunLabelBeforeLast(labels: seq<Label>, m: nat)
    requires m + 1 < |labels|
    ensures var r := RunStarts(labels);
      |r| > 0 && r[0] == 0 && labels[m] == labels[r[RunOf(r, m)]]
    decreases |labels|, 0
  {
    var n := |labels|;
    var r := RunStarts(labels);
    var prefix := labels[..n - 1];
    var p := RunStarts(prefix);
    RunStartsOrdered(labels);
    RunStartsStep(labels);
    RunStartsOrdered(prefix);
    RunLabel(prefix, m);
    RunOfExtended(r, p, m);
    var j := RunOf(p, m);
    assert prefix[m] == labels[m];
    assert prefix[p[j]] == labels[p[j]];
    assert r[j] == p[j];
  }

  /** RunLabel for a last frame that continues the run before it. */
  lemma {:induction false} RunLabelLastContinues(labels: seq<Label>)
    requires |labels| > 1 && labels[|labels| - 1] == labels[|labels| - 2]
    ensures var r := RunStarts(labels);
      |r| > 0 && r[0] == 0 && labels[|labels| - 1] == labels[r[RunOf(r, |labels| - 1)]]
    decreases |labels|, 0
  {
    var n := |labels|;
    var r := RunStarts(labels);
    var prefix := labels[..n - 1];
    var p := RunStarts(prefix);
    RunStartsOrdered(labels);
    RunStartsStep(labels);
    RunStartsOrdered(prefix);
    RunLabel(prefix, n - 2);
    var j := |p| - 1;
    assert RunOf(p, n - 2) == j;
    assert RunOf(r, n - 1) == j;
    assert prefix[n - 2] == labels[n - 2];
    assert prefix[p[j]] == labels[p[j]];
  }

  /** Consecutive runs have different labels. */
  lemma {:induction false} RunsAlternate(labels: seq<Label>, j: nat)
    requires j + 1 < |RunStarts(labels)|
    ensures var r := RunStarts(labels);
      labels[r[j]] != labels[r[j + 1]]
  {
    var n := |labels|;
    var r := RunStarts(labels);
    var prefix := labels[..n - 1];
    var p := RunStarts(prefix);
    RunStartsStep(labels);
    assert r[..|p|] == p;
    if j + 1 < |p| {
      RunsAlternate(prefix, j);
      assert prefix[p[j]] == labels[p[j]] && prefix[p[j + 1]] == labels[p[j + 1]];
    } else {
      RunStartsOrdered(prefix);
      RunLabel(prefix, n - 2);
      assert RunOf(p, n - 2) == j;
      assert prefix[n - 2] == labels[n - 2];
      assert prefix[p[j]] == labels[p[j]];
    }
  }

  /** A frame whose label differs from its predecessor's always opens a run. */
  lemma {:induction false} ChangeOpensRun(labels: seq<Label>, m: nat)
    requires 0 < m < |labels| && labels[m] != labels[m - 1]
    ensures m in RunStarts(labels)
  {
    var n := |labels|;
    var r := RunStarts(labels);
    var prefix := labels[..n - 1];
    var p := RunStarts(prefix);
    RunStartsStep(labels);
    if m < n - 1 {
      ChangeOpensRun(prefix, m);
      var i :| 0 <= i < |p| && p[i] == m;
      assert r[i] == m;
    } else {
      assert r[|r| - 1] == m;
    }
  }

  /** When the section opened by run `j` closes: when the next one opens, or
      at the time of the last frame (app.py:117). */
  function CloseTime(times: seq<Time>, starts: seq<nat>, j: nat): Time
    requires j < |starts|
    requires forall i :: 0 <= i < |starts| ==> starts[i] < |times|
  {
    assert starts[j] < |times|;
    if j + 1 < |starts| then times[starts[j + 1]] else times[|times| - 1]
  }

  /** The sections `detect_sections` returns for the given frames
      (app.py:107-119): one per run, starting at the time of the run's first
      frame, ending where the next one starts, the last one ending at the time
      of the last frame. */
  function Segment(times: seq<Time>, energies: seq<real>, thresh: real): seq<Section>
  {
    var n := FrameCount(times, energies);
    var labels := FrameLabels(energies, thresh, n);
    var starts := RunStarts(labels);
    seq(|starts|, j requires 0 <= j < |starts| =>
      Section(times[starts[j]], CloseTime(times, starts, j), labels[starts[j]]))
  }

  /** The first pass of `detect_sections` (app.py:110-114): a section opens,
      with no end yet, at every frame whose label differs from the previous
      frame's; `starts` are the frames where they open. */
  method OpenSections(times: seq<Time>, energies: seq<real>, thresh: real)
    returns (sections: seq<Section>, ghost starts: seq<nat>)
    ensures var n := FrameCount(times, energies);
            var labels := FrameLabels(energies, thresh, n);
            && starts == RunStarts(labels)
            && |sections| == |starts|
            && forall j :: 0 <= j < |starts| ==>
                 starts[j] < n && sections[j] == Section(times[starts[j]], times[starts[j]], labels[starts[j]])
  {
    var n := FrameCount(times, energies);
    ghost var labels := FrameLabels(energies, thresh, n);
    starts := [];
    sections := [];
    var k := 0;
    while k < n
      invariant 0 <= k <= n
      invariant starts == RunStartsUpTo(labels, k)
      invariant |sections| == |starts|
      invariant forall j :: 0 <= j < |starts| ==>
        starts[j] < k && sections[j] == Section(times[starts[j]], times[starts[j]], labels[starts[j]])
      invariant k > 0 ==> |sections| > 0 && sections[|sections| - 1].kind == labels[k - 1]
    {
      var here := FrameLabel(energies[k], thresh);
      if |sections| == 0 || sections[|sections| - 1].kind != here {
        sections := sections + [Section(times[k], times[k], here)];
        starts := starts + [k];
      }
      k := k + 1;
    }
    RunStartsUpToPrefix(labels, n);
    assert labels[..n] == labels;
  }

  /** The second pass of `detect_sections` (app.py:116-117): each section
      ends where the next one starts, the last one at the last frame's time. */
  method CloseSections(sections: seq<Section>, times: seq<Time>) returns (closed: seq<Section>)
    requires |sections| > 0 ==> |times| > 0
    ensures |closed| == |sections|
    ensures forall j {:trigger closed[j]} :: 0 <= j < |sections| ==>
      closed[j] == sections[j].(end := if j + 1 < |sections| then sections[j + 1].start else times[|times| - 1])
  {
    closed := sections;
    for i := 0 to |closed|
      invariant |closed| == |sections|
      invariant forall j :: 0 <= j < i ==>
        closed[j] == sections[j].(end := if j + 1 < |sections| then sections[j + 1].start else times[|times| - 1])
      invariant forall j :: i <= j < |sections| ==> closed[j] == sections[j]
    {
      var stop := if i + 1 < |closed| then closed[i + 1].start else times[|times| - 1];
      closed := closed[i := closed[i].(end := stop)];
    }
  }

  /** `detect_sections` once the features are known (app.py:107-119). */
  method DetectSections(times: seq<Time>, energies: seq<real>, thresh: real) returns (sections: seq<Section>)
    ensures sections == Segment(times, energies, thresh)
  {
    ghost var n := FrameCount(times, energies);
    ghost var labels := FrameLabels(energies, thresh, n);
    var runs, starts := OpenSections(times, energies, thresh);
    sections := CloseSections(runs, times);
    ghost var spec := Segment(times, energies, thresh);
    assert |spec| == |starts| && forall j {:trigger spec[j]} :: 0 <= j < |spec| ==>
      spec[j] == Section(times[starts[j]], CloseTime(times, starts, j), labels[starts[j]]);
    forall j | 0 <= j < |spec|
      ensures sections[j] == spec[j]
    {
      assert runs[j] == Section(times[starts[j]], times[starts[j]], labels[starts[j]]);
      assert sections[j] == runs[j].(end := if j + 1 < |runs| then runs[j + 1].start else times[|times| - 1]);
      if j + 1 < |spec| {
        assert runs[j + 1].start == times[starts[j + 1]];
        assert CloseTime(times, starts, j) == times[starts[j + 1]];
      } else {
        assert CloseTime(times, starts, j) == times[|times| - 1];
      }
    }
  }

  /** Section `s` covers time `t` when `start <= t < end`. */
  predicate Covers(s: Section, t: Time)
  {
    s.start <= t < s.end
  }

  /** The search of `section_at_time` from position `i` on. */
  function SectionFrom(sections: seq<Section>, t: Time, i: nat): (r: Label)
    requires i <= |sections|
    ensures (forall k :: i <= k < |sections| ==> !Covers(sections[k], t)) ==> r == Verse
    ensures forall k :: (i <= k < |sections| && Covers(sections[k], t)
                          && forall h :: i <= h < k ==> !Covers(sections[h], t)) ==> r == sections[k].kind
    decreases |sections| - i
  {
    if i == |sections| then Verse
    else if Covers(sections[i], t) then sections[i].kind
    else SectionFrom(sections, t, i + 1)
  }

  /** `section_at_time` (app.py:121-125): the label of the first section that
      covers `t`, and "verse" when none does. */
  function SectionAt(sections: seq<Section>, t: Time): (r: Label)
    ensures (forall i :: 0 <= i < |sections| ==> !Covers(sections[i], t)) ==> r == Verse
    ensures forall i :: (0 <= i < |sections| && Covers(sections[i], t)
                          && forall h :: 0 <= h < i ==> !Covers(sections[h], t)) ==> r == sections[i].kind
  {
    SectionFrom(sections, t, 0)
  }

  /** Sections tile the time line when each one ends where the next starts and
      their starts never go back. */
  predicate Tiling(sections: seq<Section>)
  {
    && (forall i {:trigger sections[i]} :: 0 <= i < |sections| - 1 ==> sections[i].end == sections[i + 1].start)
    && (forall i, j :: 0 <= i < j < |sections| ==> sections[i].start <= sections[j].start)
  }

  /** On tiling sections the lookup returns the label of the section that
      covers `t`: no earlier section can cover it too. */
  lemma {:induction false} SectionAtTiling(sections: seq<Section>, t: Time, j: nat)
    requires Tiling(sections)
    requires j < |sections| && Covers(sections[j], t)
    ensures SectionAt(sections, t) == sections[j].kind
  {
    forall h | 0 <= h < j
      ensures !Covers(sections[h], t)
    {
      assert sections[h].end == sections[h + 1].start;
    }
  }

  /** There is a section as soon as there is a frame; the first starts at the
      first frame and the last ends at the time of the last frame (not at the
      song's duration). */
  lemma {:induction false} SegmentBounds(times: seq<Time>, energies: seq<real>, thresh: real)
    ensures var r := Segment(times, energies, thresh);
      && (|r| > 0 <==> FrameCount(times, energies) > 0)
      && (|r| > 0 ==> r[0].start == times[0] && r[|r| - 1].end == times[|times| - 1])
  {
    RunStartsOrdered(FrameLabels(energies, thresh, FrameCount(times, energies)));
  }

  /** Each section ends exactly where the next one starts. */
  lemma {:induction false} SegmentContiguous(times: seq<Time>, energies: seq<real>, thresh: real, j: nat)
    requires j + 1 < |Segment(times, energies, thresh)|
    ensures var r := Segment(times, energies, thresh);
      r[j].end == r[j + 1].start
  {
  }

  /** Consecutive sections have different labels, and a section is a chorus
      exactly when its first frame is at least as loud as the threshold. */
  lemma {:induction false} SegmentLabels(times: seq<Time>, energies: seq<real>, thresh: real, j: nat)
    requires j < |Segment(times, energies, thresh)|
    ensures var r := Segment(times, energies, thresh);
      var starts := RunStarts(FrameLabels(energies, thresh, FrameCount(times, energies)));
      && (r[j].kind == Chorus <==> energies[starts[j]] >= thresh)
      && (j + 1 < |r| ==> r[j].kind != r[j + 1].kind)
  {
    var labels := FrameLabels(energies, thresh, FrameCount(times, energies));
    if j + 1 < |RunStarts(labels)| {
      RunsAlternate(labels, j);
    }
  }

  /** With increasing frame times the sections tile the song. */
  lemma {:induction false} SegmentTiles(times: seq<Time>, energies: seq<real>, thresh: real)
    requires StrictlyIncreasing(times)
    ensures Tiling(Segment(times, energies, thresh))
  {
    var labels := FrameLabels(energies, thresh, FrameCount(times, energies));
    var r := Segment(times, energies, thresh);
    RunStartsOrdered(labels);
    forall i | 0 <= i < |r| - 1
      ensures r[i].end == r[i + 1].start
    {
      SegmentContiguous(times, energies, thresh, i);
    }
  }

  /** Looking up the time of any frame but the last gives that frame's own
      label. */
  lemma {:induction false} SegmentLookup(times: seq<Time>, energies: seq<real>, thresh: real, k: nat)
    requires StrictlyIncreasing(times)
    requires k < FrameCount(times, energies)
    requires times[k] < times[|times| - 1]
    ensures SectionAt(Segment(times, energies, thresh), times[k]) == FrameLabel(energies[k], thresh)
  {
    var n := FrameCount(times, energies);
    var labels := FrameLabels(energies, thresh, n);
    var starts := RunStarts(labels);
    var r := Segment(times, energies, thresh);
    RunLabel(labels, k);
    var j := SegmentCoversFrame(times, energies, thresh, k);
    SegmentTiles(times, energies, thresh);
    SectionAtTiling(r, times[k], j);
  }

  /** The section built from the run holding frame `k` covers that frame's
      time, when it is not the last frame's. */
  lemma {:induction false} SegmentCoversFrame(times: seq<Time>, energies: seq<real>, thresh: real, k: nat)
    returns (j: nat)
    requires StrictlyIncreasing(times)
    requires k < FrameCount(times, energies)
    requires times[k] < times[|times| - 1]
    ensures var starts := RunStarts(FrameLabels(energies, thresh, FrameCount(times, energies)));
      && |starts| > 0 && starts[0] <= k && j == RunOf(starts, k)
      && j < |Segment(times, energies, thresh)| && Covers(Segment(times, energies, thresh)[j], times[k])
  {
    var labels := FrameLabels(energies, thresh, FrameCount(times, energies));
    var starts := RunStarts(labels);
    RunStartsOrdered(labels);
    j := RunOf(starts, k);
    RunCovers(times, starts, j, k);
    assert Segment(times, energies, thresh)[j] == Section(times[starts[j]], CloseTime(times, starts, j), labels[starts[j]]);
  }

  /** The times of a run's frames lie between its start and its close. */
  lemma {:induction false} RunCovers(times: seq<Time>, starts: seq<nat>, j: nat, k: nat)
    requires StrictlyIncreasing(times)
    requires forall i :: 0 <= i < |starts| ==> starts[i] < |times|
    requires j < |starts| && starts[j] <= k < |times| && times[k] < times[|times| - 1]
    requires j + 1 < |starts| ==> k < starts[j + 1]
    ensures times[starts[j]] <= times[k] < CloseTime(times, starts, j)
  {
    if starts[j] < k {
      assert times[starts[j]] < times[k];
    }
    if j + 1 < |starts| {
      assert times[k] < times[starts[j + 1]];
    }
  }

  /** The time of the last frame, where the last section ends, reads as
      "verse" whatever its loudness. */
  lemma {:induction false} SegmentLastFrameIsVerse(times: seq<Time>, energies: seq<real>, thresh: real)
    requires StrictlyIncreasing(times)
    requires |times| > 0
    ensures SectionAt(Segment(times, energies, thresh), times[|times| - 1]) == Verse
  {
    var labels := FrameLabels(energies, thresh, FrameCount(times, energies));
    var starts := RunStarts(labels);
    var r := Segment(times, energies, thresh);
    forall i | 0 <= i < |r|
      ensures !Covers(r[i], times[|times| - 1])
    {
      if i + 1 < |r| {
        assert r[i].end == times[starts[i + 1]];
      }
    }
  }
}
