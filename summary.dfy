/** The records of `write_edit_summary` (app.py:294-314): one per pair of
    neighbouring entries of the final timeline. Writing them out as JSON is
    not modelled; the records are returned. */
module Summary {
  import opened Common
  import opened Paths
  import opened Events

  /** One record: what is shown, where it sits on the timeline, where it
      starts in its source, and how long it lasts. */
  datatype Record = Record(clip: string, timelineStart: Time, timelineEnd: Time, sourceStart: Time, duration: Time)

  /** The name a record shows: the file name of a free, intro or outro clip,
      and the stem's name with ".mp4" for a stem (app.py:303-307). */
  function Label(e: Event): string
  {
    match e.kind
    case Stem(stem) => stem + ".mp4"
    case Free(clip, _) => Basename(clip)
    case Intro(clip) => Basename(clip)
    case Outro(clip) => Basename(clip)
  }

  /** The record for entry `e` followed by `next` (app.py:299-313). */
  function RecordFor(e: Event, next: Event): Record
  {
    Record(Label(e), e.time, next.time, if e.kind.Free? then 0 else e.time, next.time - e.time)
  }

  /** The records for a timeline: one per entry but the last. */
  function Records(timeline: seq<Event>): (r: seq<Record>)
    ensures |r| == if |timeline| == 0 then 0 else |timeline| - 1
  {
    if |timeline| <= 1 then []
    else seq(|timeline| - 1, i requires 0 <= i < |timeline| - 1 => RecordFor(timeline[i], timeline[i + 1]))
  }

  /** `write_edit_summary` (app.py:294-314) up to the file write. */
  method WriteEditSummary(timeline: seq<Event>) returns (summary: seq<Record>)
    ensures summary == Records(timeline)
  {
    summary := [];
    var i := 0;
    while i + 1 < |timeline|
      invariant 0 <= i && (i <= |timeline| - 1 || i == 0)
      invariant |summary| == i
      invariant forall k :: 0 <= k < i ==> summary[k] == RecordFor(timeline[k], timeline[k + 1])
    {
      var start := timeline[i].time;
      var end := timeline[i + 1].time;
      var e := timeline[i];
      var clip := if e.kind.Free? || e.kind.Intro? || e.kind.Outro? then Basename(e.kind.clip) else e.kind.stem + ".mp4";
      var sourceStart := if e.kind.Free? then 0 else start;
      summary := summary + [Record(clip, start, end, sourceStart, end - start)];
      i := i + 1;
    }
  }

  /** The records tile the timeline: each ends where the next starts, the
      first starts at the first entry and the last ends at the last entry;
      each lasts from its start to its end. */
  lemma {:induction false} RecordsContiguous(timeline: seq<Event>)
    ensures var r := Records(timeline);
      && (forall i :: 0 <= i < |r| ==> r[i].duration == r[i].timelineEnd - r[i].timelineStart)
      && (forall i :: 0 < i < |r| ==> r[i - 1].timelineEnd == r[i].timelineStart)
      && (|r| > 0 ==> r[0].timelineStart == timeline[0].time
                      && r[|r| - 1].timelineEnd == timeline[|timeline| - 1].time)
  {
  }

  /** The sum of the durations of the first `n` records. */
  function TotalDuration(r: seq<Record>, n: nat): Time
    requires n <= |r|
  {
    if n == 0 then 0 else TotalDuration(r, n - 1) + r[n - 1].duration
  }

  lemma {:induction false} TotalDurationPrefix(timeline: seq<Event>, n: nat)
    requires 0 < n < |timeline|
    ensures TotalDuration(Records(timeline), n) == timeline[n].time - timeline[0].time
  {
    if n > 1 {
      TotalDurationPrefix(timeline, n - 1);
    }
  }

  /** The durations add up to the span from the first entry to the last. */
  lemma {:induction false} TotalDurationSpan(timeline: seq<Event>)
    requires |timeline| > 0
    ensures TotalDuration(Records(timeline), |Records(timeline)|) == timeline[|timeline| - 1].time - timeline[0].time
  {
    if |timeline| > 1 {
      TotalDurationPrefix(timeline, |timeline| - 1);
    }
  }

  /** No record has a negative duration exactly when the timeline is in time
      order. */
  lemma {:induction false} DurationsNonNegative(timeline: seq<Event>)
    ensures (forall i :: 0 <= i < |Records(timeline)| ==> Records(timeline)[i].duration >= 0) <==> SortedByTime(timeline)
  {
    var r := Records(timeline);
    if forall i :: 0 <= i < |r| ==> r[i].duration >= 0 {
      forall i, j | 0 <= i < j < |timeline|
        ensures timeline[i].time <= timeline[j].time
      {
        StepsAddUp(timeline, i, j);
      }
    }
  }

  /** Entries whose neighbours never go back in time never go back in time
      over any distance. */
  lemma {:induction false} StepsAddUp(timeline: seq<Event>, i: nat, j: nat)
    requires i <= j < |timeline|
    requires forall k :: 0 <= k < |Records(timeline)| ==> Records(timeline)[k].duration >= 0
    ensures timeline[i].time <= timeline[j].time
    decreases j - i
  {
    if i < j {
      StepsAddUp(timeline, i + 1, j);
      assert Records(timeline)[i].duration >= 0;
    }
  }

  /** A free entry's record starts its source at 0; any other starts it at
      the entry's time. A stem is labelled with its video's file name; a
      clip by the last component of its path, which holds no '/' (app.py:
      303-311). */
  lemma {:induction false} RecordSources(timeline: seq<Event>, i: nat)
    requires i + 1 < |timeline|
    ensures var rec := Records(timeline)[i];
      var e := timeline[i];
      && (e.kind.Free? ==> rec.sourceStart == 0)
      && (!e.kind.Free? ==> rec.sourceStart == e.time)
      && (e.kind.Stem? ==> rec.clip == e.kind.stem + ".mp4")
      && (!e.kind.Stem? ==>
            ('/' !in rec.clip && |rec.clip| <= |e.kind.clip| && rec.clip == e.kind.clip[|e.kind.clip| - |rec.clip|..]))
  {
    var e := timeline[i];
    if !e.kind.Stem? {
      BasenameSpec(e.kind.clip);
      var b := Basename(e.kind.clip);
      assert b == e.kind.clip[|e.kind.clip| - |b|..];
    }
  }
}
