/** Intro and outro injection in `render_action` (app.py:485-518): the intro
    clip replaces everything before the first beat at or after `intro_min`,
    the outro clip plays from the first beat at or after `song_len -
    outro_min`, and the list is then put in time order. */
module Injection {
  import opened Common
  import opened Events

  /** The search of `next_beat_after` from position `i` on. */
  function NextBeatFrom(beats: seq<Time>, t: Time, i: nat): Time
    requires i <= |beats|
    decreases |beats| - i
  {
    if i == |beats| then t
    else if beats[i] >= t then beats[i]
    else NextBeatFrom(beats, t, i + 1)
  }

  /** `next_beat_after(beats, t)` (app.py:68-72). */
  function NextBeatAfter(beats: seq<Time>, t: Time): Time
  {
    NextBeatFrom(beats, t, 0)
  }

  lemma {:induction false} NextBeatFromSpec(beats: seq<Time>, t: Time, i: nat)
    requires i <= |beats|
    ensures NextBeatFrom(beats, t, i) >= t
    ensures (forall k :: i <= k < |beats| ==> beats[k] < t) ==> NextBeatFrom(beats, t, i) == t
    ensures forall k :: (i <= k < |beats| && beats[k] >= t && forall h :: i <= h < k ==> beats[h] < t) ==>
              NextBeatFrom(beats, t, i) == beats[k]
    decreases |beats| - i
  {
    if i < |beats| && beats[i] < t {
      NextBeatFromSpec(beats, t, i + 1);
    }
  }

  /** The first beat at or after `t`, or `t` itself when there is none: never
      before `t`. */
  lemma {:induction false} NextBeatAfterSpec(beats: seq<Time>, t: Time)
    ensures NextBeatAfter(beats, t) >= t
    ensures (forall k :: 0 <= k < |beats| ==> beats[k] < t) ==> NextBeatAfter(beats, t) == t
    ensures forall k :: (0 <= k < |beats| && beats[k] >= t && forall h :: 0 <= h < k ==> beats[h] < t) ==>
              NextBeatAfter(beats, t) == beats[k]
  {
    NextBeatFromSpec(beats, t, 0);
  }

  /** The entries at or after `t`, in order (app.py:488-492). */
  function KeepFrom(s: seq<Event>, t: Time): (r: seq<Event>)
    ensures forall e :: e in r <==> e in s && e.time >= t
    ensures |r| <= |s|
  {
    if |s| == 0 then []
    else if s[|s| - 1].time >= t then KeepFrom(s[..|s| - 1], t) + [s[|s| - 1]]
    else KeepFrom(s[..|s| - 1], t)
  }

  /** Places `e` after every entry of `s` that is not later than it. */
  function Insert(s: seq<Event>, e: Event): (r: seq<Event>)
    ensures |r| == |s| + 1
    ensures multiset(r) == multiset(s) + multiset{e}
  {
    if |s| == 0 || s[|s| - 1].time <= e.time then s + [e]
    else
      assert s == s[..|s| - 1] + [s[|s| - 1]];
      Insert(s[..|s| - 1], e) + [s[|s| - 1]]
  }

  /** `sorted(timeline, key=lambda e: e["time"])`: Python's sort is stable,
      so this is insertion from the front, each entry placed after every
      entry not later than it. */
  function SortByTime(s: seq<Event>): (r: seq<Event>)
    ensures multiset(r) == multiset(s)
  {
    if |s| == 0 then []
    else
      assert s == s[..|s| - 1] + [s[|s| - 1]];
      Insert(SortByTime(s[..|s| - 1]), s[|s| - 1])
  }

  /** The entries of `s` at time `t`, in order. */
  function AtTime(s: seq<Event>, t: Time): seq<Event>
  {
    if |s| == 0 then []
    else AtTime(s[..|s| - 1], t) + (if s[|s| - 1].time == t then [s[|s| - 1]] else [])
  }

  lemma {:induction false} AtTimeAppend(s: seq<Event>, u: seq<Event>, t: Time)
    ensures AtTime(s + u, t) == AtTime(s, t) + AtTime(u, t)
    decreases |u|
  {
    if |u| > 0 {
      var v := u[..|u| - 1];
      var x := u[|u| - 1];
      assert (s + u)[..|s + u| - 1] == s + v;
      assert (s + u)[|s + u| - 1] == x;
      AtTimeAppend(s, v, t);
      assert AtTime(u, t) == AtTime(v, t) + (if x.time == t then [x] else []);
    } else {
      assert s + u == s;
    }
  }

  lemma {:induction false} InsertMembers(s: seq<Event>, e: Event)
    ensures forall x :: x in Insert(s, e) <==> x in s || x == e
  {
    var r := Insert(s, e);
    assert forall x :: x in r <==> x in multiset(r);
    assert forall x :: x in s <==> x in multiset(s);
  }

  lemma {:induction false} InsertSorted(s: seq<Event>, e: Event)
    requires SortedByTime(s)
    ensures SortedByTime(Insert(s, e))
  {
    if |s| > 0 && s[|s| - 1].time > e.time {
      var p := s[..|s| - 1];
      var last := s[|s| - 1];
      var q := Insert(p, e);
      InsertSorted(p, e);
      InsertMembers(p, e);
      assert forall k :: 0 <= k < |q| ==> q[k] in q;
      assert forall k :: 0 <= k < |p| ==> p[k].time <= last.time;
      assert Insert(s, e) == q + [last];
    }
  }

  /** The sort puts the entries in time order. */
  lemma {:induction false} SortSorted(s: seq<Event>)
    ensures SortedByTime(SortByTime(s))
  {
    if |s| > 0 {
      SortSorted(s[..|s| - 1]);
      InsertSorted(SortByTime(s[..|s| - 1]), s[|s| - 1]);
    }
  }

  lemma {:induction false} InsertStable(s: seq<Event>, e: Event, t: Time)
    ensures AtTime(Insert(s, e), t) == AtTime(s, t) + AtTime([e], t)
  {
    if |s| == 0 || s[|s| - 1].time <= e.time {
      AtTimeAppend(s, [e], t);
    } else {
      var p := s[..|s| - 1];
      var last := s[|s| - 1];
      assert s == p + [last];
      assert Insert(s, e) == Insert(p, e) + [last];
      InsertStable(p, e, t);
      StableStep(Insert(p, e), p, last, e, t);
    }
  }

  /** Appending an entry behind `e` keeps the entries at time `t` in order
      when the two are not both at `t`. */
  lemma {:induction false} StableStep(q: seq<Event>, p: seq<Event>, last: Event, e: Event, t: Time)
    requires AtTime(q, t) == AtTime(p, t) + AtTime([e], t)
    requires last.time != e.time
    ensures AtTime(q + [last], t) == AtTime(p + [last], t) + AtTime([e], t)
  {
    AtTimeAppend(q, [last], t);
    AtTimeAppend(p, [last], t);
    AtTimeSingle(last, t);
    AtTimeSingle(e, t);
  }

  lemma {:induction false} AtTimeSingle(x: Event, t: Time)
    ensures AtTime([x], t) == if x.time == t then [x] else []
  {
    assert [x][..0] == [];
  }

  /** The sort is stable: entries at the same time keep their order. */
  lemma {:induction false} SortStable(s: seq<Event>, t: Time)
    ensures AtTime(SortByTime(s), t) == AtTime(s, t)
  {
    if |s| > 0 {
      var p := s[..|s| - 1];
      SortStable(p, t);
      InsertStable(SortByTime(p), s[|s| - 1], t);
      assert s == p + [s[|s| - 1]];
      AtTimeAppend(p, [s[|s| - 1]], t);
    }
  }

  /** A list already in time order is left as it is. */
  lemma {:induction false} SortKeepsSorted(s: seq<Event>)
    requires SortedByTime(s)
    ensures SortByTime(s) == s
  {
    if |s| > 0 {
      var p := s[..|s| - 1];
      SortKeepsSorted(p);
      if |p| > 0 {
        assert p[|p| - 1].time <= s[|s| - 1].time;
      }
    }
  }

  /** The intro entry: the intro clip as a free clip from 0 to `intro_end`
      (app.py:495-501). */
  function IntroEvent(clip: string, introEnd: Time): Event
  {
    Event(0, Some(introEnd), Free(clip, []), None, None)
  }

  /** The outro entry: the outro clip as a free clip from `outro_start` to the
      end of the song (app.py:509-515). */
  function OutroEvent(clip: string, outroStart: Time, songLen: Time): Event
  {
    Event(outroStart, Some(songLen), Free(clip, []), None, None)
  }

  /** The list before sorting: without an intro the timeline as generated,
      with one the entries from `intro_end` on followed by the intro entry;
      then the outro entry when there is an outro. */
  function Unsorted(timeline: seq<Event>, beats: seq<Time>, songLen: Time,
                    intro: Option<string>, introMin: Time, outro: Option<string>, outroMin: Time): seq<Event>
  {
    var withIntro :=
      if intro.Some? then
        var introEnd := NextBeatAfter(beats, introMin);
        KeepFrom(timeline, introEnd) + [IntroEvent(intro.value, introEnd)]
      else timeline;
    if outro.Some? then withIntro + [OutroEvent(outro.value, NextBeatAfter(beats, songLen - outroMin), songLen)]
    else withIntro
  }

  /** The timeline `render_action` hands to the assembler and the summary
      (app.py:485-518). */
  function Inject(timeline: seq<Event>, beats: seq<Time>, songLen: Time,
                  intro: Option<string>, introMin: Time, outro: Option<string>, outroMin: Time): seq<Event>
  {
    SortByTime(Unsorted(timeline, beats, songLen, intro, introMin, outro, outroMin))
  }

  /** The injected timeline is in time order, holds the same entries as the
      unsorted list (none lost, none duplicated), and keeps entries at the
      same time in their order. */
  lemma {:induction false} InjectOrdered(timeline: seq<Event>, beats: seq<Time>, songLen: Time,
                      intro: Option<string>, introMin: Time, outro: Option<string>, outroMin: Time, t: Time)
    ensures var u := Unsorted(timeline, beats, songLen, intro, introMin, outro, outroMin);
      var r := Inject(timeline, beats, songLen, intro, introMin, outro, outroMin);
      && SortedByTime(r)
      && multiset(r) == multiset(u)
      && AtTime(r, t) == AtTime(u, t)
  {
    var u := Unsorted(timeline, beats, songLen, intro, introMin, outro, outroMin);
    SortSorted(u);
    SortStable(u, t);
  }

  /** What the injected timeline holds: a generated entry exactly when there
      is no intro or it starts at or after `intro_end`, the intro entry when
      there is an intro, and the outro entry when there is an outro; the
      outro does not remove the entries it overlaps. */
  lemma {:induction false} InjectMembers(timeline: seq<Event>, beats: seq<Time>, songLen: Time,
                      intro: Option<string>, introMin: Time, outro: Option<string>, outroMin: Time, e: Event)
    ensures var r := Inject(timeline, beats, songLen, intro, introMin, outro, outroMin);
      var introEnd := NextBeatAfter(beats, introMin);
      var outroStart := NextBeatAfter(beats, songLen - outroMin);
      e in r <==>
        || (e in timeline && (intro.None? || e.time >= introEnd))
        || (intro.Some? && e == IntroEvent(intro.value, introEnd))
        || (outro.Some? && e == OutroEvent(outro.value, outroStart, songLen))
  {
    var u := Unsorted(timeline, beats, songLen, intro, introMin, outro, outroMin);
    var r := Inject(timeline, beats, songLen, intro, introMin, outro, outroMin);
    assert e in r <==> e in multiset(r);
    assert e in u <==> e in multiset(u);
  }

  /** With an intro, every entry of the injected timeline other than the
      intro and outro entries starts at or after `intro_end`; the outro
      starts at the first beat at or after `song_len - outro_min` and ends
      with the song (app.py:485-515). */
  lemma {:induction false} InjectBounds(timeline: seq<Event>, beats: seq<Time>, songLen: Time,
                     intro: Option<string>, introMin: Time, outro: Option<string>, outroMin: Time)
    ensures var r := Inject(timeline, beats, songLen, intro, introMin, outro, outroMin);
      var introEnd := NextBeatAfter(beats, introMin);
      var outroStart := NextBeatAfter(beats, songLen - outroMin);
      && (intro.Some? ==> introEnd >= introMin)
      && (intro.Some? ==>
            forall e :: (e in r && e != IntroEvent(intro.value, introEnd)
                         && (outro.None? || e != OutroEvent(outro.value, outroStart, songLen))) ==> e.time >= introEnd)
      && (outro.Some? ==> outroStart >= songLen - outroMin && OutroEvent(outro.value, outroStart, songLen) in r)
  {
    var introEnd := NextBeatAfter(beats, introMin);
    var outroStart := NextBeatAfter(beats, songLen - outroMin);
    NextBeatAfterSpec(beats, introMin);
    NextBeatAfterSpec(beats, songLen - outroMin);
    var r := Inject(timeline, beats, songLen, intro, introMin, outro, outroMin);
    forall e | e in r
      ensures || (e in timeline && (intro.None? || e.time >= introEnd))
              || (intro.Some? && e == IntroEvent(intro.value, introEnd))
              || (outro.Some? && e == OutroEvent(outro.value, outroStart, songLen))
    {
      InjectMembers(timeline, beats, songLen, intro, introMin, outro, outroMin, e);
    }
    if outro.Some? {
      InjectMembers(timeline, beats, songLen, intro, introMin, outro, outroMin,
                    OutroEvent(outro.value, outroStart, songLen));
    }
  }

  /** Intro and outro come in as free clips, so a timeline without intro or
      outro entries gets none: the assembler's intro/outro branch is never
      taken for what `render_action` builds (app.py:345, 355-366). */
  lemma {:induction false} InjectNoIntroOutroKinds(timeline: seq<Event>, beats: seq<Time>, songLen: Time,
                                intro: Option<string>, introMin: Time, outro: Option<string>, outroMin: Time)
    requires forall e :: e in timeline ==> !e.kind.Intro? && !e.kind.Outro?
    ensures forall e :: e in Inject(timeline, beats, songLen, intro, introMin, outro, outroMin) ==>
              !e.kind.Intro? && !e.kind.Outro?
  {
    forall e | e in Inject(timeline, beats, songLen, intro, introMin, outro, outroMin)
      ensures !e.kind.Intro? && !e.kind.Outro?
    {
      InjectMembers(timeline, beats, songLen, intro, introMin, outro, outroMin, e);
    }
  }
}
