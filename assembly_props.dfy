/** What the walk of `build_video` (app.py:341-410) cuts, entry by entry:
    which entries yield a piece, the window or length of each piece, when
    the walk fails, and how long the pieces last together. */
module AssemblyProps {
  import opened Common
  import opened Cycling
  import opened Events
  import opened Assembly
  import Timeline
  import TimelineProps

  /** Entry `k` yields a piece: it ends after the cursor, which (without intro
      or outro entries) is the latest end of the entries before it
      (app.py:345). */
  predicate Kept(events: seq<Event>, k: nat)
    requires k < |events|
  {
    EffectiveEnd(events[k]) > LatestEnd(events, k)
  }

  /** The positions among the first `n` entries that yield a piece, in order. */
  function KeptIndices(events: seq<Event>, n: nat): (r: seq<nat>)
    requires n <= |events|
    ensures forall i :: 0 <= i < |r| ==> r[i] < n && Kept(events, r[i])
    ensures forall k :: 0 <= k < n && Kept(events, k) ==> k in r
    ensures forall i :: 0 < i < |r| ==> r[i - 1] < r[i]
  {
    if n == 0 then []
    else KeptIndices(events, n - 1) + (if Kept(events, n - 1) then [n - 1] else [])
  }

  /** Piece `p` is what entry `e` yields with the cursor at `cursor`
      (app.py:350-352, 370-405): a stem's window from the cursor, moved up to
      0.05 s, to the entry's end, at least 0.001 s later; a free clip of that
      window's length, played back and forth when longer than the clip, with
      the entry's mirror and reverse flags. */
  predicate CutFrom(p: Piece, e: Event, cursor: Time, clipDuration: string -> Time)
  {
    var from := Max(cursor, SafeStart);
    var to := Max(EffectiveEnd(e), from + Epsilon);
    match e.kind
    case Stem(stem) => p == StemClip(stem, from, to)
    case Free(clip, transform) =>
      p == FreeClip(clip, to - from, to - from > clipDuration(clip), Mirror in transform, Reverse in transform)
    case Intro(_) => false
    case Outro(_) => false
  }

  /** How long a piece plays. */
  function Length(p: Piece): Time
  {
    match p
    case Standalone(_, length) => length
    case FreeClip(_, length, _, _, _) => length
    case StemClip(_, from, to) => to - from
  }

  /** How long the pieces play one after the other. */
  function TotalLength(pieces: seq<Piece>): Time
  {
    if |pieces| == 0 then 0 else TotalLength(pieces[..|pieces| - 1]) + Length(pieces[|pieces| - 1])
  }

  /** The entries among the first `n` that yield a piece but end no later
      than 0.05 s; each is padded to 0.001 s (app.py:351). */
  function Pads(events: seq<Event>, n: nat): nat
    requires n <= |events|
  {
    if n == 0 then 0
    else Pads(events, n - 1) + (if Kept(events, n - 1) && EffectiveEnd(events[n - 1]) <= SafeStart then 1 else 0)
  }

  /** One entry of the walk (app.py:345-410): an entry that ends after the
      cursor adds the piece cut from it; any other entry adds nothing. */
  lemma {:induction false} PlanStepCut(events: seq<Event>, videos: map<string, Normalized>,
                                       clipDuration: string -> Time, n: nat)
    requires 0 < n <= |events| && NoStandalone(events, n)
    requires Plan(events, videos, clipDuration, n).Ok?
    ensures Plan(events, videos, clipDuration, n - 1).Ok?
    ensures var before := Plan(events, videos, clipDuration, n - 1).value.pieces;
      var after := Plan(events, videos, clipDuration, n).value.pieces;
      if Kept(events, n - 1) then
        && |after| == |before| + 1
        && after == before + [after[|before|]]
        && CutFrom(after[|before|], events[n - 1], LatestEnd(events, n - 1), clipDuration)
      else after == before
  {
    var prev := Plan(events, videos, clipDuration, n - 1);
    assert prev.Ok?;
    PlanInvariant(events, videos, clipDuration, n - 1);
  }

  /** Without intro or outro entries, the walk cuts one piece per entry that
      ends after every earlier one, in order; every other entry is skipped.
      Each piece is cut from its entry with the cursor at the latest earlier
      end. */
  lemma {:induction false} PlanPieces(events: seq<Event>, videos: map<string, Normalized>,
                                      clipDuration: string -> Time, n: nat)
    requires n <= |events| && NoStandalone(events, n)
    requires Plan(events, videos, clipDuration, n).Ok?
    ensures var pieces := Plan(events, videos, clipDuration, n).value.pieces;
      var ks := KeptIndices(events, n);
      && |pieces| == |ks|
      && forall i :: 0 <= i < |ks| ==> CutFrom(pieces[i], events[ks[i]], LatestEnd(events, ks[i]), clipDuration)
  {
    if n > 0 {
      PlanStepCut(events, videos, clipDuration, n);
      PlanPieces(events, videos, clipDuration, n - 1);
      if Kept(events, n - 1) {
        assert KeptIndices(events, n) == KeptIndices(events, n - 1) + [n - 1];
      } else {
        assert KeptIndices(events, n) == KeptIndices(events, n - 1);
      }
    }
  }

  /** A piece cut after the cursor lasts from the later of the cursor and
      0.05 s to the later of its end and 0.05 s, plus 0.001 s when it ends no
      later than 0.05 s. */
  lemma {:induction false} CutLength(p: Piece, e: Event, cursor: Time, clipDuration: string -> Time)
    requires CutFrom(p, e, cursor, clipDuration) && EffectiveEnd(e) > cursor
    ensures Length(p) == Max(EffectiveEnd(e), SafeStart) - Max(cursor, SafeStart)
                         + (if EffectiveEnd(e) <= SafeStart then 1 else 0)
  {
  }

  /** Without intro or outro entries, the pieces last from 0.05 s to the
      latest end, plus 0.001 s for each entry that ends no later than 0.05 s:
      the clamp at app.py:350 leaves the first 0.05 s of the song uncovered. */
  lemma {:induction false} PlanTotalLength(events: seq<Event>, videos: map<string, Normalized>,
                                           clipDuration: string -> Time, n: nat)
    requires n <= |events| && NoStandalone(events, n)
    requires Plan(events, videos, clipDuration, n).Ok?
    ensures TotalLength(Plan(events, videos, clipDuration, n).value.pieces)
            == Max(LatestEnd(events, n), SafeStart) - SafeStart + Pads(events, n)
  {
    if n > 0 {
      PlanStepCut(events, videos, clipDuration, n);
      PlanTotalLength(events, videos, clipDuration, n - 1);
      var before := Plan(events, videos, clipDuration, n - 1).value.pieces;
      var after := Plan(events, videos, clipDuration, n).value.pieces;
      if Kept(events, n - 1) {
        var p := after[|before|];
        assert after[..|after| - 1] == before;
        CutLength(p, events[n - 1], LatestEnd(events, n - 1), clipDuration);
      }
    }
  }

  /** With nothing padded and the last entry ending the song, the pieces
      cover the song minus its first 0.05 s. */
  lemma {:induction false} BuildShortOfSong(timeline: seq<Event>, stems: seq<string>, videoMap: map<string, string>,
                                            songLen: Time, videoDuration: string -> Time, clipDuration: string -> Time)
    requires NoStandalone(timeline, |timeline|)
    requires BuildSpec(timeline, stems, videoMap, songLen, videoDuration, clipDuration).Ok?
    requires LatestEnd(timeline, |timeline|) == songLen >= SafeStart
    requires Pads(timeline, |timeline|) == 0
    ensures TotalLength(BuildSpec(timeline, stems, videoMap, songLen, videoDuration, clipDuration).value.1)
            == songLen - SafeStart
  {
    var videos := NormalizeAll(stems, videoMap, videoDuration, songLen).value;
    PlanTotalLength(timeline, videos, clipDuration, |timeline|);
  }

  /** Two stem cuts at 1 s and 2 s of a 2 s song yield the windows
      [0.05 s, 1 s] and [1 s, 2 s]: 1.95 s of pieces. */
  lemma {:induction false} TwoCutsExample(clipDuration: string -> Time)
    ensures var events := [Event(1000, None, Stem("a"), None, None), Event(2000, None, Stem("b"), None, None)];
      var videos := map["a" := Trimmed(50, 2050), "b" := Trimmed(50, 2050)];
      var st := Plan(events, videos, clipDuration, 2);
      && st == Ok(PlanState(2000, [StemClip("a", 50, 1000), StemClip("b", 1000, 2000)], map[]))
      && TotalLength(st.value.pieces) == 1950
  {
    var events := [Event(1000, None, Stem("a"), None, None), Event(2000, None, Stem("b"), None, None)];
    var videos := map["a" := Trimmed(50, 2050), "b" := Trimmed(50, 2050)];
    var st0 := PlanState(0, [], map[]);
    assert Plan(events, videos, clipDuration, 0) == Ok(st0);
    assert "a" in videos && "b" in videos;
    assert PlanStep(st0, events[0], videos, clipDuration) == Ok(PlanState(1000, st0.pieces + [StemClip("a", 50, 1000)], map[]));
    assert st0.pieces + [StemClip("a", 50, 1000)] == [StemClip("a", 50, 1000)];
    var st1 := PlanState(1000, [StemClip("a", 50, 1000)], map[]);
    assert Plan(events, videos, clipDuration, 1) == Ok(st1);
    assert PlanStep(st1, events[1], videos, clipDuration) == Ok(PlanState(2000, st1.pieces + [StemClip("b", 1000, 2000)], map[]));
    var pieces := [StemClip("a", 50, 1000), StemClip("b", 1000, 2000)];
    assert st1.pieces + [StemClip("b", 1000, 2000)] == pieces;
    assert Plan(events, videos, clipDuration, 2) == Ok(PlanState(2000, pieces, map[]));
    assert pieces[..1] == [StemClip("a", 50, 1000)];
    assert TotalLength(pieces[..1]) == 950;
  }

  /** Without intro or outro entries, the walk fails exactly when an entry
      that yields a piece shows a stem with no prepared video, and then with
      that stem's name (app.py:405). */
  lemma {:induction false} PlanFailsOnMissingVideo(events: seq<Event>, videos: map<string, Normalized>,
                                                   clipDuration: string -> Time, n: nat)
    requires n <= |events| && NoStandalone(events, n)
    ensures Plan(events, videos, clipDuration, n).Ok? <==>
      forall k :: 0 <= k < n && Kept(events, k) && events[k].kind.Stem? ==> events[k].kind.stem in videos
    ensures Plan(events, videos, clipDuration, n).Err? ==>
      exists k :: 0 <= k < n && Kept(events, k) && events[k].kind.Stem? && events[k].kind.stem !in videos
                  && Plan(events, videos, clipDuration, n).error == MissingVideo(events[k].kind.stem)
  {
    if n > 0 {
      PlanFailsOnMissingVideo(events, videos, clipDuration, n - 1);
      var prev := Plan(events, videos, clipDuration, n - 1);
      if prev.Ok? {
        PlanInvariant(events, videos, clipDuration, n - 1);
      }
    }
  }
  /** The latest end is at most any bound on the ends that is not negative. */
  lemma {:induction false} LatestEndAtMost(events: seq<Event>, n: nat, x: Time)
    requires n <= |events| && x >= 0
    requires forall k :: 0 <= k < n ==> EffectiveEnd(events[k]) <= x
    ensures LatestEnd(events, n) <= x
  {
    if n > 0 {
      LatestEndAtMost(events, n - 1, x);
    }
  }

  /** The timeline `generate_timeline` returns has no intro or outro entry
      and its latest end is the song's end (app.py:180-182, 258-265); so the
      pieces cut from it last the song minus its first 0.05 s, plus the pads
      of entries ending in those 0.05 s. */
  lemma {:induction false} GeneratedPiecesLength(cfg: Timeline.Config, c0: CyclerState,
                                                 videos: map<string, Normalized>, clipDuration: string -> Time)
    requires Timeline.ValidConfig(cfg) && Timeline.CyclerOk(cfg, c0) && Timeline.Final(cfg, c0).Ok?
    requires cfg.songLength >= SafeStart
    requires var tl := Timeline.Finish(cfg, Timeline.Final(cfg, c0).value);
      Plan(tl, videos, clipDuration, |tl|).Ok?
    ensures var tl := Timeline.Finish(cfg, Timeline.Final(cfg, c0).value);
      && NoStandalone(tl, |tl|)
      && LatestEnd(tl, |tl|) == cfg.songLength
      && TotalLength(Plan(tl, videos, clipDuration, |tl|).value.pieces) == cfg.songLength - SafeStart + Pads(tl, |tl|)
  {
    var st := Timeline.Final(cfg, c0).value;
    var tl := Timeline.Finish(cfg, st);
    var loop := st.timeline;
    TimelineProps.FinishCloses(cfg, c0);
    TimelineProps.FinalOnBeats(cfg, c0);
    TimelineProps.FinalKinds(cfg, c0);
    assert tl == loop + [tl[|loop|]];
    forall k | 0 <= k < |tl|
      ensures !tl[k].kind.Intro? && !tl[k].kind.Outro? && EffectiveEnd(tl[k]) <= cfg.songLength
    {
      if k < |loop| {
        assert tl[k] == loop[k];
      }
    }
    LatestEndAtMost(tl, |tl|, cfg.songLength);
    assert EffectiveEnd(tl[|tl| - 1]) == cfg.songLength;
    PlanTotalLength(tl, videos, clipDuration, |tl|);
  }
}
