/** The planning half of `build_video` (app.py:341-410) and the trim-or-loop
    decision of `normalize_video` (app.py:272-285). Media decoding, cutting
    and writing are not modelled: a plan is the list of pieces the program
    would cut and concatenate, each described by its source and window. The
    durations of the stem videos and of the free clips are inputs. */
module Assembly {
  import opened Common
  import opened Cycling
  import opened Events

  /** A stem video as `normalize_video` prepares it: the window from 0.05 s
      to 0.05 s plus the song length, of the video itself or of `loops`
      copies of it played back to back. */
  datatype Normalized =
    | Trimmed(from: Time, to: Time)
    | Looped(loops: nat, from: Time, to: Time)

  datatype BuildError =
    | VideoTooShort(path: string)
    | MissingVideo(stem: string)
    | NothingToShow

  /** `ceil(a / d)` for a positive divisor. */
  function CeilDiv(a: nat, d: nat): nat
    requires d > 0
  {
    (a + d - 1) / d
  }

  lemma {:induction false} CeilDivSpec(a: nat, d: nat)
    requires d > 0
    ensures CeilDiv(a, d) * d >= a
    ensures CeilDiv(a, d) == 0 || (CeilDiv(a, d) - 1) * d < a
  {
    var q := CeilDiv(a, d);
    var r := (a + d - 1) % d;
    assert a + d - 1 == q * d + r;
    if q > 0 {
      assert (q - 1) * d == q * d - d;
    }
  }

  /** `normalize_video` (app.py:274-285): a video no longer than 0.05 s is
      refused; one at least the song plus 0.05 s long is trimmed; a shorter
      one is looped just often enough. */
  function Normalize(path: string, duration: Time, songLen: Time): Result<Normalized, BuildError>
  {
    if duration <= SafeStart then Err(VideoTooShort(path))
    else if duration >= songLen + SafeStart then Ok(Trimmed(SafeStart, SafeStart + songLen))
    else Ok(Looped(CeilDiv(songLen + SafeStart, duration), SafeStart, SafeStart + songLen))
  }

  /** The window always runs from 0.05 s for the length of the song and lies
      inside the video or its loops, which are as few as make that possible;
      only a video of at most 0.05 s is refused. */
  lemma {:induction false} NormalizeSpec(path: string, duration: Time, songLen: Time)
    ensures Normalize(path, duration, songLen).Err? <==> duration <= SafeStart
    ensures match Normalize(path, duration, songLen)
      case Err(e) => e == VideoTooShort(path)
      case Ok(Trimmed(from, to)) => from == SafeStart && to == SafeStart + songLen && to <= duration
      case Ok(Looped(loops, from, to)) =>
        && from == SafeStart && to == SafeStart + songLen && duration < to
        && to <= loops * duration && (loops - 1) * duration < to
  {
    if SafeStart < duration < songLen + SafeStart {
      CeilDivSpec(songLen + SafeStart, duration);
    }
  }

  /** The stem videos prepared for the first `n` stems, or the first
      failure: a stem without a video or a video too short (app.py:328-331, 274-275). */
  function NormalizeUpTo(stems: seq<string>, videoMap: map<string, string>, videoDuration: string -> Time,
                         songLen: Time, n: nat): Result<map<string, Normalized>, BuildError>
    requires n <= |stems|
  {
    if n == 0 then Ok(map[])
    else
      match NormalizeUpTo(stems, videoMap, videoDuration, songLen, n - 1)
      case Err(e) => Err(e)
      case Ok(m) =>
        var s := stems[n - 1];
        if s !in videoMap then Err(MissingVideo(s))
        else
          match Normalize(videoMap[s], videoDuration(videoMap[s]), songLen)
          case Err(e) => Err(e)
          case Ok(v) => Ok(m[s := v])
  }

  function NormalizeAll(stems: seq<string>, videoMap: map<string, string>, videoDuration: string -> Time,
                        songLen: Time): Result<map<string, Normalized>, BuildError>
  {
    NormalizeUpTo(stems, videoMap, videoDuration, songLen, |stems|)
  }

  /** Preparing the stem videos succeeds exactly when every stem has a video
      longer than 0.05 s, and then holds each stem's prepared video. */
  lemma {:induction false} NormalizeUpToSpec(stems: seq<string>, videoMap: map<string, string>,
                                             videoDuration: string -> Time, songLen: Time, n: nat)
    requires n <= |stems|
    ensures var r := NormalizeUpTo(stems, videoMap, videoDuration, songLen, n);
      && (r.Ok? <==> forall k :: 0 <= k < n ==> stems[k] in videoMap && videoDuration(videoMap[stems[k]]) > SafeStart)
      && (r.Ok? ==> forall s :: s in r.value <==> s in stems[..n])
      && (r.Ok? ==> forall s :: s in r.value ==>
            Ok(r.value[s]) == Normalize(videoMap[s], videoDuration(videoMap[s]), songLen))
  {
    if n > 0 {
      NormalizeUpToSpec(stems, videoMap, videoDuration, songLen, n - 1);
      var s := stems[n - 1];
      if s in videoMap {
        NormalizeSpec(videoMap[s], videoDuration(videoMap[s]), songLen);
      }
      assert stems[..n] == stems[..n - 1] + [s];
    }
  }

  /** One piece of the edit. */
  datatype Piece =
    /** An intro or outro clip from its start, `length` long (app.py:362-366). */
    | Standalone(clip: string, length: Time)
    /** A free clip from its start, `length` long; when it is longer than the
        clip, the clip from 0.05 s played forward then backward; then
        mirrored and reversed as its transform says (app.py:370-394). */
    | FreeClip(clip: string, length: Time, pingPong: bool, mirror: bool, reverse: bool)
    /** The window `[from, to]` of a stem's prepared video (app.py:403-405). */
    | StemClip(stem: string, from: Time, to: Time)

  /** The loop's variables: the cursor `start`, the pieces so far and the
      durations of the free clips opened so far. */
  datatype PlanState = PlanState(cursor: Time, pieces: seq<Piece>, cache: map<string, Time>)

  /** One pass of the loop of `build_video` (app.py:351-407). */
  function PlanStep(st: PlanState, e: Event, videos: map<string, Normalized>, clipDuration: string -> Time)
    : Result<PlanState, BuildError>
  {
    var end := EffectiveEnd(e);
    if !e.kind.Intro? && !e.kind.Outro? && end <= st.cursor then Ok(st)
    else
      var clipStart := Max(st.cursor, SafeStart);
      var clipEnd := Max(end, clipStart + Epsilon);
      match e.kind
      case Intro(clip) => Ok(PlanState(end, st.pieces + [Standalone(clip, end - st.cursor)], st.cache))
      case Outro(clip) => Ok(PlanState(end, st.pieces + [Standalone(clip, end - st.cursor)], st.cache))
      case Free(clip, transform) =>
        var cache := if clip in st.cache then st.cache else st.cache[clip := clipDuration(clip)];
        var length := clipEnd - clipStart;
        var piece := FreeClip(clip, length, length > cache[clip], Mirror in transform, Reverse in transform);
        Ok(PlanState(end, st.pieces + [piece], cache))
      case Stem(stem) =>
        if stem in videos then Ok(PlanState(end, st.pieces + [StemClip(stem, clipStart, clipEnd)], st.cache))
        else Err(MissingVideo(stem))
  }

  /** The loop over the first `n` entries. */
  function Plan(events: seq<Event>, videos: map<string, Normalized>, clipDuration: string -> Time, n: nat)
    : Result<PlanState, BuildError>
    requires n <= |events|
  {
    if n == 0 then Ok(PlanState(0, [], map[]))
    else
      match Plan(events, videos, clipDuration, n - 1)
      case Err(e) => Err(e)
      case Ok(st) => PlanStep(st, events[n - 1], videos, clipDuration)
  }

  /** The stem videos and the pieces `build_video` would concatenate, or the
      error it would raise; concatenating no pieces fails. */
  function BuildSpec(timeline: seq<Event>, stems: seq<string>, videoMap: map<string, string>, songLen: Time,
                     videoDuration: string -> Time, clipDuration: string -> Time)
    : Result<(map<string, Normalized>, seq<Piece>), BuildError>
  {
    match NormalizeAll(stems, videoMap, videoDuration, songLen)
    case Err(e) => Err(e)
    case Ok(videos) =>
      match Plan(timeline, videos, clipDuration, |timeline|)
      case Err(e) => Err(e)
      case Ok(st) => if |st.pieces| == 0 then Err(NothingToShow) else Ok((videos, st.pieces))
  }

  lemma {:induction false} PlanErrorSticks(events: seq<Event>, videos: map<string, Normalized>,
                                           clipDuration: string -> Time, n: nat, m: nat)
    requires n <= m <= |events| && Plan(events, videos, clipDuration, n).Err?
    ensures Plan(events, videos, clipDuration, m) == Plan(events, videos, clipDuration, n)
    decreases m - n
  {
    if n < m {
      PlanErrorSticks(events, videos, clipDuration, n, m - 1);
    }
  }

  /** The segment plan of `build_video` (app.py:341-410): walks the entries
      with a cursor, skipping any that ends at or before it, and cuts one
      piece per remaining entry. */
  method BuildVideo(timeline: seq<Event>, stems: seq<string>, videoMap: map<string, string>, songLen: Time,
                    videoDuration: string -> Time, clipDuration: string -> Time)
    returns (r: Result<(map<string, Normalized>, seq<Piece>), BuildError>)
    ensures r == BuildSpec(timeline, stems, videoMap, songLen, videoDuration, clipDuration)
  {
    var prepared := NormalizeAll(stems, videoMap, videoDuration, songLen);
    if prepared.Err? {
      return Err(prepared.error);
    }
    var videos := prepared.value;
    var segments: seq<Piece> := [];
    var start: Time := 0;
    var cache: map<string, Time> := map[];
    for i := 0 to |timeline|
      invariant Plan(timeline, videos, clipDuration, i) == Ok(PlanState(start, segments, cache))
    {
      var e := timeline[i];
      var end := EffectiveEnd(e);
      if !e.kind.Intro? && !e.kind.Outro? && end <= start {
        continue;
      }
      var clipStart := Max(start, SafeStart);
      var clipEnd := Max(end, clipStart + Epsilon);
      var duration := clipEnd - clipStart;
      if e.kind.Intro? || e.kind.Outro? {
        duration := end - start;
        segments := segments + [Standalone(e.kind.clip, duration)];
        start := end;
        continue;
      }
      if e.kind.Free? {
        var clip := e.kind.clip;
        if clip !in cache {
          cache := cache[clip := clipDuration(clip)];
        }
        var baseDur := cache[clip];
        var transform := e.kind.transform;
        segments := segments + [FreeClip(clip, duration, duration > baseDur, Mirror in transform, Reverse in transform)];
      } else {
        if e.kind.stem !in videos {
          PlanErrorSticks(timeline, videos, clipDuration, i + 1, |timeline|);
          return Err(MissingVideo(e.kind.stem));
        }
        segments := segments + [StemClip(e.kind.stem, clipStart, clipEnd)];
      }
      start := end;
    }
    if |segments| == 0 {
      return Err(NothingToShow);
    }
    return Ok((videos, segments));
  }

  /** No entry of the first `n` is an intro or outro entry. */
  predicate NoStandalone(events: seq<Event>, n: nat)
    requires n <= |events|
  {
    forall k :: 0 <= k < n ==> !events[k].kind.Intro? && !events[k].kind.Outro?
  }

  /** The latest end among the first `n` entries, and 0 when there are none
      or all end earlier. */
  function LatestEnd(events: seq<Event>, n: nat): (r: Time)
    requires n <= |events|
    ensures r >= 0
    ensures forall k :: 0 <= k < n ==> EffectiveEnd(events[k]) <= r
  {
    if n == 0 then 0 else Max(LatestEnd(events, n - 1), EffectiveEnd(events[n - 1]))
  }

  /** A well-formed piece: a free clip lasts at least 0.001 s and plays
      forward-and-backward exactly when it is longer than its clip; a stem
      window starts no earlier than 0.05 s, lasts at least 0.001 s, and its
      stem has a prepared video. */
  predicate PieceOk(p: Piece, videos: map<string, Normalized>, clipDuration: string -> Time)
  {
    match p
    case Standalone(_, _) => true
    case FreeClip(clip, length, pingPong, _, _) => length >= Epsilon && (pingPong <==> length > clipDuration(clip))
    case StemClip(stem, from, to) => from >= SafeStart && to >= from + Epsilon && stem in videos
  }

  /** Without intro or outro entries: the cursor is the latest end seen so
      far (so it never moves back), no piece has been cut while it is still 0,
      every piece is well formed, and the clip cache holds each opened clip's
      duration. */
  lemma {:induction false} PlanInvariant(events: seq<Event>, videos: map<string, Normalized>,
                                         clipDuration: string -> Time, n: nat)
    requires n <= |events| && NoStandalone(events, n)
    requires Plan(events, videos, clipDuration, n).Ok?
    ensures var st := Plan(events, videos, clipDuration, n).value;
      && st.cursor == LatestEnd(events, n)
      && (|st.pieces| == 0 <==> st.cursor == 0)
      && (forall i :: 0 <= i < |st.pieces| ==> PieceOk(st.pieces[i], videos, clipDuration))
      && (forall c :: c in st.cache ==> st.cache[c] == clipDuration(c))
  {
    if n > 0 {
      PlanInvariant(events, videos, clipDuration, n - 1);
      var st := Plan(events, videos, clipDuration, n - 1).value;
      var next := Plan(events, videos, clipDuration, n).value;
      var e := events[n - 1];
      if EffectiveEnd(e) > st.cursor {
        assert next.pieces[..|st.pieces|] == st.pieces;
        assert PieceOk(next.pieces[|st.pieces|], videos, clipDuration);
      }
    }
  }

  /** Without intro or outro entries the plan only fails for want of pieces
      when no entry ends after 0, and the cursor ends at the latest end. */
  lemma {:induction false} PlanNothingToShow(events: seq<Event>, videos: map<string, Normalized>, clipDuration: string -> Time)
    requires NoStandalone(events, |events|)
    requires Plan(events, videos, clipDuration, |events|).Ok?
    ensures var st := Plan(events, videos, clipDuration, |events|).value;
      && st.cursor == LatestEnd(events, |events|)
      && (|st.pieces| == 0 <==> forall k :: 0 <= k < |events| ==> EffectiveEnd(events[k]) <= 0)
  {
    PlanInvariant(events, videos, clipDuration, |events|);
    LatestEndZero(events, |events|);
  }

  lemma {:induction false} LatestEndZero(events: seq<Event>, n: nat)
    requires n <= |events|
    ensures LatestEnd(events, n) == 0 <==> forall k :: 0 <= k < n ==> EffectiveEnd(events[k]) <= 0
  {
    if n > 0 {
      LatestEndZero(events, n - 1);
    }
  }
}
