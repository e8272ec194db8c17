/** `generate_timeline` (app.py:153-267): walks the beats, decides where a cut
    may fall, picks the stem to cut to, and sometimes shows a free clip
    instead. Loudness, silence levels and the random draws are inputs. */
module Timeline {
  import opened Common
  import opened Sections
  import opened Cycling
  import opened Events
  import opened Matching

  /** `last_used` starts at -999.0 seconds for every stem (app.py:177). */
  const NeverUsed: Time := -999000
  /** `last_cut_beat` starts at -999 (app.py:178). */
  const NeverCut: int := -999
  /** A cut this close to the end of the song is never a free clip (app.py:224). */
  const FinalMargin: Time := 50

  /** Python's `int()` on a float: truncation toward zero. */
  function Trunc(x: real): (r: int)
    ensures 0.0 <= x ==> 0 <= r && r as real <= x < r as real + 1.0
    ensures x < 0.0 ==> r <= 0 && x <= r as real < x + 1.0
  {
    if x >= 0.0 then x.Floor else -((-x).Floor)
  }

  /** Downbeat emphasis (app.py:185): with a bias N > 0 only every N-th beat
      may carry a cut. */
  predicate Gate(bias: nat, idx: nat)
  {
    bias == 0 || idx % bias == 0
  }

  /** The minimum hold in beats (app.py:191): the phrase length in a verse,
      the phrase length scaled by `1 - aggression`, truncated and at least 1,
      in a chorus. */
  function MinBeats(section: Label, phraseBeats: nat, aggression: real): (r: int)
    ensures section == Verse ==> r == phraseBeats
    ensures section == Chorus ==> 1 <= r
    ensures section == Chorus && 0.0 <= aggression ==> r <= Max(1, phraseBeats)
  {
    if section == Chorus then Max(1, Trunc(phraseBeats as real * (1.0 - aggression))) else phraseBeats
  }

  /** A stem's loudness at `t` (app.py:201-204): 0 past the end of its audio. */
  function Energy(a: StemAudio, t: Time): real
  {
    if t > a.duration then 0.0 else a.level(t)
  }

  /** A stem is active when it is louder than its silence level (app.py:206). */
  predicate IsActive(audio: map<string, StemAudio>, t: Time, s: string)
  {
    s in audio && Energy(audio[s], t) > audio[s].silence
  }

  /** The active stems, in stem order. */
  function ActiveStems(stems: seq<string>, audio: map<string, StemAudio>, t: Time): (r: seq<string>)
    ensures forall s :: s in r <==> s in stems && IsActive(audio, t, s)
  {
    Filter(stems, s => IsActive(audio, t, s))
  }

  /** The loudness of every stem at `t`. */
  function EnergyMap(stems: seq<string>, audio: map<string, StemAudio>, t: Time): (m: map<string, real>)
    requires forall s :: s in stems ==> s in audio
    ensures forall s :: s in m <==> s in stems
    ensures forall s :: s in m ==> m[s] == Energy(audio[s], t)
  {
    map s | s in stems :: Energy(audio[s], t)
  }

  /** A stem may be cut to when it is not on screen and its cooldown has
      passed (app.py:210-213). */
  predicate IsEligible(current: string, lastUsed: map<string, Time>, t: Time, cooldown: Time, s: string)
  {
    s != current && s in lastUsed && t - lastUsed[s] >= cooldown
  }

  /** The candidates, in the order of the active stems. */
  function Eligible(active: seq<string>, current: string, lastUsed: map<string, Time>, t: Time, cooldown: Time): (r: seq<string>)
    ensures forall s :: s in r <==> s in active && IsEligible(current, lastUsed, t, cooldown, s)
  {
    Filter(active, s => IsEligible(current, lastUsed, t, cooldown, s))
  }

  /** The stems other than the current one (app.py:221). */
  function Others(stems: seq<string>, current: string): (r: seq<string>)
    ensures forall s :: s in r <==> s in stems && s != current
  {
    Filter(stems, s => s != current)
  }

  /** `max(candidates, key=energy)`: the first position of a loudest
      candidate. */
  function ArgMax(cands: seq<string>, energy: map<string, real>): (i: nat)
    requires |cands| > 0
    requires forall c :: c in cands ==> c in energy
    ensures i < |cands|
    ensures forall j :: 0 <= j < |cands| ==> energy[cands[j]] <= energy[cands[i]]
    ensures forall j :: 0 <= j < i ==> energy[cands[j]] < energy[cands[i]]
  {
    var n := |cands| - 1;
    if n == 0 then 0
    else
      var k := ArgMax(cands[..n], energy);
      if energy[cands[n]] > energy[cands[k]] then n else k
  }

  datatype Selection = Chosen(stem: string) | NoCut | NoChoice

  /** The choice at one beat (app.py:217-223): the loudest candidate; with
      no candidate and nothing active, a drawn stem other than the current
      one (none to draw from raises); with active stems but no candidate, no
      cut. */
  function Select(stems: seq<string>, current: string, active: seq<string>, cands: seq<string>,
                  energy: map<string, real>, draw: nat): (r: Selection)
    requires forall c :: c in cands ==> c in energy
    ensures r.NoCut? <==> |cands| == 0 && |active| > 0
    ensures r.NoChoice? <==> |cands| == 0 && |active| == 0 && forall s :: s in stems ==> s == current
    ensures |cands| > 0 ==> r.Chosen? && r.stem in cands && forall c :: c in cands ==> energy[c] <= energy[r.stem]
    ensures |cands| == 0 && r.Chosen? ==> r.stem in stems && r.stem != current
  {
    if |cands| > 0 then
      var i := ArgMax(cands, energy);
      assert cands[i] in cands;
      Chosen(cands[i])
    else if |active| == 0 then
      var others := Others(stems, current);
      if |others| == 0 then NoChoice
      else
        assert others[draw % |others|] in others;
        Chosen(others[draw % |others|])
    else NoCut
  }

  /** `for s in stems`: the loudness of each stem and the active ones
      (app.py:197-207). */
  method MeasureStems(stems: seq<string>, audio: map<string, StemAudio>, t: Time)
    returns (energy: map<string, real>, active: seq<string>)
    requires forall s :: s in stems ==> s in audio
    ensures energy == EnergyMap(stems, audio, t)
    ensures active == ActiveStems(stems, audio, t)
  {
    energy := map[];
    active := [];
    for i := 0 to |stems|
      invariant energy == EnergyMap(stems[..i], audio, t)
      invariant active == ActiveStems(stems[..i], audio, t)
    {
      var s := stems[i];
      var e := if t > audio[s].duration then 0.0 else audio[s].level(t);
      assert EnergyMap(stems[..i + 1], audio, t) == energy[s := e];
      energy := energy[s := e];
      if e > audio[s].silence {
        active := active + [s];
      }
      assert stems[..i + 1][..i] == stems[..i];
    }
    assert stems[..|stems|] == stems;
  }

  /** `for s in active` (app.py:209-215). The vocal-stem test can never
      skip a stem, since every stem visited here is active. */
  method Candidates(active: seq<string>, current: string, lastUsed: map<string, Time>, t: Time,
                    cooldown: Time, vocal: Option<string>) returns (cands: seq<string>)
    requires forall s :: s in active ==> s in lastUsed
    ensures cands == Eligible(active, current, lastUsed, t, cooldown)
  {
    cands := [];
    for i := 0 to |active|
      invariant cands == Eligible(active[..i], current, lastUsed, t, cooldown)
    {
      var s := active[i];
      var vocalSilent := vocal == Some(s) && s !in active;
      if s != current && t - lastUsed[s] >= cooldown && !vocalSilent {
        cands := cands + [s];
      }
      assert active[..i + 1][..i] == active[..i];
    }
    assert active[..|active|] == active;
  }

  /** The choice at one accepted beat (app.py:197-223): measure the stems,
      collect the candidates and select. */
  method ChooseAt(stems: seq<string>, audio: map<string, StemAudio>, vocal: Option<string>, current: string,
                  lastUsed: map<string, Time>, t: Time, cooldown: Time, draw: nat)
    returns (sel: Selection, byEnergy: bool)
    requires forall s :: s in stems ==> s in audio && s in lastUsed
    ensures var active := ActiveStems(stems, audio, t);
            var cands := Eligible(active, current, lastUsed, t, cooldown);
            && sel == Select(stems, current, active, cands, EnergyMap(stems, audio, t), draw)
            && byEnergy == (|cands| > 0)
  {
    var energy, active := MeasureStems(stems, audio, t);
    var candidates := Candidates(active, current, lastUsed, t, cooldown, vocal);
    byEnergy := |candidates| > 0;
    if |candidates| > 0 {
      sel := Chosen(candidates[ArgMax(candidates, energy)]);
    } else if |active| == 0 {
      var others := Others(stems, current);
      if |others| == 0 {
        sel := NoChoice;
      } else {
        sel := Chosen(others[draw % |others|]);
      }
    } else {
      sel := NoCut;
    }
  }

  /** The generator's inputs once the file lists have been matched. `clips`
      is the free-clip cycler's list when there is one; `pick` and `roll`
      are the random draws at each beat (app.py:221, 230). */
  datatype Config = Config(
    stems: seq<string>, audio: map<string, StemAudio>,
    beats: seq<Time>, sections: seq<Section>, cooldown: Time, songLength: Time,
    aggression: real, phraseBeats: nat, downbeatBias: nat,
    clips: Option<seq<string>>, freeProbability: real,
    pick: nat -> nat, roll: nat -> real)

  predicate ValidConfig(cfg: Config)
  {
    && (forall s :: s in cfg.stems ==> s in cfg.audio)
    && (cfg.clips.Some? ==> |cfg.clips.value| > 0)
  }

  /** The stem cut to at one accepted beat, and whether it won on loudness
      (rather than being drawn at random). */
  datatype Pick = Pick(stem: string, byEnergy: bool)

  /** The loop's variables (app.py:175-178) and the cycler's state; `picks`
      records the stem chosen at each entry of `timeline`. */
  datatype Loop = Loop(timeline: seq<Event>, picks: seq<Pick>, current: string,
                       lastUsed: map<string, Time>, lastCut: int, cycler: CyclerState)

  predicate CyclerOk(cfg: Config, c: CyclerState)
  {
    cfg.clips.Some? ==> c.idx < |cfg.clips.value| && c.phase < 2
  }

  /** Whether the cut at beat `idx` shows a free clip (app.py:227-231). */
  predicate UseFree(cfg: Config, t: Time, idx: nat)
  {
    cfg.clips.Some? && !(t >= cfg.songLength - FinalMargin) && cfg.roll(idx) < cfg.freeProbability
  }

  /** Making the cut to `stem` at beat `idx` (app.py:233-256). */
  function CutTo(cfg: Config, st: Loop, idx: nat, t: Time, section: Label, stem: string, byEnergy: bool): (r: Loop)
    requires ValidConfig(cfg) && CyclerOk(cfg, st.cycler)
    ensures CyclerOk(cfg, r.cycler)
  {
    var picks := st.picks + [Pick(stem, byEnergy)];
    var lastUsed := st.lastUsed[stem := t];
    if UseFree(cfg, t, idx) then
      var clips := cfg.clips.value;
      var (clip, transform) := Emit(clips, st.cycler);
      var ev := Event(t, None, Free(clip, transform), Some(idx), Some(section));
      Loop(st.timeline + [ev], picks, stem, lastUsed, idx, Advance(st.cycler, |clips|))
    else
      var ev := Event(t, None, Stem(stem), Some(idx), Some(section));
      Loop(st.timeline + [ev], picks, stem, lastUsed, idx, st.cycler)
  }

  /** One pass of the loop body at beat `idx`, for a beat before the end of
      the song (app.py:184-256). */
  function Step(cfg: Config, st: Loop, idx: nat): (r: Result<Loop, GenError>)
    requires ValidConfig(cfg) && CyclerOk(cfg, st.cycler) && idx < |cfg.beats|
    ensures r.Ok? ==> CyclerOk(cfg, r.value.cycler)
  {
    var t := cfg.beats[idx];
    if !Gate(cfg.downbeatBias, idx) then Ok(st)
    else
      var section := SectionAt(cfg.sections, t);
      if idx - st.lastCut < MinBeats(section, cfg.phraseBeats, cfg.aggression) then Ok(st)
      else
        var energy := EnergyMap(cfg.stems, cfg.audio, t);
        var active := ActiveStems(cfg.stems, cfg.audio, t);
        var cands := Eligible(active, st.current, st.lastUsed, t, cfg.cooldown);
        match Select(cfg.stems, st.current, active, cands, energy, cfg.pick(idx))
        case NoCut => Ok(st)
        case NoChoice => Err(EmptyChoice)
        case Chosen(stem) => Ok(CutTo(cfg, st, idx, t, section, stem, |cands| > 0))
  }

  /** The loop from beat `idx` on; it stops at the first beat at or past the
      end of the song (app.py:180-182). */
  function Run(cfg: Config, st: Loop, idx: nat): (r: Result<Loop, GenError>)
    requires ValidConfig(cfg) && CyclerOk(cfg, st.cycler) && idx <= |cfg.beats|
    ensures r.Ok? ==> CyclerOk(cfg, r.value.cycler)
    decreases |cfg.beats| - idx
  {
    if idx == |cfg.beats| || cfg.beats[idx] >= cfg.songLength then Ok(st)
    else
      match Step(cfg, st, idx)
      case Err(e) => Err(e)
      case Ok(next) => Run(cfg, next, idx + 1)
  }

  datatype GenError = NoMatchingStems | EmptyChoice

  /** The loop's variables before the first beat (app.py:175-178). */
  function Init(cfg: Config, c0: CyclerState): Loop
    requires |cfg.stems| > 0
  {
    Loop([], [], cfg.stems[0], map s | s in cfg.stems :: NeverUsed, NeverCut, c0)
  }

  /** The loop's final variables, or the error it raised; no matching stem
      raises before the loop (app.py:170-171). */
  function Final(cfg: Config, c0: CyclerState): Result<Loop, GenError>
    requires ValidConfig(cfg) && CyclerOk(cfg, c0)
  {
    if |cfg.stems| == 0 then Err(NoMatchingStems) else Run(cfg, Init(cfg, c0), 0)
  }

  /** The closing cut to the current stem at the end of the song
      (app.py:258-265). */
  function Finish(cfg: Config, st: Loop): seq<Event>
  {
    var tl := st.timeline;
    if |tl| == 0 || tl[|tl| - 1].time < cfg.songLength then
      tl + [Event(cfg.songLength, None, Stem(st.current), Some(|cfg.beats|), Some(SectionAt(cfg.sections, cfg.songLength)))]
    else tl
  }

  /** The generator's configuration from the uploaded files (app.py:166-168). */
  function Setup(audioFiles: seq<AudioFile>, videoFiles: seq<string>, beats: seq<Time>, sections: seq<Section>,
                 cooldown: Time, songLength: Time, aggression: real, phraseBeats: nat, downbeatBias: nat,
                 clips: Option<seq<string>>, freeProbability: real, pick: nat -> nat, roll: nat -> real): (cfg: Config)
    requires clips.Some? ==> |clips.value| > 0
    ensures ValidConfig(cfg)
    ensures cfg.stems == MatchStems(audioFiles, videoFiles)
  {
    MatchStemsMembers(audioFiles, videoFiles);
    Config(MatchStems(audioFiles, videoFiles), AudioIndex(audioFiles), beats, sections, cooldown, songLength,
           aggression, phraseBeats, downbeatBias, clips, freeProbability, pick, roll)
  }

  function CyclerOf(cycler: FreeClipCycler?): CyclerState
    reads cycler
  {
    if cycler == null then CyclerState(0, 0) else cycler.State()
  }

  function ClipsOf(cycler: FreeClipCycler?): Option<seq<string>>
  {
    if cycler == null then None else Some(cycler.clips)
  }

  /** A beat the gate or the minimum hold rules out leaves the loop unchanged. */
  lemma {:induction false} StepHeld(cfg: Config, st: Loop, idx: nat)
    requires ValidConfig(cfg) && CyclerOk(cfg, st.cycler) && idx < |cfg.beats|
    requires !Gate(cfg.downbeatBias, idx) ||
             idx - st.lastCut < MinBeats(SectionAt(cfg.sections, cfg.beats[idx]), cfg.phraseBeats, cfg.aggression)
    ensures Step(cfg, st, idx) == Ok(st)
  {
  }

  /** A beat that passes the gate and the hold does what the selection says. */
  lemma {:induction false} StepSelected(cfg: Config, st: Loop, idx: nat, energy: map<string, real>, active: seq<string>, cands: seq<string>)
    requires ValidConfig(cfg) && CyclerOk(cfg, st.cycler) && idx < |cfg.beats|
    requires Gate(cfg.downbeatBias, idx)
    requires idx - st.lastCut >= MinBeats(SectionAt(cfg.sections, cfg.beats[idx]), cfg.phraseBeats, cfg.aggression)
    requires energy == EnergyMap(cfg.stems, cfg.audio, cfg.beats[idx])
    requires active == ActiveStems(cfg.stems, cfg.audio, cfg.beats[idx])
    requires cands == Eligible(active, st.current, st.lastUsed, cfg.beats[idx], cfg.cooldown)
    ensures var sel := Select(cfg.stems, st.current, active, cands, energy, cfg.pick(idx));
            Step(cfg, st, idx) ==
              match sel
              case NoCut => Ok(st)
              case NoChoice => Err(EmptyChoice)
              case Chosen(stem) =>
                Ok(CutTo(cfg, st, idx, cfg.beats[idx], SectionAt(cfg.sections, cfg.beats[idx]), stem, |cands| > 0))
  {
  }

  /** The loop over the beats (app.py:180-256), from the variables' initial
      values; it stops with an error when a fallback has no stem to draw. */
  method BeatLoop(cfg: Config, vocal: Option<string>, cycler: FreeClipCycler?)
    returns (err: Option<GenError>, timeline: seq<Event>, current: string, lastUsed: map<string, Time>,
             lastCut: int, ghost picks: seq<Pick>)
    requires ValidConfig(cfg) && |cfg.stems| > 0
    requires cfg.clips == ClipsOf(cycler)
    requires cycler != null ==> cycler.Valid()
    requires CyclerOk(cfg, CyclerOf(cycler))
    modifies cycler
    ensures cycler != null ==> cycler.Valid()
    ensures var f := Final(cfg, old(CyclerOf(cycler)));
            && (err.Some? <==> f.Err?)
            && (err.Some? ==> err.value == f.error)
            && (err.None? ==> f.value == Loop(timeline, picks, current, lastUsed, lastCut, CyclerOf(cycler)))
  {
    ghost var c0 := CyclerOf(cycler);
    var stems := cfg.stems;
    timeline := [];
    current := stems[0];
    lastUsed := map s | s in stems :: NeverUsed;
    lastCut := NeverCut;
    picks := [];
    assert Init(cfg, c0) == Loop(timeline, picks, current, lastUsed, lastCut, CyclerOf(cycler));
    for idx := 0 to |cfg.beats|
      invariant cycler != null ==> cycler.Valid()
      invariant CyclerOk(cfg, CyclerOf(cycler))
      invariant forall s :: s in stems ==> s in lastUsed
      invariant Run(cfg, Loop(timeline, picks, current, lastUsed, lastCut, CyclerOf(cycler)), idx) == Final(cfg, c0)
    {
      ghost var st := Loop(timeline, picks, current, lastUsed, lastCut, CyclerOf(cycler));
      if cfg.beats[idx] >= cfg.songLength {
        break;
      }
      var stepErr;
      stepErr, timeline, current, lastUsed, lastCut, picks := BeatStep(cfg, vocal, cycler, st, timeline, current, lastUsed, lastCut, idx);
      if stepErr.Some? {
        return stepErr, timeline, current, lastUsed, lastCut, picks;
      }
    }
    err := None;
  }

  /** One pass of the loop body at a beat before the end of the song
      (app.py:184-256): the gate, the hold, the choice and the cut. */
  method BeatStep(cfg: Config, vocal: Option<string>, cycler: FreeClipCycler?, ghost st: Loop,
                  timeline0: seq<Event>, current0: string, lastUsed0: map<string, Time>, lastCut0: int, idx: nat)
    returns (err: Option<GenError>, timeline: seq<Event>, current: string, lastUsed: map<string, Time>,
             lastCut: int, ghost picks: seq<Pick>)
    requires ValidConfig(cfg) && cfg.clips == ClipsOf(cycler)
    requires cycler != null ==> cycler.Valid()
    requires st.cycler == CyclerOf(cycler) && CyclerOk(cfg, st.cycler)
    requires st.timeline == timeline0 && st.current == current0 && st.lastUsed == lastUsed0 && st.lastCut == lastCut0
    requires forall s :: s in cfg.stems ==> s in lastUsed0
    requires idx < |cfg.beats|
    modifies cycler
    ensures cycler != null ==> cycler.Valid()
    ensures forall s :: s in cfg.stems ==> s in lastUsed
    ensures err.Some? ==> Step(cfg, st, idx) == Err(err.value)
    ensures err.None? ==> Step(cfg, st, idx) == Ok(Loop(timeline, picks, current, lastUsed, lastCut, CyclerOf(cycler)))
  {
    timeline, current, lastUsed, lastCut, picks := timeline0, current0, lastUsed0, lastCut0, st.picks;
    err := None;
    var t := cfg.beats[idx];
    if cfg.downbeatBias > 0 && idx % cfg.downbeatBias != 0 {
      StepHeld(cfg, st, idx);
      return;
    }
    var section := SectionAt(cfg.sections, t);
    var minBeats := MinBeats(section, cfg.phraseBeats, cfg.aggression);
    if idx - lastCut < minBeats {
      StepHeld(cfg, st, idx);
      return;
    }
    var sel, byEnergy := ChooseAt(cfg.stems, cfg.audio, vocal, current, lastUsed, t, cfg.cooldown, cfg.pick(idx));
    StepSelected(cfg, st, idx, EnergyMap(cfg.stems, cfg.audio, t), ActiveStems(cfg.stems, cfg.audio, t),
                 Eligible(ActiveStems(cfg.stems, cfg.audio, t), current, lastUsed, t, cfg.cooldown));
    if sel.NoChoice? {
      err := Some(EmptyChoice);
    } else if sel.Chosen? {
      timeline, picks, lastUsed := MakeCut(cfg, cycler, st, timeline, lastUsed, idx, t, section, sel.stem, byEnergy);
      current := sel.stem;
      lastCut := idx;
    }
  }

  /** Making the cut at an accepted beat (app.py:227-256): a free clip from
      the cycler when the roll asks for one, the stem's video otherwise. */
  method MakeCut(cfg: Config, cycler: FreeClipCycler?, ghost st: Loop, timeline0: seq<Event>,
                 lastUsed0: map<string, Time>, idx: nat, t: Time, section: Label, stem: string, byEnergy: bool)
    returns (timeline: seq<Event>, ghost picks: seq<Pick>, lastUsed: map<string, Time>)
    requires ValidConfig(cfg) && cfg.clips == ClipsOf(cycler)
    requires cycler != null ==> cycler.Valid()
    requires st.timeline == timeline0 && st.lastUsed == lastUsed0
    requires st.cycler == CyclerOf(cycler) && CyclerOk(cfg, st.cycler)
    modifies cycler
    ensures cycler != null ==> cycler.Valid()
    ensures CutTo(cfg, st, idx, t, section, stem, byEnergy) == Loop(timeline, picks, stem, lastUsed, idx, CyclerOf(cycler))
    ensures lastUsed == lastUsed0[stem := t]
  {
    var isFinalCut := t >= cfg.songLength - FinalMargin;
    var useFree := cycler != null && !isFinalCut && cfg.roll(idx) < cfg.freeProbability;
    if useFree {
      var clip, transform := cycler.Next();
      timeline := timeline0 + [Event(t, None, Free(clip, transform), Some(idx), Some(section))];
    } else {
      timeline := timeline0 + [Event(t, None, Stem(stem), Some(idx), Some(section))];
    }
    picks := st.picks + [Pick(stem, byEnergy)];
    lastUsed := lastUsed0[stem := t];
  }

  /** `generate_timeline` as written. */
  method GenerateTimeline(audioFiles: seq<AudioFile>, videoFiles: seq<string>, beats: seq<Time>, sections: seq<Section>,
                          cooldown: Time, songLength: Time, aggression: real, phraseBeats: nat, downbeatBias: nat,
                          cycler: FreeClipCycler?, freeProbability: real, pick: nat -> nat, roll: nat -> real)
    returns (r: Result<(seq<Event>, seq<string>, map<string, string>), GenError>)
    requires cycler != null ==> cycler.Valid() && |cycler.clips| > 0
    modifies cycler
    ensures cycler != null ==> cycler.Valid()
    ensures var cfg := Setup(audioFiles, videoFiles, beats, sections, cooldown, songLength, aggression, phraseBeats,
                             downbeatBias, ClipsOf(cycler), freeProbability, pick, roll);
            var f := Final(cfg, old(CyclerOf(cycler)));
            && (r.Err? <==> f.Err?)
            && (r.Err? ==> r.error == f.error)
            && (r.Ok? ==> r.value == (Finish(cfg, f.value), cfg.stems, VideoIndex(videoFiles)))
            && (r.Ok? ==> CyclerOf(cycler) == f.value.cycler)
  {
    var cfg := Setup(audioFiles, videoFiles, beats, sections, cooldown, songLength, aggression, phraseBeats,
                     downbeatBias, ClipsOf(cycler), freeProbability, pick, roll);
    var videoMap := VideoIndex(videoFiles);
    var timeline := GenerateFrom(cfg, cycler);
    if timeline.Err? {
      return Err(timeline.error);
    }
    return Ok((timeline.value, cfg.stems, videoMap));
  }

  /** The body of `generate_timeline` once the stems are matched: the beat
      loop and the closing cut (app.py:169-265). */
  method GenerateFrom(cfg: Config, cycler: FreeClipCycler?) returns (r: Result<seq<Event>, GenError>)
    requires ValidConfig(cfg) && cfg.clips == ClipsOf(cycler)
    requires cycler != null ==> cycler.Valid()
    requires CyclerOk(cfg, CyclerOf(cycler))
    modifies cycler
    ensures cycler != null ==> cycler.Valid()
    ensures var f := Final(cfg, old(CyclerOf(cycler)));
            && (r.Err? <==> f.Err?)
            && (r.Err? ==> r.error == f.error)
            && (r.Ok? ==> r.value == Finish(cfg, f.value) && CyclerOf(cycler) == f.value.cycler)
  {
    ghost var f := Final(cfg, CyclerOf(cycler));
    var stems := cfg.stems;
    if |stems| == 0 {
      return Err(NoMatchingStems);
    }
    var vocal := FindVocal(stems);
    var err, timeline, current, lastUsed, lastCut, picks := BeatLoop(cfg, vocal, cycler);
    if err.Some? {
      return Err(err.value);
    }
    ghost var last := Loop(timeline, picks, current, lastUsed, lastCut, CyclerOf(cycler));
    assert f == Ok(last);
    if |timeline| == 0 || timeline[|timeline| - 1].time < cfg.songLength {
      timeline := timeline + [Event(cfg.songLength, None, Stem(current), Some(|cfg.beats|),
                                    Some(SectionAt(cfg.sections, cfg.songLength)))];
    }
    assert timeline == Finish(cfg, last);
    r := Ok(timeline);
  }
}
