/** What the beat loop of `generate_timeline` (app.py:175-265) guarantees about
    the timeline it builds: every entry sits on an admissible beat, cuts are
    spaced by the minimum hold, a cut always changes the stem, loudness picks
    respect the cooldown, and the free clips are the cycler's own sequence. */
module TimelineProps {
  import opened Common
  import opened Sections
  import opened Cycling
  import opened Events
  import opened Matching
  import opened Timeline

  /** The beat an entry was cut on (0 for an entry that carries none). */
  ghost function BeatOf(e: Event): nat
  {
    if e.beat.Some? then e.beat.value else 0
  }

  /** An entry the loop made before beat `idx`: on a beat the downbeat gate
      lets through and that lies before the end of the song, at that beat's
      time, with no end of its own and labelled with the section holding it. */
  ghost predicate OnBeat(cfg: Config, e: Event, idx: nat)
    requires idx <= |cfg.beats|
  {
    && e.beat.Some? && e.beat.value < idx
    && e.time == cfg.beats[e.beat.value]
    && e.time < cfg.songLength
    && Gate(cfg.downbeatBias, e.beat.value)
    && e.end.None?
    && e.section == Some(SectionAt(cfg.sections, e.time))
  }

  /** The time of the last of the first `n` cuts that went to `s`, or the
      initial `last_used` value when none did. */
  ghost function LastUse(tl: seq<Event>, picks: seq<Pick>, s: string, n: nat): Time
    requires n <= |tl| && n <= |picks|
  {
    if n == 0 then NeverUsed
    else if picks[n - 1].stem == s then tl[n - 1].time
    else LastUse(tl, picks, s, n - 1)
  }

  /** The clips (with their transforms) of the free entries among the first
      `n`, in order. */
  ghost function FreeShown(tl: seq<Event>, n: nat): seq<(string, seq<Transform>)>
    requires n <= |tl|
  {
    if n == 0 then []
    else
      var e := tl[n - 1];
      FreeShown(tl, n - 1) + (if e.kind.Free? then [(e.kind.clip, e.kind.transform)] else [])
  }

  ghost predicate OnBeats(cfg: Config, st: Loop, idx: nat)
    requires idx <= |cfg.beats|
  {
    && |st.timeline| == |st.picks|
    && forall i :: 0 <= i < |st.timeline| ==> OnBeat(cfg, st.timeline[i], idx)
  }

  /** Beats of successive entries increase, each cut waits at least the
      minimum hold of its section, and `last_cut_beat` is the last entry's
      beat. */
  ghost predicate Spaced(cfg: Config, st: Loop)
  {
    var tl := st.timeline;
    && (forall i :: 0 < i < |tl| ==> BeatOf(tl[i - 1]) < BeatOf(tl[i]))
    && (forall i :: 0 < i < |tl| ==>
          BeatOf(tl[i]) - BeatOf(tl[i - 1]) >= MinBeats(SectionAt(cfg.sections, tl[i].time), cfg.phraseBeats, cfg.aggression))
    && st.lastCut == if |tl| == 0 then NeverCut else BeatOf(tl[|tl| - 1])
  }

  /** Every pick is a matched stem, `current` is the last pick (the first
      stem before any), and every cut changes the stem. */
  ghost predicate Picked(cfg: Config, st: Loop)
    requires |cfg.stems| > 0
  {
    var p := st.picks;
    && (forall i :: 0 <= i < |p| ==> p[i].stem in cfg.stems)
    && st.current == (if |p| == 0 then cfg.stems[0] else p[|p| - 1].stem)
    && (|p| > 0 ==> p[0].stem != cfg.stems[0])
    && (forall i :: 0 < i < |p| ==> p[i].stem != p[i - 1].stem)
  }

  /** An entry shows a free clip exactly when the roll asks for one, and
      otherwise the stem picked for it. */
  ghost predicate KindOk(cfg: Config, e: Event, p: Pick)
  {
    && (e.kind.Free? <==> UseFree(cfg, e.time, BeatOf(e)))
    && (e.kind.Stem? || e.kind.Free?)
    && (e.kind.Stem? ==> e.kind.stem == p.stem)
  }

  ghost predicate Kinds(cfg: Config, st: Loop)
  {
    forall i :: 0 <= i < |st.timeline| && i < |st.picks| ==> KindOk(cfg, st.timeline[i], st.picks[i])
  }

  /** `last_used` holds every matched stem, with the time it was last cut to. */
  ghost predicate Uses(cfg: Config, st: Loop)
  {
    && |st.timeline| == |st.picks|
    && (forall s :: s in st.lastUsed <==> s in cfg.stems)
    && forall s :: s in st.lastUsed ==> st.lastUsed[s] == LastUse(st.timeline, st.picks, s, |st.timeline|)
  }

  /** A pick on loudness went to an active stem whose cooldown had passed
      since its previous cut; a random pick happened with no stem active. */
  ghost predicate PickOk(cfg: Config, tl: seq<Event>, picks: seq<Pick>, i: nat)
    requires i < |tl| && i < |picks|
  {
    var p := picks[i];
    var t := tl[i].time;
    && (p.byEnergy ==> IsActive(cfg.audio, t, p.stem) && t - LastUse(tl, picks, p.stem, i) >= cfg.cooldown)
    && (!p.byEnergy ==> forall s :: s in cfg.stems ==> !IsActive(cfg.audio, t, s))
  }

  ghost predicate Cooled(cfg: Config, st: Loop)
  {
    forall i :: 0 <= i < |st.timeline| && i < |st.picks| ==> PickOk(cfg, st.timeline, st.picks, i)
  }

  /** The free entries show what the cycler handed out from its starting
      state `c0`, and the cycler has moved on once per free entry. */
  ghost predicate Cycled(cfg: Config, c0: CyclerState, st: Loop)
    requires ValidConfig(cfg) && CyclerOk(cfg, c0)
  {
    var shown := FreeShown(st.timeline, |st.timeline|);
    if cfg.clips.Some? then
      st.cycler == AdvanceBy(c0, |cfg.clips.value|, |shown|) && shown == Emitted(cfg.clips.value, c0, |shown|)
    else
      st.cycler == c0 && shown == []
  }

  /** What holds of the loop's variables after the beats before `idx`. */
  ghost predicate Inv(cfg: Config, c0: CyclerState, st: Loop, idx: nat)
    requires ValidConfig(cfg) && CyclerOk(cfg, c0) && |cfg.stems| > 0 && idx <= |cfg.beats|
  {
    && OnBeats(cfg, st, idx) && Spaced(cfg, st) && Picked(cfg, st) && Kinds(cfg, st)
    && Uses(cfg, st) && Cooled(cfg, st) && Cycled(cfg, c0, st)
  }

  /** What a cut at beat `idx` to `stem` may assume: the beat is before the
      end of the song and passes the gate and the hold, the stem is matched
      and not on screen, and it won on loudness among eligible stems or was
      drawn with no stem active. */
  ghost predicate CutAllowed(cfg: Config, st: Loop, idx: nat, stem: string, byEnergy: bool)
  {
    && idx < |cfg.beats| && cfg.beats[idx] < cfg.songLength
    && Gate(cfg.downbeatBias, idx)
    && idx - st.lastCut >= MinBeats(SectionAt(cfg.sections, cfg.beats[idx]), cfg.phraseBeats, cfg.aggression)
    && stem in cfg.stems && stem != st.current
    && (byEnergy ==> IsActive(cfg.audio, cfg.beats[idx], stem)
                     && IsEligible(st.current, st.lastUsed, cfg.beats[idx], cfg.cooldown, stem))
    && (!byEnergy ==> forall s :: s in cfg.stems ==> !IsActive(cfg.audio, cfg.beats[idx], s))
  }

  ghost function CutAt(cfg: Config, st: Loop, idx: nat, stem: string, byEnergy: bool): Loop
    requires ValidConfig(cfg) && CyclerOk(cfg, st.cycler) && idx < |cfg.beats|
  {
    CutTo(cfg, st, idx, cfg.beats[idx], SectionAt(cfg.sections, cfg.beats[idx]), stem, byEnergy)
  }

  lemma {:induction false} LastUseAppend(tl: seq<Event>, picks: seq<Pick>, e: Event, p: Pick, s: string, n: nat)
    requires n <= |tl| && n <= |picks|
    ensures LastUse(tl + [e], picks + [p], s, n) == LastUse(tl, picks, s, n)
  {
    if n > 0 {
      LastUseAppend(tl, picks, e, p, s, n - 1);
    }
  }

  lemma {:induction false} FreeShownAppend(tl: seq<Event>, e: Event, n: nat)
    requires n <= |tl|
    ensures FreeShown(tl + [e], n) == FreeShown(tl, n)
  {
    if n > 0 {
      FreeShownAppend(tl, e, n - 1);
    }
  }

  lemma {:induction false} InitInv(cfg: Config, c0: CyclerState)
    requires ValidConfig(cfg) && CyclerOk(cfg, c0) && |cfg.stems| > 0
    ensures Inv(cfg, c0, Init(cfg, c0), 0)
  {
  }

  /** The invariant speaks of later beats only through `beat < idx`. */
  lemma {:induction false} InvGrows(cfg: Config, c0: CyclerState, st: Loop, idx: nat, idx': nat)
    requires ValidConfig(cfg) && CyclerOk(cfg, c0) && |cfg.stems| > 0 && idx <= idx' <= |cfg.beats|
    requires Inv(cfg, c0, st, idx)
    ensures Inv(cfg, c0, st, idx')
  {
    forall i | 0 <= i < |st.timeline|
      ensures OnBeat(cfg, st.timeline[i], idx')
    {
      assert OnBeat(cfg, st.timeline[i], idx);
    }
  }

  lemma {:induction false} CutOnBeats(cfg: Config, st: Loop, idx: nat, stem: string, byEnergy: bool)
    requires ValidConfig(cfg) && CyclerOk(cfg, st.cycler) && idx < |cfg.beats|
    requires OnBeats(cfg, st, idx) && CutAllowed(cfg, st, idx, stem, byEnergy)
    ensures OnBeats(cfg, CutAt(cfg, st, idx, stem, byEnergy), idx + 1)
  {
    var next := CutAt(cfg, st, idx, stem, byEnergy);
    forall i | 0 <= i < |next.timeline|
      ensures OnBeat(cfg, next.timeline[i], idx + 1)
    {
      if i < |st.timeline| {
        assert next.timeline[i] == st.timeline[i];
        assert OnBeat(cfg, st.timeline[i], idx);
      }
    }
  }

  /** Appending the entry for a cut at beat `idx` keeps the spacing. */
  lemma {:induction false} AppendSpaced(cfg: Config, st: Loop, next: Loop, e: Event, idx: nat)
    requires Spaced(cfg, st)
    requires next.timeline == st.timeline + [e] && BeatOf(e) == idx && next.lastCut == idx
    requires |st.timeline| > 0 ==> BeatOf(st.timeline[|st.timeline| - 1]) < idx
    requires idx - st.lastCut >= MinBeats(SectionAt(cfg.sections, e.time), cfg.phraseBeats, cfg.aggression)
    ensures Spaced(cfg, next)
  {
    var tl, tl' := st.timeline, next.timeline;
    var n := |tl|;
    forall i | 0 < i < |tl'|
      ensures BeatOf(tl'[i - 1]) < BeatOf(tl'[i])
      ensures BeatOf(tl'[i]) - BeatOf(tl'[i - 1])
              >= MinBeats(SectionAt(cfg.sections, tl'[i].time), cfg.phraseBeats, cfg.aggression)
    {
      assert tl'[i - 1] == tl[i - 1];
      if i < n {
        assert tl'[i] == tl[i];
      } else {
        assert tl'[i] == e && st.lastCut == BeatOf(tl[n - 1]);
      }
    }
  }

  lemma {:induction false} CutSpaced(cfg: Config, st: Loop, idx: nat, stem: string, byEnergy: bool)
    requires ValidConfig(cfg) && CyclerOk(cfg, st.cycler) && idx < |cfg.beats|
    requires OnBeats(cfg, st, idx) && Spaced(cfg, st) && CutAllowed(cfg, st, idx, stem, byEnergy)
    ensures Spaced(cfg, CutAt(cfg, st, idx, stem, byEnergy))
  {
    var tl := st.timeline;
    var next := CutAt(cfg, st, idx, stem, byEnergy);
    var n := |tl|;
    var e := next.timeline[n];
    assert next.timeline == tl + [e];
    if n > 0 {
      assert OnBeat(cfg, tl[n - 1], idx);
    }
    AppendSpaced(cfg, st, next, e, idx);
  }

  /** Beats that increase from each entry to the next increase over any two. */
  lemma {:induction false} AdjacentBeatsIncrease(tl: seq<Event>, i: nat, j: nat)
    requires forall k :: 0 < k < |tl| ==> BeatOf(tl[k - 1]) < BeatOf(tl[k])
    requires i < j < |tl|
    ensures BeatOf(tl[i]) < BeatOf(tl[j])
    decreases j - i
  {
    if i + 1 < j {
      AdjacentBeatsIncrease(tl, i, j - 1);
    }
  }

  lemma {:induction false} CutPicked(cfg: Config, st: Loop, idx: nat, stem: string, byEnergy: bool)
    requires ValidConfig(cfg) && CyclerOk(cfg, st.cycler) && idx < |cfg.beats| && |cfg.stems| > 0
    requires Picked(cfg, st) && CutAllowed(cfg, st, idx, stem, byEnergy)
    ensures Picked(cfg, CutAt(cfg, st, idx, stem, byEnergy))
  {
    var next := CutAt(cfg, st, idx, stem, byEnergy);
    assert next.picks == st.picks + [Pick(stem, byEnergy)] && next.current == stem;
    AppendPicked(cfg, st, next, stem, byEnergy);
  }

  /** Appending the pick for a cut to a matched stem other than the one on
      screen keeps the picks well formed. */
  lemma {:induction false} AppendPicked(cfg: Config, st: Loop, next: Loop, stem: string, byEnergy: bool)
    requires |cfg.stems| > 0 && Picked(cfg, st)
    requires next.picks == st.picks + [Pick(stem, byEnergy)] && next.current == stem
    requires stem in cfg.stems && stem != st.current
    ensures Picked(cfg, next)
  {
    var p, p' := st.picks, next.picks;
    forall i | 0 <= i < |p'|
      ensures p'[i].stem in cfg.stems
      ensures i > 0 ==> p'[i].stem != p'[i - 1].stem
    {
      if i < |p| {
        assert p'[i] == p[i];
      }
      if 0 < i {
        assert p'[i - 1] == p[i - 1];
      }
    }
  }

  lemma {:induction false} CutKinds(cfg: Config, st: Loop, idx: nat, stem: string, byEnergy: bool)
    requires ValidConfig(cfg) && CyclerOk(cfg, st.cycler) && idx < |cfg.beats|
    requires OnBeats(cfg, st, idx) && Kinds(cfg, st) && CutAllowed(cfg, st, idx, stem, byEnergy)
    ensures Kinds(cfg, CutAt(cfg, st, idx, stem, byEnergy))
  {
    var next := CutAt(cfg, st, idx, stem, byEnergy);
    assert next.timeline[..|st.timeline|] == st.timeline;
    assert next.picks[..|st.picks|] == st.picks;
  }

  lemma {:induction false} CutUses(cfg: Config, st: Loop, idx: nat, stem: string, byEnergy: bool)
    requires ValidConfig(cfg) && CyclerOk(cfg, st.cycler) && idx < |cfg.beats|
    requires Uses(cfg, st) && CutAllowed(cfg, st, idx, stem, byEnergy)
    ensures Uses(cfg, CutAt(cfg, st, idx, stem, byEnergy))
  {
    var next := CutAt(cfg, st, idx, stem, byEnergy);
    var n := |st.timeline|;
    var e := next.timeline[n];
    var p := next.picks[n];
    assert next.timeline == st.timeline + [e] && next.picks == st.picks + [p];
    forall s | s in next.lastUsed
      ensures next.lastUsed[s] == LastUse(next.timeline, next.picks, s, n + 1)
    {
      if s != stem {
        LastUseAppend(st.timeline, st.picks, e, p, s, n);
      }
    }
  }

  lemma {:induction false} CutCooled(cfg: Config, st: Loop, idx: nat, stem: string, byEnergy: bool)
    requires ValidConfig(cfg) && CyclerOk(cfg, st.cycler) && idx < |cfg.beats|
    requires Uses(cfg, st) && Cooled(cfg, st) && CutAllowed(cfg, st, idx, stem, byEnergy)
    ensures Cooled(cfg, CutAt(cfg, st, idx, stem, byEnergy))
  {
    var next := CutAt(cfg, st, idx, stem, byEnergy);
    var n := |st.timeline|;
    var e := next.timeline[n];
    var p := next.picks[n];
    assert next.timeline == st.timeline + [e] && next.picks == st.picks + [p];
    forall i | 0 <= i < n + 1
      ensures PickOk(cfg, next.timeline, next.picks, i)
    {
      LastUseAppend(st.timeline, st.picks, e, p, next.picks[i].stem, i);
      if i < n {
        assert PickOk(cfg, st.timeline, st.picks, i);
        assert next.timeline[i] == st.timeline[i] && next.picks[i] == st.picks[i];
      }
    }
  }

  lemma {:induction false} CutCycled(cfg: Config, c0: CyclerState, st: Loop, idx: nat, stem: string, byEnergy: bool)
    requires ValidConfig(cfg) && CyclerOk(cfg, c0) && CyclerOk(cfg, st.cycler) && idx < |cfg.beats|
    requires Cycled(cfg, c0, st)
    ensures Cycled(cfg, c0, CutAt(cfg, st, idx, stem, byEnergy))
  {
    var next := CutAt(cfg, st, idx, stem, byEnergy);
    var n := |st.timeline|;
    var e := next.timeline[n];
    assert next.timeline == st.timeline + [e];
    FreeShownAppend(st.timeline, e, n);
    var k := |FreeShown(st.timeline, n)|;
    if cfg.clips.Some? && e.kind.Free? {
      var clips := cfg.clips.value;
      EmittedSplit(clips, c0, k, 1);
      assert Emitted(clips, AdvanceBy(c0, |clips|, k), 1) == [Emit(clips, st.cycler)];
      assert AdvanceBy(AdvanceBy(c0, |clips|, k), |clips|, 1) == Advance(st.cycler, |clips|);
    }
  }

  /** A cut the loop is allowed to make keeps the invariant. */
  lemma {:induction false} CutKeepsInv(cfg: Config, c0: CyclerState, st: Loop, idx: nat, stem: string, byEnergy: bool)
    requires ValidConfig(cfg) && CyclerOk(cfg, c0) && CyclerOk(cfg, st.cycler) && |cfg.stems| > 0
    requires idx < |cfg.beats| && Inv(cfg, c0, st, idx) && CutAllowed(cfg, st, idx, stem, byEnergy)
    ensures Inv(cfg, c0, CutAt(cfg, st, idx, stem, byEnergy), idx + 1)
  {
    CutOnBeats(cfg, st, idx, stem, byEnergy);
    CutSpaced(cfg, st, idx, stem, byEnergy);
    CutPicked(cfg, st, idx, stem, byEnergy);
    CutKinds(cfg, st, idx, stem, byEnergy);
    CutUses(cfg, st, idx, stem, byEnergy);
    CutCooled(cfg, st, idx, stem, byEnergy);
    CutCycled(cfg, c0, st, idx, stem, byEnergy);
  }

  /** One beat before the end of the song keeps the invariant. */
  lemma {:induction false} StepKeepsInv(cfg: Config, c0: CyclerState, st: Loop, idx: nat)
    requires ValidConfig(cfg) && CyclerOk(cfg, c0) && CyclerOk(cfg, st.cycler) && |cfg.stems| > 0
    requires idx < |cfg.beats| && cfg.beats[idx] < cfg.songLength && Inv(cfg, c0, st, idx)
    requires Step(cfg, st, idx).Ok?
    ensures Inv(cfg, c0, Step(cfg, st, idx).value, idx + 1)
  {
    var t := cfg.beats[idx];
    var section := SectionAt(cfg.sections, t);
    if !Gate(cfg.downbeatBias, idx) || idx - st.lastCut < MinBeats(section, cfg.phraseBeats, cfg.aggression) {
      StepHeld(cfg, st, idx);
      InvGrows(cfg, c0, st, idx, idx + 1);
    } else {
      var energy := EnergyMap(cfg.stems, cfg.audio, t);
      var active := ActiveStems(cfg.stems, cfg.audio, t);
      var cands := Eligible(active, st.current, st.lastUsed, t, cfg.cooldown);
      StepSelected(cfg, st, idx, energy, active, cands);
      var sel := Select(cfg.stems, st.current, active, cands, energy, cfg.pick(idx));
      if sel.Chosen? {
        CutKeepsInv(cfg, c0, st, idx, sel.stem, |cands| > 0);
      } else {
        InvGrows(cfg, c0, st, idx, idx + 1);
      }
    }
  }

  /** The loop from beat `idx` on keeps the invariant. */
  lemma {:induction false} RunKeepsInv(cfg: Config, c0: CyclerState, st: Loop, idx: nat)
    requires ValidConfig(cfg) && CyclerOk(cfg, c0) && CyclerOk(cfg, st.cycler) && |cfg.stems| > 0
    requires idx <= |cfg.beats| && Inv(cfg, c0, st, idx)
    requires Run(cfg, st, idx).Ok?
    ensures Inv(cfg, c0, Run(cfg, st, idx).value, |cfg.beats|)
    decreases |cfg.beats| - idx
  {
    if idx == |cfg.beats| || cfg.beats[idx] >= cfg.songLength {
      InvGrows(cfg, c0, st, idx, |cfg.beats|);
    } else {
      StepKeepsInv(cfg, c0, st, idx);
      RunKeepsInv(cfg, c0, Step(cfg, st, idx).value, idx + 1);
    }
  }

  /** The invariant of the finished loop. */
  lemma {:induction false} FinalInv(cfg: Config, c0: CyclerState)
    requires ValidConfig(cfg) && CyclerOk(cfg, c0) && Final(cfg, c0).Ok?
    ensures |cfg.stems| > 0 && Inv(cfg, c0, Final(cfg, c0).value, |cfg.beats|)
  {
    InitInv(cfg, c0);
    RunKeepsInv(cfg, c0, Init(cfg, c0), 0);
  }

  /** Every entry of the loop sits on a beat before the end of the song that
      the downbeat gate lets through, at that beat's time, with no end of its
      own and with the section holding that time (app.py:180-189, 236-252). */
  lemma {:induction false} FinalOnBeats(cfg: Config, c0: CyclerState)
    requires ValidConfig(cfg) && CyclerOk(cfg, c0) && Final(cfg, c0).Ok?
    ensures var tl := Final(cfg, c0).value.timeline;
      forall i :: 0 <= i < |tl| ==>
        && tl[i].beat.Some? && tl[i].beat.value < |cfg.beats|
        && tl[i].time == cfg.beats[tl[i].beat.value] && tl[i].time < cfg.songLength
        && Gate(cfg.downbeatBias, tl[i].beat.value)
        && tl[i].end.None? && tl[i].section == Some(SectionAt(cfg.sections, tl[i].time))
  {
    FinalInv(cfg, c0);
    var tl := Final(cfg, c0).value.timeline;
    forall i | 0 <= i < |tl|
      ensures OnBeat(cfg, tl[i], |cfg.beats|)
    {
    }
  }

  /** The entries' beats strictly increase, each cut comes at least the
      minimum hold of its section after the previous one, and
      `last_cut_beat` ends as the beat of the last entry (app.py:191-194,
      256). */
  lemma {:induction false} FinalSpacing(cfg: Config, c0: CyclerState)
    requires ValidConfig(cfg) && CyclerOk(cfg, c0) && Final(cfg, c0).Ok?
    ensures var st := Final(cfg, c0).value;
      var tl := st.timeline;
      && (forall i, j :: 0 <= i < j < |tl| ==> BeatOf(tl[i]) < BeatOf(tl[j]))
      && (forall i :: 0 < i < |tl| ==>
            BeatOf(tl[i]) - BeatOf(tl[i - 1]) >= MinBeats(SectionAt(cfg.sections, tl[i].time), cfg.phraseBeats, cfg.aggression))
      && st.lastCut == if |tl| == 0 then NeverCut else BeatOf(tl[|tl| - 1])
  {
    FinalInv(cfg, c0);
    var tl := Final(cfg, c0).value.timeline;
    forall i, j | 0 <= i < j < |tl|
      ensures BeatOf(tl[i]) < BeatOf(tl[j])
    {
      AdjacentBeatsIncrease(tl, i, j);
    }
  }

  /** One pick per entry; every pick is a matched stem; every cut changes the
      stem on screen, starting from the first matched stem; `current` ends as
      the last pick (app.py:175, 217-223, 254). */
  lemma {:induction false} FinalPicks(cfg: Config, c0: CyclerState)
    requires ValidConfig(cfg) && CyclerOk(cfg, c0) && Final(cfg, c0).Ok?
    ensures var st := Final(cfg, c0).value;
      var p := st.picks;
      && |cfg.stems| > 0 && |p| == |st.timeline|
      && (forall i :: 0 <= i < |p| ==> p[i].stem in cfg.stems)
      && (|p| > 0 ==> p[0].stem != cfg.stems[0])
      && (forall i :: 0 < i < |p| ==> p[i].stem != p[i - 1].stem)
      && st.current == (if |p| == 0 then cfg.stems[0] else p[|p| - 1].stem)
  {
    FinalInv(cfg, c0);
  }

  /** An entry shows a free clip exactly when the clip roll asks for one
      outside the last 0.05 s of the song, and otherwise shows the stem picked
      for it; the loop makes no intro or outro entries (app.py:224-252). */
  lemma {:induction false} FinalKinds(cfg: Config, c0: CyclerState)
    requires ValidConfig(cfg) && CyclerOk(cfg, c0) && Final(cfg, c0).Ok?
    ensures var st := Final(cfg, c0).value;
      var tl := st.timeline;
      && |st.picks| == |tl|
      && forall i :: 0 <= i < |tl| ==>
           && (tl[i].kind.Free? <==> UseFree(cfg, tl[i].time, BeatOf(tl[i])))
           && (tl[i].kind.Stem? || tl[i].kind.Free?)
           && (tl[i].kind.Stem? ==> tl[i].kind.stem == st.picks[i].stem)
  {
    FinalInv(cfg, c0);
    var st := Final(cfg, c0).value;
    forall i | 0 <= i < |st.timeline|
      ensures KindOk(cfg, st.timeline[i], st.picks[i])
    {
    }
  }

  /** `last_used` ends holding exactly the matched stems, each with the time
      of its last cut, or -999 s for a stem never cut to (app.py:177, 255). */
  lemma {:induction false} FinalLastUsed(cfg: Config, c0: CyclerState)
    requires ValidConfig(cfg) && CyclerOk(cfg, c0) && Final(cfg, c0).Ok?
    ensures var st := Final(cfg, c0).value;
      && |st.picks| == |st.timeline|
      && (forall s :: s in st.lastUsed <==> s in cfg.stems)
      && forall s :: s in st.lastUsed ==> st.lastUsed[s] == LastUse(st.timeline, st.picks, s, |st.timeline|)
  {
    FinalInv(cfg, c0);
  }

  /** A cut decided on loudness goes to a stem that is active at its time
      and whose cooldown has passed since its previous cut; a random cut
      happens only when no stem is active (app.py:206-223). */
  lemma {:induction false} FinalCooldown(cfg: Config, c0: CyclerState)
    requires ValidConfig(cfg) && CyclerOk(cfg, c0) && Final(cfg, c0).Ok?
    ensures var st := Final(cfg, c0).value;
      var tl := st.timeline;
      && |st.picks| == |tl|
      && forall i :: 0 <= i < |tl| ==>
           && (st.picks[i].byEnergy ==>
                 (IsActive(cfg.audio, tl[i].time, st.picks[i].stem)
                  && tl[i].time - LastUse(tl, st.picks, st.picks[i].stem, i) >= cfg.cooldown))
           && (!st.picks[i].byEnergy ==> forall s :: s in cfg.stems ==> !IsActive(cfg.audio, tl[i].time, s))
  {
    FinalInv(cfg, c0);
    var st := Final(cfg, c0).value;
    var tl := st.timeline;
    forall i | 0 <= i < |tl|
      ensures st.picks[i].byEnergy ==>
                (IsActive(cfg.audio, tl[i].time, st.picks[i].stem)
                 && tl[i].time - LastUse(tl, st.picks, st.picks[i].stem, i) >= cfg.cooldown)
      ensures !st.picks[i].byEnergy ==> forall s :: s in cfg.stems ==> !IsActive(cfg.audio, tl[i].time, s)
    {
      assert PickOk(cfg, tl, st.picks, i);
    }
  }

  /** The free entries show, in order, exactly what the cycler hands out
      from its starting state, and the cycler ends advanced once per free
      entry; without a cycler there is no free entry (app.py:227-231). */
  lemma {:induction false} FinalFreeClips(cfg: Config, c0: CyclerState)
    requires ValidConfig(cfg) && CyclerOk(cfg, c0) && Final(cfg, c0).Ok?
    ensures var st := Final(cfg, c0).value;
      var shown := FreeShown(st.timeline, |st.timeline|);
      && (cfg.clips.Some? ==> st.cycler == AdvanceBy(c0, |cfg.clips.value|, |shown|)
                              && shown == Emitted(cfg.clips.value, c0, |shown|))
      && (cfg.clips.None? ==> st.cycler == c0 && forall i :: 0 <= i < |st.timeline| ==> !st.timeline[i].kind.Free?)
  {
    FinalInv(cfg, c0);
    var st := Final(cfg, c0).value;
    if cfg.clips.None? {
      forall i | 0 <= i < |st.timeline|
        ensures !st.timeline[i].kind.Free?
      {
        assert KindOk(cfg, st.timeline[i], st.picks[i]);
      }
    }
  }

  /** The last loudness-based use of a stem is at least as late as any
      earlier cut to it, when the entries' times do not decrease. */
  lemma {:induction false} LastUseLatest(tl: seq<Event>, picks: seq<Pick>, s: string, n: nat, i: nat)
    requires n <= |tl| && n <= |picks| && i < n && picks[i].stem == s
    ensures LastUse(tl, picks, s, n) >= tl[i].time || exists k :: i < k < n && tl[k].time < tl[i].time
  {
    if picks[n - 1].stem != s {
      LastUseLatest(tl, picks, s, n - 1, i);
      if exists k :: i < k < n - 1 && tl[k].time < tl[i].time {
        var k :| i < k < n - 1 && tl[k].time < tl[i].time;
        assert i < k < n;
      }
    } else if n - 1 != i {
      assert i < n - 1 < n;
    }
  }

  /** With the beats in order, two cuts to the same stem of which the later
      was decided on loudness are at least the cooldown apart. */
  lemma {:induction false} CooldownBetweenCuts(cfg: Config, c0: CyclerState, i: nat, j: nat)
    requires ValidConfig(cfg) && CyclerOk(cfg, c0) && Final(cfg, c0).Ok?
    requires NonDecreasing(cfg.beats)
    requires var st := Final(cfg, c0).value;
      && i < j < |st.timeline| && j < |st.picks|
      && st.picks[i].stem == st.picks[j].stem && st.picks[j].byEnergy
    ensures var tl := Final(cfg, c0).value.timeline;
      tl[j].time - tl[i].time >= cfg.cooldown
  {
    FinalCooldown(cfg, c0);
    var st := Final(cfg, c0).value;
    var tl := st.timeline;
    assert tl[j].time - LastUse(tl, st.picks, st.picks[j].stem, j) >= cfg.cooldown;
    LastUseLatest(tl, st.picks, st.picks[j].stem, j, i);
    forall k | i < k < j
      ensures tl[k].time >= tl[i].time
    {
      EntriesInOrder(cfg, c0, i, k);
    }
  }

  /** With the beats in order, a later entry is no earlier than an earlier
      one. */
  lemma {:induction false} EntriesInOrder(cfg: Config, c0: CyclerState, i: nat, j: nat)
    requires ValidConfig(cfg) && CyclerOk(cfg, c0) && Final(cfg, c0).Ok?
    requires NonDecreasing(cfg.beats)
    requires i < j < |Final(cfg, c0).value.timeline|
    ensures var tl := Final(cfg, c0).value.timeline;
      tl[i].time <= tl[j].time
  {
    FinalInv(cfg, c0);
    var tl := Final(cfg, c0).value.timeline;
    AdjacentBeatsIncrease(tl, i, j);
    assert OnBeat(cfg, tl[i], |cfg.beats|) && OnBeat(cfg, tl[j], |cfg.beats|);
  }

  /** The loop itself only fails when the fallback has nothing to draw from:
      every matched stem is the one on screen. */
  lemma {:induction false} RunError(cfg: Config, st: Loop, idx: nat)
    requires ValidConfig(cfg) && CyclerOk(cfg, st.cycler) && idx <= |cfg.beats|
    requires Run(cfg, st, idx).Err?
    ensures Run(cfg, st, idx).error == EmptyChoice
    ensures |cfg.stems| > 0 ==> forall s :: s in cfg.stems ==> s == cfg.stems[0]
    decreases |cfg.beats| - idx
  {
    var r := Step(cfg, st, idx);
    if r.Ok? {
      RunError(cfg, r.value, idx + 1);
    } else {
      var t := cfg.beats[idx];
      var active := ActiveStems(cfg.stems, cfg.audio, t);
      var cands := Eligible(active, st.current, st.lastUsed, t, cfg.cooldown);
      var energy := EnergyMap(cfg.stems, cfg.audio, t);
      StepSelected(cfg, st, idx, energy, active, cands);
      assert Select(cfg.stems, st.current, active, cands, energy, cfg.pick(idx)).NoChoice?;
      if |cfg.stems| > 0 {
        assert cfg.stems[0] in cfg.stems;
      }
    }
  }

  /** A list without repeats and with two or more elements holds an element
      other than its first. */
  lemma {:induction false} TwoDistinct(s: seq<string>)
    requires Distinct(s) && |s| > 1
    ensures s[1] in s && s[1] != s[0]
  {
  }

  /** Generation fails with "no matching stems" exactly when no audio base
      name matches a video base name (app.py:170-171); it fails otherwise
      only when there is a single matched stem, a cut is due, and no stem is
      active (app.py:221). */
  lemma {:induction false} FinalErrors(cfg: Config, c0: CyclerState)
    requires ValidConfig(cfg) && CyclerOk(cfg, c0)
    ensures Final(cfg, c0) == Err(NoMatchingStems) <==> |cfg.stems| == 0
    ensures Final(cfg, c0) == Err(EmptyChoice) && Distinct(cfg.stems) ==> |cfg.stems| == 1
    ensures Final(cfg, c0).Err? ==> Final(cfg, c0).error == NoMatchingStems || Final(cfg, c0).error == EmptyChoice
  {
    if |cfg.stems| > 0 && Final(cfg, c0).Err? {
      if Distinct(cfg.stems) && |cfg.stems| > 1 {
        TwoDistinct(cfg.stems);
        RunError(cfg, Init(cfg, c0), 0);
        assert false;
      } else {
        RunError(cfg, Init(cfg, c0), 0);
      }
    }
  }

  /** The closing entry is always added: every loop entry lies before the end
      of the song, so the closing cut to the current stem at the song's end
      follows the loop's entries (app.py:258-265). */
  lemma {:induction false} FinishCloses(cfg: Config, c0: CyclerState)
    requires ValidConfig(cfg) && CyclerOk(cfg, c0) && Final(cfg, c0).Ok?
    ensures var st := Final(cfg, c0).value;
      Finish(cfg, st) == st.timeline +
        [Event(cfg.songLength, None, Stem(st.current), Some(|cfg.beats|), Some(SectionAt(cfg.sections, cfg.songLength)))]
  {
    FinalInv(cfg, c0);
    var tl := Final(cfg, c0).value.timeline;
    if |tl| > 0 {
      assert OnBeat(cfg, tl[|tl| - 1], |cfg.beats|);
    }
  }

  /** With the beats in order, the generated timeline is in time order. */
  lemma {:induction false} FinishSorted(cfg: Config, c0: CyclerState)
    requires ValidConfig(cfg) && CyclerOk(cfg, c0) && Final(cfg, c0).Ok?
    requires NonDecreasing(cfg.beats)
    ensures SortedByTime(Finish(cfg, Final(cfg, c0).value))
  {
    FinishCloses(cfg, c0);
    FinalOnBeats(cfg, c0);
    var tl := Final(cfg, c0).value.timeline;
    var out := Finish(cfg, Final(cfg, c0).value);
    forall i, j | 0 <= i < j < |out|
      ensures out[i].time <= out[j].time
    {
      if j < |tl| {
        EntriesInOrder(cfg, c0, i, j);
      } else {
        assert out[i] == tl[i];
      }
    }
  }

  /** Truncation toward zero never reverses an order. */
  lemma {:induction false} TruncMonotone(x: real, y: real)
    requires x <= y
    ensures Trunc(x) <= Trunc(y)
  {
    if x < 0.0 && 0.0 <= y {
    } else if 0.0 <= x {
      assert x.Floor <= y.Floor;
    } else {
      assert (-y).Floor <= (-x).Floor;
    }
  }

  lemma {:induction false} NatTimesNonNegative(n: nat, d: real)
    requires d >= 0.0
    ensures (n as real) * d >= 0.0
  {
    if n > 0 {
      NatTimesNonNegative(n - 1, d);
      assert (n as real) * d == ((n - 1) as real) * d + d;
    }
  }

  /** A more aggressive chorus never lengthens the chorus hold
      (app.py:191). */
  lemma {:induction false} ChorusHoldShrinks(phraseBeats: nat, a1: real, a2: real)
    requires a1 <= a2
    ensures MinBeats(Chorus, phraseBeats, a2) <= MinBeats(Chorus, phraseBeats, a1)
  {
    var x1 := ChorusHoldIs(phraseBeats, a1);
    var x2 := ChorusHoldIs(phraseBeats, a2);
    ScaledTruncMonotone(phraseBeats, a1, a2);
    MaxMonotone(1, Trunc(x2), Trunc(x1));
  }

  lemma {:induction false} ScaledTruncMonotone(n: nat, a1: real, a2: real)
    requires a1 <= a2
    ensures Trunc((n as real) * (1.0 - a2)) <= Trunc((n as real) * (1.0 - a1))
  {
    var lo, hi := ScaleMonotone(n, 1.0 - a2, 1.0 - a1);
    TruncMonotone(lo, hi);
  }

  lemma {:induction false} ScaleMonotone(n: nat, y: real, z: real) returns (ny: real, nz: real)
    requires y <= z
    ensures ny == (n as real) * y && nz == (n as real) * z
    ensures ny <= nz
  {
    ny, nz := (n as real) * y, (n as real) * z;
    NatTimesNonNegative(n, z - y);
    assert (n as real) * (z - y) == nz - ny;
  }

  /** The chorus hold is the truncated product, kept apart so that the
      product is not unfolded where it is not needed. */
  lemma {:induction false} ChorusHoldIs(phraseBeats: nat, a: real) returns (x: real)
    ensures x == (phraseBeats as real) * (1.0 - a)
    ensures MinBeats(Chorus, phraseBeats, a) == Max(1, Trunc(x))
  {
    x := (phraseBeats as real) * (1.0 - a);
  }

  lemma {:induction false} MaxMonotone(a: int, b: int, c: int)
    requires b <= c
    ensures Max(a, b) <= Max(a, c)
  {
  }

  /** With no aggression a chorus holds for the phrase length (at least one
      beat); at full aggression or more it may cut on every beat
      (app.py:191). */
  lemma {:induction false} ChorusHoldExtremes(phraseBeats: nat, a: real)
    ensures MinBeats(Chorus, phraseBeats, 0.0) == Max(1, phraseBeats)
    ensures a >= 1.0 ==> MinBeats(Chorus, phraseBeats, a) == 1
  {
    var p := phraseBeats as real;
    assert p * (1.0 - 0.0) == p;
    assert Trunc(p) == phraseBeats;
    if a >= 1.0 {
      assert p * (1.0 - a) <= 0.0 by {
        assert p * (1.0 - a) == -(p * (a - 1.0));
      }
    }
  }
}
