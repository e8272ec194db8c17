# StemSync Video Editor: the cut planner, in Dafny

StemSync Video Editor takes a mixed song and one audio/video pair per
instrument stem. It cuts a music video that switches between the stems'
videos on the beat. This project models the planning logic of
`StemSyncVideoEditor/app.py` and proves properties of it:

- **Beat snapping** (`Snapping`). Each detected beat moves to its nearest
  onset when that onset lies within the snap window. The result is then
  sorted and de-duplicated.
- **Sections** (`Sections`). Per-frame energies are compared with a
  threshold. Each change of label opens a new verse/chorus section, and
  each section ends where the next one starts. `section_at_time` looks a
  time up in the result.
- **The free-clip cycler** (`Cycling.FreeClipCycler`). A class with the
  source's `idx` and `phase` fields. It hands out the B-roll clips in order,
  first plain, then mirrored and reversed.
- **Stem matching** (`Paths`, `Matching`). `base` of a path, the
  dictionaries keyed by it, the matched stems in audio order, and the vocal
  stem.
- **The beat-locked timeline** (`Timeline`, `TimelineProps`). The loop of
  `generate_timeline` is a method proved equal to a specification function
  (`Final`). It covers the downbeat gate, the minimum hold with the chorus
  aggression, selection by cooldown and loudness, the random fallback, the
  free-clip substitution and the closing entry at the song's end.
  `TimelineProps` proves what the finished timeline satisfies.
- **Intro/outro injection** (`Injection`). This is the part of
  `render_action` that uses `next_beat_after`: it filters the timeline, adds
  the intro and outro entries, then sorts stably by time.
- **Assembly planning** (`Assembly`). `normalize_video`'s choice between
  trimming and looping, and the cursor walk of `build_video`. The walk
  yields the list of pieces that would be concatenated. `AssemblyProps`
  states which entries yield a piece, each piece's window, the pieces'
  total length and when the walk fails.
- **The edit summary** (`Summary`). `write_edit_summary`'s records, one per
  pair of neighbouring entries.

Times are integer milliseconds (`Common.Time`). Examples: 0.05 s is `50`,
0.001 s is `1`, and -999.0 s is `-999000`. So the source's
`round(x, 3)` leaves a time unchanged. Loudness, silence levels, the chorus
aggression and the free-clip probability are `real`. The random draws are
inputs, indexed by beat: `pick(idx)` chooses among the other stems and
`roll(idx)` is compared with the probability. Media durations are inputs
too.

Where the prose description and the code disagree, the model follows the
code:

- the chorus hold truncates with `int()`; it does not round (`Timeline.Trunc`);
- the last section ends at the last frame's time, not at the song's length
  (`Sections.SegmentBounds`);
- intro and outro go in as `"free"` entries with an explicit end, so the
  assembler's intro/outro branch is never reached
  (`Injection.InjectNoIntroOutroKinds`);
- the outro does not remove the entries it overlaps (`Injection.InjectMembers`);
- `np.random.choice([])` with one stem and none active is the error
  `EmptyChoice` (`TimelineProps.FinalErrors`).

Two more facts the proofs bring out:

- `build_video` cuts each kept entry over the window from the later of the
  previous latest end and 0.05 s to the later of the entry's end and that
  start plus 0.001 s (`AssemblyProps.PlanPieces`). `write_edit_summary`
  gives entry i the span [time of i, time of i+1]. The two describe
  neighbouring but different windows of the same list.
- The pieces fall 0.05 s short of the song: they last the latest end minus
  0.05 s, plus 0.001 s per entry ending by 0.05 s
  (`AssemblyProps.PlanTotalLength`, `AssemblyProps.BuildShortOfSong`,
  `AssemblyProps.TwoCutsExample`, `AssemblyProps.GeneratedPiecesLength`).
  The final `set_duration(audio.duration)` (app.py:415) sets the
  result's length to the song's; that call is not modelled.
- The vocal-stem test inside the candidate loop can never hold, because the
  loop only visits active stems. `Timeline.Candidates` keeps the test, and
  its contract shows that it removes nothing.

## Model

| member | source | states |
|---|---|---|
| Paths.Basename | StemSyncVideoEditor/app.py:20 | `os.path.basename`: what follows the last `/`. `BasenameSpec` states its meaning |
| Paths.StripExtension | StemSyncVideoEditor/app.py:20 | `os.path.splitext(...)[0]`. `StripExtensionSpec` states exactly when and from where it strips |
| Paths.Base | StemSyncVideoEditor/app.py:19-20 | `base`: the lowered file name without its extension. `BaseIsPlainName` states what such a name is |
| Paths.BasenameSpec | StemSyncVideoEditor/app.py:19-20 | The file name of a path has no `/`, is a suffix of the path, and is preceded by a `/` whenever it is shorter than the path |
| Paths.LastIndexOf | StemSyncVideoEditor/app.py:20 | The position of the last occurrence of a character (the dot `splitext` looks for), or -1 when it is absent |
| Paths.StripExtensionSpec | StemSyncVideoEditor/app.py:20 | `splitext` keeps a prefix of the name. It strips something exactly when a dot follows some non-dot character. What it strips starts at the last dot |
| Paths.Lower | StemSyncVideoEditor/app.py:20 | `.lower()` keeps the length and lowers each character |
| Paths.BaseIsPlainName | StemSyncVideoEditor/app.py:19-20 | A stem name from `base` has no `/`, no upper-case ASCII letter, and is no longer than the path |
| Snapping.NearestIndex | StemSyncVideoEditor/app.py:89 | `min(onsets, key=abs(o - b))`: an onset no farther from the beat than any other, and the first such onset |
| Snapping.SnapOne | StemSyncVideoEditor/app.py:89-93 | A beat stays put, or moves to an onset within the window of it |
| Snapping.SnapEach | StemSyncVideoEditor/app.py:87-93 | One snapped time per beat, in beat order |
| Snapping.InsertUnique | StemSyncVideoEditor/app.py:95 | Adding a time to a strictly increasing list keeps it strictly increasing and adds exactly that time |
| Snapping.SortedUnique | StemSyncVideoEditor/app.py:95 | `sorted(set(...))` is strictly increasing, has the same elements as its input, and is no longer |
| Snapping.SnapBeats | StemSyncVideoEditor/app.py:87-95 | `detect_snapped_beats` after the audio analysis: the snapped beats, sorted and de-duplicated. `SnapBeatsSound` and `SnapBeatsComplete` pin its result down |
| Snapping.SnapBeatsSound | StemSyncVideoEditor/app.py:87-95 | The snapped beats strictly increase and are no more than the beats. Each one is a beat, or an onset within the window of some beat |
| Snapping.SnapBeatsComplete | StemSyncVideoEditor/app.py:87-95 | A time is in the output exactly when it is the snapped position of some beat |
| Snapping.StrictlyIncreasingUnique | StemSyncVideoEditor/app.py:95 | A strictly increasing list is determined by its set of elements, so `sorted(set(...))` has exactly one possible result |
| Snapping.SnapWithoutOnsets | StemSyncVideoEditor/app.py:87-95 | With no onsets, snapping returns the beats sorted with duplicates removed |
| Snapping.SnapToOnsetsWhenAllNear | StemSyncVideoEditor/app.py:87-95 | When every beat has an onset within the window, every output time is an onset |
| Sections.FrameCount | StemSyncVideoEditor/app.py:110 | `zip` stops at the shorter of the time and energy lists |
| Sections.FrameLabels | StemSyncVideoEditor/app.py:111 | A frame is a chorus exactly when its energy is at least the threshold |
| Sections.RunStarts | StemSyncVideoEditor/app.py:112-114 | The frames where a section opens are frame positions |
| Sections.RunOf | StemSyncVideoEditor/app.py:112-114 | The run holding a frame: it opens at or before the frame, and the next run opens after it |
| Sections.RunStartsOrdered | StemSyncVideoEditor/app.py:112-114 | Sections open in frame order. The first opens at frame 0, and there is one exactly when there is a frame |
| Sections.RunStartsStep | StemSyncVideoEditor/app.py:112-114 | A new frame opens a section exactly when its label differs from the previous frame's |
| Sections.RunStartsUpToPrefix | StemSyncVideoEditor/app.py:110-114 | After the first k frames, the opened sections are those of the first k labels |
| Sections.RunLabel | StemSyncVideoEditor/app.py:111-114 | Every frame carries the label of the section holding it |
| Sections.RunLabelBeforeLast | StemSyncVideoEditor/app.py:111-114 | The same for a frame before the last, by induction on the frame list |
| Sections.RunLabelLastContinues | StemSyncVideoEditor/app.py:111-114 | A last frame whose label repeats its predecessor's belongs to the predecessor's section |
| Sections.RunsAlternate | StemSyncVideoEditor/app.py:112-114 | Neighbouring sections have different labels |
| Sections.ChangeOpensRun | StemSyncVideoEditor/app.py:112-114 | Every change of label opens a section |
| Sections.OpenSections | StemSyncVideoEditor/app.py:107-114 | The first pass appends one section per run of equal labels, starting at the run's first frame, with the run's label |
| Sections.CloseSections | StemSyncVideoEditor/app.py:116-117 | The second pass sets each section's end to the next section's start, and the last section's end to the last frame's time, changing nothing else |
| Sections.DetectSections | StemSyncVideoEditor/app.py:107-119 | `detect_sections` from the threshold on equals the segmentation `Segment` that the lemmas below describe |
| Sections.SectionFrom | StemSyncVideoEditor/app.py:121-125 | The search from position i returns the label of the first covering section, or verse when none covers |
| Sections.SectionAt | StemSyncVideoEditor/app.py:121-125 | `section_at_time` returns the label of the first section with start <= t < end, and verse when there is none |
| Sections.SectionAtTiling | StemSyncVideoEditor/app.py:121-125 | When sections tile the time line, the lookup returns the label of whichever section covers t |
| Sections.Segment | StemSyncVideoEditor/app.py:107-117 | The sections `detect_sections` returns. `DetectSections` is proved equal to it, and the `Segment*` lemmas state its bounds, contiguity, labels and tiling |
| Sections.SegmentBounds | StemSyncVideoEditor/app.py:110-117 | There is a section exactly when there is a frame. The first starts at the first frame, and the last ends at the last frame's time, not at the song's length |
| Sections.SegmentContiguous | StemSyncVideoEditor/app.py:117 | Each section ends where the next starts |
| Sections.SegmentLabels | StemSyncVideoEditor/app.py:111-114 | A section is a chorus exactly when its first frame's energy is at least the threshold, and neighbouring sections differ |
| Sections.SegmentTiles | StemSyncVideoEditor/app.py:107-117 | With increasing frame times the sections tile the time line |
| Sections.SegmentLookup | StemSyncVideoEditor/app.py:107-125 | Looking up a frame's time (before the last frame) gives that frame's own label |
| Sections.SegmentCoversFrame | StemSyncVideoEditor/app.py:113-117 | Such a frame's time lies in the section whose run holds the frame |
| Sections.RunCovers | StemSyncVideoEditor/app.py:116-125 | A frame inside a run lies in the half-open interval of that run's section |
| Sections.SegmentLastFrameIsVerse | StemSyncVideoEditor/app.py:116-125 | The last frame's time is covered by no section, since the last section ends there, so it reads as verse |
| Cycling.Emit | StemSyncVideoEditor/app.py:137-141 | What one `next` call returns: the clip at the index, with no transform in phase 0 and mirror then reverse in phase 1. `FreeClipCycler.Next` is proved to return it |
| Cycling.AdvanceBy | StemSyncVideoEditor/app.py:143-146 | The cycler state after k calls. `Emitted`, `FinishPass` and `TwoPasses` state where it ends |
| Cycling.Pass | StemSyncVideoEditor/app.py:136-148 | One pass over the clips with one transform. `FinishPass` and `TwoPasses` state that successive calls hand out such passes |
| Cycling.Advance | StemSyncVideoEditor/app.py:143-146 | One call keeps the index below the clip count. The index wraps to 0 exactly at the end of the list, and the phase flips exactly then |
| Cycling.Emitted | StemSyncVideoEditor/app.py:136-148 | k calls hand out exactly k clips |
| Cycling.FinishPass | StemSyncVideoEditor/app.py:136-148 | From position i, the calls to the end of the list hand out the remaining clips in order with the phase's transform. Then the index is 0 and the phase is flipped |
| Cycling.EmittedSplit | StemSyncVideoEditor/app.py:136-148 | k + m calls hand out what k calls hand out followed by what m more calls hand out |
| Cycling.TwoPasses | StemSyncVideoEditor/app.py:136-148 | From a fresh cycler, n calls flip the phase and 2n calls return to the start. The 2n clips are the list plain, then the list mirrored and reversed |
| Cycling.FreeClipCycler.constructor | StemSyncVideoEditor/app.py:131-134 | A new cycler holds the given clips at position 0, phase 0 |
| Cycling.FreeClipCycler.Next | StemSyncVideoEditor/app.py:136-148 | `next` returns the clip at the old position, with no transform in phase 0 and mirror then reverse in phase 1, and moves the state one step. The list is non-empty because the caller only builds a cycler from a non-empty list (app.py:466-469) |
| Events.EffectiveEnd | StemSyncVideoEditor/app.py:342 | An entry's end is its `end` field when present, and otherwise its time |
| Matching.AudioBases | StemSyncVideoEditor/app.py:166 | The `base` of each audio file, in order |
| Matching.VideoBases | StemSyncVideoEditor/app.py:167 | The `base` of each video file, in order |
| Matching.AudioIndex | StemSyncVideoEditor/app.py:166 | The audio dictionary's keys are exactly the audio base names |
| Matching.Zip | StemSyncVideoEditor/app.py:167 | A dictionary built from pairs has exactly the given keys |
| Matching.LastIndex | StemSyncVideoEditor/app.py:167 | The last position of a name in a list |
| Matching.ZipLast | StemSyncVideoEditor/app.py:167 | When two files share a base name, the later one wins |
| Matching.VideoIndex | StemSyncVideoEditor/app.py:167 | The video map's keys are exactly the video base names |
| Matching.VideoIndexValues | StemSyncVideoEditor/app.py:167 | Each name maps to the last video file with that base name |
| Matching.FirstIndex | StemSyncVideoEditor/app.py:166 | The first position of a name in a list |
| Matching.Dedup | StemSyncVideoEditor/app.py:166 | The dictionary's keys: the same names, each once |
| Matching.DedupInOrder | StemSyncVideoEditor/app.py:166 | The keys keep the order of first insertion |
| Matching.MatchStems | StemSyncVideoEditor/app.py:166-168 | The audio names that also have a video. `MatchStemsMembers` and `MatchStemsOrder` state which and in what order |
| Matching.MatchStemsMembers | StemSyncVideoEditor/app.py:166-171 | The stems are exactly the names that an audio file and a video file share. So there is none, and generation raises, exactly when no name is shared |
| Matching.MatchStemsOrder | StemSyncVideoEditor/app.py:168 | Each stem appears once, in the order of the audio files |
| Matching.FindVocalFrom | StemSyncVideoEditor/app.py:173 | The first stem from position i whose name holds "voc" or "vox", or none when no such stem exists |
| Matching.FindVocal | StemSyncVideoEditor/app.py:173 | The vocal stem is the first matched stem naming "voc" or "vox", and `None` exactly when there is none |
| Timeline.Gate | StemSyncVideoEditor/app.py:185-186 | The downbeat gate: with a bias N > 0 only every N-th beat may cut. `StepHeld` states that a gated beat changes nothing |
| Timeline.UseFree | StemSyncVideoEditor/app.py:227-231 | A cut shows a free clip when a cycler exists, the cut is not in the last 0.05 s and the roll is below the probability. `FinalKinds` states this of every entry |
| Timeline.Init | StemSyncVideoEditor/app.py:175-178 | The loop variables before the first beat. `InitInv` states that they satisfy the loop invariant |
| Timeline.Final | StemSyncVideoEditor/app.py:180-256 | The loop variables after the last beat, or the error. `BeatLoop` is proved equal to it, and the `TimelineProps.Final*` lemmas state its properties |
| Timeline.Finish | StemSyncVideoEditor/app.py:258-265 | The closing cut appended at the song's end. `FinishCloses` and `FinishSorted` state what it adds |
| Timeline.Trunc | StemSyncVideoEditor/app.py:191 | Python's `int()` on a float truncates toward zero |
| Timeline.MinBeats | StemSyncVideoEditor/app.py:191 | A verse holds for `phrase_beats`. A chorus holds for at least 1 beat, and for no more than `max(1, phrase_beats)` with non-negative aggression |
| Timeline.ActiveStems | StemSyncVideoEditor/app.py:199-206 | The active stems are exactly the matched stems louder than their silence level at t |
| Timeline.EnergyMap | StemSyncVideoEditor/app.py:199-204 | The energy map has one entry per stem: 0 past the stem's duration, its loudness otherwise |
| Timeline.Eligible | StemSyncVideoEditor/app.py:209-216 | The candidates are exactly the active stems other than the current one whose cooldown has passed |
| Timeline.Others | StemSyncVideoEditor/app.py:221 | The stems other than the current one |
| Timeline.ArgMax | StemSyncVideoEditor/app.py:219 | `max(candidates, key=energy)`: a candidate at least as loud as every other, and the first such candidate |
| Timeline.Select | StemSyncVideoEditor/app.py:218-223 | With candidates: a loudest candidate. With none but some stem active: no cut. With none active: a random stem other than the current one, or the error case when there is none |
| Timeline.MeasureStems | StemSyncVideoEditor/app.py:196-206 | The measuring loop computes the energy map and the active list |
| Timeline.Candidates | StemSyncVideoEditor/app.py:208-216 | The candidate loop computes exactly the eligible stems, so the vocal test removes nothing |
| Timeline.ChooseAt | StemSyncVideoEditor/app.py:196-223 | Measuring, filtering and choosing at one beat give the selection `Select` describes, and say whether it was by loudness |
| Timeline.CutTo | StemSyncVideoEditor/app.py:224-256 | After a cut, the cycler state stays within the clip list |
| Timeline.Step | StemSyncVideoEditor/app.py:184-256 | After one beat, the cycler state stays within the clip list |
| Timeline.Run | StemSyncVideoEditor/app.py:180-256 | After the remaining beats, the cycler state stays within the clip list |
| Timeline.Setup | StemSyncVideoEditor/app.py:166-168 | The generator's configuration uses the matched stems, each of which has an audio analysis |
| Timeline.StepHeld | StemSyncVideoEditor/app.py:185-194 | A beat that the downbeat gate or the minimum hold rules out changes nothing |
| Timeline.StepSelected | StemSyncVideoEditor/app.py:196-256 | A beat past both gates cuts to the selected stem, does nothing when no cut is chosen, and fails when the fallback has nothing to draw from |
| Timeline.BeatLoop | StemSyncVideoEditor/app.py:180-256 | The `for` loop ends with the variables `Final` specifies, the cycler's state included, or with the error `Final` specifies |
| Timeline.BeatStep | StemSyncVideoEditor/app.py:184-256 | One pass of the loop body does what `Step` describes and keeps every stem in `last_used` |
| Timeline.MakeCut | StemSyncVideoEditor/app.py:224-256 | Appending the free or stem entry and updating `last_used`, `current` and `last_cut_beat` do what `CutTo` describes. `last_used` records the stem even when a free clip is shown |
| Timeline.GenerateFrom | StemSyncVideoEditor/app.py:170-265 | After matching, generation fails exactly when `Final` fails, with the same error. Otherwise it returns the loop's timeline with the closing entry |
| Timeline.GenerateTimeline | StemSyncVideoEditor/app.py:153-267 | `generate_timeline` returns the specified timeline, the matched stems and the video map, or raises exactly when the specification does |
| TimelineProps.InitInv | StemSyncVideoEditor/app.py:175-178 | The loop invariant holds before the first beat |
| TimelineProps.InvGrows | StemSyncVideoEditor/app.py:180-182 | Beats skipped at the end of the song keep the invariant |
| TimelineProps.CutOnBeats | StemSyncVideoEditor/app.py:224-252 | A cut adds an entry at its beat's time, with its beat and section |
| TimelineProps.CutSpaced | StemSyncVideoEditor/app.py:191-256 | A cut keeps the entries' beats increasing and spaced by the minimum hold |
| TimelineProps.CutPicked | StemSyncVideoEditor/app.py:218-255 | A cut always changes the stem, to a matched one |
| TimelineProps.CutKinds | StemSyncVideoEditor/app.py:224-252 | A cut shows a free clip exactly when the roll asks for one, and otherwise the picked stem |
| TimelineProps.CutUses | StemSyncVideoEditor/app.py:254 | A cut keeps `last_used` equal to the time of each stem's last cut |
| TimelineProps.CutCooled | StemSyncVideoEditor/app.py:209-221 | A cut keeps every pick honest: a loudness pick passed the cooldown, and a random pick happened with no stem active |
| TimelineProps.CutCycled | StemSyncVideoEditor/app.py:227-235 | A cut keeps the free entries equal to what the cycler has handed out |
| TimelineProps.CutKeepsInv | StemSyncVideoEditor/app.py:224-256 | An allowed cut keeps the whole loop invariant |
| TimelineProps.StepKeepsInv | StemSyncVideoEditor/app.py:184-256 | One pass of the loop body keeps the invariant |
| TimelineProps.RunKeepsInv | StemSyncVideoEditor/app.py:180-256 | The loop keeps the invariant to the last beat |
| TimelineProps.FinalInv | StemSyncVideoEditor/app.py:175-256 | When the loop succeeds, its final variables satisfy the invariant |
| TimelineProps.FinalOnBeats | StemSyncVideoEditor/app.py:180-252 | Every loop entry sits on a beat that the gate lets through, at that beat's time, before the song's end, labelled with its section |
| TimelineProps.FinalSpacing | StemSyncVideoEditor/app.py:191-256 | The entries' beats strictly increase. Each cut comes at least the minimum hold after the previous one, and `last_cut_beat` ends as the last entry's beat |
| TimelineProps.FinalPicks | StemSyncVideoEditor/app.py:175-255 | Every cut goes to a matched stem other than the one on screen, starting from the first stem. `current` ends as the last pick |
| TimelineProps.FinalKinds | StemSyncVideoEditor/app.py:224-252 | An entry is free exactly when a cycler exists, the cut is not in the last 0.05 s, and the roll is below the probability. Otherwise it shows the picked stem |
| TimelineProps.FinalLastUsed | StemSyncVideoEditor/app.py:177-254 | `last_used` ends with exactly the stems, each at the time of its last cut, or -999 s when it was never cut to |
| TimelineProps.FinalCooldown | StemSyncVideoEditor/app.py:199-223 | A loudness cut goes to an active stem whose previous cut is at least the cooldown earlier. A random cut happens only with no stem active |
| TimelineProps.FinalFreeClips | StemSyncVideoEditor/app.py:227-235 | The free entries show, in order, exactly what the cycler hands out, and the cycler advances once per free entry. Without a cycler there are none |
| TimelineProps.LastUseLatest | StemSyncVideoEditor/app.py:254 | A stem's recorded last use is no earlier than any earlier cut to it, unless time went backwards in between |
| TimelineProps.CooldownBetweenCuts | StemSyncVideoEditor/app.py:212-254 | With sorted beats, two cuts to the same stem, the later by loudness, are at least the cooldown apart |
| TimelineProps.EntriesInOrder | StemSyncVideoEditor/app.py:180-252 | With sorted beats, the loop's entries are in time order |
| TimelineProps.RunError | StemSyncVideoEditor/app.py:221 | The loop fails only with the empty random choice, which needs every stem to be the current one |
| TimelineProps.FinalErrors | StemSyncVideoEditor/app.py:170-221 | Generation raises "no matching stems" exactly when no stem matched. It raises otherwise only from the empty random choice, which needs a single stem |
| TimelineProps.FinishCloses | StemSyncVideoEditor/app.py:258-265 | The closing cut to the current stem at the song's end is always appended, after every loop entry |
| TimelineProps.FinishSorted | StemSyncVideoEditor/app.py:180-265 | With sorted beats, the returned timeline is in time order |
| TimelineProps.TruncMonotone | StemSyncVideoEditor/app.py:191 | `int()` truncation is monotone |
| TimelineProps.ChorusHoldShrinks | StemSyncVideoEditor/app.py:191 | More chorus aggression never lengthens the chorus hold |
| TimelineProps.ScaledTruncMonotone | StemSyncVideoEditor/app.py:191 | `int(phrase_beats * (1 - a))` does not increase as a grows |
| TimelineProps.ChorusHoldExtremes | StemSyncVideoEditor/app.py:191 | With no aggression a chorus holds for `max(1, phrase_beats)`. At aggression 1 or more it may cut on every beat |
| Injection.NextBeatFrom | StemSyncVideoEditor/app.py:68-72 | The search of `next_beat_after` from position i. `NextBeatFromSpec` states its result |
| Injection.NextBeatAfter | StemSyncVideoEditor/app.py:68-72 | `next_beat_after`. `NextBeatAfterSpec` states its result: the first beat at or after t, or t |
| Injection.NextBeatFromSpec | StemSyncVideoEditor/app.py:68-72 | The search from position i returns the first beat at or after t, or t itself when there is none |
| Injection.NextBeatAfterSpec | StemSyncVideoEditor/app.py:68-72 | `next_beat_after` returns the first beat at or after t, or t when none is, so never less than t |
| Injection.KeepFrom | StemSyncVideoEditor/app.py:488-492 | The filter keeps exactly the entries at or after `intro_end` |
| Injection.Insert | StemSyncVideoEditor/app.py:518 | One insertion step of the sort keeps every entry and adds the new one |
| Injection.SortByTime | StemSyncVideoEditor/app.py:518 | Sorting is a permutation |
| Injection.InsertMembers | StemSyncVideoEditor/app.py:518 | Insertion adds exactly the new entry |
| Injection.InsertSorted | StemSyncVideoEditor/app.py:518 | Insertion into a time-ordered list keeps it ordered |
| Injection.SortSorted | StemSyncVideoEditor/app.py:518 | The sorted list is in time order |
| Injection.AtTimeAppend | StemSyncVideoEditor/app.py:518 | The entries at one time, taken from a concatenation, are those of each part in turn |
| Injection.InsertStable | StemSyncVideoEditor/app.py:518 | Insertion puts the new entry after the entries already at its time |
| Injection.StableStep | StemSyncVideoEditor/app.py:518 | An entry at another time does not disturb the order of the entries at t |
| Injection.SortStable | StemSyncVideoEditor/app.py:518 | `sorted` is stable: entries at the same time keep their order |
| Injection.SortKeepsSorted | StemSyncVideoEditor/app.py:518 | Sorting an ordered list changes nothing |
| Injection.IntroEvent | StemSyncVideoEditor/app.py:495-501 | The intro entry: a free clip from 0 to `intro_end`. `InjectMembers` and `InjectBounds` state where it ends up |
| Injection.OutroEvent | StemSyncVideoEditor/app.py:509-515 | The outro entry: a free clip from `outro_start` to the song's end. `InjectMembers` and `InjectBounds` state where it ends up |
| Injection.Unsorted | StemSyncVideoEditor/app.py:485-515 | The list before sorting: the filtered timeline, then the intro and outro entries. `InjectMembers` states its members |
| Injection.Inject | StemSyncVideoEditor/app.py:485-518 | The timeline `render_action` hands to `build_video`. `InjectOrdered`, `InjectMembers`, `InjectBounds` and `InjectNoIntroOutroKinds` pin it down |
| Injection.InjectOrdered | StemSyncVideoEditor/app.py:485-518 | The injected timeline is in time order, is a permutation of the filtered list plus the intro and outro, and keeps same-time entries in their order |
| Injection.InjectMembers | StemSyncVideoEditor/app.py:485-518 | An entry is in the result exactly when it is a kept entry (all of them without an intro), the intro entry or the outro entry. The outro removes nothing |
| Injection.InjectBounds | StemSyncVideoEditor/app.py:485-515 | `intro_end` >= `intro_min`, and every entry other than the intro and outro is at or after it. The outro starts at or after `song_len - outro_min` and is present |
| Injection.InjectNoIntroOutroKinds | StemSyncVideoEditor/app.py:485-518 | Injection creates no "intro" or "outro" entry, so the assembler's intro/outro branch is unreachable from `render_action` |
| Assembly.CeilDiv | StemSyncVideoEditor/app.py:282 | `int(np.ceil(a / d))`. `CeilDivSpec` states it is the least count of copies that reaches the length |
| Assembly.Normalize | StemSyncVideoEditor/app.py:270-285 | `normalize_video`: refuse, trim or loop. `NormalizeSpec` states every case |
| Assembly.NormalizeAll | StemSyncVideoEditor/app.py:328-331 | The dictionary of prepared stem videos, or the first refusal. `NormalizeUpToSpec` states when it succeeds and what it holds |
| Assembly.CeilDivSpec | StemSyncVideoEditor/app.py:282 | The loop count is the least number of copies whose total length reaches the needed length |
| Assembly.NormalizeSpec | StemSyncVideoEditor/app.py:274-285 | A video refused as too short is exactly one of at most 0.05 s. Otherwise the window always runs from 0.05 s for the song's length. It is trimmed from the video when that is long enough, and else from the fewest loops that contain it |
| Assembly.NormalizeUpToSpec | StemSyncVideoEditor/app.py:328-331 | Preparing the stem videos succeeds exactly when every stem has a video longer than 0.05 s. It then prepares exactly those stems, each as `normalize_video` would |
| Assembly.PlanStep | StemSyncVideoEditor/app.py:342-410 | One pass of the walk. `AssemblyProps.PlanStepCut` states which entries it cuts and how |
| Assembly.Plan | StemSyncVideoEditor/app.py:341-410 | The walk over the first n entries. `AssemblyProps.PlanPieces`, `PlanTotalLength` and `PlanFailsOnMissingVideo` state what it yields |
| Assembly.BuildSpec | StemSyncVideoEditor/app.py:325-412 | What `build_video` would concatenate, or its error. `BuildVideo` is proved equal to it, and `AssemblyProps.BuildShortOfSong` states its length |
| Assembly.PlanErrorSticks | StemSyncVideoEditor/app.py:405 | Once the walk has raised, later entries do not change the outcome |
| Assembly.BuildVideo | StemSyncVideoEditor/app.py:325-412 | The stem videos and the segment list `build_video` builds are those of the plan `BuildSpec`, or its error |
| Assembly.LatestEnd | StemSyncVideoEditor/app.py:341-410 | The latest end among the first n entries is no earlier than any of them, and not negative |
| Assembly.PlanInvariant | StemSyncVideoEditor/app.py:341-410 | Without intro or outro entries, the cursor is the latest end so far, so it never moves back, and no piece is cut while it is 0. Every stem window starts at 0.05 s or later and lasts at least 0.001 s. A free piece plays back and forth exactly when it is longer than its clip. The cache holds each clip's duration |
| Assembly.PlanNothingToShow | StemSyncVideoEditor/app.py:341-412 | Without intro or outro entries, there is no segment to concatenate exactly when no entry ends after time 0 |
| Assembly.LatestEndZero | StemSyncVideoEditor/app.py:341-410 | The latest end is 0 exactly when no entry ends after 0 |
| AssemblyProps.KeptIndices | StemSyncVideoEditor/app.py:345 | The entries that yield a piece, in order: exactly those that end after every earlier entry |
| AssemblyProps.PlanStepCut | StemSyncVideoEditor/app.py:345-410 | Without intro or outro entries, one entry adds the piece cut from it when it ends after the cursor, and nothing otherwise |
| AssemblyProps.PlanPieces | StemSyncVideoEditor/app.py:341-410 | Without intro or outro entries, the walk cuts one piece per kept entry, in order. A stem piece is the window from the later of the previous latest end and 0.05 s to the later of its end and that start plus 0.001 s. A free piece has that window's length, ping-pongs exactly when it is longer than its clip, and carries the entry's mirror and reverse flags |
| AssemblyProps.CutLength | StemSyncVideoEditor/app.py:350-352 | A kept piece lasts from the later of the cursor and 0.05 s to the later of its end and 0.05 s, plus 0.001 s when it ends by 0.05 s |
| AssemblyProps.PlanTotalLength | StemSyncVideoEditor/app.py:341-410 | The pieces last the latest end minus 0.05 s, plus 0.001 s per kept entry ending by 0.05 s. The clamp at 0.05 s leaves the song's first 0.05 s uncovered |
| AssemblyProps.BuildShortOfSong | StemSyncVideoEditor/app.py:325-412 | When the last entry ends the song and nothing is padded, the concatenated pieces are 0.05 s shorter than the song |
| AssemblyProps.TwoCutsExample | StemSyncVideoEditor/app.py:341-410 | Stem cuts ending at 1 s and 2 s give the windows [0.05 s, 1 s] and [1 s, 2 s], 1.95 s in all |
| AssemblyProps.PlanFailsOnMissingVideo | StemSyncVideoEditor/app.py:341-410 | Without intro or outro entries, the walk fails exactly when some kept stem entry has no prepared video, and then with that stem's `KeyError` |
| AssemblyProps.LatestEndAtMost | StemSyncVideoEditor/app.py:341-410 | The latest end is at most any non-negative bound on the ends |
| AssemblyProps.GeneratedPiecesLength | StemSyncVideoEditor/app.py:180-265 | The generated timeline has no intro or outro entry and its latest end is the song's end, so its pieces last the song minus 0.05 s plus the pads |
| Summary.Label | StemSyncVideoEditor/app.py:301-305 | The clip name a record shows. `RecordSources` states it for each kind of entry |
| Summary.RecordFor | StemSyncVideoEditor/app.py:296-313 | The record for one entry and its successor. `RecordsContiguous` and `RecordSources` state its fields |
| Summary.Records | StemSyncVideoEditor/app.py:296 | One record per entry but the last |
| Summary.WriteEditSummary | StemSyncVideoEditor/app.py:293-314 | The loop builds exactly the records `Records` describes |
| Summary.RecordsContiguous | StemSyncVideoEditor/app.py:297-313 | Each record's duration is its end minus its start, each record starts where the previous one ends, and the records run from the first entry's time to the last's |
| Summary.TotalDurationPrefix | StemSyncVideoEditor/app.py:297-313 | The first n durations add up to the time from the first entry to entry n |
| Summary.TotalDurationSpan | StemSyncVideoEditor/app.py:297-313 | All the durations add up to the time from the first entry to the last |
| Summary.DurationsNonNegative | StemSyncVideoEditor/app.py:297-313 | No duration is negative exactly when the timeline is in time order |
| Summary.StepsAddUp | StemSyncVideoEditor/app.py:297-313 | Non-negative durations make every later entry no earlier than an earlier one |
| Summary.RecordSources | StemSyncVideoEditor/app.py:302-310 | A free entry's source starts at 0 and any other at its own time. A stem shows as `stem.mp4`, and any other entry shows the file-name suffix of its clip path |

## Left out

- The Gradio interface, `app.launch()` and the mechanics of `gr.Error`
  (app.py:528-668). Each raised error is a constructor of an error datatype
  (`GenError`, `BuildError`).
- Audio analysis: the librosa loading, beat and onset detection, RMS,
  `medfilt`, `np.percentile` and `np.interp`. Beat times, onset times,
  frame times, energies, the chorus threshold and each stem's silence level
  are inputs. A stem's interpolated loudness is an input function
  (`Matching.StemAudio.level`).
- Media handling: decoding, `subclip`, `concatenate_videoclips`, `fx`,
  `set_audio`, `set_duration`, `write_videofile` and closing handles. A
  piece of the edit is a descriptor (`Assembly.Piece`), and video and clip
  durations are input functions. Failures the media library itself would
  raise are not modelled, for example a ping-pong piece longer than twice
  its clip minus 0.05 s.
- The filesystem: `get_default_output_path`, `find_optional_clip`, the JSON
  file and its path. `write_edit_summary` returns its records.
- `np.random`: the fallback draw is `pick(idx)` modulo the number of other
  stems, and the free-clip roll is `roll(idx)`, both indexed by the beat.
- `stabilize_video`, which returns its argument, and `debug` printing.
- Floating point: times are integer milliseconds. `round(x, 3)` is
  therefore the identity, and the ceiling in `normalize_video` is exact.
- Paths.Lower: lowers ASCII letters only. Python's `str.lower` also lowers
  other Unicode letters.
- Paths.Basename: splits on `/` only, as `os.path.basename` does on POSIX.
- Timeline.GenerateTimeline: one source function is split into several
  members: `Setup` (matching), `GenerateFrom`, `BeatLoop`, `BeatStep`,
  `ChooseAt` with `MeasureStems` and `Candidates`, and `MakeCut`.
  `Sections.DetectSections` is likewise split into `OpenSections` and
  `CloseSections`.
- Assembly.PlanInvariant: states bounds on the pieces only; the pieces
  themselves are stated by `AssemblyProps.PlanPieces`. Both hold only for
  timelines without "intro" or "outro" entries. For those entries the
  cursor may move back, but `render_action` never produces them
  (`Injection.InjectNoIntroOutroKinds`).
- Cycling.FreeClipCycler.Next: requires a non-empty clip list. The source
  would raise on an empty one, but it never builds a cycler from one.
- Timeline.CutTo, Timeline.Step, Timeline.Run: their own contracts only keep
  the cycler state in range. What they compute is stated by the
  `TimelineProps` lemmas and by the methods proved equal to them.
