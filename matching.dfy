/** Pairing audio stems with videos by name (app.py:166-173): the dictionaries
    keyed by `base`, the list of stems that have both, and the vocal stem. */
module Matching {
  import opened Common
  import opened Paths

  /** What the analysis of one stem's audio provides to the cut planner
      (app.py:45-58): the interpolated loudness at a time (`np.interp` over
      the RMS envelope, not modelled), the silence threshold and the duration. */
  datatype StemAudio = StemAudio(level: Time -> real, silence: real, duration: Time)

  datatype AudioFile = AudioFile(name: string, analysis: StemAudio)

  /** The `base` of every audio file, in the order given. */
  function AudioBases(files: seq<AudioFile>): (r: seq<string>)
    ensures |r| == |files|
    ensures forall i :: 0 <= i < |files| ==> r[i] == Base(files[i].name)
  {
    seq(|files|, i requires 0 <= i < |files| => Base(files[i].name))
  }

  /** The `base` of every video file, in the order given. */
  function VideoBases(names: seq<string>): (r: seq<string>)
    ensures |r| == |names|
    ensures forall i :: 0 <= i < |names| ==> r[i] == Base(names[i])
  {
    seq(|names|, i requires 0 <= i < |names| => Base(names[i]))
  }

  /** `{base(f.name): analyze_audio(f.name) for f in audio_files}`: when two
      files share a name the later one's analysis is kept. */
  function AudioIndex(files: seq<AudioFile>): (m: map<string, StemAudio>)
    ensures forall k :: k in m <==> k in AudioBases(files)
  {
    if |files| == 0 then map[]
    else
      var prefix := files[..|files| - 1];
      assert AudioBases(files) == AudioBases(prefix) + [Base(files[|files| - 1].name)];
      AudioIndex(prefix)[Base(files[|files| - 1].name) := files[|files| - 1].analysis]
  }

  /** The dictionary built from key/value pairs in order: a later pair
      overwrites an earlier one with the same key. */
  function Zip(keys: seq<string>, values: seq<string>): (m: map<string, string>)
    requires |keys| == |values|
    ensures forall k :: k in m <==> k in keys
  {
    if |keys| == 0 then map[]
    else Zip(keys[..|keys| - 1], values[..|keys| - 1])[keys[|keys| - 1] := values[|keys| - 1]]
  }

  /** Position of the last occurrence of `x` in `s`. */
  function LastIndex(s: seq<string>, x: string): (i: nat)
    requires x in s
    ensures i < |s| && s[i] == x
    ensures forall j :: i < j < |s| ==> s[j] != x
  {
    if s[|s| - 1] == x then |s| - 1 else LastIndex(s[..|s| - 1], x)
  }

  /** A key maps to the value of its last pair. */
  lemma {:induction false} ZipLast(keys: seq<string>, values: seq<string>, k: string)
    requires |keys| == |values| && k in keys
    ensures Zip(keys, values)[k] == values[LastIndex(keys, k)]
  {
    var n := |keys| - 1;
    if keys[n] != k {
      assert k in keys[..n];
      ZipLast(keys[..n], values[..n], k);
    }
  }

  /** `{base(f.name): f.name for f in video_files}`: when two files share a
      name the later one is kept. */
  function VideoIndex(names: seq<string>): (m: map<string, string>)
    ensures forall k :: k in m <==> k in VideoBases(names)
  {
    Zip(VideoBases(names), names)
  }

  /** Each name maps to the last video file carrying it. */
  lemma {:induction false} VideoIndexValues(names: seq<string>, k: string)
    requires k in VideoIndex(names)
    ensures exists i :: (0 <= i < |names| && VideoIndex(names)[k] == names[i] && Base(names[i]) == k &&
                         forall j :: i < j < |names| ==> Base(names[j]) != k)
  {
    var bases := VideoBases(names);
    ZipLast(bases, names, k);
    var i := LastIndex(bases, k);
    assert forall j :: i < j < |names| ==> Base(names[j]) == bases[j];
  }

  /** Position of the first occurrence of `x` in `s`. */
  function FirstIndex(s: seq<string>, x: string): (i: nat)
    requires x in s
    ensures i < |s| && s[i] == x
    ensures forall k :: 0 <= k < i ==> s[k] != x
  {
    if x in s[..|s| - 1] then FirstIndex(s[..|s| - 1], x) else |s| - 1
  }

  /** The keys of a dictionary built from `s`, in insertion order: each
      element once, at its first occurrence. */
  function Dedup(s: seq<string>): (r: seq<string>)
    ensures forall x :: x in r <==> x in s
    ensures Distinct(r)
  {
    if |s| == 0 then []
    else if s[|s| - 1] in s[..|s| - 1] then Dedup(s[..|s| - 1])
    else Dedup(s[..|s| - 1]) + [s[|s| - 1]]
  }

  /** The dictionary's keys come in the order in which they first appear. */
  lemma {:induction false} DedupInOrder(s: seq<string>)
    ensures forall i, j :: 0 <= i < j < |Dedup(s)| ==> FirstIndex(s, Dedup(s)[i]) < FirstIndex(s, Dedup(s)[j])
  {
    if |s| > 0 {
      var prefix := s[..|s| - 1];
      var q := Dedup(prefix);
      DedupInOrder(prefix);
      var r := Dedup(s);
      forall x | x in prefix
        ensures FirstIndex(s, x) == FirstIndex(prefix, x)
      {
        var k := FirstIndex(prefix, x);
        assert s[k] == x;
      }
      forall i, j | 0 <= i < j < |r|
        ensures FirstIndex(s, r[i]) < FirstIndex(s, r[j])
      {
        assert r[i] == q[i] && q[i] in q;
        if j < |q| {
          assert r[j] == q[j] && q[j] in q;
        } else {
          assert r[j] == s[|s| - 1] && r[j] !in prefix;
        }
      }
    }
  }

  /** `stems = [s for s in audio if s in video_map]` (app.py:166-168). */
  function MatchStems(files: seq<AudioFile>, videos: seq<string>): seq<string>
  {
    var index := VideoIndex(videos);
    Filter(Dedup(AudioBases(files)), s => s in index)
  }

  /** The stems are exactly the names that some audio file and some video file
      share; so there is none (and the planner raises) exactly when no name
      is shared. */
  lemma {:induction false} MatchStemsMembers(files: seq<AudioFile>, videos: seq<string>)
    ensures forall s :: s in MatchStems(files, videos) <==> s in AudioBases(files) && s in VideoBases(videos)
    ensures forall s :: s in MatchStems(files, videos) ==> s in AudioIndex(files) && s in VideoIndex(videos)
    ensures MatchStems(files, videos) == [] <==> forall s :: s in AudioBases(files) ==> s !in VideoBases(videos)
  {
    var stems := MatchStems(files, videos);
    if stems != [] {
      assert stems[0] in stems;
    }
  }

  /** Each shared name appears once, in the order of the audio files. */
  lemma {:induction false} MatchStemsOrder(files: seq<AudioFile>, videos: seq<string>)
    ensures Distinct(MatchStems(files, videos))
    ensures forall i, j :: 0 <= i < j < |MatchStems(files, videos)| ==>
      FirstIndex(AudioBases(files), MatchStems(files, videos)[i]) < FirstIndex(AudioBases(files), MatchStems(files, videos)[j])
  {
    var bases := AudioBases(files);
    var index := VideoIndex(videos);
    var keys := Dedup(bases);
    var key := s => if s in bases then FirstIndex(bases, s) else 0;
    DedupInOrder(bases);
    assert forall i, j :: 0 <= i < j < |keys| ==> key(keys[i]) < key(keys[j]) by {
      forall i, j | 0 <= i < j < |keys| ensures key(keys[i]) < key(keys[j]) {
        assert keys[i] in bases && keys[j] in bases;
      }
    }
    FilterKeepsOrder(keys, s => s in index, key);
    var stems := Filter(keys, s => s in index);
    assert stems == MatchStems(files, videos);
    forall i, j | 0 <= i < j < |stems|
      ensures FirstIndex(bases, stems[i]) < FirstIndex(bases, stems[j])
    {
      assert stems[i] in bases && stems[j] in bases;
    }
  }

  /** Whether `sub` occurs in `s` (Python's `sub in s` on strings). */
  predicate Contains(s: string, sub: string)
  {
    exists i :: 0 <= i <= |s| - |sub| && OccursAt(s, sub, i)
  }

  predicate OccursAt(s: string, sub: string, i: int)
    requires 0 <= i <= |s| - |sub|
  {
    s[i..i + |sub|] == sub
  }

  /** Whether a stem's name mentions a voice. */
  predicate IsVocal(s: string)
  {
    Contains(s, "voc") || Contains(s, "vox")
  }

  /** The search of `FindVocal` from position `i` on. */
  function FindVocalFrom(stems: seq<string>, i: nat): (r: Option<string>)
    requires i <= |stems|
    ensures r.Some? ==> r.value in stems[i..] && IsVocal(r.value)
    ensures r.Some? ==> exists k :: i <= k < |stems| && stems[k] == r.value && forall h :: i <= h < k ==> !IsVocal(stems[h])
    ensures r.None? ==> forall k :: i <= k < |stems| ==> !IsVocal(stems[k])
    decreases |stems| - i
  {
    if i == |stems| then None
    else if IsVocal(stems[i]) then Some(stems[i])
    else FindVocalFrom(stems, i + 1)
  }

  /** `next((s for s in stems if "voc" in s or "vox" in s), None)`
      (app.py:173): the first stem whose name mentions a voice. */
  function FindVocal(stems: seq<string>): (r: Option<string>)
    ensures r.Some? ==> r.value in stems && IsVocal(r.value)
    ensures r.Some? ==> exists k :: 0 <= k < |stems| && stems[k] == r.value && forall h :: 0 <= h < k ==> !IsVocal(stems[h])
    ensures r.None? ==> forall s :: s in stems ==> !IsVocal(s)
  {
    FindVocalFrom(stems, 0)
  }
}
