/** `FreeClipCycler` (app.py:130-148): hands out the B-roll clips in order,
    first as they are, then mirrored and reversed, then as they are again. */
module Cycling {

  datatype Transform = Mirror | Reverse

  /** The cycler's two fields as a value: the next clip's position and the
      phase (0 plain, 1 mirrored and reversed). */
  datatype CyclerState = CyclerState(idx: nat, phase: nat)

  /** The transform handed out in a phase (app.py:139-141). */
  function TransformFor(phase: nat): seq<Transform>
  {
    if phase == 1 then [Mirror, Reverse] else []
  }

  /** The state after one call of `next` over `n` clips (app.py:143-146). */
  function Advance(st: CyclerState, n: nat): (r: CyclerState)
    requires n > 0
    ensures st.phase < 2 ==> r.phase < 2
    ensures r.idx < n
    ensures r.idx == 0 <==> st.idx + 1 >= n
    ensures r.phase == if r.idx == 0 then (st.phase + 1) % 2 else st.phase
  {
    var i := st.idx + 1;
    if i >= n then CyclerState(0, (st.phase + 1) % 2) else CyclerState(i, st.phase)
  }

  /** The state after `k` calls. */
  function AdvanceBy(st: CyclerState, n: nat, k: nat): CyclerState
    requires n > 0
    decreases k
  {
    if k == 0 then st else AdvanceBy(Advance(st, n), n, k - 1)
  }

  /** What one call returns from state `st`. */
  function Emit(clips: seq<string>, st: CyclerState): (string, seq<Transform>)
    requires st.idx < |clips|
  {
    (clips[st.idx], TransformFor(st.phase))
  }

  /** What `k` calls return, in order. */
  function Emitted(clips: seq<string>, st: CyclerState, k: nat): (r: seq<(string, seq<Transform>)>)
    requires st.idx < |clips|
    ensures |r| == k
    decreases k
  {
    if k == 0 then [] else [Emit(clips, st)] + Emitted(clips, Advance(st, |clips|), k - 1)
  }

  /** One pass over the clips with one transform. */
  function Pass(clips: seq<string>, from: nat, transform: seq<Transform>): seq<(string, seq<Transform>)>
    requires from <= |clips|
  {
    seq(|clips| - from, j requires 0 <= j < |clips| - from => (clips[from + j], transform))
  }

  /** From position `i` the cycler walks to the end of the list in the same
      phase, then wraps to position 0 with the phase flipped. */
  lemma {:induction false} FinishPass(clips: seq<string>, i: nat, phase: nat)
    requires i < |clips| && phase < 2
    decreases |clips| - i
    ensures Emitted(clips, CyclerState(i, phase), |clips| - i) == Pass(clips, i, TransformFor(phase))
    ensures AdvanceBy(CyclerState(i, phase), |clips|, |clips| - i) == CyclerState(0, 1 - phase)
  {
    var n := |clips|;
    var st := CyclerState(i, phase);
    if i + 1 < n {
      FinishPass(clips, i + 1, phase);
      assert Advance(st, n) == CyclerState(i + 1, phase);
      assert Pass(clips, i, TransformFor(phase)) == [Emit(clips, st)] + Pass(clips, i + 1, TransformFor(phase));
    } else {
      assert Advance(st, n) == CyclerState(0, 1 - phase);
    }
  }

  /** `k` calls then `m` calls return what `k + m` calls return. */
  lemma {:induction false} EmittedSplit(clips: seq<string>, st: CyclerState, k: nat, m: nat)
    requires st.idx < |clips|
    ensures AdvanceBy(st, |clips|, k).idx < |clips|
    ensures Emitted(clips, st, k + m) == Emitted(clips, st, k) + Emitted(clips, AdvanceBy(st, |clips|, k), m)
    ensures AdvanceBy(st, |clips|, k + m) == AdvanceBy(AdvanceBy(st, |clips|, k), |clips|, m)
    decreases k
  {
    if k > 0 {
      EmittedSplit(clips, Advance(st, |clips|), k - 1, m);
    }
  }

  /** A fresh cycler's first 2n calls over n clips hand out every clip as it
      is, then every clip mirrored and reversed, and leave the cycler where it
      started; after the first n calls the position is back at 0 and the phase
      is flipped. */
  lemma {:induction false} TwoPasses(clips: seq<string>)
    requires |clips| > 0
    ensures AdvanceBy(CyclerState(0, 0), |clips|, |clips|) == CyclerState(0, 1)
    ensures AdvanceBy(CyclerState(0, 0), |clips|, 2 * |clips|) == CyclerState(0, 0)
    ensures Emitted(clips, CyclerState(0, 0), 2 * |clips|)
            == Pass(clips, 0, []) + Pass(clips, 0, [Mirror, Reverse])
  {
    var n := |clips|;
    var start := CyclerState(0, 0);
    FinishPass(clips, 0, 0);
    FinishPass(clips, 0, 1);
    EmittedSplit(clips, start, n, n);
    var twice := 2 * n;
    assert twice == n + n;
    var first := Emitted(clips, start, n);
    var second := Emitted(clips, CyclerState(0, 1), n);
    assert first == Pass(clips, 0, TransformFor(0));
    assert second == Pass(clips, 0, TransformFor(1));
    assert Emitted(clips, start, twice) == first + second;
  }

  class FreeClipCycler {
    const clips: seq<string>
    var idx: nat
    var phase: nat

    ghost predicate Valid()
      reads this
    {
      phase < 2 && (idx < |clips| || idx == 0)
    }

    function State(): CyclerState
      reads this
    {
      CyclerState(idx, phase)
    }

    constructor (clips: seq<string>)
      ensures Valid() && this.clips == clips
      ensures State() == CyclerState(0, 0)
    {
      this.clips := clips;
      idx := 0;
      phase := 0;
    }

    /** `next` (app.py:136-148): the clip at the current position with the
        current phase's transform, then one step on, wrapping to the start and
        flipping the phase at the end of the list. An empty list raises in the
        source; every caller builds the cycler from a non-empty list. */
    method Next() returns (clip: string, transform: seq<Transform>)
      requires Valid() && |clips| > 0
      modifies this
      ensures Valid()
      ensures (clip, transform) == Emit(clips, old(State()))
      ensures State() == Advance(old(State()), |clips|)
    {
      clip := clips[idx];
      transform := [];
      if phase == 1 {
        transform := [Mirror, Reverse];
      }
      idx := idx + 1;
      if idx >= |clips| {
        idx := 0;
        phase := (phase + 1) % 2;
      }
    }
  }
}
