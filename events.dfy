/** The timeline entries that the planner, the intro/outro injection, the
    assembler and the edit summary pass along (the dictionaries built at
    app.py:236-252, 258-265, 495-515). */
module Events {
  import opened Common
  import opened Sections
  import opened Cycling

  /** The `"type"` of an entry with the fields that type carries. */
  datatype Kind =
    | Stem(stem: string)
    | Free(clip: string, transform: seq<Transform>)
    | Intro(clip: string)
    | Outro(clip: string)

  /** `time`, the optional `end`, the type, and the optional `beat_idx` and
      `section` of one entry. */
  datatype Event = Event(time: Time, end: Option<Time>, kind: Kind, beat: Option<nat>, section: Option<Label>)

  /** `e.get("end", e["time"])` (app.py:342). */
  function EffectiveEnd(e: Event): (r: Time)
    ensures e.end.None? ==> r == e.time
    ensures e.end.Some? ==> r == e.end.value
  {
    if e.end.Some? then e.end.value else e.time
  }

  predicate SortedByTime(s: seq<Event>)
  {
    forall i, j :: 0 <= i < j < |s| ==> s[i].time <= s[j].time
  }
}
