/**
 * The list of daily notification times that both the profile page and the
 * notifications page edit: "Add Time" appends 09:00 and is offered only below
 * ten entries; "Remove" drops one entry and is offered only while more than one
 * entry exists.
 */
module TimeList {

  const MaxTimes: nat := 10
  const NewTime: string := "09:00"

  /** Clicking "Add Time" (the button exists only while fewer than MaxTimes entries exist). */
  function Added(times: seq<string>): (r: seq<string>)
    ensures |times| < MaxTimes ==> |r| == |times| + 1 && r[..|times|] == times && r[|times|] == NewTime
    ensures |times| >= MaxTimes ==> r == times
  {
    if |times| < MaxTimes then times + [NewTime] else times
  }

  /** Clicking "Remove" on entry `index` (the button exists only while more than one entry
      exists): `times.filter((_, i) => i !== index)`. */
  function Removed(times: seq<string>, index: nat): (r: seq<string>)
    requires index < |times|
    ensures |times| > 1 ==> |r| == |times| - 1
                            && (forall j :: 0 <= j < index ==> r[j] == times[j])
                            && (forall j :: index <= j < |r| ==> r[j] == times[j + 1])
    ensures |times| <= 1 ==> r == times
  {
    if |times| > 1 then times[..index] + times[index + 1..] else times
  }

  /** Between one and MaxTimes entries is a state both buttons keep. */
  predicate InBounds(times: seq<string>) {
    1 <= |times| <= MaxTimes
  }

  /** Removal never empties the list and addition never grows it past MaxTimes. */
  lemma EditsKeepBounds(times: seq<string>, index: nat)
    requires InBounds(times) && index < |times|
    ensures InBounds(Added(times))
    ensures InBounds(Removed(times, index))
    ensures |Added(times)| >= |times| && |Removed(times, index)| <= |times|
  {
  }
}
