/**
 * The second copy of `TimeManager` (the one beside the part scripts), written out from
 * its own text with map union and an explicit lookup, and shown to behave exactly like
 * the recorder in module Timing, which the rest of the model uses.
 */
module PartsTiming {
  import opened Common
  import Timing

  function Lookup(m: map<string, int>, g: string): (v: Option<int>)
  {
    if g in m then Some(m[g]) else None
  }

  function StartTiming(r: Timing.Recorder, g: string, now: int): (r': Timing.Recorder)
  {
    Timing.Recorder(r.start + map[g := now], r.log)
  }

  function StopTiming(r: Timing.Recorder, g: string, p: string, now: int): (r': Timing.Recorder)
  {
    match Lookup(r.start, g)
    case None => r
    case Some(t) =>
      var taken := now - t;
      var saved := if taken > 0 then [Timing.Entry(g, p, taken)] else [];
      Timing.Recorder(r.start + map[g := now], r.log + saved)
  }

  const Header: string := "GroupId;PartId;TimeTaken"

  function RecordLine(groupId: string, partId: string, time: string): (line: string)
  {
    groupId + ";" + partId + ";" + time
  }

  /** Both copies of `StartTiming` produce the same recorder. */
  lemma StartTimingAgrees(r: Timing.Recorder, g: string, now: int)
    ensures StartTiming(r, g, now) == Timing.StartTiming(r, g, now)
    ensures StartTiming(r, g, now).start[g] == now
  {
  }

  /** Both copies of `StopTiming` produce the same recorder, including the missing-start case. */
  lemma StopTimingAgrees(r: Timing.Recorder, g: string, p: string, now: int)
    ensures StopTiming(r, g, p, now) == Timing.StopTiming(r, g, p, now)
    ensures g in r.start ==> StopTiming(r, g, p, now).start[g] == now
  {
    if g in r.start {
      var taken := now - r.start[g];
      if taken <= 0 {
        assert r.log + [] == r.log;
      }
    }
  }

  /** The header both copies write when they create the file is the same line. */
  lemma HeaderAgrees()
    ensures Header == Timing.Header
  {
  }

  /** Both copies write a record as the same `GroupId;PartId;TimeTaken` line. */
  lemma RecordLineAgrees(groupId: string, partId: string, time: string)
    ensures RecordLine(groupId, partId, time) == Timing.RecordLine(groupId, partId, time)
  {
  }
}
