/**
 * The timing recorder (`TimeManager`, per-group-interval model): a map from group id to
 * the tick its current slice started, and the append-only log of records written to the
 * CSV file. Float seconds are integer ticks; the text form of a duration is a parameter.
 */
module Timing {
  import opened Common

  /** One CSV record: `GroupId;PartId;TimeTaken`. */
  datatype Entry = Entry(groupId: string, partId: string, timeTaken: int)

  /** `start` is `groupStartTime`; `log` holds the records appended in this session, oldest first. */
  datatype Recorder = Recorder(start: map<string, int>, log: seq<Entry>)

  function Empty(): (r: Recorder)
    ensures r.start == map[] && r.log == []
  {
    Recorder(map[], [])
  }

  /** `StartTiming(g)`: stamps the group's start with `now`, overwriting; nothing else changes. */
  function StartTiming(r: Recorder, g: string, now: int): (r': Recorder)
    ensures g in r'.start && r'.start[g] == now
    ensures r'.start.Keys == r.start.Keys + {g}
    ensures forall h :: h in r.start && h != g ==> r'.start[h] == r.start[h]
    ensures r'.log == r.log
  {
    r.(start := r.start[g := now])
  }

  /**
   * `StopTiming(g, p)`: without a start for `g` nothing changes. Otherwise a record
   * (g, p, now - start) is appended iff that elapsed time is positive, and the group's
   * start is re-stamped with `now` either way.
   */
  function StopTiming(r: Recorder, g: string, p: string, now: int): (r': Recorder)
    ensures g !in r.start ==> r' == r
    ensures g in r.start ==> g in r'.start && r'.start[g] == now && r'.start.Keys == r.start.Keys
    ensures forall h :: h in r.start && h != g ==> r'.start[h] == r.start[h]
    ensures g in r.start && now - r.start[g] > 0 ==> r'.log == r.log + [Entry(g, p, now - r.start[g])]
    ensures g in r.start && now - r.start[g] <= 0 ==> r'.log == r.log
  {
    if g in r.start then
      var elapsed := now - r.start[g];
      var log := if elapsed > 0 then r.log + [Entry(g, p, elapsed)] else r.log;
      Recorder(r.start[g := now], log)
    else r
  }

  /** Sum of the durations in a log. */
  function Total(log: seq<Entry>): (t: int)
    decreases |log|
  {
    if |log| == 0 then 0 else log[0].timeTaken + Total(log[1..])
  }

  lemma {:induction false} TotalAppend(a: seq<Entry>, b: seq<Entry>)
    ensures Total(a + b) == Total(a) + Total(b)
    decreases |a|
  {
    if |a| > 0 {
      assert (a + b)[1..] == a[1..] + b;
      TotalAppend(a[1..], b);
    } else {
      assert a + b == b;
    }
  }

  predicate NonDecreasing(times: seq<int>)
  {
    forall k :: 0 <= k < |times| - 1 ==> times[k] <= times[k + 1]
  }

  /** Stops of group `g` for the parts `parts[k]` at the ticks `times[k]`, in order. */
  function StopAll(r: Recorder, g: string, parts: seq<string>, times: seq<int>): (r': Recorder)
    requires |parts| == |times|
    decreases |times|
  {
    if |times| == 0 then r
    else StopAll(StopTiming(r, g, parts[0], times[0]), g, parts[1..], times[1..])
  }

  /**
   * With a start for `g` and non-decreasing stop times from it, the stops only append
   * records of group `g`, and the durations appended sum to the last stop time minus
   * the start: consecutive parts get disjoint slices of the group's dwell time.
   */
  lemma {:induction false} StopsTelescope(r: Recorder, g: string, parts: seq<string>, times: seq<int>)
    requires |parts| == |times| > 0
    requires g in r.start && r.start[g] <= times[0]
    requires NonDecreasing(times)
    ensures var r' := StopAll(r, g, parts, times);
      && |r.log| <= |r'.log| && r'.log[..|r.log|] == r.log
      && (forall k :: |r.log| <= k < |r'.log| ==> r'.log[k].groupId == g && r'.log[k].timeTaken > 0)
      && Total(r'.log[|r.log|..]) == times[|times| - 1] - r.start[g]
    decreases |times|
  {
    var r1 := StopTiming(r, g, parts[0], times[0]);
    StopAppends(r, g, parts[0], times[0]);
    if |times| > 1 {
      NonDecreasingTail(times);
      StopsTelescope(r1, g, parts[1..], times[1..]);
      var r' := StopAll(r1, g, parts[1..], times[1..]);
      assert r' == StopAll(r, g, parts, times);
      LogsCompose(r.log, r1.log, r'.log);
    } else {
      assert StopAll(r, g, parts, times) == r1;
      assert r1.log[..|r.log|] == r.log;
    }
  }

  /** One stop from a start no later than `now` appends at most one positive record of `g`. */
  lemma StopAppends(r: Recorder, g: string, p: string, now: int)
    requires g in r.start && r.start[g] <= now
    ensures var r1 := StopTiming(r, g, p, now);
      && |r.log| <= |r1.log| && r1.log == r.log + r1.log[|r.log|..]
      && (forall k :: |r.log| <= k < |r1.log| ==> r1.log[k].groupId == g && r1.log[k].timeTaken > 0)
      && Total(r1.log[|r.log|..]) == now - r.start[g]
      && g in r1.start && r1.start[g] == now
  {
    var r1 := StopTiming(r, g, p, now);
    if now - r.start[g] > 0 {
      assert r1.log[|r.log|..] == [Entry(g, p, now - r.start[g])];
    } else {
      assert r1.log[|r.log|..] == [];
    }
  }

  lemma NonDecreasingTail(times: seq<int>)
    requires |times| > 0 && NonDecreasing(times)
    ensures NonDecreasing(times[1..])
  {
    forall k | 0 <= k < |times[1..]| - 1
      ensures times[1..][k] <= times[1..][k + 1]
    {
      assert times[1..][k] == times[k + 1] && times[1..][k + 1] == times[k + 2];
    }
  }

  /** Two logs, each extending the previous one, add their appended totals. */
  lemma LogsCompose(a: seq<Entry>, b: seq<Entry>, c: seq<Entry>)
    requires |a| <= |b| <= |c| && b == a + b[|a|..] && c[..|b|] == b
    ensures c[..|a|] == a
    ensures c[|a|..] == b[|a|..] + c[|b|..]
    ensures Total(c[|a|..]) == Total(b[|a|..]) + Total(c[|b|..])
  {
    assert c[|a|..] == b[|a|..] + c[|b|..];
    TotalAppend(b[|a|..], c[|b|..]);
  }

  /** Started at `t0`, the group's recorded durations add up to the last stop time minus `t0`. */
  lemma SliceSumFromStart(r: Recorder, g: string, t0: int, parts: seq<string>, times: seq<int>)
    requires |parts| == |times| > 0
    requires t0 <= times[0] && NonDecreasing(times)
    ensures var r0 := StartTiming(r, g, t0);
            var r' := StopAll(r0, g, parts, times);
            |r.log| <= |r'.log| && r'.log[..|r.log|] == r.log && Total(r'.log[|r.log|..]) == times[|times| - 1] - t0
  {
    StopsTelescope(StartTiming(r, g, t0), g, parts, times);
  }

  // ---------------------------------------------------------------------------
  // The CSV file as a sequence of lines.

  const Separator: char := ';'
  const Header: string := "GroupId;PartId;TimeTaken"

  /** `SaveTimeToCSV`'s line; `time` is the text form of the duration, left abstract. */
  function RecordLine(groupId: string, partId: string, time: string): (line: string)
    ensures |line| == |groupId| + |partId| + |time| + 2
    ensures line[|groupId|] == Separator && line[|groupId| + |partId| + 1] == Separator
  {
    groupId + [Separator] + partId + [Separator] + time
  }

  /** `InitializeCSVFile`: an absent file is created holding only the header; an existing one is kept. */
  function InitializeCsvFile(file: Option<seq<string>>): (lines: seq<string>)
    ensures file.None? ==> lines == [Header]
    ensures file.Some? ==> lines == file.value
  {
    match file
    case None => [Header]
    case Some(existing) => existing
  }

  /** Appending one record keeps every earlier line and adds exactly one. */
  function SaveTimeToCsv(lines: seq<string>, e: Entry, format: int -> string): (lines': seq<string>)
    ensures |lines'| == |lines| + 1 && lines'[..|lines|] == lines
    ensures lines'[|lines|] == RecordLine(e.groupId, e.partId, format(e.timeTaken))
  {
    lines + [RecordLine(e.groupId, e.partId, format(e.timeTaken))]
  }

  /** The file after initialisation and the session's records. */
  function CsvFile(file: Option<seq<string>>, log: seq<Entry>, format: int -> string): (lines: seq<string>)
    decreases |log|
  {
    if |log| == 0 then InitializeCsvFile(file)
    else SaveTimeToCsv(CsvFile(file, log[..|log| - 1], format), log[|log| - 1], format)
  }

  /** A new file starts with the header and then holds one line per record, in log order. */
  lemma {:induction false} CsvFileLayout(log: seq<Entry>, format: int -> string)
    ensures var f := CsvFile(None, log, format);
      && |f| == |log| + 1 && f[0] == Header
      && forall k :: 0 <= k < |log| ==> f[k + 1] == RecordLine(log[k].groupId, log[k].partId, format(log[k].timeTaken))
    decreases |log|
  {
    if |log| > 0 {
      CsvFileLayout(log[..|log| - 1], format);
    }
  }

  /** The fields of a line, split at every separator. */
  function Fields(line: string): (fs: seq<string>)
    ensures |fs| >= 1
    decreases |line|
  {
    if |line| == 0 then [""]
    else
      var rest := Fields(line[1..]);
      if line[0] == Separator then [""] + rest
      else [[line[0]] + rest[0]] + rest[1..]
  }

  lemma {:induction false} FieldsOfPlain(s: string, tail: string)
    requires Separator !in s
    ensures Fields(s + tail) == [s + Fields(tail)[0]] + Fields(tail)[1..]
    decreases |s|
  {
    if |s| > 0 {
      assert (s + tail)[1..] == s[1..] + tail;
      FieldsOfPlain(s[1..], tail);
      assert [s[0]] + (s[1..] + Fields(tail)[0]) == s + Fields(tail)[0];
    } else {
      var fs := Fields(tail);
      assert s + tail == tail;
      assert s + fs[0] == fs[0];
      assert [fs[0]] + fs[1..] == fs;
    }
  }

  lemma FieldsAfterSeparator(s: string)
    ensures Fields([Separator] + s) == [""] + Fields(s)
  {
    assert ([Separator] + s)[1..] == s;
  }

  /** A field followed by a separator and more fields. */
  lemma FieldThenRest(s: string, tail: string)
    requires Separator !in s
    ensures Fields(s + [Separator] + tail) == [s] + Fields(tail)
  {
    FieldsAfterSeparator(tail);
    FieldsOfPlain(s, [Separator] + tail);
    assert s + [Separator] + tail == s + ([Separator] + tail);
    assert s + "" == s;
  }

  lemma PlainField(s: string)
    requires Separator !in s
    ensures Fields(s) == [s]
  {
    FieldsOfPlain(s, []);
    assert s + [] == s;
    assert Fields([]) == [""];
  }

  /** A record line splits back into its three fields when none of them contains the separator. */
  lemma RecordLineFields(groupId: string, partId: string, time: string)
    requires Separator !in groupId && Separator !in partId && Separator !in time
    ensures Fields(RecordLine(groupId, partId, time)) == [groupId, partId, time]
  {
    PlainField(time);
    FieldThenRest(partId, time);
    var tail := partId + [Separator] + time;
    FieldThenRest(groupId, tail);
    assert RecordLine(groupId, partId, time) == groupId + [Separator] + tail;
  }

  /** The header line names the three columns in record order. */
  lemma HeaderFields()
    ensures Fields(Header) == ["GroupId", "PartId", "TimeTaken"]
  {
    assert Header == RecordLine("GroupId", "PartId", "TimeTaken");
    RecordLineFields("GroupId", "PartId", "TimeTaken");
  }
}
