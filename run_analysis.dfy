/**
 * The statistics `POST /analyze` computes from a run's log before handing
 * it to the language model: the sequence of zones visited, how often each
 * event occurred, how long the robot spent in each zone, and the issues
 * these reveal.
 */
module RunAnalysis {
  import opened Wrappers
  import opened Dicts
  import RunLog

  /**
   * One log entry as the analysis reads it: the normalised fields of a
   * stored entry, any of which may be missing from an entry posted directly.
   */
  datatype LogEntry = LogEntry(eventName: Option<string>, zoneName: Option<string>, timestampMs: Option<int>)

  /** A stored entry, which has all three fields. */
  function FromStored(p: RunLog.ProcessedLog): LogEntry
  {
    LogEntry(Some(p.eventName), Some(p.zoneName), Some(p.timestampMs))
  }

  /** `log.get("event_name") == "ZoneChange"`. */
  predicate IsZoneChange(log: LogEntry)
  {
    log.eventName == Some("ZoneChange")
  }

  // ---------------------------------------------------------------------------
  // zone_sequence
  // ---------------------------------------------------------------------------

  /** Every zone change names its zone; otherwise `log["zone_name"]` raises. */
  predicate ZonesNamed(logs: seq<LogEntry>)
  {
    forall i :: 0 <= i < |logs| && IsZoneChange(logs[i]) ==> logs[i].zoneName.Some?
  }

  /** The zones of the zone changes among the first `n` entries, in log order. */
  function ZonesUpTo(logs: seq<LogEntry>, n: nat): seq<string>
    requires n <= |logs| && ZonesNamed(logs)
  {
    if n == 0 then []
    else ZonesUpTo(logs, n - 1) + (if IsZoneChange(logs[n - 1]) then [logs[n - 1].zoneName.value] else [])
  }

  /** `zone_sequence`. */
  function ZoneSequence(logs: seq<LogEntry>): seq<string>
    requires ZonesNamed(logs)
  {
    ZonesUpTo(logs, |logs|)
  }

  /** The positions of the zone changes among the first `n` entries. */
  function ZoneChangePositions(logs: seq<LogEntry>, n: nat): seq<nat>
    requires n <= |logs|
  {
    if n == 0 then []
    else ZoneChangePositions(logs, n - 1) + (if IsZoneChange(logs[n - 1]) then [n - 1] else [])
  }

  /**
   * The zone sequence lists, for the zone changes in log order and for no
   * other entry, the zone each one names.
   */
  lemma {:induction false} ZoneSequenceSpec(logs: seq<LogEntry>, n: nat)
    requires n <= |logs| && ZonesNamed(logs)
    ensures |ZonesUpTo(logs, n)| == |ZoneChangePositions(logs, n)|
    ensures forall k :: 0 <= k < |ZoneChangePositions(logs, n)| ==>
              ZoneChangePositions(logs, n)[k] < n && IsZoneChange(logs[ZoneChangePositions(logs, n)[k]])
              && ZonesUpTo(logs, n)[k] == logs[ZoneChangePositions(logs, n)[k]].zoneName.value
    ensures forall k, l :: 0 <= k < l < |ZoneChangePositions(logs, n)| ==>
              ZoneChangePositions(logs, n)[k] < ZoneChangePositions(logs, n)[l]
    ensures forall i :: 0 <= i < n && IsZoneChange(logs[i]) ==> i in ZoneChangePositions(logs, n)
  {
    if n > 0 {
      ZoneSequenceSpec(logs, n - 1);
    }
  }

  // ---------------------------------------------------------------------------
  // event_summary
  // ---------------------------------------------------------------------------

  /** `log.get("event_name", "Unknown")`. */
  function EventKey(log: LogEntry): string
  {
    log.eventName.GetOr(RunLog.UnknownName)
  }

  /** The event summary of the first `n` entries. */
  function SummaryUpTo(logs: seq<LogEntry>, n: nat): Dict
    requires n <= |logs|
  {
    if n == 0 then [] else Accumulate(SummaryUpTo(logs, n - 1), EventKey(logs[n - 1]), 1)
  }

  /** How many of the first `n` entries have event `k`. */
  function CountEvent(logs: seq<LogEntry>, k: string, n: nat): nat
    requires n <= |logs|
  {
    if n == 0 then 0 else CountEvent(logs, k, n - 1) + (if EventKey(logs[n - 1]) == k then 1 else 0)
  }


  /**
   * The summary has each event once, counts for each event exactly its
   * entries, so every count is at least 1, and the counts add up to the
   * number of entries.
   */
  lemma {:induction false} SummarySpec(logs: seq<LogEntry>, n: nat)
    requires n <= |logs|
    ensures UniqueKeys(SummaryUpTo(logs, n))
    ensures AllAtLeast(SummaryUpTo(logs, n), 1)
    ensures Sum(SummaryUpTo(logs, n)) == n
    ensures forall k :: Get(SummaryUpTo(logs, n), k, 0) == CountEvent(logs, k, n)
  {
    if n > 0 {
      SummarySpec(logs, n - 1);
      var prev := SummaryUpTo(logs, n - 1);
      var key := EventKey(logs[n - 1]);
      AccumulateUnique(prev, key, 1);
      AccumulateAtLeast(prev, key, 1, 1);
      AccumulateSum(prev, key, 1);
      forall k ensures Get(SummaryUpTo(logs, n), k, 0) == CountEvent(logs, k, n) {
        AccumulateGet(prev, key, 1, k);
      }
    }
  }

  /**
   * The `event_summary` loop: each event once, with the number of its
   * entries, at least 1, the counts adding up to the number of entries.
   */
  method SummarizeEvents(logs: seq<LogEntry>) returns (summary: Dict)
    ensures summary == SummaryUpTo(logs, |logs|)
    ensures UniqueKeys(summary) && AllAtLeast(summary, 1) && Sum(summary) == |logs|
    ensures forall k :: Get(summary, k, 0) == CountEvent(logs, k, |logs|)
  {
    summary := [];
    for i := 0 to |logs|
      invariant summary == SummaryUpTo(logs, i)
    {
      var eventName := logs[i].eventName.GetOr(RunLog.UnknownName);
      summary := Accumulate(summary, eventName, 1);
    }
    SummarySpec(logs, |logs|);
  }

  /** The summary's keys are exactly the events that occur. */
  lemma SummaryKeys(logs: seq<LogEntry>, k: string)
    ensures k in Keys(SummaryUpTo(logs, |logs|)) <==> CountEvent(logs, k, |logs|) > 0
  {
    SummarySpec(logs, |logs|);
    var s := SummaryUpTo(logs, |logs|);
    var i := Find(s, k);
    if i >= 0 {
      assert s[i].value >= 1;
    }
  }

  // ---------------------------------------------------------------------------
  // zone_times
  // ---------------------------------------------------------------------------

  /**
   * Every zone change, and the entry after it, has a timestamp; otherwise
   * `log["timestamp_ms"]` raises.
   */
  predicate TimesPresent(logs: seq<LogEntry>)
  {
    forall i :: 0 <= i < |logs| && IsZoneChange(logs[i]) ==>
      logs[i].timestampMs.Some? && (i + 1 < |logs| ==> logs[i + 1].timestampMs.Some?)
  }

  /** An entry the statistics can be computed for without a `KeyError`. */
  predicate Analyzable(logs: seq<LogEntry>)
  {
    ZonesNamed(logs) && TimesPresent(logs)
  }

  /** The time from the zone change at `i` to the next entry, or 0 for the last entry. */
  function Dwell(logs: seq<LogEntry>, i: nat): int
    requires i < |logs| && TimesPresent(logs) && IsZoneChange(logs[i])
  {
    var start := logs[i].timestampMs.value;
    var end := if i + 1 < |logs| then logs[i + 1].timestampMs.value else start;
    end - start
  }

  /** The zone times of the first `n` entries. */
  function ZoneTimesUpTo(logs: seq<LogEntry>, n: nat): Dict
    requires n <= |logs| && Analyzable(logs)
  {
    if n == 0 then []
    else if IsZoneChange(logs[n - 1]) then
      Accumulate(ZoneTimesUpTo(logs, n - 1), logs[n - 1].zoneName.value, Dwell(logs, n - 1))
    else ZoneTimesUpTo(logs, n - 1)
  }

  /** The dwell times of all visits to zone `z` among the first `n` entries, added up. */
  function ZoneTotal(logs: seq<LogEntry>, z: string, n: nat): int
    requires n <= |logs| && Analyzable(logs)
  {
    if n == 0 then 0
    else ZoneTotal(logs, z, n - 1) +
         (if IsZoneChange(logs[n - 1]) && logs[n - 1].zoneName.value == z then Dwell(logs, n - 1) else 0)
  }


  /** Each zone appears once, with the dwell times of all its visits added up. */
  lemma {:induction false} ZoneTimesSpec(logs: seq<LogEntry>, n: nat)
    requires n <= |logs| && Analyzable(logs)
    ensures UniqueKeys(ZoneTimesUpTo(logs, n))
    ensures forall z :: Get(ZoneTimesUpTo(logs, n), z, 0) == ZoneTotal(logs, z, n)
  {
    if n > 0 {
      ZoneTimesSpec(logs, n - 1);
      if IsZoneChange(logs[n - 1]) {
        var prev := ZoneTimesUpTo(logs, n - 1);
        var zone := logs[n - 1].zoneName.value;
        var d := Dwell(logs, n - 1);
        AccumulateUnique(prev, zone, d);
        forall z ensures Get(ZoneTimesUpTo(logs, n), z, 0) == ZoneTotal(logs, z, n) {
          AccumulateGet(prev, zone, d, z);
        }
      }
    }
  }

  /** The elements of `s` without repetitions, in the order of their first occurrence. */
  function Distinct(s: seq<string>): seq<string>
  {
    if |s| == 0 then []
    else
      var d := Distinct(s[..|s| - 1]);
      if s[|s| - 1] in d then d else d + [s[|s| - 1]]
  }

  /** `Distinct` keeps every element and repeats none. */
  lemma {:induction false} DistinctSpec(s: seq<string>)
    ensures forall x :: x in Distinct(s) <==> x in s
    ensures forall i, j :: 0 <= i < j < |Distinct(s)| ==> Distinct(s)[i] != Distinct(s)[j]
  {
    if |s| > 0 {
      var p := s[..|s| - 1];
      DistinctSpec(p);
      assert s == p + [s[|s| - 1]];
    }
  }

  /** The zones appear in the order of their first visit. */
  lemma {:induction false} ZoneTimesKeys(logs: seq<LogEntry>, n: nat)
    requires n <= |logs| && Analyzable(logs)
    ensures Keys(ZoneTimesUpTo(logs, n)) == Distinct(ZonesUpTo(logs, n))
  {
    if n > 0 {
      ZoneTimesKeys(logs, n - 1);
      var zs := ZonesUpTo(logs, n);
      var prev := ZonesUpTo(logs, n - 1);
      if IsZoneChange(logs[n - 1]) {
        var zone := logs[n - 1].zoneName.value;
        AccumulateKeys(ZoneTimesUpTo(logs, n - 1), zone, Dwell(logs, n - 1));
        assert zs == prev + [zone];
        assert zs[..|zs| - 1] == prev && zs[|zs| - 1] == zone;
        assert Distinct(zs) == if zone in Distinct(prev) then Distinct(prev) else Distinct(prev) + [zone];
      } else {
        assert zs == prev + [] == prev;
      }
    }
  }

  /**
   * The `zone_times` loop: the zones in the order of their first visit, each
   * with the dwell times of all its visits added up.
   */
  method ComputeZoneTimes(logs: seq<LogEntry>) returns (zoneTimes: Dict)
    requires Analyzable(logs)
    ensures zoneTimes == ZoneTimesUpTo(logs, |logs|)
    ensures UniqueKeys(zoneTimes) && Keys(zoneTimes) == Distinct(ZoneSequence(logs))
    ensures forall z :: Get(zoneTimes, z, 0) == ZoneTotal(logs, z, |logs|)
  {
    zoneTimes := [];
    for i := 0 to |logs|
      invariant zoneTimes == ZoneTimesUpTo(logs, i)
    {
      var log := logs[i];
      if log.eventName == Some("ZoneChange") {
        var zone := log.zoneName.value;
        var startTime := log.timestampMs.value;
        var endTime := if i + 1 < |logs| then logs[i + 1].timestampMs.value else startTime;
        zoneTimes := Accumulate(zoneTimes, zone, endTime - startTime);
      }
    }
    ZoneTimesSpec(logs, |logs|);
    ZoneTimesKeys(logs, |logs|);
  }

  /** A zone has a time exactly when it occurs in the zone sequence. */
  lemma ZoneTimesCoverSequence(logs: seq<LogEntry>, z: string)
    requires Analyzable(logs)
    ensures z in Keys(ZoneTimesUpTo(logs, |logs|)) <==> z in ZoneSequence(logs)
  {
    ZoneTimesKeys(logs, |logs|);
    DistinctSpec(ZoneSequence(logs));
  }

  /** Timestamps never decrease from one entry to the next. */
  predicate NonDecreasingTimes(logs: seq<LogEntry>)
  {
    forall i :: 0 <= i && i + 1 < |logs| && logs[i].timestampMs.Some? && logs[i + 1].timestampMs.Some? ==>
      logs[i].timestampMs.value <= logs[i + 1].timestampMs.value
  }

  /** With timestamps in order, no zone has a negative time. */
  lemma {:induction false} ZoneTimesNonNegative(logs: seq<LogEntry>, n: nat)
    requires n <= |logs| && Analyzable(logs) && NonDecreasingTimes(logs)
    ensures AllAtLeast(ZoneTimesUpTo(logs, n), 0)
  {
    if n > 0 {
      ZoneTimesNonNegative(logs, n - 1);
      if IsZoneChange(logs[n - 1]) {
        AccumulateAtLeast(ZoneTimesUpTo(logs, n - 1), logs[n - 1].zoneName.value, Dwell(logs, n - 1), 0);
      }
    }
  }

  /** A zone change as the very last entry adds no time to its zone. */
  lemma FinalZoneChangeAddsNothing(logs: seq<LogEntry>, z: string)
    requires |logs| > 0 && Analyzable(logs) && IsZoneChange(logs[|logs| - 1])
    ensures Get(ZoneTimesUpTo(logs, |logs|), z, 0) == Get(ZoneTimesUpTo(logs, |logs| - 1), z, 0)
  {
    var n := |logs|;
    AccumulateGet(ZoneTimesUpTo(logs, n - 1), logs[n - 1].zoneName.value, Dwell(logs, n - 1), z);
  }

  // ---------------------------------------------------------------------------
  // issues
  // ---------------------------------------------------------------------------

  /** Time in one zone, in milliseconds, beyond which the robot counts as stuck. */
  const StuckThresholdMs: int := 10000

  /** An oscillation count beyond which the robot counts as oscillating. */
  const OscillationThreshold: int := 2

  /** A detected issue; the model keeps its data, not its message text. */
  datatype Issue = Stuck(zone: string, timeMs: int) | Oscillation(count: nat)

  /** The stuck issues for the first `n` zones, in zone order. */
  function StuckUpTo(zoneTimes: Dict, n: nat): seq<Issue>
    requires n <= |zoneTimes|
  {
    if n == 0 then []
    else StuckUpTo(zoneTimes, n - 1) +
         (if zoneTimes[n - 1].value > StuckThresholdMs then [Stuck(zoneTimes[n - 1].key, zoneTimes[n - 1].value)] else [])
  }

  /** The loop over `zone_times.items()` that reports stuck zones. */
  method FindStuck(zoneTimes: Dict) returns (issues: seq<Issue>)
    ensures issues == StuckUpTo(zoneTimes, |zoneTimes|)
  {
    issues := [];
    for i := 0 to |zoneTimes|
      invariant issues == StuckUpTo(zoneTimes, i)
    {
      var entry := zoneTimes[i];
      if entry.value > StuckThresholdMs {
        issues := issues + [Stuck(entry.key, entry.value)];
      }
    }
  }

  /** The stuck issues of the first `n` entries are exactly the entries over the threshold. */
  lemma {:induction false} StuckUpToMembers(zoneTimes: Dict, n: nat, issue: Issue)
    requires n <= |zoneTimes|
    ensures issue in StuckUpTo(zoneTimes, n) <==>
              issue.Stuck? && issue.timeMs > StuckThresholdMs &&
              exists i :: 0 <= i < n && zoneTimes[i] == Entry(issue.zone, issue.timeMs)
  {
    if n > 0 {
      StuckUpToMembers(zoneTimes, n - 1, issue);
    }
  }

  /** A zone is reported stuck, with its time, exactly when its time exceeds 10 seconds. */
  lemma StuckSpec(zoneTimes: Dict, z: string, ms: int)
    requires UniqueKeys(zoneTimes)
    ensures Stuck(z, ms) in StuckUpTo(zoneTimes, |zoneTimes|) <==>
              z in Keys(zoneTimes) && Get(zoneTimes, z, 0) == ms && ms > StuckThresholdMs
  {
    StuckUpToMembers(zoneTimes, |zoneTimes|, Stuck(z, ms));
    var f := Find(zoneTimes, z);
    if f >= 0 {
      assert zoneTimes[f] == Entry(z, Get(zoneTimes, z, 0));
    }
    if exists i :: 0 <= i < |zoneTimes| && zoneTimes[i] == Entry(z, ms) {
      var i :| 0 <= i < |zoneTimes| && zoneTimes[i] == Entry(z, ms);
      FindUnique(zoneTimes, z, i);
    }
  }

  /** Whether the zone sequence returns at `i` to the zone it left at `i - 1`. */
  predicate IsOscillation(zs: seq<string>, i: int)
  {
    2 <= i < |zs| && zs[i] == zs[i - 2] && zs[i] != zs[i - 1]
  }

  /** The positions before `n` at which the zone sequence oscillates. */
  function OscillationsBelow(zs: seq<string>, n: int): set<int>
  {
    set i | 2 <= i < n && IsOscillation(zs, i)
  }

  /** All positions at which the zone sequence oscillates. */
  function OscillationPoints(zs: seq<string>): set<int>
  {
    OscillationsBelow(zs, |zs|)
  }

  /** The `oscillations` loop: it counts the oscillation points. */
  method CountOscillations(zs: seq<string>) returns (count: nat)
    ensures count == |OscillationPoints(zs)|
  {
    count := 0;
    var i := 2;
    if |zs| < 2 {
      assert OscillationPoints(zs) == {};
      return;
    }
    assert OscillationsBelow(zs, 2) == {};
    while i < |zs|
      invariant 2 <= i <= |zs|
      invariant count == |OscillationsBelow(zs, i)|
    {
      if zs[i] == zs[i - 2] && zs[i] != zs[i - 1] {
        assert OscillationsBelow(zs, i + 1) == OscillationsBelow(zs, i) + {i};
        count := count + 1;
      } else {
        assert OscillationsBelow(zs, i + 1) == OscillationsBelow(zs, i);
      }
      i := i + 1;
    }
  }

  /** All issues: the stuck zones in zone order, then oscillation when it happened more than twice. */
  function Issues(zoneTimes: Dict, zs: seq<string>): seq<Issue>
  {
    var count := |OscillationPoints(zs)|;
    StuckUpTo(zoneTimes, |zoneTimes|) + (if count > OscillationThreshold then [Oscillation(count)] else [])
  }

  /** An oscillation issue is reported, with the count, exactly when the count exceeds 2. */
  lemma OscillationIssueSpec(zoneTimes: Dict, zs: seq<string>, c: nat)
    ensures Oscillation(c) in Issues(zoneTimes, zs) <==> c == |OscillationPoints(zs)| && c > OscillationThreshold
  {
    StuckUpToMembers(zoneTimes, |zoneTimes|, Oscillation(c));
  }

  /** Going back and forth between two zones: A, B, A, B, A oscillates three times and is reported. */
  lemma BackAndForthIsReported()
    ensures |OscillationPoints(["A", "B", "A", "B", "A"])| == 3
    ensures Oscillation(3) in Issues([], ["A", "B", "A", "B", "A"])
  {
    assert OscillationPoints(["A", "B", "A", "B", "A"]) == {2, 3, 4};
  }

  /** A, B, A, B oscillates only twice, which is not reported; staying in one zone never oscillates. */
  lemma ShortOscillationIsNot()
    ensures |OscillationPoints(["A", "B", "A", "B"])| == 2
    ensures Issues([], ["A", "B", "A", "B"]) == []
    ensures OscillationPoints(["A", "A", "A"]) == {}
  {
    assert OscillationPoints(["A", "B", "A", "B"]) == {2, 3};
  }

  // ---------------------------------------------------------------------------
  // POST /analyze
  // ---------------------------------------------------------------------------

  /** The statistics in the reply, the same in the mock and the AI analysis. */
  datatype Stats = Stats(zoneSequence: seq<string>, eventSummary: Dict, zoneTimes: Dict, issues: seq<Issue>)

  /** The statistics of a log that raises no `KeyError`. */
  function StatsOf(logs: seq<LogEntry>): Stats
    requires Analyzable(logs)
  {
    var zoneTimes := ZoneTimesUpTo(logs, |logs|);
    var zs := ZoneSequence(logs);
    Stats(zs, SummaryUpTo(logs, |logs|), zoneTimes, Issues(zoneTimes, zs))
  }

  /** A JSON object posted to `/analyze`: either a stored run's id or a log of its own. */
  datatype AnalyzeBody = AnalyzeBody(
    runId: Option<string>, logs: Option<seq<LogEntry>>, metadata: Option<RunLog.Metadata>, otherFields: nat)

  /** Python's `not data`. */
  predicate NoAnalyzeData(body: Option<AnalyzeBody>)
  {
    body.None? ||
    (body.value.runId.None? && body.value.logs.None? && body.value.metadata.None? && body.value.otherFields == 0)
  }

  /** The entries of a stored run. */
  function StoredEntries(doc: RunLog.RunDoc): seq<LogEntry>
  {
    seq(|doc.logs|, i requires 0 <= i < |doc.logs| => FromStored(doc.logs[i]))
  }

  /** A run stored by `/ingest` always has a zone and a timestamp on every entry. */
  lemma StoredEntriesAnalyzable(doc: RunLog.RunDoc)
    ensures Analyzable(StoredEntries(doc))
    ensures |StoredEntries(doc)| == |doc.logs|
  {
  }

  /** The log to analyze: the stored run's, none when it is not found, or the posted one (empty if absent). */
  function LogsFor(data: AnalyzeBody, runs: map<string, RunLog.RunDoc>): Option<seq<LogEntry>>
  {
    if data.runId.Some? then
      if data.runId.value in runs then Some(StoredEntries(runs[data.runId.value])) else None
    else Some(data.logs.GetOr([]))
  }

  /** The reply: an error with its status, or the statistics and the run they are saved to. */
  datatype AnalyzeResponse =
    | AnalyzeFailed(status: int, error: string)
    | Analyzed(stats: Stats, savedTo: Option<string>)

  const NoDataError: string := "No data provided"
  const RunNotFoundError: string := "Run not found"
  const NoLogsError: string := "No logs to analyze"
  /** `str(KeyError("zone_name"))`. */
  const MissingZoneError: string := "'zone_name'"
  /** `str(KeyError("timestamp_ms"))`. */
  const MissingTimestampError: string := "'timestamp_ms'"

  /**
   * `POST /analyze`, up to the language-model call. `runs` stands for the
   * runs collection, by id. A missing or empty body, an unknown run and an
   * empty log are rejected; a zone change without a zone, or without a
   * timestamp on it or on its successor, fails with 500; otherwise the
   * reply carries the statistics, saved back to the run when one was named.
   */
  method Analyze(body: Option<AnalyzeBody>, runs: map<string, RunLog.RunDoc>) returns (r: AnalyzeResponse)
    ensures NoAnalyzeData(body) ==> r == AnalyzeFailed(400, NoDataError)
    ensures !NoAnalyzeData(body) && LogsFor(body.value, runs).None? ==> r == AnalyzeFailed(404, RunNotFoundError)
    ensures !NoAnalyzeData(body) && LogsFor(body.value, runs).Some? ==>
              var logs := LogsFor(body.value, runs).value;
              && (|logs| == 0 ==> r == AnalyzeFailed(400, NoLogsError))
              && (|logs| > 0 && !ZonesNamed(logs) ==> r == AnalyzeFailed(500, MissingZoneError))
              && (|logs| > 0 && ZonesNamed(logs) && !TimesPresent(logs) ==> r == AnalyzeFailed(500, MissingTimestampError))
              && (|logs| > 0 && Analyzable(logs) ==>
                    r == Analyzed(StatsOf(logs),
                                  if body.value.runId.Some? && body.value.runId.value != "" then body.value.runId else None))
  {
    if NoAnalyzeData(body) {
      return AnalyzeFailed(400, NoDataError);
    }
    var data := body.value;
    var logs: seq<LogEntry>;
    if data.runId.Some? {
      if data.runId.value !in runs {
        return AnalyzeFailed(404, RunNotFoundError);
      }
      logs := StoredEntries(runs[data.runId.value]);
    } else {
      logs := data.logs.GetOr([]);
    }
    if |logs| == 0 {
      return AnalyzeFailed(400, NoLogsError);
    }
    if !ZonesNamed(logs) {
      return AnalyzeFailed(500, MissingZoneError);
    }
    var zoneSequence := ZoneSequence(logs);
    var eventSummary := SummarizeEvents(logs);
    if !TimesPresent(logs) {
      return AnalyzeFailed(500, MissingTimestampError);
    }
    var zoneTimes := ComputeZoneTimes(logs);
    var issues := FindStuck(zoneTimes);
    var oscillations := CountOscillations(zoneSequence);
    if oscillations > OscillationThreshold {
      issues := issues + [Oscillation(oscillations)];
    }
    var savedTo := if data.runId.Some? && data.runId.value != "" then data.runId else None;
    r := Analyzed(Stats(zoneSequence, eventSummary, zoneTimes, issues), savedTo);
  }
}
