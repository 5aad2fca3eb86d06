/**
 * The sync worker's health monitor: daily and overall counters that
 * `update_stats` feeds, the reset when the date changes, the bounded buffer
 * of recent processing times, and the rule that decides the reported
 * status. Dates are day numbers and times whole seconds, passed in where
 * the program reads the clock; processing times are whole milliseconds.
 */
module Health {
  import opened Wrappers
  import opened SyncTypes

  /** `deque(maxlen=1000)` */
  const MaxProcessingSamples: nat := 1000

  /** The four counters that start from zero every day. */
  datatype Daily = Daily(processed: int, added: int, updated: int, removed: int)

  const ZeroDaily := Daily(0, 0, 0, 0)

  /** The keyword arguments of `update_stats`; an absent or wrongly typed argument is `None`. */
  datatype StatsUpdate = StatsUpdate(
    processedEvents: Option<int>,
    failedEvents: Option<int>,
    lastSync: Option<int>,
    lastFullSync: Option<int>,
    processingTimeMs: Option<int>,
    syncStats: Option<SyncStats>,
    eventTypes: Option<seq<FileEventType>>)

  /** Everything the monitor keeps between calls. */
  datatype Monitor = Monitor(
    currentDate: int,
    daily: Daily,
    samples: seq<int>,
    totalProcessed: int,
    totalFailed: int,
    lastSync: Option<int>,
    lastFullSync: Option<int>)

  /** `_check_daily_reset`: a new date zeroes the daily counters. */
  function DailyReset(m: Monitor, today: int): Monitor
  {
    if today != m.currentDate then m.(currentDate := today, daily := ZeroDaily) else m
  }

  /** Appending to the bounded deque: the oldest sample falls out when it is full. */
  function RecordSample(samples: seq<int>, x: int): (r: seq<int>)
    ensures |samples| <= MaxProcessingSamples ==> |r| <= MaxProcessingSamples
  {
    if |samples| < MaxProcessingSamples then samples + [x] else samples[1..] + [x]
  }

  /** How often `t` occurs in `ts`. */
  function CountOf(ts: seq<FileEventType>, t: FileEventType): (r: nat)
    ensures r <= |ts|
  {
    if ts == [] then 0 else CountOf(ts[..|ts| - 1], t) + (if ts[|ts| - 1] == t then 1 else 0)
  }

  /** The `event_types` loop, from its last element: created, modified and deleted bump added, updated and removed. */
  function Tally(d: Daily, ts: seq<FileEventType>): Daily
  {
    if ts == [] then d
    else
      var e := Tally(d, ts[..|ts| - 1]);
      match ts[|ts| - 1]
      case Created => e.(added := e.added + 1)
      case Modified => e.(updated := e.updated + 1)
      case Deleted => e.(removed := e.removed + 1)
      case Moved => e
  }

  /** The `processed_events` argument: counts towards the total and the day. */
  function AddProcessed(m: Monitor, n: Option<int>): Monitor
  {
    if n.Some? then
      m.(totalProcessed := m.totalProcessed + n.value, daily := m.daily.(processed := m.daily.processed + n.value))
    else m
  }

  /** The `failed_events` argument: counts towards the total only. */
  function AddFailed(m: Monitor, n: Option<int>): Monitor
  {
    if n.Some? then m.(totalFailed := m.totalFailed + n.value) else m
  }

  /** The `last_sync` and `last_full_sync` arguments replace the stored times. */
  function SetTimes(m: Monitor, lastSync: Option<int>, lastFullSync: Option<int>): Monitor
  {
    var m' := if lastSync.Some? then m.(lastSync := lastSync) else m;
    if lastFullSync.Some? then m'.(lastFullSync := lastFullSync) else m'
  }

  /** The `processing_time_ms` argument goes into the deque. */
  function AddSample(m: Monitor, t: Option<int>): Monitor
  {
    if t.Some? then m.(samples := RecordSample(m.samples, t.value)) else m
  }

  /** The `sync_stats` argument: its four counters go to the day, and the full sync is stamped now. */
  function AddSyncStats(m: Monitor, stats: Option<SyncStats>, now: int): Monitor
  {
    if stats.Some? then
      var s := stats.value;
      m.(daily := Daily(m.daily.processed + s.filesScanned, m.daily.added + s.filesAdded,
                         m.daily.updated + s.filesUpdated, m.daily.removed + s.filesRemoved),
         lastFullSync := Some(now))
    else m
  }

  /** The `event_types` argument. */
  function AddEventTypes(m: Monitor, ts: Option<seq<FileEventType>>): Monitor
  {
    if ts.Some? then m.(daily := Tally(m.daily, ts.value)) else m
  }

  /** `update_stats`, step by step as the method runs. */
  function Updated(m: Monitor, today: int, now: int, u: StatsUpdate): Monitor
  {
    var m0 := DailyReset(m, today);
    var m1 := AddFailed(AddProcessed(m0, u.processedEvents), u.failedEvents);
    var m2 := AddSample(SetTimes(m1, u.lastSync, u.lastFullSync), u.processingTimeMs);
    AddEventTypes(AddSyncStats(m2, u.syncStats, now), u.eventTypes)
  }

  /** The database check: false without a manager, when the check raises, or when it reports anything but "healthy". */
  datatype DatabaseProbe = NoManager | CheckRaises | Reports(status: string)

  /** The watcher check: false without an observer, without `is_alive`, or when it raises. */
  datatype ObserverProbe = NoObserver | WithoutIsAlive | IsAliveRaises | IsAlive(alive: bool)

  function DatabaseConnected(p: DatabaseProbe): bool
  {
    match p
    case Reports(status) => status == "healthy"
    case _ => false
  }

  function WatcherActive(o: ObserverProbe): bool
  {
    match o
    case IsAlive(alive) => alive
    case _ => false
  }

  /** The status `/health` reports. */
  function HealthStatus(databaseConnected: bool, watcherActive: bool): string
  {
    if databaseConnected && watcherActive then "healthy" else "unhealthy"
  }

  /** "healthy" exactly when the database reports healthy and the observer is alive. */
  lemma HealthyIff(p: DatabaseProbe, o: ObserverProbe)
    ensures HealthStatus(DatabaseConnected(p), WatcherActive(o)) == "healthy" <==> p == Reports("healthy") && o == IsAlive(true)
    ensures HealthStatus(DatabaseConnected(p), WatcherActive(o)) in {"healthy", "unhealthy"}
  {
  }

  /** A monitor built without a database manager or without an observer is never healthy. */
  lemma MissingDependencyIsUnhealthy(p: DatabaseProbe, o: ObserverProbe)
    requires p == NoManager || o == NoObserver
    ensures HealthStatus(DatabaseConnected(p), WatcherActive(o)) == "unhealthy"
  {
  }

  /** The deque keeps the most recent samples, at most 1000 of them, oldest first. */
  lemma RecordSampleKeepsRecent(samples: seq<int>, x: int)
    requires |samples| <= MaxProcessingSamples
    ensures var r := RecordSample(samples, x);
      var all := samples + [x];
      && |r| == (if |all| <= MaxProcessingSamples then |all| else MaxProcessingSamples)
      && r == all[|all| - |r|..]
  {
    var all := samples + [x];
    if |samples| == MaxProcessingSamples {
      assert samples[1..] + [x] == all[1..];
    } else {
      assert all[0..] == all;
    }
  }

  lemma {:induction false} TallyCounts(d: Daily, ts: seq<FileEventType>)
    ensures var r := Tally(d, ts);
      && r.processed == d.processed
      && r.added == d.added + CountOf(ts, Created)
      && r.updated == d.updated + CountOf(ts, Modified)
      && r.removed == d.removed + CountOf(ts, Deleted)
  {
    if ts != [] {
      TallyCounts(d, ts[..|ts| - 1]);
    }
  }

  lemma {:induction false} CountsCoverAll(ts: seq<FileEventType>)
    ensures CountOf(ts, Created) + CountOf(ts, Modified) + CountOf(ts, Deleted) + CountOf(ts, Moved) == |ts|
  {
    if ts != [] {
      CountsCoverAll(ts[..|ts| - 1]);
    }
  }

  /** Every event type except a move adds exactly one to one of the three daily counters. */
  lemma TallyIgnoresMoves(d: Daily, ts: seq<FileEventType>)
    ensures var r := Tally(d, ts);
      (r.added - d.added) + (r.updated - d.updated) + (r.removed - d.removed) == |ts| - CountOf(ts, Moved)
  {
    TallyCounts(d, ts);
    CountsCoverAll(ts);
  }

  /**
   * What one `update_stats` call does, in closed form: the daily counters
   * start again from zero on a new date, processed events count towards
   * the total and the day, failed events towards their total only, a sync
   * result adds its four counters to the day and stamps the full sync, and
   * the event types add to added, updated and removed.
   */
  lemma UpdateStatsEffect(m: Monitor, today: int, now: int, u: StatsUpdate)
    ensures var r := Updated(m, today, now, u);
      var base := if today != m.currentDate then ZeroDaily else m.daily;
      var processed := if u.processedEvents.Some? then u.processedEvents.value else 0;
      var s := if u.syncStats.Some? then u.syncStats.value else ZeroStats;
      var ts := if u.eventTypes.Some? then u.eventTypes.value else [];
      && r.currentDate == today
      && r.totalProcessed == m.totalProcessed + processed
      && r.totalFailed == m.totalFailed + (if u.failedEvents.Some? then u.failedEvents.value else 0)
      && r.daily.processed == base.processed + processed + s.filesScanned
      && r.daily.added == base.added + s.filesAdded + CountOf(ts, Created)
      && r.daily.updated == base.updated + s.filesUpdated + CountOf(ts, Modified)
      && r.daily.removed == base.removed + s.filesRemoved + CountOf(ts, Deleted)
      && r.lastSync == (if u.lastSync.Some? then u.lastSync else m.lastSync)
      && r.lastFullSync == (if u.syncStats.Some? then Some(now) else if u.lastFullSync.Some? then u.lastFullSync else m.lastFullSync)
      && r.samples == (if u.processingTimeMs.Some? then RecordSample(m.samples, u.processingTimeMs.value) else m.samples)
  {
    var m0 := DailyReset(m, today);
    var m1 := AddFailed(AddProcessed(m0, u.processedEvents), u.failedEvents);
    var m2 := AddSample(SetTimes(m1, u.lastSync, u.lastFullSync), u.processingTimeMs);
    var m3 := AddSyncStats(m2, u.syncStats, now);
    if u.eventTypes.Some? {
      TallyCounts(m3.daily, u.eventTypes.value);
    }
  }

  /** A new date zeroes the four daily counters and keeps the totals and the timestamps. */
  lemma DailyResetRule(m: Monitor, today: int)
    ensures var r := DailyReset(m, today);
      && r.currentDate == today
      && (today != m.currentDate ==> r.daily == ZeroDaily)
      && (today == m.currentDate ==> r == m)
      && r.totalProcessed == m.totalProcessed && r.totalFailed == m.totalFailed
      && r.lastSync == m.lastSync && r.lastFullSync == m.lastFullSync && r.samples == m.samples
  {
  }

  /**
   * A sync of 100 scanned, 15 added, 8 updated and 3 removed files,
   * reported with two creations, a modification and a deletion as four
   * processed events, leaves 104, 17, 9 and 4 on a fresh day.
   */
  lemma StatisticsExample(m: Monitor, today: int, now: int, u: StatsUpdate)
    requires m.currentDate == today && m.daily == ZeroDaily && m.totalProcessed == 0 && m.totalFailed == 0
    requires u == StatsUpdate(Some(4), None, None, None, Some(125), Some(SyncStats(100, 15, 8, 3, 2)),
                              Some([Created, Created, Modified, Deleted]))
    ensures Updated(m, today, now, u).daily == Daily(104, 17, 9, 4)
    ensures Updated(m, today, now, u).totalProcessed == 4 && Updated(m, today, now, u).totalFailed == 0
  {
    UpdateStatsEffect(m, today, now, u);
    ExampleEventCounts(u.eventTypes.value);
  }

  /** Two creations, a modification and a deletion. */
  lemma ExampleEventCounts(ts: seq<FileEventType>)
    requires ts == [Created, Created, Modified, Deleted]
    ensures CountOf(ts, Created) == 2 && CountOf(ts, Modified) == 1 && CountOf(ts, Deleted) == 1
  {
    var t1: seq<FileEventType> := [Created];
    var t2 := t1 + [Created];
    var t3 := t2 + [Modified];
    assert t1[..0] == [];
    assert CountOf(t1, Created) == 1 && CountOf(t1, Modified) == 0 && CountOf(t1, Deleted) == 0;
    assert t2[..1] == t1;
    assert CountOf(t2, Created) == 2 && CountOf(t2, Modified) == 0 && CountOf(t2, Deleted) == 0;
    assert t3[..2] == t2;
    assert CountOf(t3, Created) == 2 && CountOf(t3, Modified) == 1 && CountOf(t3, Deleted) == 0;
    assert ts[..3] == t3;
  }

  /** `HealthMonitor` */
  class HealthMonitor {
    var currentDate: int
    var filesProcessedToday: int
    var filesAddedToday: int
    var filesUpdatedToday: int
    var filesRemovedToday: int
    var processingTimes: seq<int>
    var totalProcessedEvents: int
    var totalFailedEvents: int
    var lastSync: Option<int>
    var lastFullSync: Option<int>
    var dbManager: DatabaseProbe
    var watcherObserver: ObserverProbe

    /** The monitor's counters as a value. */
    function State(): Monitor
      reads this
    {
      Monitor(currentDate, Daily(filesProcessedToday, filesAddedToday, filesUpdatedToday, filesRemovedToday),
              processingTimes, totalProcessedEvents, totalFailedEvents, lastSync, lastFullSync)
    }

    /** The deque never holds more than its maximum length. */
    predicate Valid()
      reads this
    {
      |processingTimes| <= MaxProcessingSamples
    }

    constructor (today: int, dbManager: DatabaseProbe, watcherObserver: ObserverProbe)
      ensures Valid()
      ensures State() == Monitor(today, ZeroDaily, [], 0, 0, None, None)
      ensures this.dbManager == dbManager && this.watcherObserver == watcherObserver
    {
      currentDate := today;
      filesProcessedToday, filesAddedToday, filesUpdatedToday, filesRemovedToday := 0, 0, 0, 0;
      processingTimes := [];
      totalProcessedEvents, totalFailedEvents := 0, 0;
      lastSync, lastFullSync := None, None;
      this.dbManager := dbManager;
      this.watcherObserver := watcherObserver;
    }

    /** `_daily_stats_reset` */
    method DailyStatsReset()
      modifies this
      ensures State() == old(State()).(daily := ZeroDaily)
      ensures dbManager == old(dbManager) && watcherObserver == old(watcherObserver)
    {
      filesProcessedToday, filesAddedToday, filesUpdatedToday, filesRemovedToday := 0, 0, 0, 0;
    }

    /** `_check_daily_reset` */
    method CheckDailyReset(today: int)
      modifies this
      ensures State() == DailyReset(old(State()), today)
      ensures dbManager == old(dbManager) && watcherObserver == old(watcherObserver)
    {
      if today != currentDate {
        currentDate := today;
        DailyStatsReset();
      }
    }

    /** The `event_types` loop of `update_stats`. */
    method CountEventTypes(eventTypes: seq<FileEventType>)
      modifies this
      ensures State() == old(State()).(daily := Tally(old(State()).daily, eventTypes))
      ensures dbManager == old(dbManager) && watcherObserver == old(watcherObserver)
    {
      var i := 0;
      while i < |eventTypes|
        invariant 0 <= i <= |eventTypes|
        invariant State() == old(State()).(daily := Tally(old(State()).daily, eventTypes[..i]))
        invariant dbManager == old(dbManager) && watcherObserver == old(watcherObserver)
      {
        assert eventTypes[..i + 1][..i] == eventTypes[..i];
        match eventTypes[i] {
          case Created => filesAddedToday := filesAddedToday + 1;
          case Modified => filesUpdatedToday := filesUpdatedToday + 1;
          case Deleted => filesRemovedToday := filesRemovedToday + 1;
          case Moved =>
        }
        i := i + 1;
      }
      assert eventTypes[..i] == eventTypes;
    }

    /** The `processed_events` and `failed_events` arguments. */
    method RecordCounts(processedEvents: Option<int>, failedEvents: Option<int>)
      modifies this
      ensures State() == AddFailed(AddProcessed(old(State()), processedEvents), failedEvents)
      ensures dbManager == old(dbManager) && watcherObserver == old(watcherObserver)
    {
      if processedEvents.Some? {
        totalProcessedEvents := totalProcessedEvents + processedEvents.value;
        filesProcessedToday := filesProcessedToday + processedEvents.value;
      }
      if failedEvents.Some? {
        totalFailedEvents := totalFailedEvents + failedEvents.value;
      }
    }

    /** The `last_sync`, `last_full_sync` and `processing_time_ms` arguments. */
    method RecordTimes(lastSyncArg: Option<int>, lastFullSyncArg: Option<int>, processingTimeMs: Option<int>)
      requires Valid()
      modifies this
      ensures Valid()
      ensures State() == AddSample(SetTimes(old(State()), lastSyncArg, lastFullSyncArg), processingTimeMs)
      ensures dbManager == old(dbManager) && watcherObserver == old(watcherObserver)
    {
      if lastSyncArg.Some? {
        lastSync := lastSyncArg;
      }
      if lastFullSyncArg.Some? {
        lastFullSync := lastFullSyncArg;
      }
      if processingTimeMs.Some? {
        processingTimes := RecordSample(processingTimes, processingTimeMs.value);
      }
    }

    /** The `sync_stats` argument. */
    method RecordSyncStats(stats: Option<SyncStats>, now: int)
      modifies this
      ensures State() == AddSyncStats(old(State()), stats, now)
      ensures dbManager == old(dbManager) && watcherObserver == old(watcherObserver)
    {
      if stats.Some? {
        var s := stats.value;
        filesAddedToday := filesAddedToday + s.filesAdded;
        filesUpdatedToday := filesUpdatedToday + s.filesUpdated;
        filesRemovedToday := filesRemovedToday + s.filesRemoved;
        filesProcessedToday := filesProcessedToday + s.filesScanned;
        lastFullSync := Some(now);
      }
    }

    /** `update_stats` */
    method UpdateStats(today: int, now: int, u: StatsUpdate)
      requires Valid()
      modifies this
      ensures Valid()
      ensures State() == Updated(old(State()), today, now, u)
      ensures dbManager == old(dbManager) && watcherObserver == old(watcherObserver)
    {
      CheckDailyReset(today);
      RecordCounts(u.processedEvents, u.failedEvents);
      RecordTimes(u.lastSync, u.lastFullSync, u.processingTimeMs);
      RecordSyncStats(u.syncStats, now);
      if u.eventTypes.Some? {
        CountEventTypes(u.eventTypes.value);
      }
    }

    /** `/health`: resets the day if needed and reports the status with its two inputs. */
    method HealthCheck(today: int) returns (status: string, databaseConnected: bool, watcherActive: bool)
      modifies this
      ensures databaseConnected == DatabaseConnected(dbManager) && watcherActive == WatcherActive(watcherObserver)
      ensures status == HealthStatus(databaseConnected, watcherActive)
      ensures State() == DailyReset(old(State()), today)
      ensures dbManager == old(dbManager) && watcherObserver == old(watcherObserver)
    {
      CheckDailyReset(today);
      databaseConnected := DatabaseConnected(dbManager);
      watcherActive := WatcherActive(watcherObserver);
      status := if databaseConnected && watcherActive then "healthy" else "unhealthy";
    }
  }
}
