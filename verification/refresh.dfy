/**
 * The cache refresh loop: startup seeding of the three timestamps and one
 * tick of the loop, which handles the instant observation, the hourly
 * forecast and the daily forecast in that order. Each source takes exactly
 * one of three actions: fetch from the web and write through to storage
 * when it is stale; load from storage when it is fresh but empty (hourly
 * and daily only); otherwise nothing.
 *
 * Every call of the wall clock is its own input: `now` is the reading the
 * staleness test uses, and a successful fetch carries the reading taken
 * after it returned, which becomes the new timestamp. Locks, threads and the
 * 15-minute sleep are not modelled: one tick is one function application.
 */
module Refresh {
  import opened Results
  import opened Time
  import opened Models
  import ForecastDb
  import Windows

  /** The three cached sources. */
  datatype Kind = Inst | Hourly | Daily

  /** How old a source's timestamp may get before the source is refetched. */
  function Threshold(k: Kind): (d: int)
    ensures d > 0
  {
    match k
    case Inst => 30 * Minute
    case Hourly => 8 * Hour
    case Daily => 24 * Hour
  }

  /** The three things one source's step can do. */
  datatype Action = FetchAndPersist | BootstrapFromStorage | StillFresh

  /**
   * The branch a source takes: stale strictly past its threshold means a
   * fetch; otherwise an empty hourly or daily cache is loaded from storage;
   * otherwise nothing happens. The instant cache is never loaded from storage.
   */
  function Decide(k: Kind, stamp: Instant, empty: bool, now: Instant): (a: Action)
    ensures a == FetchAndPersist <==> now - stamp > Threshold(k)
    ensures a == BootstrapFromStorage <==> now - stamp <= Threshold(k) && empty && k != Inst
    ensures a == StillFresh <==> now - stamp <= Threshold(k) && (!empty || k == Inst)
  {
    if now - stamp > Threshold(k) then FetchAndPersist
    else if k != Inst && empty then BootstrapFromStorage
    else StillFresh
  }

  /** A cache slot: the time of the last successful fetch and the cached value. */
  datatype Slot<C> = Slot(stamp: Instant, cache: C)

  /** The outcome of a fetch: the value and the clock reading after it returned, or a failure. */
  datatype Fetch<C> = Fetched(value: C, at: Instant) | FetchFailed

  /**
   * Everything the outside world contributes to one source's step: the
   * clock reading of the staleness test, the fetch outcome, and the
   * database's answers to the connection, to the read and to each insert.
   */
  datatype Env<C> = Env(
    now: Instant,
    fetch: Fetch<C>,
    connect: ForecastDb.Answer,
    query: ForecastDb.Answer,
    inserts: seq<ForecastDb.Insert>)

  /** The three cache slots. */
  datatype Caches<Obs> = Caches(
    inst: Slot<Obs>,
    hourly: Slot<seq<HourlyWeather>>,
    daily: Slot<seq<DailyWeather>>)

  /** The three tables the loop writes to: historical observations, hourly and daily forecasts. */
  datatype Store<Obs> = Store(
    historical: seq<Obs>,
    hourly: seq<HourlyWeather>,
    daily: seq<ForecastDb.DailyRow>)

  /** One source's step: the branch taken, the slot afterwards and its table afterwards. */
  datatype Outcome<C, S> = Outcome(action: Action, slot: Slot<C>, table: seq<S>)

  /**
   * The cache side of a step, shared by the three sources: a successful
   * fetch installs the value and its clock reading; a successful load
   * installs the rows and keeps the timestamp; anything else changes nothing.
   */
  function Install<C>(slot: Slot<C>, action: Action, fetch: Fetch<C>, loaded: Option<C>): Slot<C> {
    match action
    case FetchAndPersist => if fetch.Fetched? then Slot(fetch.at, fetch.value) else slot
    case BootstrapFromStorage => if loaded.Some? then Slot(slot.stamp, loaded.value) else slot
    case StillFresh => slot
  }

  /** A storage read as the rows it installs, if any. */
  function Loaded<C>(r: Result<C, string>): Option<C> {
    match r
    case Ok(v) => Some(v)
    case Err(_) => None
  }

  // ---------------------------------------------------------------- the three steps

  /**
   * The instant source (`main.rs` lines 48-74): refetched when more than
   * 30 minutes old, written through as one historical row; never read
   * back from storage.
   */
  function StepInst<Obs>(slot: Slot<Obs>, table: seq<Obs>, env: Env<Obs>): (o: Outcome<Obs, Obs>)
    requires |env.inserts| == 1
    ensures table <= o.table
    ensures env.now - slot.stamp > 30 * Minute && env.fetch.Fetched? ==>
      && o.slot == Slot(env.fetch.at, env.fetch.value)
      && o.table == ForecastDb.DumpInst(env.connect, table, env.fetch.value, env.inserts[0]).table
    ensures env.now - slot.stamp > 30 * Minute && env.fetch.FetchFailed? ==> o.slot == slot && o.table == table
    ensures env.now - slot.stamp <= 30 * Minute ==> o.slot == slot && o.table == table
  {
    var a := Decide(Inst, slot.stamp, false, env.now);
    var table' :=
      if a == FetchAndPersist && env.fetch.Fetched? then
        ForecastDb.DumpInst(env.connect, table, env.fetch.value, env.inserts[0]).table
      else table;
    Outcome(a, Install(slot, a, env.fetch, None), table')
  }

  /** The hourly source needs one insert answer per fetched record. */
  predicate HourlyEnvFits(env: Env<seq<HourlyWeather>>) {
    env.fetch.Fetched? ==> |env.inserts| == |env.fetch.value|
  }

  /**
   * The hourly source (`main.rs` lines 76-124): refetched when more than
   * 8 hours old and written through; when fresh but empty, loaded from the
   * 25 newest stored rows without touching the timestamp.
   */
  function StepHourly(slot: Slot<seq<HourlyWeather>>, table: seq<HourlyWeather>, env: Env<seq<HourlyWeather>>)
    : (o: Outcome<seq<HourlyWeather>, HourlyWeather>)
    requires HourlyEnvFits(env)
    ensures table <= o.table
    ensures env.now - slot.stamp > 8 * Hour && env.fetch.Fetched? ==>
      && o.slot == Slot(env.fetch.at, env.fetch.value)
      && o.table == ForecastDb.DumpHourly(env.connect, table, env.fetch.value, env.inserts).table
    ensures env.now - slot.stamp > 8 * Hour && env.fetch.FetchFailed? ==> o.slot == slot && o.table == table
    ensures env.now - slot.stamp <= 8 * Hour && slot.cache == [] ==>
      && o.table == table
      && o.slot.stamp == slot.stamp
      && var read := ForecastDb.GetHourlyDb(env.connect, env.query, table);
         o.slot.cache == (if read.Ok? then read.value else [])
    ensures env.now - slot.stamp <= 8 * Hour && slot.cache != [] ==> o.slot == slot && o.table == table
  {
    var a := Decide(Hourly, slot.stamp, |slot.cache| == 0, env.now);
    var loaded :=
      if a == BootstrapFromStorage then Loaded(ForecastDb.GetHourlyDb(env.connect, env.query, table))
      else None;
    var table' :=
      if a == FetchAndPersist && env.fetch.Fetched? then
        ForecastDb.DumpHourly(env.connect, table, env.fetch.value, env.inserts).table
      else table;
    Outcome(a, Install(slot, a, env.fetch, loaded), table')
  }

  /**
   * The daily source needs one insert answer per fetched record, and its
   * fetched records carry sunrise and sunset times (as `DailyWeather::convert`
   * always produces them).
   */
  predicate DailyEnvFits(env: Env<seq<DailyWeather>>) {
    env.fetch.Fetched? ==>
      && |env.inserts| == |env.fetch.value|
      && forall w <- env.fetch.value :: w.sunriseTime.Some? && w.sunsetTime.Some?
  }

  /**
   * The daily source (`main.rs` lines 126-170): refetched when more than
   * 24 hours old and written through; when fresh but empty, loaded from the
   * 8 newest stored rows without touching the timestamp.
   */
  function StepDaily(slot: Slot<seq<DailyWeather>>, table: seq<ForecastDb.DailyRow>, env: Env<seq<DailyWeather>>)
    : (o: Outcome<seq<DailyWeather>, ForecastDb.DailyRow>)
    requires DailyEnvFits(env)
    ensures table <= o.table
    ensures env.now - slot.stamp > 24 * Hour && env.fetch.Fetched? ==>
      && o.slot == Slot(env.fetch.at, env.fetch.value)
      && o.table == ForecastDb.DumpDaily(env.connect, table, env.fetch.value, env.inserts).table
    ensures env.now - slot.stamp > 24 * Hour && env.fetch.FetchFailed? ==> o.slot == slot && o.table == table
    ensures env.now - slot.stamp <= 24 * Hour && slot.cache == [] ==>
      && o.table == table
      && o.slot.stamp == slot.stamp
      && var read := ForecastDb.GetDailyDb(env.connect, env.query, table);
         o.slot.cache == (if read.Ok? then read.value else [])
    ensures env.now - slot.stamp <= 24 * Hour && slot.cache != [] ==> o.slot == slot && o.table == table
  {
    var a := Decide(Daily, slot.stamp, |slot.cache| == 0, env.now);
    var loaded :=
      if a == BootstrapFromStorage then Loaded(ForecastDb.GetDailyDb(env.connect, env.query, table))
      else None;
    var table' :=
      if a == FetchAndPersist && env.fetch.Fetched? then
        ForecastDb.DumpDaily(env.connect, table, env.fetch.value, env.inserts).table
      else table;
    Outcome(a, Install(slot, a, env.fetch, loaded), table')
  }

  // ---------------------------------------------------------------- startup and the tick

  /**
   * Startup (`main.rs` lines 19-45): every cache empty, every timestamp
   * `MIN_UTC`, then the hourly and daily timestamps taken from the storage
   * probe when it succeeds. The instant timestamp is never seeded.
   */
  function Start<Obs>(probe: Result<(Instant, Instant), string>, blank: Obs): (c: Caches<Obs>)
    ensures c.inst == Slot(MinUtc, blank)
    ensures c.hourly.cache == [] && c.daily.cache == []
    ensures probe.Ok? ==> c.hourly.stamp == probe.value.0 && c.daily.stamp == probe.value.1
    ensures probe.Err? ==> c.hourly.stamp == MinUtc && c.daily.stamp == MinUtc
  {
    var (hourlyStamp, dailyStamp) := match probe
      case Ok(stamps) => stamps
      case Err(_) => (MinUtc, MinUtc);
    Caches(Slot(MinUtc, blank), Slot(hourlyStamp, []), Slot(dailyStamp, []))
  }

  /**
   * Startup as written: the probe of `poke_db_timestamps` panics on a
   * reachable database with an empty table, and the refresh thread dies
   * before its first tick; otherwise it is the start of the corrected probe.
   */
  function StartAsWritten<Obs>(connect: ForecastDb.Answer, hourly: ForecastDb.TableQuery, daily: ForecastDb.TableQuery,
                               blank: Obs): (r: Panicking<Caches<Obs>>)
    ensures r.Panicked? <==> connect.Answered? && (hourly == ForecastDb.Rows([]) || daily == ForecastDb.Rows([]))
    ensures r.Returned? ==> r.value == Start(ForecastDb.ProbeTimestamps(connect, hourly, daily), blank)
  {
    match ForecastDb.ProbeTimestampsAsWritten(connect, hourly, daily)
    case Panicked => Panicked
    case Returned(probe) => Returned(Start(probe, blank))
  }

  /** As written, a start against a reachable database with an empty table never reaches a tick. */
  lemma EmptyStorageNeverTicksAsWritten<Obs>(blank: Obs, other: ForecastDb.TableQuery)
    ensures StartAsWritten(ForecastDb.Answered, ForecastDb.Rows([]), other, blank) == Panicked
    ensures StartAsWritten(ForecastDb.Answered, other, ForecastDb.Rows([]), blank) == Panicked
  {
  }

  /** The inputs of one tick fit their sources. */
  predicate TickFits<Obs>(inst: Env<Obs>, hourly: Env<seq<HourlyWeather>>, daily: Env<seq<DailyWeather>>) {
    |inst.inserts| == 1 && HourlyEnvFits(hourly) && DailyEnvFits(daily)
  }

  /**
   * One pass of the loop body: instant, then hourly, then daily. Each
   * source's slot and table depend only on that source's own inputs.
   */
  function Tick<Obs>(c: Caches<Obs>, s: Store<Obs>, inst: Env<Obs>, hourly: Env<seq<HourlyWeather>>, daily: Env<seq<DailyWeather>>)
    : (r: (Caches<Obs>, Store<Obs>))
    requires TickFits(inst, hourly, daily)
    ensures s.historical <= r.1.historical && s.hourly <= r.1.hourly && s.daily <= r.1.daily
  {
    var i := StepInst(c.inst, s.historical, inst);
    var h := StepHourly(c.hourly, s.hourly, hourly);
    var d := StepDaily(c.daily, s.daily, daily);
    (Caches(i.slot, h.slot, d.slot), Store(i.table, h.table, d.table))
  }

  // ---------------------------------------------------------------- properties

  /**
   * The sources of a tick do not interfere: a source's slot and table are
   * the same whatever the other two sources' caches, tables and inputs are.
   */
  lemma TickSourcesIndependent<Obs>(c1: Caches<Obs>, s1: Store<Obs>, inst1: Env<Obs>,
                                    hourly1: Env<seq<HourlyWeather>>, daily1: Env<seq<DailyWeather>>,
                                    c2: Caches<Obs>, s2: Store<Obs>, inst2: Env<Obs>,
                                    hourly2: Env<seq<HourlyWeather>>, daily2: Env<seq<DailyWeather>>)
    requires TickFits(inst1, hourly1, daily1) && TickFits(inst2, hourly2, daily2)
    ensures c1.inst == c2.inst && s1.historical == s2.historical && inst1 == inst2 ==>
      var (r1, r2) := (Tick(c1, s1, inst1, hourly1, daily1), Tick(c2, s2, inst2, hourly2, daily2));
      r1.0.inst == r2.0.inst && r1.1.historical == r2.1.historical
    ensures c1.hourly == c2.hourly && s1.hourly == s2.hourly && hourly1 == hourly2 ==>
      var (r1, r2) := (Tick(c1, s1, inst1, hourly1, daily1), Tick(c2, s2, inst2, hourly2, daily2));
      r1.0.hourly == r2.0.hourly && r1.1.hourly == r2.1.hourly
    ensures c1.daily == c2.daily && s1.daily == s2.daily && daily1 == daily2 ==>
      var (r1, r2) := (Tick(c1, s1, inst1, hourly1, daily1), Tick(c2, s2, inst2, hourly2, daily2));
      r1.0.daily == r2.0.daily && r1.1.daily == r2.1.daily
  {
  }

  /**
   * The staleness test is strict: a timestamp exactly one threshold old is
   * still fresh, and one nanosecond more makes it stale.
   */
  lemma ThresholdIsStrict(k: Kind, stamp: Instant, empty: bool)
    ensures Decide(k, stamp, empty, stamp + Threshold(k)) != FetchAndPersist
    ensures Decide(k, stamp, empty, stamp + Threshold(k) + 1) == FetchAndPersist
  {
  }

  /**
   * A source's timestamp only moves on a successful fetch, and then to a
   * reading taken after the staleness test; so with a clock that does not
   * run backwards it never decreases.
   */
  lemma StampNeverDecreases<Obs>(c: Caches<Obs>, s: Store<Obs>, inst: Env<Obs>, hourly: Env<seq<HourlyWeather>>, daily: Env<seq<DailyWeather>>)
    requires TickFits(inst, hourly, daily)
    requires inst.fetch.Fetched? ==> inst.fetch.at >= inst.now
    requires hourly.fetch.Fetched? ==> hourly.fetch.at >= hourly.now
    requires daily.fetch.Fetched? ==> daily.fetch.at >= daily.now
    ensures var (c', _) := Tick(c, s, inst, hourly, daily);
      && c'.inst.stamp >= c.inst.stamp
      && c'.hourly.stamp >= c.hourly.stamp
      && c'.daily.stamp >= c.daily.stamp
    ensures var (c', _) := Tick(c, s, inst, hourly, daily);
      && (c'.inst.stamp != c.inst.stamp ==> inst.fetch.Fetched? && c'.inst.stamp == inst.fetch.at)
      && (c'.hourly.stamp != c.hourly.stamp ==> hourly.fetch.Fetched? && c'.hourly.stamp == hourly.fetch.at)
      && (c'.daily.stamp != c.daily.stamp ==> daily.fetch.Fetched? && c'.daily.stamp == daily.fetch.at)
  {
  }

  /**
   * A stale source is never loaded from storage: if its fetch fails it
   * keeps exactly what it had, even an empty cache, and its table is untouched.
   */
  lemma StaleNeverBootstraps(slot: Slot<seq<HourlyWeather>>, table: seq<HourlyWeather>, env: Env<seq<HourlyWeather>>,
                             dslot: Slot<seq<DailyWeather>>, dtable: seq<ForecastDb.DailyRow>, denv: Env<seq<DailyWeather>>)
    requires env.now - slot.stamp > Threshold(Hourly) && env.fetch.FetchFailed?
    requires denv.now - dslot.stamp > Threshold(Daily) && denv.fetch.FetchFailed?
    ensures StepHourly(slot, table, env).action == FetchAndPersist
    ensures StepHourly(slot, table, env).slot == slot && StepHourly(slot, table, env).table == table
    ensures StepDaily(dslot, dtable, denv).action == FetchAndPersist
    ensures StepDaily(dslot, dtable, denv).slot == dslot && StepDaily(dslot, dtable, denv).table == dtable
  {
  }

  /**
   * The write-through cannot undo the install: after a successful hourly
   * fetch the cache and timestamp are the fetched ones whether the dump
   * connected, inserted everything, or stopped at a rejected row.
   */
  lemma PersistFailureKeepsInstall(slot: Slot<seq<HourlyWeather>>, table: seq<HourlyWeather>,
                                   env1: Env<seq<HourlyWeather>>, env2: Env<seq<HourlyWeather>>)
    requires env1.now == env2.now && env1.fetch == env2.fetch && env1.fetch.Fetched?
    requires HourlyEnvFits(env1) && HourlyEnvFits(env2)
    requires env1.now - slot.stamp > Threshold(Hourly)
    ensures StepHourly(slot, table, env1).slot == StepHourly(slot, table, env2).slot == Slot(env1.fetch.at, env1.fetch.value)
  {
  }

  /**
   * The instant source never consults storage while fresh: its step does
   * not depend on the database's answers at all unless it fetched data.
   */
  lemma InstIgnoresStorageWhenFresh<Obs>(slot: Slot<Obs>, table: seq<Obs>, env1: Env<Obs>, env2: Env<Obs>)
    requires |env1.inserts| == 1 && |env2.inserts| == 1
    requires env1.now == env2.now && env1.fetch == env2.fetch
    requires env1.now - slot.stamp <= Threshold(Inst) || env1.fetch.FetchFailed?
    ensures StepInst(slot, table, env1) == StepInst(slot, table, env2)
  {
  }

  /** After a successful fetch the cache served to readers is exactly the fetched value. */
  lemma ReadAfterFetch<Obs>(c: Caches<Obs>, s: Store<Obs>, inst: Env<Obs>, hourly: Env<seq<HourlyWeather>>, daily: Env<seq<DailyWeather>>)
    requires TickFits(inst, hourly, daily)
    requires hourly.now - c.hourly.stamp > Threshold(Hourly) && hourly.fetch.Fetched?
    ensures Tick(c, s, inst, hourly, daily).0.hourly == Slot(hourly.fetch.at, hourly.fetch.value)
  {
  }

  /**
   * After a start whose probe failed, or (with the corrected probe) found
   * every table empty, the first tick at any real date fetches all three
   * sources. As written the second kind of start panics instead.
   */
  lemma FirstTickFetchesAll<Obs>(probe: Result<(Instant, Instant), string>, blank: Obs, now: Instant)
    requires probe.Err? || probe == ForecastDb.ProbeTimestamps(ForecastDb.Answered, ForecastDb.Rows([]), ForecastDb.Rows([]))
    requires now >= 0
    ensures var c := Start(probe, blank);
      && Decide(Inst, c.inst.stamp, false, now) == FetchAndPersist
      && Decide(Hourly, c.hourly.stamp, true, now) == FetchAndPersist
      && Decide(Daily, c.daily.stamp, true, now) == FetchAndPersist
  {
  }

  /**
   * Cold start with empty storage, under the corrected probe: one tick
   * whose instant fetch succeeds and whose insert is accepted leaves that
   * observation in the cache and exactly one row in the historical table.
   * As written this start panics before the tick.
   */
  lemma EmptyStorageFirstObservation<Obs>(blank: Obs, obs: Obs, now: Instant, at: Instant, id: int,
                                          hourly: Env<seq<HourlyWeather>>, daily: Env<seq<DailyWeather>>)
    requires now >= 0 && HourlyEnvFits(hourly) && DailyEnvFits(daily)
    ensures var c := Start(ForecastDb.ProbeTimestamps(ForecastDb.Answered, ForecastDb.Rows([]), ForecastDb.Rows([])), blank);
      var inst := Env(now, Fetched(obs, at), ForecastDb.Answered, ForecastDb.Answered, [ForecastDb.Inserted(id, at)]);
      var (c', s') := Tick(c, Store([], [], []), inst, hourly, daily);
      c'.inst.cache == obs && s'.historical == [obs]
  {
  }

  /**
   * Restart with an hourly forecast stored two hours ago: the probe seeds
   * the hourly timestamp, so the first tick makes no network call for it and
   * loads the stored rows instead, leaving the timestamp where the probe put it.
   */
  lemma RecentStoreBootstraps<Obs>(blank: Obs, dailyStamp: Instant, now: Instant,
                                   table: seq<HourlyWeather>, env: Env<seq<HourlyWeather>>)
    requires |table| > 0 && HourlyEnvFits(env)
    requires env.now == now && env.connect == ForecastDb.Answered && env.query == ForecastDb.Answered
    requires forall i :: 0 <= i < |table| ==> table[i].createdAt <= now - 2 * Hour
    requires exists i :: 0 <= i < |table| && table[i].createdAt == now - 2 * Hour
    ensures var probe := ForecastDb.ProbeTimestamps(ForecastDb.Answered,
              ForecastDb.Rows(CreatedColumn(table)), ForecastDb.Rows([dailyStamp]));
      var c := Start(probe, blank);
      var o := StepHourly(c.hourly, table, env);
      && StartAsWritten(ForecastDb.Answered, ForecastDb.Rows(CreatedColumn(table)), ForecastDb.Rows([dailyStamp]), blank) == Returned(c)
      && c.hourly.stamp == now - 2 * Hour
      && o.action == BootstrapFromStorage
      && o.slot.stamp == now - 2 * Hour
      && o.slot.cache == ForecastDb.GetHourlyDb(ForecastDb.Answered, ForecastDb.Answered, table).value
      && |o.slot.cache| == Windows.Min(ForecastDb.HourlyLimit, |table|)
      && o.table == table
  {
    ProbeFindsNewest(table, now - 2 * Hour);
    var probe := ForecastDb.ProbeTimestamps(ForecastDb.Answered,
      ForecastDb.Rows(CreatedColumn(table)), ForecastDb.Rows([dailyStamp]));
    var c := Start(probe, blank);
    assert c.hourly == Slot(now - 2 * Hour, []);
  }

  /** The probe of a non-empty hourly table reads the newest `created_at` in it. */
  lemma ProbeFindsNewest(table: seq<HourlyWeather>, t: Instant)
    requires forall i :: 0 <= i < |table| ==> table[i].createdAt <= t
    requires exists i :: 0 <= i < |table| && table[i].createdAt == t
    ensures ForecastDb.LatestOrMin(ForecastDb.Rows(CreatedColumn(table))) == t
  {
    var column := CreatedColumn(table);
    var i :| 0 <= i < |table| && table[i].createdAt == t;
    var latest := ForecastDb.LatestOrMin(ForecastDb.Rows(column));
    assert latest >= t by {
      assert column[i] == t;
    }
    assert latest <= t by {
      var k :| 0 <= k < |column| && column[k] == latest;
    }
  }

  /** The `created_at` column of the hourly table, as the startup probe reads it. */
  function CreatedColumn(table: seq<HourlyWeather>): (column: seq<Instant>)
    ensures |column| == |table|
    ensures forall i :: 0 <= i < |table| ==> column[i] == table[i].createdAt
  {
    seq(|table|, i requires 0 <= i < |table| => table[i].createdAt)
  }

  /**
   * While a forecast is fresh it still reaches ahead of the clock: the
   * hourly request asked for 24 hours and the threshold is 8, the daily
   * one asked for 5 days and the threshold is 1, less however long the
   * fetch took between building the request and reading the clock.
   */
  lemma FreshForecastReachesAhead(requested: Instant, stamp: Instant, now: Instant)
    requires requested <= stamp
    ensures now - stamp <= Threshold(Hourly) ==>
      ForecastDb.HourlyEndTime(requested) - now >= 16 * Hour - (stamp - requested)
    ensures now - stamp <= Threshold(Daily) ==>
      ForecastDb.WeeklyEndTime(requested) - now >= 4 * Day - (stamp - requested)
  {
  }

  /**
   * A fresh, empty hourly slot whose storage cannot be reached tries a
   * load and stays empty and fresh: the state is reachable and persists
   * until the timestamp ages past the threshold.
   */
  lemma UnreachableStorageLeavesEmpty(slot: Slot<seq<HourlyWeather>>, table: seq<HourlyWeather>, env: Env<seq<HourlyWeather>>)
    requires HourlyEnvFits(env)
    requires slot.cache == [] && env.now - slot.stamp <= Threshold(Hourly) && env.connect.Failed?
    ensures StepHourly(slot, table, env).action == BootstrapFromStorage
    ensures StepHourly(slot, table, env).slot == slot
    ensures StepHourly(slot, table, env).table == table
  {
  }

  /**
   * A daily fetch that fails leaves the slot exactly as it was; a later
   * tick whose fetch succeeds installs the new forecast.
   */
  lemma FailedThenRetried(slot: Slot<seq<DailyWeather>>, table: seq<ForecastDb.DailyRow>,
                          env1: Env<seq<DailyWeather>>, env2: Env<seq<DailyWeather>>)
    requires DailyEnvFits(env1) && DailyEnvFits(env2)
    requires env1.now - slot.stamp > Threshold(Daily) && env1.fetch.FetchFailed?
    requires env2.now >= env1.now && env2.fetch.Fetched?
    ensures var o1 := StepDaily(slot, table, env1);
      var o2 := StepDaily(o1.slot, o1.table, env2);
      && o1.slot == slot
      && o2.slot == Slot(env2.fetch.at, env2.fetch.value)
  {
  }
}
