/**
 * The storage side: the historical search type, the startup timestamp
 * probe, the cache-read windows, the write-through dumps and the forecast
 * end times. The database is a set of row sequences; every round trip to
 * it is an input saying how the server answered.
 */
module ForecastDb {
  import opened Results
  import opened Time
  import opened Payload
  import opened Models
  import opened WeatherCodes
  import opened MoonPhases
  import Windows

  /** How the server answered one connection attempt or one query. */
  datatype Answer = Answered | Failed(reason: string)

  // ---------------------------------------------------------------- search type

  /** The two kinds of historical search. */
  datatype HistoricalSearchType = Daily | TimeRange

  /** `HistoricalSearchType::from_str`: exact, case-sensitive; anything else is an error. */
  function ParseSearchType(s: string): (r: Option<HistoricalSearchType>)
    ensures r == Some(Daily) <==> s == "daily"
    ensures r == Some(TimeRange) <==> s == "timerange"
    ensures r.None? <==> s != "daily" && s != "timerange"
  {
    match s
    case "daily" => Some(Daily)
    case "timerange" => Some(TimeRange)
    case _ => None
  }

  // ---------------------------------------------------------------- timestamp probe

  /** What `SELECT created_at FROM <table> ORDER BY created_at DESC` gave: an error, or the column. */
  datatype TableQuery = QueryFailed | Rows(createdAt: seq<Instant>)

  /** The newest `created_at` in a non-empty column: the first row of the descending query. */
  function Latest(column: seq<Instant>): (t: Instant)
    requires |column| > 0
    ensures t in column
    ensures forall i :: 0 <= i < |column| ==> column[i] <= t
  {
    column[Windows.NewestIndex(column, (x: Instant) => x)]
  }

  /** One table's probe result: its newest `created_at`, or `MIN_UTC` when there is none to read. */
  function LatestOrMin(q: TableQuery): (t: Instant)
    ensures q.QueryFailed? || q.createdAt == [] ==> t == MinUtc
    ensures q.Rows? && |q.createdAt| > 0 ==> t in q.createdAt && forall i :: 0 <= i < |q.createdAt| ==> q.createdAt[i] <= t
  {
    if q.Rows? && |q.createdAt| > 0 then Latest(q.createdAt) else MinUtc
  }

  /**
   * `poke_db_timestamps`, with an empty table read as `MIN_UTC`: a failed
   * connection is an error; otherwise each table independently yields its
   * newest `created_at`, or `MIN_UTC` when its query fails or it is empty.
   */
  function ProbeTimestamps(connect: Answer, hourly: TableQuery, daily: TableQuery): (r: Result<(Instant, Instant), string>)
    ensures connect.Failed? ==> r == Err("Couldn't connect to DB, Reason: " + connect.reason)
    ensures connect.Answered? ==> r == Ok((LatestOrMin(hourly), LatestOrMin(daily)))
  {
    match connect
    case Failed(e) => Err("Couldn't connect to DB, Reason: " + e)
    case Answered => Ok((LatestOrMin(hourly), LatestOrMin(daily)))
  }

  /**
   * `poke_db_timestamps` as written: `t[0]` on the result of a query that
   * succeeded but returned no rows is out of bounds and panics.
   */
  function ProbeTimestampsAsWritten(connect: Answer, hourly: TableQuery, daily: TableQuery): (r: Panicking<Result<(Instant, Instant), string>>)
    ensures r.Panicked? <==> connect.Answered? && (hourly == Rows([]) || daily == Rows([]))
    ensures r.Returned? ==> r.value == ProbeTimestamps(connect, hourly, daily)
  {
    match connect
    case Failed(e) => Returned(Err("Couldn't connect to DB, Reason: " + e))
    case Answered =>
      if hourly == Rows([]) || daily == Rows([]) then Panicked
      else Returned(Ok((LatestOrMin(hourly), LatestOrMin(daily))))
  }

  /**
   * On a fresh database, where the hourly table is still empty, the probe
   * as written panics, while the intended probe falls back to `MIN_UTC`
   * for that table and still reads the other.
   */
  lemma EmptyTablePanicsProbe(t: Instant)
    ensures ProbeTimestampsAsWritten(Answered, Rows([]), Rows([t])) == Panicked
    ensures ProbeTimestamps(Answered, Rows([]), Rows([t])) == Ok((MinUtc, t))
  {
  }

  // ---------------------------------------------------------------- reading the cache back

  /** At most this many daily rows are read back (`LIMIT 8`). */
  const DailyLimit: nat := 8

  /** At most this many hourly rows are read back (`LIMIT 25`). */
  const HourlyLimit: nat := 25

  /** A column read with `try_get`: its value, or a failure to read it (a NULL, say). */
  datatype Column<T> = Readable(value: T) | Unreadable

  /** A row of the daily table; the sun times are the two columns read with `try_get`. */
  datatype DailyRow = DailyRow(
    id: int,
    createdAt: Instant,
    weatherTime: Instant,
    high: F64,
    low: F64,
    weatherCode: WeatherCode,
    moonPhase: MoonPhase,
    sunriseTime: Column<Instant>,
    sunsetTime: Column<Instant>)

  function DailyCreated(r: DailyRow): int { r.createdAt }
  function DailyDescribed(r: DailyRow): int { r.weatherTime }
  function HourlyCreated(w: HourlyWeather): int { w.createdAt }
  function HourlyDescribed(w: HourlyWeather): int { w.weatherTime }

  /** A `try_get` column as an optional value: a column that cannot be read becomes `None`, not an error. */
  function ColumnValue<T>(c: Column<T>): (r: Option<T>)
    ensures r.Some? <==> c.Readable?
    ensures r.Some? ==> r.value == c.value
  {
    match c
    case Readable(v) => Some(v)
    case Unreadable => None
  }

  /** One daily row as a record; every other column is copied. */
  function DecodeDaily(row: DailyRow): (w: DailyWeather)
    ensures w.sunriseTime == ColumnValue(row.sunriseTime) && w.sunsetTime == ColumnValue(row.sunsetTime)
    ensures w.id == row.id && w.createdAt == row.createdAt && w.weatherTime == row.weatherTime
    ensures w.high == row.high && w.low == row.low
    ensures w.weatherCode == row.weatherCode && w.moonPhase == row.moonPhase
  {
    DailyWeather(row.id, row.createdAt, row.weatherTime, row.high, row.low,
                 row.weatherCode, row.moonPhase, ColumnValue(row.sunriseTime), ColumnValue(row.sunsetTime))
  }

  /**
   * `get_daily_db`: the eight most recently created daily rows, ordered by
   * the day they describe, or the connection's or the query's error.
   */
  function GetDailyDb(connect: Answer, query: Answer, table: seq<DailyRow>): (r: Result<seq<DailyWeather>, string>)
    ensures connect.Failed? ==> r == Err("Couldn't connect to DB, Reason: " + connect.reason)
    ensures connect.Answered? && query.Failed? ==> r == Err("Couldn't retrieve Daily Data from DB, Reason: " + query.reason)
    ensures r.Ok? <==> connect.Answered? && query.Answered?
    ensures r.Ok? ==> |r.value| == Windows.Min(DailyLimit, |table|)
    ensures r.Ok? ==> forall i :: 0 <= i < |r.value| ==> r.value[i] in DecodeAll(table)
    ensures r.Ok? ==> var rest := Windows.LeftOut(table, DailyCreated, DailyLimit);
      multiset(r.value) + multiset(DecodeAll(rest)) == multiset(DecodeAll(table))
    ensures r.Ok? ==> forall i, j :: 0 <= i < j < |r.value| ==> r.value[i].weatherTime <= r.value[j].weatherTime
    ensures r.Ok? ==> var rest := Windows.LeftOut(table, DailyCreated, DailyLimit);
      forall a, b :: 0 <= a < |rest| && 0 <= b < |r.value| ==> rest[a].createdAt <= r.value[b].createdAt
  {
    match connect
    case Failed(e) => Err("Couldn't connect to DB, Reason: " + e)
    case Answered =>
      match query
      case Failed(e) => Err("Couldn't retrieve Daily Data from DB, Reason: " + e)
      case Answered =>
        var w := Windows.Recent(table, DailyCreated, DailyDescribed, DailyLimit);
        Windows.RecentWindow(table, DailyCreated, DailyDescribed, DailyLimit);
        DecodedFromTable(w, table);
        DecodedSplit(w, Windows.LeftOut(table, DailyCreated, DailyLimit), table);
        Ok(DecodeAll(w))
  }

  /** Every row decoded, in order. */
  function DecodeAll(rows: seq<DailyRow>): (ws: seq<DailyWeather>)
    ensures |ws| == |rows|
    ensures forall i :: 0 <= i < |rows| ==> ws[i] == DecodeDaily(rows[i])
  {
    seq(|rows|, i requires 0 <= i < |rows| => DecodeDaily(rows[i]))
  }

  /** Decoding rows drawn from a table yields only decodings of the table's rows. */
  lemma DecodedFromTable(w: seq<DailyRow>, table: seq<DailyRow>)
    requires multiset(w) <= multiset(table)
    ensures forall i :: 0 <= i < |w| ==> DecodeAll(w)[i] in DecodeAll(table)
  {
    Windows.FromRows(w, table);
    forall i | 0 <= i < |w|
      ensures DecodeAll(w)[i] in DecodeAll(table)
    {
      var j :| 0 <= j < |table| && w[i] == table[j];
      assert DecodeAll(table)[j] == DecodeAll(w)[i];
    }
  }

  /** Decoding commutes with concatenation. */
  lemma DecodeAppend(a: seq<DailyRow>, b: seq<DailyRow>)
    ensures DecodeAll(a + b) == DecodeAll(a) + DecodeAll(b)
  {
  }

  /** Decoding two arrangements of the same rows gives two arrangements of the same records. */
  lemma {:induction false} DecodePermutes(a: seq<DailyRow>, b: seq<DailyRow>)
    requires multiset(a) == multiset(b)
    ensures multiset(DecodeAll(a)) == multiset(DecodeAll(b))
    decreases |a|
  {
    if |a| == 0 {
      assert |multiset(b)| == 0;
    } else {
      assert a[0] in multiset(b);
      var j :| 0 <= j < |b| && b[j] == a[0];
      var others := b[..j] + b[j + 1..];
      assert b == b[..j] + [b[j]] + b[j + 1..];
      assert a == [a[0]] + a[1..];
      assert multiset(b) == multiset(b[..j]) + multiset{b[j]} + multiset(b[j + 1..]);
      assert multiset(others) == multiset(b[..j]) + multiset(b[j + 1..]);
      assert multiset(a) == multiset{a[0]} + multiset(a[1..]);
      assert multiset(a[1..]) == multiset(a) - multiset{a[0]};
      assert multiset(others) == multiset(b) - multiset{b[j]};
      DecodePermutes(a[1..], others);
      DecodeAppend([a[0]], a[1..]);
      DecodeAppend(b[..j], [b[j]]);
      DecodeAppend(b[..j] + [b[j]], b[j + 1..]);
      DecodeAppend(b[..j], b[j + 1..]);
    }
  }

  /** A split of the rows into the window and the rest is a split of their decodings. */
  lemma DecodedSplit(w: seq<DailyRow>, rest: seq<DailyRow>, table: seq<DailyRow>)
    requires multiset(w) + multiset(rest) == multiset(table)
    ensures multiset(DecodeAll(w)) + multiset(DecodeAll(rest)) == multiset(DecodeAll(table))
  {
    DecodePermutes(w + rest, table);
    DecodeAppend(w, rest);
  }

  /**
   * `get_hourly_db`: the 25 most recently created hourly rows, ordered by
   * the hour they describe, or the connection's or the query's error.
   */
  function GetHourlyDb(connect: Answer, query: Answer, table: seq<HourlyWeather>): (r: Result<seq<HourlyWeather>, string>)
    ensures connect.Failed? ==> r == Err("Couldn't connect to DB, Reason: " + connect.reason)
    ensures connect.Answered? && query.Failed? ==> r == Err("Couldn't deserialize Hourly data from DB, Reason: " + query.reason)
    ensures r.Ok? <==> connect.Answered? && query.Answered?
    ensures r.Ok? ==> |r.value| == Windows.Min(HourlyLimit, |table|)
    ensures r.Ok? ==> var rest := Windows.LeftOut(table, HourlyCreated, HourlyLimit);
      multiset(r.value) + multiset(rest) == multiset(table)
    ensures r.Ok? ==> forall i, j :: 0 <= i < j < |r.value| ==> r.value[i].weatherTime <= r.value[j].weatherTime
    ensures r.Ok? ==> var rest := Windows.LeftOut(table, HourlyCreated, HourlyLimit);
      forall a, b :: 0 <= a < |rest| && 0 <= b < |r.value| ==> rest[a].createdAt <= r.value[b].createdAt
  {
    match connect
    case Failed(e) => Err("Couldn't connect to DB, Reason: " + e)
    case Answered =>
      match query
      case Failed(e) => Err("Couldn't deserialize Hourly data from DB, Reason: " + e)
      case Answered =>
        Windows.RecentWindow(table, HourlyCreated, HourlyDescribed, HourlyLimit);
        Ok(Windows.Recent(table, HourlyCreated, HourlyDescribed, HourlyLimit))
  }

  // ---------------------------------------------------------------- write-through

  /** How the server answered one INSERT: the id and `created_at` it gave the row, or an error. */
  datatype Insert = Inserted(id: int, at: Instant) | Rejected(reason: string)

  /** The table after a dump, and the dump's result. */
  datatype Dump<S> = Dump(table: seq<S>, result: Result<string, string>)

  /** The position of the first rejected insert, or the number of answers when none is. */
  function FirstRejected(answers: seq<Insert>): (k: nat)
    ensures k <= |answers|
    ensures forall j :: 0 <= j < k ==> answers[j].Inserted?
    ensures k < |answers| ==> answers[k].Rejected?
  {
    if |answers| == 0 || answers[0].Rejected? then 0 else 1 + FirstRejected(answers[1..])
  }

  /**
   * The insert loop of the dumps: records are inserted in order, each as
   * its own statement, and the loop returns at the first rejection. The
   * rows before it stay in the table, the rows after it are never tried,
   * and no error means every record went in.
   */
  function InsertAll<R, S>(table: seq<S>, data: seq<R>, answers: seq<Insert>, store: (R, int, Instant) -> S): (r: (seq<S>, Option<string>))
    requires |answers| == |data|
    ensures var k := FirstRejected(answers);
      && |r.0| == |table| + k
      && r.0[..|table|] == table
      && (forall i :: 0 <= i < k ==> r.0[|table| + i] == store(data[i], answers[i].id, answers[i].at))
      && (r.1.None? <==> k == |data|)
      && (k < |data| ==> r.1 == Some(answers[k].reason))
    decreases |data|
  {
    if |data| == 0 then (table, None)
    else
      match answers[0]
      case Rejected(e) => (table, Some(e))
      case Inserted(id, at) =>
        var r := InsertAll(table + [store(data[0], id, at)], data[1..], answers[1..], store);
        assert forall i :: 0 < i < |data| ==> data[1..][i - 1] == data[i] && answers[1..][i - 1] == answers[i];
        r
  }

  /** An hourly record as the row it becomes: every column but the two the database fills in. */
  function StoredHourly(w: HourlyWeather, id: int, at: Instant): HourlyWeather {
    w.(id := id, createdAt := at)
  }

  /** An optional time as a column: a record that reaches the insert always has one. */
  function ToColumn(t: Option<Instant>): Column<Instant> {
    match t
    case Some(v) => Readable(v)
    case None => Unreadable
  }

  /** A daily record as the row it becomes; the sun times are unwrapped. */
  function StoredDaily(w: DailyWeather, id: int, at: Instant): DailyRow {
    DailyRow(id, at, w.weatherTime, w.high, w.low, w.weatherCode, w.moonPhase,
             ToColumn(w.sunriseTime), ToColumn(w.sunsetTime))
  }

  /** `dump_hourly_db`: connect, then insert every record in order, stopping at the first failure. */
  function DumpHourly(connect: Answer, table: seq<HourlyWeather>, data: seq<HourlyWeather>, answers: seq<Insert>): (d: Dump<HourlyWeather>)
    requires |answers| == |data|
    ensures connect.Failed? ==> d == Dump(table, Err("Client couldn't connect to DB, Reason: " + connect.reason))
    ensures connect.Answered? ==> var k := FirstRejected(answers);
      && |d.table| == |table| + k
      && d.table[..|table|] == table
      && (forall i :: 0 <= i < k ==> d.table[|table| + i] == StoredHourly(data[i], answers[i].id, answers[i].at))
      && (d.result.Ok? <==> k == |data|)
      && (k < |data| ==> d.result == Err("Failed to dump hourly data to DB, Reason: " + answers[k].reason))
  {
    match connect
    case Failed(e) => Dump(table, Err("Client couldn't connect to DB, Reason: " + e))
    case Answered =>
      var (t, failure) := InsertAll(table, data, answers, StoredHourly);
      match failure
      case None => Dump(t, Ok("Successfully dumped data to DB"))
      case Some(e) => Dump(t, Err("Failed to dump hourly data to DB, Reason: " + e))
  }

  /**
   * The sun times of every daily record the loop reaches are unwrapped,
   * including the one whose insert is rejected, so they must be present.
   */
  predicate SunTimesUnwrappable(data: seq<DailyWeather>, answers: seq<Insert>) {
    forall i :: 0 <= i < |data| && i <= FirstRejected(answers) ==>
      data[i].sunriseTime.Some? && data[i].sunsetTime.Some?
  }

  /** `dump_daily_db`: connect, then insert every record in order, stopping at the first failure. */
  function DumpDaily(connect: Answer, table: seq<DailyRow>, data: seq<DailyWeather>, answers: seq<Insert>): (d: Dump<DailyRow>)
    requires |answers| == |data|
    requires connect.Answered? ==> SunTimesUnwrappable(data, answers)
    ensures connect.Failed? ==> d == Dump(table, Err("Client couldn't connect to DB, Reason: " + connect.reason))
    ensures connect.Answered? ==> var k := FirstRejected(answers);
      && |d.table| == |table| + k
      && d.table[..|table|] == table
      && (forall i :: 0 <= i < k ==> var row := d.table[|table| + i];
            && row == StoredDaily(data[i], answers[i].id, answers[i].at)
            && row.sunriseTime == Readable(data[i].sunriseTime.value)
            && row.sunsetTime == Readable(data[i].sunsetTime.value))
      && (d.result.Ok? <==> k == |data|)
      && (k < |data| ==> d.result == Err("Failed to dump daily data to DB, Reason: " + answers[k].reason))
  {
    match connect
    case Failed(e) => Dump(table, Err("Client couldn't connect to DB, Reason: " + e))
    case Answered =>
      var (t, failure) := InsertAll(table, data, answers, StoredDaily);
      match failure
      case None => Dump(t, Ok("Successfully dumped data to DB"))
      case Some(e) => Dump(t, Err("Failed to dump daily data to DB, Reason: " + e))
  }

  /** `dump_inst_db`: one observation, one insert. */
  function DumpInst<O>(connect: Answer, table: seq<O>, obs: O, answer: Insert): (d: Dump<O>)
    ensures connect.Answered? && answer.Inserted? ==> d == Dump(table + [obs], Ok("Successfully dumped inst data to historical table"))
    ensures connect.Answered? && answer.Rejected? ==> d == Dump(table, Err("Failed to dump inst data to historical table, Reason: " + answer.reason))
    ensures connect.Failed? ==> d == Dump(table, Err("Client couldn't connect to DB, Reason: " + connect.reason))
  {
    match connect
    case Failed(e) => Dump(table, Err("Client couldn't connect to DB, Reason: " + e))
    case Answered =>
      match answer
      case Inserted(_, _) => Dump(table + [obs], Ok("Successfully dumped inst data to historical table"))
      case Rejected(e) => Dump(table, Err("Failed to dump inst data to historical table, Reason: " + e))
  }

  // ---------------------------------------------------------------- forecast end times

  /** `get_weekly_timestamp`: the daily forecast is requested up to five days ahead. */
  function WeeklyEndTime(now: Instant): (t: Instant)
    ensures t - now == 5 * Day
  {
    now + 5 * Day
  }

  /** `get_hourly_timestamp`: the hourly forecast is requested up to 24 hours ahead. */
  function HourlyEndTime(now: Instant): (t: Instant)
    ensures t - now == 24 * Hour
  {
    now + 24 * Hour
  }
}
