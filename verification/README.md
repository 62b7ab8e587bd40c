# rusty_forecast: the cache refresh loop and its storage, in Dafny

rusty_forecast is a small weather server. It keeps three in-memory caches:

- the instant observation from a personal weather station;
- the hourly forecast from the forecast provider;
- the daily forecast from the same provider.

A background loop refreshes each cache on its own staleness threshold and
writes every fresh fetch through to PostgreSQL. HTTP handlers serve the caches
and query the historical table.

This project models, as pure functions over immutable data:

- **the refresh loop** (module `Refresh`, `src/main.rs`):
  - startup seeding of the timestamps from storage;
  - per source, the three-way choice between fetch-and-persist, load-from-storage and nothing;
  - the strict `>` staleness test against 30 minutes, 8 hours and 24 hours;
  - the order instant, hourly, daily within one tick.
- **storage** (module `ForecastDb`, `src/forecast_db.rs`):
  - the timestamp probe;
  - the windowed cache reads (`LIMIT 8` / `LIMIT 25` newest by `created_at`, then ascending by `weather_time`);
  - the write-through dumps, which stop at the first rejected insert;
  - the historical search type;
  - the forecast end times.
- **the handlers' decisions** (module `Web`, `src/web.rs`):
  - `get_hist`'s dispatch, with its exact status and message for every malformed request;
  - the forecast fetchers, which replace a cache only on success;
  - `echo`.
- **the forecast records** (module `Models`, `src/climacell/models.rs`): the conversion from the provider's timeline payload (module `Payload`).
- **the three code enums** (modules `WeatherCodes`, `PrecipitationTypes` and `MoonPhases`):
  - numeric discriminants for JSON input;
  - variant names for JSON output and for the database;
  - the PostgreSQL `FromSql`/`ToSql` round trip (module `SqlTypes`).

Generic helpers:

- `Windows` is the "n newest, sorted by another key" window that the SQL queries compute.
- `CodeTables` holds facts about discriminant tables numbered 0, 1, 2, ….
- `Results` holds `Option`, `Result` and `Panicking`.
- `Time` holds instants as integer nanoseconds and chrono's `MIN_UTC`.

Conventions:

- Every call of the wall clock is its own input. The staleness test reads one clock (`Env.now`). The timestamp stored after a successful fetch is a second reading, taken after the fetch returned (`Fetched.at`). Inside `convert`, which reads the clock once per record, `clock(i)` is the reading for record `i`.
- Every database round trip is an input:
  - a connection or query is `Answered` or `Failed(reason)`;
  - each `INSERT` is `Inserted(id, created_at)` or `Rejected(reason)`.
- The RFC 3339 parser is a function parameter.
- `f64` values are `real`s that are only copied.
- A Rust panic (`unwrap`, index out of bounds) becomes a `requires`, except in the finding below, where the panic is the value `Panicked`. The refresh lemmas that start from empty storage (`Refresh.FirstTickFetchesAll` for empty tables, `Refresh.EmptyStorageFirstObservation`) describe the corrected probe; as written that start panics (`Refresh.StartAsWritten`).

Notes on the code as written:

- The `WeatherCode` enum has 27 variants: `Unknown = 0` plus the provider's 26 codes. All 27 are modelled.
- `main.rs` holds each cache's lock across the web fetch and the write-through. The write-through still never undoes the install (`Refresh.PersistFailureKeepsInstall`). Locking itself is not modelled.
- The caches start empty even when the startup probe seeds a recent timestamp. So after a restart with a forecast stored two hours ago, the first tick does not leave the hourly cache alone: it loads the stored rows, without a network call and without moving the timestamp (`Refresh.RecentStoreBootstraps`).
- An empty cache can be fresh: while storage is unreachable it stays empty and fresh (`Refresh.UnreachableStorageLeavesEmpty`).
- A request without `search_type` is answered "missing search_type" with the status left untouched, not 400. The other malformed requests get 400. This is modelled as written.
- The new timestamp after a fetch is a clock reading taken after the fetch, not the reading the staleness test used.

## Model

| member | source | states |
|---|---|---|
| `SqlTypes.AcceptsNesting` | src/climacell/weather_code.rs:73-91 | every type `FromSql` accepts, `ToSql` accepts too; a type named `varchar` with another oid is accepted for writing but refused for reading |
| `WeatherCodes.FromCode` | src/climacell/weather_code.rs:9-59 | a numeric code decodes only to the variant carrying that discriminant |
| `WeatherCodes.FromName` | src/climacell/weather_code.rs:9-59 | a string parses only to the variant whose name it is |
| `WeatherCodes.NameRoundTrip` | src/climacell/weather_code.rs:9-59 | parsing a variant's name gives back that variant |
| `WeatherCodes.FromNameExact` | src/climacell/weather_code.rs:9-59 | a string parses to a variant if and only if it is exactly that variant's name |
| `WeatherCodes.CodeRoundTrip` | src/climacell/weather_code.rs:12-59 | decoding a variant's discriminant gives back that variant |
| `WeatherCodes.CodeInjective` | src/climacell/weather_code.rs:13-59 | distinct variants have distinct discriminants |
| `WeatherCodes.NameInjective` | src/climacell/weather_code.rs:13-59 | distinct variants have distinct names |
| `WeatherCodes.Enumerated` | src/climacell/weather_code.rs:13-59 | the variant table lists every variant |
| `WeatherCodes.DefaultIsZero` | src/climacell/weather_code.rs:14-15 | the default variant is `Unknown`, the first listed, with discriminant 0, and 0 decodes to it |
| `WeatherCodes.Position` | src/climacell/weather_code.rs:13-59 | every variant sits in the variant table at its declaration position |
| `WeatherCodes.CodesAscending` | src/climacell/weather_code.rs:13-59 | there are 27 variants, and of two variants the one declared first has the smaller discriminant, and conversely |
| `WeatherCodes.CodeBounds` | src/climacell/weather_code.rs:12-58 | every discriminant lies in 0..8000, inside the `i16` representation |
| `WeatherCodes.JsonCodeExamples` | src/climacell/weather_code.rs:16-58 | 1000 is Clear and 8000 is Thunderstorm; 1 and -1 decode to nothing |
| `WeatherCodes.WriteSql` | src/climacell/weather_code.rs:78-91 | writing succeeds exactly for a type named `varchar`, otherwise a wrong-type error; the text written parses back to the variant |
| `WeatherCodes.ReadSql` | src/climacell/weather_code.rs:61-76 | reading succeeds exactly for the `VARCHAR` type and yields the variant whose name is the stored text |
| `WeatherCodes.SqlRoundTrip` | src/climacell/weather_code.rs:61-91 | a variant written to a `varchar` column reads back as itself |
| `PrecipitationTypes.FromCode` | src/climacell/precipitation_type.rs:9-22 | a numeric code decodes only to the variant carrying that discriminant |
| `PrecipitationTypes.NameRoundTrip` | src/climacell/precipitation_type.rs:9-22 | parsing a variant's name gives back that variant |
| `PrecipitationTypes.FromNameExact` | src/climacell/precipitation_type.rs:9-22 | a string parses to a variant if and only if it is exactly that variant's name |
| `PrecipitationTypes.CodeRoundTrip` | src/climacell/precipitation_type.rs:12-22 | decoding a variant's discriminant gives back that variant |
| `PrecipitationTypes.CodeInjective` | src/climacell/precipitation_type.rs:13-22 | distinct variants have distinct discriminants |
| `PrecipitationTypes.NameInjective` | src/climacell/precipitation_type.rs:13-22 | distinct variants have distinct names |
| `PrecipitationTypes.Enumerated` | src/climacell/precipitation_type.rs:13-22 | the variant table lists every variant |
| `PrecipitationTypes.DefaultIsZero` | src/climacell/precipitation_type.rs:14-15 | the default variant is `NA`, the first listed, with discriminant 0, and 0 decodes to it |
| `PrecipitationTypes.CodesContiguous` | src/climacell/precipitation_type.rs:13-22 | there are 5 variants numbered 0 to 4 in declaration order |
| `PrecipitationTypes.CodeRange` | src/climacell/precipitation_type.rs:12-22 | a code decodes if and only if it is in 0..4, and then to the variant at that position |
| `PrecipitationTypes.WriteSql` | src/climacell/precipitation_type.rs:40-54 | writing succeeds exactly for a type named `varchar`, otherwise a wrong-type error; the text written parses back to the variant |
| `PrecipitationTypes.ReadSql` | src/climacell/precipitation_type.rs:24-39 | reading succeeds exactly for the `VARCHAR` type and yields the variant whose name is the stored text |
| `PrecipitationTypes.SqlRoundTrip` | src/climacell/precipitation_type.rs:24-54 | a variant written to a `varchar` column reads back as itself |
| `MoonPhases.FromCode` | src/climacell/moon_phase.rs:9-23 | a numeric code decodes only to the variant carrying that discriminant |
| `MoonPhases.NameRoundTrip` | src/climacell/moon_phase.rs:9-23 | parsing a variant's name gives back that variant |
| `MoonPhases.FromNameExact` | src/climacell/moon_phase.rs:9-23 | a string parses to a variant if and only if it is exactly that variant's name |
| `MoonPhases.CodeRoundTrip` | src/climacell/moon_phase.rs:12-23 | decoding a variant's discriminant gives back that variant |
| `MoonPhases.CodeInjective` | src/climacell/moon_phase.rs:13-23 | distinct variants have distinct discriminants |
| `MoonPhases.NameInjective` | src/climacell/moon_phase.rs:13-23 | distinct variants have distinct names |
| `MoonPhases.Enumerated` | src/climacell/moon_phase.rs:13-23 | the variant table lists every variant |
| `MoonPhases.DefaultIsZero` | src/climacell/moon_phase.rs:14-15 | the default variant is `New`, the first listed, with discriminant 0, and 0 decodes to it |
| `MoonPhases.CodesContiguous` | src/climacell/moon_phase.rs:13-23 | there are 8 variants numbered 0 to 7 in declaration order |
| `MoonPhases.CodeRange` | src/climacell/moon_phase.rs:12-23 | a code decodes if and only if it is in 0..7, and then to the variant at that position |
| `MoonPhases.WriteSql` | src/climacell/moon_phase.rs:42-56 | writing succeeds exactly for a type named `varchar`, otherwise a wrong-type error; the text written parses back to the variant |
| `MoonPhases.ReadSql` | src/climacell/moon_phase.rs:25-40 | reading succeeds exactly for the `VARCHAR` type and yields the variant whose name is the stored text |
| `MoonPhases.SqlRoundTrip` | src/climacell/moon_phase.rs:25-56 | a variant written to a `varchar` column reads back as itself |
| `Models.ConvertHourly` | src/climacell/models.rs:33-54 | one record per interval of the first timeline, in order, each with id 0, `created_at` the clock reading taken for that record, the parsed start time and the interval's values |
| `Models.ConvertDaily` | src/climacell/models.rs:57-85 | one record per interval of the first timeline, in order, each with id 0, `created_at` the clock reading taken for that record, the parsed start time, the interval's values and sunrise and sunset always present |
| `Windows.TakeNewestKeepsNewest` | src/forecast_db.rs:45-90 | no row left outside the `LIMIT n` window is newer by `created_at` than any row inside it |
| `Windows.SortBy` | src/forecast_db.rs:45-90 | the outer `ORDER BY weather_time ASC` returns the same rows, sorted |
| `Windows.RecentWindow` | src/forecast_db.rs:45-90 | the window holds min(n, table size) rows; with the rows it leaves out it is exactly the table; it is sorted by the described time; nothing left out is newer |
| `ForecastDb.ParseSearchType` | src/forecast_db.rs:205-215 | "daily" and "timerange" parse, exactly and case-sensitively; every other string is an error |
| `ForecastDb.Latest` | src/forecast_db.rs:10-11 | the first row of a descending `created_at` query is a stored value no smaller than any other |
| `ForecastDb.LatestOrMin` | src/forecast_db.rs:10-17 | a failed query yields `MIN_UTC`; a non-empty column yields its maximum |
| `ForecastDb.ProbeTimestamps` | src/forecast_db.rs:7-24 | a failed connection is an error with the connect message; otherwise each table independently yields its newest `created_at` or `MIN_UTC` |
| `ForecastDb.ProbeTimestampsAsWritten` | src/forecast_db.rs:7-24 | the probe panics exactly when the connection succeeds and a table's query returns no rows; otherwise it agrees with the corrected probe |
| `ForecastDb.EmptyTablePanicsProbe` | src/forecast_db.rs:10-11 | on a database with an empty hourly table the probe as written panics, where the corrected one yields `MIN_UTC` for it |
| `ForecastDb.ColumnValue` | src/forecast_db.rs:63-70 | a `try_get` column that reads gives `Some` of its value, one that does not gives `None` |
| `ForecastDb.DecodeDaily` | src/forecast_db.rs:52-73 | a daily row becomes a record with every column copied and the sun times optional |
| `ForecastDb.DecodedFromTable` | src/forecast_db.rs:40-83 | records decoded from rows drawn from a table are decodings of that table's rows |
| `ForecastDb.GetDailyDb` | src/forecast_db.rs:40-83 | connection and query errors carry their messages; on success, min(8, table size) records, sorted by day; together with the decodings of the rows left out they are exactly the decoded table, and no row left out is newer |
| `ForecastDb.DecodePermutes` | src/forecast_db.rs:50-77 | decoding two arrangements of the same rows gives two arrangements of the same records |
| `ForecastDb.DecodedSplit` | src/forecast_db.rs:50-77 | splitting the table into the window and the rows left out splits the decoded table the same way |
| `ForecastDb.GetHourlyDb` | src/forecast_db.rs:85-123 | connection and query errors carry their messages; on success, min(25, table size) rows, sorted by hour; together with the rows left out they are exactly the table, and no row left out is newer |
| `ForecastDb.FirstRejected` | src/forecast_db.rs:264-287 | the position of the first rejected insert: every earlier insert succeeded |
| `ForecastDb.InsertAll` | src/forecast_db.rs:264-287 | the rows before the first rejection are appended in order, nothing after it is tried, and no error means every record went in |
| `ForecastDb.DumpHourly` | src/forecast_db.rs:261-292 | a failed connection changes nothing; otherwise the table grows by the inserted prefix, and the result is an error exactly when an insert was rejected |
| `ForecastDb.DumpDaily` | src/forecast_db.rs:229-259 | as for hourly, with each stored row carrying the record's unwrapped sunrise and sunset |
| `ForecastDb.DumpInst` | src/forecast_db.rs:294-330 | one observation is appended on success; a connection failure or rejection leaves the table unchanged, with its own message |
| `ForecastDb.WeeklyEndTime` | src/forecast_db.rs:217-221 | the daily forecast is requested up to five days after the current time |
| `ForecastDb.HourlyEndTime` | src/forecast_db.rs:223-227 | the hourly forecast is requested up to 24 hours after the current time |
| `Web.Param` | src/web.rs:7-8 | a parameter is present exactly when its key was given a value, and it is the first value |
| `Web.Lookup` | src/web.rs:6-61 | a request is well formed if and only if it names a known search type and the day parameters that type needs |
| `Web.GetHist` | src/web.rs:6-61 | each malformed request gets its own message and status; a well-formed one gets exactly what storage answered for that lookup |
| `Web.MalformedSkipsStorage` | src/web.rs:6-61 | a malformed request's reply is text that storage cannot change, and is 400 exactly when `search_type` was given |
| `Web.WellFormedKeepsStatus` | src/web.rs:12-50 | a 400 status only comes from a malformed request, and a well-formed request never gets a text body |
| `Web.GetHourlyWeb` | src/web.rs:67-96 | the cache is replaced by the converted payload only when the request and the decode succeed; each failure keeps the cache and carries its message |
| `Web.GetDailyWeb` | src/web.rs:98-126 | the cache is replaced by the converted payload only when the request and the decode succeed; each failure keeps the cache and carries its message |
| `Web.Echo` | src/web.rs:144-155 | the first `echo` value, or "error" when there is none |
| `Refresh.Decide` | src/main.rs:48-170 | fetch if and only if strictly older than the threshold; load from storage if and only if fresh, empty and not the instant source; otherwise nothing |
| `Refresh.StepInst` | src/main.rs:48-74 | older than 30 minutes and fetched: new observation and clock reading, one historical row written through; failed or fresh: nothing changes |
| `Refresh.StepHourly` | src/main.rs:76-124 | older than 8 hours: install the fetch and write it through, or change nothing on failure; fresh and empty: the 25-row storage window (or still empty) with the timestamp kept; fresh and non-empty: nothing |
| `Refresh.StepDaily` | src/main.rs:126-170 | older than 24 hours: install the fetch and write it through, or change nothing on failure; fresh and empty: the 8-row storage window (or still empty) with the timestamp kept; fresh and non-empty: nothing |
| `Refresh.StartAsWritten` | src/main.rs:31-45 | as written, startup panics exactly when the database answers and a table is empty; otherwise it is the corrected start |
| `Refresh.EmptyStorageNeverTicksAsWritten` | src/forecast_db.rs:10-17 | as written, a start against a reachable database with an empty hourly or daily table never reaches a tick |
| `Refresh.Tick` | src/main.rs:47-171 | one pass of the loop never removes a stored row: each table after the tick extends the table before it |
| `Refresh.TickSourcesIndependent` | src/main.rs:47-171 | a source's slot and table after a tick are the same whatever the other two sources' state and inputs |
| `Refresh.Start` | src/main.rs:19-45 | all caches empty and every timestamp `MIN_UTC`, except that a successful probe seeds the hourly and daily timestamps |
| `Refresh.ThresholdIsStrict` | src/main.rs:48 | a timestamp exactly one threshold old is fresh, and one nanosecond older is stale |
| `Refresh.StampNeverDecreases` | src/main.rs:48-170 | a timestamp changes only to a successful fetch's clock reading, so it never decreases when the clock does not run backwards |
| `Refresh.StaleNeverBootstraps` | src/main.rs:76-150 | a stale source whose fetch fails keeps its slot and table exactly, even when empty |
| `Refresh.PersistFailureKeepsInstall` | src/main.rs:83-98 | after a successful fetch the installed cache and timestamp do not depend on how the write-through went |
| `Refresh.InstIgnoresStorageWhenFresh` | src/main.rs:48-74 | unless it fetched, the instant step does not depend on the database at all |
| `Refresh.ReadAfterFetch` | src/main.rs:83-91 | after a tick whose stale hourly fetch succeeded, the hourly cache served is exactly the fetched forecast |
| `Refresh.FirstTickFetchesAll` | src/main.rs:31-48 | after a start whose probe failed, the first tick fetches all three sources; with the corrected probe the same holds for a start that found empty tables, which as written panics instead |
| `Refresh.EmptyStorageFirstObservation` | src/main.rs:31-74 | under the corrected probe, from empty storage, one successful instant fetch leaves that observation cached and exactly one historical row; as written this start panics before the tick |
| `Refresh.RecentStoreBootstraps` | src/main.rs:37-124 | with an hourly forecast stored two hours ago, the start as written does not panic and the first tick loads the newest rows from storage without fetching and keeps the probed timestamp |
| `Refresh.FreshForecastReachesAhead` | src/web.rs:72-79 | while the hourly (daily) cache is fresh, the forecast it requested still reaches 16 hours (4 days) past now, less the fetch's duration |
| `Refresh.UnreachableStorageLeavesEmpty` | src/main.rs:107-120 | a fresh empty hourly cache with unreachable storage stays empty and fresh |
| `Refresh.FailedThenRetried` | src/main.rs:126-150 | a failed daily fetch leaves the slot as it was, and a later successful one installs the new forecast |

## Left out

- Threads, the mutexes, lock poisoning and the 15-minute sleep. A tick is one function application, and the HTTP readers are not modelled against it.
- The network and the providers' HTTP parameters (`get_lat_long`, the API key, `fields`, `units`). A fetch is the transport's and the decoder's answer. `endTime` is modelled by `WeeklyEndTime`/`HourlyEndTime`.
- The personal weather station: `src/wunder.rs` and `InstModel::convert` are not part of this model. The instant observation is an opaque type that the historical table stores as it is.
- `get_historical_db` and `get_historical_range_db`. `Web.GetHist` takes the historical lookup as a function parameter. Their SQL text, and the interpolation of `day` into it, are not modelled.
- `get_conn_str`, `set_default_headers`, `poke`, the health check and the server's startup. These are environment variables, headers and logging.
- JSON serialisation of replies and records. `get_cached_hourly`, `get_cached_daily` and `get_cached_inst` serialise the slot's cache, which the `Refresh` lemmas state directly.
- Time zones. Stored times are instants here. The source writes `weather_time` as the UTC wall clock (`naive_local()` of a `DateTime<Utc>`, src/forecast_db.rs:237 and :269). It reads that column back as local wall time (`Local.from_local_datetime`, :58 and :103), but reads the sun times back as UTC (:64 and :68). So on a host whose zone is not UTC every `weather_time` the reads return is shifted by the zone's offset, and the model's reads (`ForecastDb.GetHourlyDb`, `ForecastDb.GetDailyDb` and the lemmas built on them) match the source only on a UTC host. The panic of `from_local_datetime(..).unwrap()` on an ambiguous local time is left out too.
- Models.ConvertHourly: `precipitation_probability as f64` is exact here; rounding above 2^53 is not modelled.
- PrecipitationTypes.ReadSql: the source's `from_str(..).unwrap()` panics on unknown text, and its `from_utf8_lossy` decoding is not modelled. The stored text must be a variant name.
- WeatherCodes.ReadSql: as for precipitation types.
- MoonPhases.ReadSql: as for precipitation types.
- ForecastDb.DumpDaily: `sunrise_time.unwrap()` panics on a record without sun times. The model requires them on every record the insert loop reaches.
- Refresh.StepDaily: it requires the fetched records to carry sun times, which `DailyWeather::convert` always provides.
- `src/weather.rs` and `src/climacell.rs` are not part of this model.

## Findings

| source | as written | input that shows it | evidently intended | confidence | as-written member | corrected member |
|---|---|---|---|---|---|---|
| src/forecast_db.rs:10-17 | `Ok(t) => t[0].get(0)` indexes the first row of a query that succeeded, so an empty `hourly_weather` or `daily_weather` table panics the refresh thread | a reachable database whose hourly table is empty (a first start): `ProbeTimestampsAsWritten(Answered, Rows([]), Rows([t])) == Panicked` | an empty table falls back to `MIN_UTC`, as a failed query does, so the first tick fetches | not executed | `ForecastDb.ProbeTimestampsAsWritten`, `Refresh.StartAsWritten` | `ForecastDb.ProbeTimestamps`, `Refresh.FirstTickFetchesAll`, `Refresh.EmptyStorageFirstObservation` |
