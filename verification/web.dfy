/**
 * The HTTP handlers' decisions: the historical-query dispatch, the
 * forecast fetchers' overwrite-on-success discipline and the echo route.
 * Request parsing, JSON serialisation and the network are not modelled:
 * the query string is a map, bodies are tagged values, and a fetch is the
 * transport's and the decoder's answer.
 */
module Web {
  import opened Results
  import opened Time
  import opened Payload
  import opened Models
  import ForecastDb

  /** A parsed query string: every value given for each key, in order. */
  type Query = map<string, seq<string>>

  /** The framework's `query().get(key)`: the first value given for `key`, if any. */
  function Param(q: Query, key: string): (r: Option<string>)
    ensures r.Some? <==> key in q && |q[key]| > 0
    ensures r.Some? ==> r.value == q[key][0]
  {
    if key in q && |q[key]| > 0 then Some(q[key][0]) else None
  }

  // ---------------------------------------------------------------- historical query

  /** The response status: left as the framework set it, or set to 400 Bad Request. */
  datatype Status = Untouched | BadRequest

  /** A storage lookup of the historical table: one day, or an inclusive range of days. */
  datatype HistoryQuery = OnDay(day: string) | Between(day1: string, day2: string)

  /** A response body: plain text, the JSON rows found, or a storage error as a JSON string. */
  datatype Body<Obs> = Text(text: string) | Rows(rows: seq<Obs>) | StorageError(message: string)

  datatype Reply<Obs> = Reply(status: Status, body: Body<Obs>)

  /** A storage answer as the reply carrying it: status untouched either way. */
  function Answer<Obs>(found: Result<seq<Obs>, string>): Reply<Obs> {
    match found
    case Ok(rows) => Reply(Untouched, Rows(rows))
    case Err(e) => Reply(Untouched, StorageError(e))
  }

  /** The storage lookup a well-formed request asks for, if the request is well-formed. */
  function Lookup(q: Query): (r: Option<HistoryQuery>)
    ensures r.Some? && r.value.OnDay? <==>
      Param(q, "search_type") == Some("daily") && Param(q, "day").Some?
    ensures r.Some? && r.value.Between? <==>
      Param(q, "search_type") == Some("timerange") && Param(q, "day1").Some? && Param(q, "day2").Some?
    ensures r.Some? && r.value.OnDay? ==> r.value.day == Param(q, "day").value
    ensures r.Some? && r.value.Between? ==>
      r.value.day1 == Param(q, "day1").value && r.value.day2 == Param(q, "day2").value
  {
    match Param(q, "search_type")
    case None => None
    case Some(st) =>
      match ForecastDb.ParseSearchType(st)
      case None => None
      case Some(kind) =>
        if kind.Daily? then
          if Param(q, "day").Some? then Some(OnDay(Param(q, "day").value)) else None
        else if Param(q, "day1").Some? && Param(q, "day2").Some? then
          Some(Between(Param(q, "day1").value, Param(q, "day2").value))
        else None
  }

  /**
   * `get_hist`: dispatch on `search_type`, check the day parameters, and
   * ask storage only for a well-formed request.
   */
  function GetHist<Obs>(q: Query, storage: HistoryQuery -> Result<seq<Obs>, string>): (r: Reply<Obs>)
    ensures Param(q, "search_type").None? ==> r == Reply(Untouched, Text("missing search_type"))
    ensures Param(q, "search_type").Some? && ForecastDb.ParseSearchType(Param(q, "search_type").value).None? ==>
      r == Reply(BadRequest, Text("unknown search_type provided"))
    ensures Param(q, "search_type") == Some("daily") && Param(q, "day").None? ==>
      r == Reply(BadRequest, Text("missing day"))
    ensures Param(q, "search_type") == Some("timerange") && Param(q, "day1").None? ==>
      r == Reply(BadRequest, Text("missing day1"))
    ensures Param(q, "search_type") == Some("timerange") && Param(q, "day1").Some? && Param(q, "day2").None? ==>
      r == Reply(BadRequest, Text("missing day2"))
    ensures Lookup(q).Some? ==> r == Answer(storage(Lookup(q).value))
  {
    match Param(q, "search_type")
    case None => Reply(Untouched, Text("missing search_type"))
    case Some(st) =>
      match ForecastDb.ParseSearchType(st)
      case None => Reply(BadRequest, Text("unknown search_type provided"))
      case Some(kind) =>
        if kind.Daily? then
          match Param(q, "day")
          case None => Reply(BadRequest, Text("missing day"))
          case Some(d) => Answer(storage(OnDay(d)))
        else
          match Param(q, "day1")
          case None => Reply(BadRequest, Text("missing day1"))
          case Some(d1) =>
            match Param(q, "day2")
            case None => Reply(BadRequest, Text("missing day2"))
            case Some(d2) => Answer(storage(Between(d1, d2)))
  }

  /**
   * A request that is not well-formed gets a text reply that no storage
   * can change, and it is a Bad Request exactly when `search_type` was given.
   */
  lemma MalformedSkipsStorage<Obs>(q: Query, s1: HistoryQuery -> Result<seq<Obs>, string>, s2: HistoryQuery -> Result<seq<Obs>, string>)
    requires Lookup(q).None?
    ensures GetHist(q, s1) == GetHist(q, s2)
    ensures GetHist(q, s1).body.Text?
    ensures GetHist(q, s1).status == BadRequest <==> Param(q, "search_type").Some?
  {
  }

  /** A well-formed request never changes the status, whatever storage answers. */
  lemma WellFormedKeepsStatus<Obs>(q: Query, storage: HistoryQuery -> Result<seq<Obs>, string>)
    ensures GetHist(q, storage).status == BadRequest ==> Lookup(q).None?
    ensures Lookup(q).Some? ==> !GetHist(q, storage).body.Text?
  {
  }

  // ---------------------------------------------------------------- forecast fetchers

  /** What the HTTP client and the JSON decoder produced: a transport error, or a decode result. */
  datatype Transport<P> = SendFailed(reason: string) | Received(decoded: Result<P, string>)

  /**
   * `get_hourly_web`: the cache is replaced by the converted payload only
   * when the request went through and the body decoded; on any error it
   * is left exactly as it was.
   */
  method GetHourlyWeb(cache: seq<HourlyWeather>, response: Transport<HourlyRoot>, clock: nat -> Instant, parse: Rfc3339)
    returns (cache': seq<HourlyWeather>, r: Result<string, string>)
    requires response.Received? && response.decoded.Ok? ==> HourlyConvertible(response.decoded.value, parse)
    ensures r.Ok? <==> response.Received? && response.decoded.Ok?
    ensures r.Err? ==> cache' == cache
    ensures response.SendFailed? ==> r == Err("Couldn't retrieve hourly data from Web, Reason: " + response.reason)
    ensures response.Received? && response.decoded.Err? ==>
      r == Err("Couldn't deserialize hourly data from web, Reason: " + response.decoded.error)
    ensures r.Ok? ==> var intervals := response.decoded.value.timelines[0].intervals;
      && |cache'| == |intervals|
      && forall i :: 0 <= i < |cache'| ==> HourlyFrom(cache'[i], intervals[i], clock(i), parse)
  {
    match response
    case SendFailed(e) =>
      cache' := cache;
      r := Err("Couldn't retrieve hourly data from Web, Reason: " + e);
    case Received(decoded) =>
      match decoded
      case Err(e) =>
        cache' := cache;
        r := Err("Couldn't deserialize hourly data from web, Reason: " + e);
      case Ok(root) =>
        cache' := ConvertHourly(root, clock, parse);
        r := Ok("Successfully pulled hourly data from Web");
  }

  /**
   * `get_daily_web`: the cache is replaced by the converted payload only
   * when the request went through and the body decoded; on any error it
   * is left exactly as it was.
   */
  method GetDailyWeb(cache: seq<DailyWeather>, response: Transport<DailyRoot>, clock: nat -> Instant, parse: Rfc3339)
    returns (cache': seq<DailyWeather>, r: Result<string, string>)
    requires response.Received? && response.decoded.Ok? ==> DailyConvertible(response.decoded.value, parse)
    ensures r.Ok? <==> response.Received? && response.decoded.Ok?
    ensures r.Err? ==> cache' == cache
    ensures response.SendFailed? ==> r == Err("Couldn't retrieve daily data from Web, Reason: " + response.reason)
    ensures response.Received? && response.decoded.Err? ==>
      r == Err("Couldn't deserialize daily data from web, Reason: " + response.decoded.error)
    ensures r.Ok? ==> var intervals := response.decoded.value.timelines[0].intervals;
      && |cache'| == |intervals|
      && forall i :: 0 <= i < |cache'| ==> DailyFrom(cache'[i], intervals[i], clock(i), parse)
  {
    match response
    case SendFailed(e) =>
      cache' := cache;
      r := Err("Couldn't retrieve daily data from Web, Reason: " + e);
    case Received(decoded) =>
      match decoded
      case Err(e) =>
        cache' := cache;
        r := Err("Couldn't deserialize daily data from web, Reason: " + e);
      case Ok(root) =>
        cache' := ConvertDaily(root, clock, parse);
        r := Ok("Successfully pulled daily data from Web");
  }

  // ---------------------------------------------------------------- echo

  /** `echo`: the first `echo` value, or "error" when there is none. */
  function Echo(q: Query): (r: string)
    ensures "echo" in q && |q["echo"]| > 0 ==> r == q["echo"][0]
    ensures !("echo" in q && |q["echo"]| > 0) ==> r == "error"
  {
    match Param(q, "echo")
    case Some(v) => v
    case None => "error"
  }
}
