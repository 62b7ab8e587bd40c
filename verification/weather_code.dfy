/**
 * The forecast provider's weather condition codes. JSON input carries the
 * numeric code, JSON output and the database carry the variant name.
 */
module WeatherCodes {

  import opened Results
  import opened SqlTypes

  /** The variants, in declaration order. */
  datatype WeatherCode =
      Unknown
    | Clear
    | Cloudy
    | MostlyClear
    | PartlyCloudy
    | MostlyCloudy
    | Fog
    | LightFog
    | LightWind
    | Wind
    | StrongWind
    | Drizzle
    | Rain
    | LightRain
    | HeavyRain
    | Snow
    | Flurries
    | LightSnow
    | HeavySnow
    | FreezingDrizzle
    | FreezingRain
    | LightFreezingRain
    | HeavyFreezingRain
    | IcePellets
    | HeavyIcePellets
    | LightIcePellets
    | Thunderstorm

  /** The `#[default]` variant. */
  const Default: WeatherCode := Unknown

  /** Every variant, in declaration order. */
  const AllCodes: seq<WeatherCode> :=
    [ Unknown, Clear, Cloudy, MostlyClear, PartlyCloudy,
    MostlyCloudy, Fog, LightFog, LightWind, Wind,
    StrongWind, Drizzle, Rain, LightRain, HeavyRain,
    Snow, Flurries, LightSnow, HeavySnow, FreezingDrizzle,
    FreezingRain, LightFreezingRain, HeavyFreezingRain, IcePellets, HeavyIcePellets,
    LightIcePellets, Thunderstorm ]

  /** The `i16` discriminant, which JSON input carries. */
  function Code(v: WeatherCode): int {
    match v
    case Unknown => 0
    case Clear => 1000
    case Cloudy => 1001
    case MostlyClear => 1100
    case PartlyCloudy => 1101
    case MostlyCloudy => 1102
    case Fog => 2000
    case LightFog => 2100
    case LightWind => 3000
    case Wind => 3001
    case StrongWind => 3002
    case Drizzle => 4000
    case Rain => 4001
    case LightRain => 4200
    case HeavyRain => 4201
    case Snow => 5000
    case Flurries => 5001
    case LightSnow => 5100
    case HeavySnow => 5101
    case FreezingDrizzle => 6000
    case FreezingRain => 6001
    case LightFreezingRain => 6200
    case HeavyFreezingRain => 6201
    case IcePellets => 7000
    case HeavyIcePellets => 7101
    case LightIcePellets => 7102
    case Thunderstorm => 8000
  }

  /** The variant name: what `Display` (and so `ToSql`) writes and what `Serialize` emits. */
  function Name(v: WeatherCode): string {
    match v
    case Unknown => "Unknown"
    case Clear => "Clear"
    case Cloudy => "Cloudy"
    case MostlyClear => "Mostly_Clear"
    case PartlyCloudy => "Partly_Cloudy"
    case MostlyCloudy => "Mostly_Cloudy"
    case Fog => "Fog"
    case LightFog => "Light_Fog"
    case LightWind => "Light_Wind"
    case Wind => "Wind"
    case StrongWind => "Strong_Wind"
    case Drizzle => "Drizzle"
    case Rain => "Rain"
    case LightRain => "Light_Rain"
    case HeavyRain => "Heavy_Rain"
    case Snow => "Snow"
    case Flurries => "Flurries"
    case LightSnow => "Light_Snow"
    case HeavySnow => "Heavy_Snow"
    case FreezingDrizzle => "Freezing_Drizzle"
    case FreezingRain => "Freezing_Rain"
    case LightFreezingRain => "Light_Freezing_Rain"
    case HeavyFreezingRain => "Heavy_Freezing_Rain"
    case IcePellets => "Ice_Pellets"
    case HeavyIcePellets => "Heavy_Ice_Pellets"
    case LightIcePellets => "Light_Ice_Pellets"
    case Thunderstorm => "Thunderstorm"
  }

  /**
   * `FromStr` as derived by `EnumString`: an exact, case-sensitive
   * match against the variant names; anything else is an error. The
   * names are matched in groups of equal length, which keeps each
   * group's proof small; the strings accepted are the same.
   */
  function FromName(s: string): (r: Option<WeatherCode>)
    ensures r.Some? ==> Name(r.value) == s
  {
    if |s| == 3 then NamedWithLength3(s)
    else if |s| == 4 then NamedWithLength4(s)
    else if |s| == 5 then NamedWithLength5(s)
    else if |s| == 6 then NamedWithLength6(s)
    else if |s| == 7 then NamedWithLength7(s)
    else if |s| == 8 then NamedWithLength8(s)
    else if |s| == 9 then NamedWithLength9(s)
    else if |s| == 10 then NamedWithLength10(s)
    else if |s| == 11 then NamedWithLength11(s)
    else if |s| == 12 then NamedWithLength12(s)
    else if |s| == 13 then NamedWithLength13(s)
    else if |s| == 16 then NamedWithLength16(s)
    else if |s| == 17 then NamedWithLength17(s)
    else if |s| == 19 then NamedWithLength19(s)
    else None
  }

  /** The variants whose names have 3 characters. */
  function NamedWithLength3(s: string): (r: Option<WeatherCode>)
    ensures r.Some? ==> Name(r.value) == s
  {
    match s
    case "Fog" => Some(Fog)
    case _ => None
  }

  /** The variants whose names have 4 characters. */
  function NamedWithLength4(s: string): (r: Option<WeatherCode>)
    ensures r.Some? ==> Name(r.value) == s
  {
    match s
    case "Wind" => Some(Wind)
    case "Rain" => Some(Rain)
    case "Snow" => Some(Snow)
    case _ => None
  }

  /** The variants whose names have 5 characters. */
  function NamedWithLength5(s: string): (r: Option<WeatherCode>)
    ensures r.Some? ==> Name(r.value) == s
  {
    match s
    case "Clear" => Some(Clear)
    case _ => None
  }

  /** The variants whose names have 6 characters. */
  function NamedWithLength6(s: string): (r: Option<WeatherCode>)
    ensures r.Some? ==> Name(r.value) == s
  {
    match s
    case "Cloudy" => Some(Cloudy)
    case _ => None
  }

  /** The variants whose names have 7 characters. */
  function NamedWithLength7(s: string): (r: Option<WeatherCode>)
    ensures r.Some? ==> Name(r.value) == s
  {
    match s
    case "Unknown" => Some(Unknown)
    case "Drizzle" => Some(Drizzle)
    case _ => None
  }

  /** The variants whose names have 8 characters. */
  function NamedWithLength8(s: string): (r: Option<WeatherCode>)
    ensures r.Some? ==> Name(r.value) == s
  {
    match s
    case "Flurries" => Some(Flurries)
    case _ => None
  }

  /** The variants whose names have 9 characters. */
  function NamedWithLength9(s: string): (r: Option<WeatherCode>)
    ensures r.Some? ==> Name(r.value) == s
  {
    match s
    case "Light_Fog" => Some(LightFog)
    case _ => None
  }

  /** The variants whose names have 10 characters. */
  function NamedWithLength10(s: string): (r: Option<WeatherCode>)
    ensures r.Some? ==> Name(r.value) == s
  {
    match s
    case "Light_Wind" => Some(LightWind)
    case "Light_Rain" => Some(LightRain)
    case "Heavy_Rain" => Some(HeavyRain)
    case "Light_Snow" => Some(LightSnow)
    case "Heavy_Snow" => Some(HeavySnow)
    case _ => None
  }

  /** The variants whose names have 11 characters. */
  function NamedWithLength11(s: string): (r: Option<WeatherCode>)
    ensures r.Some? ==> Name(r.value) == s
  {
    match s
    case "Strong_Wind" => Some(StrongWind)
    case "Ice_Pellets" => Some(IcePellets)
    case _ => None
  }

  /** The variants whose names have 12 characters. */
  function NamedWithLength12(s: string): (r: Option<WeatherCode>)
    ensures r.Some? ==> Name(r.value) == s
  {
    match s
    case "Mostly_Clear" => Some(MostlyClear)
    case "Thunderstorm" => Some(Thunderstorm)
    case _ => None
  }

  /** The variants whose names have 13 characters. */
  function NamedWithLength13(s: string): (r: Option<WeatherCode>)
    ensures r.Some? ==> Name(r.value) == s
  {
    match s
    case "Partly_Cloudy" => Some(PartlyCloudy)
    case "Mostly_Cloudy" => Some(MostlyCloudy)
    case "Freezing_Rain" => Some(FreezingRain)
    case _ => None
  }

  /** The variants whose names have 16 characters. */
  function NamedWithLength16(s: string): (r: Option<WeatherCode>)
    ensures r.Some? ==> Name(r.value) == s
  {
    match s
    case "Freezing_Drizzle" => Some(FreezingDrizzle)
    case _ => None
  }

  /** The variants whose names have 17 characters. */
  function NamedWithLength17(s: string): (r: Option<WeatherCode>)
    ensures r.Some? ==> Name(r.value) == s
  {
    match s
    case "Heavy_Ice_Pellets" => Some(HeavyIcePellets)
    case "Light_Ice_Pellets" => Some(LightIcePellets)
    case _ => None
  }

  /** The variants whose names have 19 characters. */
  function NamedWithLength19(s: string): (r: Option<WeatherCode>)
    ensures r.Some? ==> Name(r.value) == s
  {
    match s
    case "Light_Freezing_Rain" => Some(LightFreezingRain)
    case "Heavy_Freezing_Rain" => Some(HeavyFreezingRain)
    case _ => None
  }

  /** `Deserialize_repr`: the variant whose discriminant is `n`, if any. */
  function FromCode(n: int): (r: Option<WeatherCode>)
    ensures r.Some? ==> Code(r.value) == n
  {
    if n == 0 then Some(Unknown)
    else if n == 1000 then Some(Clear)
    else if n == 1001 then Some(Cloudy)
    else if n == 1100 then Some(MostlyClear)
    else if n == 1101 then Some(PartlyCloudy)
    else if n == 1102 then Some(MostlyCloudy)
    else if n == 2000 then Some(Fog)
    else if n == 2100 then Some(LightFog)
    else if n == 3000 then Some(LightWind)
    else if n == 3001 then Some(Wind)
    else if n == 3002 then Some(StrongWind)
    else if n == 4000 then Some(Drizzle)
    else if n == 4001 then Some(Rain)
    else if n == 4200 then Some(LightRain)
    else if n == 4201 then Some(HeavyRain)
    else if n == 5000 then Some(Snow)
    else if n == 5001 then Some(Flurries)
    else if n == 5100 then Some(LightSnow)
    else if n == 5101 then Some(HeavySnow)
    else if n == 6000 then Some(FreezingDrizzle)
    else if n == 6001 then Some(FreezingRain)
    else if n == 6200 then Some(LightFreezingRain)
    else if n == 6201 then Some(HeavyFreezingRain)
    else if n == 7000 then Some(IcePellets)
    else if n == 7101 then Some(HeavyIcePellets)
    else if n == 7102 then Some(LightIcePellets)
    else if n == 8000 then Some(Thunderstorm)
    else None
  }

  /** The name parser inverts the name: a name parses back to its own variant. */
  lemma NameRoundTrip(v: WeatherCode)
    ensures FromName(Name(v)) == Some(v)
  {
    match v
    case Unknown =>
    case Clear =>
    case Cloudy =>
    case MostlyClear =>
    case PartlyCloudy =>
    case MostlyCloudy =>
    case Fog =>
    case LightFog =>
    case LightWind =>
    case Wind =>
    case StrongWind =>
    case Drizzle =>
    case Rain =>
    case LightRain =>
    case HeavyRain =>
    case Snow =>
    case Flurries =>
    case LightSnow =>
    case HeavySnow =>
    case FreezingDrizzle =>
    case FreezingRain =>
    case LightFreezingRain =>
    case HeavyFreezingRain =>
    case IcePellets =>
    case HeavyIcePellets =>
    case LightIcePellets =>
    case Thunderstorm =>
  }

  /** A string parses to a variant exactly when it is that variant's name. */
  lemma FromNameExact(s: string, v: WeatherCode)
    ensures FromName(s) == Some(v) <==> s == Name(v)
  {
    NameRoundTrip(v);
  }

  /** The JSON decoder inverts the discriminant. */
  lemma CodeRoundTrip(v: WeatherCode)
    ensures FromCode(Code(v)) == Some(v)
  {
  }

  /** Distinct variants have distinct discriminants. */
  lemma CodeInjective(a: WeatherCode, b: WeatherCode)
    ensures Code(a) == Code(b) ==> a == b
  {
    CodeRoundTrip(a);
    CodeRoundTrip(b);
  }

  /** Distinct variants have distinct names. */
  lemma NameInjective(a: WeatherCode, b: WeatherCode)
    ensures Name(a) == Name(b) ==> a == b
  {
    NameRoundTrip(a);
    NameRoundTrip(b);
  }

  /** The table lists every variant. */
  lemma Enumerated(v: WeatherCode)
    ensures v in AllCodes
  {
  }

  /** The default variant is the first one, with discriminant 0. */
  lemma DefaultIsZero()
    ensures AllCodes[0] == Default && Code(Default) == 0 && FromCode(0) == Some(Default)
  {
  }

  /** A variant's position in declaration order. */
  function Position(v: WeatherCode): (i: nat)
    ensures i < |AllCodes| && AllCodes[i] == v
  {
    match v
    case Unknown => 0
    case Clear => 1
    case Cloudy => 2
    case MostlyClear => 3
    case PartlyCloudy => 4
    case MostlyCloudy => 5
    case Fog => 6
    case LightFog => 7
    case LightWind => 8
    case Wind => 9
    case StrongWind => 10
    case Drizzle => 11
    case Rain => 12
    case LightRain => 13
    case HeavyRain => 14
    case Snow => 15
    case Flurries => 16
    case LightSnow => 17
    case HeavySnow => 18
    case FreezingDrizzle => 19
    case FreezingRain => 20
    case LightFreezingRain => 21
    case HeavyFreezingRain => 22
    case IcePellets => 23
    case HeavyIcePellets => 24
    case LightIcePellets => 25
    case Thunderstorm => 26
  }

  /**
   * The discriminants rise strictly in declaration order: of two
   * variants, the one declared first has the smaller code.
   */
  lemma CodesAscending(a: WeatherCode, b: WeatherCode)
    ensures |AllCodes| == 27
    ensures Position(a) < Position(b) <==> Code(a) < Code(b)
  {
  }

  /** Every discriminant fits the declared `i16` representation; the largest is 8000. */
  lemma CodeBounds(v: WeatherCode)
    ensures 0 <= Code(v) <= Code(Thunderstorm) == 8000 < 0x8000
  {
  }

  /** JSON input carries codes: 1000 is Clear and 8000 is Thunderstorm, but a name is not a code. */
  lemma JsonCodeExamples()
    ensures FromCode(1000) == Some(Clear) && FromCode(8000) == Some(Thunderstorm)
    ensures FromCode(1) == None && FromCode(-1) == None
  {
  }


  /**
   * `ToSql::to_sql` behind `to_sql_checked!`: a type the write side does
   * not accept is refused, otherwise the variant's name is written as text,
   * and that text parses back to the same variant.
   */
  function WriteSql(v: WeatherCode, ty: PgType): (r: Result<string, SqlError>)
    ensures r.Ok? <==> ToSqlAccepts(ty)
    ensures r.Err? ==> r.error == WrongType(ty)
    ensures r.Ok? ==> FromName(r.value) == Some(v)
  {
    NameRoundTrip(v);
    if ToSqlAccepts(ty) then Ok(Name(v)) else Err(WrongType(ty))
  }

  /**
   * `FromSql::from_sql` as the driver calls it: a type the read side does
   * not accept is refused; otherwise the stored text is parsed with
   * `from_str(..).unwrap()`, which panics on a string that is not a
   * variant name, so an accepted column must hold a variant name.
   */
  function ReadSql(ty: PgType, text: string): (r: Result<WeatherCode, SqlError>)
    requires FromSqlAccepts(ty) ==> FromName(text).Some?
    ensures r.Ok? <==> FromSqlAccepts(ty)
    ensures r.Err? ==> r.error == WrongType(ty)
    ensures r.Ok? ==> Name(r.value) == text
  {
    if FromSqlAccepts(ty) then
      FromNameExact(text, FromName(text).value);
      Ok(FromName(text).value)
    else
      Err(WrongType(ty))
  }

  /** Writing a variant to a VARCHAR column and reading it back yields the same variant. */
  lemma SqlRoundTrip(v: WeatherCode)
    ensures WriteSql(v, Varchar).Ok?
    ensures ReadSql(Varchar, WriteSql(v, Varchar).value) == Ok(v)
  {
  }
}
