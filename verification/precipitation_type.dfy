/**
 * The forecast provider's precipitation kinds. JSON input carries the
 * numeric code, JSON output and the database carry the variant name.
 */
module PrecipitationTypes {

  import opened Results
  import opened SqlTypes
  import CodeTables

  /** The variants, in declaration order. */
  datatype PrecipitationType =
      NA
    | Rain
    | Snow
    | FreezingRain
    | IcePellets

  /** The `#[default]` variant. */
  const Default: PrecipitationType := NA

  /** Every variant, in declaration order. */
  const AllTypes: seq<PrecipitationType> :=
    [ NA, Rain, Snow, FreezingRain, IcePellets ]

  /** The `u8` discriminant, which JSON input carries. */
  function Code(v: PrecipitationType): int {
    match v
    case NA => 0
    case Rain => 1
    case Snow => 2
    case FreezingRain => 3
    case IcePellets => 4
  }

  /** The variant name: what `Display` (and so `ToSql`) writes and what `Serialize` emits. */
  function Name(v: PrecipitationType): string {
    match v
    case NA => "NA"
    case Rain => "Rain"
    case Snow => "Snow"
    case FreezingRain => "Freezing_Rain"
    case IcePellets => "Ice_Pellets"
  }

  /**
   * `FromStr` as derived by `EnumString`: an exact, case-sensitive
   * match against the variant names; anything else is an error.
   */
  function FromName(s: string): (r: Option<PrecipitationType>)
  {
    match s
    case "NA" => Some(NA)
    case "Rain" => Some(Rain)
    case "Snow" => Some(Snow)
    case "Freezing_Rain" => Some(FreezingRain)
    case "Ice_Pellets" => Some(IcePellets)
    case _ => None
  }

  /** `Deserialize_repr`: the variant whose discriminant is `n`, if any. */
  function FromCode(n: int): (r: Option<PrecipitationType>)
    ensures r.Some? ==> Code(r.value) == n
  {
    if n == 0 then Some(NA)
    else if n == 1 then Some(Rain)
    else if n == 2 then Some(Snow)
    else if n == 3 then Some(FreezingRain)
    else if n == 4 then Some(IcePellets)
    else None
  }

  /** The name parser inverts the name: a name parses back to its own variant. */
  lemma NameRoundTrip(v: PrecipitationType)
    ensures FromName(Name(v)) == Some(v)
  {
  }

  /** A string parses to a variant exactly when it is that variant's name. */
  lemma FromNameExact(s: string, v: PrecipitationType)
    ensures FromName(s) == Some(v) <==> s == Name(v)
  {
    NameRoundTrip(v);
    if FromName(s) == Some(v) {
      match v
      case NA => assert s == "NA";
      case _ =>
    }
  }

  /** The JSON decoder inverts the discriminant. */
  lemma CodeRoundTrip(v: PrecipitationType)
    ensures FromCode(Code(v)) == Some(v)
  {
  }

  /** Distinct variants have distinct discriminants. */
  lemma CodeInjective(a: PrecipitationType, b: PrecipitationType)
    ensures Code(a) == Code(b) ==> a == b
  {
    CodeRoundTrip(a);
    CodeRoundTrip(b);
  }

  /** Distinct variants have distinct names. */
  lemma NameInjective(a: PrecipitationType, b: PrecipitationType)
    ensures Name(a) == Name(b) ==> a == b
  {
    NameRoundTrip(a);
    NameRoundTrip(b);
  }

  /** The table lists every variant. */
  lemma Enumerated(v: PrecipitationType)
    ensures v in AllTypes
  {
  }

  /** The default variant is the first one, with discriminant 0. */
  lemma DefaultIsZero()
    ensures AllTypes[0] == Default && Code(Default) == 0 && FromCode(0) == Some(Default)
  {
  }

  /** The discriminants are 0, 1, ... in declaration order, so they are pairwise distinct. */
  lemma CodesContiguous()
    ensures |AllTypes| == 5
    ensures CodeTables.Contiguous(AllTypes, Code)
    ensures CodeTables.Ascending(AllTypes, Code)
  {
    CodeTables.ContiguousAscending(AllTypes, Code);
  }

  /** A discriminant outside 0 .. 4 is not a variant; every one inside is. */
  lemma CodeRange(n: int)
    ensures FromCode(n).Some? <==> 0 <= n < 5
    ensures 0 <= n < 5 ==> FromCode(n) == Some(AllTypes[n])
  {
  }


  /**
   * `ToSql::to_sql` behind `to_sql_checked!`: a type the write side does
   * not accept is refused, otherwise the variant's name is written as text,
   * and that text parses back to the same variant.
   */
  function WriteSql(v: PrecipitationType, ty: PgType): (r: Result<string, SqlError>)
    ensures r.Ok? <==> ToSqlAccepts(ty)
    ensures r.Err? ==> r.error == WrongType(ty)
    ensures r.Ok? ==> FromName(r.value) == Some(v)
  {
    NameRoundTrip(v);
    if ToSqlAccepts(ty) then Ok(Name(v)) else Err(WrongType(ty))
  }

  /**
   * `FromSql::from_sql` as the driver calls it: a type the read side does
   * not accept is refused; otherwise the stored text is parsed with
   * `from_str(..).unwrap()`, which panics on a string that is not a
   * variant name, so an accepted column must hold a variant name.
   */
  function ReadSql(ty: PgType, text: string): (r: Result<PrecipitationType, SqlError>)
    requires FromSqlAccepts(ty) ==> FromName(text).Some?
    ensures r.Ok? <==> FromSqlAccepts(ty)
    ensures r.Err? ==> r.error == WrongType(ty)
    ensures r.Ok? ==> Name(r.value) == text
  {
    if FromSqlAccepts(ty) then
      FromNameExact(text, FromName(text).value);
      Ok(FromName(text).value)
    else
      Err(WrongType(ty))
  }

  /** Writing a variant to a VARCHAR column and reading it back yields the same variant. */
  lemma SqlRoundTrip(v: PrecipitationType)
    ensures WriteSql(v, Varchar).Ok?
    ensures ReadSql(Varchar, WriteSql(v, Varchar).value) == Ok(v)
  {
  }
}
