/**
 * The eight moon phases in cycle order, New through Waning_Crescent. JSON
 * input carries the numeric code, JSON output and the database the name.
 */
module MoonPhases {

  import opened Results
  import opened SqlTypes
  import CodeTables

  /** The variants, in declaration order. */
  datatype MoonPhase =
      New
    | WaxingCrescent
    | FirstQuarter
    | WaxingGibbous
    | Full
    | WaningGibbous
    | ThirdQuarter
    | WaningCrescent

  /** The `#[default]` variant. */
  const Default: MoonPhase := New

  /** Every variant, in declaration order. */
  const AllPhases: seq<MoonPhase> :=
    [ New, WaxingCrescent, FirstQuarter, WaxingGibbous, Full,
    WaningGibbous, ThirdQuarter, WaningCrescent ]

  /** The `u8` discriminant, which JSON input carries. */
  function Code(v: MoonPhase): int {
    match v
    case New => 0
    case WaxingCrescent => 1
    case FirstQuarter => 2
    case WaxingGibbous => 3
    case Full => 4
    case WaningGibbous => 5
    case ThirdQuarter => 6
    case WaningCrescent => 7
  }

  /** The variant name: what `Display` (and so `ToSql`) writes and what `Serialize` emits. */
  function Name(v: MoonPhase): string {
    match v
    case New => "New"
    case WaxingCrescent => "Waxing_Crescent"
    case FirstQuarter => "First_Quarter"
    case WaxingGibbous => "Waxing_Gibbous"
    case Full => "Full"
    case WaningGibbous => "Waning_Gibbous"
    case ThirdQuarter => "Third_Quarter"
    case WaningCrescent => "Waning_Crescent"
  }

  /**
   * `FromStr` as derived by `EnumString`: an exact, case-sensitive
   * match against the variant names; anything else is an error.
   */
  function FromName(s: string): (r: Option<MoonPhase>)
  {
    match s
    case "New" => Some(New)
    case "Waxing_Crescent" => Some(WaxingCrescent)
    case "First_Quarter" => Some(FirstQuarter)
    case "Waxing_Gibbous" => Some(WaxingGibbous)
    case "Full" => Some(Full)
    case "Waning_Gibbous" => Some(WaningGibbous)
    case "Third_Quarter" => Some(ThirdQuarter)
    case "Waning_Crescent" => Some(WaningCrescent)
    case _ => None
  }

  /** `Deserialize_repr`: the variant whose discriminant is `n`, if any. */
  function FromCode(n: int): (r: Option<MoonPhase>)
    ensures r.Some? ==> Code(r.value) == n
  {
    if n == 0 then Some(New)
    else if n == 1 then Some(WaxingCrescent)
    else if n == 2 then Some(FirstQuarter)
    else if n == 3 then Some(WaxingGibbous)
    else if n == 4 then Some(Full)
    else if n == 5 then Some(WaningGibbous)
    else if n == 6 then Some(ThirdQuarter)
    else if n == 7 then Some(WaningCrescent)
    else None
  }

  /** The name parser inverts the name: a name parses back to its own variant. */
  lemma NameRoundTrip(v: MoonPhase)
    ensures FromName(Name(v)) == Some(v)
  {
  }

  /** A string parses to a variant exactly when it is that variant's name. */
  lemma FromNameExact(s: string, v: MoonPhase)
    ensures FromName(s) == Some(v) <==> s == Name(v)
  {
    NameRoundTrip(v);
    if FromName(s) == Some(v) {
      match v
      case New => assert s == "New";
      case _ =>
    }
  }

  /** The JSON decoder inverts the discriminant. */
  lemma CodeRoundTrip(v: MoonPhase)
    ensures FromCode(Code(v)) == Some(v)
  {
  }

  /** Distinct variants have distinct discriminants. */
  lemma CodeInjective(a: MoonPhase, b: MoonPhase)
    ensures Code(a) == Code(b) ==> a == b
  {
    CodeRoundTrip(a);
    CodeRoundTrip(b);
  }

  /** Distinct variants have distinct names. */
  lemma NameInjective(a: MoonPhase, b: MoonPhase)
    ensures Name(a) == Name(b) ==> a == b
  {
    NameRoundTrip(a);
    NameRoundTrip(b);
  }

  /** The table lists every variant. */
  lemma Enumerated(v: MoonPhase)
    ensures v in AllPhases
  {
  }

  /** The default variant is the first one, with discriminant 0. */
  lemma DefaultIsZero()
    ensures AllPhases[0] == Default && Code(Default) == 0 && FromCode(0) == Some(Default)
  {
  }

  /** The discriminants are 0, 1, ... in declaration order, so they are pairwise distinct. */
  lemma CodesContiguous()
    ensures |AllPhases| == 8
    ensures CodeTables.Contiguous(AllPhases, Code)
    ensures CodeTables.Ascending(AllPhases, Code)
  {
    CodeTables.ContiguousAscending(AllPhases, Code);
  }

  /** A discriminant outside 0 .. 7 is not a variant; every one inside is. */
  lemma CodeRange(n: int)
    ensures FromCode(n).Some? <==> 0 <= n < 8
    ensures 0 <= n < 8 ==> FromCode(n) == Some(AllPhases[n])
  {
  }


  /**
   * `ToSql::to_sql` behind `to_sql_checked!`: a type the write side does
   * not accept is refused, otherwise the variant's name is written as text,
   * and that text parses back to the same variant.
   */
  function WriteSql(v: MoonPhase, ty: PgType): (r: Result<string, SqlError>)
    ensures r.Ok? <==> ToSqlAccepts(ty)
    ensures r.Err? ==> r.error == WrongType(ty)
    ensures r.Ok? ==> FromName(r.value) == Some(v)
  {
    NameRoundTrip(v);
    if ToSqlAccepts(ty) then Ok(Name(v)) else Err(WrongType(ty))
  }

  /**
   * `FromSql::from_sql` as the driver calls it: a type the read side does
   * not accept is refused; otherwise the stored text is parsed with
   * `from_str(..).unwrap()`, which panics on a string that is not a
   * variant name, so an accepted column must hold a variant name.
   */
  function ReadSql(ty: PgType, text: string): (r: Result<MoonPhase, SqlError>)
    requires FromSqlAccepts(ty) ==> FromName(text).Some?
    ensures r.Ok? <==> FromSqlAccepts(ty)
    ensures r.Err? ==> r.error == WrongType(ty)
    ensures r.Ok? ==> Name(r.value) == text
  {
    if FromSqlAccepts(ty) then
      FromNameExact(text, FromName(text).value);
      Ok(FromName(text).value)
    else
      Err(WrongType(ty))
  }

  /** Writing a variant to a VARCHAR column and reading it back yields the same variant. */
  lemma SqlRoundTrip(v: MoonPhase)
    ensures WriteSql(v, Varchar).Ok?
    ensures ReadSql(Varchar, WriteSql(v, Varchar).value) == Ok(v)
  {
  }
}
