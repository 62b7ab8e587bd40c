/**
 * The two `accepts` tests the code enums implement for the PostgreSQL
 * driver. `FromSql::accepts` compares the column type with the built-in
 * VARCHAR type; `ToSql::accepts` compares only the type's name, so a
 * user-defined type that happens to be called "varchar" passes the second
 * test but not the first.
 */
module SqlTypes {

  /** A column type as the driver describes it: its OID and its name. */
  datatype PgType = PgType(oid: nat, name: string)

  /** The built-in VARCHAR type (OID 1043). */
  const Varchar: PgType := PgType(1043, "varchar")

  /** The driver's refusal to convert a value of a type it was not built for. */
  datatype SqlError = WrongType(ty: PgType)

  /** `FromSql::accepts`: `ty == &Type::VARCHAR`. */
  predicate FromSqlAccepts(ty: PgType) {
    ty == Varchar
  }

  /** `ToSql::accepts`: `ty.name() == "varchar"`. */
  predicate ToSqlAccepts(ty: PgType) {
    ty.name == "varchar"
  }

  /** Every type the read side accepts, the write side accepts too; the converse fails. */
  lemma AcceptsNesting(ty: PgType)
    ensures FromSqlAccepts(ty) ==> ToSqlAccepts(ty)
    ensures ToSqlAccepts(PgType(16384, "varchar")) && !FromSqlAccepts(PgType(16384, "varchar"))
  {
  }
}
