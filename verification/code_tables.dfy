/**
 * Facts shared by the small code enums, which list their variants in
 * declaration order together with a numeric discriminant.
 */
module CodeTables {

  /** The discriminants rise strictly along the whole table. */
  predicate Ascending<T>(table: seq<T>, code: T -> int) {
    forall i, j :: 0 <= i < j < |table| ==> code(table[i]) < code(table[j])
  }

  /** The discriminants are exactly 0, 1, 2, ... in table order. */
  predicate Contiguous<T>(table: seq<T>, code: T -> int) {
    forall i :: 0 <= i < |table| ==> code(table[i]) == i
  }

  /** A contiguous table is ascending. */
  lemma ContiguousAscending<T>(table: seq<T>, code: T -> int)
    requires Contiguous(table, code)
    ensures Ascending(table, code)
  {
  }
}
