/** The linear scan with early return that every reference-table lookup uses. */
module Scan {

  /** The first element of `table` whose key is `id`, or `zero` when no element has it. */
  function FirstMatch<T>(table: seq<T>, idOf: T -> int, id: int, zero: T): T
    decreases |table|
  {
    if |table| == 0 then zero
    else if idOf(table[0]) == id then table[0]
    else FirstMatch(table[1..], idOf, id, zero)
  }

  /** The scan yields the earliest element with the key; with no such element
      it yields `zero`; whenever some element has the key, it yields an element
      of the table that has it. */
  lemma {:induction false} FirstMatchMeaning<T>(table: seq<T>, idOf: T -> int, id: int, zero: T)
    ensures forall k :: 0 <= k < |table| && idOf(table[k]) == id && (forall j :: 0 <= j < k ==> idOf(table[j]) != id) ==>
      FirstMatch(table, idOf, id, zero) == table[k]
    ensures (forall j :: 0 <= j < |table| ==> idOf(table[j]) != id) ==> FirstMatch(table, idOf, id, zero) == zero
    ensures (exists k :: 0 <= k < |table| && idOf(table[k]) == id) ==>
      FirstMatch(table, idOf, id, zero) in table && idOf(FirstMatch(table, idOf, id, zero)) == id
    decreases |table|
  {
    if |table| > 0 && idOf(table[0]) != id {
      FirstMatchMeaning(table[1..], idOf, id, zero);
      assert forall k :: 1 <= k < |table| ==> table[k] == table[1..][k - 1];
    }
  }
}
