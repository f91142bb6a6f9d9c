/** The card-set reference table (cardset.go). */
module CardSets {
  import Scan

  datatype CardSet = CardSet(id: int, slug: string, name: string, kind: string)

  /** `CardSet{}`, the zero value a lookup returns when nothing matches. */
  const Zero := CardSet(0, "", "", "")

  /** The error text of a lookup against an empty table. */
  const NotPopulated := "fatal: Card Sets not populated"

  function IdOf(s: CardSet): int
  {
    s.id
  }

  /** What a lookup in a populated table yields: the first set with the given
      ID, or the zero set when none has it. */
  function ById(table: seq<CardSet>, id: int): CardSet
  {
    Scan.FirstMatch(table, IdOf, id, Zero)
  }

  /** The lookup yields the first record with the ID, the zero record when none
      has it, and a record of the table with that ID whenever one exists. */
  lemma ByIdMeaning(table: seq<CardSet>, id: int)
    ensures forall k :: 0 <= k < |table| && table[k].id == id && (forall j :: 0 <= j < k ==> table[j].id != id) ==> ById(table, id) == table[k]
    ensures (forall j :: 0 <= j < |table| ==> table[j].id != id) ==> ById(table, id) == Zero
    ensures (exists k :: 0 <= k < |table| && table[k].id == id) ==>
      ById(table, id) in table && ById(table, id).id == id
  {
    Scan.FirstMatchMeaning(table, IdOf, id, Zero);
  }
}
