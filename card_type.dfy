/** The card-type reference table (card_type.go). */
module CardTypes {
  import Scan

  datatype CardType = CardType(id: int, name: string, slug: string)

  /** `CardType{}`, the zero value a lookup returns when nothing matches. */
  const Zero := CardType(0, "", "")

  /** The error text of a lookup against an empty table: the source reuses the
      rarity table's message here. */
  const NotPopulated := "fatal: Rarities not populated"

  function IdOf(t: CardType): int
  {
    t.id
  }

  /** What a lookup in a populated table yields: the first type with the given
      ID, or the zero type when none has it. */
  function ById(table: seq<CardType>, id: int): CardType
  {
    Scan.FirstMatch(table, IdOf, id, Zero)
  }

  /** The lookup yields the first record with the ID, the zero record when none
      has it, and a record of the table with that ID whenever one exists. */
  lemma ByIdMeaning(table: seq<CardType>, id: int)
    ensures forall k :: 0 <= k < |table| && table[k].id == id && (forall j :: 0 <= j < k ==> table[j].id != id) ==> ById(table, id) == table[k]
    ensures (forall j :: 0 <= j < |table| ==> table[j].id != id) ==> ById(table, id) == Zero
    ensures (exists k :: 0 <= k < |table| && table[k].id == id) ==>
      ById(table, id) in table && ById(table, id).id == id
  {
    Scan.FirstMatchMeaning(table, IdOf, id, Zero);
  }
}
