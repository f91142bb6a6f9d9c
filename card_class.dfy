/** The card-class reference table (card_class.go). */
module CardClasses {
  import Scan

  datatype CardClass = CardClass(id: int, name: string, slug: string)

  /** `CardClass{}`, the zero value a lookup returns when nothing matches. */
  const Zero := CardClass(0, "", "")

  /** The error text of a lookup against an empty table: the source reuses the
      rarity table's message here. */
  const NotPopulated := "fatal: Rarities not populated"

  function IdOf(c: CardClass): int
  {
    c.id
  }

  /** What a lookup in a populated table yields: the first class with the
      given ID, or the zero class when none has it. */
  function ById(table: seq<CardClass>, id: int): CardClass
  {
    Scan.FirstMatch(table, IdOf, id, Zero)
  }

  /** The lookup yields the first record with the ID, the zero record when none
      has it, and a record of the table with that ID whenever one exists. */
  lemma ByIdMeaning(table: seq<CardClass>, id: int)
    ensures forall k :: 0 <= k < |table| && table[k].id == id && (forall j :: 0 <= j < k ==> table[j].id != id) ==> ById(table, id) == table[k]
    ensures (forall j :: 0 <= j < |table| ==> table[j].id != id) ==> ById(table, id) == Zero
    ensures (exists k :: 0 <= k < |table| && table[k].id == id) ==>
      ById(table, id) in table && ById(table, id).id == id
  {
    Scan.FirstMatchMeaning(table, IdOf, id, Zero);
  }
}
