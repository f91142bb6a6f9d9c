/** The rarity reference table (rarity.go). */
module Rarities {
  import Scan

  /** A rarity record. Its crafting-cost and dust-value lists are opaque
      passthrough data that no logic reads, and are not modelled. */
  datatype Rarity = Rarity(slug: string, id: int, name: string)

  /** `Rarity{}`, the zero value a lookup returns when nothing matches. */
  const Zero := Rarity("", 0, "")

  /** The error text of a lookup against an empty table. */
  const NotPopulated := "fatal: Rarities not populated"

  function IdOf(r: Rarity): int
  {
    r.id
  }

  /** What a lookup in a populated table yields: the first rarity with the
      given ID, or the zero rarity when none has it ("not found" is not an error). */
  function ById(table: seq<Rarity>, id: int): Rarity
  {
    Scan.FirstMatch(table, IdOf, id, Zero)
  }

  /** The lookup yields the first record with the ID, the zero record when none
      has it, and a record of the table with that ID whenever one exists. */
  lemma ByIdMeaning(table: seq<Rarity>, id: int)
    ensures forall k :: 0 <= k < |table| && table[k].id == id && (forall j :: 0 <= j < k ==> table[j].id != id) ==> ById(table, id) == table[k]
    ensures (forall j :: 0 <= j < |table| ==> table[j].id != id) ==> ById(table, id) == Zero
    ensures (exists k :: 0 <= k < |table| && table[k].id == id) ==>
      ById(table, id) in table && ById(table, id).id == id
  {
    Scan.FirstMatchMeaning(table, IdOf, id, Zero);
  }
}
