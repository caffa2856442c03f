// The in-memory character registry of src/objects/character/CharacterRegistry.ts.

module CharacterRegistry {
  import opened Common
  import opened Appearance

  /** CHARACTER_DEFINITIONS, in declaration order; the first entry is the fallback. */
  const Definitions: seq<CharacterAppearance> := [
    CharacterAppearance("chicken", "chicken", Some(0xffffff), Some(0xffa500), Some(0xffcc66)),
    CharacterAppearance("horse", "horse", Some(0x8b4513), Some(0x000000), Some(0xd2691e)),
    CharacterAppearance("raccoon", "raccoon", Some(0x808080), Some(0x000000), Some(0x404040))
  ]

  /** `defs.find(c => c.id === id)`: the first definition whose id equals id, if any. */
  function Find(defs: seq<CharacterAppearance>, id: Option<string>): (r: Option<nat>)
    ensures r.Some? ==> r.value < |defs| && id == Some(defs[r.value].id)
    ensures r.Some? ==> forall j :: 0 <= j < r.value ==> id != Some(defs[j].id)
    ensures r.None? <==> forall j :: 0 <= j < |defs| ==> id != Some(defs[j].id)
  {
    if |defs| == 0 then None
    else if id == Some(defs[0].id) then Some(0)
    else
      match Find(defs[1..], id)
      case None => None
      case Some(k) => Some(k + 1)
  }

  /**
   * getCharacterAppearance: the definition with the given id; an unknown,
   * null or undefined id (None) falls back to the first definition.
   */
  function GetCharacterAppearance(id: Option<string>): (a: CharacterAppearance)
    ensures a in Definitions
    ensures id.Some? && id.value in {"chicken", "horse", "raccoon"} ==> a.id == id.value
    ensures id.None? || id.value !in {"chicken", "horse", "raccoon"} ==> a == Definitions[0]
  {
    match Find(Definitions, id)
    case Some(k) => Definitions[k]
    case None => Definitions[0]
  }

  /** listCharacterAppearances: a copy of all definitions, in order. */
  function ListCharacterAppearances(): (r: seq<CharacterAppearance>)
    ensures |r| == 3
    ensures r[0].id == "chicken" && r[1].id == "horse" && r[2].id == "raccoon"
    ensures forall i :: 0 <= i < |r| ==> r[i].modelKey == r[i].id
  {
    Definitions[..]
  }

  /** Every listed appearance is what a lookup by its own id returns. */
  lemma ListedAreFound()
    ensures forall a :: a in ListCharacterAppearances() ==> GetCharacterAppearance(Some(a.id)) == a
  {
    var r := ListCharacterAppearances();
    forall a | a in r
      ensures GetCharacterAppearance(Some(a.id)) == a
    {
      assert a == r[0] || a == r[1] || a == r[2];
    }
  }

  /** Definition ids are pairwise distinct, so a lookup is unambiguous. */
  lemma DefinitionIdsDistinct()
    ensures forall i, j :: 0 <= i < j < |Definitions| ==> Definitions[i].id != Definitions[j].id
  {
  }
}
