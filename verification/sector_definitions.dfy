/** Cosmetic metadata of the sectors (`sectorConstants.ts`): icon, colour and
    description keyed by the same names as the floor plan. */
module SectorDefinitions {
  import opened Common
  import SectorLayout

  datatype SectorDefinition = SectorDefinition(name: string, icon: string, color: string, description: string)

  const Definitions: seq<SectorDefinition> := [
    SectorDefinition("Produce", "\U{1F96C}", "#22c55e", "Fresh fruits and vegetables"),
    SectorDefinition("Butcher", "\U{1F969}", "#ef4444", "Fresh meat and poultry"),
    SectorDefinition("Fish", "\U{1F41F}", "#3b82f6", "Fresh seafood"),
    SectorDefinition("Bakery", "\U{1F35E}", "#f59e0b", "Fresh baked goods"),
    SectorDefinition("Dairy", "\U{1F9C0}", "#fbbf24", "Dairy products and cheese"),
    SectorDefinition("Grocery", "\U{1F6D2}", "#8b5cf6", "Packaged foods and staples"),
    SectorDefinition("Drinks", "\U{1F964}", "#06b6d4", "Beverages and soft drinks"),
    SectorDefinition("Frozen", "\U{2744}\U{FE0F}", "#0ea5e9", "Frozen foods"),
    SectorDefinition("Cleaning", "\U{1F9F9}", "#10b981", "Cleaning products"),
    SectorDefinition("Hygiene", "\U{1F9F4}", "#ec4899", "Personal care products"),
    SectorDefinition("Pet", "\U{1F415}", "#f97316", "Pet food and supplies"),
    SectorDefinition("Electronics", "\U{1F4F1}", "#6366f1", "Electronics and gadgets"),
    SectorDefinition("HomeGoods", "\U{1F3E0}", "#84cc16", "Home utilities and goods"),
    SectorDefinition("Bazaar", "\U{1F381}", "#a855f7", "General merchandise"),
    SectorDefinition("Pharmacy", "\U{1F48A}", "#14b8a6", "Health and wellness"),
    SectorDefinition("Organics", "\U{1F331}", "#65a30d", "Organic products"),
    SectorDefinition("Wholesale", "\U{1F4E6}", "#78716c", "Bulk purchases")
  ]

  lemma DefinitionsShape()
    ensures |Definitions| == 17
    ensures forall i, j :: 0 <= i < j < |Definitions| ==> Definitions[i].name != Definitions[j].name
  {
  }

  /** `getSectorDefinition`: the first definition with the given name, or
      `None` (never a failure) when there is none. */
  function GetSectorDefinition(name: string): (r: Option<SectorDefinition>)
    ensures r.Some? <==> exists i :: 0 <= i < |Definitions| && Definitions[i].name == name
    ensures r.Some? ==> r.value in Definitions && r.value.name == name
  {
    Find(Definitions, (d: SectorDefinition) => d.name == name)
  }

  /** Names are unique, so the lookup returns exactly the definition of that name. */
  lemma GetSectorDefinitionExact(i: nat)
    requires i < |Definitions|
    ensures GetSectorDefinition(Definitions[i].name) == Some(Definitions[i])
  {
    DefinitionsShape();
  }

  /** Where each layout entry's definition sits in `Definitions`. */
  const DefinitionIndexOfLayout: seq<nat> := [0, 3, 15, 14, 1, 2, 5, 6, 4, 7, 8, 9, 10, 11, 12, 13, 16]

  /** Where each definition's layout entry sits in `SectorLayout.Layout`. */
  const LayoutIndexOfDefinition: seq<nat> := [0, 4, 5, 1, 8, 6, 7, 9, 10, 11, 12, 13, 14, 15, 3, 2, 16]

  /** Every layout entry's name is the name of a definition. */
  lemma LayoutNamesDefined()
    ensures forall i :: 0 <= i < |SectorLayout.Layout| ==>
      i < |DefinitionIndexOfLayout| && DefinitionIndexOfLayout[i] < |Definitions| &&
      Definitions[DefinitionIndexOfLayout[i]].name == SectorLayout.Layout[i].name
  {
  }

  /** Every definition's name is the name of a layout entry. */
  lemma DefinitionNamesLaidOut()
    ensures forall k :: 0 <= k < |Definitions| ==>
      k < |LayoutIndexOfDefinition| && LayoutIndexOfDefinition[k] < |SectorLayout.Layout| &&
      SectorLayout.Layout[LayoutIndexOfDefinition[k]].name == Definitions[k].name
  {
  }

  /** The two tables name the same 17 sectors: a name has a definition exactly
      when it has a layout entry, so every layout entry resolves to a
      definition and the renderer never skips one. */
  lemma DefinitionExistsIffLayoutExists(name: string)
    ensures GetSectorDefinition(name).Some? <==> SectorLayout.GetSectorLayout(name).Some?
  {
    if GetSectorDefinition(name).Some? {
      DefinedIsLaidOut(name);
    }
    if SectorLayout.GetSectorLayout(name).Some? {
      LaidOutIsDefined(name);
    }
  }

  lemma DefinedIsLaidOut(name: string)
    requires exists k :: 0 <= k < |Definitions| && Definitions[k].name == name
    ensures exists i :: 0 <= i < |SectorLayout.Layout| && SectorLayout.Layout[i].name == name
  {
    var k :| 0 <= k < |Definitions| && Definitions[k].name == name;
    DefinitionNamesLaidOut();
    assert SectorLayout.Layout[LayoutIndexOfDefinition[k]].name == name;
  }

  lemma LaidOutIsDefined(name: string)
    requires exists i :: 0 <= i < |SectorLayout.Layout| && SectorLayout.Layout[i].name == name
    ensures exists k :: 0 <= k < |Definitions| && Definitions[k].name == name
  {
    var i :| 0 <= i < |SectorLayout.Layout| && SectorLayout.Layout[i].name == name;
    LayoutNamesDefined();
    assert Definitions[DefinitionIndexOfLayout[i]].name == name;
  }

  predicate IsHexDigit(c: char)
  {
    '0' <= c <= '9' || 'a' <= c <= 'f' || 'A' <= c <= 'F'
  }

  /** A CSS colour `#rrggbb` (`digits == 6`) or `#rrggbbaa` (`digits == 8`). */
  predicate IsHexColor(c: string, digits: nat)
  {
    |c| == digits + 1 && c[0] == '#' && forall k :: 1 <= k < |c| ==> IsHexDigit(c[k])
  }

  /** Every colour is `#` followed by six hex digits. */
  lemma ColorsWellFormed()
    ensures forall i :: 0 <= i < |Definitions| ==> IsHexColor(Definitions[i].color, 6)
  {
  }

  /** Appending a two-digit alpha to a six-digit colour (as the renderer does
      with `'20'` and `'40'`) gives a well-formed eight-digit colour. */
  lemma AppendAlpha(c: string, alpha: string)
    requires IsHexColor(c, 6)
    requires |alpha| == 2 && IsHexDigit(alpha[0]) && IsHexDigit(alpha[1])
    ensures IsHexColor(c + alpha, 8)
  {
    assert forall k :: 7 <= k < 9 ==> (c + alpha)[k] == alpha[k - 7];
  }
}
