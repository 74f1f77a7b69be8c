/** The fallback product catalogue (`initialProducts.ts`): 24 constant entries,
    one to three per sector. */
module InitialProducts {
  import SectorLayout

  const SecondsPerDay: int := 24 * 3600

  /** One catalogue row; `shelfLife` is in seconds, as the source's `BigInt`. */
  datatype CatalogueEntry = CatalogueEntry(
    productId: string, name: string, baseCost: real, sellPrice: real, sector: string, shelfLife: int)

  const Catalogue: seq<CatalogueEntry> := [
    CatalogueEntry("prod_apple", "Apples", 1.5, 2.99, "Produce", 7 * 24 * 3600),
    CatalogueEntry("prod_banana", "Bananas", 0.8, 1.49, "Produce", 5 * 24 * 3600),
    CatalogueEntry("prod_tomato", "Tomatoes", 2.0, 3.49, "Produce", 5 * 24 * 3600),
    CatalogueEntry("meat_beef", "Beef", 8.0, 12.99, "Butcher", 3 * 24 * 3600),
    CatalogueEntry("meat_chicken", "Chicken", 5.0, 7.99, "Butcher", 3 * 24 * 3600),
    CatalogueEntry("fish_salmon", "Salmon", 10.0, 15.99, "Fish", 2 * 24 * 3600),
    CatalogueEntry("bakery_bread", "Bread", 1.0, 2.49, "Bakery", 3 * 24 * 3600),
    CatalogueEntry("bakery_croissant", "Croissants", 2.0, 3.99, "Bakery", 2 * 24 * 3600),
    CatalogueEntry("dairy_milk", "Milk", 2.0, 3.49, "Dairy", 7 * 24 * 3600),
    CatalogueEntry("dairy_cheese", "Cheese", 4.0, 6.99, "Dairy", 14 * 24 * 3600),
    CatalogueEntry("grocery_rice", "Rice", 3.0, 5.99, "Grocery", 365 * 24 * 3600),
    CatalogueEntry("grocery_pasta", "Pasta", 1.5, 2.99, "Grocery", 365 * 24 * 3600),
    CatalogueEntry("drink_water", "Water", 0.5, 1.49, "Drinks", 365 * 24 * 3600),
    CatalogueEntry("drink_soda", "Soda", 1.0, 2.49, "Drinks", 180 * 24 * 3600),
    CatalogueEntry("frozen_pizza", "Frozen Pizza", 3.0, 5.99, "Frozen", 90 * 24 * 3600),
    CatalogueEntry("clean_detergent", "Detergent", 4.0, 7.99, "Cleaning", 365 * 24 * 3600),
    CatalogueEntry("hygiene_soap", "Soap", 2.0, 3.99, "Hygiene", 365 * 24 * 3600),
    CatalogueEntry("pet_food", "Pet Food", 5.0, 9.99, "Pet", 180 * 24 * 3600),
    CatalogueEntry("elec_battery", "Batteries", 3.0, 5.99, "Electronics", 365 * 24 * 3600),
    CatalogueEntry("home_towel", "Towels", 5.0, 9.99, "HomeGoods", 365 * 24 * 3600),
    CatalogueEntry("bazaar_toy", "Toys", 8.0, 14.99, "Bazaar", 365 * 24 * 3600),
    CatalogueEntry("pharm_vitamins", "Vitamins", 6.0, 11.99, "Pharmacy", 365 * 24 * 3600),
    CatalogueEntry("org_apple", "Organic Apples", 3.0, 5.99, "Organics", 7 * 24 * 3600),
    CatalogueEntry("whole_rice", "Rice (Bulk)", 15.0, 24.99, "Wholesale", 365 * 24 * 3600)
  ]

  /** 24 rows with pairwise distinct product ids. */
  lemma CatalogueShape()
    ensures |Catalogue| == 24
    ensures forall i, j :: 0 <= i < j < |Catalogue| ==> Catalogue[i].productId != Catalogue[j].productId
  {
  }

  /** Every shelf life is a positive whole number of days. */
  lemma ShelfLivesWholeDays()
    ensures forall i :: 0 <= i < |Catalogue| ==>
      Catalogue[i].shelfLife > 0 && Catalogue[i].shelfLife % SecondsPerDay == 0
  {
  }

  /** Every product sells above its cost. */
  lemma PricesAboveCost()
    ensures forall i :: 0 <= i < |Catalogue| ==> 0.0 < Catalogue[i].baseCost < Catalogue[i].sellPrice
  {
  }

  /** Position in `SectorLayout.Layout` of each row's sector. */
  const LayoutIndexOfEntry: seq<nat> := [0, 0, 0, 4, 4, 5, 1, 1, 8, 8, 6, 6, 7, 7, 9, 10, 11, 12, 13, 14, 15, 3, 2, 16]

  /** Every row names a laid-out sector, so the layout lookup succeeds for it. */
  lemma CatalogueSectorsLaidOut()
    ensures forall i :: 0 <= i < |Catalogue| ==> SectorLaidOutAt(i)
  {
    FirstRowsLaidOut();
    LastRowsLaidOut();
  }

  predicate SectorLaidOutAt(i: nat)
  {
    i < |Catalogue| && i < |LayoutIndexOfEntry| && LayoutIndexOfEntry[i] < |SectorLayout.Layout| &&
    SectorLayout.Layout[LayoutIndexOfEntry[i]].name == Catalogue[i].sector
  }

  lemma FirstRowsLaidOut()
    ensures forall i :: 0 <= i < 12 ==> SectorLaidOutAt(i)
  {
  }

  lemma LastRowsLaidOut()
    ensures forall i :: 12 <= i < 24 ==> SectorLaidOutAt(i)
  {
  }

  lemma CatalogueSectorHasLayout(i: nat)
    requires i < |Catalogue|
    ensures SectorLayout.GetSectorLayout(Catalogue[i].sector).Some?
  {
    CatalogueSectorsLaidOut();
    assert SectorLayout.Layout[LayoutIndexOfEntry[i]].name == Catalogue[i].sector;
  }

  /** The catalogue lists each sector's rows as one contiguous block:
      layout entry `k`'s rows are `RowsFrom[k] .. RowsTo[k]`. */
  const RowsFrom: seq<nat> := [0, 6, 22, 21, 3, 5, 10, 12, 8, 14, 15, 16, 17, 18, 19, 20, 23]
  const RowsTo: seq<nat> := [3, 8, 23, 22, 5, 6, 12, 14, 10, 15, 16, 17, 18, 19, 20, 21, 24]

  lemma BlocksSmall()
    ensures |RowsFrom| == |RowsTo| == |SectorLayout.Layout|
    ensures forall k :: 0 <= k < |RowsFrom| ==> RowsFrom[k] + 1 <= RowsTo[k] <= RowsFrom[k] + 3
  {
  }

  lemma RowInItsBlock()
    ensures forall i :: 0 <= i < |Catalogue| ==>
      i < |LayoutIndexOfEntry| && LayoutIndexOfEntry[i] < |RowsFrom| && LayoutIndexOfEntry[i] < |RowsTo| &&
      RowsFrom[LayoutIndexOfEntry[i]] <= i < RowsTo[LayoutIndexOfEntry[i]]
  {
  }

  lemma BlockRowsInSector()
    ensures forall k, i :: 0 <= k < |RowsFrom| && k < |RowsTo| && RowsFrom[k] <= i < RowsTo[k] ==>
      i < |LayoutIndexOfEntry| && LayoutIndexOfEntry[i] == k
  {
  }

  /** Each of the 17 sectors stocks one to three rows: the rows whose sector is
      layout entry `k`'s name are exactly the block `RowsFrom[k] .. RowsTo[k]`,
      which holds between one and three rows. */
  lemma SectorsStockOneToThree(k: nat, i: nat)
    requires k < |SectorLayout.Layout| && i < |Catalogue|
    ensures 1 <= RowsTo[k] - RowsFrom[k] <= 3
    ensures Catalogue[i].sector == SectorLayout.Layout[k].name <==> RowsFrom[k] <= i < RowsTo[k]
  {
    BlocksSmall();
    CatalogueSectorsLaidOut();
    RowInItsBlock();
    BlockRowsInSector();
    SectorLayout.LayoutShape();
    assert SectorLaidOutAt(i);
    var j := LayoutIndexOfEntry[i];
    if Catalogue[i].sector == SectorLayout.Layout[k].name {
      assert SectorLayout.Layout[j].name == SectorLayout.Layout[k].name;
      assert j == k;
    }
  }
}
