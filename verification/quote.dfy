/** The line items of the exported quote (the cost and label part of
    `handleExport` in App.tsx): one line per priced field, each with a label
    key, a description key and a cost. Drawing the document, currency
    formatting and the translation of keys into text are not modelled. */
module Quote {
  import opened Wrappers
  import opened Types
  import opened Constants
  import Store

  /** Which option a line describes (the translation key of its label). */
  datatype LabelKey =
    | ModelVariantLabel | WallColorLabel | WindowStyleLabel | FloorMaterialLabel
    | KitchenLabel | DiningLabel | SolarLabel | HvacLabel

  /** What the line says about the chosen value (a translation key, or the
      raw value where the document prints one). */
  datatype Description =
    | VariantName(variantKey: string)
    | ColourName(colourName: string)
    | RawColour(colour: string)
    | PanoramicView | StandardView
    | WoodFloor | TileFloor | ConcreteFloor
    | Included | NoneChosen
    | CafeTable | FamilyTable
    | RoofArray | ExternalModule

  datatype LineItem = LineItem(field: LabelKey, value: Description, cost: nat)

  /** The configuration field a line is about. */
  function KeyOfLabel(l: LabelKey): ConfigKey {
    match l
    case ModelVariantLabel => Text(CapsuleVariantKey)
    case WallColorLabel => Text(WallColorKey)
    case WindowStyleLabel => Text(WindowTypeKey)
    case FloorMaterialLabel => Text(FloorMaterialKey)
    case KitchenLabel => Flag(HasKitchenKey)
    case DiningLabel => Text(TableTypeKey)
    case SolarLabel => Flag(SolarPanelsKey)
    case HvacLabel => Flag(AcUnitKey)
  }

  /** `colours.find(c => c.value === value)`: the first palette entry with the
      given value, if any. */
  function FindColour(colours: seq<ColourOption>, value: string): (r: Option<ColourOption>)
    ensures r.None? <==> forall i :: 0 <= i < |colours| ==> colours[i].value != value
    ensures r.Some? ==> exists i :: 0 <= i < |colours| && colours[i] == r.value && r.value.value == value
                                    && forall j :: 0 <= j < i ==> colours[j].value != value
  {
    if |colours| == 0 then None
    else if colours[0].value == value then Some(colours[0])
    else
      var r := FindColour(colours[1..], value);
      assert r.Some? ==> exists i :: 1 <= i < |colours| && colours[i] == r.value && r.value.value == value
                                     && forall j :: 1 <= j < i ==> colours[j].value != value by {
        if r.Some? {
          var i :| 0 <= i < |colours[1..]| && colours[1..][i] == r.value && r.value.value == value
                   && forall j :: 0 <= j < i ==> colours[1..][j].value != value;
          assert colours[i + 1] == r.value;
          assert forall j :: 1 <= j < i + 1 ==> colours[j].value != value by {
            forall j | 1 <= j < i + 1 ensures colours[j].value != value {
              assert colours[j] == colours[1..][j - 1];
            }
          }
        }
      }
      r
  }

  /** How the quote describes the wall colour: the palette name when the
      colour is offered, otherwise the raw colour string. */
  function ColourDescription(wallColor: string): Description {
    match FindColour(COLORS, wallColor)
    case Some(option) => ColourName(option.name)
    case None => RawColour(wallColor)
  }

  function FloorDescription(floorMaterial: string): Description {
    if floorMaterial == "wood" then WoodFloor
    else if floorMaterial == "tile" then TileFloor
    else ConcreteFloor
  }

  function TableDescription(tableType: string): Description {
    if tableType == "small" then CafeTable
    else if tableType == "large" then FamilyTable
    else NoneChosen
  }

  /** The quote's line items, in document order: six that are always present,
      then the solar line if the array is chosen, then the air-conditioning
      line if that is chosen. */
  function LineItems(c: Config): (r: seq<LineItem>)
    ensures |r| == 6 + (if c.solarPanels then 1 else 0) + (if c.acUnit then 1 else 0)
    ensures r[0].field == ModelVariantLabel && r[1].field == WallColorLabel && r[2].field == WindowStyleLabel
    ensures r[3].field == FloorMaterialLabel && r[4].field == KitchenLabel && r[5].field == DiningLabel
    ensures c.solarPanels ==> r[6].field == SolarLabel
    ensures c.acUnit ==> r[|r| - 1].field == HvacLabel
    ensures forall i :: 6 <= i < |r| ==> r[i].field == SolarLabel || r[i].field == HvacLabel
  {
    var variantCost := PriceOf(VariantPrices, c.capsuleVariant);
    var colorCost := PriceOf(ColourPrices, c.wallColor);
    var windowCost := PriceOf(WindowPrices, c.windowType);
    var floorCost := PriceOf(FloorPrices, c.floorMaterial);
    var kitchenCost := if c.hasKitchen then KitchenPrice else 0;
    var tableCost := PriceOf(TablePrices, c.tableType);
    var solarCost := if c.solarPanels then SolarPrice else 0;
    var acCost := if c.acUnit then AcPrice else 0;
    var fixed := [
      LineItem(ModelVariantLabel, VariantName(c.capsuleVariant), variantCost),
      LineItem(WallColorLabel, ColourDescription(c.wallColor), colorCost),
      LineItem(WindowStyleLabel, if c.windowType == "panoramic" then PanoramicView else StandardView, windowCost),
      LineItem(FloorMaterialLabel, FloorDescription(c.floorMaterial), floorCost),
      LineItem(KitchenLabel, if c.hasKitchen then Included else NoneChosen, kitchenCost),
      LineItem(DiningLabel, TableDescription(c.tableType), tableCost)];
    var solar := if c.solarPanels then [LineItem(SolarLabel, RoofArray, solarCost)] else [];
    var ac := if c.acUnit then [LineItem(HvacLabel, ExternalModule, acCost)] else [];
    fixed + (solar + ac)
  }

  /** The cost `handleExport` puts on each line, as listed in the price
      tables. */
  lemma LineCosts(c: Config)
    ensures var r := LineItems(c);
            && r[0].cost == PriceOf(VariantPrices, c.capsuleVariant)
            && r[1].cost == PriceOf(ColourPrices, c.wallColor)
            && r[2].cost == PriceOf(WindowPrices, c.windowType)
            && r[3].cost == PriceOf(FloorPrices, c.floorMaterial)
            && r[4].cost == (if c.hasKitchen then KitchenPrice else 0)
            && r[5].cost == PriceOf(TablePrices, c.tableType)
            && (c.solarPanels ==> r[6].cost == SolarPrice)
            && (c.acUnit ==> r[|r| - 1].cost == AcPrice)
  {
  }

  /** Each line charges exactly what the price rule of its field charges. */
  lemma LineCostsFollowPricingRule(c: Config)
    ensures var r := LineItems(c);
            forall i :: 0 <= i < |r| ==> r[i].cost == Store.KeyCost(c, KeyOfLabel(r[i].field))
  {
    var r := LineItems(c);
    LineCosts(c);
    Store.KeyCosts(c);
    forall i | 0 <= i < |r| ensures r[i].cost == Store.KeyCost(c, KeyOfLabel(r[i].field)) {
      if i == 0 {
        assert KeyOfLabel(r[i].field) == Text(CapsuleVariantKey);
      } else if i == 1 {
        assert KeyOfLabel(r[i].field) == Text(WallColorKey);
      } else if i == 2 {
        assert KeyOfLabel(r[i].field) == Text(WindowTypeKey);
      } else if i == 3 {
        assert KeyOfLabel(r[i].field) == Text(FloorMaterialKey);
      } else if i == 4 {
        assert KeyOfLabel(r[i].field) == Flag(HasKitchenKey);
      } else if i == 5 {
        assert KeyOfLabel(r[i].field) == Text(TableTypeKey);
      } else if r[i].field == SolarLabel {
        assert c.solarPanels && i == 6;
      } else {
        assert c.acUnit && i == |r| - 1;
      }
    }
  }

  function SumCosts(items: seq<LineItem>): nat {
    if |items| == 0 then 0 else items[0].cost + SumCosts(items[1..])
  }

  lemma {:induction false} SumCostsAppend(a: seq<LineItem>, b: seq<LineItem>)
    ensures SumCosts(a + b) == SumCosts(a) + SumCosts(b)
    decreases |a|
  {
    if |a| > 0 {
      assert (a + b)[1..] == a[1..] + b;
      SumCostsAppend(a[1..], b);
    } else {
      assert a + b == b;
    }
  }

  lemma SumCostsOfPair(items: seq<LineItem>)
    requires |items| == 2
    ensures SumCosts(items) == items[0].cost + items[1].cost
  {
    assert items[1..][1..] == [];
    assert SumCosts(items[1..]) == items[1].cost + SumCosts(items[1..][1..]);
  }

  lemma SumCostsOfSix(items: seq<LineItem>)
    requires |items| == 6
    ensures SumCosts(items) == items[0].cost + items[1].cost + items[2].cost
                               + items[3].cost + items[4].cost + items[5].cost
  {
    var p0, p1, p2 := items[..2], items[2..4], items[4..];
    assert items == p0 + p1 + p2;
    SumCostsAppend(p0 + p1, p2);
    SumCostsAppend(p0, p1);
    SumCostsOfPair(p0);
    SumCostsOfPair(p1);
    SumCostsOfPair(p2);
  }

  /** The quote's line costs add up to the store's total price, so the
      exported document and the live total never disagree. */
  lemma QuoteMatchesTotal(c: Config)
    ensures SumCosts(LineItems(c)) == Store.TotalPrice(c)
  {
    var items := LineItems(c);
    var fixed := items[..6];
    var solar := if c.solarPanels then [items[6]] else [];
    var ac := if c.acUnit then [items[|items| - 1]] else [];
    assert items == fixed + solar + ac;
    SumCostsAppend(fixed + solar, ac);
    SumCostsAppend(fixed, solar);
    SumCostsOfSix(fixed);
    assert SumCosts(solar) == if c.solarPanels then items[6].cost else 0;
    assert SumCosts(ac) == if c.acUnit then items[|items| - 1].cost else 0;
    LineCostsFollowPricingRule(c);
    Store.KeyCosts(c);
  }

  /** A variant or colour the price table does not list costs 0 on its line
      rather than failing. */
  lemma UnknownKeysCostNothing(c: Config)
    ensures c.capsuleVariant !in VariantPrices ==> LineItems(c)[0].cost == 0
    ensures c.wallColor !in ColourPrices ==> LineItems(c)[1].cost == 0
  {
    Store.KeyCosts(c);
  }

  /** The colour line names the first palette entry with the chosen value,
      or prints the raw value when the palette does not offer it. */
  lemma ColourLineDescription(c: Config)
    ensures (exists i :: 0 <= i < |COLORS| && COLORS[i].value == c.wallColor) ==>
              exists i :: 0 <= i < |COLORS| && COLORS[i].value == c.wallColor
                          && LineItems(c)[1].value == ColourName(COLORS[i].name)
    ensures (forall i :: 0 <= i < |COLORS| ==> COLORS[i].value != c.wallColor) ==>
              LineItems(c)[1].value == RawColour(c.wallColor)
  {
  }

  /** The variant line names the chosen variant, the solar and air-conditioning
      lines describe the roof array and the external module, and the window,
      floor and dining lines describe the chosen value, falling back to
      standard view, concrete and none for values outside their enumerations. */
  lemma ValueDescriptions(c: Config)
    ensures LineItems(c)[0].value == VariantName(c.capsuleVariant)
    ensures c.solarPanels ==> LineItems(c)[6].value == RoofArray
    ensures c.acUnit ==> LineItems(c)[|LineItems(c)| - 1].value == ExternalModule
    ensures LineItems(c)[2].value == PanoramicView <==> ParseWindow(c.windowType) == Some(PanoramicWindow)
    ensures LineItems(c)[3].value == WoodFloor <==> ParseFloor(c.floorMaterial) == Some(Wood)
    ensures LineItems(c)[3].value == TileFloor <==> ParseFloor(c.floorMaterial) == Some(Tile)
    ensures LineItems(c)[3].value == ConcreteFloor <==> ParseFloor(c.floorMaterial) !in {Some(Wood), Some(Tile)}
    ensures LineItems(c)[5].value == CafeTable <==> ParseTable(c.tableType) == Some(SmallTable)
    ensures LineItems(c)[5].value == FamilyTable <==> ParseTable(c.tableType) == Some(LargeTable)
    ensures LineItems(c)[5].value == NoneChosen <==> ParseTable(c.tableType) !in {Some(SmallTable), Some(LargeTable)}
  {
  }
}
