/** The constant data of the configurator (constants.ts): the initial
    configuration, the per-variant dimensions, the price table and the colour
    palette, with the facts the rest of the program relies on. */
module Constants {
  import opened Wrappers
  import opened Types

  const INITIAL_CONFIG: Config := Config(
    capsuleVariant := "standard",
    wallColor := "#374151",
    windowType := "standard",
    hasKitchen := true,
    tableType := "small",
    floorMaterial := "wood",
    solarPanels := false,
    acUnit := false)

  datatype Dimensions = Dimensions(width: real, height: real)

  /** Base width and height of each shell variant, in metres. */
  const VARIANT_DIMENSIONS: map<string, Dimensions> := map[
    "nano" := Dimensions(6.0, 3.3),
    "standard" := Dimensions(11.5, 3.3),
    "max" := Dimensions(14.5, 3.3),
    "loft" := Dimensions(11.5, 4.1)]

  /* ---------------- the price table ---------------- */

  const VariantPrices: map<string, nat> := map[
    "nano" := 15000, "standard" := 25000, "max" := 32000, "loft" := 35000]

  const ColourPrices: map<string, nat> := map[
    "#374151" := 0, "#9CA3AF" := 500, "#B91C1C" := 800,
    "#1D4ED8" := 800, "#047857" := 800, "#FCD34D" := 1000]

  const WindowPrices: map<string, nat> := map["standard" := 0, "panoramic" := 3500]

  const TablePrices: map<string, nat> := map["none" := 0, "small" := 400, "large" := 800]

  const FloorPrices: map<string, nat> := map["concrete" := 0, "wood" := 1200, "tile" := 1500]

  const KitchenPrice: nat := 5000
  const SolarPrice: nat := 4500
  const AcPrice: nat := 1200

  /** How one option is priced: by a table keyed on the field's string value,
      or by a flat amount charged when the boolean field is set. */
  datatype PriceRule = Table(prices: map<string, nat>) | Flat(amount: nat)

  datatype PricingRule = PricingRule(basePrice: nat, options: map<ConfigKey, PriceRule>)

  const PRICING: PricingRule := PricingRule(
    basePrice := 0,
    options := map[
      Text(CapsuleVariantKey) := Table(VariantPrices),
      Text(WallColorKey) := Table(ColourPrices),
      Text(WindowTypeKey) := Table(WindowPrices),
      Flag(HasKitchenKey) := Flat(KitchenPrice),
      Text(TableTypeKey) := Table(TablePrices),
      Text(FloorMaterialKey) := Table(FloorPrices),
      Flag(SolarPanelsKey) := Flat(SolarPrice),
      Flag(AcUnitKey) := Flat(AcPrice)])

  /** `table?.[key] || 0`: the listed price, or 0 for a key the table does not
      list. */
  function PriceOf(table: map<string, nat>, key: string): (p: nat)
    ensures key in table ==> p == table[key]
    ensures key !in table ==> p == 0
  {
    if key in table then table[key] else 0
  }

  /* ---------------- the colour palette ---------------- */

  datatype ColourOption = ColourOption(name: string, value: string)

  const COLORS: seq<ColourOption> := [
    ColourOption("Graphite", "#374151"),
    ColourOption("Silver", "#9CA3AF"),
    ColourOption("Crimson", "#B91C1C"),
    ColourOption("Ocean", "#1D4ED8"),
    ColourOption("Forest", "#047857"),
    ColourOption("Amber", "#FCD34D")]

  /* ---------------- facts about the data ---------------- */

  /** The initial configuration keeps to the declared field types. */
  lemma InitialConfigIsWellTyped()
    ensures WellTyped(INITIAL_CONFIG)
  {
  }

  /** Every offered colour has its own entry in the colour price table, so no
      offered colour is priced at 0 merely by being absent from it. */
  lemma ColoursArePriced()
    ensures forall i :: 0 <= i < |COLORS| ==> COLORS[i].value in ColourPrices
  {
  }

  /** The palette offers each colour value once, and the initial colour is
      among them. */
  lemma ColoursAreDistinct()
    ensures forall i, j :: 0 <= i < j < |COLORS| ==> COLORS[i].value != COLORS[j].value
    ensures exists i :: 0 <= i < |COLORS| && COLORS[i].value == INITIAL_CONFIG.wallColor
  {
    assert COLORS[0].value == INITIAL_CONFIG.wallColor;
  }

  /** The enumerated price tables are keyed by exactly the values of their
      enumerations. */
  lemma PriceTablesMatchEnumerations()
    ensures forall s :: s in VariantPrices <==> ParseVariant(s).Some?
    ensures forall s :: s in WindowPrices <==> ParseWindow(s).Some?
    ensures forall s :: s in TablePrices <==> ParseTable(s).Some?
    ensures forall s :: s in FloorPrices <==> ParseFloor(s).Some?
  {
  }

  /** The `|| 0` fallback of the price lookup, read against the
      enumerations: a string outside a field's enumeration costs nothing, and
      exactly the chargeable choices of each enumeration cost something. */
  lemma PricedValues(s: string)
    ensures ParseVariant(s).None? ==> PriceOf(VariantPrices, s) == 0
    ensures ParseWindow(s).None? ==> PriceOf(WindowPrices, s) == 0
    ensures ParseTable(s).None? ==> PriceOf(TablePrices, s) == 0
    ensures ParseFloor(s).None? ==> PriceOf(FloorPrices, s) == 0
    ensures PriceOf(VariantPrices, s) > 0 <==> ParseVariant(s).Some?
    ensures PriceOf(WindowPrices, s) > 0 <==> ParseWindow(s) == Some(PanoramicWindow)
    ensures PriceOf(TablePrices, s) > 0 <==> ParseTable(s) in {Some(SmallTable), Some(LargeTable)}
    ensures PriceOf(FloorPrices, s) > 0 <==> ParseFloor(s) in {Some(Wood), Some(Tile)}
  {
  }

  /** The range of each price table: the dearest entry, and the cheapest
      variant. */
  lemma PriceRanges(s: string)
    ensures PriceOf(VariantPrices, s) <= 35000
    ensures ParseVariant(s).Some? ==> 15000 <= PriceOf(VariantPrices, s)
    ensures PriceOf(ColourPrices, s) <= 1000
    ensures PriceOf(WindowPrices, s) <= 3500
    ensures PriceOf(TablePrices, s) <= 800
    ensures PriceOf(FloorPrices, s) <= 1500
  {
  }

  /** Every variant has a price and dimensions, and all its dimensions are
      strictly positive. */
  lemma VariantsAreComplete()
    ensures forall v :: VariantKey(v) in VariantPrices && VariantKey(v) in VARIANT_DIMENSIONS
    ensures forall v :: VARIANT_DIMENSIONS[VariantKey(v)].width > 0.0 && VARIANT_DIMENSIONS[VariantKey(v)].height > 0.0
  {
  }

  /** Listing position of a variant, smallest first. */
  function VariantRank(v: CapsuleVariant): nat {
    match v
    case Nano => 0
    case Standard => 1
    case Max => 2
    case Loft => 3
  }

  /** Prices strictly increase nano < standard < max < loft, and the loft is
      the only variant taller than 3.3 m. */
  lemma VariantOrdering()
    ensures forall v, w :: VariantRank(v) < VariantRank(w) ==>
              VariantPrices[VariantKey(v)] < VariantPrices[VariantKey(w)]
    ensures forall v :: VARIANT_DIMENSIONS[VariantKey(v)].height > 3.3 <==> v == Loft
  {
  }

  /** The baseline choices cost nothing: the default colour, the standard
      window, no table and the concrete floor. */
  lemma BaselineChoicesAreFree()
    ensures PriceOf(ColourPrices, INITIAL_CONFIG.wallColor) == 0
    ensures PriceOf(WindowPrices, WindowKey(StandardWindow)) == 0
    ensures PriceOf(TablePrices, TableKey(NoTable)) == 0
    ensures PriceOf(FloorPrices, FloorKey(Concrete)) == 0
  {
  }

  /** `PRICING.options` prices every configuration field: the string fields by
      a table, the boolean fields by a flat amount. */
  lemma PricingCoversEveryField()
    ensures forall k :: k in PRICING.options
    ensures forall k :: k in PRICING.options ==> (k.Text? <==> PRICING.options[k].Table?)
  {
    AllKeysIsComplete();
    assert forall k :: k in AllKeys() ==> k in PRICING.options;
  }
}
