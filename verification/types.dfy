/** The value types of the configurator (types.ts): the configuration record,
    the closed enumerations its fields are drawn from, the language choice and
    the table of wizard steps.

    The enumerated configuration fields are kept as strings, because that is
    what the store holds at run time (its `updateConfig` accepts any value);
    the closed enumerations of the type declarations are datatypes with a key
    spelling and a parser, and `WellTyped` says that a configuration keeps to
    them. */
module Types {
  import opened Wrappers

  datatype Language = En | De | Sk

  /* ---------------- closed enumerations ---------------- */

  datatype CapsuleVariant = Nano | Standard | Max | Loft
  datatype WindowType = StandardWindow | PanoramicWindow
  datatype TableType = NoTable | SmallTable | LargeTable
  datatype FloorMaterial = Wood | Tile | Concrete

  /** Every variant, once each. */
  function AllVariants(): (r: seq<CapsuleVariant>)
    ensures |r| == 4
    ensures forall i, j :: 0 <= i < j < |r| ==> r[i] != r[j]
  {
    [Nano, Standard, Max, Loft]
  }

  /** Every window type, once each. */
  function AllWindowTypes(): (r: seq<WindowType>)
    ensures |r| == 2
    ensures forall i, j :: 0 <= i < j < |r| ==> r[i] != r[j]
  {
    [StandardWindow, PanoramicWindow]
  }

  /** Every table type, once each. */
  function AllTableTypes(): (r: seq<TableType>)
    ensures |r| == 3
    ensures forall i, j :: 0 <= i < j < |r| ==> r[i] != r[j]
  {
    [NoTable, SmallTable, LargeTable]
  }

  /** Every floor material, once each. */
  function AllFloorMaterials(): (r: seq<FloorMaterial>)
    ensures |r| == 3
    ensures forall i, j :: 0 <= i < j < |r| ==> r[i] != r[j]
  {
    [Wood, Tile, Concrete]
  }


  /** Each enumeration list names every value of its type: the enumerations
      are closed. */
  lemma EnumerationsAreClosed()
    ensures forall v: CapsuleVariant :: v in AllVariants()
    ensures forall w: WindowType :: w in AllWindowTypes()
    ensures forall t: TableType :: t in AllTableTypes()
    ensures forall f: FloorMaterial :: f in AllFloorMaterials()
  {
    forall v: CapsuleVariant ensures v in AllVariants() {
      match v
      case Nano => assert AllVariants()[0] == v;
      case Standard => assert AllVariants()[1] == v;
      case Max => assert AllVariants()[2] == v;
      case Loft => assert AllVariants()[3] == v;
    }
    forall w: WindowType ensures w in AllWindowTypes() {
      match w
      case StandardWindow => assert AllWindowTypes()[0] == w;
      case PanoramicWindow => assert AllWindowTypes()[1] == w;
    }
    forall t: TableType ensures t in AllTableTypes() {
      match t
      case NoTable => assert AllTableTypes()[0] == t;
      case SmallTable => assert AllTableTypes()[1] == t;
      case LargeTable => assert AllTableTypes()[2] == t;
    }
    forall f: FloorMaterial ensures f in AllFloorMaterials() {
      match f
      case Wood => assert AllFloorMaterials()[0] == f;
      case Tile => assert AllFloorMaterials()[1] == f;
      case Concrete => assert AllFloorMaterials()[2] == f;
    }
  }

  /* The string spelling of each enumeration value, as the store holds it. */

  function VariantKey(v: CapsuleVariant): string {
    match v
    case Nano => "nano"
    case Standard => "standard"
    case Max => "max"
    case Loft => "loft"
  }

  function WindowKey(w: WindowType): string {
    match w
    case StandardWindow => "standard"
    case PanoramicWindow => "panoramic"
  }

  function TableKey(t: TableType): string {
    match t
    case NoTable => "none"
    case SmallTable => "small"
    case LargeTable => "large"
  }

  function FloorKey(f: FloorMaterial): string {
    match f
    case Wood => "wood"
    case Tile => "tile"
    case Concrete => "concrete"
  }

  /* Parsers: each is the exact inverse of the spelling above. */

  function ParseVariant(s: string): (r: Option<CapsuleVariant>)
    ensures r.Some? ==> VariantKey(r.value) == s
    ensures forall v :: VariantKey(v) == s ==> r == Some(v)
  {
    if s == "nano" then Some(Nano)
    else if s == "standard" then Some(Standard)
    else if s == "max" then Some(Max)
    else if s == "loft" then Some(Loft)
    else None
  }

  function ParseWindow(s: string): (r: Option<WindowType>)
    ensures r.Some? ==> WindowKey(r.value) == s
    ensures forall w :: WindowKey(w) == s ==> r == Some(w)
  {
    if s == "standard" then Some(StandardWindow)
    else if s == "panoramic" then Some(PanoramicWindow)
    else None
  }

  function ParseTable(s: string): (r: Option<TableType>)
    ensures r.Some? ==> TableKey(r.value) == s
    ensures forall t :: TableKey(t) == s ==> r == Some(t)
  {
    if s == "none" then Some(NoTable)
    else if s == "small" then Some(SmallTable)
    else if s == "large" then Some(LargeTable)
    else None
  }

  function ParseFloor(s: string): (r: Option<FloorMaterial>)
    ensures r.Some? ==> FloorKey(r.value) == s
    ensures forall f :: FloorKey(f) == s ==> r == Some(f)
  {
    if s == "wood" then Some(Wood)
    else if s == "tile" then Some(Tile)
    else if s == "concrete" then Some(Concrete)
    else None
  }

  /* ---------------- the configuration record ---------------- */

  datatype Config = Config(
    capsuleVariant: string,
    wallColor: string,
    windowType: string,
    hasKitchen: bool,
    tableType: string,
    floorMaterial: string,
    solarPanels: bool,
    acUnit: bool)

  /** The configuration keeps to the declared field types. The wall colour is
      any string: it is deliberately not part of this predicate. */
  predicate WellTyped(c: Config) {
    && ParseVariant(c.capsuleVariant).Some?
    && ParseWindow(c.windowType).Some?
    && ParseTable(c.tableType).Some?
    && ParseFloor(c.floorMaterial).Some?
  }

  /** The string-valued and the boolean-valued keys of the record. */
  datatype TextKey = CapsuleVariantKey | WallColorKey | WindowTypeKey | TableTypeKey | FloorMaterialKey
  datatype FlagKey = HasKitchenKey | SolarPanelsKey | AcUnitKey

  datatype ConfigKey = Text(textKey: TextKey) | Flag(flagKey: FlagKey)
  datatype ConfigValue = TextValue(text: string) | FlagValue(flag: bool)

  /** One `updateConfig(key, value)` call: the key together with a value of
      that field's declared JavaScript type. */
  datatype Assignment = SetText(tk: TextKey, s: string) | SetFlag(fk: FlagKey, b: bool)
  {
    function Key(): ConfigKey {
      match this
      case SetText(tk, _) => Text(tk)
      case SetFlag(fk, _) => Flag(fk)
    }

    function Value(): ConfigValue {
      match this
      case SetText(_, s) => TextValue(s)
      case SetFlag(_, b) => FlagValue(b)
    }
  }

  /** The keys of the record in declaration order. */
  function AllKeys(): (r: seq<ConfigKey>)
    ensures |r| == 8
    ensures forall i, j :: 0 <= i < j < |r| ==> r[i] != r[j]
  {
    [Text(CapsuleVariantKey), Text(WallColorKey), Text(WindowTypeKey), Flag(HasKitchenKey),
     Text(TableTypeKey), Text(FloorMaterialKey), Flag(SolarPanelsKey), Flag(AcUnitKey)]
  }

  /** Every key of the record is listed. */
  lemma AllKeysIsComplete()
    ensures forall k: ConfigKey :: k in AllKeys()
  {
    var r := AllKeys();
    forall k: ConfigKey ensures k in r {
      match k
      case Text(CapsuleVariantKey) => assert r[0] == k;
      case Text(WallColorKey) => assert r[1] == k;
      case Text(WindowTypeKey) => assert r[2] == k;
      case Flag(HasKitchenKey) => assert r[3] == k;
      case Text(TableTypeKey) => assert r[4] == k;
      case Text(FloorMaterialKey) => assert r[5] == k;
      case Flag(SolarPanelsKey) => assert r[6] == k;
      case Flag(AcUnitKey) => assert r[7] == k;
    }
  }

  /** Reads one field, `config[key]`. */
  function Get(c: Config, k: ConfigKey): (v: ConfigValue)
    ensures k.Text? <==> v.TextValue?
  {
    match k
    case Text(CapsuleVariantKey) => TextValue(c.capsuleVariant)
    case Text(WallColorKey) => TextValue(c.wallColor)
    case Text(WindowTypeKey) => TextValue(c.windowType)
    case Text(TableTypeKey) => TextValue(c.tableType)
    case Text(FloorMaterialKey) => TextValue(c.floorMaterial)
    case Flag(HasKitchenKey) => FlagValue(c.hasKitchen)
    case Flag(SolarPanelsKey) => FlagValue(c.solarPanels)
    case Flag(AcUnitKey) => FlagValue(c.acUnit)
  }

  /** A configuration is determined by what `Get` reads from it. */
  lemma GetDeterminesConfig(c: Config, d: Config)
    requires forall k :: Get(c, k) == Get(d, k)
    ensures c == d
  {
    assert Get(c, Text(CapsuleVariantKey)) == Get(d, Text(CapsuleVariantKey));
    assert Get(c, Text(WallColorKey)) == Get(d, Text(WallColorKey));
    assert Get(c, Text(WindowTypeKey)) == Get(d, Text(WindowTypeKey));
    assert Get(c, Text(TableTypeKey)) == Get(d, Text(TableTypeKey));
    assert Get(c, Text(FloorMaterialKey)) == Get(d, Text(FloorMaterialKey));
    assert Get(c, Flag(HasKitchenKey)) == Get(d, Flag(HasKitchenKey));
    assert Get(c, Flag(SolarPanelsKey)) == Get(d, Flag(SolarPanelsKey));
    assert Get(c, Flag(AcUnitKey)) == Get(d, Flag(AcUnitKey));
  }

  /** `{ ...config, [key]: value }`: the assigned field takes the new value
      and every other field reads as before. */
  function Assign(c: Config, a: Assignment): (r: Config)
    ensures Get(r, a.Key()) == a.Value()
    ensures forall k :: k != a.Key() ==> Get(r, k) == Get(c, k)
  {
    match a
    case SetText(CapsuleVariantKey, s) => c.(capsuleVariant := s)
    case SetText(WallColorKey, s) => c.(wallColor := s)
    case SetText(WindowTypeKey, s) => c.(windowType := s)
    case SetText(TableTypeKey, s) => c.(tableType := s)
    case SetText(FloorMaterialKey, s) => c.(floorMaterial := s)
    case SetFlag(HasKitchenKey, b) => c.(hasKitchen := b)
    case SetFlag(SolarPanelsKey, b) => c.(solarPanels := b)
    case SetFlag(AcUnitKey, b) => c.(acUnit := b)
  }

  /** Changing the wall colour to any string keeps a configuration well typed:
      colours outside the price table are admitted. */
  lemma WallColorIsUnrestricted(c: Config, colour: string)
    requires WellTyped(c)
    ensures WellTyped(Assign(c, SetText(WallColorKey, colour)))
  {
    var r := Assign(c, SetText(WallColorKey, colour));
    assert Get(r, Text(CapsuleVariantKey)) == Get(c, Text(CapsuleVariantKey));
    assert Get(r, Text(WindowTypeKey)) == Get(c, Text(WindowTypeKey));
    assert Get(r, Text(TableTypeKey)) == Get(c, Text(TableTypeKey));
    assert Get(r, Text(FloorMaterialKey)) == Get(c, Text(FloorMaterialKey));
  }

  /* ---------------- the wizard steps ---------------- */

  datatype StepName = Exterior | Interior | Extras

  datatype StepInfo = StepInfo(id: int, name: StepName, labelText: string, description: string)

  const STEPS: seq<StepInfo> := [
    StepInfo(0, Exterior, "Exterior", "Model & Shell"),
    StepInfo(1, Interior, "Interior", "Layout & Furniture"),
    StepInfo(2, Extras, "Extras", "Utilities")
  ]

  /** The position of a step name in the wizard order. */
  function StepOrdinal(n: StepName): nat {
    match n
    case Exterior => 0
    case Interior => 1
    case Extras => 2
  }

  /** The step table has three entries, each carrying its own index as id,
      named in the order exterior, interior, extras. */
  lemma StepsTable()
    ensures |STEPS| == 3
    ensures forall i :: 0 <= i < |STEPS| ==> STEPS[i].id == i && StepOrdinal(STEPS[i].name) == i
    ensures STEPS[0].name == Exterior && STEPS[1].name == Interior && STEPS[2].name == Extras
  {
  }
}
