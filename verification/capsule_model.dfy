/** The parametric capsule generator (components/CapsuleModel.tsx) as a pure
    function from the configuration and the wizard step to a summary of the
    scene it draws: which assemblies are present, how many members each one
    has, which front-facade branch is taken, and the horizontal placement of
    ribs, roof slats, panels, openings, chairs and solar modules, in exact
    real arithmetic. Meshes, materials and shadows are not modelled. */
module CapsuleModel {
  import opened Wrappers
  import opened Types

  /** The generator's fixed shell size in metres; it never reads the capsule
      variant. */
  const Width: real := 11.5
  const Height: real := 3.3
  const Depth: real := 3.3

  /** Half the clear width between the inner faces of the corner posts. */
  const InnerHalfWidth: real := Width / 2.0 - 0.3

  /* ---------------- ribbed (corrugated) panel ---------------- */

  const RibPitch: real := 0.3
  const RibWidth: real := 0.15

  /** A corrugated panel: a base slab and ribs laid out along its width, or
      along its height when `horizontal`, at the given centre offsets. */
  datatype RibbedPanel = RibbedPanel(width: real, height: real, horizontal: bool, ribOffsets: seq<real>)
  {
    /** The panel extent along which the ribs are laid out. */
    function Span(): real {
      if horizontal then height else width
    }
  }

  /** `Math.floor(span / 0.3)`, read as an array length (a negative length
      gives no ribs): the most ribs whose pitches fit into the span. */
  function RibCount(span: real): (n: nat)
    ensures span >= 0.0 ==> RibPitch * n as real <= span < RibPitch * (n + 1) as real
    ensures span < RibPitch ==> n == 0
  {
    var q := (span / RibPitch).Floor;
    if q < 0 then 0 else q
  }

  /** Centre of rib `i` of `n`, relative to the panel centre. */
  function RibOffset(n: nat, i: int): real {
    (i as real - n as real / 2.0) * RibPitch + 0.15
  }

  /** The ribs of a corrugated panel: as many as `RibCount` allows, one pitch
      apart, laid out symmetrically about the panel centre, each lying wholly
      within the panel. */
  function CorrugatedPanel(width: real, height: real, horizontal: bool): (p: RibbedPanel)
    ensures p.width == width && p.height == height && p.horizontal == horizontal
    ensures |p.ribOffsets| == RibCount(p.Span())
    ensures forall i :: 0 <= i < |p.ribOffsets| ==> p.ribOffsets[i] == -p.ribOffsets[|p.ribOffsets| - 1 - i]
    ensures forall i :: 0 <= i < |p.ribOffsets| - 1 ==> p.ribOffsets[i + 1] - p.ribOffsets[i] == RibPitch
    ensures forall i :: 0 <= i < |p.ribOffsets| ==>
              -p.Span() / 2.0 <= p.ribOffsets[i] - RibWidth / 2.0 && p.ribOffsets[i] + RibWidth / 2.0 <= p.Span() / 2.0
  {
    var span := if horizontal then height else width;
    var n := RibCount(span);
    RibbedPanel(width, height, horizontal, seq(n, i requires 0 <= i < n => RibOffset(n, i)))
  }

  /* ---------------- structural frame ---------------- */

  datatype MemberKind = Post | LongRail | ShortRail

  /** A box-shaped frame member: its kind, centre and size. */
  datatype Member = Member(kind: MemberKind, x: real, y: real, z: real, sizeX: real, sizeY: real, sizeZ: real)

  predicate InsideShell(m: Member) {
    && -Width / 2.0 <= m.x - m.sizeX / 2.0 && m.x + m.sizeX / 2.0 <= Width / 2.0
    && -Height / 2.0 <= m.y - m.sizeY / 2.0 && m.y + m.sizeY / 2.0 <= Height / 2.0
    && -Depth / 2.0 <= m.z - m.sizeZ / 2.0 && m.z + m.sizeZ / 2.0 <= Depth / 2.0
  }

  /** The corner signs the posts are generated from, and the two rail levels. */
  const Corners: seq<(real, real)> := [(-1.0, -1.0), (-1.0, 1.0), (1.0, -1.0), (1.0, 1.0)]
  const Levels: seq<real> := [1.0, -1.0]

  /** The structural skeleton: four corner posts, then for each rail level a
      front and a back long rail, then for each level a right and a left short
      rail. Every member lies inside the shell's bounding box. */
  function Frame(): (r: seq<Member>)
    ensures |r| == 12
    ensures forall i :: 0 <= i < 4 ==> r[i].kind == Post
    ensures forall i :: 4 <= i < 8 ==> r[i].kind == LongRail
    ensures forall i :: 8 <= i < 12 ==> r[i].kind == ShortRail
    ensures forall i :: 0 <= i < |r| ==> InsideShell(r[i])
  {
    var px := Width / 2.0 - 0.15;
    var pz := Depth / 2.0 - 0.15;
    var ry := Height / 2.0 - 0.15;
    var posts := seq(4, i requires 0 <= i < 4 =>
      Member(Post, Corners[i].0 * px, 0.0, Corners[i].1 * pz, 0.3, Height, 0.3));
    var longRails := seq(4, i requires 0 <= i < 4 =>
      Member(LongRail, 0.0, Levels[i / 2] * ry, if i % 2 == 0 then pz else -pz, Width - 0.6, 0.3, 0.3));
    var shortRails := seq(4, i requires 0 <= i < 4 =>
      Member(ShortRail, if i % 2 == 0 then px else -px, Levels[i / 2] * ry, 0.0, 0.3, 0.3, Depth - 0.6));
    posts + longRails + shortRails
  }

  function MirrorX(m: Member): Member { m.(x := -m.x) }
  function MirrorY(m: Member): Member { m.(y := -m.y) }
  function MirrorZ(m: Member): Member { m.(z := -m.z) }

  /** The frame's twelve members written out, with the post centres at
      (±px, ±pz) and the rails at heights ±ry. */
  function FrameMembers(px: real, pz: real, ry: real): seq<Member> {
    var post := (x: real, z: real) => Member(Post, x, 0.0, z, 0.3, Height, 0.3);
    var long := (y: real, z: real) => Member(LongRail, 0.0, y, z, Width - 0.6, 0.3, 0.3);
    var short := (x: real, y: real) => Member(ShortRail, x, y, 0.0, 0.3, 0.3, Depth - 0.6);
    [post(-px, -pz), post(-px, pz), post(px, -pz), post(px, pz),
     long(ry, pz), long(ry, -pz), long(-ry, pz), long(-ry, -pz),
     short(px, ry), short(-px, ry), short(px, -ry), short(-px, -ry)]
  }

  lemma FrameIsExplicit()
    ensures Frame() == FrameMembers(Width / 2.0 - 0.15, Depth / 2.0 - 0.15, Height / 2.0 - 0.15)
  {
    var r := FrameMembers(Width / 2.0 - 0.15, Depth / 2.0 - 0.15, Height / 2.0 - 0.15);
    assert forall i :: 0 <= i < 12 ==> Frame()[i] == r[i];
  }

  /** The frame is symmetric about the unit's centre: reflecting any member in
      any of the three centre planes gives a member of the frame. */
  lemma FrameIsSymmetric()
    ensures forall m :: m in Frame() ==> MirrorX(m) in Frame() && MirrorY(m) in Frame() && MirrorZ(m) in Frame()
  {
    FrameIsExplicit();
  }

  /* ---------------- floor and roof ---------------- */

  /** Floor colour: wood and tile have their own colours; concrete and any
      unknown material share the grey. */
  function FloorColour(floorMaterial: string): (colour: string)
    ensures colour == "#d4a373" <==> ParseFloor(floorMaterial) == Some(Wood)
    ensures colour == "#e5e7eb" <==> ParseFloor(floorMaterial) == Some(Tile)
    ensures colour == "#9ca3af" <==> ParseFloor(floorMaterial) !in {Some(Wood), Some(Tile)}
  {
    if floorMaterial == "wood" then "#d4a373"
    else if floorMaterial == "tile" then "#e5e7eb"
    else "#9ca3af"
  }

  const SlatCount: nat := 38
  const SlatPitch: real := 0.28
  const SlatWidth: real := 0.14

  datatype Roof = Roof(visible: bool, plateWidth: real, plateDepth: real, slatOffsets: seq<real>)

  /** The roof plate with its 38 slats; the whole group is hidden on the
      interior step. The slats lie on the plate without touching each other. */
  function RoofFor(step: int): (r: Roof)
    ensures r.visible <==> step != 1
    ensures |r.slatOffsets| == SlatCount
    ensures forall i :: 0 <= i < |r.slatOffsets| ==>
              -r.plateWidth / 2.0 <= r.slatOffsets[i] - SlatWidth / 2.0
              && r.slatOffsets[i] + SlatWidth / 2.0 <= r.plateWidth / 2.0
    ensures forall i :: 0 <= i < |r.slatOffsets| - 1 ==>
              r.slatOffsets[i] + SlatWidth / 2.0 < r.slatOffsets[i + 1] - SlatWidth / 2.0
  {
    Roof(step != 1, Width - 0.6, Depth - 0.6,
         seq(SlatCount, i requires 0 <= i < SlatCount => -Width / 2.0 + 0.5 + i as real * SlatPitch))
  }

  /* ---------------- front facade ---------------- */

  /** A framed opening: the frame box, the glazed pane inside it, and the
      heights of the wall-coloured fillers above and below it. */
  datatype Opening = Opening(x: real, frameWidth: real, frameHeight: real,
                             paneWidth: real, paneHeight: real, fillerYs: seq<real>)

  datatype PanelAt = PanelAt(x: real, panel: RibbedPanel)

  /** The two branches of the front facade: ribbed panels with framed
      openings, or one frame filled by a single glazed pane. */
  datatype Facade =
    | OpeningsFacade(panels: seq<PanelAt>, openings: seq<Opening>)
    | GlazedFacade(frameWidth: real, frameHeight: real, paneWidth: real, paneHeight: real)
  {
    function RibbedPanelCount(): nat {
      if OpeningsFacade? then |panels| else 0
    }

    function FrameCount(): nat {
      if OpeningsFacade? then |openings| else 1
    }

    function PaneCount(): nat {
      if OpeningsFacade? then |openings| else 1
    }

    /** Every glazed pane is strictly smaller than the frame around it. */
    predicate PanesFitFrames() {
      match this
      case OpeningsFacade(_, openings) =>
        forall i :: 0 <= i < |openings| ==>
          openings[i].paneWidth < openings[i].frameWidth && openings[i].paneHeight < openings[i].frameHeight
      case GlazedFacade(fw, fh, pw, ph) => pw < fw && ph < fh
    }

    /** Panels and openings come in mirror pairs about the facade centre. */
    predicate MirrorSymmetric() {
      match this
      case OpeningsFacade(panels, openings) =>
        && (forall i :: 0 <= i < |panels| ==>
              panels[|panels| - 1 - i].x == -panels[i].x && panels[|panels| - 1 - i].panel == panels[i].panel)
        && (forall i :: 0 <= i < |openings| ==>
              openings[|openings| - 1 - i].x == -openings[i].x
              && openings[|openings| - 1 - i].(x := 0.0) == openings[i].(x := 0.0))
      case GlazedFacade(_, _, _, _) => true
    }
  }

  function StandardOpening(x: real): Opening {
    Opening(x, 2.1, 2.3, 1.9, 2.1, [1.4, -1.4])
  }

  /** The front facade. It reads only the window type: `"standard"` gives
      three ribbed panels and two framed openings; any other value, known or
      not, gives one frame holding one glazed pane and no ribbed panel. */
  function FrontFacade(c: Config): (f: Facade)
    ensures f.OpeningsFacade? <==> c.windowType == "standard"
    ensures f.OpeningsFacade? ==> f.RibbedPanelCount() == 3 && f.FrameCount() == 2 && f.PaneCount() == 2
    ensures f.GlazedFacade? ==> f.RibbedPanelCount() == 0 && f.FrameCount() == 1 && f.PaneCount() == 1
    ensures f.PanesFitFrames() && f.MirrorSymmetric()
  {
    if c.windowType == "standard" then
      var outer := CorrugatedPanel(3.1, Height - 0.6, false);
      var centre := CorrugatedPanel(2.0, Height - 0.6, false);
      OpeningsFacade([PanelAt(-4.2, outer), PanelAt(0.0, centre), PanelAt(4.2, outer)],
                     [StandardOpening(-1.6), StandardOpening(1.6)])
    else
      GlazedFacade(Width - 0.7, Height - 0.7, Width - 1.0, Height - 1.0)
  }

  /** The horizontal extents of the facade's panels and openings. */
  function Spans(f: Facade): seq<(real, real)> {
    match f
    case OpeningsFacade(panels, openings) =>
      seq(|panels|, i requires 0 <= i < |panels| => (panels[i].x - panels[i].panel.width / 2.0, panels[i].x + panels[i].panel.width / 2.0))
      + seq(|openings|, i requires 0 <= i < |openings| => (openings[i].x - openings[i].frameWidth / 2.0, openings[i].x + openings[i].frameWidth / 2.0))
    case GlazedFacade(fw, _, _, _) => [(-fw / 2.0, fw / 2.0)]
  }

  predicate Covered(f: Facade, x: real) {
    exists i :: 0 <= i < |Spans(f)| && Spans(f)[i].0 <= x <= Spans(f)[i].1
  }

  /** With standard windows the panels and openings leave no gap anywhere
      across the clear width between the corner posts. */
  lemma StandardFacadeLeavesNoGap(c: Config, x: real)
    requires c.windowType == "standard"
    requires -InnerHalfWidth <= x <= InnerHalfWidth
    ensures Covered(FrontFacade(c), x)
  {
    var s := Spans(FrontFacade(c));
    assert s[0] == (-5.75, -2.65) && s[1] == (-1.0, 1.0) && s[2] == (2.65, 5.75);
    assert s[3] == (-2.65, -0.55) && s[4] == (0.55, 2.65);
    if x <= -2.65 { assert s[0].0 <= x <= s[0].1; }
    else if x <= -0.55 { assert s[3].0 <= x <= s[3].1; }
    else if x <= 0.55 { assert s[1].0 <= x <= s[1].1; }
    else if x <= 2.65 { assert s[4].0 <= x <= s[4].1; }
    else { assert s[2].0 <= x <= s[2].1; }
  }

  /** The standard facade's centre panel overlaps both openings by 0.45 m, and
      the outer panels reach the outer faces of the corner posts: the layout
      covers the wall but is not a partition of it. */
  lemma StandardFacadeOverlaps(c: Config)
    requires c.windowType == "standard"
    ensures var s := Spans(FrontFacade(c));
            s[3].1 - s[1].0 == 0.45 && s[1].1 - s[4].0 == 0.45
            && s[0].0 == -Width / 2.0 && s[2].1 == Width / 2.0
  {
  }

  /** The glazed frame fits between the corner posts. */
  lemma GlazedFrameFitsBetweenPosts(c: Config)
    requires c.windowType != "standard"
    ensures var s := Spans(FrontFacade(c));
            |s| == 1 && -InnerHalfWidth < s[0].0 && s[0].1 < InnerHalfWidth
  {
  }

  /* ---------------- interior ---------------- */

  /** The kitchen block: its anchor, cabinet and countertop widths, and the
      counts of its door splits, burners and floating shelves. */
  datatype Kitchen = Kitchen(x: real, cabinetWidth: real, counterWidth: real,
                             doorSplits: nat, burners: nat, shelves: nat)

  /** The kitchen sits against the left wall, inside the clear width. */
  function KitchenAssembly(): (k: Kitchen)
    ensures -InnerHalfWidth <= k.x - k.counterWidth / 2.0 && k.x + k.counterWidth / 2.0 <= InnerHalfWidth
    ensures k.cabinetWidth <= k.counterWidth
    ensures k.doorSplits == 3 && k.burners == 4 && k.shelves == 2
  {
    Kitchen(-Width / 2.0 + 1.5, 2.0, 2.1, 3, 4, 2)
  }

  datatype TableKind = BistroTable | IndustrialTable

  /** A chair at a plan position relative to the table centre, turned about
      the vertical axis by a number of quarter turns. Its seat faces local +z
      (the backrest is on the -z side). */
  datatype Chair = Chair(x: real, z: real, quarterTurns: int)

  datatype Dining = Dining(kind: TableKind, x: real, chairs: seq<Chair>)

  /** The plan direction local +z points to after turning by `quarterTurns`
      quarter turns: (sin t, cos t). */
  function Forward(quarterTurns: int): (real, real) {
    match quarterTurns % 4
    case 0 => (0.0, 1.0)
    case 1 => (1.0, 0.0)
    case 2 => (0.0, -1.0)
    case _ => (-1.0, 0.0)
  }

  /** The chair's seat faces the table centre. */
  predicate FacesTable(ch: Chair) {
    var (fx, fz) := Forward(ch.quarterTurns);
    fx * -ch.x + fz * -ch.z > 0.0
  }

  /** The bistro set: two chairs facing each other across the table. */
  const BistroChairs: seq<Chair> := [Chair(0.7, 0.0, -1), Chair(-0.7, 0.0, 1)]

  /** The family set as the source writes it: the end chairs are turned
      -PI/2 at x = -0.9 and PI/2 at x = 0.9. */
  const FamilyChairsAsWritten: seq<Chair> :=
    [Chair(0.0, -0.7, 0), Chair(0.0, 0.7, 2), Chair(-0.9, 0.0, -1), Chair(0.9, 0.0, 1)]

  /** The family set with the end chairs turned towards the table. */
  const FamilyChairs: seq<Chair> :=
    [Chair(0.0, -0.7, 0), Chair(0.0, 0.7, 2), Chair(-0.9, 0.0, 1), Chair(0.9, 0.0, -1)]

  /** As written, the two end chairs of the family table face away from it,
      while the two side chairs (and both bistro chairs) face it. */
  lemma FamilyEndChairsFaceAway()
    ensures FacesTable(FamilyChairsAsWritten[0]) && FacesTable(FamilyChairsAsWritten[1])
    ensures !FacesTable(FamilyChairsAsWritten[2]) && !FacesTable(FamilyChairsAsWritten[3])
    ensures forall i :: 0 <= i < |BistroChairs| ==> FacesTable(BistroChairs[i])
  {
  }

  /** The dining set as the generator draws it: none for `"none"`, a bistro
      table with two chairs for `"small"`, and a family table with four chairs
      for any other value. Both bistro chairs and the family table's side
      chairs face the table; its end chairs face away. */
  function DiningSet(tableType: string): (d: Option<Dining>)
    ensures d.Some? <==> tableType != "none"
    ensures d.Some? ==> (d.value.kind == BistroTable <==> tableType == "small")
    ensures d.Some? ==> |d.value.chairs| == (if tableType == "small" then 2 else 4)
    ensures d.Some? && tableType == "small" ==>
              forall i :: 0 <= i < |d.value.chairs| ==> FacesTable(d.value.chairs[i])
    ensures d.Some? && tableType != "small" ==>
              && FacesTable(d.value.chairs[0]) && FacesTable(d.value.chairs[1])
              && !FacesTable(d.value.chairs[2]) && !FacesTable(d.value.chairs[3])
  {
    if tableType == "none" then None
    else if tableType == "small" then Some(Dining(BistroTable, 2.0, BistroChairs))
    else Some(Dining(IndustrialTable, 2.0, FamilyChairsAsWritten))
  }

  /** The dining set with the family table's end chairs turned towards it:
      the same tables and chair positions as `DiningSet`, differing only in
      the turns of the two end chairs, and every chair faces its table. */
  function CorrectedDiningSet(tableType: string): (d: Option<Dining>)
    ensures d.Some? <==> DiningSet(tableType).Some?
    ensures d.Some? ==> var w := DiningSet(tableType).value;
              && d.value.kind == w.kind && d.value.x == w.x && |d.value.chairs| == |w.chairs|
              && (forall i :: 0 <= i < |w.chairs| ==>
                    d.value.chairs[i].x == w.chairs[i].x && d.value.chairs[i].z == w.chairs[i].z)
              && (forall i :: 0 <= i < |w.chairs| && w.chairs[i].z != 0.0 ==> d.value.chairs[i] == w.chairs[i])
    ensures d.Some? ==> forall i :: 0 <= i < |d.value.chairs| ==> FacesTable(d.value.chairs[i])
  {
    if tableType == "none" then None
    else if tableType == "small" then Some(Dining(BistroTable, 2.0, BistroChairs))
    else Some(Dining(IndustrialTable, 2.0, FamilyChairs))
  }

  /* ---------------- extras ---------------- */

  /** The roof-mounted solar array: two rails and the module centres. */
  datatype SolarArray = SolarArray(railLength: real, railZs: seq<real>, moduleXs: seq<real>, moduleWidth: real)

  /** Two rails carry three evenly spaced modules that do not touch, lie
      within the rails' length, and the rails fit on the roof plate. */
  function SolarAssembly(): (s: SolarArray)
    ensures |s.railZs| == 2 && |s.moduleXs| == 3
    ensures forall i :: 0 <= i < 2 ==> s.moduleXs[i + 1] - s.moduleXs[i] == 2.5
    ensures forall i :: 0 <= i < 2 ==> s.moduleXs[i] + s.moduleWidth / 2.0 < s.moduleXs[i + 1] - s.moduleWidth / 2.0
    ensures forall i :: 0 <= i < 3 ==>
              -s.railLength / 2.0 <= s.moduleXs[i] - s.moduleWidth / 2.0
              && s.moduleXs[i] + s.moduleWidth / 2.0 <= s.railLength / 2.0
    ensures s.railLength <= Width - 0.6
  {
    SolarArray(8.0, [0.5, -0.5], [-2.5, 0.0, 2.5], 2.2)
  }

  /** The wall-mounted air-conditioning unit: the casing centre and width, and
      the offset and width of the bracket that holds it to the wall. */
  datatype AcUnit = AcUnit(x: real, casingWidth: real, bracketOffset: real, bracketWidth: real)

  /** The casing hangs wholly outside the left wall and the bracket reaches
      back exactly to the wall's outer face. */
  function AcAssembly(): (a: AcUnit)
    ensures a.x + a.casingWidth / 2.0 < -Width / 2.0
    ensures a.x + a.bracketOffset + a.bracketWidth / 2.0 == -Width / 2.0
  {
    AcUnit(-Width / 2.0 - 0.5, 0.5, 0.3, 0.4)
  }

  /* ---------------- the whole scene ---------------- */

  datatype Scene = Scene(
    frame: seq<Member>,
    floorColour: string,
    roof: Roof,
    rearWall: RibbedPanel,
    leftWall: RibbedPanel,
    rightWall: RibbedPanel,
    facade: Facade,
    kitchen: Option<Kitchen>,
    dining: Option<Dining>,
    solar: Option<SolarArray>,
    ac: Option<AcUnit>)
  {
    /** Ribbed panels in the scene: one per rear and side wall plus those of
        the front facade. */
    function RibbedPanelCount(): nat {
      3 + facade.RibbedPanelCount()
    }
  }

  /** The scene for a configuration and a wizard step. The roof is visible
      and the solar array present only off the interior step; the air
      conditioning, the kitchen and the dining set depend only on their
      configuration fields. */
  function Generate(c: Config, step: int): (s: Scene)
    ensures s.roof.visible <==> step != 1
    ensures s.solar.Some? <==> c.solarPanels && step != 1
    ensures s.ac.Some? <==> c.acUnit
    ensures s.kitchen.Some? <==> c.hasKitchen
    ensures s.dining.Some? <==> c.tableType != "none"
    ensures s.dining.Some? ==> |s.dining.value.chairs| == (if c.tableType == "small" then 2 else 4)
    ensures s.solar.Some? ==> |s.solar.value.railZs| == 2 && |s.solar.value.moduleXs| == 3
    ensures |s.frame| == 12
    ensures s.RibbedPanelCount() == (if c.windowType == "standard" then 6 else 3)
  {
    Scene(
      frame := Frame(),
      floorColour := FloorColour(c.floorMaterial),
      roof := RoofFor(step),
      rearWall := CorrugatedPanel(Width - 0.6, Height - 0.6, false),
      leftWall := CorrugatedPanel(Depth - 0.6, Height - 0.6, false),
      rightWall := CorrugatedPanel(Depth - 0.6, Height - 0.6, false),
      facade := FrontFacade(c),
      kitchen := if c.hasKitchen then Some(KitchenAssembly()) else None,
      dining := DiningSet(c.tableType),
      solar := if c.solarPanels && step != 1 then Some(SolarAssembly()) else None,
      ac := if c.acUnit then Some(AcAssembly()) else None)
  }

  /* ---------------- properties of the generator ---------------- */

  /** The literal step test `!== 1` is the interior step of the step table:
      on every step the wizard can be on, the roof is hidden and the solar
      array omitted exactly on the interior step. */
  lemma VisibilityFollowsStepName(c: Config, step: int)
    requires 0 <= step < |STEPS|
    ensures Generate(c, step).roof.visible <==> STEPS[step].name != Interior
    ensures Generate(c, step).solar.Some? <==> c.solarPanels && STEPS[step].name != Interior
  {
    StepsTable();
  }

  /** The generator never reads the capsule variant. */
  lemma IgnoresVariant(c: Config, step: int, variant: string)
    ensures Generate(c.(capsuleVariant := variant), step) == Generate(c, step)
  {
  }

  /** The frame, the rear and side walls and the air conditioning do not
      depend on the step; the frame and walls not on the configuration
      either. */
  lemma StepIndependentParts(c: Config, c': Config, step: int, step': int)
    ensures Generate(c, step).frame == Generate(c', step').frame
    ensures Generate(c, step).rearWall == Generate(c', step').rearWall
    ensures Generate(c, step).leftWall == Generate(c', step').leftWall
    ensures Generate(c, step).rightWall == Generate(c', step').rightWall
    ensures Generate(c, step).ac == Generate(c, step').ac
  {
  }

  /** The front facade depends on no field but the window type. */
  lemma FacadeDependsOnlyOnWindowType(c: Config, c': Config, step: int, step': int)
    requires c.windowType == c'.windowType
    ensures Generate(c, step).facade == Generate(c', step').facade
  {
  }

  /** The rear wall carries 36 ribs and each side wall 9. */
  lemma WallRibCounts(c: Config, step: int)
    ensures |Generate(c, step).rearWall.ribOffsets| == 36
    ensures |Generate(c, step).leftWall.ribOffsets| == 9
    ensures |Generate(c, step).rightWall.ribOffsets| == 9
  {
    var s := Generate(c, step);
    assert RibPitch * 36.0 <= Width - 0.6 < RibPitch * 37.0;
    assert RibPitch * 9.0 <= Depth - 0.6 < RibPitch * 10.0;
  }

  /** With air conditioning and solar panels chosen, the interior step shows
      the air-conditioning unit but neither the solar array nor the roof. */
  lemma InteriorStepScenario(c: Config)
    requires c.acUnit && c.solarPanels
    ensures Generate(c, 1).ac.Some?
    ensures Generate(c, 1).solar.None? && !Generate(c, 1).roof.visible
  {
  }
}
