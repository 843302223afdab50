/** How the exported quote and the generated scene describe the same
    configuration: for well-typed configurations they agree on the floor,
    the window style, the kitchen and the dining set; for string values
    outside an enumeration the two fall back to different defaults. */
module Views {
  import opened Types
  import opened Constants
  import Quote
  import CapsuleModel

  /** The floor line and the floor colour make the same three-way choice,
      with concrete and unknown materials grouped together in both. */
  lemma FloorViewsAgree(c: Config, step: int)
    ensures Quote.LineItems(c)[3].value == Quote.WoodFloor <==> CapsuleModel.Generate(c, step).floorColour == "#d4a373"
    ensures Quote.LineItems(c)[3].value == Quote.TileFloor <==> CapsuleModel.Generate(c, step).floorColour == "#e5e7eb"
    ensures Quote.LineItems(c)[3].value == Quote.ConcreteFloor <==> CapsuleModel.Generate(c, step).floorColour == "#9ca3af"
  {
  }

  /** The kitchen line says "included" exactly when the kitchen is drawn. */
  lemma KitchenViewsAgree(c: Config, step: int)
    ensures Quote.LineItems(c)[4].value == Quote.Included <==> CapsuleModel.Generate(c, step).kitchen.Some?
  {
  }

  /** For a well-typed configuration the window line names the panoramic view
      exactly when the facade is fully glazed, and the dining line names a
      table exactly when one is drawn, a cafe table for the bistro set. */
  lemma EnumeratedViewsAgree(c: Config, step: int)
    requires WellTyped(c)
    ensures Quote.LineItems(c)[2].value == Quote.PanoramicView <==> CapsuleModel.Generate(c, step).facade.GlazedFacade?
    ensures Quote.LineItems(c)[5].value == Quote.NoneChosen <==> CapsuleModel.Generate(c, step).dining.None?
    ensures Quote.LineItems(c)[5].value == Quote.CafeTable <==>
              CapsuleModel.Generate(c, step).dining.Some? && CapsuleModel.Generate(c, step).dining.value.kind == CapsuleModel.BistroTable
  {
  }

  /** Outside the enumerations the views part: an unknown window type is
      quoted as the standard view at no cost but drawn fully glazed, and an
      unknown table type is quoted as no table at no cost but drawn as the
      family table with four chairs. */
  lemma UnknownValuesDisagree(step: int)
    ensures var c := INITIAL_CONFIG.(windowType := "sliding");
            Quote.LineItems(c)[2].value == Quote.StandardView && Quote.LineItems(c)[2].cost == 0
            && CapsuleModel.Generate(c, step).facade.GlazedFacade?
    ensures var c := INITIAL_CONFIG.(tableType := "round");
            Quote.LineItems(c)[5].value == Quote.NoneChosen && Quote.LineItems(c)[5].cost == 0
            && CapsuleModel.Generate(c, step).dining.Some?
            && |CapsuleModel.Generate(c, step).dining.value.chairs| == 4
  {
  }
}
