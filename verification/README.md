# Capsule configurator core in Dafny

A model of the pure logic inside the capsule configurator, a web application
in which a user configures a modular living capsule (shell variant, wall
colour, window style, kitchen, dining table, floor, solar panels, air
conditioning), sees a 3D model update, watches a running price and exports a
PDF quote. Three pieces are modelled:

- **The store** (`store.dfy`, module `Store`): the configuration record, the
  three-step wizard (step index plus the finished flag), the language, the
  actions that change them, and the total price. The store becomes an
  immutable `State` record with pure transition functions. `Run` replays a
  sequence of user actions.
- **The quote** (`quote.dfy`, module `Quote`): the line items the PDF export
  prints. Each line is a label key, a description key and a cost. The
  translation of keys into text and the drawing of the document are not part
  of the model.
- **The scene generator** (`capsule_model.dfy`, module `CapsuleModel`): a pure
  function of the configuration and the step index. It returns a summary of
  the scene, without meshes or materials. The summary records:
  - which assemblies are present and whether the roof is visible;
  - how many frame members, ribs, slats, chairs, rails and modules there are;
  - which front-facade branch is taken;
  - the horizontal placement of those parts, in exact `real` arithmetic.

The data is in `types.dfy` (module `Types`: the configuration, the closed
enumerations, the step table) and `constants.dfy` (module `Constants`: the
initial configuration, variant dimensions, price table and colour palette).
`views.dfy` (module `Views`) relates the quote to the scene.
`wrappers.dfy` holds the `Option` type.

Enumerated configuration fields are `string`s, because the store's
`updateConfig` accepts any value at run time. The declared enumerations are
datatypes with a key spelling and an inverse parser, and `WellTyped` says
that a configuration keeps to them. That way the model covers the source's
handling of unknown values: they price at 0, the floor turns grey, any
non-`'standard'` window gives the glazed facade, and any table other than
none or small gives the four-chair set.

What the generator draws, in particular:

- The generator uses a fixed 11.5 × 3.3 × 3.3 m shell. It never reads the
  variant, and every variant gets the same door and window layout.
- The glazed front is one frame holding one pane, with no mullions.
- The three solar modules sit at fixed offsets of -2.5, 0 and 2.5 m along
  the roof.
- The standard facade covers the wall without gaps, but it is not a
  partition: the centre panel overlaps both openings
  (`CapsuleModel.StandardFacadeOverlaps`).

## Model

| member | source | states |
|---|---|---|
| Types.AllVariants | types.ts:36 | the variant enumeration lists four distinct values |
| Types.AllWindowTypes | types.ts:44 | the window-type enumeration lists two distinct values |
| Types.AllTableTypes | types.ts:48 | the table-type enumeration lists three distinct values |
| Types.AllFloorMaterials | types.ts:49 | the floor-material enumeration lists three distinct values |
| Types.EnumerationsAreClosed | types.ts:36-49 | every value of each enumeration is listed, so the enumerations are closed with 4, 2, 3 and 3 values |
| Types.ParseVariant | types.ts:36 | parsing a variant string is the exact inverse of its key spelling, in both directions |
| Types.ParseWindow | types.ts:44 | parsing a window-type string is the exact inverse of its key spelling |
| Types.ParseTable | types.ts:48 | parsing a table-type string is the exact inverse of its key spelling |
| Types.ParseFloor | types.ts:49 | parsing a floor-material string is the exact inverse of its key spelling |
| Types.AllKeys | types.ts:38-54 | the configuration has eight distinct keys |
| Types.AllKeysIsComplete | types.ts:38-54 | every configuration key is among those eight |
| Types.Get | types.ts:38-54 | string-valued keys read strings and boolean keys read booleans |
| Types.GetDeterminesConfig | types.ts:38-54 | two configurations that read alike on every key are equal |
| Types.Assign | store.ts:32 | the spread update gives the assigned key its new value and leaves every other key unchanged |
| Types.WallColorIsUnrestricted | types.ts:43 | setting the wall colour to any string keeps a configuration well typed |
| Types.StepsTable | types.ts:65-69 | the step table has three entries; entry i has id i; the names run exterior, interior, extras |
| Constants.PricedValues | store.ts:68-72 | a string outside a field's enumeration is priced 0 by the `\|\| 0` fallback; the price is positive exactly for every variant, the panoramic window, the small and large tables, and wood and tile floors |
| Constants.InitialConfigIsWellTyped | constants.ts:3-12 | the initial configuration uses only enumerated values |
| Constants.ColoursArePriced | constants.ts:30-37 | every palette colour has its own entry in the colour price table |
| Constants.ColoursAreDistinct | constants.ts:58-65 | palette values are pairwise distinct, and the initial wall colour is one of them |
| Constants.PriceTablesMatchEnumerations | constants.ts:24-52 | the variant, window, table and floor price tables are keyed by exactly the enumeration values |
| Constants.VariantsAreComplete | constants.ts:14-29 | every variant has a price and dimensions, and all widths and heights are strictly positive |
| Constants.VariantOrdering | constants.ts:15-28 | variant prices strictly increase nano < standard < max < loft; only the loft is taller than 3.3 m |
| Constants.BaselineChoicesAreFree | constants.ts:31-49 | the default colour, the standard window, no table and the concrete floor each cost 0 |
| Constants.PricingCoversEveryField | constants.ts:21-56 | every field has a price rule: string fields a table, boolean fields a flat amount |
| Store.UpdateConfig | store.ts:30-33 | replaces only the named field; the step index, the finished flag and the language are unchanged |
| Store.SetLanguage | store.ts:35 | changes only the language |
| Store.NextStep | store.ts:37-43 | below step 2, increments the index and keeps the finished flag; at step 2, sets finished and keeps the index |
| Store.PrevStep | store.ts:45-54 | when finished, clears the flag and keeps the index; otherwise decrements a positive index; at index 0 it changes nothing |
| Store.ResetFinished | store.ts:56 | clears the finished flag and changes nothing else |
| Store.GetCurrentStep | store.ts:58-62 | yields a step exactly when the index is inside the step table; that step's ordinal equals the index and its label is the table entry's label |
| Store.ApplyPreservesValid | store.ts:30-56 | every action keeps `0 <= index <= 2` and `finished ==> index == 2` |
| Store.RunPreservesValid | store.ts:30-56 | any sequence of actions keeps the wizard invariant |
| Store.ReachableStatesAreValid | store.ts:24-62 | every state reachable from the initial state satisfies the invariant, so `getCurrentStep` never indexes outside `STEPS` |
| Store.NextThenPrev | store.ts:37-54 | in an unfinished valid state, `nextStep` then `prevStep` restores the state, including at the last step |
| Store.PrevThenNext | store.ts:37-54 | `prevStep` then `nextStep` restores a valid state exactly when it is finished or past the first step |
| Store.TotalPrice | store.ts:64-82 | the total is at most 52500, and at least 15000 for a well-typed configuration |
| Store.KeyCosts | store.ts:64-82 | each field's `PRICING` rule charges the same amount that `getTotalPrice` adds for that field |
| Store.TotalFollowsPricingRule | store.ts:64-82 | the total equals the base price plus the sum, over all eight fields, of what each field's rule charges |
| Store.FlagSurcharges | store.ts:77-79 | with all else fixed, turning on solar adds exactly 4500, air conditioning 1200 and the kitchen 5000 |
| Store.InitialPrices | store.ts:64-82 | the initial configuration costs 31600, and 35100 with the panoramic window |
| Quote.FindColour | App.tsx:71 | returns the first palette entry with the given value, or nothing exactly when no entry has it |
| Quote.LineItems | App.tsx:65-94 | six lines in the order variant, colour, window, floor, kitchen, dining; then a solar line iff solar is set, then an AC line iff AC is set |
| Quote.LineCostsFollowPricingRule | App.tsx:66-94 | each line costs exactly what its field's `PRICING` rule charges |
| Quote.QuoteMatchesTotal | App.tsx:65-94 | the line costs sum to the store's total for the same configuration |
| Quote.UnknownKeysCostNothing | App.tsx:66-70 | an unlisted variant or colour gives a line cost of 0 |
| Quote.ColourLineDescription | App.tsx:71-72 | the colour line names the first matching palette entry, or prints the raw colour when none matches |
| Quote.ValueDescriptions | App.tsx:66-94 | the variant line names the chosen variant; solar is described as the roof array and AC as the external module. Window: panoramic view only for panoramic. Floor: wood, tile, else concrete. Table: cafe for small, family for large, else none |
| CapsuleModel.RibCount | components/CapsuleModel.tsx:46 | the rib count is the largest n with 0.3·n within the span |
| CapsuleModel.CorrugatedPanel | components/CapsuleModel.tsx:45-66 | a panel has `RibCount` ribs one pitch apart; offset(i) = -offset(n-1-i); each 0.15-wide rib lies within the panel |
| CapsuleModel.Frame | components/CapsuleModel.tsx:106-142 | 4 posts, 4 long rails and 4 short rails, each inside the shell's bounding box |
| CapsuleModel.FrameIsSymmetric | components/CapsuleModel.tsx:106-142 | reflecting any frame member in any centre plane gives another frame member |
| CapsuleModel.FloorColour | components/CapsuleModel.tsx:148 | the floor is `#d4a373` exactly for wood, `#e5e7eb` exactly for tile, and grey `#9ca3af` for concrete and any unknown material |
| CapsuleModel.RoofFor | components/CapsuleModel.tsx:154-165 | the roof is visible iff the step is not 1; its 38 slats lie on the plate without touching |
| CapsuleModel.FrontFacade | components/CapsuleModel.tsx:180-202 | `'standard'` gives 3 ribbed panels and 2 framed openings, anything else 1 frame and 1 pane; panes fit their frames; the layout is mirror-symmetric |
| CapsuleModel.StandardFacadeLeavesNoGap | components/CapsuleModel.tsx:181-195 | the standard facade's panels and openings cover every point between the corner posts |
| CapsuleModel.StandardFacadeOverlaps | components/CapsuleModel.tsx:183-189 | the centre panel overlaps each opening by 0.45 m, and the outer panels reach the shell's outer faces |
| CapsuleModel.GlazedFrameFitsBetweenPosts | components/CapsuleModel.tsx:197-200 | the glazed frame lies strictly between the corner posts |
| CapsuleModel.KitchenAssembly | components/CapsuleModel.tsx:206-294 | the kitchen counter lies inside the clear width; it has 3 door splits, 4 burners and 2 shelves |
| CapsuleModel.FamilyEndChairsFaceAway | components/CapsuleModel.tsx:350-356 | as written, the family table's side chairs face it but its two end chairs face away; both bistro chairs face their table |
| CapsuleModel.DiningSet | components/CapsuleModel.tsx:296-361 | a table iff the type is not `'none'`: a bistro with 2 chairs for `'small'`, both facing the table; otherwise a family table with 4 chairs, whose two side chairs face it and whose two end chairs face away |
| CapsuleModel.CorrectedDiningSet | components/CapsuleModel.tsx:350-356 | the same tables and chair positions as the drawn set, with only the end chairs' turns changed, and then every chair faces its table |
| CapsuleModel.SolarAssembly | components/CapsuleModel.tsx:366-396 | 2 rails and 3 modules spaced 2.5 m apart; the modules do not touch and lie within the rails; the rails fit on the roof |
| CapsuleModel.AcAssembly | components/CapsuleModel.tsx:398-413 | the casing hangs outside the left wall, and the bracket reaches exactly to the wall |
| CapsuleModel.Generate | components/CapsuleModel.tsx:10-417 | roof visible iff step != 1; solar iff solar set and step != 1; AC iff set; kitchen iff set; table iff type != none; 12 frame members; 6 ribbed panels with standard windows, else 3 |
| CapsuleModel.VisibilityFollowsStepName | components/CapsuleModel.tsx:17 | on steps 0..2, the literal test `!== 1` hides the roof and solar exactly on the interior step |
| CapsuleModel.IgnoresVariant | components/CapsuleModel.tsx:12-14 | changing the capsule variant leaves the scene unchanged |
| CapsuleModel.StepIndependentParts | components/CapsuleModel.tsx:106-177 | the frame and the rear and side walls ignore both inputs; the AC unit ignores the step |
| CapsuleModel.FacadeDependsOnlyOnWindowType | components/CapsuleModel.tsx:180-202 | two configurations with the same window type get the same front facade |
| CapsuleModel.WallRibCounts | components/CapsuleModel.tsx:167-177 | the rear wall has 36 ribs and each side wall has 9 |
| CapsuleModel.InteriorStepScenario | components/CapsuleModel.tsx:366-413 | with AC and solar chosen, step 1 shows the AC unit but no solar array and no roof |
| Views.FloorViewsAgree | App.tsx:79 | the quote's floor label and the scene's floor colour make the same three-way choice |
| Views.KitchenViewsAgree | App.tsx:83 | the kitchen line says "included" exactly when the kitchen is drawn |
| Views.EnumeratedViewsAgree | App.tsx:75-86 | for well-typed configurations the quote's window and dining descriptions match the drawn facade and dining set |
| Views.UnknownValuesDisagree | App.tsx:75-86 | an unknown window type is quoted as standard but drawn glazed; an unknown table type is quoted as none but drawn with four chairs |

## Findings

| source | as written | input that shows it | evidently intended | confidence | as-written member | corrected member |
|---|---|---|---|---|---|---|
| components/CapsuleModel.tsx:353-354 | the end chairs of the family table are turned -PI/2 at x = -0.9 and PI/2 at x = 0.9 | `tableType: 'large'`; a chair's seat faces local +z, which a y-rotation by t turns to (sin t, cos t), so both end chairs face away from the table | the signs swapped (PI/2 at x = -0.9, -PI/2 at x = 0.9), so these chairs face the table like the side chairs and the bistro chairs | medium, not executed | CapsuleModel.FamilyEndChairsFaceAway | CapsuleModel.CorrectedDiningSet |

The scene model (`CapsuleModel.Generate`) draws the chairs as written. `CapsuleModel.CorrectedDiningSet` states the intended layout next to it.

## Left out

- Rendering: meshes, materials, shadows, the leg tilt and the vertical layout of sub-assemblies. These are declarative calls into a 3D library. Only presence, counts, branches and horizontal placement are modelled.
- The camera framing and easing in components/Experience.tsx. These are calls into a camera-control library.
- The form widgets of components/ConfigPanel.tsx and its currency formatting.
- The PDF drawing, layout, date and translation lookup in App.tsx. Translation keys stand in for the translated text.
- The state-library subscription and re-render mechanics. The store is an explicit state record.
- Variant-dependent dimensions in the generator. `VARIANT_DIMENSIONS` is modelled only as data, because the generator ignores the variant.
- Store.UpdateConfig: takes a value of the field's declared JavaScript type (string or boolean). A value of another type, which the untyped `value` parameter would accept, is not representable.
- Constants.PriceOf: models the plain own-key lookup. A key that names an inherited object property (such as `"toString"`) would read a non-number in JavaScript; that case is not modelled.
- Store.GetCurrentStep: the step index is an integer. A fractional index, which the store never produces, is not representable.
- CapsuleModel.CorrugatedPanel: rib counts and offsets use exact real arithmetic. Binary floating point may round a quotient that is exactly an integer in the reals, which the model does not capture.
