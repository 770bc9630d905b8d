# FarmBot 3D configurator — a Dafny model

The FarmBot configurator draws a FarmBot on a raised garden bed in 3D. A
single flat configuration record drives the whole scene: bed size, bot
size, colours, which extras are shown, and so on. Size presets (Genesis,
Genesis XL, Jr) and whole-configuration presets ("Initial", "Minimal",
"Maximal") rewrite groups of its fields.

This project models the logic behind the scene. The scene's components
place their parts with that logic.

- **ConfigStore and ConfigLaws** (`config.ts`) model the configuration
  record, the presets and `modifyConfig`:
  - the merge of an update;
  - a size preset rewriting its group of keys;
  - a bed type re-deriving `bedZOffset` and `legsFlush`;
  - "Reset all";
  - a whole-configuration preset rewriting the other keys.
- **Helpers** (`helpers.ts`) model `threeSpace`, which moves a bed
  coordinate to the scene's centred frame, and `zZero`.
- **Constants and Garden** (`constants.ts`, `garden.tsx`) model the plant
  table, the seasonal gardens and `calculatePlantPositions`. That function
  lays plants out in columns across the bed and is modelled as a loop
  proved against a specification function.
- **Shapes** models the path-drawing part of a 2D shape: `moveTo`,
  `lineTo`, `arc` (its centre given relative to the pen) and holes. It is
  a class whose commands are appended in place.
- **Bed** (`bed.tsx`) models the bed frame's profile and the soil inside it.
- **BotScene** (`bot.tsx`) models:
  - the cable carrier profile;
  - the bounds box and its z-dips;
  - the carrier support height;
  - the column placement;
  - the tool bays and the accessory line-up.
- **ZoomBeacons** (`zoom_beacons_constants.tsx`) models the table of
  camera foci, `getFocus`, `getCameraOffset` and `getCamera`.
- **The scene's extras**:
  - **PowerSupply** (`power_supply.tsx`): the supply and its cable, and
    the module-level cable-colour counter, which is a class;
  - **SolarPanel** (`solar_panel.tsx`);
  - **Packaging** (`packaging.tsx`);
  - **Desk** (`desk.tsx`; the lab in `lab.tsx` draws the same desk from
    the same constants);
  - **Lab** (`lab.tsx`);
  - **WaterTube** (`x_axis_water_tube.tsx`);
  - **FarmBotAxes** (`farmbot_axes.tsx`);
  - **UtilitiesPost** (`utilities_post.tsx`).

TypeScript numbers are modelled as `real`. The configurator does no
integer arithmetic whose width matters. Its only rounding is
`Math.ceil`/`Math.floor` in the garden layout and the solar-panel grid,
and both are modelled with `.Floor`.

## Model

| member | source | states |
|---|---|---|
| ConfigStore.AllKeysComplete | src/config.ts:1-55 | every field of the configuration record is in the list of all keys |
| ConfigStore.InitialValue | src/config.ts:57-111 | each initial value has its field's declared kind (number, boolean or string) |
| ConfigStore.InitialIsConfig | src/config.ts:57-111 | the initial configuration is a complete, well-kinded configuration |
| ConfigStore.JrValue | src/config.ts:114-134 | each value the Jr preset sets has its field's kind |
| ConfigStore.GenesisValue | src/config.ts:135-155 | each value the Genesis preset sets has its field's kind |
| ConfigStore.GenesisXlValue | src/config.ts:156-176 | each value the Genesis XL preset sets has its field's kind |
| ConfigStore.MinimalValue | src/config.ts:178-213 | each value the Minimal preset sets has its field's kind |
| ConfigStore.MaximalValue | src/config.ts:214-249 | each value the Maximal preset sets has its field's kind |
| ConfigStore.PresetNamed | src/config.ts:113-250 | the `PRESETS` entry a name selects, `None` for any other name; `ModifyFailsIffUnknownPreset` states when an update fails because of it |
| ConfigStore.PresetValue | src/config.ts:113-250 | every preset's value for a key has that key's kind |
| ConfigStore.PresetConfig | src/config.ts:113-250 | every preset is a complete configuration |
| ConfigStore.Overwrite | src/config.ts:272 | the keys in the group take the preset's values and every other key keeps its value |
| ConfigStore.OverwriteFrom | src/config.ts:272 | the loop over a key list overwrites exactly the listed keys from the preset |
| ConfigStore.ResetFields | src/config.ts:278-283 | "Reset all" overwrites every key from the initial configuration |
| ConfigStore.Sets | src/config.ts:270 | `if (update.k)`: the update carries a truthy value for the key; the laws in `ConfigLaws` state which steps it switches on |
| ConfigStore.ModifyConfigSpec | src/config.ts:268-290 | the staged specification of `modifyConfig`: `ModifyConfig` is proved equal to it, and `ModifyIsApply` and `ModifyFieldwise` tie it to the field-by-field `Apply` |
| ConfigStore.ModifyConfig | src/config.ts:268-290 | the imperative update equals its specification: merge, size preset, bed type, reset, other preset, and an error for an unknown preset name |
| ConfigStore.SizeKeysAreSizeGroup | src/config.ts:252-257 | the size key list contains exactly the keys of the size group |
| ConfigStore.OtherKeysAreOtherGroup | src/config.ts:259-266 | the other-key list contains exactly the keys of the other group |
| ConfigStore.KeyGroupsDisjoint | src/config.ts:252-266 | no key is in both the size group and the other group |
| ConfigStore.KeyGroups | src/config.ts:252-266 | the bed type belongs to the size list and `legsFlush` to the other list; keys of neither group are in neither list |
| ConfigStore.PresetsAreStandard | src/config.ts:113-250 | every preset has the Standard bed type |
| ConfigStore.GenesisFieldIsInitial | src/config.ts:135-155 | the Genesis preset agrees with the initial configuration on every key |
| ConfigStore.GenesisIsInitial | src/config.ts:135-155 | "Genesis" names the Genesis preset, and that preset is the initial configuration |
| ConfigStore.FieldBeforeOtherPreset | src/config.ts:269-277 | a field's value after the size-preset and bed-type steps has its kind |
| ConfigStore.FieldAfterUpdate | src/config.ts:269-287 | a field's value after the whole update has its kind |
| ConfigStore.Apply | src/config.ts:268-290 | a known update leaves a complete, well-kinded configuration |
| ConfigStore.ModifyFailsIffUnknownPreset | src/config.ts:270-287 | the update fails exactly when it sets a size or configuration preset name that is not a key of the preset table |
| ConfigStore.BeforeOtherPresetField | src/config.ts:269-277 | the field after the first two steps is given key by key: size-group keys from the preset, the pair from the bed type, the rest from the merge |
| ConfigStore.ModifyField | src/config.ts:268-290 | every field of the result is the field-wise specification's value |
| ConfigStore.ModifyIsApply | src/config.ts:268-290 | a successful update yields the result of applying it |
| ConfigStore.ModifyFieldwise | src/config.ts:268-290 | the result is the map built key by key from the field-wise specification |
| ConfigLaws.UpdateOverridesConfig | src/config.ts:269 | a plain update's keys win over the old configuration and no other key changes |
| ConfigLaws.SizePresetAtomic | src/config.ts:270-273 | choosing a size preset sets every size key to the preset's value, whatever else the update says |
| ConfigLaws.SizePresetOnlyIsStandard | src/config.ts:270-277 | an update naming only a known size preset succeeds and leaves a Standard bed |
| ConfigLaws.SizePresetOnlyRederives | src/config.ts:274-277 | on a bed that was not Standard, a size preset makes it Standard and re-derives the pair to offset 0 with flush legs |
| ConfigLaws.SizePresetOnlyKeepsPair | src/config.ts:274-277 | on a Standard bed, choosing a size preset leaves the offset and `legsFlush` as they were |
| ConfigLaws.BedTypeDerivation | src/config.ts:274-277 | an update setting the bed type gives offset 500 and legs not flush for "Mobile", offset 0 and flush legs otherwise |
| ConfigLaws.ResetAll | src/config.ts:278-283 | "Reset all" gives the initial configuration |
| ConfigLaws.OtherPresetApplies | src/config.ts:284-287 | a named configuration preset sets every other-group key from the preset; every other key is what the earlier steps left |
| ConfigLaws.RederiveSettles | src/config.ts:274-277 | applied to its own result, an update re-derives the bed pair exactly when it sets the bed type itself |
| ConfigLaws.BedPairSettles | src/config.ts:274-277 | when the update names neither field of the bed pair, a second application gives each of them the value the first one left |
| ConfigLaws.ApplyIdempotentField | src/config.ts:268-290 | an update that sets neither field of the bed pair gives, applied twice, each field it gave once |
| ConfigLaws.ApplyIdempotent | src/config.ts:268-290 | an update that sets neither field of the bed pair is idempotent |
| ConfigLaws.OffsetUpdateOnce | src/config.ts:269-277 | a size preset with an explicit offset of 100, on a Mobile bed, makes the bed Standard and re-derives the offset to 0, losing the 100 |
| ConfigLaws.OffsetUpdateNotIdempotent | src/config.ts:269-277 | the same update applied a second time keeps the offset 100, so an update that sets the offset is not idempotent |
| ConfigLaws.MobileWithSizePreset | src/config.ts:270-277 | a size preset and "Mobile" in one update leave a Standard bed raised by 500 with legs not flush: the pair no longer matches the bed type |
| ConfigLaws.MinimalUnflushesStandardBed | src/config.ts:284-287 | the Minimal preset leaves a Standard bed with legs not flush |
| ConfigLaws.ModifyIdempotent | src/config.ts:268-290 | a successful update that sets neither field of the bed pair, repeated on its own result, gives the same configuration |
| ConfigLaws.ResetAllScenario | src/config.ts:278-283 | from any configuration, "Reset all" returns to the initial one |
| Helpers.ThreeSpace | src/helpers.ts:3 | `threeSpace`, from bed coordinates to the centred scene frame; its laws are `ThreeSpaceCentre`, `ThreeSpaceSymmetric`, `ThreeSpaceDistance` and `ThreeSpaceInjective` |
| Helpers.ZZero | src/helpers.ts:4 | `zZero`, the height of the bot's z origin; its laws are `ZZeroReadsTwoFields` and `ZZeroOfPresets` |
| Helpers.ThreeSpaceCentre | src/helpers.ts:3 | the middle of the bed maps to the scene origin |
| Helpers.ThreeSpaceSymmetric | src/helpers.ts:3 | the two ends of the bed map to opposite points |
| Helpers.ThreeSpaceDistance | src/helpers.ts:3 | the mapping keeps distances along the bed |
| Helpers.ThreeSpaceInjective | src/helpers.ts:3 | distinct bed coordinates map to distinct scene coordinates |
| Helpers.ZZeroReadsTwoFields | src/helpers.ts:4 | the z origin depends only on the column length and the gantry offset |
| Helpers.ZZeroOfPresets | src/helpers.ts:4 | the z origin is 400 for Genesis and Genesis XL, and 200 for Jr |
| Constants.Lookup | src/constants.ts:124-147 | a plant found in a table whose spreads are in range has a spread in [100, 400] and a positive size |
| Constants.LookupFinds | src/constants.ts:124-147 | a name is found exactly when it is a key of the table |
| Constants.LookupAt | src/constants.ts:124-147 | looking up a table's i-th key gives its i-th plant when the keys are distinct |
| Constants.TableInRange | src/constants.ts:125-146 | every plant of the table has a spread in [100, 400] and a positive size |
| Constants.PlantNamed | src/constants.ts:124-147 | a known plant's spread is in range |
| Constants.GardenPlants | src/garden.tsx:54 | a name other than the four garden keys gives no plants; with valid draws every listed plant is a key of `PLANTS`, and the list is non-empty exactly for the four garden keys |
| Constants.PlantTableShape | src/constants.ts:124-147 | the table has 22 species with distinct keys |
| Constants.PlantTable | src/constants.ts:124-147 | a name is found exactly when it is one of the table's keys, and the i-th key finds the i-th plant |
| Constants.SpreadsInRange | src/constants.ts:125-146 | every species' spread lies in [100, 400] |
| Constants.KeysStartLowerCase | src/constants.ts:125-146 | every plant key starts with a lower-case letter |
| Constants.CapitalisedNameMissing | src/constants.ts:124-147 | a capitalised name such as "Beet" is not in the table |
| Constants.SeasonLists | src/constants.ts:150-153 | spring lists 11 plants and summer 10, all of them keys of the table |
| Constants.GardenKeys | src/constants.ts:149-156 | "Spring", "Summer", "winter" and "fall" name no garden |
| Constants.GardensNamePlants | src/constants.ts:149-156 | every plant any garden names is a key of the table; the minimal garden names 2 plants and the random one 10 |
| Garden.PlantsPerHalfRow | src/garden.tsx:69 | `Math.ceil((width - spread) / 2 / spread)`; `OffsetBound` bounds the rows it allows inside the bed |
| Garden.Column | src/garden.tsx:64-81 | the plants one column pushes; `PushColumn` is proved to append it, and `ColumnShape`, `ColumnAt` and `ColumnInside` state its shape |
| Garden.RunFrom | src/garden.tsx:60-90 | the outer loop from a given `x` and index; `RunStep`, `RunWithin`, `RunOrdered`, `RunInsideRows` and `NoLateDiscard` are its laws |
| Garden.LayoutSpec | src/garden.tsx:55-93 | the layout `calculatePlantPositions` returns; the method is proved equal to it, and `LayoutBounds`, `FirstColumn`, `ShortBedIsEmpty`, `DiscardOnlyAtStart` and `KnownListNeverCrashes` state its properties |
| Garden.MidPoint | src/garden.tsx:42-45 | the bed's midpoint, centred, is the scene origin |
| Garden.Ceil | src/garden.tsx:69 | the result is the least integer not below its argument |
| Garden.RoomShrinks | src/garden.tsx:60-90 | each column uses up room, so the layout loop ends |
| Garden.PairsStep | src/garden.tsx:70-81 | one more row of a column appends one position, `spread` further along |
| Garden.PushColumn | src/garden.tsx:64-81 | the inner loop appends the column the specification describes |
| Garden.RunStep | src/garden.tsx:60-90 | one pass of the outer loop extends the specification's run by one column |
| Garden.AdvanceRun | src/garden.tsx:82-90 | the outer loop's state after a column is the specification's state one step on |
| Garden.CalculatePlantPositions | src/garden.tsx:55-93 | the method returns the specification's layout, or crashes where the source would |
| GardenLaws.PairsShape | src/garden.tsx:70-81 | the rows above and below the middle come in pairs, mirrored about the middle, `spread` apart |
| GardenLaws.OffsetBound | src/garden.tsx:69-80 | every row offset is positive and less than half the bed width less half the spread |
| GardenLaws.ColumnShape | src/garden.tsx:64-81 | a column has a middle plant on the centre line, then one pair of mirrored rows per step, all at the column's x |
| GardenLaws.ColumnInside | src/garden.tsx:69-80 | every row but the middle one is off the centre line and within half the bed width less half the spread |
| GardenLaws.ColumnRowInside | src/garden.tsx:69-80 | any single row past the middle one is off the centre line and inside the bed width less half the spread |
| GardenLaws.ColumnAt | src/garden.tsx:64-81 | every plant of a column is the column's own species, placed at the column's x |
| GardenLaws.ColumnRows | src/garden.tsx:64-81 | a column stands at its own x and all its rows lie inside the bed's width |
| GardenLaws.RunWithin | src/garden.tsx:57-90 | every plant of the run lies between its start and 100 short of the bed's end, and is the table entry of a key of the list |
| GardenLaws.RunOrdered | src/garden.tsx:82-90 | the plants of the run come in order of x, and plants of different columns are at least 100 apart |
| GardenLaws.RunInsideRows | src/garden.tsx:64-90 | every plant of the run lies inside the bed's width |
| GardenLaws.LayoutBounds | src/garden.tsx:55-93 | every plant of a layout lies in `[350, length - 100]` along the bed and inside its width, the plants come in order of x with columns at least 100 apart, and each is the entry of a key of the list |
| GardenLaws.FirstColumn | src/garden.tsx:57-68 | the first plant of a non-empty layout is the first species, at x 350 on the centre line |
| GardenLaws.ShortBedIsEmpty | src/garden.tsx:57-60 | a bed too short for one column gets an empty layout |
| GardenLaws.UnknownFirstIsEmpty | src/garden.tsx:61-63 | an empty list or an unknown first plant gives an empty layout |
| GardenLaws.NoLateDiscard | src/garden.tsx:61-63 | once the current plant is known, the layout is never discarded |
| GardenLaws.DiscardOnlyAtStart | src/garden.tsx:61-63 | the layout is discarded exactly when the bed has room for a column and the first plant is unknown |
| GardenLaws.KnownListRuns | src/garden.tsx:82-90 | from any position in a list of known plants, the run completes |
| GardenLaws.KnownListNeverCrashes | src/garden.tsx:82-90 | a list whose plants are all in the table never crashes |
| GardenLaws.UnknownSecondKeyCrashes | src/garden.tsx:83-84 | the list ["beet", "Beet"] on a long bed crashes at the second plant |
| GardenLaws.DefaultLayoutIsEmpty | src/garden.tsx:54 | the default plants value "Spring" names no garden, so the default layout is empty |
| GardenLaws.SpringLayoutStartsWithBeet | src/garden.tsx:55-93 | the spring layout's first plant is a beet at (350, 680) in bed coordinates |
| Shapes.ShapeBuilder.constructor | src/bed.tsx:24 | a new shape has no commands and no holes |
| Shapes.ShapeBuilder.MoveTo | src/bed.tsx:27 | a move is appended to the commands; holes are unchanged |
| Shapes.ShapeBuilder.LineTo | src/bed.tsx:28-31 | a line is appended to the commands; holes are unchanged |
| Shapes.ShapeBuilder.Arc | src/bot.tsx:172-177 | an arc with its centre offset, radius, angles and direction is appended to the commands; holes are unchanged |
| Shapes.ShapeBuilder.PushHole | src/bed.tsx:34 | the hole is appended to the holes; commands are unchanged |
| Bed.Soil | src/bed.tsx:12-20 | the soil path is the hole outline `[t, length] x [t, width]` |
| Bed.BedStructure2D | src/bed.tsx:22-37 | the frame profile is the outer rectangle with the soil outline as its one hole |
| Bed.SoilLoop | src/bed.tsx:13-18 | the soil outline has five points and is closed, starting and ending at `(t, t)` |
| Bed.OuterRectangle | src/bed.tsx:27-31 | the outer profile is the closed rectangle through `(0, 0)`, `(0, width + 2t)`, `(length + 2t, width + 2t)` and `(length + 2t, 0)` |
| Bed.HoleInside | src/bed.tsx:13-31 | the hole lies strictly inside the outer profile, with margins t on the low sides and 2t on the high sides |
| Bed.SoilFillsHole | src/bed.tsx:34-71 | the soil's outline is the frame's one hole; the soil has no holes, sits at the same place, and is less deep than the frame |
| Bed.ExtrusionCorner | src/bed.tsx:61-71 | the frame and the soil are extruded from the same corner |
| Bed.SceneBed | src/bed.tsx:8-10 | the scene's 30 thick frame has its far corner at (2960, 1460) and the hole's at (2900, 1400) |
| BotScene.CcOutline | src/bot.tsx:161-188 | `ccPath` as a command list; `CcPath` draws it, and `CcClosed`, `CcArcs` and `CcBendsConcentric` state its shape |
| BotScene.Zero | src/bot.tsx:212-216 | the corner of the working volume nearest the origin; `ExtentsSpan` relates it to the extents |
| BotScene.Extents | src/bot.tsx:217-221 | the far corner of the working volume; `ExtentsSpan` states its distance from `Zero` |
| BotScene.ZDip | src/bot.tsx:222-226 | the three points of one vertical dip; `BoundsLineDips` states them |
| BotScene.BoundsLine | src/bot.tsx:859-873 | the bounds polyline; `BoundsLineBase`, `BoundsLineDips` and `BoundsLineCorners` state its points |
| BotScene.ColumnY | src/bot.tsx:332-333 | the y of each of the two columns; `ColumnOffsets` and `ColumnPlacement` state it |
| BotScene.ToolbayOffsets | src/bot.tsx:790 | the tool bays' y offsets; `Toolbays` states them |
| BotScene.AccessoryOffset | src/bot.tsx:812-852 | an accessory's y offset from the bed's centre line; `AccessoryCentred`, `AccessoriesSpreadOut` and `AccessoriesDistinct` state them |
| BotScene.DrawCcTail | src/bot.tsx:178-185 | the tail of the carrier profile is appended to the builder's path |
| BotScene.CcPath | src/bot.tsx:161-188 | the carrier profile the method draws equals its outline specification |
| BotScene.CcClosed | src/bot.tsx:170-186 | the carrier profile has 12 commands for the X carrier and 11 for the others; it starts with a move to `(y + 20, 0)` and ends with a line back there |
| BotScene.CcArcs | src/bot.tsx:172-177 | the outer bend has radius `curveDia / 2` and turns anticlockwise; the inner bend is the wall height smaller and turns clockwise |
| BotScene.CcBendsConcentric | src/bot.tsx:163-177 | the profile has no jump into either bend; the two bends share a centre and their radii differ by the wall height |
| BotScene.ExtentsSpan | src/bot.tsx:212-221 | the bounds reach from the zero corner by the bot's size along x and y, and by the size along z in the z direction |
| BotScene.BoundsLineBase | src/bot.tsx:859-867 | the line has 18 points: a loop at the zero height starting and ending at the zero corner, and it ends above the zero corner at the z extent |
| BotScene.BoundsLineDips | src/bot.tsx:222-226 | dip k goes from the k-th corner to the z extent and back to that corner |
| BotScene.BoundsLineCorners | src/bot.tsx:859-873 | the base loop visits the zero corner, the corner at the y extent, the far corner and the corner at the x extent |
| BotScene.BedCCSupportHeight | src/bot.tsx:328 | the carrier support height is at most 150 and at most half the bed height, and equals one of them |
| BotScene.ColumnOffsets | src/bot.tsx:333 | without tracks the columns are offset 20 inward from either side; with tracks not at all |
| BotScene.ColumnPlacement | src/bot.tsx:332-333 | without tracks the columns stand at y 0 and at the bed width less one extrusion; with tracks one extrusion outside the near side and at the far edge |
| BotScene.Toolbays | src/bot.tsx:790 | the Jr has one tool bay, on the centre line; the other kits have two, mirrored about it |
| BotScene.AccessoryCentred | src/bot.tsx:812-852 | an accessory's scene y is its offset from the bed's centre line |
| BotScene.AccessoriesSpreadOut | src/bot.tsx:812-852 | on the full-size kits every accessory is 100 further from the centre line than on the Jr |
| BotScene.AccessoriesDistinct | src/bot.tsx:812-852 | two accessories share a y offset only when they are the same accessory |
| ZoomBeacons.Foci | src/zoom_beacons_constants.tsx:27-374 | the table of six foci; `FociLabels`, `FirstFocusScale`, `UtmFocus` and `FocusByLabel` state its contents |
| ZoomBeacons.GetCamera | src/zoom_beacons_constants.tsx:384-404 | `getCamera` over a list of foci; `CameraAtFocus` states the camera it returns |
| ZoomBeacons.SceneCamera | src/zoom_beacons_constants.tsx:384-404 | `getCamera` over the foci of the configuration; `UnknownFocusFallsBack` and `EmptyFocusFallsBack` state its fallback |
| ZoomBeacons.GetFocus | src/zoom_beacons_constants.tsx:376-377 | a found focus is one of the foci, with the active title |
| ZoomBeacons.GetCameraOffset | src/zoom_beacons_constants.tsx:379-382 | no law of its own; the camera it leads to at each viewport width is stated by `ZoomBeacons.CameraAtFocus` |
| ZoomBeacons.GetFocusFirst | src/zoom_beacons_constants.tsx:376-377 | the search finds the first focus with the title, and finds none exactly when no focus has it |
| ZoomBeacons.GetFocusAt | src/zoom_beacons_constants.tsx:376-377 | a title held only by the i-th focus finds the i-th focus |
| ZoomBeacons.CameraAtFocus | src/zoom_beacons_constants.tsx:384-404 | with no focus found the camera is the fallback; otherwise camera and target are the focus position plus the viewport's offset |
| ZoomBeacons.FociLabels | src/zoom_beacons_constants.tsx:27-374 | the six foci have the source's six distinct titles |
| ZoomBeacons.FocusByLabel | src/zoom_beacons_constants.tsx:376-377 | each of the six titles finds its own focus |
| ZoomBeacons.UnknownFocusFallsBack | src/zoom_beacons_constants.tsx:389-390 | a title that is none of the six finds no focus and gives the fallback camera |
| ZoomBeacons.EmptyFocusFallsBack | src/zoom_beacons_constants.tsx:389-390 | no active focus gives the fallback camera |
| ZoomBeacons.UtmFocus | src/zoom_beacons_constants.tsx:175-179 | the tool-mount focus follows the tool: its position centred, shifted by the bed offsets, 150 further along y, at `zZero` moved by z |
| ZoomBeacons.FirstFocusScale | src/zoom_beacons_constants.tsx:44-82 | the first focus is at the bed's centre, 150 up; for Genesis XL its scale and camera heights are 7000, 10000 and 15000 instead of 3500, 5000 and 7000 |
| PowerSupply.SupplyBox | src/power_supply.tsx:39-50 | the supply's box; `CableThroughSupply` places the cable's two ends on its faces |
| PowerSupply.Cables | src/power_supply.tsx:52-124 | the seven cable pieces; `CablesContinuous`, `CableThroughSupply`, `CarrierRun`, `CableHeights` and `CableMeetsPlug` are their laws |
| PowerSupply.Plug | src/power_supply.tsx:125-133 | the plug's box; `CableMeetsPlug` and `UtilitiesPost.PlugInOutlet` place it |
| PowerSupply.NextColor | src/power_supply.tsx:16-21 | one `cableColor()` call as a value; `CableColors.CableColor` is proved against it, and `PlainColors` and `DebugColors` state what successive calls give |
| PowerSupply.CablesContinuous | src/power_supply.tsx:52-124 | the cable is unbroken except inside the supply: every other piece ends where the next starts |
| PowerSupply.CableThroughSupply | src/power_supply.tsx:42-80 | the cable enters and leaves the supply at the middle of its two end faces, and the gap is the supply's length |
| PowerSupply.CarrierRun | src/power_supply.tsx:52-73 | the carrier run starts at the bot's middle and lies level, 10 above the carrier supports' lowest point |
| PowerSupply.CableHeights | src/power_supply.tsx:81-124 | below the supply the cable runs 10 above the bed's foot, then 10 above the ground, and climbs 240 to the outlet |
| PowerSupply.CableMeetsPlug | src/power_supply.tsx:118-133 | the last piece ends at the centre of the plug's rear face |
| PowerSupply.Colors | src/power_supply.tsx:16-21 | n successive calls give n colours |
| PowerSupply.PlainColors | src/power_supply.tsx:16-21 | outside debug mode every colour is dark grey and the counter stays put |
| PowerSupply.DebugColors | src/power_supply.tsx:16-21 | in debug mode call i gets hue 80 × (counter + i) and the counter advances once per call |
| PowerSupply.DebugColorsDistinct | src/power_supply.tsx:16-21 | in debug mode no two calls share a colour |
| PowerSupply.CableColors.constructor | src/power_supply.tsx:14-15 | the counter starts at 0 with the given debug switch |
| PowerSupply.CableColors.CableColor | src/power_supply.tsx:16-21 | one call returns the next colour and advances the counter exactly when debugging |
| PowerSupply.CableColors.PaintScene | src/power_supply.tsx:52-133 | one render asks for eight colours in scene order: the specification's eight colours and counter |
| PowerSupply.ShippedColors | src/power_supply.tsx:14-21 | as shipped, a render paints all eight parts dark grey and leaves the counter unchanged |
| SolarPanel.CellOutline | src/solar_panel.tsx:16-29 | the cell outline is a polyline of straight segments from one move |
| SolarPanel.Cell2D | src/solar_panel.tsx:16-29 | the drawn cell equals its outline specification |
| SolarPanel.CellIsOctagon | src/solar_panel.tsx:16-29 | the cell is an octagon of 8 distinct corners on the square's sides, cut `bevel` from each corner, and left open |
| SolarPanel.SceneCell | src/solar_panel.tsx:16-29 | the scene's cell fits `[0, 95]^2` |
| SolarPanel.CellAt | src/solar_panel.tsx:39-42 | the cell at grid place (x, y); `CellArray` builds the grid from it, and `CellOnPanel` and `CellsApart` place its cells |
| SolarPanel.CellArray | src/solar_panel.tsx:31-51 | the grid has columns × rows cells, and the i-th is column i / rows, row i % rows |
| SolarPanel.GridSize | src/solar_panel.tsx:33-35 | the grid is 5 by 10 |
| SolarPanel.CellOnPanel | src/solar_panel.tsx:39-42 | every cell's footprint lies on the panel and sits on its top face |
| SolarPanel.CellsApart | src/solar_panel.tsx:39-42 | distinct cells have distinct keys and footprints that do not overlap |
| SolarPanel.GridCells | src/solar_panel.tsx:37-42 | the grid's keys are pairwise distinct and every index is a cell of the grid |
| Packaging.KitWidthOfPresets | src/packaging.tsx:12-17 | the XL preset gets the 170-wide kit; Genesis, Jr and the initial configuration the 100-wide one |
| Packaging.Protectors | src/packaging.tsx:59-69 | the four edge protectors of a box; `ProtectorsOnEdges` places them |
| Packaging.Straps | src/packaging.tsx:53-58 | the straps of a box; `StrapsWrap` and `SceneStrapsInside` place them |
| Packaging.ProtectorsOnEdges | src/packaging.tsx:19-69 | the four protectors take distinct places, one on each long edge, each 1 outside the two faces it covers |
| Packaging.StrapsWrap | src/packaging.tsx:25-58 | each strap wraps its box 2 clear of every face, outside the protectors, and within the box's length |
| Packaging.SceneStrapsInside | src/packaging.tsx:53-83 | both boxes' straps lie within their box's length |
| Packaging.KitOnCarton | src/packaging.tsx:13-72 | the kit's bottom face is the carton's top face |
| Packaging.CartonOnGround | src/packaging.tsx:28-43 | the carton stands on the ground |
| Desk.DeskPosition | src/desk.tsx:31-36 | where the desk group stands; `DeskBeyondBed` states it |
| Desk.Legs | src/desk.tsx:45-60 | the four legs; `TopOnLegs` and `LegsAtCorners` place them |
| Desk.DeskBeyondBed | src/desk.tsx:29-36 | the desk stands 800 beyond the bed's far end, on the ground |
| Desk.LegsAtCorners | src/desk.tsx:46-50 | each leg is flush with the desktop's edges, the four are distinct, and they are symmetric in both axes |
| Desk.TopOnLegs | src/desk.tsx:41-58 | the legs reach from the ground to the desk height, and the top rests on them |
| Desk.LaptopOnDesk | src/desk.tsx:63-70 | the laptop stands on the desktop, within its edges |
| Desk.SceneLegs | src/desk.tsx:11-15 | the scene's legs are at (±225, ±475), narrower than the desk |
| Lab.WallStructure2D | src/lab.tsx:31-43 | the drawn wall profile equals its outline specification |
| Lab.WallLoop | src/lab.tsx:34-40 | the wall profile is a closed loop of seven points from the inside corner, within `[-t, L] x [-L, t]` |
| Lab.ShelvesOnWall | src/lab.tsx:67-78 | both shelves lie between floor and wall top, run the wall's full length, and stand out from its inner face |
| Lab.WallsPosition | src/lab.tsx:50-56 | where the walls' inside corner stands; `WallsAroundBed` states it |
| Lab.Shelves | src/lab.tsx:67-78 | the two shelves; `ShelvesOnWall` places them |
| Lab.WallsAroundBed | src/lab.tsx:50-56 | the walls' inside corner is 2000 out from the bed in both directions, on the ground |
| WaterTube.TubePoints | src/x_axis_water_tube.tsx:12-28 | the tube's five control points; `TubeEnds` and `TubeLeads` state them |
| WaterTube.TubeEnds | src/x_axis_water_tube.tsx:12-28 | the tube has five points from the carrier end to the barb, 20 above the ground, with the middle point half way between them |
| WaterTube.TubeLeads | src/x_axis_water_tube.tsx:22-28 | the tube leaves the carrier 100 along x and 10 down, and reaches the barb from 100 before it and 10 above it, level in y |
| WaterTube.AdapterAtTubeEnd | src/x_axis_water_tube.tsx:45-60 | the barb adapter ends and the base begins at the tube's end, both on its axis |
| FarmBotAxes.Origin | src/farmbot_axes.tsx:13-16 | where the axes start; `OriginAtZero` states it |
| FarmBotAxes.OriginAtZero | src/farmbot_axes.tsx:13-15 | the axes start at the bot's zero corner in x and y, shifted by the bed offsets, and 40 below `zZero` |
| FarmBotAxes.ThreeArrows | src/farmbot_axes.tsx:17-19 | three arrows, each 150 long and 15 wide, each turned a different way |
| UtilitiesPost.Post | src/utilities_post.tsx:27-39 | the post's box; `OutletOnPost` stands it on the ground |
| UtilitiesPost.Outlet | src/utilities_post.tsx:40-43 | the outlet's box; `OutletOnPost` and `PlugInOutlet` place it |
| UtilitiesPost.OutletOnPost | src/utilities_post.tsx:25-43 | the post stands on the ground and the outlet's back face lies against the post's face |
| UtilitiesPost.PlugInOutlet | src/utilities_post.tsx:29-43 | the plug's front face meets the outlet's front face at `L + 575 - legSize / 2` along the bed, centred across the outlet and inside its height |

## Left out

- Rendering is not modelled: React components and JSX, meshes, materials,
  textures, shadows, text labels, GLTF models, the sky, lighting, and
  `main.tsx`.
  - Only the numbers that place and size parts are kept.
  - `getColorFromBrightness` becomes a parameter where a colour matters.
- `gantry_wheel_plate.tsx` and `distance_indicator.tsx` are not part of
  this model. Nor are the SVG-loaded profiles, the sun position, the Y
  belt path, or any other trigonometry beyond right-angle turns.
- Curve interpolation is not modelled:
  - Each Bezier piece of the power cable is kept as its four control
    points.
  - The water tube is kept as its five Catmull-Rom points.
  - The points on the curves are not modelled.
- Window, URL and UI state become parameters:
  - the viewport width, which decides wide or narrow;
  - the active focus title;
  - the `zDir` sign used by the zoom foci.

  The URL query-string functions and the settings panel are not modelled.
- The random garden's `sampleSize` is random. Its draw is a parameter, not
  a random choice.
- The visibility switches only decide whether a group is drawn, so they
  are not modelled: `lab`, `people`, `packaging`, `utilitiesPost` and the
  like.
- The people billboards in the lab, the laptop's lid angle, keyboard and
  trackpad, and the solar panel's rotation are not modelled. They are
  drawing detail with no placement logic.
- A focus's JSX description is left out. Its `label` field is called
  `title`, because `label` is a Dafny keyword.
- Some things are represented differently:
  - A cell's key `${x}-${y}` is kept as the pair `(x, y)`.
  - An `hsl(...)` string is kept as a `Color` datatype.
- The bed profile's and the carrier profile's constants are parameters of
  their specification functions. The scene's values are fixed in lemmas.
- Lookups of `config` fields are total: a missing key reads as 0 or
  false. The source's record always has every field, and every lemma that
  needs a complete configuration says so with `IsConfig`.
- `modifyConfig` can be given a preset name that is neither a key of
  `PRESETS` nor a property every plain object inherits. The source then
  throws a TypeError when it reads a field of `undefined`; the model
  returns an error result instead.
- ConfigStore.ModifyConfig: a preset name that every object inherits
  ("constructor", "toString", "valueOf", "hasOwnProperty", "__proto__", and
  so on) is treated as unknown. In the source `PRESETS[name]` is then a
  function or an object, so no TypeError is raised: every field of the
  group is set to `undefined` and the update returns normally. The model
  has no `undefined` field value, so it reports these names as it reports
  any other unknown name. The configurator's own preset menus offer only
  the listed names.
- The garden layout's second and later unknown plant keys crash the same
  way: `Crashed` in the model.

### Where the code and its documented behaviour differ

The model follows the code in each case.

- **Bed-type pair.** The configurator is described as always keeping
  `bedZOffset` and `legsFlush` consistent with `bedType`. The code does
  not:
  - An update that sets the offset directly keeps it unless the same call
    re-derives the pair. So one update can give different offsets on two
    applications (`ConfigLaws.OffsetUpdateOnce`,
    `ConfigLaws.OffsetUpdateNotIdempotent`).
  - A size preset and "Mobile" in one update leave a Standard bed with the
    Mobile pair (`ConfigLaws.MobileWithSizePreset`).
- **Unknown preset names.** These are described as rejected. For a name
  that is not a property of a plain object, the code reads a field of
  `undefined` and throws.
- **Clamping.** Configuration values are described as clamped to their
  ranges. `modifyConfig` clamps nothing.
- **Unknown plant keys.** An unknown plant key is described as giving an
  empty layout. The code returns an empty layout only when the first key
  is unknown. A later unknown key crashes at `garden.tsx` lines 84-89
  (`GardenLaws.UnknownSecondKeyCrashes`).
- **Default garden.** The default garden value "Spring" is capitalised,
  but the garden keys are lower-case, so the default layout is empty
  (`GardenLaws.DefaultLayoutIsEmpty`).
- **Frame profile hole.** The hole is described as inset by the wall
  thickness on every side. In the code it is `[t, length] x [t, width]`
  inside `[0, length + 2t] x [0, width + 2t]`, so the margins are t and 2t
  (`Bed.HoleInside`).
