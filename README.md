# ShulkerBoxTooltip decision cores in Dafny

This project models the host-independent logic of ShulkerBoxTooltip, a
client-side Minecraft mod that adds an inventory preview and extra tooltip
lines to shulker boxes and other container items. The game engine is
replaced by plain inputs:
- the held modifier keys are booleans;
- the configuration is an immutable record;
- item stacks are `Empty | Item(id)`;
- NBT compounds are reduced to their keys' type ids and the size of their item list;
- tooltip text is a token per translation key;
- the tooltip box and the screen are integer geometry.

The two core files belong to different generations of the mod, so each is
its own module:

- `BlockEntityPreviewProvider` (block_entity_preview_provider.dfy) models the
  provider for items that store their contents in a container component. It
  covers the two constructors and the row-size rule, the padded inventory
  snapshot, the non-air count, `shouldDisplay`, `showTooltipHints`, the
  in-place `getItemListTooltip` and the `addTooltip` switch on loot-table
  verbosity.
- `ShulkerBoxTooltip` (shulker_box_tooltip.dfy) models the older
  orchestrator. It covers the preview-type decision table, the key-hint line,
  the legacy NBT tooltip, the lazily built item-to-provider registry (a class
  with its one mutable field), and the placement of the preview rectangle.
- `PreviewApi` (preview_api.dfy) holds what both share: the `PreviewType`
  enumeration, and `LineList`, a caller-owned mutable list that tooltip
  builders append to.
- `Wrappers` (wrappers.dfy) holds `Option`, which stands for Java's nullable
  references.

Three behaviours of the code are worth stating outright:

- When several providers claim one item, the last one in entry-point order
  wins, because the registry uses `Map.put`, which overwrites
  (`RegistryLastClaimWins`).
- With Shift held and `alwaysOn` off, the preview is already displayed, so
  the hint reads `Alt+Shift`, not `Shift` (`ThreeItemsWithShiftScenario`).
- The hint is dropped whenever a preview is shown and Alt is held, whatever
  `alwaysOn` and `swapModes` are (`TooltipHint`).

One observation about the hint. While Alt is not held, the hint always names
the preview that its keys lead to (`HintNamesThePreviewItLeadsTo`). If Alt is
held alone with no preview requested, it names the other one: with
`swapModes` off the hint reads "Shift: viewContents" while pressing Shift
opens the full preview, and with `swapModes` on the two labels are mirrored
("Shift: viewFullContents", and Shift opens the compact preview)
(`HintWithAltHeldAlone`).

## Model

| member | source | states |
|---|---|---|
| BlockEntityPreviewProvider.NewProvider | common/src/main/java/com/misterpemodder/shulkerboxtooltip/api/provider/BlockEntityPreviewProvider.java:72-76 | the two-argument constructor always gives a row size of 9 (so at least 1); the loot flag and the inventory size are the arguments |
| BlockEntityPreviewProvider.NewProviderWithRowSize | common/src/main/java/com/misterpemodder/shulkerboxtooltip/api/provider/BlockEntityPreviewProvider.java:92-96 | the row size is 9 when the given one is 0 or less, the given one otherwise, so always at least 1 |
| BlockEntityPreviewProvider.MaxRowSizeOfConstructed | common/src/main/java/com/misterpemodder/shulkerboxtooltip/api/provider/BlockEntityPreviewProvider.java:181-184 | `getMaxRowSize` returns 9 for the two-argument constructor, and for the three-argument one the given size when positive and 9 otherwise, so never less than 1 |
| BlockEntityPreviewProvider.InventoryMaxSizeIsTheSnapshotLength | common/src/main/java/com/misterpemodder/shulkerboxtooltip/api/provider/BlockEntityPreviewProvider.java:123-126 | `getInventoryMaxSize` is the constructor's size whatever the context, and it is the length of the inventory snapshot |
| BlockEntityPreviewProvider.CanUseLootTablesGatesLootData | common/src/main/java/com/misterpemodder/shulkerboxtooltip/api/provider/BlockEntityPreviewProvider.java:191-193 | when `canUseLootTables` is false, loot data on the stack changes neither `shouldDisplay` nor `addTooltip` |
| BlockEntityPreviewProvider.ItemCount | common/src/main/java/com/misterpemodder/shulkerboxtooltip/api/provider/BlockEntityPreviewProvider.java:195-203 | a null list counts 0; otherwise the count is at most the list's length and is 0 iff every entry is air |
| BlockEntityPreviewProvider.CountNonEmpty | common/src/main/java/com/misterpemodder/shulkerboxtooltip/api/provider/BlockEntityPreviewProvider.java:195-203 | the non-air count is at most the list length; it is 0 iff every slot is air, and equals the length iff no slot is air |
| BlockEntityPreviewProvider.CountNonEmptyIsNonAirMultiplicity | common/src/main/java/com/misterpemodder/shulkerboxtooltip/api/provider/BlockEntityPreviewProvider.java:195-203 | independent reference: the count is the length minus the multiplicity of the air stack |
| BlockEntityPreviewProvider.GetItemCount | common/src/main/java/com/misterpemodder/shulkerboxtooltip/api/provider/BlockEntityPreviewProvider.java:195-203 | the counting loop returns 0 for a null list and otherwise the non-air count, which is at most the list's length |
| BlockEntityPreviewProvider.Inventory | common/src/main/java/com/misterpemodder/shulkerboxtooltip/api/provider/BlockEntityPreviewProvider.java:111-126 | the snapshot has exactly `getInventoryMaxSize` slots; every slot is empty when the registry lookup or the container component is missing, otherwise slot i holds the i-th stored stack if there is one, else empty |
| BlockEntityPreviewProvider.CopyTo | common/src/main/java/com/misterpemodder/shulkerboxtooltip/api/provider/BlockEntityPreviewProvider.java:117-118 | writing the container into the array in place keeps its length, puts the stored stacks into the slots they fit in, and leaves the other slots untouched |
| BlockEntityPreviewProvider.GetInventory | common/src/main/java/com/misterpemodder/shulkerboxtooltip/api/provider/BlockEntityPreviewProvider.java:111-121 | allocating the padded array and filling it in place yields exactly the snapshot `Inventory` describes, of length `getInventoryMaxSize` |
| BlockEntityPreviewProvider.InventoryCount | common/src/main/java/com/misterpemodder/shulkerboxtooltip/api/provider/BlockEntityPreviewProvider.java:111-121 | the snapshot's non-air count is 0 without a readable container, and otherwise equals that of the stored stacks that fit in the snapshot |
| BlockEntityPreviewProvider.ShouldDisplay | common/src/main/java/com/misterpemodder/shulkerboxtooltip/api/provider/BlockEntityPreviewProvider.java:99-103 | false whenever loot hiding is on and the stack has loot data, even with items present; otherwise true iff some slot of the snapshot is not air |
| BlockEntityPreviewProvider.ShowTooltipHints | common/src/main/java/com/misterpemodder/shulkerboxtooltip/api/provider/BlockEntityPreviewProvider.java:106-108 | hints are shown iff the stack carries a container component |
| BlockEntityPreviewProvider.GetItemListTooltip | common/src/main/java/com/misterpemodder/shulkerboxtooltip/api/provider/BlockEntityPreviewProvider.java:169-179 | appends exactly one line to the caller's list, leaving earlier lines unchanged; the line is contains(N) when N > 0 and empty otherwise; returns the same list object |
| BlockEntityPreviewProvider.GetItemCountTooltip | common/src/main/java/com/misterpemodder/shulkerboxtooltip/api/provider/BlockEntityPreviewProvider.java:156-158 | the same single count line appended to the same list, returned |
| BlockEntityPreviewProvider.AddTooltip | common/src/main/java/com/misterpemodder/shulkerboxtooltip/api/provider/BlockEntityPreviewProvider.java:129-146 | in the loot case, 0 lines (HIDE), 1 line (SIMPLE) or 2 lines (otherwise) and never a count line; outside it, no lines under a FULL preview and exactly one count line in every other mode |
| BlockEntityPreviewProvider.CountLineAgreesWithShouldDisplay | common/src/main/java/com/misterpemodder/shulkerboxtooltip/api/provider/BlockEntityPreviewProvider.java:143-145 | outside the loot case and under a non-FULL preview, the line says "contains" iff `shouldDisplay` holds, its count is the number of non-air slots, and it says "empty" iff all slots are air |
| BlockEntityPreviewProvider.SimpleLootTableScenario | common/src/main/java/com/misterpemodder/shulkerboxtooltip/api/provider/BlockEntityPreviewProvider.java:134-137 | with loot hiding, loot data and SIMPLE verbosity, the tooltip is the single generic loot line and no preview is shown |
| BlockEntityPreviewProvider.AdvancedLootTableNamesTable | common/src/main/java/com/misterpemodder/shulkerboxtooltip/api/provider/BlockEntityPreviewProvider.java:138-140 | the advanced verbosity gives the advanced header, then the loot table's identifier preceded by a space |
| ShulkerBoxTooltip.CurrentPreviewType | src/main/java/com/misterpemodder/shulkerboxtooltip/impl/ShulkerBoxTooltip.java:108-117 | NO_PREVIEW iff neither `alwaysOn` nor Shift; otherwise FULL iff Alt differs from `swapModes`, COMPACT iff they agree |
| ShulkerBoxTooltip.ShouldDisplayPreviewIffSomePreview | src/main/java/com/misterpemodder/shulkerboxtooltip/impl/ShulkerBoxTooltip.java:85-87 | `ShouldDisplayPreview` (`shouldDisplayPreview`: always on, or Shift) holds exactly when the preview type is not NO_PREVIEW |
| ShulkerBoxTooltip.SwapModesExchangesPreviews | src/main/java/com/misterpemodder/shulkerboxtooltip/impl/ShulkerBoxTooltip.java:109-115 | flipping `swapModes` exchanges FULL and COMPACT and keeps NO_PREVIEW |
| ShulkerBoxTooltip.PreviewTypeDecisionTable | src/main/java/com/misterpemodder/shulkerboxtooltip/impl/ShulkerBoxTooltip.java:108-117 | without `alwaysOn`: no modifier or Alt alone gives no preview, Shift gives COMPACT and Shift+Alt FULL, both exchanged by `swapModes` |
| ShulkerBoxTooltip.TooltipHint | src/main/java/com/misterpemodder/shulkerboxtooltip/impl/ShulkerBoxTooltip.java:90-103 | no hint iff previews are disabled or a preview is displayed while Alt is down; the key label (`KeyHint`, lines 93-94) is "Alt" when displayed and always on, "Alt+Shift" when displayed otherwise, and "Shift" when not displayed; the action is "viewContents" iff (type is NO_PREVIEW) differs from `swapModes` |
| ShulkerBoxTooltip.HintNamesThePreviewItLeadsTo | src/main/java/com/misterpemodder/shulkerboxtooltip/impl/ShulkerBoxTooltip.java:93-99 | with Alt not held, pressing the advertised keys yields a preview, and exactly the preview the action label names |
| ShulkerBoxTooltip.HintWithAltHeldAlone | src/main/java/com/misterpemodder/shulkerboxtooltip/impl/ShulkerBoxTooltip.java:91-99 | with Alt held alone and no preview requested, the hint names the preview Shift does not open: with `swapModes` off it reads "Shift: viewContents" while Shift opens FULL; with it on the labels are mirrored ("viewFullContents", and Shift opens COMPACT) |
| ShulkerBoxTooltip.HasShulkerBoxPreview | src/main/java/com/misterpemodder/shulkerboxtooltip/impl/ShulkerBoxTooltip.java:126-129 | a preview is drawn only with previews enabled and a preview type other than NO_PREVIEW; exactly when also the item's block is a shulker box |
| ShulkerBoxTooltip.LegacyTooltipLines | src/main/java/com/misterpemodder/shulkerboxtooltip/impl/ShulkerBoxTooltip.java:64-81 | the legacy tooltip adds at most two lines |
| ShulkerBoxTooltip.LegacyTooltipCases | src/main/java/com/misterpemodder/shulkerboxtooltip/impl/ShulkerBoxTooltip.java:64-81 | a null compound gives one empty line; a string `LootTable` gives the `???????` line whatever the items; a non-empty compound `Items` list gives contains(size) then a hint line iff there is a hint; an empty list gives one empty line; neither key gives nothing |
| ShulkerBoxTooltip.LegacyTooltipLineOrder | src/main/java/com/misterpemodder/shulkerboxtooltip/impl/ShulkerBoxTooltip.java:64-81 | a count line only comes first, with a positive count and no loot table; a hint line only comes second, after a count line, and only with previews enabled |
| ShulkerBoxTooltip.BuildShulkerBoxTooltip | src/main/java/com/misterpemodder/shulkerboxtooltip/impl/ShulkerBoxTooltip.java:57-83 | returns false exactly for VANILLA; leaves the list unchanged for NONE and VANILLA; otherwise appends exactly the legacy lines to the caller's list |
| ShulkerBoxTooltip.EmptyBoxScenario | src/main/java/com/misterpemodder/shulkerboxtooltip/impl/ShulkerBoxTooltip.java:64-80 | an empty box with no keys held and `alwaysOn` off shows only the empty line, gets NO_PREVIEW, and no preview is drawn |
| ShulkerBoxTooltip.ThreeItemsWithShiftScenario | src/main/java/com/misterpemodder/shulkerboxtooltip/impl/ShulkerBoxTooltip.java:69-76 | three items with Shift held and no swap: COMPACT preview, and the lines contains(3) and "Alt+Shift: viewFullContents" |
| ShulkerBoxTooltip.AddClaimsLookup | src/main/java/com/misterpemodder/shulkerboxtooltip/impl/ShulkerBoxTooltip.java:137-142 | registering one provider's identifiers adds exactly the items they resolve to, maps each to that provider, and keeps the other entries |
| ShulkerBoxTooltip.RegistryLastClaimWins | src/main/java/com/misterpemodder/shulkerboxtooltip/impl/ShulkerBoxTooltip.java:132-145 | the registry holds exactly the items some provider claims through a resolvable identifier, each mapped to the last claiming provider in entry-point order |
| ShulkerBoxTooltip.RegistryOnlyResolvedItems | src/main/java/com/misterpemodder/shulkerboxtooltip/impl/ShulkerBoxTooltip.java:138-141 | every registered item is what the item registry resolved some identifier to |
| ShulkerBoxTooltip.ProviderRegistry.constructor | src/main/java/com/misterpemodder/shulkerboxtooltip/impl/ShulkerBoxTooltip.java:40 | the registry starts unbuilt |
| ShulkerBoxTooltip.ProviderRegistry.GetPreviewProviderForStack | src/main/java/com/misterpemodder/shulkerboxtooltip/impl/ShulkerBoxTooltip.java:131-146 | the nested loops build the registry of `BuildRegistry` on the first call only; later calls keep it unchanged; the result is the entry for the stack's item, or none |
| ShulkerBoxTooltip.PlacePreview | src/main/java/com/misterpemodder/shulkerboxtooltip/impl/ShulkerBoxTooltip.java:157-162 | x is the smaller of `startX - 1` and `screenWidth - w`, so it exceeds neither; the preview sits just above the tooltip when locked or when it would overflow the bottom, and otherwise just below it, fitting on screen |
| ShulkerBoxTooltip.DrawShulkerBoxPreview | src/main/java/com/misterpemodder/shulkerboxtooltip/impl/ShulkerBoxTooltip.java:148-164 | nothing is drawn without a provider; otherwise the provider's renderer (or the default one when it has none) draws the current preview type at the placement above |

## Left out

- Drawing itself is not modelled. This covers `renderer.draw`, `setPreview`, the default renderer, and how a renderer computes its width and height. `DrawShulkerBoxPreview` takes the width and height as inputs and returns what it would hand to `draw`.
- `onInitializeClient` is not modelled: AutoConfig registration and the legacy configuration update are configuration persistence. The configuration is a value passed in.
- Host calls are inputs:
  - the entry-point providers are a sequence;
  - `Registry.ITEM.get` is a partial map;
  - the Shift and Alt states are `Keys`;
  - the shulker-box block test is a boolean;
  - the provider generation's `getCurrentPreviewType(isFullPreviewAvailable)` is a preview-type parameter.
- `isFullPreviewAvailable` and per-context overrides in provider subclasses are not part of this model: polymorphic dispatch is left out, and the functions model the base class.
- CopyTo: the contents of `ContainerComponent.copyTo` are not part of this model. It is modelled as a prefix overlay: slot i takes the i-th stored stack when there is one, and the length is kept.
- BlockEntityPreviewProvider.Inventory, BlockEntityPreviewProvider.NewProvider, BlockEntityPreviewProvider.NewProviderWithRowSize: `maxInvSize` is a `nat`, so the constructors do not accept the negative sizes the Java constructors take. Given a negative size, `DefaultedList.ofSize` would throw instead of returning a list.
- PlacePreview: coordinates are unbounded integers. Java's 32-bit overflow in `startX - 1`, `width - w`, `bottomY + 1`, `y + h` and `topY - h` is not modelled, because screen coordinates are small.
- NBT is reduced to each key's type id and the size of the compound list `getList("Items", 10)` returns. The "any numeric type" wildcard of `containsKey` is not used by this code and is not modelled.
- The unused `stack` parameter of `buildShulkerBoxTooltip` is not modelled.
- Text styling, colours and translation are not modelled: each line is a token.
- Logging is not modelled.
