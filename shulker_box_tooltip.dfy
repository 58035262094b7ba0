/**
 * The client-side orchestrator of the mod's older code generation: the
 * preview type chosen from the modifier keys and the configuration, the
 * key-hint line, the legacy NBT-based tooltip, the lazily built
 * item-to-provider registry and the placement of the preview rectangle.
 *
 * The engine is abstracted away: key state, configuration, the item
 * registry, the providers contributed through entry points and the screen
 * geometry are all inputs.
 */
module ShulkerBoxTooltip {
  import opened Wrappers
  import opened PreviewApi

  // ---------------------------------------------------------------------
  // Inputs

  /** The configured tooltip type: none at all, the vanilla tooltip, or the mod's own. */
  datatype TooltipType = TooltipNone | TooltipVanilla | TooltipMod

  /** The `main` section of the configuration, read-only during a frame. */
  datatype MainConfig = MainConfig(
    tooltipType: TooltipType,
    alwaysOn: bool,
    swapModes: bool,
    lockPreview: bool,
    enablePreview: bool)

  /** The modifier keys held down this frame. */
  datatype Keys = Keys(shift: bool, alt: bool)

  /** A key-hint line: the key combination and the translation suffix of the action. */
  datatype Hint = Hint(keyHint: string, contentHint: string)

  /**
   * Tooltip lines: "container.shulkerbox.empty", "container.shulkerbox.contains"
   * with a count, a literal text, and a key hint.
   */
  datatype Component = EmptyLine | ContainsLine(count: nat) | Literal(text: string) | HintLine(hint: Hint)

  /**
   * An NBT tag, reduced to its type id and, for a list, the size of the
   * compound list `getList(key, 10)` yields from it.
   */
  datatype Tag = Tag(typeId: int, compoundListSize: nat)

  /** An NBT compound, reduced to its keys and their tags. */
  datatype Compound = Compound(entries: map<string, Tag>)

  const StringTagType := 8
  const ListTagType := 9
  const UnknownLootText := "???????"

  predicate ContainsKey(c: Compound, key: string, typeId: int)
  {
    key in c.entries && c.entries[key].typeId == typeId
  }

  // ---------------------------------------------------------------------
  // Preview type and key hint

  /** The preview is requested when it is always on or when Shift is held. */
  predicate ShouldDisplayPreview(cfg: MainConfig, keys: Keys)
  {
    cfg.alwaysOn || keys.shift
  }

  /**
   * `getCurrentPreviewType`: no preview unless requested; then Alt selects
   * the full preview and its absence the compact one, which `swapModes`
   * exchanges.
   */
  function CurrentPreviewType(cfg: MainConfig, keys: Keys): (t: PreviewType)
    ensures t == NoPreview <==> !cfg.alwaysOn && !keys.shift
    ensures t == Full <==> (cfg.alwaysOn || keys.shift) && keys.alt != cfg.swapModes
    ensures t == Compact <==> (cfg.alwaysOn || keys.shift) && keys.alt == cfg.swapModes
  {
    if cfg.swapModes then
      if ShouldDisplayPreview(cfg, keys) then (if keys.alt then Compact else Full) else NoPreview
    else
      if ShouldDisplayPreview(cfg, keys) then (if keys.alt then Full else Compact) else NoPreview
  }

  /** Exchanges the compact and full previews. */
  function Swapped(t: PreviewType): PreviewType
  {
    match t
    case NoPreview => NoPreview
    case Compact => Full
    case Full => Compact
  }

  /** A preview is displayed exactly when one is requested. */
  lemma ShouldDisplayPreviewIffSomePreview(cfg: MainConfig, keys: Keys)
    ensures ShouldDisplayPreview(cfg, keys) <==> CurrentPreviewType(cfg, keys) != NoPreview
  {
  }

  /** Setting `swapModes` exchanges the compact and full outcomes and nothing else. */
  lemma SwapModesExchangesPreviews(cfg: MainConfig, keys: Keys)
    ensures CurrentPreviewType(cfg.(swapModes := !cfg.swapModes), keys) == Swapped(CurrentPreviewType(cfg, keys))
  {
  }

  /** The decision table without `alwaysOn`, for the four key combinations and both values of `swapModes`. */
  lemma PreviewTypeDecisionTable(cfg: MainConfig)
    requires !cfg.alwaysOn
    ensures CurrentPreviewType(cfg, Keys(false, false)) == NoPreview
    ensures CurrentPreviewType(cfg, Keys(false, true)) == NoPreview
    ensures CurrentPreviewType(cfg, Keys(true, false)) == if cfg.swapModes then Full else Compact
    ensures CurrentPreviewType(cfg, Keys(true, true)) == if cfg.swapModes then Compact else Full
  {
  }

  /** The key label `getTooltipHint` advertises for the current state. */
  function KeyHint(cfg: MainConfig, keys: Keys): string
  {
    if ShouldDisplayPreview(cfg, keys) then (if cfg.alwaysOn then "Alt" else "Alt+Shift") else "Shift"
  }

  /**
   * `getTooltipHint`: no hint when previews are disabled or when the
   * preview is shown with Alt held; otherwise the keys to press and whether
   * they lead to the contents or to the full contents.
   */
  function TooltipHint(cfg: MainConfig, keys: Keys): (h: Option<Hint>)
    ensures h.None? <==> !cfg.enablePreview || (ShouldDisplayPreview(cfg, keys) && keys.alt)
    ensures h.Some? && !ShouldDisplayPreview(cfg, keys) ==> h.value.keyHint == "Shift"
    ensures h.Some? && ShouldDisplayPreview(cfg, keys) && cfg.alwaysOn ==> h.value.keyHint == "Alt"
    ensures h.Some? && ShouldDisplayPreview(cfg, keys) && !cfg.alwaysOn ==> h.value.keyHint == "Alt+Shift"
    ensures h.Some? ==>
      (h.value.contentHint == "viewContents" <==> (CurrentPreviewType(cfg, keys) == NoPreview) != cfg.swapModes)
    ensures h.Some? ==>
      (h.value.contentHint == "viewFullContents" <==> (CurrentPreviewType(cfg, keys) == NoPreview) == cfg.swapModes)
  {
    if !cfg.enablePreview || (ShouldDisplayPreview(cfg, keys) && keys.alt) then None
    else
      var contentHint :=
        if CurrentPreviewType(cfg, keys) == NoPreview then
          (if cfg.swapModes then "viewFullContents" else "viewContents")
        else
          (if cfg.swapModes then "viewContents" else "viewFullContents");
      Some(Hint(KeyHint(cfg, keys), contentHint))
  }

  /** The keys held after also pressing the advertised combination. */
  function Press(keys: Keys, keyHint: string): Keys
  {
    if keyHint == "Shift" then keys.(shift := true)
    else if keyHint == "Alt" then keys.(alt := true)
    else keys.(shift := true, alt := true)
  }

  /** The action suffix that names a displayed preview type. */
  function ContentHintOf(t: PreviewType): string
  {
    if t == Full then "viewFullContents" else "viewContents"
  }

  /**
   * While Alt is not held, the hint keeps its promise: pressing the keys it
   * names yields a preview, and the preview it names.
   */
  lemma HintNamesThePreviewItLeadsTo(cfg: MainConfig, keys: Keys)
    requires TooltipHint(cfg, keys).Some? && !keys.alt
    ensures var h := TooltipHint(cfg, keys).value;
      CurrentPreviewType(cfg, Press(keys, h.keyHint)) != NoPreview &&
      ContentHintOf(CurrentPreviewType(cfg, Press(keys, h.keyHint))) == h.contentHint
  {
  }

  /**
   * With Alt held alone and no preview requested, the hint names the other
   * preview than the one Shift brings up: with `swapModes` off it says
   * "Shift: viewContents" and Shift gives the full preview; with it on the
   * two labels are mirrored.
   */
  lemma HintWithAltHeldAlone(cfg: MainConfig)
    requires cfg.enablePreview && !cfg.alwaysOn
    ensures !cfg.swapModes ==> TooltipHint(cfg, Keys(false, true)) == Some(Hint("Shift", "viewContents"))
    ensures !cfg.swapModes ==> CurrentPreviewType(cfg, Press(Keys(false, true), "Shift")) == Full
    ensures cfg.swapModes ==> TooltipHint(cfg, Keys(false, true)) == Some(Hint("Shift", "viewFullContents"))
    ensures cfg.swapModes ==> CurrentPreviewType(cfg, Press(Keys(false, true), "Shift")) == Compact
    ensures ContentHintOf(CurrentPreviewType(cfg, Press(Keys(false, true), "Shift")))
            != TooltipHint(cfg, Keys(false, true)).value.contentHint
  {
  }

  /** `hasShulkerBoxPreview`: previews enabled, one requested, and the item is a shulker box. */
  function HasShulkerBoxPreview(cfg: MainConfig, keys: Keys, isShulkerBox: bool): (r: bool)
    ensures r ==> cfg.enablePreview && CurrentPreviewType(cfg, keys) != NoPreview
    ensures r <==> cfg.enablePreview && (cfg.alwaysOn || keys.shift) && isShulkerBox
  {
    cfg.enablePreview && CurrentPreviewType(cfg, keys) != NoPreview && isShulkerBox
  }

  // ---------------------------------------------------------------------
  // The legacy tooltip

  /** The lines the legacy tooltip adds for the stack's NBT compound. */
  function LegacyTooltipLines(cfg: MainConfig, keys: Keys, compound: Option<Compound>): (lines: seq<Component>)
    ensures |lines| <= 2
  {
    match compound
    case None => [EmptyLine]
    case Some(c) =>
      if ContainsKey(c, "LootTable", StringTagType) then [Literal(UnknownLootText)]
      else if ContainsKey(c, "Items", ListTagType) then
        var n := c.entries["Items"].compoundListSize;
        if n > 0 then
          [ContainsLine(n)] + match TooltipHint(cfg, keys) case None => [] case Some(h) => [HintLine(h)]
        else [EmptyLine]
      else []
  }

  /** The cases of the legacy tooltip, one per shape of the compound. */
  lemma LegacyTooltipCases(cfg: MainConfig, keys: Keys, compound: Option<Compound>)
    ensures compound.None? ==> LegacyTooltipLines(cfg, keys, compound) == [EmptyLine]
    ensures compound.Some? && ContainsKey(compound.value, "LootTable", StringTagType) ==>
      LegacyTooltipLines(cfg, keys, compound) == [Literal(UnknownLootText)]
    ensures compound.Some? && !ContainsKey(compound.value, "LootTable", StringTagType)
            && !ContainsKey(compound.value, "Items", ListTagType) ==>
      LegacyTooltipLines(cfg, keys, compound) == []
    ensures compound.Some? && !ContainsKey(compound.value, "LootTable", StringTagType)
            && ContainsKey(compound.value, "Items", ListTagType)
            && compound.value.entries["Items"].compoundListSize == 0 ==>
      LegacyTooltipLines(cfg, keys, compound) == [EmptyLine]
    ensures compound.Some? && !ContainsKey(compound.value, "LootTable", StringTagType)
            && ContainsKey(compound.value, "Items", ListTagType)
            && compound.value.entries["Items"].compoundListSize > 0 ==>
      var lines := LegacyTooltipLines(cfg, keys, compound);
      && lines[0] == ContainsLine(compound.value.entries["Items"].compoundListSize)
      && (|lines| == 2 <==> TooltipHint(cfg, keys).Some?)
      && (|lines| == 2 ==> lines[1] == HintLine(TooltipHint(cfg, keys).value))
  {
  }

  /**
   * A count line appears only first, only for a non-empty item list without
   * a loot table, and a hint line only right after it.
   */
  lemma LegacyTooltipLineOrder(cfg: MainConfig, keys: Keys, compound: Option<Compound>)
    ensures var lines := LegacyTooltipLines(cfg, keys, compound);
      forall i :: 0 <= i < |lines| ==>
        (lines[i].ContainsLine? ==>
           i == 0 && lines[i].count > 0 && compound.Some? && !ContainsKey(compound.value, "LootTable", StringTagType)) &&
        (lines[i].HintLine? ==> i == 1 && lines[0].ContainsLine? && cfg.enablePreview)
  {
  }

  /**
   * `buildShulkerBoxTooltip`: leaves the vanilla tooltip in charge for
   * VANILLA, adds nothing for NONE, and appends the legacy lines otherwise.
   */
  method BuildShulkerBoxTooltip(cfg: MainConfig, keys: Keys, tooltip: LineList<Component>, compound: Option<Compound>)
    returns (cancelVanilla: bool)
    modifies tooltip
    ensures cancelVanilla <==> cfg.tooltipType != TooltipVanilla
    ensures cfg.tooltipType != TooltipMod ==> tooltip.lines == old(tooltip.lines)
    ensures cfg.tooltipType == TooltipMod ==>
      tooltip.lines == old(tooltip.lines) + LegacyTooltipLines(cfg, keys, compound)
  {
    if cfg.tooltipType == TooltipNone {
      return true;
    }
    if cfg.tooltipType == TooltipVanilla {
      return false;
    }
    if compound.None? {
      tooltip.Add(EmptyLine);
    } else if ContainsKey(compound.value, "LootTable", StringTagType) {
      tooltip.Add(Literal(UnknownLootText));
    } else if ContainsKey(compound.value, "Items", ListTagType) {
      var size := compound.value.entries["Items"].compoundListSize;
      if size > 0 {
        tooltip.Add(ContainsLine(size));
        var hint := TooltipHint(cfg, keys);
        if hint.Some? {
          tooltip.Add(HintLine(hint.value));
        }
      } else {
        tooltip.Add(EmptyLine);
      }
    }
    return true;
  }

  /** An empty box with no keys held: only the "empty" line, and no preview. */
  lemma EmptyBoxScenario(cfg: MainConfig, compound: Option<Compound>)
    requires cfg.enablePreview && !cfg.alwaysOn
    requires compound.None? ||
      (!ContainsKey(compound.value, "LootTable", StringTagType) && ContainsKey(compound.value, "Items", ListTagType)
       && compound.value.entries["Items"].compoundListSize == 0)
    ensures LegacyTooltipLines(cfg, Keys(false, false), compound) == [EmptyLine]
    ensures CurrentPreviewType(cfg, Keys(false, false)) == NoPreview
    ensures !HasShulkerBoxPreview(cfg, Keys(false, false), true)
  {
  }

  /** Three items with Shift held: the compact preview, the count, and the hint for the full one. */
  lemma ThreeItemsWithShiftScenario(cfg: MainConfig, compound: Compound)
    requires cfg.enablePreview && !cfg.alwaysOn && !cfg.swapModes
    requires !ContainsKey(compound, "LootTable", StringTagType) && ContainsKey(compound, "Items", ListTagType)
    requires compound.entries["Items"].compoundListSize == 3
    ensures CurrentPreviewType(cfg, Keys(true, false)) == Compact
    ensures LegacyTooltipLines(cfg, Keys(true, false), Some(compound)) ==
      [ContainsLine(3), HintLine(Hint("Alt+Shift", "viewFullContents"))]
  {
  }

  // ---------------------------------------------------------------------
  // The provider registry

  type Identifier = string
  type Item = string

  /** A preview renderer: the default one, or one a provider supplies. */
  datatype Renderer = DefaultPreviewRenderer | CustomRenderer(name: string)

  /** A provider contributed through the mod's entry point. */
  datatype PreviewProvider = PreviewProvider(name: string, previewItemIds: seq<Identifier>, renderer: Option<Renderer>)

  /** The registry after registering `p` for the (resolvable) identifiers of `ids`, in order. */
  function AddClaims(m: map<Item, PreviewProvider>, p: PreviewProvider, ids: seq<Identifier>,
                     itemRegistry: map<Identifier, Item>): map<Item, PreviewProvider>
    decreases |ids|
  {
    if ids == [] then m
    else
      var m' := AddClaims(m, p, ids[..|ids| - 1], itemRegistry);
      var id := ids[|ids| - 1];
      if id in itemRegistry then m'[itemRegistry[id] := p] else m'
  }

  /** The registry after registering every provider, in entry-point order. */
  function BuildRegistry(providers: seq<PreviewProvider>, itemRegistry: map<Identifier, Item>): map<Item, PreviewProvider>
  {
    if providers == [] then map[]
    else
      var last := providers[|providers| - 1];
      AddClaims(BuildRegistry(providers[..|providers| - 1], itemRegistry), last, last.previewItemIds, itemRegistry)
  }

  /** Some identifier of `ids` resolves to `item`. */
  ghost predicate Claims(ids: seq<Identifier>, itemRegistry: map<Identifier, Item>, item: Item)
  {
    exists j :: 0 <= j < |ids| && ids[j] in itemRegistry && itemRegistry[ids[j]] == item
  }

  lemma {:induction false} AddClaimsLookup(m: map<Item, PreviewProvider>, p: PreviewProvider, ids: seq<Identifier>,
                                           itemRegistry: map<Identifier, Item>, item: Item)
    ensures item in AddClaims(m, p, ids, itemRegistry) <==> item in m || Claims(ids, itemRegistry, item)
    ensures Claims(ids, itemRegistry, item) ==> AddClaims(m, p, ids, itemRegistry)[item] == p
    ensures !Claims(ids, itemRegistry, item) && item in m ==> AddClaims(m, p, ids, itemRegistry)[item] == m[item]
    decreases |ids|
  {
    if ids != [] {
      var prefix, id := ids[..|ids| - 1], ids[|ids| - 1];
      AddClaimsLookup(m, p, prefix, itemRegistry, item);
      var hit := id in itemRegistry && itemRegistry[id] == item;
      if Claims(prefix, itemRegistry, item) {
        var j :| 0 <= j < |prefix| && prefix[j] in itemRegistry && itemRegistry[prefix[j]] == item;
        assert ids[j] == prefix[j];
      }
      if hit {
        assert ids[|ids| - 1] == id;
      }
      if Claims(ids, itemRegistry, item) && !hit {
        var j :| 0 <= j < |ids| && ids[j] in itemRegistry && itemRegistry[ids[j]] == item;
        assert j < |prefix| && prefix[j] == ids[j];
      }
    }
  }

  /**
   * The registry holds exactly the items some provider claims through a
   * resolvable identifier, and each is mapped to the LAST provider that
   * claims it.
   */
  lemma {:induction false} RegistryLastClaimWins(providers: seq<PreviewProvider>, itemRegistry: map<Identifier, Item>, item: Item)
    ensures item in BuildRegistry(providers, itemRegistry) <==>
      exists k :: 0 <= k < |providers| && Claims(providers[k].previewItemIds, itemRegistry, item)
    ensures item in BuildRegistry(providers, itemRegistry) ==>
      exists k :: 0 <= k < |providers| && Claims(providers[k].previewItemIds, itemRegistry, item)
        && BuildRegistry(providers, itemRegistry)[item] == providers[k]
        && forall k' :: k < k' < |providers| ==> !Claims(providers[k'].previewItemIds, itemRegistry, item)
  {
    if providers != [] {
      var n := |providers| - 1;
      var prefix, last := providers[..n], providers[n];
      var before := BuildRegistry(prefix, itemRegistry);
      RegistryLastClaimWins(prefix, itemRegistry, item);
      AddClaimsLookup(before, last, last.previewItemIds, itemRegistry, item);
      forall k | 0 <= k < n ensures providers[k] == prefix[k] { }
      if item in BuildRegistry(providers, itemRegistry) && !Claims(last.previewItemIds, itemRegistry, item) {
        var k :| 0 <= k < n && Claims(prefix[k].previewItemIds, itemRegistry, item)
          && before[item] == prefix[k]
          && forall k' :: k < k' < n ==> !Claims(prefix[k'].previewItemIds, itemRegistry, item);
        assert providers[k] == prefix[k];
      }
    }
  }

  /** Every registered item is the resolution of some identifier. */
  lemma RegistryOnlyResolvedItems(providers: seq<PreviewProvider>, itemRegistry: map<Identifier, Item>, item: Item)
    requires item in BuildRegistry(providers, itemRegistry)
    ensures item in itemRegistry.Values
  {
    RegistryLastClaimWins(providers, itemRegistry, item);
    var k :| 0 <= k < |providers| && Claims(providers[k].previewItemIds, itemRegistry, item);
    var ids := providers[k].previewItemIds;
    var j :| 0 <= j < |ids| && ids[j] in itemRegistry && itemRegistry[ids[j]] == item;
  }

  /** The mod's static `previewItems` field: absent until first needed, then built once. */
  class ProviderRegistry {
    var previewItems: Option<map<Item, PreviewProvider>>

    constructor ()
      ensures previewItems == None
    {
      previewItems := None;
    }

    /**
     * `getPreviewProviderForStack`: builds the registry on first use from
     * the entry-point providers and the item registry, then looks the item up.
     */
    method GetPreviewProviderForStack(item: Item, providers: seq<PreviewProvider>, itemRegistry: map<Identifier, Item>)
      returns (provider: Option<PreviewProvider>)
      modifies this
      ensures old(previewItems).Some? ==> previewItems == old(previewItems)
      ensures old(previewItems).None? ==> previewItems == Some(BuildRegistry(providers, itemRegistry))
      ensures previewItems.Some?
      ensures provider.Some? <==> item in previewItems.value
      ensures provider.Some? ==> provider.value == previewItems.value[item]
    {
      if previewItems.None? {
        var m: map<Item, PreviewProvider> := map[];
        for i := 0 to |providers|
          invariant m == BuildRegistry(providers[..i], itemRegistry)
        {
          var p := providers[i];
          var ids := p.previewItemIds;
          ghost var before := m;
          for j := 0 to |ids|
            invariant m == AddClaims(before, p, ids[..j], itemRegistry)
          {
            assert ids[..j + 1][..j] == ids[..j];
            var id := ids[j];
            if id in itemRegistry {
              m := m[itemRegistry[id] := p];
            }
          }
          assert ids[..|ids|] == ids;
          assert providers[..i + 1][..i] == providers[..i];
        }
        assert providers[..|providers|] == providers;
        previewItems := Some(m);
      }
      var items := previewItems.value;
      provider := if item in items then Some(items[item]) else None;
    }
  }

  // ---------------------------------------------------------------------
  // Placement

  /** Where the hovered tooltip box lies, and the screen size. */
  datatype TooltipGeometry = TooltipGeometry(startX: int, topY: int, bottomY: int, screenWidth: int, screenHeight: int)

  /**
   * The placement arithmetic of `drawShulkerBoxPreview` for a preview of
   * the given size: left of the tooltip and clipped to the screen's right
   * edge; below the tooltip unless locked or overflowing, then above it.
   */
  method PlacePreview(g: TooltipGeometry, lockPreview: bool, width: int, height: int) returns (x: int, y: int)
    ensures x <= g.startX - 1 && x <= g.screenWidth - width
    ensures x == g.startX - 1 || x == g.screenWidth - width
    ensures lockPreview || g.bottomY + 1 + height > g.screenHeight ==> y + height == g.topY
    ensures !lockPreview && g.bottomY + 1 + height <= g.screenHeight ==>
      y == g.bottomY + 1 && y + height <= g.screenHeight
  {
    x := if g.startX - 1 <= g.screenWidth - width then g.startX - 1 else g.screenWidth - width;
    y := g.bottomY + 1;
    var h := height;
    if lockPreview || y + h > g.screenHeight {
      y := g.topY - h;
    }
  }

  /** What `drawShulkerBoxPreview` hands to the renderer's draw call. */
  datatype Drawing = Drawing(renderer: Renderer, previewType: PreviewType, x: int, y: int)

  /**
   * `drawShulkerBoxPreview`: nothing without a provider; otherwise the
   * provider's renderer, or the default one, at the computed position.
   * `width` and `height` are what the chosen renderer reports.
   */
  method DrawShulkerBoxPreview(registry: ProviderRegistry, cfg: MainConfig, keys: Keys, item: Item,
                               providers: seq<PreviewProvider>, itemRegistry: map<Identifier, Item>,
                               g: TooltipGeometry, width: int, height: int)
    returns (drawing: Option<Drawing>)
    modifies registry
    ensures old(registry.previewItems).Some? ==> registry.previewItems == old(registry.previewItems)
    ensures old(registry.previewItems).None? ==> registry.previewItems == Some(BuildRegistry(providers, itemRegistry))
    ensures registry.previewItems.Some?
    ensures drawing.None? <==> item !in registry.previewItems.value
    ensures drawing.Some? ==>
      var p := registry.previewItems.value[item];
      var d := drawing.value;
      && d.renderer == (if p.renderer.Some? then p.renderer.value else DefaultPreviewRenderer)
      && d.previewType == CurrentPreviewType(cfg, keys)
      && d.x <= g.startX - 1 && d.x <= g.screenWidth - width
      && (d.x == g.startX - 1 || d.x == g.screenWidth - width)
      && (cfg.lockPreview || g.bottomY + 1 + height > g.screenHeight ==> d.y == g.topY - height)
      && (!cfg.lockPreview && g.bottomY + 1 + height <= g.screenHeight ==> d.y == g.bottomY + 1)
  {
    var provider := registry.GetPreviewProviderForStack(item, providers, itemRegistry);
    if provider.None? {
      return None;
    }
    var renderer := if provider.value.renderer.Some? then provider.value.renderer.value else DefaultPreviewRenderer;
    var previewType := CurrentPreviewType(cfg, keys);
    var x, y := PlacePreview(g, cfg.lockPreview, width, height);
    drawing := Some(Drawing(renderer, previewType, x, y));
  }
}
