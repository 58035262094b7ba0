/**
 * The preview provider for container items whose contents are stored as a
 * container data component: whether a preview is shown, the inventory
 * snapshot it shows, and the tooltip lines that accompany it.
 *
 * The game engine is abstracted away: a stack is the pair of data components
 * the provider reads, the loot-table verbosity and the current preview type
 * are parameters, and text is a token per translation key.
 */
module BlockEntityPreviewProvider {
  import opened Wrappers
  import opened PreviewApi

  type Identifier = string

  /** One inventory slot; `Empty` is the air stack. */
  datatype ItemStack = Empty | Item(id: Identifier)

  /** The stored contents of a container item. */
  datatype ContainerComponent = ContainerComponent(stacks: seq<ItemStack>)

  /** A reference to a loot table that will generate the contents later. */
  datatype ContainerLootComponent = ContainerLootComponent(lootTable: Identifier)

  /** The data components of the hovered stack that the provider reads. */
  datatype StackData = StackData(container: Option<ContainerComponent>, containerLoot: Option<ContainerLootComponent>)

  /** The stack being previewed, and whether the registry lookup is available. */
  datatype PreviewContext = PreviewContext(stack: StackData, hasRegistryLookup: bool)

  /** How much a tooltip says about a loot table. */
  datatype LootTableInfoType = Hide | Simple | Advanced

  /**
   * Tooltip lines, one token per translated text:
   * `ContainsItems(n)` is "container.shulkerbox.contains" with argument n,
   * `EmptyContainer` is "container.shulkerbox.empty",
   * `LootTableHint` is "shulkerboxtooltip.hint.lootTable",
   * `LootTableAdvancedHint` is "shulkerboxtooltip.hint.lootTable.advanced" followed by ": ",
   * `Literal(s)` is the untranslated text s.
   */
  datatype Text = ContainsItems(count: nat) | EmptyContainer | LootTableHint | LootTableAdvancedHint | Literal(s: string)

  /** The three final fields of a provider. */
  datatype Provider = Provider(maxInvSize: nat, canUseLootTables: bool, maxRowSize: int)

  const DefaultMaxRowSize := 9

  // ---------------------------------------------------------------------
  // Construction and getters

  function MaxRowSize(p: Provider): int
  {
    p.maxRowSize
  }

  function InventoryMaxSize(p: Provider, ctx: PreviewContext): nat
  {
    p.maxInvSize
  }

  function CanUseLootTables(p: Provider): bool
  {
    p.canUseLootTables
  }

  /** The two-argument constructor: rows always hold nine stacks. */
  function NewProvider(maxInvSize: nat, canUseLootTables: bool): (p: Provider)
    ensures MaxRowSize(p) == DefaultMaxRowSize && MaxRowSize(p) >= 1
    ensures CanUseLootTables(p) == canUseLootTables
    ensures forall ctx :: InventoryMaxSize(p, ctx) == maxInvSize
  {
    Provider(maxInvSize, canUseLootTables, DefaultMaxRowSize)
  }

  /** The three-argument constructor: a row size of zero or less means nine. */
  function NewProviderWithRowSize(maxInvSize: nat, canUseLootTables: bool, maxRowSize: int): (p: Provider)
    ensures maxRowSize <= 0 ==> MaxRowSize(p) == DefaultMaxRowSize
    ensures maxRowSize > 0 ==> MaxRowSize(p) == maxRowSize
    ensures MaxRowSize(p) >= 1
    ensures CanUseLootTables(p) == canUseLootTables
    ensures forall ctx :: InventoryMaxSize(p, ctx) == maxInvSize
  {
    Provider(maxInvSize, canUseLootTables, if maxRowSize <= 0 then DefaultMaxRowSize else maxRowSize)
  }

  /** `getMaxRowSize` of a constructed provider is the normalised row size, never below one. */
  lemma MaxRowSizeOfConstructed(maxInvSize: nat, canUseLootTables: bool, maxRowSize: int)
    ensures MaxRowSize(NewProvider(maxInvSize, canUseLootTables)) == DefaultMaxRowSize
    ensures MaxRowSize(NewProviderWithRowSize(maxInvSize, canUseLootTables, maxRowSize)) ==
      if maxRowSize <= 0 then DefaultMaxRowSize else maxRowSize
    ensures MaxRowSize(NewProviderWithRowSize(maxInvSize, canUseLootTables, maxRowSize)) >= 1
  {
  }

  /**
   * `getInventoryMaxSize` does not depend on the context, and it is the
   * length of every snapshot.
   */
  lemma InventoryMaxSizeIsTheSnapshotLength(p: Provider, ctx: PreviewContext, other: PreviewContext)
    ensures InventoryMaxSize(p, ctx) == InventoryMaxSize(p, other) == p.maxInvSize
    ensures |Inventory(p, ctx)| == InventoryMaxSize(p, ctx)
  {
  }

  /**
   * `canUseLootTables` gates every loot-table behaviour: when it is false,
   * loot data on the stack changes neither `shouldDisplay` nor `addTooltip`.
   */
  lemma CanUseLootTablesGatesLootData(p: Provider, ctx: PreviewContext, lootInfo: LootTableInfoType, current: PreviewType)
    requires !CanUseLootTables(p)
    ensures var bare := ctx.(stack := ctx.stack.(containerLoot := None));
      && ShouldDisplay(p, ctx) == ShouldDisplay(p, bare)
      && AddTooltip(p, ctx, lootInfo, current) == AddTooltip(p, bare, lootInfo, current)
  {
  }

  // ---------------------------------------------------------------------
  // Counting

  /** The number of slots that do not hold air. */
  function CountNonEmpty(s: seq<ItemStack>): (n: nat)
    ensures n <= |s|
    ensures n == 0 <==> forall i :: 0 <= i < |s| ==> s[i] == Empty
    ensures n == |s| <==> forall i :: 0 <= i < |s| ==> s[i] != Empty
  {
    if s == [] then 0
    else CountNonEmpty(s[..|s| - 1]) + (if s[|s| - 1] != Empty then 1 else 0)
  }

  /** The count of a nullable list: a missing list holds nothing. */
  function ItemCount(items: Option<seq<ItemStack>>): (n: nat)
    ensures items.None? ==> n == 0
    ensures items.Some? ==> n <= |items.value|
    ensures items.Some? ==> (n == 0 <==> forall i :: 0 <= i < |items.value| ==> items.value[i] == Empty)
  {
    match items
    case None => 0
    case Some(s) => CountNonEmpty(s)
  }

  /** The count is the length minus the number of air slots. */
  lemma {:induction false} CountNonEmptyIsNonAirMultiplicity(s: seq<ItemStack>)
    ensures CountNonEmpty(s) == |s| - multiset(s)[Empty]
  {
    if s != [] {
      var init, last := s[..|s| - 1], s[|s| - 1];
      assert s == init + [last];
      assert multiset(s) == multiset(init) + multiset{last};
      CountNonEmptyIsNonAirMultiplicity(init);
    }
  }

  /** Counting distributes over concatenation. */
  lemma {:induction false} CountNonEmptyConcat(a: seq<ItemStack>, b: seq<ItemStack>)
    ensures CountNonEmpty(a + b) == CountNonEmpty(a) + CountNonEmpty(b)
    decreases |b|
  {
    if b == [] {
      assert a + b == a;
    } else {
      var init := b[..|b| - 1];
      assert (a + b)[..|a + b| - 1] == a + init;
      CountNonEmptyConcat(a, init);
    }
  }

  /** The loop of `getItemCount`: a null list counts 0, otherwise every non-air stack counts 1. */
  method GetItemCount(items: Option<seq<ItemStack>>) returns (itemCount: nat)
    ensures itemCount == ItemCount(items)
    ensures items.None? ==> itemCount == 0
    ensures items.Some? ==> itemCount <= |items.value|
  {
    itemCount := 0;
    if items.Some? {
      var s := items.value;
      for i := 0 to |s|
        invariant itemCount == CountNonEmpty(s[..i])
      {
        assert s[..i + 1][..i] == s[..i];
        if s[i] != Empty {
          itemCount := itemCount + 1;
        }
      }
      assert s[..|s|] == s;
    }
  }

  // ---------------------------------------------------------------------
  // The inventory snapshot

  /** Stored stacks laid over a fixed-size list: slot i takes the i-th stored stack when there is one. */
  function Overlay(inv: seq<ItemStack>, stacks: seq<ItemStack>): (r: seq<ItemStack>)
    ensures |r| == |inv|
    ensures forall i :: 0 <= i < |r| ==> r[i] == if i < |stacks| then stacks[i] else inv[i]
  {
    seq(|inv|, i requires 0 <= i < |inv| => if i < |stacks| then stacks[i] else inv[i])
  }

  predicate HasReadableContainer(ctx: PreviewContext)
  {
    ctx.hasRegistryLookup && ctx.stack.container.Some?
  }

  /**
   * The list `getInventory` returns: one slot per inventory position, empty
   * unless the container component supplies a stack for it.
   */
  function Inventory(p: Provider, ctx: PreviewContext): (inv: seq<ItemStack>)
    ensures |inv| == InventoryMaxSize(p, ctx)
    ensures !HasReadableContainer(ctx) ==> forall i :: 0 <= i < |inv| ==> inv[i] == Empty
    ensures HasReadableContainer(ctx) ==>
      forall i :: 0 <= i < |inv| ==>
        inv[i] == if i < |ctx.stack.container.value.stacks| then ctx.stack.container.value.stacks[i] else Empty
  {
    var padded := seq(InventoryMaxSize(p, ctx), _ => Empty);
    if HasReadableContainer(ctx) then Overlay(padded, ctx.stack.container.value.stacks) else padded
  }

  /** `ContainerComponent.copyTo`: writes the stored stacks into the slots they fit in. */
  method CopyTo(container: ContainerComponent, inv: array<ItemStack>)
    modifies inv
    ensures inv[..] == Overlay(old(inv[..]), container.stacks)
  {
    for i := 0 to inv.Length
      invariant forall k :: 0 <= k < i ==> inv[k] == if k < |container.stacks| then container.stacks[k] else old(inv[k])
      invariant forall k :: i <= k < inv.Length ==> inv[k] == old(inv[k])
    {
      if i < |container.stacks| {
        inv[i] := container.stacks[i];
      }
    }
  }

  /** Allocates the padded list and fills it in place from the container component. */
  method GetInventory(p: Provider, ctx: PreviewContext) returns (inv: seq<ItemStack>)
    ensures inv == Inventory(p, ctx)
    ensures |inv| == InventoryMaxSize(p, ctx)
  {
    var a := new ItemStack[InventoryMaxSize(p, ctx)](_ => Empty);
    if HasReadableContainer(ctx) {
      CopyTo(ctx.stack.container.value, a);
    }
    inv := a[..];
  }

  /** The non-air count of the snapshot is that of the stored stacks that fit in it. */
  lemma InventoryCount(p: Provider, ctx: PreviewContext)
    ensures !HasReadableContainer(ctx) ==> CountNonEmpty(Inventory(p, ctx)) == 0
    ensures HasReadableContainer(ctx) ==>
      var stacks := ctx.stack.container.value.stacks;
      var n := InventoryMaxSize(p, ctx);
      CountNonEmpty(Inventory(p, ctx)) == CountNonEmpty(stacks[..if n <= |stacks| then n else |stacks|])
  {
    if HasReadableContainer(ctx) {
      var stacks := ctx.stack.container.value.stacks;
      var n := InventoryMaxSize(p, ctx);
      var k := if n <= |stacks| then n else |stacks|;
      var inv := Inventory(p, ctx);
      var rest := seq(n - k, _ => Empty);
      assert inv == stacks[..k] + rest;
      CountNonEmptyConcat(stacks[..k], rest);
    }
  }

  // ---------------------------------------------------------------------
  // Display decisions

  /** Whether the loot-table case applies: hiding is allowed and the stack carries loot data. */
  predicate LootTableApplies(p: Provider, ctx: PreviewContext)
  {
    CanUseLootTables(p) && ctx.stack.containerLoot.Some?
  }

  /** `shouldDisplay`: a preview exists when some slot holds an item, unless loot data hides it. */
  function ShouldDisplay(p: Provider, ctx: PreviewContext): (r: bool)
    ensures LootTableApplies(p, ctx) ==> !r
    ensures !LootTableApplies(p, ctx) ==>
      (r <==> exists i :: 0 <= i < |Inventory(p, ctx)| && Inventory(p, ctx)[i] != Empty)
  {
    !LootTableApplies(p, ctx) && CountNonEmpty(Inventory(p, ctx)) > 0
  }

  /** `showTooltipHints`: hints are shown for stacks that carry a container component. */
  function ShowTooltipHints(ctx: PreviewContext): (r: bool)
    ensures r <==> ctx.stack.container.Some?
  {
    ctx.stack.container.Some?
  }

  // ---------------------------------------------------------------------
  // Tooltip lines

  /** The line for a count: the number of items, or "empty" when there are none. */
  function CountLine(n: nat): Text
  {
    if n > 0 then ContainsItems(n) else EmptyContainer
  }

  predicate IsCountLine(t: Text)
  {
    t.ContainsItems? || t.EmptyContainer?
  }

  /**
   * `getItemListTooltip`: appends the count line of `items` to the caller's
   * list and hands back that same list.
   */
  method GetItemListTooltip(tooltip: LineList<Text>, items: Option<seq<ItemStack>>) returns (r: LineList<Text>)
    modifies tooltip
    ensures r == tooltip
    ensures |tooltip.lines| == |old(tooltip.lines)| + 1
    ensures tooltip.lines[..|old(tooltip.lines)|] == old(tooltip.lines)
    ensures ItemCount(items) > 0 ==> tooltip.lines[|old(tooltip.lines)|] == ContainsItems(ItemCount(items))
    ensures ItemCount(items) == 0 ==> tooltip.lines[|old(tooltip.lines)|] == EmptyContainer
  {
    var itemCount := GetItemCount(items);
    var text := if itemCount > 0 then ContainsItems(itemCount) else EmptyContainer;
    tooltip.Add(text);
    r := tooltip;
  }

  /** `getItemCountTooltip`: the same, with the default grey style. */
  method GetItemCountTooltip(tooltip: LineList<Text>, items: Option<seq<ItemStack>>) returns (r: LineList<Text>)
    modifies tooltip
    ensures r == tooltip
    ensures tooltip.lines == old(tooltip.lines) + [CountLine(ItemCount(items))]
  {
    r := GetItemListTooltip(tooltip, items);
    assert tooltip.lines == old(tooltip.lines) + [CountLine(ItemCount(items))];
  }

  /** The number of lines each loot-table verbosity produces. */
  function LootLineCount(info: LootTableInfoType): nat
  {
    match info
    case Hide => 0
    case Simple => 1
    case Advanced => 2
  }

  /**
   * `addTooltip`: loot-table lines when the loot case applies; otherwise
   * nothing under a full preview, and the count line in every other mode.
   */
  function AddTooltip(p: Provider, ctx: PreviewContext, lootInfo: LootTableInfoType, current: PreviewType): (lines: seq<Text>)
    ensures LootTableApplies(p, ctx) ==> |lines| == LootLineCount(lootInfo)
    ensures LootTableApplies(p, ctx) ==> forall i :: 0 <= i < |lines| ==> !IsCountLine(lines[i])
    ensures !LootTableApplies(p, ctx) && current == Full ==> lines == []
    ensures !LootTableApplies(p, ctx) && current != Full ==> |lines| == 1 && IsCountLine(lines[0])
  {
    if LootTableApplies(p, ctx) then
      match lootInfo
      case Hide => []
      case Simple => [LootTableHint]
      case Advanced => [LootTableAdvancedHint, Literal(" " + ctx.stack.containerLoot.value.lootTable)]
    else if current == Full then []
    else [CountLine(CountNonEmpty(Inventory(p, ctx)))]
  }

  /**
   * The count line says "contains" exactly when `shouldDisplay` holds, and
   * its number is the number of occupied slots of the snapshot.
   */
  lemma CountLineAgreesWithShouldDisplay(p: Provider, ctx: PreviewContext, lootInfo: LootTableInfoType, current: PreviewType)
    requires !LootTableApplies(p, ctx) && current != Full
    ensures AddTooltip(p, ctx, lootInfo, current)[0].ContainsItems? <==> ShouldDisplay(p, ctx)
    ensures AddTooltip(p, ctx, lootInfo, current)[0].ContainsItems? ==>
      AddTooltip(p, ctx, lootInfo, current)[0].count == |Inventory(p, ctx)| - multiset(Inventory(p, ctx))[Empty]
    ensures AddTooltip(p, ctx, lootInfo, current)[0].EmptyContainer? <==>
      forall i :: 0 <= i < |Inventory(p, ctx)| ==> Inventory(p, ctx)[i] == Empty
  {
    CountNonEmptyIsNonAirMultiplicity(Inventory(p, ctx));
  }

  /** With loot data hidden and the simple verbosity, the tooltip is the single generic loot line. */
  lemma SimpleLootTableScenario(p: Provider, ctx: PreviewContext, current: PreviewType)
    requires CanUseLootTables(p) && ctx.stack.containerLoot.Some?
    ensures AddTooltip(p, ctx, Simple, current) == [LootTableHint]
    ensures !ShouldDisplay(p, ctx)
  {
  }

  /** The advanced verbosity names the loot table on its second line. */
  lemma AdvancedLootTableNamesTable(p: Provider, ctx: PreviewContext, current: PreviewType)
    requires LootTableApplies(p, ctx)
    ensures AddTooltip(p, ctx, Advanced, current) ==
      [LootTableAdvancedHint, Literal(" " + ctx.stack.containerLoot.value.lootTable)]
  {
  }
}
