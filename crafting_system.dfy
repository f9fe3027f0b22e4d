/** The recipe book, the craftability test and the crafted item (craftingSystem.ts). */
module Crafting {
  import opened GameTypes
  import opened TextUtil

  function SwordRecipe(): CraftingRecipe
  {
    CraftingRecipe("basic-sword", "Basic Sword",
      [Ingredient("iron-ore", "Iron Ore", 2), Ingredient("wood", "Wood", 1)],
      RecipeResult("Iron Sword", Equipment, "⚔️",
        "A sturdy iron sword that increases attack damage", Some(["+10 attack damage"])))
  }

  function CrystalRecipe(): CraftingRecipe
  {
    CraftingRecipe("health-crystal", "Health Crystal",
      [Ingredient("magic-shard", "Magic Shard", 2), Ingredient("health-potion", "Health Potion", 1)],
      RecipeResult("Health Crystal", Artifact, "💚",
        "Permanently increases maximum health", Some(["+25 max health"])))
  }

  function BootsRecipe(): CraftingRecipe
  {
    CraftingRecipe("speed-boots", "Speed Boots",
      [Ingredient("leather", "Leather", 2), Ingredient("magic-shard", "Magic Shard", 1)],
      RecipeResult("Speed Boots", Equipment, "👢",
        "Increases movement speed", Some(["+50% movement speed"])))
  }

  /** getCraftingRecipes: three recipes with distinct ids, each asking for at least one of every ingredient. */
  function GetCraftingRecipes(): (rs: seq<CraftingRecipe>)
    ensures |rs| == 3
    ensures forall i, j :: 0 <= i < j < |rs| ==> rs[i].id != rs[j].id
    ensures forall i, k :: 0 <= i < |rs| && 0 <= k < |rs[i].ingredients| ==> rs[i].ingredients[k].quantity >= 1
    ensures forall i :: 0 <= i < |rs| ==> rs[i].ingredients != []
  {
    [SwordRecipe(), CrystalRecipe(), BootsRecipe()]
  }

  /** Case-insensitive name comparison (`a.toLowerCase() === b.toLowerCase()`). */
  predicate SameName(a: string, b: string)
  {
    ToLower(a) == ToLower(b)
  }

  /**
   * The filter-and-reduce of canCraftItem: the summed quantity of the inventory
   * entries whose name matches `name`, accumulated from the front of the list.
   */
  function Available(inventory: seq<Item>, name: string): int
    decreases |inventory|
  {
    if inventory == [] then 0
    else
      var last := inventory[|inventory| - 1];
      Available(inventory[..|inventory| - 1], name) + (if SameName(last.name, name) then last.quantity else 0)
  }

  /** canCraftItem: every ingredient is available in at least the required quantity. */
  predicate CanCraftItem(recipe: CraftingRecipe, inventory: seq<Item>)
  {
    forall k :: 0 <= k < |recipe.ingredients| ==>
      Available(inventory, recipe.ingredients[k].name) >= recipe.ingredients[k].quantity
  }

  /** The summed quantity of two inventories laid end to end is the sum of the two. */
  lemma {:induction false} AvailableAppend(a: seq<Item>, b: seq<Item>, name: string)
    ensures Available(a + b, name) == Available(a, name) + Available(b, name)
    decreases |b|
  {
    if b == [] {
      assert a + b == a;
    } else {
      var b' := b[..|b| - 1];
      assert (a + b)[..|a + b| - 1] == a + b';
      AvailableAppend(a, b', name);
    }
  }

  /** Entries of non-negative quantity never make the available amount drop. */
  lemma {:induction false} AvailableNonNegative(inventory: seq<Item>, name: string)
    requires forall i :: 0 <= i < |inventory| ==> inventory[i].quantity >= 0
    ensures Available(inventory, name) >= 0
    decreases |inventory|
  {
    if inventory != [] {
      AvailableNonNegative(inventory[..|inventory| - 1], name);
    }
  }

  /** Raising one entry's quantity never lowers the available amount of any name. */
  lemma {:induction false} AvailableRaise(inventory: seq<Item>, k: int, q: int, name: string)
    requires 0 <= k < |inventory| && q >= inventory[k].quantity
    ensures Available(inventory[k := inventory[k].(quantity := q)], name) >= Available(inventory, name)
    decreases |inventory|
  {
    var raised := inventory[k := inventory[k].(quantity := q)];
    var n := |inventory|;
    if k < n - 1 {
      assert raised[..n - 1] == inventory[..n - 1][k := inventory[k].(quantity := q)];
      AvailableRaise(inventory[..n - 1], k, q, name);
    } else {
      assert raised[..n - 1] == inventory[..n - 1];
    }
  }

  /** Only the ingredient names matter, in any letter case: a matching item counts whatever its case. */
  lemma {:induction false} AvailableIgnoresCase(inventory: seq<Item>, name: string, name': string)
    requires SameName(name, name')
    ensures Available(inventory, name) == Available(inventory, name')
    decreases |inventory|
  {
    if inventory != [] {
      AvailableIgnoresCase(inventory[..|inventory| - 1], name, name');
    }
  }

  /** A recipe without ingredients can always be crafted. */
  lemma NoIngredientsAlwaysCraftable(recipe: CraftingRecipe, inventory: seq<Item>)
    requires recipe.ingredients == []
    ensures CanCraftItem(recipe, inventory)
  {
  }

  /** Gaining items (of non-negative quantity) never makes a craftable recipe uncraftable. */
  lemma CanCraftMonotoneAdd(recipe: CraftingRecipe, inventory: seq<Item>, extra: seq<Item>)
    requires forall i :: 0 <= i < |extra| ==> extra[i].quantity >= 0
    requires CanCraftItem(recipe, inventory)
    ensures CanCraftItem(recipe, inventory + extra)
  {
    forall k | 0 <= k < |recipe.ingredients|
      ensures Available(inventory + extra, recipe.ingredients[k].name) >= recipe.ingredients[k].quantity
    {
      AvailableAppend(inventory, extra, recipe.ingredients[k].name);
      AvailableNonNegative(extra, recipe.ingredients[k].name);
    }
  }

  /** Raising an entry's quantity never makes a craftable recipe uncraftable. */
  lemma CanCraftMonotoneRaise(recipe: CraftingRecipe, inventory: seq<Item>, k: int, q: int)
    requires 0 <= k < |inventory| && q >= inventory[k].quantity
    requires CanCraftItem(recipe, inventory)
    ensures CanCraftItem(recipe, inventory[k := inventory[k].(quantity := q)])
  {
    forall j | 0 <= j < |recipe.ingredients|
      ensures Available(inventory[k := inventory[k].(quantity := q)], recipe.ingredients[j].name)
        >= recipe.ingredients[j].quantity
    {
      AvailableRaise(inventory, k, q, recipe.ingredients[j].name);
    }
  }

  /** The ingredients' item ids play no part: recipes differing only in them agree. */
  lemma CanCraftIgnoresItemIds(recipe: CraftingRecipe, recipe': CraftingRecipe, inventory: seq<Item>)
    requires |recipe.ingredients| == |recipe'.ingredients|
    requires forall k :: 0 <= k < |recipe.ingredients| ==>
      recipe.ingredients[k].name == recipe'.ingredients[k].name &&
      recipe.ingredients[k].quantity == recipe'.ingredients[k].quantity
    ensures CanCraftItem(recipe, inventory) <==> CanCraftItem(recipe', inventory)
  {
  }

  /** The separator of a crafted item's id: `${recipe.id}-${Date.now()}`. */
  const IdSeparator := "-"

  /**
   * craftItem with the clock reading `now`: the recipe's result with a fresh
   * id derived from the recipe id, in a quantity of one.
   */
  function CraftItem(recipe: CraftingRecipe, now: nat): (item: Item)
    ensures item.name == recipe.result.name && item.itemType == recipe.result.itemType
    ensures item.icon == recipe.result.icon && item.description == recipe.result.description
    ensures item.effects == recipe.result.effects
    ensures item.quantity == 1
    ensures |item.id| > |recipe.id| + 1
    ensures item.id[..|recipe.id| + 1] == recipe.id + IdSeparator
  {
    Item(recipe.id + IdSeparator + NatToString(now), recipe.result.name, recipe.result.itemType,
      recipe.result.icon, 1, recipe.result.description, recipe.result.effects)
  }

  /** Items crafted at different instants from the same recipe have different ids. */
  lemma CraftedIdsDistinct(recipe: CraftingRecipe, now: nat, later: nat)
    requires now != later
    ensures CraftItem(recipe, now).id != CraftItem(recipe, later).id
  {
    PrefixedNumbersDistinct(recipe.id + IdSeparator, now, later);
  }
}
