/**
 * The player's item list and the two panel flags (useInventory.tsx). Items
 * merge by name on arrival, leave one unit at a time, and only consumables can
 * be used up.
 */
module InventoryStore {
  import opened GameTypes
  import opened SeqUtil

  function StartingItems(): seq<Item>
  {
    [
      Item("health-potion-1", "Health Potion", Consumable, "🧪", 1, "Restores 50 health", None),
      Item("magic-shard-1", "Magic Shard", Material, "💎", 1, "A fragment of ancient magic", None),
      Item("iron-ore-1", "Iron Ore", Material, "⚡", 1, "Raw iron for crafting", None)
    ]
  }

  /** `items.find(i => i.name === name)` as an index: the first entry with that name, or -1. */
  function IndexOfName(items: seq<Item>, name: string): int
  {
    FirstWhere(items, (i: Item) => i.name == name)
  }

  /** `items.find(i => i.id === id)` as an index: the first entry with that id, or -1. */
  function IndexOfId(items: seq<Item>, id: string): int
  {
    FirstWhere(items, (i: Item) => i.id == id)
  }

  /** `items.filter(i => i.id !== id)` */
  function WithoutId(items: seq<Item>, id: string): seq<Item>
  {
    Keep(items, (i: Item) => i.id != id)
  }

  /** No two entries share a name. */
  predicate NamesUnique(items: seq<Item>)
  {
    forall i, j :: 0 <= i < j < |items| ==> items[i].name != items[j].name
  }

  /**
   * The list after removeItem(id): unchanged when no entry has that id; the
   * first match loses one unit when it holds more than one; otherwise every
   * entry with that id goes.
   */
  function AfterRemove(items: seq<Item>, id: string): (r: seq<Item>)
    ensures IndexOfId(items, id) < 0 ==> r == items
    ensures var k := IndexOfId(items, id);
      k >= 0 && items[k].quantity > 1 ==>
        |r| == |items| && r[k] == items[k].(quantity := items[k].quantity - 1) &&
        forall i :: 0 <= i < |items| && i != k ==> r[i] == items[i]
    ensures var k := IndexOfId(items, id);
      k >= 0 && items[k].quantity <= 1 ==>
        |r| < |items| && forall x :: x in r <==> x in items && x.id != id
  {
    var k := IndexOfId(items, id);
    if k < 0 then items
    else if items[k].quantity > 1 then items[k := items[k].(quantity := items[k].quantity - 1)]
    else WithoutId(items, id)
  }

  class Inventory {
    var items: seq<Item>
    var showInventory: bool
    var showCrafting: bool

    constructor ()
      ensures items == StartingItems() && !showInventory && !showCrafting
    {
      items := StartingItems();
      showInventory := false;
      showCrafting := false;
    }

    /**
     * addItem: an item whose name is already held raises that entry's quantity
     * by exactly one, whatever quantity arrives; a new name is appended as a
     * copy holding one unit. Names stay unique.
     */
    method AddItem(item: Item)
      modifies this
      ensures showInventory == old(showInventory) && showCrafting == old(showCrafting)
      ensures var k := IndexOfName(old(items), item.name);
        k >= 0 ==> items == old(items)[k := old(items)[k].(quantity := old(items)[k].quantity + 1)]
      ensures IndexOfName(old(items), item.name) < 0 ==> items == old(items) + [item.(quantity := 1)]
      ensures NamesUnique(old(items)) ==> NamesUnique(items)
    {
      var k := IndexOfName(items, item.name);
      if k >= 0 {
        var existing := items[k];
        items := items[k := existing.(quantity := existing.quantity + 1)];
      } else {
        items := items + [item.(quantity := 1)];
      }
    }

    /** removeItem: takes one unit of the first entry with that id, dropping entries that run out. */
    method RemoveItem(itemId: string)
      modifies this
      ensures showInventory == old(showInventory) && showCrafting == old(showCrafting)
      ensures items == AfterRemove(old(items), itemId)
    {
      var k := IndexOfId(items, itemId);
      if k >= 0 {
        var item := items[k];
        if item.quantity > 1 {
          items := items[k := item.(quantity := item.quantity - 1)];
        } else {
          items := WithoutId(items, itemId);
        }
      }
    }

    /** useItem: only a consumable is used up (one unit removed); anything else is left alone. */
    method UseItem(itemId: string)
      modifies this
      ensures showInventory == old(showInventory) && showCrafting == old(showCrafting)
      ensures var k := IndexOfId(old(items), itemId);
        items == if k >= 0 && old(items)[k].itemType == Consumable then AfterRemove(old(items), itemId) else old(items)
    {
      var k := IndexOfId(items, itemId);
      if k >= 0 && items[k].itemType == Consumable {
        RemoveItem(itemId);
      }
    }

    /** toggleInventory: flips the inventory panel and closes the crafting panel. */
    method ToggleInventory()
      modifies this
      ensures showInventory == !old(showInventory) && !showCrafting
      ensures !(showInventory && showCrafting)
      ensures items == old(items)
    {
      showInventory, showCrafting := !showInventory, false;
    }

    /** toggleCrafting: flips the crafting panel and closes the inventory panel. */
    method ToggleCrafting()
      modifies this
      ensures showCrafting == !old(showCrafting) && !showInventory
      ensures !(showInventory && showCrafting)
      ensures items == old(items)
    {
      showCrafting, showInventory := !showCrafting, false;
    }
  }

  /** Scenario, not part of the store: picking up a second potion merges it into the starting entry instead of adding a line. */
  method PickUpPotion() returns (count: int, quantity: int)
    ensures count == 3 && quantity == 2
  {
    var inv := new Inventory();
    inv.AddItem(Item("health-potion-2", "Health Potion", Consumable, "🧪", 5, "Restores 50 health", None));
    count := |inv.items|;
    quantity := inv.items[0].quantity;
  }
}
