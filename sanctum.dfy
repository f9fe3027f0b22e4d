/**
 * The persistent home base (useSanctum.tsx): material counts by name and four
 * rooms that are upgraded, one level at a time up to level 5, by paying a
 * material cost that grows with the room's current level.
 */
module SanctumStore {
  import opened TextUtil

  datatype SanctumRoom = SanctumRoom(level: int, description: string, effects: seq<string>)

  const MaxRoomLevel := 5

  /** The cost materials in the order the deduction visits them. */
  const CostMaterials: seq<string> := ["stone", "wood", "iron", "magic_crystal"]

  /** The level-one upgrade cost of every room. */
  const BaseCost: map<string, int> := map["stone" := 5, "wood" := 3, "iron" := 2, "magic_crystal" := 1]

  function InitialRooms(): map<string, SanctumRoom>
  {
    map[
      "training_hall" := SanctumRoom(1, "A place to hone your combat skills", ["Start with +10 health"]),
      "workshop" := SanctumRoom(1, "Craft better equipment and artifacts", ["Unlock basic crafting recipes"]),
      "library" := SanctumRoom(1, "Store knowledge and unlock mysteries", ["Gain +5 XP per monster kill"]),
      "vault" := SanctumRoom(1, "Secure storage for valuable items", ["Keep 1 item when you die"])
    ]
  }

  function InitialMaterials(): map<string, int>
  {
    map["stone" := 10, "wood" := 5, "iron" := 3, "magic_crystal" := 1]
  }

  /** `materials[m] || 0`: the held amount, an absent material counting as none. */
  function Held(materials: map<string, int>, m: string): int
  {
    if m in materials then materials[m] else 0
  }

  /** The effect line an upgrade to `level` appends. */
  function BonusEffect(level: int): string
  {
    "Level " + IntToString(level) + " bonus"
  }

  /**
   * getRoomUpgradeCost: nothing for an unknown room; otherwise 5 stone, 3 wood,
   * 2 iron and 1 magic crystal, each multiplied by the room's current level.
   */
  function GetRoomUpgradeCost(rooms: map<string, SanctumRoom>, roomType: string): (cost: map<string, int>)
    ensures roomType !in rooms ==> cost == map[]
    ensures roomType in rooms ==> cost.Keys == {"stone", "wood", "iron", "magic_crystal"}
    ensures roomType in rooms ==>
      var level := rooms[roomType].level;
      cost["stone"] == 5 * level && cost["wood"] == 3 * level &&
      cost["iron"] == 2 * level && cost["magic_crystal"] == level
  {
    if roomType !in rooms then map[]
    else map m | m in BaseCost :: BaseCost[m] * rooms[roomType].level
  }

  /**
   * canUpgradeRoom: the room exists, is below the level cap, and every material
   * of its upgrade cost is held in at least that amount.
   */
  function CanUpgradeRoom(rooms: map<string, SanctumRoom>, materials: map<string, int>, roomType: string): (ok: bool)
    ensures roomType !in rooms || rooms[roomType].level >= MaxRoomLevel ==> !ok
    ensures roomType in rooms && rooms[roomType].level < MaxRoomLevel ==>
      var level := rooms[roomType].level;
      (ok <==> Held(materials, "stone") >= 5 * level && Held(materials, "wood") >= 3 * level &&
               Held(materials, "iron") >= 2 * level && Held(materials, "magic_crystal") >= level)
  {
    if roomType !in rooms || rooms[roomType].level >= MaxRoomLevel then false
    else
      var cost := GetRoomUpgradeCost(rooms, roomType);
      forall m :: m in cost ==> Held(materials, m) >= cost[m]
  }

  /** Upgrading from level 2 costs twice what upgrading from level 1 costs. */
  lemma CostScalesWithLevel(rooms: map<string, SanctumRoom>, roomType: string, m: string)
    requires roomType in rooms && m in BaseCost
    ensures GetRoomUpgradeCost(rooms[roomType := rooms[roomType].(level := 2)], roomType)[m]
         == 2 * GetRoomUpgradeCost(rooms[roomType := rooms[roomType].(level := 1)], roomType)[m]
  {
  }

  /** At the start, upgrading the workshop costs exactly the base cost. */
  lemma InitialWorkshopCost()
    ensures GetRoomUpgradeCost(InitialRooms(), "workshop") == BaseCost
  {
  }

  /** Every room is between level 1 and the cap, and has one effect line per level. */
  ghost predicate RoomsValid(rooms: map<string, SanctumRoom>)
  {
    forall r :: r in rooms ==> 1 <= rooms[r].level <= MaxRoomLevel && |rooms[r].effects| == rooms[r].level
  }

  /**
   * The deduction loop of upgradeRoom: every cost material, all of them held,
   * drops by exactly its cost and every other count is left alone.
   */
  method PayCost(materials: map<string, int>, cost: map<string, int>) returns (paid: map<string, int>)
    requires cost.Keys == {"stone", "wood", "iron", "magic_crystal"}
    requires forall m :: m in cost ==> m in materials
    ensures paid.Keys == materials.Keys
    ensures forall m :: m in paid ==> paid[m] == materials[m] - (if m in cost then cost[m] else 0)
  {
    paid := materials;
    var i := 0;
    while i < |CostMaterials|
      invariant 0 <= i <= |CostMaterials|
      invariant paid.Keys == materials.Keys
      invariant forall m :: m in paid ==>
        paid[m] == materials[m] - (if m in CostMaterials[..i] then cost[m] else 0)
    {
      var material := CostMaterials[i];
      assert CostMaterials[..i + 1] == CostMaterials[..i] + [material];
      paid := paid[material := paid[material] - cost[material]];
      i := i + 1;
    }
    assert CostMaterials[..i] == CostMaterials;
  }

  /**
   * The state upgradeRoom leaves behind, given the state it found: unchanged
   * unless canUpgradeRoom holds; otherwise every cost material is paid exactly,
   * and the room rises one level and gains that level's bonus line.
   */
  ghost predicate Upgraded(rooms: map<string, SanctumRoom>, materials: map<string, int>, roomType: string,
                           rooms': map<string, SanctumRoom>, materials': map<string, int>)
  {
    if !CanUpgradeRoom(rooms, materials, roomType) then rooms' == rooms && materials' == materials
    else
      var cost := GetRoomUpgradeCost(rooms, roomType);
      var room := rooms[roomType];
      materials'.Keys == materials.Keys &&
      (forall m :: m in materials' ==> materials'[m] == materials[m] - (if m in cost then cost[m] else 0)) &&
      rooms' == rooms[roomType := SanctumRoom(room.level + 1, room.description, room.effects + [BonusEffect(room.level + 1)])]
  }

  /** An upgrade never drives a non-negative material count below zero, since it only pays what is held. */
  lemma UpgradeKeepsStock(rooms: map<string, SanctumRoom>, materials: map<string, int>, roomType: string,
                          rooms': map<string, SanctumRoom>, materials': map<string, int>)
    requires Upgraded(rooms, materials, roomType, rooms', materials')
    ensures materials'.Keys == materials.Keys
    ensures forall m :: m in materials' && materials[m] >= 0 ==> materials'[m] >= 0
  {
    if CanUpgradeRoom(rooms, materials, roomType) {
      var cost := GetRoomUpgradeCost(rooms, roomType);
      forall m | m in materials' && materials[m] >= 0
        ensures materials'[m] >= 0
      {
        if m in cost {
          assert Held(materials, m) >= cost[m];
        }
      }
    }
  }

  /** Upgrades keep every room between level 1 and the cap with one effect line per level. */
  lemma UpgradeKeepsRoomsValid(rooms: map<string, SanctumRoom>, materials: map<string, int>, roomType: string,
                               rooms': map<string, SanctumRoom>, materials': map<string, int>)
    requires RoomsValid(rooms)
    requires Upgraded(rooms, materials, roomType, rooms', materials')
    ensures RoomsValid(rooms')
  {
  }

  class Sanctum {
    var materials: map<string, int>
    var rooms: map<string, SanctumRoom>

    ghost predicate Valid()
      reads this
    {
      RoomsValid(rooms)
    }

    /** The stock a new player starts with: four rooms at level 1 and a few materials. */
    constructor ()
      ensures Valid()
      ensures materials == InitialMaterials() && rooms == InitialRooms()
    {
      materials := InitialMaterials();
      rooms := InitialRooms();
    }

    /** addMaterial: adds `quantity` to the material's count, an absent material counting as zero. */
    method AddMaterial(material: string, quantity: int)
      requires Valid()
      modifies this
      ensures Valid()
      ensures materials == old(materials)[material := Held(old(materials), material) + quantity]
      ensures rooms == old(rooms)
    {
      materials := materials[material := Held(materials, material) + quantity];
    }

    /**
     * upgradeRoom: a no-op unless canUpgradeRoom holds; otherwise pays exactly
     * the cost, raises the room one level and appends that level's bonus line,
     * leaving the description and every other room as they were.
     */
    method UpgradeRoom(roomType: string)
      requires Valid()
      modifies this
      ensures Valid()
      ensures Upgraded(old(rooms), old(materials), roomType, rooms, materials)
    {
      if !CanUpgradeRoom(rooms, materials, roomType) {
        return;
      }
      var cost := GetRoomUpgradeCost(rooms, roomType);
      var newMaterials := PayCost(materials, cost);
      var room := rooms[roomType];
      rooms := rooms[roomType := room.(level := room.level + 1, effects := room.effects + [BonusEffect(room.level + 1)])];
      materials := newMaterials;
    }
  }

  /** Every material covers the upgrades still possible before the cap: 20/12/8/4 per remaining level. */
  predicate Stocked(rooms: map<string, SanctumRoom>, materials: map<string, int>, roomType: string)
    requires roomType in rooms
  {
    var left := MaxRoomLevel - rooms[roomType].level;
    Held(materials, "stone") >= 20 * left && Held(materials, "wood") >= 12 * left &&
    Held(materials, "iron") >= 8 * left && Held(materials, "magic_crystal") >= 4 * left
  }

  /** One upgrade of a stocked room: it rises one level unless at the cap, and stays stocked. */
  lemma UpgradeStep(rooms: map<string, SanctumRoom>, materials: map<string, int>, roomType: string,
                    rooms': map<string, SanctumRoom>, materials': map<string, int>)
    requires roomType in rooms && 1 <= rooms[roomType].level <= MaxRoomLevel
    requires Stocked(rooms, materials, roomType)
    requires Upgraded(rooms, materials, roomType, rooms', materials')
    ensures roomType in rooms'
    ensures rooms'[roomType].level == if rooms[roomType].level < MaxRoomLevel then rooms[roomType].level + 1 else MaxRoomLevel
    ensures Stocked(rooms', materials', roomType)
  {
    var level := rooms[roomType].level;
    if level < MaxRoomLevel {
      assert CanUpgradeRoom(rooms, materials, roomType);
      var cost := GetRoomUpgradeCost(rooms, roomType);
      assert Held(materials', "stone") == Held(materials, "stone") - 5 * level;
      assert Held(materials', "wood") == Held(materials, "wood") - 3 * level;
      assert Held(materials', "iron") == Held(materials, "iron") - 2 * level;
      assert Held(materials', "magic_crystal") == Held(materials, "magic_crystal") - level;
    }
  }

  /** Scenario set-up, not part of the store: a new sanctum given 100 of every cost material, its room at level 1 and stocked up to the cap. */
  method StockedSanctum(roomType: string) returns (s: Sanctum)
    requires roomType in InitialRooms()
    ensures fresh(s) && s.Valid()
    ensures roomType in s.rooms && s.rooms[roomType].level == 1 && Stocked(s.rooms, s.materials, roomType)
  {
    s := new Sanctum();
    assert InitialRooms()[roomType].level == 1;
    s.AddMaterial("stone", 100);
    s.AddMaterial("wood", 100);
    s.AddMaterial("iron", 100);
    s.AddMaterial("magic_crystal", 100);
  }

  /** Scenario, not part of the store: upgrading a stocked room six times in a row stops it at level 5. */
  method UpgradeToCap(roomType: string) returns (level: int)
    requires roomType in InitialRooms()
    ensures level == MaxRoomLevel
  {
    var s := StockedSanctum(roomType);
    var n := 0;
    while n < 6
      invariant 0 <= n <= 6
      invariant s.Valid() && roomType in s.rooms
      invariant s.rooms[roomType].level == if n < 4 then 1 + n else MaxRoomLevel
      invariant Stocked(s.rooms, s.materials, roomType)
    {
      ghost var rooms, materials := s.rooms, s.materials;
      s.UpgradeRoom(roomType);
      UpgradeStep(rooms, materials, roomType, s.rooms, s.materials);
      n := n + 1;
    }
    level := s.rooms[roomType].level;
  }
}
