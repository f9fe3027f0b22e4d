/** The records the game's stores and systems exchange (the type declarations of gameTypes.ts). */
module GameTypes {

  datatype Option<+T> = None | Some(value: T)

  datatype GamePhase = Ready | Playing | GameOver | InSanctum

  /** A world-space position; the grid is centred on the origin. */
  datatype Position = Position(x: real, y: real)

  datatype Monster = Monster(id: string, kind: string, position: Position, health: int, damage: int)

  datatype ItemType = Consumable | Material | Artifact | Equipment

  /** An inventory entry; `effects` is an optional field in the source. */
  datatype Item = Item(
    id: string,
    name: string,
    itemType: ItemType,
    icon: string,
    quantity: int,
    description: string,
    effects: Option<seq<string>>)

  datatype Ingredient = Ingredient(itemId: string, name: string, quantity: int)

  /** What a recipe produces, everything of an Item but its id and quantity. */
  datatype RecipeResult = RecipeResult(
    name: string,
    itemType: ItemType,
    icon: string,
    description: string,
    effects: Option<seq<string>>)

  datatype CraftingRecipe = CraftingRecipe(
    id: string,
    name: string,
    ingredients: seq<Ingredient>,
    result: RecipeResult)
}
