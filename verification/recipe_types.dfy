/**
 * The value shapes the recipe form works on (types/recipe.ts). They carry no
 * behaviour of their own.
 */
module RecipeTypes {
  import opened Wrappers

  /** One line of a recipe's ingredient list. `amount` is a JavaScript number. */
  datatype Ingredient = Ingredient(name: string, amount: real, unit: string)

  /** The difficulty enumeration `'easy' | 'medium' | 'hard'`. */
  datatype Difficulty = Easy | Medium | Hard

  /** What the recipe form edits before it is submitted. `imageUrl` is optional. */
  datatype RecipeFormData = RecipeFormData(
    title: string,
    description: string,
    ingredients: seq<Ingredient>,
    instructions: seq<string>,
    cookingTime: int,
    servings: int,
    difficulty: Difficulty,
    imageUrl: Option<string>,
    categoryIds: seq<string>,
    tagIds: seq<string>)
}
