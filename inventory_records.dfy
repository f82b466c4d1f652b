/** The two records of the inventory engine (the `ingredients` and `recipes`
 *  storage keys) and the facts that tie them together. Both the ingredient
 *  ledger and the recipe book read them. */
module InventoryRecords {
  import opened Common

  /** One raw material in the warehouse; quantities are in `unit`. */
  datatype Ingredient = Ingredient(
    id: string,
    name: string,
    unit: string,
    stock: real,
    minStock: real,
    costPerUnit: real,
    active: bool)

  /** How much of one ingredient one serving of a product consumes. */
  datatype RecipeLine = RecipeLine(ingredientId: string, quantity: real)

  /** The bill of materials of one product. */
  datatype Recipe = Recipe(id: string, productId: string, name: string, ingredients: seq<RecipeLine>)

  /** `ingredients.findIndex(ing => ing.id === id)`. */
  function IngredientIndex(s: seq<Ingredient>, id: string): (r: int)
    ensures -1 <= r < |s|
    ensures r == -1 <==> forall j :: 0 <= j < |s| ==> s[j].id != id
    ensures 0 <= r ==> s[r].id == id && forall j :: 0 <= j < r ==> s[j].id != id
  {
    FirstIndex(s, (g: Ingredient) => g.id == id)
  }

  /** getIngredientById: the first ingredient with that id, if any. */
  function IngredientById(s: seq<Ingredient>, id: string): (r: Option<Ingredient>)
    ensures r.Some? <==> exists j :: 0 <= j < |s| && s[j].id == id
    ensures r.Some? ==> r.value.id == id && r.value == s[IngredientIndex(s, id)]
  {
    var i := IngredientIndex(s, id);
    if i < 0 then None else Some(s[i])
  }

  /** Two sequences of ingredients whose ids agree position by position: a change
   *  of stock, activity or name keeps every lookup by id where it was. */
  predicate SameIds(s: seq<Ingredient>, t: seq<Ingredient>)
  {
    |s| == |t| && forall j :: 0 <= j < |s| ==> s[j].id == t[j].id
  }

  lemma {:induction false} SameIdsSameIndex(s: seq<Ingredient>, t: seq<Ingredient>, id: string)
    requires SameIds(s, t)
    ensures IngredientIndex(t, id) == IngredientIndex(s, id)
  {
    assert forall j :: 0 <= j < |s| ==> (s[j].id == id <==> t[j].id == id);
  }

  /** Some recipe line uses the ingredient: deleteIngredient refuses to remove it. */
  predicate UsedByRecipe(recipes: seq<Recipe>, id: string)
  {
    exists i, k :: 0 <= i < |recipes| && 0 <= k < |recipes[i].ingredients| &&
                   recipes[i].ingredients[k].ingredientId == id
  }

  /** Referential integrity: every recipe line names an ingredient of the ledger. */
  predicate LinesResolve(recipes: seq<Recipe>, s: seq<Ingredient>)
  {
    forall i, k :: 0 <= i < |recipes| && 0 <= k < |recipes[i].ingredients| ==>
      IngredientIndex(s, recipes[i].ingredients[k].ingredientId) >= 0
  }
}
