/** The ingredient ledger (js/inventory/ingredients.js): the warehouse of raw
 *  materials, its CRUD operations, stock movements and stock checks. */
module Ingredients {
  import opened Common
  import opened InventoryRecords

  /** The fields addIngredient reads; an omitted amount is None and counts as 0. */
  datatype IngredientInput = IngredientInput(
    name: string,
    unit: string,
    stock: Option<real>,
    minStock: Option<real>,
    costPerUnit: Option<real>)

  /** The fields updateIngredient reads; None is a field the caller left out. */
  datatype IngredientPatch = IngredientPatch(
    name: Option<string>,
    unit: Option<string>,
    stock: Option<real>,
    minStock: Option<real>,
    costPerUnit: Option<real>)

  /** Why a ledger operation refused; each stands for one message of the source. */
  datatype LedgerError =
    | NameRequired
    | UnitRequired
    | NegativeAmount
    | DuplicateName
    | NotFound
    | UsedInRecipe
    | NonPositiveQuantity
    | InsufficientStock(name: string, unit: string, available: real)

  /** The "running low" warning of a deduction: name, remaining stock, unit. */
  datatype LowStockWarning = LowStockWarning(name: string, remaining: real, unit: string)

  datatype StockChange = StockChange(newStock: real, warning: Option<LowStockWarning>)

  /** One row of checkLowStock. */
  datatype LowStockEntry = LowStockEntry(ingredient: Ingredient, shortage: real)

  /** One input of checkStockAvailability: an ingredient id and the quantity needed. */
  datatype Requirement = Requirement(ingredientId: string, quantity: real)

  /** One row of checkStockAvailability's shortages: an id the ledger does not know
   *  (reported with 0 available), or an ingredient with too little stock. */
  datatype Shortage =
    | Unknown(ingredientId: string, required: real)
    | Short(ingredientId: string, name: string, unit: string, required: real, available: real)
  {
    function Available(): real
    {
      if Unknown? then 0.0 else available
    }

    function Deficit(): real
    {
      required - Available()
    }
  }

  datatype Availability = Availability(canMake: bool, shortages: seq<Shortage>)

  // ------------------------------------------------------------------
  // Invariants of the ledger
  // ------------------------------------------------------------------

  predicate IdsUnique(s: seq<Ingredient>)
  {
    forall i, j :: 0 <= i < j < |s| ==> s[i].id != s[j].id
  }

  /** No two ingredients share a name, ignoring case. */
  predicate NamesDistinct(s: seq<Ingredient>)
  {
    forall i, j :: 0 <= i < j < |s| ==> ToLower(s[i].name) != ToLower(s[j].name)
  }

  predicate StockNonNegative(s: seq<Ingredient>)
  {
    forall j :: 0 <= j < |s| ==> s[j].stock >= 0.0
  }

  /** An existing ingredient whose lower-cased name equals the trimmed, lower-cased
   *  candidate (the existing name itself is not trimmed). */
  predicate NameTaken(s: seq<Ingredient>, name: string)
  {
    exists j :: 0 <= j < |s| && ToLower(s[j].name) == ToLower(Trim(name))
  }

  /** The same, among the ingredients whose id differs from `id`. */
  predicate NameTakenByOther(s: seq<Ingredient>, id: string, name: string)
  {
    exists j :: 0 <= j < |s| && s[j].id != id && ToLower(s[j].name) == ToLower(Trim(name))
  }

  predicate HasNegativeAmount(input: IngredientInput)
  {
    input.stock.GetOr(0.0) < 0.0 || input.minStock.GetOr(0.0) < 0.0 || input.costPerUnit.GetOr(0.0) < 0.0
  }

  /** The record updateIngredient writes: a supplied non-empty name or unit is
   *  trimmed, a supplied amount replaces the old one, everything else is kept. */
  function Patched(g: Ingredient, patch: IngredientPatch): (h: Ingredient)
    ensures h.id == g.id && h.active == g.active
  {
    g.(name := if patch.name.Some? && patch.name.value != "" then Trim(patch.name.value) else g.name,
       unit := if patch.unit.Some? && patch.unit.value != "" then Trim(patch.unit.value) else g.unit,
       stock := patch.stock.GetOr(g.stock),
       minStock := patch.minStock.GetOr(g.minStock),
       costPerUnit := patch.costPerUnit.GetOr(g.costPerUnit))
  }

  /** `ingredients.filter(ing => ing.id !== id)`. */
  function Without(s: seq<Ingredient>, id: string): (t: seq<Ingredient>)
    ensures forall g :: g in t <==> g in s && g.id != id
    ensures |t| <= |s|
  {
    Filter(s, (g: Ingredient) => g.id != id)
  }

  // ------------------------------------------------------------------
  // Queries
  // ------------------------------------------------------------------

  /** getIngredients(activeOnly). */
  function GetIngredients(s: seq<Ingredient>, activeOnly: bool): (r: seq<Ingredient>)
    ensures !activeOnly ==> r == s
    ensures activeOnly ==> forall g :: g in r <==> g in s && g.active
    ensures |r| <= |s|
  {
    if activeOnly then Filter(s, (g: Ingredient) => g.active) else s
  }

  /** checkLowStock: the active ingredients at or below their minimum, each with the
   *  quantity missing to reach that minimum. */
  function CheckLowStock(s: seq<Ingredient>): (r: seq<LowStockEntry>)
    ensures |r| <= |s|
    ensures forall e :: e in r ==> e.ingredient in s && e.ingredient.active &&
                                   e.ingredient.stock <= e.ingredient.minStock &&
                                   e.shortage == e.ingredient.minStock - e.ingredient.stock &&
                                   e.shortage >= 0.0
    ensures forall g :: g in s && g.active && g.stock <= g.minStock ==>
                        LowStockEntry(g, g.minStock - g.stock) in r
  {
    if |s| == 0 then []
    else
      var g := s[0];
      var rest := CheckLowStock(s[1..]);
      assert forall h :: h in s ==> h == g || h in s[1..];
      if g.active && g.stock <= g.minStock then [LowStockEntry(g, g.minStock - g.stock)] + rest else rest
  }

  /** The ledger can serve the requirement: the id is known and its stock suffices. */
  predicate Covered(s: seq<Ingredient>, req: Requirement)
  {
    var g := IngredientById(s, req.ingredientId);
    g.Some? && g.value.stock >= req.quantity
  }

  /** The shortage checkStockAvailability reports for one requirement, if any. */
  function ShortageOf(s: seq<Ingredient>, req: Requirement): (r: Option<Shortage>)
    ensures r.None? <==> Covered(s, req)
    ensures r.Some? ==> r.value.ingredientId == req.ingredientId && r.value.required == req.quantity
    ensures r.Some? ==> r.value.Deficit() == req.quantity - r.value.Available()
  {
    var g := IngredientById(s, req.ingredientId);
    if g.None? then Some(Unknown(req.ingredientId, req.quantity))
    else if g.value.stock < req.quantity then
      Some(Short(req.ingredientId, g.value.name, g.value.unit, req.quantity, g.value.stock))
    else None
  }

  /** The shortages of a list of requirements, in the order of the list. */
  function Shortages(s: seq<Ingredient>, reqs: seq<Requirement>): (r: seq<Shortage>)
    ensures |r| <= |reqs|
  {
    if |reqs| == 0 then []
    else
      var last := ShortageOf(s, reqs[|reqs| - 1]);
      Shortages(s, reqs[..|reqs| - 1]) + (if last.Some? then [last.value] else [])
  }

  /** One step of the walk: the shortages of one more requirement. */
  lemma ShortagesStep(s: seq<Ingredient>, reqs: seq<Requirement>, n: int)
    requires 0 <= n < |reqs|
    ensures Shortages(s, reqs[..n + 1]) ==
            Shortages(s, reqs[..n]) + (var sh := ShortageOf(s, reqs[n]); if sh.Some? then [sh.value] else [])
  {
    var t := reqs[..n + 1];
    assert t[..|t| - 1] == reqs[..n];
    assert t[|t| - 1] == reqs[n];
  }

  /** No shortage is reported exactly when every requirement is covered. */
  lemma {:induction false} ShortagesEmptyIffCovered(s: seq<Ingredient>, reqs: seq<Requirement>)
    ensures Shortages(s, reqs) == [] <==> forall k :: 0 <= k < |reqs| ==> Covered(s, reqs[k])
  {
    if |reqs| > 0 {
      var init := reqs[..|reqs| - 1];
      var last := reqs[|reqs| - 1];
      ShortagesEmptyIffCovered(s, init);
      assert Shortages(s, reqs) == [] <==> Shortages(s, init) == [] && Covered(s, last);
      AllSnoc(reqs, init, (r: Requirement) => Covered(s, r));
    }
  }

  /** Every shortage is positive when the requirements are: an unknown id lacks all
   *  of it, a short ingredient lacks what its stock does not cover. */
  lemma {:induction false} ShortagesArePositive(s: seq<Ingredient>, reqs: seq<Requirement>)
    requires forall k :: 0 <= k < |reqs| ==> reqs[k].quantity > 0.0
    ensures forall sh :: sh in Shortages(s, reqs) ==> sh.Deficit() > 0.0
  {
    if |reqs| > 0 {
      var init := reqs[..|reqs| - 1];
      assert forall k :: 0 <= k < |init| ==> init[k] == reqs[k];
      ShortagesArePositive(s, init);
    }
  }

  // ------------------------------------------------------------------
  // Stock movements as functions of the ledger
  // ------------------------------------------------------------------

  /** deductStock on the list `s`: the reply and the list afterwards. */
  function Deduct(s: seq<Ingredient>, id: string, quantity: real): (o: (Result<StockChange, LedgerError>, seq<Ingredient>))
    ensures IngredientIndex(s, id) < 0 ==> o.0 == Err(NotFound)
    ensures IngredientIndex(s, id) >= 0 && quantity <= 0.0 ==> o.0 == Err(NonPositiveQuantity)
    ensures var i := IngredientIndex(s, id);
            i >= 0 && quantity > 0.0 && s[i].stock < quantity ==>
            o.0 == Err(InsufficientStock(s[i].name, s[i].unit, s[i].stock))
    ensures o.0.Err? ==> o.1 == s
    ensures o.0.Ok? <==> var i := IngredientIndex(s, id); i >= 0 && quantity > 0.0 && s[i].stock >= quantity
    ensures o.0.Ok? ==>
            var i := IngredientIndex(s, id);
            o.1 == s[i := s[i].(stock := s[i].stock - quantity)] &&
            o.0.value.newStock == o.1[i].stock >= 0.0 &&
            (o.0.value.warning.Some? <==> o.1[i].stock <= s[i].minStock)
    ensures SameIds(s, o.1)
    ensures StockNonNegative(s) ==> StockNonNegative(o.1)
  {
    var i := IngredientIndex(s, id);
    if i < 0 then (Err(NotFound), s)
    else if quantity <= 0.0 then (Err(NonPositiveQuantity), s)
    else if s[i].stock < quantity then (Err(InsufficientStock(s[i].name, s[i].unit, s[i].stock)), s)
    else
      var g := s[i].(stock := s[i].stock - quantity);
      var warning := if g.stock <= g.minStock then Some(LowStockWarning(g.name, g.stock, g.unit)) else None;
      (Ok(StockChange(g.stock, warning)), s[i := g])
  }

  /** addStock on the list `s`: the reply (the new stock) and the list afterwards. */
  function Restock(s: seq<Ingredient>, id: string, quantity: real): (o: (Result<real, LedgerError>, seq<Ingredient>))
    ensures IngredientIndex(s, id) < 0 ==> o.0 == Err(NotFound)
    ensures IngredientIndex(s, id) >= 0 && quantity <= 0.0 ==> o.0 == Err(NonPositiveQuantity)
    ensures o.0.Err? ==> o.1 == s
    ensures o.0.Ok? <==> IngredientIndex(s, id) >= 0 && quantity > 0.0
    ensures o.0.Ok? ==>
            var i := IngredientIndex(s, id);
            o.1 == s[i := s[i].(stock := s[i].stock + quantity)] && o.0.value == o.1[i].stock > s[i].stock
    ensures SameIds(s, o.1)
    ensures StockNonNegative(s) ==> StockNonNegative(o.1)
  {
    var i := IngredientIndex(s, id);
    if i < 0 then (Err(NotFound), s)
    else if quantity <= 0.0 then (Err(NonPositiveQuantity), s)
    else
      var g := s[i].(stock := s[i].stock + quantity);
      (Ok(g.stock), s[i := g])
  }

  /** Taking out what was just put in restores the ledger, provided the stock was not
   *  negative before (a negative stock plus q is below q and the deduction fails). */
  lemma {:induction false} DeductUndoesRestock(s: seq<Ingredient>, id: string, quantity: real)
    requires Restock(s, id, quantity).0.Ok?
    requires s[IngredientIndex(s, id)].stock >= 0.0
    ensures Deduct(Restock(s, id, quantity).1, id, quantity).0.Ok?
    ensures Deduct(Restock(s, id, quantity).1, id, quantity).1 == s
  {
    var t := Restock(s, id, quantity).1;
    SameIdsSameIndex(s, t, id);
  }

  /** Putting back what a successful deduction took out restores the ledger. */
  lemma {:induction false} RestockUndoesDeduct(s: seq<Ingredient>, id: string, quantity: real)
    requires Deduct(s, id, quantity).0.Ok?
    ensures Restock(Deduct(s, id, quantity).1, id, quantity).0.Ok?
    ensures Restock(Deduct(s, id, quantity).1, id, quantity).1 == s
  {
    var t := Deduct(s, id, quantity).1;
    SameIdsSameIndex(s, t, id);
  }

  /** toggleIngredient on the list `s`. */
  function FlipActive(s: seq<Ingredient>, id: string): (t: seq<Ingredient>)
    ensures SameIds(s, t)
    ensures forall j :: 0 <= j < |s| && j != IngredientIndex(s, id) ==> t[j] == s[j]
    ensures IngredientIndex(s, id) >= 0 ==>
            t[IngredientIndex(s, id)] == s[IngredientIndex(s, id)].(active := !s[IngredientIndex(s, id)].active)
  {
    var i := IngredientIndex(s, id);
    if i < 0 then s else s[i := s[i].(active := !s[i].active)]
  }

  /** Toggling the same ingredient twice gives back the ledger. */
  lemma {:induction false} FlipActiveTwice(s: seq<Ingredient>, id: string)
    ensures FlipActive(FlipActive(s, id), id) == s
  {
    SameIdsSameIndex(s, FlipActive(s, id), id);
  }

  // ------------------------------------------------------------------
  // The ledger
  // ------------------------------------------------------------------

  /** Appending an ingredient with a fresh id and an unused name keeps the
   *  ledger's invariants. */
  lemma AppendIngredientKeeps(s: seq<Ingredient>, g: Ingredient)
    requires forall j :: 0 <= j < |s| ==> s[j].id != g.id
    requires forall j :: 0 <= j < |s| ==> ToLower(s[j].name) != ToLower(g.name)
    ensures IdsUnique(s) ==> IdsUnique(s + [g])
    ensures NamesDistinct(s) ==> NamesDistinct(s + [g])
    ensures StockNonNegative(s) && g.stock >= 0.0 ==> StockNonNegative(s + [g])
  {
  }

  /** Replacing the i-th ingredient by one with the same id, whose name is
   *  the old one or unused by the others, keeps ids unique and names distinct. */
  lemma ReplaceIngredientKeeps(s: seq<Ingredient>, i: int, h: Ingredient)
    requires 0 <= i < |s| && h.id == s[i].id
    requires h.name == s[i].name ||
             forall j :: 0 <= j < |s| && s[j].id != h.id ==> ToLower(s[j].name) != ToLower(h.name)
    ensures IdsUnique(s) ==> IdsUnique(s[i := h])
    ensures IdsUnique(s) && NamesDistinct(s) ==> NamesDistinct(s[i := h])
  {
  }

  class IngredientLedger {
    var items: seq<Ingredient>

    constructor (seed: seq<Ingredient>)
      ensures items == seed
    {
      items := seed;
    }

    /** addIngredient: validates (name, unit, amounts, duplicate name, in that order)
     *  and appends the trimmed record, active. `newId` comes from the clock. */
    method AddIngredient(input: IngredientInput, newId: string) returns (r: Result<Ingredient, LedgerError>)
      requires forall j :: 0 <= j < |items| ==> items[j].id != newId
      modifies this
      ensures IsBlank(input.name) ==> r == Err(NameRequired)
      ensures !IsBlank(input.name) && IsBlank(input.unit) ==> r == Err(UnitRequired)
      ensures !IsBlank(input.name) && !IsBlank(input.unit) && HasNegativeAmount(input) ==> r == Err(NegativeAmount)
      ensures (!IsBlank(input.name) && !IsBlank(input.unit) && !HasNegativeAmount(input) &&
               NameTaken(old(items), input.name)) ==> r == Err(DuplicateName)
      ensures r.Ok? <==> !IsBlank(input.name) && !IsBlank(input.unit) && !HasNegativeAmount(input) &&
                         !NameTaken(old(items), input.name)
      ensures r.Err? ==> items == old(items)
      ensures r.Ok? ==>
              r.value == Ingredient(newId, Trim(input.name), Trim(input.unit), input.stock.GetOr(0.0),
                                    input.minStock.GetOr(0.0), input.costPerUnit.GetOr(0.0), true) &&
              items == old(items) + [r.value]
      ensures IdsUnique(old(items)) ==> IdsUnique(items)
      ensures NamesDistinct(old(items)) ==> NamesDistinct(items)
      ensures StockNonNegative(old(items)) ==> StockNonNegative(items)
    {
      if IsBlank(input.name) {
        return Err(NameRequired);
      }
      if IsBlank(input.unit) {
        return Err(UnitRequired);
      }
      if HasNegativeAmount(input) {
        return Err(NegativeAmount);
      }
      if NameTaken(items, input.name) {
        return Err(DuplicateName);
      }
      var g := Ingredient(newId, Trim(input.name), Trim(input.unit), input.stock.GetOr(0.0),
                          input.minStock.GetOr(0.0), input.costPerUnit.GetOr(0.0), true);
      AppendIngredientKeeps(items, g);
      items := items + [g];
      r := Ok(g);
    }

    /** updateIngredient: merges the supplied fields into the first ingredient with
     *  that id. A supplied name must not be blank nor clash with another ingredient;
     *  the unit and the amounts are not validated. */
    method UpdateIngredient(id: string, patch: IngredientPatch) returns (r: Result<Ingredient, LedgerError>)
      modifies this
      ensures IngredientIndex(old(items), id) < 0 ==> r == Err(NotFound)
      ensures IngredientIndex(old(items), id) >= 0 && patch.name.Some? && IsBlank(patch.name.value) ==>
              r == Err(NameRequired)
      ensures (IngredientIndex(old(items), id) >= 0 && patch.name.Some? && !IsBlank(patch.name.value) &&
               NameTakenByOther(old(items), id, patch.name.value)) ==> r == Err(DuplicateName)
      ensures r.Ok? <==> IngredientIndex(old(items), id) >= 0 &&
                         (patch.name.Some? ==> !IsBlank(patch.name.value) &&
                                               !NameTakenByOther(old(items), id, patch.name.value))
      ensures r.Err? ==> items == old(items)
      ensures r.Ok? ==>
              var i := IngredientIndex(old(items), id);
              i >= 0 && r.value == Patched(old(items)[i], patch) && items == old(items)[i := r.value]
      ensures IdsUnique(old(items)) ==> IdsUnique(items)
      ensures IdsUnique(old(items)) && NamesDistinct(old(items)) ==> NamesDistinct(items)
    {
      var i := IngredientIndex(items, id);
      if i < 0 {
        return Err(NotFound);
      }
      if patch.name.Some? && IsBlank(patch.name.value) {
        return Err(NameRequired);
      }
      if patch.name.Some? && patch.name.value != "" && NameTakenByOther(items, id, patch.name.value) {
        return Err(DuplicateName);
      }
      var g := Patched(items[i], patch);
      ReplaceIngredientKeeps(items, i, g);
      items := items[i := g];
      r := Ok(g);
    }

    /** deleteIngredient: refuses an unknown id and an ingredient some recipe uses;
     *  otherwise removes every ingredient with that id. */
    method DeleteIngredient(id: string, recipes: seq<Recipe>) returns (r: Result<(), LedgerError>)
      modifies this
      ensures IngredientIndex(old(items), id) < 0 ==> r == Err(NotFound)
      ensures IngredientIndex(old(items), id) >= 0 && UsedByRecipe(recipes, id) ==> r == Err(UsedInRecipe)
      ensures r.Ok? <==> IngredientIndex(old(items), id) >= 0 && !UsedByRecipe(recipes, id)
      ensures r.Err? ==> items == old(items)
      ensures r.Ok? ==> items == Without(old(items), id)
      ensures LinesResolve(recipes, old(items)) ==> LinesResolve(recipes, items)
    {
      var i := IngredientIndex(items, id);
      if i < 0 {
        return Err(NotFound);
      }
      if UsedByRecipe(recipes, id) {
        return Err(UsedInRecipe);
      }
      ghost var before := items;
      items := Without(items, id);
      r := Ok(());
      forall a, k | 0 <= a < |recipes| && 0 <= k < |recipes[a].ingredients| && LinesResolve(recipes, before)
        ensures IngredientIndex(items, recipes[a].ingredients[k].ingredientId) >= 0
      {
        var lid := recipes[a].ingredients[k].ingredientId;
        var j := IngredientIndex(before, lid);
        assert lid != id;
        assert before[j] in items;
      }
    }

    /** toggleIngredient: flips `active` and answers the new value. */
    method ToggleIngredient(id: string) returns (r: Result<bool, LedgerError>)
      modifies this
      ensures IngredientIndex(old(items), id) < 0 <==> r == Err(NotFound)
      ensures items == FlipActive(old(items), id)
      ensures IngredientIndex(old(items), id) >= 0 ==> r == Ok(items[IngredientIndex(old(items), id)].active)
    {
      var i := IngredientIndex(items, id);
      if i < 0 {
        return Err(NotFound);
      }
      items := items[i := items[i].(active := !items[i].active)];
      r := Ok(items[i].active);
    }

    /** deductStock: takes `quantity` out of the stock of an existing ingredient when
     *  the stock covers it, and warns when the rest is at or below the minimum. */
    method DeductStock(id: string, quantity: real) returns (r: Result<StockChange, LedgerError>)
      modifies this
      ensures (r, items) == Deduct(old(items), id, quantity)
    {
      var i := IngredientIndex(items, id);
      if i < 0 {
        return Err(NotFound);
      }
      if quantity <= 0.0 {
        return Err(NonPositiveQuantity);
      }
      var g := items[i];
      if g.stock < quantity {
        return Err(InsufficientStock(g.name, g.unit, g.stock));
      }
      items := items[i := g.(stock := g.stock - quantity)];
      var warning := None;
      if items[i].stock <= g.minStock {
        warning := Some(LowStockWarning(g.name, items[i].stock, g.unit));
      }
      r := Ok(StockChange(items[i].stock, warning));
    }

    /** addStock: adds a positive `quantity` to an existing ingredient. */
    method AddStock(id: string, quantity: real) returns (r: Result<real, LedgerError>)
      modifies this
      ensures (r, items) == Restock(old(items), id, quantity)
    {
      var i := IngredientIndex(items, id);
      if i < 0 {
        return Err(NotFound);
      }
      if quantity <= 0.0 {
        return Err(NonPositiveQuantity);
      }
      items := items[i := items[i].(stock := items[i].stock + quantity)];
      r := Ok(items[i].stock);
    }

    /** checkStockAvailability: walks the requirements and collects a shortage for
     *  every one the ledger cannot cover; it can make the order when none is found. */
    method CheckStockAvailability(reqs: seq<Requirement>) returns (a: Availability)
      ensures a.shortages == Shortages(items, reqs)
      ensures a.canMake <==> forall k :: 0 <= k < |reqs| ==> Covered(items, reqs[k])
    {
      var shortages: seq<Shortage> := [];
      for n := 0 to |reqs|
        invariant shortages == Shortages(items, reqs[..n])
      {
        ShortagesStep(items, reqs, n);
        var g := IngredientById(items, reqs[n].ingredientId);
        if g.None? {
          shortages := shortages + [Unknown(reqs[n].ingredientId, reqs[n].quantity)];
        } else if g.value.stock < reqs[n].quantity {
          shortages := shortages + [Short(reqs[n].ingredientId, g.value.name, g.value.unit,
                                          reqs[n].quantity, g.value.stock)];
        }
      }
      WholePrefix(reqs);
      ShortagesEmptyIffCovered(items, reqs);
      a := Availability(shortages == [], shortages);
    }
  }
}
