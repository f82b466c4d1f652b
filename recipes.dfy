/** The recipe book (js/inventory/recipes.js): one bill of materials per product,
 *  its cost and profit, and the automatic stock export run when an order is placed. */
module Recipes {
  import opened Common
  import opened InventoryRecords
  import opened Products
  import opened Ingredients

  /** The fields addRecipe reads; a missing productId or name is "". */
  datatype RecipeInput = RecipeInput(productId: string, name: string, ingredients: seq<RecipeLine>)

  /** The fields updateRecipe reads; None is a field the caller left out. */
  datatype RecipePatch = RecipePatch(productId: Option<string>, name: Option<string>, ingredients: Option<seq<RecipeLine>>)

  datatype RecipeError =
    | ProductRequired
    | RecipeNameRequired
    | IngredientsRequired
    | ProductNotFound
    | ProductHasRecipe(productName: string)
    | IngredientRequired
    | UnknownIngredient(ingredientId: string)
    | InvalidQuantity(ingredientName: string)
    | RecipeNotFound

  /** One row of calculateRecipeCost's details. */
  datatype CostDetail = CostDetail(ingredientId: string, name: string, quantity: real, unit: string,
                                   costPerUnit: real, subtotal: real)

  datatype CostReport = CostReport(cost: real, details: seq<CostDetail>)

  datatype ProfitReport = ProfitReport(price: real, cost: real, profit: real, margin: real)

  /** One line of an order (a cart item): the product and how many; None when the
   *  item carries no quantity. */
  datatype OrderLine = OrderLine(productId: string, quantity: Option<real>)

  /** autoExportForProduct's reply: the product has no recipe (nothing to do), or
   *  the errors of the failed deductions and the warnings of the successful ones. */
  datatype ExportReport =
    | NoRecipe
    | Exported(errors: seq<LedgerError>, warnings: seq<LowStockWarning>)
  {
    predicate Success()
    {
      NoRecipe? || errors == []
    }

    function Warnings(): seq<LowStockWarning>
    {
      if NoRecipe? then [] else warnings
    }
  }

  /** A product of the order whose export failed, with the errors of its lines. */
  datatype ItemFailure = ItemFailure(productId: string, errors: seq<LedgerError>)

  /** autoExportForOrder's reply. */
  datatype OrderExportReport =
    | EmptyOrder
    | OrderExported(failures: seq<ItemFailure>, warnings: seq<LowStockWarning>)
  {
    predicate Success()
    {
      EmptyOrder? || failures == []
    }
  }

  // ------------------------------------------------------------------
  // Lookups and invariants
  // ------------------------------------------------------------------

  function RecipeIndex(rs: seq<Recipe>, id: string): (r: int)
    ensures -1 <= r < |rs|
    ensures r == -1 <==> forall j :: 0 <= j < |rs| ==> rs[j].id != id
    ensures 0 <= r ==> rs[r].id == id && forall j :: 0 <= j < r ==> rs[j].id != id
  {
    FirstIndex(rs, (x: Recipe) => x.id == id)
  }

  /** getRecipeById. */
  function GetRecipeById(rs: seq<Recipe>, id: string): (r: Option<Recipe>)
    ensures r.Some? <==> exists j :: 0 <= j < |rs| && rs[j].id == id
    ensures r.Some? ==> r.value == rs[RecipeIndex(rs, id)]
  {
    var i := RecipeIndex(rs, id);
    if i < 0 then None else Some(rs[i])
  }

  function ProductRecipeIndex(rs: seq<Recipe>, productId: string): (r: int)
    ensures -1 <= r < |rs|
    ensures r == -1 <==> forall j :: 0 <= j < |rs| ==> rs[j].productId != productId
    ensures 0 <= r ==> rs[r].productId == productId && forall j :: 0 <= j < r ==> rs[j].productId != productId
  {
    FirstIndex(rs, (x: Recipe) => x.productId == productId)
  }

  /** getRecipeByProductId: the first recipe of that product. */
  function GetRecipeByProductId(rs: seq<Recipe>, productId: string): (r: Option<Recipe>)
    ensures r.Some? <==> exists j :: 0 <= j < |rs| && rs[j].productId == productId
    ensures r.Some? ==> r.value == rs[ProductRecipeIndex(rs, productId)] && r.value.productId == productId
  {
    var i := ProductRecipeIndex(rs, productId);
    if i < 0 then None else Some(rs[i])
  }

  predicate RecipeIdsUnique(rs: seq<Recipe>)
  {
    forall i, j :: 0 <= i < j < |rs| ==> rs[i].id != rs[j].id
  }

  /** At most one recipe per product. */
  predicate OnePerProduct(rs: seq<Recipe>)
  {
    forall i, j :: 0 <= i < j < |rs| ==> rs[i].productId != rs[j].productId
  }

  /** Every stored recipe line asks for a positive quantity. */
  predicate PositiveQuantities(rs: seq<Recipe>)
  {
    forall i, k :: 0 <= i < |rs| && 0 <= k < |rs[i].ingredients| ==> rs[i].ingredients[k].quantity > 0.0
  }

  /** Under one-recipe-per-product, the recipe found for a product is the only one. */
  lemma {:induction false} OnlyRecipeOfProduct(rs: seq<Recipe>, productId: string, j: int)
    requires OnePerProduct(rs)
    requires 0 <= j < |rs| && rs[j].productId == productId
    ensures ProductRecipeIndex(rs, productId) == j
  {
    var i := ProductRecipeIndex(rs, productId);
    assert i <= j;
    assert rs[i].productId == rs[j].productId;
  }

  // ------------------------------------------------------------------
  // Validation of recipe lines
  // ------------------------------------------------------------------

  /** The message a line earns: no ingredient chosen, an unknown ingredient, or a
   *  quantity that is missing or not positive. */
  function LineError(s: seq<Ingredient>, line: RecipeLine): (e: Option<RecipeError>)
    ensures e.None? <==> line.ingredientId != "" && IngredientIndex(s, line.ingredientId) >= 0 && line.quantity > 0.0
  {
    if line.ingredientId == "" then Some(IngredientRequired)
    else
      var g := IngredientById(s, line.ingredientId);
      if g.None? then Some(UnknownIngredient(line.ingredientId))
      else if line.quantity <= 0.0 then Some(InvalidQuantity(g.value.name))
      else None
  }

  /** The message of the first invalid line, if any. */
  function FirstLineError(s: seq<Ingredient>, lines: seq<RecipeLine>): (e: Option<RecipeError>)
    ensures e.None? <==> forall k :: 0 <= k < |lines| ==> LineError(s, lines[k]).None?
    ensures e.Some? ==> exists k :: 0 <= k < |lines| && e == LineError(s, lines[k])
  {
    if |lines| == 0 then None
    else if LineError(s, lines[0]).Some? then LineError(s, lines[0])
    else
      var e := FirstLineError(s, lines[1..]);
      assert forall k :: 0 < k < |lines| ==> lines[k] == lines[1..][k - 1];
      e
  }

  /** The first line error of a suffix: its head's error, or the error of
   *  the rest when the head is valid. */
  lemma FirstLineErrorAt(s: seq<Ingredient>, lines: seq<RecipeLine>, n: int)
    requires 0 <= n < |lines|
    ensures FirstLineError(s, lines[n..]) ==
            if LineError(s, lines[n]).Some? then LineError(s, lines[n]) else FirstLineError(s, lines[n + 1..])
  {
    assert lines[n..][0] == lines[n];
    assert lines[n..][1..] == lines[n + 1..];
  }

  /** The line checks addRecipe and updateRecipe run: the lines in order,
   *  stopping at the first invalid one. */
  method CheckLines(s: seq<Ingredient>, lines: seq<RecipeLine>) returns (e: Option<RecipeError>)
    ensures e == FirstLineError(s, lines)
  {
    for n := 0 to |lines|
      invariant FirstLineError(s, lines) == FirstLineError(s, lines[n..])
    {
      FirstLineErrorAt(s, lines, n);
      var err := LineError(s, lines[n]);
      if err.Some? {
        return err;
      }
    }
    return None;
  }

  // ------------------------------------------------------------------
  // Cost and profit
  // ------------------------------------------------------------------

  /** `item.quantity * ingredient.costPerUnit`. */
  function LineSubtotal(line: RecipeLine, g: Ingredient): real
  {
    line.quantity * g.costPerUnit
  }

  /** What one line adds to a recipe's cost: its subtotal, or nothing when its
   *  ingredient does not resolve. */
  function LineCost(s: seq<Ingredient>, line: RecipeLine): real
  {
    var g := IngredientById(s, line.ingredientId);
    if g.None? then 0.0 else LineSubtotal(line, g.value)
  }

  /** Σ quantity × costPerUnit over the lines whose ingredient resolves. */
  function LinesCost(s: seq<Ingredient>, lines: seq<RecipeLine>): real
  {
    if |lines| == 0 then 0.0 else LinesCost(s, lines[..|lines| - 1]) + LineCost(s, lines[|lines| - 1])
  }

  /** The cost of a list of lines is the cost of its parts. */
  lemma {:induction false} LinesCostAppend(s: seq<Ingredient>, a: seq<RecipeLine>, b: seq<RecipeLine>)
    ensures LinesCost(s, a + b) == LinesCost(s, a) + LinesCost(s, b)
    decreases |b|
  {
    if |b| == 0 {
      assert a + b == a;
    } else {
      assert (a + b)[..|a + b| - 1] == a + b[..|b| - 1];
      assert (a + b)[|a + b| - 1] == b[|b| - 1];
      LinesCostAppend(s, a, b[..|b| - 1]);
    }
  }

  /** With non-negative quantities and unit costs, no recipe costs less than zero. */
  lemma {:induction false} LinesCostNonNegative(s: seq<Ingredient>, lines: seq<RecipeLine>)
    requires forall k :: 0 <= k < |lines| ==> lines[k].quantity >= 0.0
    requires forall j :: 0 <= j < |s| ==> s[j].costPerUnit >= 0.0
    ensures LinesCost(s, lines) >= 0.0
  {
    if |lines| > 0 {
      LinesCostNonNegative(s, lines[..|lines| - 1]);
      var line := lines[|lines| - 1];
      var g := IngredientById(s, line.ingredientId);
      if g.Some? {
        assert g.value.costPerUnit >= 0.0;
        assert LineSubtotal(line, g.value) >= 0.0;
      }
    }
  }

  function SubtotalSum(ds: seq<CostDetail>): real
  {
    if |ds| == 0 then 0.0 else SubtotalSum(ds[..|ds| - 1]) + ds[|ds| - 1].subtotal
  }

  /** The detail row calculateRecipeCost pushes for a line whose ingredient is `g`. */
  function DetailRow(g: Ingredient, line: RecipeLine): CostDetail
  {
    CostDetail(g.id, g.name, line.quantity, g.unit, g.costPerUnit, LineSubtotal(line, g))
  }

  /** The detail rows of calculateRecipeCost: one per line whose ingredient resolves. */
  function CostDetails(s: seq<Ingredient>, lines: seq<RecipeLine>): seq<CostDetail>
  {
    if |lines| == 0 then []
    else
      var line := lines[|lines| - 1];
      var g := IngredientById(s, line.ingredientId);
      CostDetails(s, lines[..|lines| - 1]) + (if g.None? then [] else [DetailRow(g.value, line)])
  }

  /** The rows add up to the cost, and every row describes a resolved ingredient:
   *  its id, name, unit and unit cost, and the subtotal of its quantity. */
  lemma {:induction false} CostDetailsMatchCost(s: seq<Ingredient>, lines: seq<RecipeLine>)
    ensures SubtotalSum(CostDetails(s, lines)) == LinesCost(s, lines)
    ensures |CostDetails(s, lines)| <= |lines|
    ensures forall d :: d in CostDetails(s, lines) ==>
              IngredientById(s, d.ingredientId).Some? &&
              d == DetailRow(IngredientById(s, d.ingredientId).value, RecipeLine(d.ingredientId, d.quantity))
  {
    if |lines| > 0 {
      var init := lines[..|lines| - 1];
      var line := lines[|lines| - 1];
      CostDetailsMatchCost(s, init);
      var g := IngredientById(s, line.ingredientId);
      var ds := CostDetails(s, init);
      if g.Some? {
        var d := DetailRow(g.value, line);
        assert (ds + [d])[..|ds|] == ds;
        assert IngredientById(s, d.ingredientId) == g;
      } else {
        assert ds + [] == ds;
      }
    }
  }

  /** getProductCost: the cost of the product's recipe, 0 when it has none. The
   *  recipe is looked up again by its id, as the source does. */
  function GetProductCost(rs: seq<Recipe>, s: seq<Ingredient>, productId: string): (c: real)
    ensures GetRecipeByProductId(rs, productId).None? ==> c == 0.0
    ensures RecipeIdsUnique(rs) && GetRecipeByProductId(rs, productId).Some? ==>
            c == LinesCost(s, GetRecipeByProductId(rs, productId).value.ingredients)
  {
    var rec := GetRecipeByProductId(rs, productId);
    if rec.None? then 0.0
    else
      var again := GetRecipeById(rs, rec.value.id);
      if again.None? then 0.0 else LinesCost(s, again.value.ingredients)
  }

  /** getProductProfit: price, cost, profit = price − cost and the margin in
   *  percent of the price (0 when the price is not positive); all zeros for an
   *  unknown product. Rounding to two decimals is not modelled. */
  function GetProductProfit(products: seq<Product>, rs: seq<Recipe>, s: seq<Ingredient>, productId: string): (p: ProfitReport)
    ensures ProductById(products, productId).None? ==> p == ProfitReport(0.0, 0.0, 0.0, 0.0)
    ensures ProductById(products, productId).Some? ==>
            p.price == ProductById(products, productId).value.price as real &&
            p.cost == GetProductCost(rs, s, productId) &&
            p.profit + p.cost == p.price &&
            p.margin == Margin(p.profit, p.price)
  {
    var product := ProductById(products, productId);
    if product.None? then ProfitReport(0.0, 0.0, 0.0, 0.0)
    else
      var price := product.value.price as real;
      var cost := GetProductCost(rs, s, productId);
      var profit := price - cost;
      ProfitReport(price, cost, profit, Margin(profit, price))
  }

  /** The margin in percent of the price, 0 when the price is not positive. */
  function Margin(profit: real, price: real): (m: real)
    ensures price > 0.0 ==> m * price == profit * 100.0
    ensures price <= 0.0 ==> m == 0.0
  {
    if price > 0.0 then
      var q := profit / price;
      assert q * price == profit;
      q * 100.0
    else 0.0
  }

  // ------------------------------------------------------------------
  // Automatic export, as functions of the ledger
  // ------------------------------------------------------------------

  /** `line.quantity * quantity`: what a line asks for when the product is made
   *  `quantity` times. */
  function LineAmount(line: RecipeLine, quantity: real): real
  {
    line.quantity * quantity
  }

  /** Deducts `line.quantity × quantity` for each line in turn, each on the ledger
   *  the previous deductions left; a failed deduction is recorded and the walk
   *  goes on, nothing is undone. */
  function ExportLines(s: seq<Ingredient>, lines: seq<RecipeLine>, quantity: real)
    : (o: (seq<LedgerError>, seq<LowStockWarning>, seq<Ingredient>))
    ensures SameIds(s, o.2)
    ensures |o.0| <= |lines|
  {
    if |lines| == 0 then ([], [], s)
    else
      var prev := ExportLines(s, lines[..|lines| - 1], quantity);
      var line := lines[|lines| - 1];
      var step := Deduct(prev.2, line.ingredientId, LineAmount(line, quantity));
      SameIdsTrans(s, prev.2, step.1);
      if step.0.Err? then (prev.0 + [step.0.error], prev.1, step.1)
      else if step.0.value.warning.Some? then (prev.0, prev.1 + [step.0.value.warning.value], step.1)
      else (prev.0, prev.1, step.1)
  }

  /** One step of the line fold: the export over one more line deducts that
   *  line from the ledger the previous lines left. */
  lemma ExportLinesStep(s: seq<Ingredient>, lines: seq<RecipeLine>, n: int, quantity: real)
    requires 0 <= n < |lines|
    ensures ExportLines(s, lines[..n + 1], quantity) ==
            (var prev := ExportLines(s, lines[..n], quantity);
             var step := Deduct(prev.2, lines[n].ingredientId, LineAmount(lines[n], quantity));
             if step.0.Err? then (prev.0 + [step.0.error], prev.1, step.1)
             else if step.0.value.warning.Some? then (prev.0, prev.1 + [step.0.value.warning.value], step.1)
             else (prev.0, prev.1, step.1))
  {
    var t := lines[..n + 1];
    assert t[..|t| - 1] == lines[..n];
    assert t[|t| - 1] == lines[n];
  }

  /** The deduction of the n-th line, on the ledger the lines before it left. */
  function LineExport(s: seq<Ingredient>, lines: seq<RecipeLine>, n: int, quantity: real)
    : (Result<StockChange, LedgerError>, seq<Ingredient>)
    requires 0 <= n < |lines|
  {
    Deduct(ExportLines(s, lines[..n], quantity).2, lines[n].ingredientId, LineAmount(lines[n], quantity))
  }

  /** The last line of the export: no error so far iff none before and this line's
   *  deduction went through; the ledger is the one that deduction leaves. */
  lemma ExportLinesLast(s: seq<Ingredient>, lines: seq<RecipeLine>, quantity: real)
    requires |lines| > 0
    ensures var last := |lines| - 1;
            var step := LineExport(s, lines, last, quantity);
            (ExportLines(s, lines, quantity).0 == [] <==>
             ExportLines(s, lines[..last], quantity).0 == [] && step.0.Ok?) &&
            ExportLines(s, lines, quantity).2 == step.1
  {
  }

  /** A line's deduction is the same whether the walk stops after m lines or goes on. */
  lemma LineExportInPrefix(s: seq<Ingredient>, lines: seq<RecipeLine>, quantity: real, m: int, n: int)
    requires 0 <= n < m <= |lines|
    ensures LineExport(s, lines[..m], n, quantity) == LineExport(s, lines, n, quantity)
  {
    assert lines[..m][..n] == lines[..n];
    assert lines[..m][n] == lines[n];
  }

  /** A walk with no error had every line's deduction go through. */
  lemma {:induction false} LineOkOfExportOk(s: seq<Ingredient>, lines: seq<RecipeLine>, quantity: real, n: int)
    requires 0 <= n < |lines| && ExportLines(s, lines, quantity).0 == []
    ensures LineExport(s, lines, n, quantity).0.Ok?
  {
    var last := |lines| - 1;
    ExportLinesLast(s, lines, quantity);
    if n < last {
      var init := lines[..last];
      assert ExportLines(s, init, quantity).0 == [];
      LineOkOfExportOk(s, init, quantity, n);
      assert LineExport(s, init, n, quantity).0.Ok?;
      LineExportInPrefix(s, lines, quantity, last, n);
    } else {
      assert n == last;
    }
  }

  /** A walk whose every deduction went through has no error. */
  lemma {:induction false} ExportOkOfLinesOk(s: seq<Ingredient>, lines: seq<RecipeLine>, quantity: real)
    requires forall n :: 0 <= n < |lines| ==> LineExport(s, lines, n, quantity).0.Ok?
    ensures ExportLines(s, lines, quantity).0 == []
  {
    if |lines| > 0 {
      var last := |lines| - 1;
      forall n | 0 <= n < last
        ensures LineExport(s, lines[..last], n, quantity).0.Ok?
      {
        LineExportInPrefix(s, lines, quantity, last, n);
      }
      ExportOkOfLinesOk(s, lines[..last], quantity);
      ExportLinesLast(s, lines, quantity);
    }
  }

  /** The export of a product's lines reports no error exactly when the deduction of
   *  every line, on the ledger the lines before it left, goes through. */
  lemma ExportLinesSucceedIffEveryLine(s: seq<Ingredient>, lines: seq<RecipeLine>, quantity: real)
    ensures ExportLines(s, lines, quantity).0 == [] <==>
            forall n :: 0 <= n < |lines| ==> LineExport(s, lines, n, quantity).0.Ok?
  {
    if ExportLines(s, lines, quantity).0 == [] {
      forall n | 0 <= n < |lines|
        ensures LineExport(s, lines, n, quantity).0.Ok?
      {
        LineOkOfExportOk(s, lines, quantity, n);
      }
    }
    if forall n :: 0 <= n < |lines| ==> LineExport(s, lines, n, quantity).0.Ok? {
      ExportOkOfLinesOk(s, lines, quantity);
    }
  }

  /** What the lines took from the j-th ingredient: the amounts of the lines naming
   *  it whose deduction went through. */
  function DeductedFrom(s: seq<Ingredient>, lines: seq<RecipeLine>, quantity: real, j: int): real
  {
    if |lines| == 0 then 0.0
    else
      var n := |lines| - 1;
      DeductedFrom(s, lines[..n], quantity, j) +
        (if LineExport(s, lines, n, quantity).0.Ok? && IngredientIndex(s, lines[n].ingredientId) == j
         then LineAmount(lines[n], quantity) else 0.0)
  }

  /** Nothing is rolled back: after the export every ingredient has lost exactly the
   *  amounts of its lines whose deduction went through, failed lines or not, and
   *  nothing else about it has changed. */
  lemma {:induction false} ExportLinesStockAccount(s: seq<Ingredient>, lines: seq<RecipeLine>, quantity: real)
    ensures forall j :: 0 <= j < |s| ==>
            ExportLines(s, lines, quantity).2[j] == s[j].(stock := s[j].stock - DeductedFrom(s, lines, quantity, j))
  {
    if |lines| > 0 {
      ExportLinesStockAccount(s, lines[..|lines| - 1], quantity);
      forall j | 0 <= j < |s|
        ensures ExportLines(s, lines, quantity).2[j] == s[j].(stock := s[j].stock - DeductedFrom(s, lines, quantity, j))
      {
        StockAccountStep(s, lines, quantity, j);
      }
    }
  }

  /** One line of the account: the entry loses that line's amount when its deduction
   *  went through on it. */
  lemma StockAccountStep(s: seq<Ingredient>, lines: seq<RecipeLine>, quantity: real, j: int)
    requires |lines| > 0 && 0 <= j < |s|
    requires var init := lines[..|lines| - 1];
             ExportLines(s, init, quantity).2[j] == s[j].(stock := s[j].stock - DeductedFrom(s, init, quantity, j))
    ensures ExportLines(s, lines, quantity).2[j] == s[j].(stock := s[j].stock - DeductedFrom(s, lines, quantity, j))
  {
    var n := |lines| - 1;
    var init := lines[..n];
    var prev := ExportLines(s, init, quantity).2;
    var step := LineExport(s, lines, n, quantity);
    var id := lines[n].ingredientId;
    ExportLinesLast(s, lines, quantity);
    SameIdsSameIndex(s, prev, id);
    DeductTakes(s[j], prev, id, LineAmount(lines[n], quantity), j, DeductedFrom(s, init, quantity, j));
  }

  /** One deduction takes its amount from the entry it found, when it goes through,
   *  and from no other entry. */
  lemma DeductTakes(g: Ingredient, t: seq<Ingredient>, id: string, amount: real, j: int, before: real)
    requires 0 <= j < |t| && t[j] == g.(stock := g.stock - before)
    ensures var d := Deduct(t, id, amount);
            d.1[j] == g.(stock := g.stock - (before + if d.0.Ok? && IngredientIndex(t, id) == j then amount else 0.0))
  {
  }

  /** The amounts taken from an ingredient only grow as more lines are exported. */
  lemma {:induction false} DeductedFromGrows(s: seq<Ingredient>, lines: seq<RecipeLine>, quantity: real, j: int, m: int)
    requires 0 <= m <= |lines|
    ensures DeductedFrom(s, lines[..m], quantity, j) <= DeductedFrom(s, lines, quantity, j)
  {
    if m < |lines| {
      var n := |lines| - 1;
      var init := lines[..n];
      assert init[..m] == lines[..m];
      DeductedFromGrows(s, init, quantity, j, m);
      var step := LineExport(s, lines, n, quantity);
      assert step.0.Ok? ==> LineAmount(lines[n], quantity) > 0.0;
    } else {
      assert lines[..m] == lines;
    }
  }

  /** A failing line does not undo the lines before it: once a line's deduction went
   *  through, its amount stays taken from that ingredient whatever the later lines do. */
  lemma ExportKeepsEarlierDeductions(s: seq<Ingredient>, lines: seq<RecipeLine>, quantity: real, n: int)
    requires 0 <= n < |lines| && LineExport(s, lines, n, quantity).0.Ok?
    ensures var j := IngredientIndex(s, lines[n].ingredientId);
            0 <= j < |s| &&
            ExportLines(s, lines, quantity).2[j].stock <=
            ExportLines(s, lines[..n], quantity).2[j].stock - LineAmount(lines[n], quantity)
  {
    var j := IngredientIndex(s, lines[n].ingredientId);
    var t := lines[..n + 1];
    assert t[..n] == lines[..n];
    assert LineExport(s, t, n, quantity) == LineExport(s, lines, n, quantity);
    SameIdsSameIndex(s, ExportLines(s, lines[..n], quantity).2, lines[n].ingredientId);
    DeductedFromGrows(s, lines, quantity, j, n + 1);
    ExportLinesStockAccount(s, lines, quantity);
    ExportLinesStockAccount(s, lines[..n], quantity);
  }

  lemma SameIdsTrans(s: seq<Ingredient>, t: seq<Ingredient>, u: seq<Ingredient>)
    requires SameIds(s, t) && SameIds(t, u)
    ensures SameIds(s, u)
  {
  }

  /** autoExportForProduct on the ledger `s`. */
  function ExportForProduct(rs: seq<Recipe>, s: seq<Ingredient>, productId: string, quantity: real)
    : (o: (ExportReport, seq<Ingredient>))
    ensures GetRecipeByProductId(rs, productId).None? ==> o == (NoRecipe, s)
    ensures SameIds(s, o.1)
    ensures GetRecipeByProductId(rs, productId).Some? ==>
            var lines := GetRecipeByProductId(rs, productId).value.ingredients;
            o.0.Exported? &&
            (o.0.Success() <==> forall n :: 0 <= n < |lines| ==> LineExport(s, lines, n, quantity).0.Ok?) &&
            forall j :: 0 <= j < |s| ==> o.1[j] == s[j].(stock := s[j].stock - DeductedFrom(s, lines, quantity, j))
  {
    var rec := GetRecipeByProductId(rs, productId);
    if rec.None? then (NoRecipe, s)
    else
      var run := ExportLines(s, rec.value.ingredients, quantity);
      ExportLinesSucceedIffEveryLine(s, rec.value.ingredients, quantity);
      ExportLinesStockAccount(s, rec.value.ingredients, quantity);
      (Exported(run.0, run.1), run.2)
  }

  /** The quantity autoExportForOrder passes on: the item's, 1 when it has none. */
  function ExportQuantity(item: OrderLine): real
  {
    item.quantity.GetOr(1.0)
  }

  /** One item of autoExportForOrder: the item is exported on the ledger `prev.2`,
   *  a failure is recorded against its product and its warnings are added. */
  function AfterItem(rs: seq<Recipe>, prev: (seq<ItemFailure>, seq<LowStockWarning>, seq<Ingredient>), item: OrderLine)
    : (o: (seq<ItemFailure>, seq<LowStockWarning>, seq<Ingredient>))
    ensures o.0 == [] <==> prev.0 == [] && ExportForProduct(rs, prev.2, item.productId, ExportQuantity(item)).0.Success()
    ensures SameIds(prev.2, o.2)
  {
    var step := ExportForProduct(rs, prev.2, item.productId, ExportQuantity(item));
    var failures := if step.0.Success() then prev.0 else prev.0 + [ItemFailure(item.productId, step.0.errors)];
    (failures, prev.1 + step.0.Warnings(), step.1)
  }

  /** The items of an order exported one after the other on the evolving ledger. */
  function ExportItems(rs: seq<Recipe>, s: seq<Ingredient>, items: seq<OrderLine>)
    : (o: (seq<ItemFailure>, seq<LowStockWarning>, seq<Ingredient>))
    ensures SameIds(s, o.2)
  {
    if |items| == 0 then ([], [], s)
    else
      var prev := ExportItems(rs, s, items[..|items| - 1]);
      var o := AfterItem(rs, prev, items[|items| - 1]);
      SameIdsTrans(s, prev.2, o.2);
      o
  }

  /** One step of the item fold. */
  lemma ExportItemsStep(rs: seq<Recipe>, s: seq<Ingredient>, items: seq<OrderLine>, n: int)
    requires 0 <= n < |items|
    ensures ExportItems(rs, s, items[..n + 1]) == AfterItem(rs, ExportItems(rs, s, items[..n]), items[n])
  {
    var t := items[..n + 1];
    assert t[..|t| - 1] == items[..n];
    assert t[|t| - 1] == items[n];
  }

  /** autoExportForOrder on the ledger `s`. */
  function ExportOrder(rs: seq<Recipe>, s: seq<Ingredient>, items: seq<OrderLine>)
    : (o: (OrderExportReport, seq<Ingredient>))
    ensures items == [] ==> o == (EmptyOrder, s)
    ensures SameIds(s, o.1)
  {
    if |items| == 0 then (EmptyOrder, s)
    else
      var run := ExportItems(rs, s, items);
      (OrderExported(run.0, run.1), run.2)
  }

  /** Export only ever lowers stock, and never below zero. */
  lemma {:induction false} ExportLinesLowersStock(s: seq<Ingredient>, lines: seq<RecipeLine>, quantity: real)
    ensures forall j :: 0 <= j < |s| ==> ExportLines(s, lines, quantity).2[j].stock <= s[j].stock
    ensures StockNonNegative(s) ==> StockNonNegative(ExportLines(s, lines, quantity).2)
  {
    if |lines| > 0 {
      ExportLinesLowersStock(s, lines[..|lines| - 1], quantity);
    }
  }

  lemma {:induction false} ExportItemsLowersStock(rs: seq<Recipe>, s: seq<Ingredient>, items: seq<OrderLine>)
    ensures forall j :: 0 <= j < |s| ==> ExportItems(rs, s, items).2[j].stock <= s[j].stock
    ensures StockNonNegative(s) ==> StockNonNegative(ExportItems(rs, s, items).2)
  {
    if |items| > 0 {
      var t := ExportItems(rs, s, items[..|items| - 1]).2;
      ExportItemsLowersStock(rs, s, items[..|items| - 1]);
      var item := items[|items| - 1];
      var rec := GetRecipeByProductId(rs, item.productId);
      if rec.Some? {
        ExportLinesLowersStock(t, rec.value.ingredients, ExportQuantity(item));
      }
    }
  }

  /** An order's export succeeds exactly when the export of every item does. */
  lemma {:induction false} ExportItemsSucceedIffEveryItem(rs: seq<Recipe>, s: seq<Ingredient>, items: seq<OrderLine>)
    ensures ExportItems(rs, s, items).0 == [] <==> forall n :: 0 <= n < |items| ==> ItemExport(rs, s, items, n).0.Success()
  {
    if |items| > 0 {
      var last := |items| - 1;
      var init := items[..last];
      ExportItemsSucceedIffEveryItem(rs, s, init);
      forall m | 0 <= m < last
        ensures ItemExport(rs, s, init, m) == ItemExport(rs, s, items, m)
      {
        assert items[..m] == init[..m];
      }
      assert ExportItems(rs, s, items) == AfterItem(rs, ExportItems(rs, s, init), items[last]);
      assert ExportItems(rs, s, items).0 == [] <==>
             ExportItems(rs, s, init).0 == [] && ItemExport(rs, s, items, last).0.Success();
      if forall n :: 0 <= n < |items| ==> ItemExport(rs, s, items, n).0.Success() {
        assert forall m :: 0 <= m < last ==> ItemExport(rs, s, init, m).0.Success();
      }
      if ExportItems(rs, s, items).0 == [] {
        forall n | 0 <= n < |items|
          ensures ItemExport(rs, s, items, n).0.Success()
        {
          if n < last {
            assert ItemExport(rs, s, init, n) == ItemExport(rs, s, items, n);
            assert ItemExport(rs, s, init, n).0.Success();
          } else {
            assert n == last;
          }
        }
      }
    }
  }

  /** The export of the n-th item, on the ledger the items before it left. */
  function ItemExport(rs: seq<Recipe>, s: seq<Ingredient>, items: seq<OrderLine>, n: int): (ExportReport, seq<Ingredient>)
    requires 0 <= n < |items|
  {
    ExportForProduct(rs, ExportItems(rs, s, items[..n]).2, items[n].productId, ExportQuantity(items[n]))
  }

  /** The export is not atomic: on a ledger with plenty of milk and no coffee, a drink
   *  needing both reports the coffee shortage and loses its milk anyway. */
  lemma ExportCanFailAfterDeducting()
    ensures var milk := Ingredient("ing_milk", "Milk", "l", 10.0, 1.0, 30000.0, true);
            var coffee := Ingredient("ing_coffee", "Coffee", "kg", 0.0, 1.0, 250000.0, true);
            var lines := [RecipeLine("ing_milk", 0.5), RecipeLine("ing_coffee", 0.02)];
            var run := ExportLines([milk, coffee], lines, 2.0);
            run.0 == [InsufficientStock("Coffee", "kg", 0.0)] && run.2 == [milk.(stock := 9.0), coffee]
  {
    var milk := Ingredient("ing_milk", "Milk", "l", 10.0, 1.0, 30000.0, true);
    var coffee := Ingredient("ing_coffee", "Coffee", "kg", 0.0, 1.0, 250000.0, true);
    var lines := [RecipeLine("ing_milk", 0.5), RecipeLine("ing_coffee", 0.02)];
    var s0 := [milk, coffee];
    assert lines[..1][..0] == [];
    assert IngredientIndex(s0, "ing_milk") == 0;
    assert LineAmount(lines[0], 2.0) == 1.0;
    assert ExportLines(s0, [], 2.0) == ([], [], s0);
    var d1 := Deduct(s0, "ing_milk", 1.0);
    assert d1.0 == Ok(StockChange(9.0, None));
    assert d1.1 == [milk.(stock := 9.0), coffee];
    var first := ExportLines(s0, lines[..1], 2.0);
    assert first == ([], [], d1.1);
    var t := first.2;
    assert t[0].id != "ing_coffee" by {
      assert |t[0].id| != |"ing_coffee"|;
    }
    assert |t| == 2 && t[1].id == "ing_coffee";
    assert IngredientIndex(t, "ing_coffee") == 1;
    assert LineAmount(lines[1], 2.0) == 0.04;
    assert lines[..2] == lines;
  }

  // ------------------------------------------------------------------
  // Order requirements (checkOrderIngredients)
  // ------------------------------------------------------------------

  /** `item.quantity || 1`: a missing or zero quantity counts as one. */
  function CheckFactor(item: OrderLine): real
  {
    if item.quantity.None? || item.quantity.value == 0.0 then 1.0 else item.quantity.value
  }

  function RequirementIndex(acc: seq<Requirement>, id: string): (r: int)
    ensures -1 <= r < |acc|
    ensures r == -1 <==> forall j :: 0 <= j < |acc| ==> acc[j].ingredientId != id
    ensures 0 <= r ==> acc[r].ingredientId == id && forall j :: 0 <= j < r ==> acc[j].ingredientId != id
  {
    FirstIndex(acc, (x: Requirement) => x.ingredientId == id)
  }

  /** One step of the totals dictionary: `totals[id] ? totals[id] += q : totals[id] = q`;
   *  a key keeps its first-insertion position. */
  function AddRequirement(acc: seq<Requirement>, id: string, q: real): seq<Requirement>
  {
    var k := RequirementIndex(acc, id);
    if k >= 0 && acc[k].quantity != 0.0 then acc[k := acc[k].(quantity := acc[k].quantity + q)]
    else if k >= 0 then acc[k := Requirement(id, q)]
    else acc + [Requirement(id, q)]
  }

  function AccumulateLines(acc: seq<Requirement>, lines: seq<RecipeLine>, factor: real): seq<Requirement>
  {
    if |lines| == 0 then acc
    else
      var line := lines[|lines| - 1];
      AddRequirement(AccumulateLines(acc, lines[..|lines| - 1], factor), line.ingredientId, LineAmount(line, factor))
  }

  /** The totals dictionary of checkOrderIngredients, as a list in insertion order. */
  function Aggregate(rs: seq<Recipe>, items: seq<OrderLine>): seq<Requirement>
  {
    if |items| == 0 then []
    else
      var acc := Aggregate(rs, items[..|items| - 1]);
      var item := items[|items| - 1];
      var rec := GetRecipeByProductId(rs, item.productId);
      if rec.None? then acc else AccumulateLines(acc, rec.value.ingredients, CheckFactor(item))
  }

  predicate KeysDistinct(acc: seq<Requirement>)
  {
    forall i, j :: 0 <= i < j < |acc| ==> acc[i].ingredientId != acc[j].ingredientId
  }

  /** The total recorded for an ingredient, 0 when it has no entry. */
  function TotalFor(acc: seq<Requirement>, id: string): real
  {
    var k := RequirementIndex(acc, id);
    if k < 0 then 0.0 else acc[k].quantity
  }

  /** Reference definition: Σ quantity × factor over the lines using the ingredient. */
  function LinesNeed(lines: seq<RecipeLine>, id: string, factor: real): real
  {
    if |lines| == 0 then 0.0
    else
      var line := lines[|lines| - 1];
      LinesNeed(lines[..|lines| - 1], id, factor) + (if line.ingredientId == id then LineAmount(line, factor) else 0.0)
  }

  /** Reference definition: what the whole order needs of one ingredient. */
  function OrderNeed(rs: seq<Recipe>, items: seq<OrderLine>, id: string): real
  {
    if |items| == 0 then 0.0
    else
      var item := items[|items| - 1];
      var rec := GetRecipeByProductId(rs, item.productId);
      OrderNeed(rs, items[..|items| - 1], id) +
        (if rec.None? then 0.0 else LinesNeed(rec.value.ingredients, id, CheckFactor(item)))
  }

  predicate AllPositive(acc: seq<Requirement>)
  {
    forall j :: 0 <= j < |acc| ==> acc[j].quantity > 0.0
  }

  /** Entries whose keys agree position by position are looked up alike. */
  lemma {:induction false} SameKeysSameIndex(acc: seq<Requirement>, t: seq<Requirement>, id: string)
    requires |acc| == |t|
    requires forall j :: 0 <= j < |acc| ==> t[j].ingredientId == acc[j].ingredientId
    ensures RequirementIndex(t, id) == RequirementIndex(acc, id)
  {
    assert forall j :: 0 <= j < |acc| ==> (acc[j].ingredientId == id <==> t[j].ingredientId == id);
  }

  /** Appending an entry leaves the earlier keys where they were. */
  lemma {:induction false} AppendedKeyIndex(acc: seq<Requirement>, e: Requirement, id: string)
    ensures RequirementIndex(acc + [e], id) ==
            if RequirementIndex(acc, id) >= 0 then RequirementIndex(acc, id)
            else if e.ingredientId == id then |acc| else -1
  {
    var t := acc + [e];
    assert forall j :: 0 <= j < |acc| ==> t[j] == acc[j];
    assert t[|acc|] == e;
  }

  lemma {:induction false} AddRequirementSums(acc: seq<Requirement>, id: string, q: real, other: string)
    requires KeysDistinct(acc) && AllPositive(acc) && q > 0.0
    ensures KeysDistinct(AddRequirement(acc, id, q)) && AllPositive(AddRequirement(acc, id, q))
    ensures TotalFor(AddRequirement(acc, id, q), other) == TotalFor(acc, other) + (if other == id then q else 0.0)
  {
    var t := AddRequirement(acc, id, q);
    var k := RequirementIndex(acc, id);
    if k >= 0 {
      assert acc[k].quantity > 0.0;
      assert t == acc[k := acc[k].(quantity := acc[k].quantity + q)];
      SameKeysSameIndex(acc, t, other);
      var ko := RequirementIndex(acc, other);
      if other != id && ko >= 0 {
        assert ko != k;
      }
    } else {
      assert t == acc + [Requirement(id, q)];
      AppendedKeyIndex(acc, Requirement(id, q), other);
    }
  }

  /** Both factors positive, so is what the line asks for. */
  lemma PositiveAmount(line: RecipeLine, factor: real)
    requires line.quantity > 0.0 && factor > 0.0
    ensures LineAmount(line, factor) > 0.0
  {
  }

  lemma {:induction false} AccumulateLinesSums(acc: seq<Requirement>, lines: seq<RecipeLine>, factor: real, id: string)
    requires KeysDistinct(acc) && AllPositive(acc) && factor > 0.0
    requires forall k :: 0 <= k < |lines| ==> lines[k].quantity > 0.0
    ensures KeysDistinct(AccumulateLines(acc, lines, factor)) && AllPositive(AccumulateLines(acc, lines, factor))
    ensures TotalFor(AccumulateLines(acc, lines, factor), id) == TotalFor(acc, id) + LinesNeed(lines, id, factor)
  {
    if |lines| > 0 {
      var init := lines[..|lines| - 1];
      var line := lines[|lines| - 1];
      AccumulateLinesSums(acc, init, factor, id);
      PositiveAmount(line, factor);
      AddRequirementSums(AccumulateLines(acc, init, factor), line.ingredientId, LineAmount(line, factor), id);
    }
  }

  /** With positive recipe quantities and no negative item quantity, the totals
   *  dictionary holds, for every ingredient, the sum of what each item needs of it,
   *  under one key per ingredient. */
  lemma {:induction false} AggregateSumsPerIngredient(rs: seq<Recipe>, items: seq<OrderLine>, id: string)
    requires PositiveQuantities(rs)
    requires forall n :: 0 <= n < |items| ==> items[n].quantity.None? || items[n].quantity.value >= 0.0
    ensures KeysDistinct(Aggregate(rs, items)) && AllPositive(Aggregate(rs, items))
    ensures TotalFor(Aggregate(rs, items), id) == OrderNeed(rs, items, id)
  {
    if |items| > 0 {
      var init := items[..|items| - 1];
      AggregateSumsPerIngredient(rs, init, id);
      var item := items[|items| - 1];
      var rec := GetRecipeByProductId(rs, item.productId);
      if rec.Some? {
        var i := ProductRecipeIndex(rs, item.productId);
        assert forall k :: 0 <= k < |rec.value.ingredients| ==> rs[i].ingredients[k].quantity > 0.0;
        AccumulateLinesSums(Aggregate(rs, init), rec.value.ingredients, CheckFactor(item), id);
      }
    }
  }

  // ------------------------------------------------------------------
  // The recipe book
  // ------------------------------------------------------------------

  class RecipeBook {
    var recipes: seq<Recipe>

    constructor (seed: seq<Recipe>)
      ensures recipes == seed
    {
      recipes := seed;
    }

    /** addRecipe: runs the checks of AddRecipeRejection, the lines one by one,
     *  and on success appends the recipe with its name trimmed. `newId` comes from
     *  the clock. */
    method AddRecipe(s: seq<Ingredient>, products: seq<Product>, input: RecipeInput, newId: string)
      returns (r: Result<Recipe, RecipeError>)
      requires forall j :: 0 <= j < |recipes| ==> recipes[j].id != newId
      modifies this
      ensures r.Err? <==> AddRecipeRejection(old(recipes), s, products, input).Some?
      ensures r.Err? ==> r.error == AddRecipeRejection(old(recipes), s, products, input).value && recipes == old(recipes)
      ensures r.Ok? ==>
              r.value == Recipe(newId, input.productId, Trim(input.name), input.ingredients) &&
              recipes == old(recipes) + [r.value]
      ensures OnePerProduct(old(recipes)) ==> OnePerProduct(recipes)
      ensures RecipeIdsUnique(old(recipes)) ==> RecipeIdsUnique(recipes)
      ensures LinesResolve(old(recipes), s) ==> LinesResolve(recipes, s)
      ensures PositiveQuantities(old(recipes)) ==> PositiveQuantities(recipes)
    {
      if input.productId == "" {
        return Err(ProductRequired);
      }
      if IsBlank(input.name) {
        return Err(RecipeNameRequired);
      }
      if input.ingredients == [] {
        return Err(IngredientsRequired);
      }
      var product := ProductById(products, input.productId);
      if product.None? {
        return Err(ProductNotFound);
      }
      if GetRecipeByProductId(recipes, input.productId).Some? {
        return Err(ProductHasRecipe(product.value.name));
      }
      var lines := input.ingredients;
      var e := CheckLines(s, lines);
      if e.Some? {
        return Err(e.value);
      }
      AppendKeepsInvariants(recipes, s, products, input, newId);
      var rec := Recipe(newId, input.productId, Trim(input.name), lines);
      recipes := recipes + [rec];
      r := Ok(rec);
    }

    /** updateRecipe: runs the checks of UpdateRecipeRejection, the lines one by
     *  one; supplied values replace the old ones (the name trimmed). */
    method UpdateRecipe(s: seq<Ingredient>, products: seq<Product>, id: string, patch: RecipePatch)
      returns (r: Result<Recipe, RecipeError>)
      modifies this
      ensures r.Err? <==> UpdateRecipeRejection(old(recipes), s, products, id, patch).Some?
      ensures r.Err? ==> r.error == UpdateRecipeRejection(old(recipes), s, products, id, patch).value && recipes == old(recipes)
      ensures r.Ok? ==>
              var i := RecipeIndex(old(recipes), id);
              i >= 0 && r.value == RecipePatched(old(recipes)[i], patch) && recipes == old(recipes)[i := r.value]
      ensures RecipeIdsUnique(old(recipes)) ==> RecipeIdsUnique(recipes)
      ensures RecipeIdsUnique(old(recipes)) && OnePerProduct(old(recipes)) ==> OnePerProduct(recipes)
      ensures LinesResolve(old(recipes), s) ==> LinesResolve(recipes, s)
      ensures PositiveQuantities(old(recipes)) ==> PositiveQuantities(recipes)
    {
      var i := RecipeIndex(recipes, id);
      if i < 0 {
        return Err(RecipeNotFound);
      }
      if ProductSupplied(patch) {
        var product := ProductById(products, patch.productId.value);
        if product.None? {
          return Err(ProductNotFound);
        }
        if OwnedByOther(recipes, id, patch.productId.value) {
          return Err(ProductHasRecipe(product.value.name));
        }
      }
      if patch.name.Some? && IsBlank(patch.name.value) {
        return Err(RecipeNameRequired);
      }
      if patch.ingredients.Some? {
        var lines := patch.ingredients.value;
        if lines == [] {
          return Err(IngredientsRequired);
        }
        var e := CheckLines(s, lines);
        if e.Some? {
          return Err(e.value);
        }
      }
      ghost var before := recipes;
      var rec := RecipePatched(recipes[i], patch);
      recipes := recipes[i := rec];
      r := Ok(rec);
      PatchKeepsInvariants(before, s, products, id, patch);
    }

    /** deleteRecipe: removes every recipe with that id; ingredient stock is not
     *  touched (the ledger is not even in reach). */
    method DeleteRecipe(id: string) returns (r: Result<(), RecipeError>)
      modifies this
      ensures RecipeIndex(old(recipes), id) < 0 <==> r == Err(RecipeNotFound)
      ensures r.Ok? <==> RecipeIndex(old(recipes), id) >= 0
      ensures r.Err? ==> recipes == old(recipes)
      ensures r.Ok? ==> recipes == WithoutRecipe(old(recipes), id)
      ensures OnePerProduct(old(recipes)) ==> OnePerProduct(recipes)
      ensures forall s :: LinesResolve(old(recipes), s) ==> LinesResolve(recipes, s)
      ensures PositiveQuantities(old(recipes)) ==> PositiveQuantities(recipes)
    {
      var i := RecipeIndex(recipes, id);
      if i < 0 {
        return Err(RecipeNotFound);
      }
      WithoutRecipeKeepsInvariants(recipes, id);
      recipes := WithoutRecipe(recipes, id);
      r := Ok(());
    }

    /** calculateRecipeCost: walks the recipe's lines keeping a running total of
     *  the subtotals and a detail row per line whose ingredient resolves. */
    method CalculateRecipeCost(s: seq<Ingredient>, recipeId: string) returns (c: CostReport)
      ensures GetRecipeById(recipes, recipeId).None? ==> c == CostReport(0.0, [])
      ensures GetRecipeById(recipes, recipeId).Some? ==>
              var lines := GetRecipeById(recipes, recipeId).value.ingredients;
              c.cost == LinesCost(s, lines) && c.details == CostDetails(s, lines)
      ensures c.cost == SubtotalSum(c.details)
    {
      var rec := GetRecipeById(recipes, recipeId);
      if rec.None? {
        return CostReport(0.0, []);
      }
      var lines := rec.value.ingredients;
      var total := 0.0;
      var details: seq<CostDetail> := [];
      for n := 0 to |lines|
        invariant total == LinesCost(s, lines[..n])
        invariant details == CostDetails(s, lines[..n])
      {
        assert lines[..n + 1][..n] == lines[..n];
        var g := IngredientById(s, lines[n].ingredientId);
        if g.Some? {
          var subtotal := LineSubtotal(lines[n], g.value);
          total := total + subtotal;
          details := details + [DetailRow(g.value, lines[n])];
        }
      }
      assert lines[..|lines|] == lines;
      CostDetailsMatchCost(s, lines);
      c := CostReport(total, details);
    }

    /** autoExportForProduct: with no recipe there is nothing to do; otherwise each
     *  line's deduction runs against the ledger whatever happened to the previous
     *  ones, collecting errors and low-stock warnings. */
    method AutoExportForProduct(ledger: IngredientLedger, productId: string, quantity: real)
      returns (rep: ExportReport)
      modifies ledger
      ensures (rep, ledger.items) == ExportForProduct(recipes, old(ledger.items), productId, quantity)
    {
      var rec := GetRecipeByProductId(recipes, productId);
      if rec.None? {
        return NoRecipe;
      }
      var lines := rec.value.ingredients;
      var errors: seq<LedgerError> := [];
      var warnings: seq<LowStockWarning> := [];
      for n := 0 to |lines|
        invariant (errors, warnings, ledger.items) == ExportLines(old(ledger.items), lines[..n], quantity)
      {
        ExportLinesStep(old(ledger.items), lines, n, quantity);
        var r := ledger.DeductStock(lines[n].ingredientId, LineAmount(lines[n], quantity));
        if r.Err? {
          errors := errors + [r.error];
        } else if r.value.warning.Some? {
          warnings := warnings + [r.value.warning.value];
        }
      }
      WholePrefix(lines);
      rep := Exported(errors, warnings);
    }

    /** autoExportForOrder: exports every item in turn (quantity 1 when the item has
     *  none), collecting the failed items and all warnings; an empty order succeeds. */
    method AutoExportForOrder(ledger: IngredientLedger, items: seq<OrderLine>) returns (rep: OrderExportReport)
      modifies ledger
      ensures (rep, ledger.items) == ExportOrder(recipes, old(ledger.items), items)
    {
      if |items| == 0 {
        return EmptyOrder;
      }
      var failures: seq<ItemFailure> := [];
      var warnings: seq<LowStockWarning> := [];
      for n := 0 to |items|
        invariant (failures, warnings, ledger.items) == ExportItems(recipes, old(ledger.items), items[..n])
      {
        ExportItemsStep(recipes, old(ledger.items), items, n);
        var r := AutoExportForProduct(ledger, items[n].productId, ExportQuantity(items[n]));
        if !r.Success() {
          failures := failures + [ItemFailure(items[n].productId, r.errors)];
        }
        warnings := warnings + r.Warnings();
      }
      WholePrefix(items);
      rep := OrderExported(failures, warnings);
    }

    /** checkOrderIngredients: totals each ingredient over every line of every item
     *  (a missing or zero item quantity counting as one), then checks the totals
     *  against the ledger. Changes nothing. */
    method CheckOrderIngredients(ledger: IngredientLedger, items: seq<OrderLine>) returns (a: Availability)
      ensures items == [] ==> a == Availability(true, [])
      ensures items != [] ==> a.shortages == Shortages(ledger.items, Aggregate(recipes, items))
      ensures items != [] ==>
              (a.canMake <==> forall k :: 0 <= k < |Aggregate(recipes, items)| ==>
                                Covered(ledger.items, Aggregate(recipes, items)[k]))
    {
      if |items| == 0 {
        return Availability(true, []);
      }
      var totals: seq<Requirement> := [];
      for n := 0 to |items|
        invariant totals == Aggregate(recipes, items[..n])
      {
        assert items[..n + 1][..n] == items[..n];
        var rec := GetRecipeByProductId(recipes, items[n].productId);
        if rec.Some? {
          var lines := rec.value.ingredients;
          var factor := CheckFactor(items[n]);
          ghost var start := totals;
          for m := 0 to |lines|
            invariant totals == AccumulateLines(start, lines[..m], factor)
          {
            assert lines[..m + 1][..m] == lines[..m];
            totals := AddRequirement(totals, lines[m].ingredientId, LineAmount(lines[m], factor));
          }
          assert lines[..|lines|] == lines;
        }
      }
      assert items[..|items|] == items;
      a := ledger.CheckStockAvailability(totals);
    }
  }

  /** The first check addRecipe fails, in the order it runs them (productId,
   *  name, ingredient list, product, existing recipe, each line); None when the
   *  recipe is accepted. */
  function AddRecipeRejection(rs: seq<Recipe>, s: seq<Ingredient>, products: seq<Product>, input: RecipeInput)
    : (e: Option<RecipeError>)
    ensures e.None? <==>
            input.productId != "" && !IsBlank(input.name) && input.ingredients != [] &&
            ProductById(products, input.productId).Some? &&
            GetRecipeByProductId(rs, input.productId).None? &&
            forall k :: 0 <= k < |input.ingredients| ==> LineError(s, input.ingredients[k]).None?
  {
    if input.productId == "" then Some(ProductRequired)
    else if IsBlank(input.name) then Some(RecipeNameRequired)
    else if input.ingredients == [] then Some(IngredientsRequired)
    else if ProductById(products, input.productId).None? then Some(ProductNotFound)
    else if GetRecipeByProductId(rs, input.productId).Some? then
      Some(ProductHasRecipe(ProductById(products, input.productId).value.name))
    else FirstLineError(s, input.ingredients)
  }

  /** The first check updateRecipe fails: an unknown id; a supplied product that
   *  does not exist or belongs to another recipe; a supplied blank name; a
   *  supplied ingredient list that is empty or has an invalid line. */
  function UpdateRecipeRejection(rs: seq<Recipe>, s: seq<Ingredient>, products: seq<Product>, id: string,
                                 patch: RecipePatch): (e: Option<RecipeError>)
    ensures e.None? <==>
            RecipeIndex(rs, id) >= 0 && ProductPatchAccepted(rs, products, id, patch) &&
            NamePatchAccepted(patch) && LinesPatchAccepted(s, patch)
  {
    if RecipeIndex(rs, id) < 0 then Some(RecipeNotFound)
    else if ProductSupplied(patch) && ProductById(products, patch.productId.value).None? then Some(ProductNotFound)
    else if ProductSupplied(patch) && OwnedByOther(rs, id, patch.productId.value) then
      Some(ProductHasRecipe(ProductById(products, patch.productId.value).value.name))
    else if patch.name.Some? && IsBlank(patch.name.value) then Some(RecipeNameRequired)
    else if patch.ingredients == Some([]) then Some(IngredientsRequired)
    else if patch.ingredients.Some? then FirstLineError(s, patch.ingredients.value)
    else None
  }

  /** An accepted update keeps ids unique, one recipe per product, every line
   *  resolving and every quantity positive. */
  lemma {:induction false} PatchKeepsInvariants(rs: seq<Recipe>, s: seq<Ingredient>, products: seq<Product>,
                                                id: string, patch: RecipePatch)
    requires UpdateRecipeRejection(rs, s, products, id, patch).None?
    ensures var i := RecipeIndex(rs, id);
            var t := rs[i := RecipePatched(rs[i], patch)];
            (RecipeIdsUnique(rs) ==> RecipeIdsUnique(t)) &&
            (RecipeIdsUnique(rs) && OnePerProduct(rs) ==> OnePerProduct(t)) &&
            (LinesResolve(rs, s) ==> LinesResolve(t, s)) &&
            (PositiveQuantities(rs) ==> PositiveQuantities(t))
  {
    var i := RecipeIndex(rs, id);
    var rec := RecipePatched(rs[i], patch);
    if RecipeIdsUnique(rs) && OnePerProduct(rs) {
      forall j | 0 <= j < |rs| && j != i
        ensures rs[j].productId != rec.productId
      {
        if ProductSupplied(patch) && rs[j].productId == rec.productId {
          OnlyRecipeOfProduct(rs, rec.productId, j);
          assert false;
        }
      }
    }
    ReplaceRecipeKeepsInvariants(rs, i, rec, s);
  }

  /** Replacing one recipe by a record with the same id, whose lines are the old
   *  ones or all valid, keeps the book's invariants; one recipe per product is
   *  kept when no other recipe has the new product. */
  lemma ReplaceRecipeKeepsInvariants(rs: seq<Recipe>, i: int, rec: Recipe, s: seq<Ingredient>)
    requires 0 <= i < |rs| && rec.id == rs[i].id
    requires rec.ingredients == rs[i].ingredients ||
             forall k :: 0 <= k < |rec.ingredients| ==> LineError(s, rec.ingredients[k]).None?
    ensures RecipeIdsUnique(rs) ==> RecipeIdsUnique(rs[i := rec])
    ensures OnePerProduct(rs) && (forall j :: 0 <= j < |rs| && j != i ==> rs[j].productId != rec.productId) ==>
            OnePerProduct(rs[i := rec])
    ensures LinesResolve(rs, s) ==> LinesResolve(rs[i := rec], s)
    ensures PositiveQuantities(rs) ==> PositiveQuantities(rs[i := rec])
  {
  }

  /** A supplied ingredient list is non-empty and every line is valid. */
  predicate LinesPatchAccepted(s: seq<Ingredient>, patch: RecipePatch)
  {
    patch.ingredients.Some? ==>
      patch.ingredients.value != [] &&
      forall k :: 0 <= k < |patch.ingredients.value| ==> LineError(s, patch.ingredients.value[k]).None?
  }

  /** Removing recipes keeps one recipe per product, every line resolving and
   *  every quantity positive; removing an existing id shortens the list. */
  lemma {:induction false} WithoutRecipeKeepsInvariants(rs: seq<Recipe>, id: string)
    ensures OnePerProduct(rs) ==> OnePerProduct(WithoutRecipe(rs, id))
    ensures forall s :: LinesResolve(rs, s) ==> LinesResolve(WithoutRecipe(rs, id), s)
    ensures PositiveQuantities(rs) ==> PositiveQuantities(WithoutRecipe(rs, id))
    ensures RecipeIndex(rs, id) >= 0 ==> |WithoutRecipe(rs, id)| < |rs|
  {
    var t := WithoutRecipe(rs, id);
    forall a | 0 <= a < |t|
      ensures t[a] in rs
    {
      assert t[a] in t;
    }
    SubsetKeepsLineInvariants(rs, t);
    if OnePerProduct(rs) {
      WithoutRecipeKeepsOnePerProduct(rs, id);
    }
  }

  /** Recipes all taken from the book keep its line invariants. */
  lemma SubsetKeepsLineInvariants(rs: seq<Recipe>, t: seq<Recipe>)
    requires forall a :: 0 <= a < |t| ==> t[a] in rs
    ensures forall s :: LinesResolve(rs, s) ==> LinesResolve(t, s)
    ensures PositiveQuantities(rs) ==> PositiveQuantities(t)
  {
    forall a | 0 <= a < |t|
      ensures exists b :: 0 <= b < |rs| && rs[b] == t[a]
    {
      assert t[a] in rs;
    }
  }

  /** Removing recipes keeps one recipe per product. */
  lemma WithoutRecipeKeepsOnePerProduct(rs: seq<Recipe>, id: string)
    requires OnePerProduct(rs)
    ensures OnePerProduct(WithoutRecipe(rs, id))
  {
    var t := WithoutRecipe(rs, id);
    assert NoDuplicates(rs);
    forall a, c | 0 <= a < c < |t|
      ensures t[a].productId != t[c].productId
    {
      assert t[a] in t && t[c] in t;
      var b1 :| 0 <= b1 < |rs| && rs[b1] == t[a];
      var b2 :| 0 <= b2 < |rs| && rs[b2] == t[c];
      assert t[a] != t[c];
      assert b1 != b2;
      if b1 < b2 {
        assert rs[b1].productId != rs[b2].productId;
      } else {
        assert rs[b2].productId != rs[b1].productId;
      }
    }
  }

  /** Appending an accepted recipe under a fresh id keeps the book's invariants. */
  lemma {:induction false} AppendKeepsInvariants(rs: seq<Recipe>, s: seq<Ingredient>, products: seq<Product>,
                                                 input: RecipeInput, newId: string)
    requires AddRecipeRejection(rs, s, products, input).None?
    requires forall j :: 0 <= j < |rs| ==> rs[j].id != newId
    ensures var t := rs + [Recipe(newId, input.productId, Trim(input.name), input.ingredients)];
            (OnePerProduct(rs) ==> OnePerProduct(t)) &&
            (RecipeIdsUnique(rs) ==> RecipeIdsUnique(t)) &&
            (LinesResolve(rs, s) ==> LinesResolve(t, s)) &&
            (PositiveQuantities(rs) ==> PositiveQuantities(t))
  {
    var r := Recipe(newId, input.productId, Trim(input.name), input.ingredients);
    assert forall j :: 0 <= j < |rs| ==> rs[j].productId != r.productId;
    assert forall k :: 0 <= k < |r.ingredients| ==> LineError(s, r.ingredients[k]).None?;
    AppendRecipeKeepsInvariants(rs, r, s);
  }

  /** A recipe under a fresh id, for a product without a recipe, whose lines
   *  all resolve with positive quantities, keeps the book's invariants. */
  lemma AppendRecipeKeepsInvariants(rs: seq<Recipe>, r: Recipe, s: seq<Ingredient>)
    requires forall j :: 0 <= j < |rs| ==> rs[j].id != r.id && rs[j].productId != r.productId
    requires forall k :: 0 <= k < |r.ingredients| ==> LineError(s, r.ingredients[k]).None?
    ensures OnePerProduct(rs) ==> OnePerProduct(rs + [r])
    ensures RecipeIdsUnique(rs) ==> RecipeIdsUnique(rs + [r])
    ensures LinesResolve(rs, s) ==> LinesResolve(rs + [r], s)
    ensures PositiveQuantities(rs) ==> PositiveQuantities(rs + [r])
  {
    var t := rs + [r];
    assert forall j :: 0 <= j < |rs| ==> t[j] == rs[j];
    assert t[|rs|] == r;
  }

  /** A truthy productId in the patch. */
  predicate ProductSupplied(patch: RecipePatch)
  {
    patch.productId.Some? && patch.productId.value != ""
  }

  /** The product's recipe belongs to a recipe with another id. */
  predicate OwnedByOther(rs: seq<Recipe>, id: string, productId: string)
  {
    var other := GetRecipeByProductId(rs, productId);
    other.Some? && other.value.id != id
  }

  predicate ProductPatchAccepted(rs: seq<Recipe>, products: seq<Product>, id: string, patch: RecipePatch)
  {
    ProductSupplied(patch) ==>
      ProductById(products, patch.productId.value).Some? && !OwnedByOther(rs, id, patch.productId.value)
  }

  predicate NamePatchAccepted(patch: RecipePatch)
  {
    patch.name.Some? ==> !IsBlank(patch.name.value)
  }

  /** The record updateRecipe writes: truthy values replace the old ones. */
  function RecipePatched(rec: Recipe, patch: RecipePatch): (r: Recipe)
    ensures r.id == rec.id
  {
    rec.(productId := if ProductSupplied(patch) then patch.productId.value else rec.productId,
         name := if patch.name.Some? && patch.name.value != "" then Trim(patch.name.value) else rec.name,
         ingredients := if patch.ingredients.Some? then patch.ingredients.value else rec.ingredients)
  }

  /** `recipes.filter(r => r.id !== id)`. */
  function WithoutRecipe(rs: seq<Recipe>, id: string): (t: seq<Recipe>)
    ensures forall x :: x in t <==> x in rs && x.id != id
    ensures |t| <= |rs|
    ensures |t| == |rs| <==> forall j :: 0 <= j < |rs| ==> rs[j].id != id
    ensures NoDuplicates(rs) ==> NoDuplicates(t)
  {
    FilterKeepsNoDuplicates(rs, (x: Recipe) => x.id != id);
    Filter(rs, (x: Recipe) => x.id != id)
  }
}
