# Coffee-shop core, modelled in Dafny

This project models the business logic of a single-page coffee-shop website.
Customers browse drinks, build one from a size and toppings, keep favourites,
review products and place orders. The staff back office manages categories,
toppings, sizes, employees and users, and shows revenue statistics. Behind it
sits an inventory engine: an ingredient ledger and one recipe (bill of
materials) per product. Selling a product exports its ingredients from stock.

Each store the site keeps in the browser becomes a Dafny `class` whose field
the methods reassign:

- ingredients → `Ingredients.IngredientLedger`
- recipes → `Recipes.RecipeBook`
- employees → `Employees.EmployeeRoster`
- categories → `Categories.CategoryStore`
- toppings → `Toppings.ToppingShelf`
- sizes → `Sizes.SizeMenu`
- favourites per user → `Favorites.FavoriteBook`
- reviews and the review cooldown → `Reviews.ReviewBoard`
- orders and the cart → `Orders.OrderDesk`
- users and the session → `Auth.Accounts`
- the drink builder's state → `Builder.ProductBuilder`

Each method's contract ties its reply and the new store to a pure function of
the old store, or states them outright. Lemmas then prove what the site
relies on:

- Toggling twice restores a store.
- A deduction and a restock undo each other.
- An order's export only lowers stock, and never below zero.
- The ingredient totals of an order equal an independent per-ingredient sum.
- An employee toggle never removes the last active admin.
- An order number reads back its date and number.
- Ratings average between 1 and 5.
- Ids, names and e-mails stay unique.

Modules:

- `Common`: Option and Result, Filter, FirstIndex, Trim, ASCII lower-casing, digit strings and a stable descending sort.
- `Products`: the product record and its lookup.
- `InventoryRecords`: the ingredient and recipe records.
- The rest: one module per source file.

Inputs that the browser supplies are parameters:

- the current time and parsed dates
- fresh ids
- `Math.random`
- the signed-in user
- the product list
- the answer to a confirmation dialog

## Model

| member | source | states |
|---|---|---|
| InventoryRecords.IngredientIndex | js/inventory/ingredients.js:177 | the first index holding the id, -1 exactly when no ingredient has it |
| InventoryRecords.IngredientById | js/inventory/ingredients.js:60-64 | the first ingredient with the id; None exactly when no ingredient has it |
| InventoryRecords.SameIdsSameIndex | js/inventory/ingredients.js:327-372 | a change that keeps ids position by position keeps every lookup |
| Ingredients.Patched | js/inventory/ingredients.js:173-229 | an update never changes the id or the active flag |
| Ingredients.Without | js/inventory/ingredients.js:243-276 | the ingredients left are exactly those with another id |
| Ingredients.GetIngredients | js/inventory/ingredients.js:38-48 | all ingredients, or exactly the active ones when asked |
| Ingredients.CheckLowStock | js/inventory/ingredients.js:431-443 | each row is an active ingredient at or below its minimum, and every such ingredient is reported |
| Ingredients.ShortageOf | js/inventory/ingredients.js:457-490 | no shortage exactly when the id is known and its stock suffices; otherwise the deficit is the requirement minus what is available |
| Ingredients.Shortages | js/inventory/ingredients.js:457-490 | at most one shortage per requirement |
| Ingredients.ShortagesEmptyIffCovered | js/inventory/ingredients.js:457-490 | the shortage list is empty exactly when every requirement is covered |
| Ingredients.ShortagesArePositive | js/inventory/ingredients.js:457-490 | for positive requirements, every reported deficit is positive |
| Ingredients.Deduct | js/inventory/ingredients.js:327-372 | refusals: unknown id, then a non-positive quantity, then insufficient stock; succeeds exactly otherwise; stock drops by the quantity on that ingredient only; ids kept; stock never negative |
| Ingredients.Restock | js/inventory/ingredients.js:388-418 | refusals: unknown id, then a non-positive quantity; on success stock rises on that ingredient only; ids kept |
| Ingredients.DeductUndoesRestock | js/inventory/ingredients.js:327-418 | deducting what was just added succeeds and restores the ledger |
| Ingredients.RestockUndoesDeduct | js/inventory/ingredients.js:327-418 | adding back what a deduction took restores the ledger |
| Ingredients.FlipActive | js/inventory/ingredients.js:286-307 | flips `active` of the first ingredient with the id; every other entry unchanged |
| Ingredients.FlipActiveTwice | js/inventory/ingredients.js:286-307 | toggling twice restores the ledger |
| Ingredients.IngredientLedger.constructor | js/inventory/ingredients.js:38-48 | the ledger holds the seed list |
| Ingredients.IngredientLedger.AddIngredient | js/inventory/ingredients.js:91-156 | refusals in source order: name, unit, negative amounts, duplicate name ignoring case; success exactly when none applies, and then the trimmed record is appended; unique ids and names and non-negative stock preserved |
| Ingredients.IngredientLedger.UpdateIngredient | js/inventory/ingredients.js:173-229 | refusals: unknown id, blank name, name used by another ingredient; success exactly when the id is known and a supplied name is neither blank nor another's, and then only that entry becomes Patched; unique ids and names preserved |
| Ingredients.IngredientLedger.DeleteIngredient | js/inventory/ingredients.js:243-276 | refuses an unknown id and an ingredient a recipe uses; otherwise removes it; recipe lines keep resolving |
| Ingredients.IngredientLedger.ToggleIngredient | js/inventory/ingredients.js:286-307 | the ledger becomes FlipActive; not found exactly for an unknown id, otherwise the reply is the new flag |
| Ingredients.IngredientLedger.DeductStock | js/inventory/ingredients.js:327-372 | the reply and the new ledger are Deduct's |
| Ingredients.IngredientLedger.AddStock | js/inventory/ingredients.js:388-418 | the reply and the new ledger are Restock's |
| Ingredients.IngredientLedger.CheckStockAvailability | js/inventory/ingredients.js:457-490 | the shortages are Shortages; canMake exactly when every requirement is covered |
| Ingredients.ShortagesStep | js/inventory/ingredients.js:460-484 | the shortages of one more requirement are the previous ones plus that requirement's shortage, if any |
| Recipes.RecipeIndex | js/inventory/recipes.js:215 | the first index with that recipe id, -1 when none |
| Recipes.GetRecipeById | js/inventory/recipes.js:50-53 | the first recipe with the id, None exactly when absent |
| Recipes.ProductRecipeIndex | js/inventory/recipes.js:67-70 | the first index whose product matches, -1 when none |
| Recipes.GetRecipeByProductId | js/inventory/recipes.js:67-70 | the first recipe of the product, None exactly when it has none |
| Recipes.OnlyRecipeOfProduct | js/inventory/recipes.js:67-70 | with one recipe per product, the lookup finds that product's recipe |
| Recipes.LineError | js/inventory/recipes.js:102-199 | a line is valid exactly when it names a known ingredient with a positive quantity |
| Recipes.FirstLineError | js/inventory/recipes.js:102-199 | no error exactly when every line is valid; otherwise the error is some line's error |
| Recipes.LinesCostAppend | js/inventory/recipes.js:362-395 | the cost of concatenated lines is the sum of the costs |
| Recipes.LinesCost | js/inventory/recipes.js:362-395 | the running total of calculateRecipeCost; LinesCostAppend and LinesCostNonNegative are its properties |
| Recipes.LinesCostNonNegative | js/inventory/recipes.js:362-395 | with non-negative quantities and unit costs, a cost is never negative |
| Recipes.CostDetailsMatchCost | js/inventory/recipes.js:362-395 | the detail rows add up to the cost; at most one row per line; each row names a resolved ingredient |
| Recipes.GetProductCost | js/inventory/recipes.js:406-415 | 0 without a recipe, otherwise that recipe's cost |
| Recipes.GetProductProfit | js/inventory/recipes.js:429-446 | all zeros for an unknown product; otherwise price, cost, profit = price − cost and the margin given by Margin |
| Recipes.Margin | js/inventory/recipes.js:438 | margin × price = profit × 100 for a positive price, 0 otherwise |
| Recipes.ExportLines | js/inventory/recipes.js:485-499 | the deduction loop: one error at most per line; ids kept (its success and stock figures are ExportLinesSucceedIffEveryLine and ExportLinesStockAccount) |
| Recipes.ExportForProduct | js/inventory/recipes.js:469-515 | without a recipe, nothing to do and the ledger unchanged; with one, success exactly when every line's deduction on the ledger the earlier lines left goes through, and each ingredient loses exactly the amounts of its successful lines, nothing rolled back |
| Recipes.AfterItem | js/inventory/recipes.js:532-569 | no failure so far exactly when none before and this item's export succeeded |
| Recipes.ExportItems | js/inventory/recipes.js:532-569 | the items exported in turn keep the ledger's ids |
| Recipes.ExportOrder | js/inventory/recipes.js:532-569 | an empty order changes nothing; ids kept |
| Recipes.ExportLinesLowersStock | js/inventory/recipes.js:469-515 | exporting a product never raises any stock and keeps stock non-negative |
| Recipes.ExportItemsLowersStock | js/inventory/recipes.js:532-569 | exporting an order never raises any stock and keeps stock non-negative |
| Recipes.ExportItemsSucceedIffEveryItem | js/inventory/recipes.js:532-569 | an order exports without failure exactly when every item's export on the ledger left by the earlier items succeeds |
| Recipes.ExportKeepsEarlierDeductions | js/inventory/recipes.js:485-508 | on every ledger, a line whose deduction went through stays deducted from its ingredient whatever later lines do |
| Recipes.ExportCanFailAfterDeducting | js/inventory/recipes.js:485-508 | a witness ledger on which the export both reports a shortage and has taken the milk |
| Recipes.ExportLinesLast | js/inventory/recipes.js:485-499 | one more line: no error iff none before and its deduction went through; the ledger is the one that deduction leaves |
| Recipes.LineExportInPrefix | js/inventory/recipes.js:485-499 | a line's deduction does not depend on the lines after it |
| Recipes.LineOkOfExportOk | js/inventory/recipes.js:485-508 | a run with no error had every line's deduction succeed |
| Recipes.ExportOkOfLinesOk | js/inventory/recipes.js:485-508 | a run whose every deduction succeeded has no error |
| Recipes.ExportLinesSucceedIffEveryLine | js/inventory/recipes.js:485-508 | no error exactly when every line's deduction, on the ledger the earlier lines left, goes through |
| Recipes.ExportLinesStockAccount | js/inventory/recipes.js:485-499 | after the loop every ingredient has lost exactly the amounts of its lines whose deduction succeeded, and nothing else about it changed |
| Recipes.StockAccountStep | js/inventory/recipes.js:485-499 | one line of that account |
| Recipes.DeductTakes | js/inventory/ingredients.js:327-372 | one deduction takes its amount from the entry it found, when it succeeds, and from no other entry |
| Recipes.DeductedFromGrows | js/inventory/recipes.js:485-499 | what has been taken from an ingredient only grows as more lines run |
| Recipes.RequirementIndex | js/inventory/recipes.js:579-611 | the first entry for the ingredient, -1 when none |
| Recipes.SameKeysSameIndex | js/inventory/recipes.js:579-611 | totals whose keys agree are looked up alike |
| Recipes.AppendedKeyIndex | js/inventory/recipes.js:579-611 | appending an entry leaves earlier keys where they were |
| Recipes.AddRequirementSums | js/inventory/recipes.js:579-611 | one step of the totals adds q to that ingredient's total only; keys stay distinct and totals positive |
| Recipes.PositiveAmount | js/inventory/recipes.js:579-611 | a positive line quantity times a positive factor is positive |
| Recipes.AccumulateLinesSums | js/inventory/recipes.js:579-611 | accumulating a recipe adds exactly that recipe's need to each ingredient's total |
| Recipes.AggregateSumsPerIngredient | js/inventory/recipes.js:579-611 | each ingredient's total equals the independent sum over all items' recipe lines; keys distinct and totals positive |
| Recipes.Aggregate | js/inventory/recipes.js:579-611 | the totals dictionary; AggregateSumsPerIngredient fixes every entry |
| Recipes.AddRecipeRejection | js/inventory/recipes.js:102-199 | accepted exactly when the product id, name and lines are present, the product exists and has no recipe, and every line is valid |
| Recipes.UpdateRecipeRejection | js/inventory/recipes.js:213-308 | accepted exactly when the id is known, a supplied product exists and is not another recipe's, a supplied name is non-blank and supplied lines are valid |
| Recipes.PatchKeepsInvariants | js/inventory/recipes.js:213-308 | an accepted update keeps ids unique, one recipe per product, every line resolving with a positive quantity |
| Recipes.WithoutRecipeKeepsInvariants | js/inventory/recipes.js:316-334 | removing recipes keeps one recipe per product, resolving lines and positive quantities; a known id shrinks the book |
| Recipes.WithoutRecipeKeepsOnePerProduct | js/inventory/recipes.js:316-334 | removing recipes keeps at most one recipe per product |
| Recipes.SubsetKeepsLineInvariants | js/inventory/recipes.js:316-334 | recipes all taken from the book keep resolving lines and positive quantities |
| Recipes.AppendKeepsInvariants | js/inventory/recipes.js:102-199 | appending an accepted recipe under a fresh id keeps the book's invariants |
| Recipes.RecipePatched | js/inventory/recipes.js:213-308 | an update keeps the recipe id |
| Recipes.WithoutRecipe | js/inventory/recipes.js:316-334 | exactly the recipes with another id remain; the book shrinks exactly when the id was present |
| Recipes.RecipeBook.constructor | js/inventory/recipes.js:40-42 | the book holds the seed list |
| Recipes.RecipeBook.AddRecipe | js/inventory/recipes.js:102-199 | refused exactly when AddRecipeRejection says so, with its error and the book unchanged; otherwise the new recipe is appended; every invariant preserved |
| Recipes.RecipeBook.UpdateRecipe | js/inventory/recipes.js:213-308 | refused exactly when UpdateRecipeRejection says so; otherwise only that recipe becomes RecipePatched; every invariant preserved |
| Recipes.CheckLines | js/inventory/recipes.js:149-175 | the line loop of addRecipe (and of updateRecipe, lines 264-287) yields FirstLineError: the first invalid line's error, none when all are valid |
| Recipes.FirstLineErrorAt | js/inventory/recipes.js:149-175 | the first error of a suffix is its head's error or, when the head is valid, the first error of the rest |
| Recipes.RecipeBook.DeleteRecipe | js/inventory/recipes.js:316-334 | not found exactly for an unknown id, success exactly for a known one; the book then becomes WithoutRecipe; invariants preserved |
| Recipes.RecipeBook.CalculateRecipeCost | js/inventory/recipes.js:362-395 | zero for an unknown recipe; otherwise the recipe's cost; the total equals the sum of the detail rows |
| Recipes.RecipeBook.AutoExportForProduct | js/inventory/recipes.js:469-515 | the reply and the ledger are ExportForProduct's |
| Recipes.RecipeBook.AutoExportForOrder | js/inventory/recipes.js:532-569 | the reply and the ledger are ExportOrder's |
| Recipes.RecipeBook.CheckOrderIngredients | js/inventory/recipes.js:579-611 | an empty order is makeable; otherwise the shortages of the aggregated totals, and makeable exactly when every total is covered |
| Employees.EmployeeIndex | js/employees/employees.js:113-116 | the first index with the id, -1 exactly when absent |
| Employees.GetEmployees | js/employees/employees.js:95-105 | everyone, or exactly the active employees |
| Employees.DigitPrefix | js/employees/employees.js:147-166 | the longest run of digits at the start |
| Employees.CodeNumber | js/employees/employees.js:147-166 | no number exactly when no position matches `NV` followed by a digit |
| Employees.CodeForRoundTrip | js/employees/employees.js:147-166 | the code built for n reads back as n |
| Employees.MaxCodeNumber | js/employees/employees.js:147-166 | bounds every code number and is attained, or 0 |
| Employees.NextCodeIsNew | js/employees/employees.js:147-166 | the next code's number exceeds every existing one, so no employee has that code |
| Employees.NextCode | js/employees/employees.js:147-166 | the next code reads back as the largest code number plus one, and no employee holds it |
| Employees.AddEmployeeRejection | js/employees/employees.js:181-256 | accepted exactly when name and phone are non-blank, the role is known, and phone and non-empty email are unused |
| Employees.UpdateEmployeeRejection | js/employees/employees.js:265-304 | not found for an unknown id; accepted exactly when no changed phone or e-mail collides with another employee |
| Employees.Overlay | js/employees/employees.js:290-294 | every supplied field (name, phone, e-mail, role, salary, start date, status) replaces the stored one; id and code are kept; an empty patch changes nothing |
| Employees.WithoutEmployee | js/employees/employees.js:312-337 | exactly the employees with another id remain |
| Employees.RemovalAdminCount | js/employees/employees.js:312-337 | with unique ids, removing an admin lowers the admin count by one, anyone else by zero |
| Employees.ToggleStatus | js/employees/employees.js:345-374 | not found for an unknown id; refused exactly for the last active admin; otherwise only that status flips |
| Employees.ToggleKeepsActiveAdmin | js/employees/employees.js:345-374 | a roster with an active admin keeps one after a toggle |
| Employees.ToggleTwiceRestores | js/employees/employees.js:345-374 | two successful toggles restore the roster |
| Employees.CountByRole | js/employees/employees.js:424-433 | one count per role, none above the roster size |
| Employees.CountByRoleAppend | js/employees/employees.js:424-433 | a new active employee adds one to its own role's count only; an inactive one changes nothing |
| Employees.SalarySumAppend | js/employees/employees.js:440-447 | salary sums are additive over concatenation |
| Employees.TotalSalaryAppend | js/employees/employees.js:440-447 | one more employee adds its salary exactly when active |
| Employees.TotalSalary | js/employees/employees.js:440-447 | the active salaries summed one employee at a time (ActiveSum); with no negative salary between 0 and the whole payroll; the whole payroll when everyone is active |
| Employees.ActivePayrollBounds | js/employees/employees.js:440-447 | with no negative salary, the active salaries lie between 0 and the whole payroll |
| Employees.ActiveSumIsFiltered | js/employees/employees.js:440-447 | filtering the active employees and reducing their salaries equals the one-at-a-time sum |
| Employees.ActiveSalaryStep | js/employees/employees.js:440-447 | one more employee adds its salary to the filtered sum exactly when active |
| Employees.SearchEmployees | js/employees/employees.js:455-469 | everyone for a blank query; otherwise exactly those matching the trimmed, lower-cased query |
| Employees.EmployeeRoster.constructor | js/employees/employees.js:95-105 | the roster holds the seed list |
| Employees.EmployeeRoster.GenerateEmployeeCode | js/employees/employees.js:147-166 | the code is NextCode, and no employee has it |
| Employees.ScanMaxCode | js/employees/employees.js:150-161 | the scan yields MaxCodeNumber, the largest NV number among the codes |
| Employees.MaxCodeStep | js/employees/employees.js:152-160 | the maximum over one more employee is the larger of the previous maximum and that employee's number |
| Employees.NextCodeFresh | js/employees/employees.js:163-165 | the code built from the maximum plus one is NextCode, and no employee holds it |
| Employees.EmployeeRoster.AddEmployee | js/employees/employees.js:181-256 | refused exactly when AddEmployeeRejection says so, roster unchanged; otherwise appends an active employee with a fresh code, the start date given or today; unique ids preserved; admin counts never drop |
| Employees.EmployeeRoster.UpdateEmployee | js/employees/employees.js:265-304 | refused exactly when UpdateEmployeeRejection says so; otherwise only that record is overlaid; unique ids preserved |
| Employees.EmployeeRoster.DeleteEmployee | js/employees/employees.js:312-337 | refuses an unknown id and the last admin; success exactly when the employee exists and is not the last admin, and then the roster becomes WithoutEmployee; an admin always remains |
| Employees.EmployeeRoster.ToggleEmployeeStatus | js/employees/employees.js:345-374 | the reply and the roster are ToggleStatus's; an active admin always remains |
| Categories.CategoryIndex | js/categories.js:29-32 | the first index with the id, -1 exactly when absent |
| Categories.GetCategories | js/categories.js:15-22 | all categories, or exactly the active ones |
| Categories.GetCategoryById | js/categories.js:29-32 | the first category with the id, None exactly when absent |
| Categories.FlipActive | js/categories.js:150-166 | not found exactly for an unknown id; otherwise only that category's flag flips |
| Categories.FlipActiveTwice | js/categories.js:150-166 | toggling twice restores the list |
| Categories.WithoutCategory | js/categories.js:123-143 | exactly the categories with another id remain |
| Categories.WithoutCategoryKeepsProductsFiled | js/categories.js:123-143 | removing a category no product uses keeps every product filed under an existing category |
| Categories.WithoutCategoryKeepsNamesDistinct | js/categories.js:123-143 | removal keeps names distinct ignoring case |
| Categories.CategoryStore.constructor | js/categories.js:15-22 | the store holds the seed list |
| Categories.CategoryStore.AddCategory | js/categories.js:55-80 | refuses a blank name, then a name used ignoring case; otherwise appends the trimmed category; distinct names and ids preserved |
| Categories.CategoryStore.UpdateCategory | js/categories.js:88-116 | refusals: unknown id, blank name, name of another category; otherwise that entry only; distinct ids and names preserved |
| Categories.CategoryStore.DeleteCategory | js/categories.js:123-143 | refuses an unknown id and a category with products; success exactly for a known category no product uses, and then WithoutCategory; products stay filed |
| Categories.CategoryStore.ToggleCategory | js/categories.js:150-166 | the reply and the list are FlipActive's |
| Toppings.ToppingIndex | js/toppings.js:59-61 | the first index with the id, -1 exactly when absent |
| Toppings.GetActiveToppings | js/toppings.js:48-51 | exactly the active toppings |
| Toppings.GetToppingById | js/toppings.js:59-61 | the first topping with the id, None exactly when absent |
| Toppings.GetToppingsByIds | js/toppings.js:75-85 | at most one topping per id, each a stored topping named in the ids |
| Toppings.ToppingsByIdsInOrder | js/toppings.js:75-85 | the k-th result is the topping of the k-th known id |
| Toppings.GetToppingsForCategory | js/toppings.js:105-124 | exactly the active toppings without a category list or listing the category; all active ones for no category |
| Toppings.UnrestrictedFitsEveryCategory | js/toppings.js:105-124 | an active topping without a category list is offered for every category |
| Toppings.Merge | js/toppings.js:178-195 | the id is kept |
| Toppings.MergeIdempotent | js/toppings.js:178-195 | the same patch twice equals once; an empty patch changes nothing |
| Toppings.FlipActive | js/toppings.js:206-226 | not found exactly for an unknown id; otherwise only that topping flips |
| Toppings.FlipActiveTwice | js/toppings.js:206-226 | toggling twice restores the list |
| Toppings.FlipActiveCount | js/toppings.js:206-226 | a toggle changes the number of active toppings by exactly one |
| Toppings.WithoutTopping | js/toppings.js:234-247 | exactly the toppings with another id remain; the list shrinks exactly when the id was present |
| Toppings.ToppingShelf.constructor | js/toppings.js:35-38 | the shelf holds the seed list |
| Toppings.ToppingShelf.AddTopping | js/toppings.js:139-168 | refused exactly for the empty name; otherwise appends an active topping; unique ids preserved |
| Toppings.ToppingShelf.UpdateTopping | js/toppings.js:178-195 | refused exactly for an unknown id; otherwise that entry is merged; unique ids preserved |
| Toppings.ToppingShelf.ToggleTopping | js/toppings.js:206-226 | the reply and the list are FlipActive's |
| Toppings.ToppingShelf.DeleteTopping | js/toppings.js:234-247 | not found exactly when absent; otherwise WithoutTopping; no topping with the id remains |
| Sizes.SizeIndex | js/sizes.js:64-68 | the first index with the id, -1 exactly when absent |
| Sizes.GetActiveSizes | js/sizes.js:48-52 | exactly the active sizes; all of them exactly when every size is active |
| Sizes.GetSizeById | js/sizes.js:64-68 | the first size with the id, None exactly when absent |
| Sizes.Merge | js/sizes.js:127-145 | the id is kept |
| Sizes.MergeIdempotent | js/sizes.js:127-145 | the same patch twice equals once; an empty patch changes nothing |
| Sizes.FlipActive | js/sizes.js:157-178 | not found exactly for an unknown id; otherwise only that size flips |
| Sizes.FlipActiveTwice | js/sizes.js:157-178 | toggling twice restores the list |
| Sizes.FlipActiveOffers | js/sizes.js:48-52 | with unique ids, the toggled size is offered afterwards exactly when the toggle switched it on; other sizes keep their offer |
| Sizes.WithoutSize | js/sizes.js:189-203 | exactly the sizes with another id remain |
| Sizes.SizeMenu.constructor | js/sizes.js:34-38 | the menu holds the seed list |
| Sizes.SizeMenu.AddSize | js/sizes.js:87-117 | refused exactly for the empty name; otherwise appends an active size; unique ids preserved |
| Sizes.SizeMenu.UpdateSize | js/sizes.js:127-145 | refused exactly for an unknown id; otherwise that entry is merged; unique ids preserved |
| Sizes.SizeMenu.ToggleSize | js/sizes.js:157-178 | the reply and the list are FlipActive's |
| Sizes.SizeMenu.DeleteSize | js/sizes.js:189-203 | not found exactly when absent; otherwise WithoutSize |
| Favorites.GetFavorites | js/favorites.js:31-43 | the signed-in user's list; [] when signed out or without a list |
| Favorites.Saved | js/favorites.js:50-64 | replaces the signed-in user's list only; signed out changes nothing |
| Favorites.Added | js/favorites.js:92-112 | refused exactly when signed out or already a favourite; otherwise the id is appended to that user's list only |
| Favorites.Removed | js/favorites.js:120-129 | every occurrence of the id leaves that user's list, nothing else does; other users untouched |
| Favorites.AddRemoveKeepDistinct | js/favorites.js:92-129 | adding and removing keep every list free of repeats |
| Favorites.Toggled | js/favorites.js:141-164 | for a signed-in user, the product's favourite status flips |
| Favorites.ToggleTwiceRestores | js/favorites.js:141-164 | toggling a non-favourite twice restores the user's list |
| Favorites.GetFavoriteProducts | js/favorites.js:212-221 | exactly the products whose id is on the list |
| Favorites.FavoriteBook.constructor | js/favorites.js:31-43 | the book holds the seed dictionary |
| Favorites.FavoriteBook.SaveFavorites | js/favorites.js:50-64 | the dictionary becomes Saved's |
| Favorites.FavoriteBook.AddToFavorites | js/favorites.js:92-112 | the reply and dictionary are Added's; lists stay free of repeats |
| Favorites.FavoriteBook.RemoveFromFavorites | js/favorites.js:120-129 | the dictionary becomes Removed's; lists stay free of repeats |
| Favorites.FavoriteBook.ToggleFavorite | js/favorites.js:141-164 | no answer exactly when signed out; otherwise the new status, the opposite of the old |
| Reviews.GetReviews | js/reviews.js:40-45 | exactly the product's reviews, a permutation of the filtered list, newest first |
| Reviews.RatingSumBounds | js/reviews.js:52-58 | with ratings in 1..5 the sum lies between n and 5n |
| Reviews.Average | js/reviews.js:52-58 | 0 for no reviews; otherwise average × count = rating sum |
| Reviews.GetAverageRating | js/reviews.js:52-58 | 0 for a product without reviews; otherwise the average times the number of reviews is the sum of their ratings |
| Reviews.AverageInRange | js/reviews.js:52-58 | a non-empty average of ratings in 1..5 lies in 1..5 |
| Reviews.Distribution | js/reviews.js:74-85 | exactly the keys 1..5 |
| Reviews.DistributionTotal | js/reviews.js:74-85 | the counts add up to the reviews rated 1..5, which is all of them when ratings are in range |
| Reviews.RatingCountsTotal | js/reviews.js:74-85 | the counts of ratings 1..5 add up to the reviews whose rating is in 1..5 |
| Reviews.InRangeAllCounted | js/reviews.js:74-85 | when every rating is in 1..5, those are all the reviews |
| Reviews.DistributionEmpty | js/reviews.js:74-85 | no reviews give five zero counts |
| Reviews.DistributionStep | js/reviews.js:74-85 | one more review adds one to its own rating's count only |
| Reviews.CooldownBlocksOnlyThatProduct | js/reviews.js:99-103 | after a review the product is blocked for the cooldown, other products are unaffected, and it is open again when the cooldown ends |
| Reviews.CanUserReview | js/reviews.js:99-103 | allowed exactly when the cooldown has passed since the product's last review, counting from time 0 when it has none |
| Reviews.ReviewRejection | js/reviews.js:112-151 | refusals in order: rating outside 1..5, comment too long, cooldown; accepted exactly otherwise |
| Reviews.NewReview | js/reviews.js:112-151 | rating is the integer part, in 1..5; comment trimmed; a user id exactly when signed in; guest name otherwise |
| Reviews.RatingText | js/reviews.js:203-212 | a label exactly for ratings 1..5 |
| Reviews.FormatRelativeTime | js/reviews.js:219-233 | each bucket holds exactly the ages its count describes: under a minute, minutes, hours, days, else the date |
| Reviews.RenderStars | js/reviews.js:168-196 | interactive: five clickable stars 1..5; display: filled stars for the integer part, then empty ones; five stars for ratings in 0..5 |
| Reviews.TallyRatings | js/reviews.js:74-85 | the counting loop yields Distribution |
| Reviews.TallyStart | js/reviews.js:75-76 | the counter the loop starts from is the distribution of no reviews |
| Reviews.TallyStep | js/reviews.js:78-82 | bumping the count of the next review's rating turns the distribution of a prefix into that of the prefix one longer |
| Reviews.BumpedCounter | js/reviews.js:79-81 | on a counter over 1..5 the guarded increment adds one to an in-range rating and ignores any other |
| Reviews.ReviewBoard.constructor | js/reviews.js:31-33 | the board holds the seed list and no cooldowns |
| Reviews.ReviewBoard.AddReview | js/reviews.js:112-151 | refused exactly when ReviewRejection says so; otherwise NewReview is appended and the cooldown recorded; ratings stay in range |
| Reviews.ReviewBoard.GetRatingDistribution | js/reviews.js:74-85 | the distribution of the product's reviews |
| Orders.GetUserOrders | js/orders.js:58-76 | [] when signed out; otherwise exactly that user's orders, a permutation of them, newest first |
| Orders.PaddedShape | js/orders.js:86-100 | a padded number has the width, only digits, and reads back as the number |
| Orders.DigitsKeptByNotDash | js/orders.js:86-100 | removing dashes keeps a digit string |
| Orders.DashesDropped | js/orders.js:86-100 | removing the dashes of Y-M-D joins the three digit runs |
| Orders.IdLayout | js/orders.js:86-100 | where the prefix, date and number sit in an order id |
| Orders.OrderIdRoundTrip | js/orders.js:86-100 | an order id is `ORD-YYYYMMDD-NNN` whose date and number read back as given |
| Orders.GenerateOrderId | js/orders.js:86-100 | starts with `ORD-`, and ends with a dash and three digits that read back as the random number |
| Orders.StatusText | js/orders.js:343-356 | an unknown code is shown as is |
| Orders.StatusTextsDistinct | js/orders.js:343-356 | the six labels are pairwise distinct and none is a code |
| Orders.StatusBadgeClass | js/orders.js:366-376 | one of five badge classes; unknown codes get the primary badge |
| Orders.OrderIndex | js/orders.js:261-280 | the first index with the id, -1 exactly when absent |
| Orders.StatusUpdated | js/orders.js:261-280 | refused exactly for an unknown id; otherwise that order takes the status and the update time |
| Orders.Cancelled | js/orders.js:294-327 | refuses an unknown, completed or already cancelled order; succeeds exactly otherwise, setting cancelled on that order only |
| Orders.CancelTwiceRefused | js/orders.js:294-327 | a second cancel is refused and changes nothing |
| Orders.OrderRejection | js/orders.js:134-233 | refusals in order: signed out, empty cart, missing name or phone, missing address when the delivery method is `takeaway`; accepted exactly otherwise |
| Orders.NewOrder | js/orders.js:134-233 | pending, with the cart as items and the cart total as subtotal and total |
| Orders.OrderDesk.constructor | js/orders.js:47-49 | the desk holds the seed orders and cart |
| Orders.OrderDesk.CreateOrder | js/orders.js:134-233 | refused exactly when OrderRejection says so, nothing changes; otherwise the new order is recorded and the cart emptied |
| Orders.OrderDesk.UpdateOrderStatus | js/orders.js:261-280 | the reply and the orders are StatusUpdated's; cart untouched |
| Orders.OrderDesk.CancelOrder | js/orders.js:294-327 | the reply and the orders are Cancelled's; cart untouched |
| Products.ProductById | js/builder.js:56-59 | the first product with the id, None exactly when absent |
| Auth.UserIndex | js/auth.js:405-442 | the first index with the id, -1 when absent |
| Auth.EmailExistsIgnoresCase | js/auth.js:54-60 | the e-mail lookup ignores case |
| Auth.EmailExists | js/auth.js:54-60 | some user's e-mail equals the given one up to letter case (EmailExistsIgnoresCase is its property) |
| Auth.RegisterRejectionAsWritten | js/auth.js:86-160 | the checks as written: fields, password length, e-mail as typed already used |
| Auth.RegisterAsWrittenDuplicatesEmail | js/auth.js:107-124 | for any stored, trimmed, lower-case e-mail, retyping it with a trailing space passes the as-written check, and the stored list then holds that e-mail twice |
| Auth.TrailingSpaceStored | js/auth.js:124 | a non-empty, trimmed, lower-case e-mail followed by a space is stored as the e-mail itself |
| Auth.RegisterRejection | js/auth.js:86-160 | corrected checks: fields, password length, the stored form of the e-mail already used; each refusal iff its condition |
| Auth.RegisterKeepsEmailsDistinct | js/auth.js:86-160 | an accepted registration keeps e-mails distinct ignoring case |
| Auth.LoginIndex | js/auth.js:180-228 | the first user matching the e-mail ignoring case and the password, -1 when none |
| Auth.LoginRejection | js/auth.js:180-228 | fields required exactly when e-mail or password is empty; wrong credentials exactly when no user matches |
| Auth.RegisterThenLogin | js/auth.js:86-228 | a fresh registration can log in, and finds the new account |
| Auth.Merge | js/auth.js:405-442 | an update keeps the id and creation time |
| Auth.AppendKeepsSessionCurrent | js/auth.js:86-160 | a new account does not disturb the session's account |
| Auth.Accounts.constructor | js/auth.js:35-39 | the store holds the seed users, signed out |
| Auth.Accounts.Register | js/auth.js:86-160 | refused exactly when RegisterRejection says so; otherwise appends the new user; session untouched; distinct e-mails and ids preserved |
| Auth.Accounts.Login | js/auth.js:180-228 | users untouched; on success the session is the matching user's, logged in, admin exactly for role admin |
| Auth.Accounts.IsLoggedIn | js/auth.js:263-267 | signed in exactly when a session is held (Login, Logout and Register state how it changes) |
| Auth.Accounts.IsAdmin | js/auth.js:274-281 | an admin is always signed in |
| Auth.Accounts.Logout | js/auth.js:235-241 | the session ends; users untouched |
| Auth.Accounts.UpdateUserInfo | js/auth.js:405-442 | refused exactly when signed out or the user is gone; otherwise that user is merged and the session refreshed |
| Admin.DatePart | js/admin.js:1270-1290 | the date before the 'T' of a timestamp |
| Admin.MonthPart | js/admin.js:1309 | the first seven characters of the timestamp, or all of a shorter one |
| Admin.RevenueByDate | js/admin.js:1270-1290 | the count is the number of completed orders that day and the revenue is the sum of their totals; no orders, no revenue |
| Admin.RevenueByMonth | js/admin.js:1300-1320 | the same for the orders whose timestamp starts with the month |
| Admin.ImpossibleDatesEarnNothing | js/admin.js:1270-1320 | a date holding a 'T' or a month longer than seven characters matches nothing |
| Admin.TotalOfAppend | js/admin.js:1270-1290 | revenue is additive over concatenation |
| Admin.StrongerFilterEarnsLess | js/admin.js:1270-1320 | a stricter filter never counts more orders or more revenue |
| Admin.RevenueByDateAdds | js/admin.js:1270-1290 | a day's revenue over two order lists is the sum of the two |
| Admin.DayWithinMonth | js/admin.js:1270-1320 | a day never beats its month in count or revenue |
| Admin.UnclassifiedIffUnknownStatus | js/admin.js:1331-1359 | an order falls in no status count exactly when its status is not a known code |
| Admin.StatusCountsCover | js/admin.js:1331-1359 | the four status counts add up to the orders with a known status |
| Admin.CalculateStats | js/admin.js:1331-1359 | totals of the lists; the revenue is the sum of the completed orders' totals; status counts never exceed the total, and match it exactly when every status is known |
| Admin.TotalOfFilter | js/admin.js:1283-1285 | summing the filtered orders equals summing, order by order, the totals of those that pass |
| Admin.DayWithinTotal | js/admin.js:1270-1359 | a day's revenue never exceeds the total revenue |
| Admin.ActiveCategoryIds | js/admin.js:89-127 | exactly the ids of active categories |
| Admin.AdminProductList | js/admin.js:108-127 | a product is listed exactly when it is shown, matches the search and the category |
| Admin.FilterTwice | js/admin.js:108-127 | filtering twice by the same test equals filtering once |
| Admin.FilterSameTest | js/admin.js:108-127 | two tests agreeing on a list filter it alike |
| Admin.AdminProductListInOrder | js/admin.js:108-127 | the list keeps the stored order |
| Admin.UserSubmitRejection | js/admin.js:1634-1718 | refusals in order: blank name, e-mail used by another user, missing password for a new user, unknown user; each iff its condition |
| Admin.Edited | js/admin.js:1634-1718 | every field from the form; the password kept when left blank |
| Admin.WithoutUser | js/admin.js:1728-1762 | exactly the users with another id remain |
| Admin.Submitted | js/admin.js:1634-1718 | a refusal changes nothing; an edit changes that user only; a new user is appended |
| Admin.SubmitKeepsEmailsUnique | js/admin.js:1634-1718 | an accepted submission keeps e-mails and ids unique |
| Admin.HandleUserSubmit | js/admin.js:1634-1718 | the reply and users are Submitted's on the cleaned form; session untouched; uniqueness preserved |
| Admin.EditFields | js/admin.js:1681-1691 | the field-by-field edit yields Edited: name, e-mail, role, phone and address from the form, the password only when one was typed |
| Admin.ConfirmDeleteUser | js/admin.js:1728-1762 | not found exactly for an unknown user; refuses deleting oneself exactly for the signed-in user; any other known user answers the dialog's choice; unconfirmed or refused changes nothing; confirmed removes exactly that user |
| Builder.DefaultSize | js/builder.js:95-112 | a size exactly when the product takes sizes and one is active; then the first active one |
| Builder.ToggledIds | js/builder.js:221-239 | an absent id is added, a present one removed; other ids untouched; no repeats preserved |
| Builder.ToggledIdsTwice | js/builder.js:221-239 | toggling an unchosen topping twice restores the choice |
| Builder.ToggledIdsTwiceSameChoice | js/builder.js:221-239 | without repeats, toggling twice keeps the same chosen toppings |
| Builder.ToppingTotalAppend | js/builder.js:261-288 | topping prices are additive over concatenation |
| Builder.ToppingsByIdsAppend | js/toppings.js:75-85 | looking up one more id appends its topping when known |
| Builder.BuilderPrice | js/builder.js:261-288 | without a product, zeros and no unit price; otherwise unit = base + size + toppings and total = unit × quantity |
| Builder.ProductBuilder.CurrentPrice | js/builder.js:261-288 | a unit price exactly when a product is chosen: its price plus the size and toppings; total = unit × quantity; 0 without a product |
| Builder.PlainDrinkPrice | js/builder.js:261-288 | no size and no topping cost the base price |
| Builder.ToppingAddsItsPrice | js/builder.js:221-288 | choosing one more topping raises the unit price by exactly its price |
| Builder.ProductBuilder.constructor | js/builder.js:30-36 | no product, no size, no topping, one drink |
| Builder.ProductBuilder.InitBuilder | js/builder.js:54-75 | an unknown product changes nothing; otherwise reset with the default size |
| Builder.ProductBuilder.RenderSizeOptions | js/builder.js:88-137 | a chosen size stays; otherwise the default size is taken |
| Builder.ProductBuilder.HandleSizeChange | js/builder.js:205-211 | the size becomes the chosen one; nothing else changes |
| Builder.ProductBuilder.HandleToppingChange | js/builder.js:221-239 | the toppings become ToggledIds; no repeats preserved |
| Builder.ProductBuilder.HandleBuilderQuantity | js/builder.js:375-383 | the quantity moves by delta but never below one |

## Left out

- Browser storage, the DOM, modals, toasts and page rendering are left out. The stores are the class fields; render functions are not modelled.
- The clock, `Date` parsing, `Math.random` and fresh ids are parameters. Parsing a date is a function `timeOf`. An invalid date (NaN) in a sort is not modelled.
- Floating point is modelled as exact reals. `Math.round` is left out of the displayed average and of the profit margin, and `toFixed` is left out as well.
- `parseInt` and `parseFloat` coercion of form strings is not modelled; inputs arrive as numbers.
- Lower-casing is ASCII only. Trimming strips only the usual whitespace characters. Lengths count characters, not UTF-16 code units.
- Object keys such as `__proto__`, and other prototype quirks of JavaScript dictionaries, are not modelled.
- The `avatar`, `updatedAt` and `createdAt` fields are omitted where no property depends on them.
- An `id` inside a topping, size or user patch is not modelled. The patch types have no id field, so the id never changes.
- Employees.Overlay: `updateEmployee` spreads every supplied field, `id` and `code` included. The only caller (js/employees/admin-employees.js:392-400) never sends them, so the patch type has no such fields and the model keeps both. The `avatar` it sends is not modelled.
- Admin.ActiveCategoryIds: the source keeps a category unless its flag is exactly `false` (js/admin.js:82-90), so an old record without the flag stays visible. Category records here always carry the flag, so a missing flag is not modelled.
- Recipes.ExportLines: its own contract states only kept ids and the error bound. The success condition and the stock account are stated by ExportLinesSucceedIffEveryLine and ExportLinesStockAccount, and ExportForProduct carries both.
- A missing topping `categoryIds` list is modelled as the empty list.
- Orders.OrderDesk.CreateOrder: the follow-up call that saves the phone and address to the user profile is left out. So is the guard that checks whether the export function is defined; the inventory export is a separate call.
- `Order.total` is an integer; a missing total is not modelled.
- The builder's add-to-cart step (js/builder.js:408-426) is left out, because js/cart.js is not part of this model.
- `getCurrentUser`, `requireAuth`, `requireAdmin` and `renderUserInfo` are redirect and display helpers; the session field stands for them.
- Builder.ProductBuilder.RenderSizeOptions: assumes the page's container elements exist; the guards that return early when they are missing are left out.
- Admin.ConfirmDeleteUser: the confirmation dialog's answer is a parameter. The source reads the current user's id without a null check, so the model requires a session whenever the user is found.
- Admin.HandleUserSubmit: the form is cleaned before the call. The name, phone and address are trimmed, and the e-mail is trimmed and lower-cased (ASCII only).
- js/products.js is not part of this model; products are a record and a lookup.
- The admin inventory pages (js/inventory/admin-inventory.js and js/employees/admin-employees.js) are forms and tables over the modelled operations, and are not modelled.

## Findings

| source | as written | input that shows it | evidently intended | confidence | as-written member | corrected member |
|---|---|---|---|---|---|---|
| js/auth.js:107-124 | the duplicate check looks up the e-mail as typed, but the account stores it trimmed and lower-cased | a user "an@cafe.vn" exists; registering "an@cafe.vn " (trailing space) passes the check and stores a second "an@cafe.vn" | check the stored form, so that e-mails stay unique | not executed | Auth.RegisterRejectionAsWritten, Auth.RegisterAsWrittenDuplicatesEmail | Auth.RegisterRejection, Auth.RegisterKeepsEmailsDistinct (used by Auth.Accounts.Register) |
