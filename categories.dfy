/** The product categories (js/categories.js): names unique regardless of case,
 *  an icon, an on/off switch, and no deletion while a product is filed under
 *  the category. */
module Categories {
  import opened Common
  import opened Products

  datatype Category = Category(id: string, name: string, icon: string, active: bool)

  datatype CategoryError = NameRequired | NameTaken | CategoryNotFound | HasProducts

  /** The folder emoji a category gets when no icon is given. */
  const DefaultIcon: string := "\U{1F4C1}"

  /** `icon || fallback`. */
  function IconOr(icon: string, fallback: string): string
  {
    if icon == "" then fallback else icon
  }

  predicate IdsUnique(cs: seq<Category>)
  {
    forall i, j :: 0 <= i < j < |cs| ==> cs[i].id != cs[j].id
  }

  /** No two categories share a name once both are lower-cased. */
  predicate NamesDistinct(cs: seq<Category>)
  {
    forall i, j :: 0 <= i < j < |cs| ==> ToLower(cs[i].name) != ToLower(cs[j].name)
  }

  /** addCategory's clash: some category's lower-cased name equals the trimmed,
   *  lower-cased new name. */
  predicate NameUsed(cs: seq<Category>, name: string)
  {
    exists j :: 0 <= j < |cs| && ToLower(cs[j].name) == ToLower(Trim(name))
  }

  /** updateCategory's clash: the same, among the categories with another id. */
  predicate NameUsedByOther(cs: seq<Category>, id: string, name: string)
  {
    exists j :: 0 <= j < |cs| && cs[j].id != id && ToLower(cs[j].name) == ToLower(Trim(name))
  }

  /** Every product is filed under no category or under an existing one. */
  predicate ProductsFiled(products: seq<Product>, cs: seq<Category>)
  {
    forall k :: 0 <= k < |products| ==>
      products[k].categoryId == "" || exists j :: 0 <= j < |cs| && cs[j].id == products[k].categoryId
  }

  function CategoryIndex(cs: seq<Category>, id: string): (r: int)
    ensures -1 <= r < |cs|
    ensures r == -1 <==> forall j :: 0 <= j < |cs| ==> cs[j].id != id
    ensures 0 <= r ==> cs[r].id == id && forall j :: 0 <= j < r ==> cs[j].id != id
  {
    FirstIndex(cs, (c: Category) => c.id == id)
  }

  predicate IsActive(c: Category)
  {
    c.active
  }

  /** getCategories(activeOnly). */
  function GetCategories(cs: seq<Category>, activeOnly: bool): (r: seq<Category>)
    ensures !activeOnly ==> r == cs
    ensures activeOnly ==> forall c :: c in r <==> c in cs && c.active
  {
    if activeOnly then Filter(cs, IsActive) else cs
  }

  /** getCategoryById: the first category with that id, None when absent. */
  function GetCategoryById(cs: seq<Category>, id: string): (r: Option<Category>)
    ensures r.None? <==> forall j :: 0 <= j < |cs| ==> cs[j].id != id
    ensures r.Some? ==> r.value in cs && r.value.id == id
  {
    var i := CategoryIndex(cs, id);
    if i < 0 then None else Some(cs[i])
  }

  /** toggleCategory on the list `cs`: the new `active`, or NotFound. */
  function FlipActive(cs: seq<Category>, id: string): (o: (Result<bool, CategoryError>, seq<Category>))
    ensures CategoryIndex(cs, id) < 0 <==> o.0 == Err(CategoryNotFound)
    ensures o.0.Err? ==> o.1 == cs
    ensures o.0.Ok? ==>
            var i := CategoryIndex(cs, id);
            o.0.value == !cs[i].active && o.1 == cs[i := cs[i].(active := o.0.value)]
  {
    var i := CategoryIndex(cs, id);
    if i < 0 then (Err(CategoryNotFound), cs)
    else (Ok(!cs[i].active), cs[i := cs[i].(active := !cs[i].active)])
  }

  /** Toggling twice restores the list. */
  lemma FlipActiveTwice(cs: seq<Category>, id: string)
    ensures FlipActive(FlipActive(cs, id).1, id).1 == cs
  {
    var t := FlipActive(cs, id).1;
    assert forall j :: 0 <= j < |cs| ==> t[j].id == cs[j].id;
    assert CategoryIndex(t, id) == CategoryIndex(cs, id);
  }

  /** `categories.filter(cat => cat.id !== id)`. */
  function WithoutCategory(cs: seq<Category>, id: string): (t: seq<Category>)
    ensures forall c :: c in t <==> c in cs && c.id != id
    ensures |t| <= |cs|
  {
    Filter(cs, (c: Category) => c.id != id)
  }

  /** Removing a category no product is filed under keeps every product filed. */
  lemma WithoutCategoryKeepsProductsFiled(products: seq<Product>, cs: seq<Category>, id: string)
    requires ProductsFiled(products, cs)
    requires forall k :: 0 <= k < |products| ==> products[k].categoryId != id
    ensures ProductsFiled(products, WithoutCategory(cs, id))
  {
    var t := WithoutCategory(cs, id);
    forall k | 0 <= k < |products| && products[k].categoryId != ""
      ensures exists j :: 0 <= j < |t| && t[j].id == products[k].categoryId
    {
      var j :| 0 <= j < |cs| && cs[j].id == products[k].categoryId;
      assert cs[j] in t;
    }
  }

  /** Names stay distinct (ignoring case) when a subsequence is kept. */
  lemma WithoutCategoryKeepsNamesDistinct(cs: seq<Category>, id: string)
    requires NamesDistinct(cs)
    ensures NamesDistinct(WithoutCategory(cs, id))
  {
    var t := WithoutCategory(cs, id);
    assert NoDuplicates(cs) by {
      assert forall i, j :: 0 <= i < j < |cs| ==> cs[i].name != cs[j].name;
    }
    FilterKeepsNoDuplicates(cs, (c: Category) => c.id != id);
    forall a, b | 0 <= a < b < |t|
      ensures ToLower(t[a].name) != ToLower(t[b].name)
    {
      assert t[a] in cs && t[b] in cs;
      var i :| 0 <= i < |cs| && cs[i] == t[a];
      var j :| 0 <= j < |cs| && cs[j] == t[b];
      assert t[a] != t[b];
      assert i != j;
    }
  }

  /** Appending a category with a fresh id and an unused name keeps both
   *  invariants. */
  lemma AppendCategoryKeeps(cs: seq<Category>, c: Category)
    requires forall j :: 0 <= j < |cs| ==> cs[j].id != c.id
    requires forall j :: 0 <= j < |cs| ==> ToLower(cs[j].name) != ToLower(c.name)
    ensures IdsUnique(cs) ==> IdsUnique(cs + [c])
    ensures NamesDistinct(cs) ==> NamesDistinct(cs + [c])
  {
  }

  /** Replacing the i-th category by one with the same id and a name no other
   *  category uses keeps both invariants. */
  lemma ReplaceCategoryKeeps(cs: seq<Category>, i: int, c: Category)
    requires 0 <= i < |cs| && c.id == cs[i].id
    requires forall j :: 0 <= j < |cs| && cs[j].id != c.id ==> ToLower(cs[j].name) != ToLower(c.name)
    ensures IdsUnique(cs) ==> IdsUnique(cs[i := c])
    ensures IdsUnique(cs) && NamesDistinct(cs) ==> NamesDistinct(cs[i := c])
  {
  }

  class CategoryStore {
    var categories: seq<Category>

    constructor (seed: seq<Category>)
      ensures categories == seed
    {
      categories := seed;
    }

    /** addCategory: a blank name or a name already used (ignoring case) is
     *  refused; otherwise an active category with the trimmed name and the icon
     *  (the folder when none) is appended. `newId` comes from the clock. */
    method AddCategory(name: string, icon: string, newId: string) returns (r: Result<Category, CategoryError>)
      requires forall j :: 0 <= j < |categories| ==> categories[j].id != newId
      modifies this
      ensures IsBlank(name) ==> r == Err(NameRequired)
      ensures !IsBlank(name) && NameUsed(old(categories), name) ==> r == Err(NameTaken)
      ensures r.Ok? <==> !IsBlank(name) && !NameUsed(old(categories), name)
      ensures r.Err? ==> categories == old(categories)
      ensures r.Ok? ==>
              r.value == Category(newId, Trim(name), IconOr(icon, DefaultIcon), true) &&
              categories == old(categories) + [r.value]
      ensures NamesDistinct(old(categories)) ==> NamesDistinct(categories)
      ensures IdsUnique(old(categories)) ==> IdsUnique(categories)
    {
      if IsBlank(name) {
        return Err(NameRequired);
      }
      if exists j :: 0 <= j < |categories| && ToLower(categories[j].name) == ToLower(Trim(name)) {
        return Err(NameTaken);
      }
      var c := Category(newId, Trim(name), IconOr(icon, DefaultIcon), true);
      AppendCategoryKeeps(categories, c);
      categories := categories + [c];
      r := Ok(c);
    }

    /** updateCategory: an unknown id, a blank name, or a name another category
     *  uses (ignoring case) is refused; otherwise the name is replaced by its
     *  trimmed form and the icon by the given one, if any. */
    method UpdateCategory(id: string, name: string, icon: string) returns (r: Result<Category, CategoryError>)
      modifies this
      ensures CategoryIndex(old(categories), id) < 0 ==> r == Err(CategoryNotFound)
      ensures CategoryIndex(old(categories), id) >= 0 && IsBlank(name) ==> r == Err(NameRequired)
      ensures CategoryIndex(old(categories), id) >= 0 && !IsBlank(name) && NameUsedByOther(old(categories), id, name) ==>
              r == Err(NameTaken)
      ensures r.Ok? <==>
              CategoryIndex(old(categories), id) >= 0 && !IsBlank(name) && !NameUsedByOther(old(categories), id, name)
      ensures r.Err? ==> categories == old(categories)
      ensures r.Ok? ==>
              var i := CategoryIndex(old(categories), id);
              r.value == old(categories)[i].(name := Trim(name), icon := IconOr(icon, old(categories)[i].icon)) &&
              categories == old(categories)[i := r.value]
      ensures IdsUnique(old(categories)) ==> IdsUnique(categories)
      ensures IdsUnique(old(categories)) && NamesDistinct(old(categories)) ==> NamesDistinct(categories)
    {
      var i := CategoryIndex(categories, id);
      if i < 0 {
        return Err(CategoryNotFound);
      }
      if IsBlank(name) {
        return Err(NameRequired);
      }
      if exists j :: 0 <= j < |categories| && categories[j].id != id && ToLower(categories[j].name) == ToLower(Trim(name)) {
        return Err(NameTaken);
      }
      var c := categories[i].(name := Trim(name), icon := IconOr(icon, categories[i].icon));
      ReplaceCategoryKeeps(categories, i, c);
      categories := categories[i := c];
      r := Ok(c);
    }

    /** deleteCategory: refused for an unknown id and while any product is filed
     *  under the category; otherwise every category with that id is removed. */
    method DeleteCategory(id: string, products: seq<Product>) returns (r: Result<(), CategoryError>)
      modifies this
      ensures CategoryIndex(old(categories), id) < 0 ==> r == Err(CategoryNotFound)
      ensures CategoryIndex(old(categories), id) >= 0 && (exists k :: 0 <= k < |products| && products[k].categoryId == id) ==>
              r == Err(HasProducts)
      ensures r.Ok? <==> CategoryIndex(old(categories), id) >= 0 &&
                         !(exists k :: 0 <= k < |products| && products[k].categoryId == id)
      ensures r.Err? ==> categories == old(categories)
      ensures r.Ok? ==> categories == WithoutCategory(old(categories), id)
      ensures ProductsFiled(products, old(categories)) ==> ProductsFiled(products, categories)
      ensures NamesDistinct(old(categories)) ==> NamesDistinct(categories)
    {
      var i := CategoryIndex(categories, id);
      if i < 0 {
        return Err(CategoryNotFound);
      }
      if exists k :: 0 <= k < |products| && products[k].categoryId == id {
        return Err(HasProducts);
      }
      if ProductsFiled(products, categories) {
        WithoutCategoryKeepsProductsFiled(products, categories, id);
      }
      if NamesDistinct(categories) {
        WithoutCategoryKeepsNamesDistinct(categories, id);
      }
      categories := WithoutCategory(categories, id);
      r := Ok(());
    }

    /** toggleCategory: flips `active` of that category only. */
    method ToggleCategory(id: string) returns (r: Result<bool, CategoryError>)
      modifies this
      ensures (r, categories) == FlipActive(old(categories), id)
    {
      var i := CategoryIndex(categories, id);
      if i < 0 {
        return Err(CategoryNotFound);
      }
      var active := !categories[i].active;
      categories := categories[i := categories[i].(active := active)];
      r := Ok(active);
    }
  }
}
