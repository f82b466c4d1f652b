/** The product builder of the product page (js/builder.js): the chosen size,
 *  the chosen toppings and the quantity of one drink, and the price they add
 *  up to. The size and topping lists are handed in. */
module Builder {
  import opened Common
  import opened Products
  import Sizes
  import Toppings

  /** What calculateBuilderPrice reports; the reply without a product has no
   *  `unitPrice` field. */
  datatype Price = Price(basePrice: int, sizePrice: int, toppingPrice: int, unitPrice: Option<int>, totalPrice: int)

  /** The size renderSizeOptions picks when none is chosen: the first active
   *  size, provided the product comes in sizes. */
  function DefaultSize(p: Product, sizes: seq<Sizes.Size>): (r: Option<string>)
    ensures r.Some? <==> p.allowSize && exists j :: 0 <= j < |sizes| && sizes[j].active
    ensures r.Some? ==>
              exists j :: 0 <= j < |sizes| && sizes[j].active && sizes[j].id == r.value &&
                          forall k :: 0 <= k < j ==> !sizes[k].active
  {
    var active := Sizes.GetActiveSizes(sizes);
    if !p.allowSize || |active| == 0 then None
    else
      FilterHead(sizes, Sizes.IsActive);
      Some(active[0].id)
  }

  /** handleToppingChange on the list of chosen ids: an absent id is appended,
   *  otherwise its first occurrence is spliced out. */
  function ToggledIds(ids: seq<string>, id: string): (r: seq<string>)
    ensures id !in ids ==> id in r && |r| == |ids| + 1
    ensures id in ids ==> |r| == |ids| - 1
    ensures forall x :: x != id ==> (x in r <==> x in ids)
    ensures NoDuplicates(ids) ==> NoDuplicates(r) && (id in r <==> id !in ids)
  {
    var i := FirstIndex(ids, (x: string) => x == id);
    if i < 0 then ids + [id]
    else
      var r := ids[..i] + ids[i + 1..];
      assert forall x :: x in r <==> exists j :: 0 <= j < |ids| && j != i && ids[j] == x by {
        forall x
          ensures x in r <==> exists j :: 0 <= j < |ids| && j != i && ids[j] == x
        {
          if x in r {
            var k :| 0 <= k < |r| && r[k] == x;
            if k < i {
              assert ids[k] == x;
            } else {
              assert ids[k + 1] == x;
            }
          }
          if exists j :: 0 <= j < |ids| && j != i && ids[j] == x {
            var j :| 0 <= j < |ids| && j != i && ids[j] == x;
            if j < i {
              assert r[j] == x;
            } else {
              assert r[j - 1] == x;
            }
          }
        }
      }
      r
  }

  /** Toggling an id that is not chosen twice gives back the same choice. */
  lemma ToggledIdsTwice(ids: seq<string>, id: string)
    requires id !in ids
    ensures ToggledIds(ToggledIds(ids, id), id) == ids
  {
    var once := ids + [id];
    assert once[|ids|] == id;
    var i := FirstIndex(once, (x: string) => x == id);
    assert i == |ids|;
    assert once[..i] == ids;
  }

  /** Without repeats, toggling any id twice keeps the same chosen toppings
   *  (a removed id comes back at the end). */
  lemma ToggledIdsTwiceSameChoice(ids: seq<string>, id: string)
    requires NoDuplicates(ids)
    ensures multiset(ToggledIds(ToggledIds(ids, id), id)) == multiset(ids)
  {
    if id !in ids {
      ToggledIdsTwice(ids, id);
    } else {
      var i := FirstIndex(ids, (x: string) => x == id);
      var once := ids[..i] + ids[i + 1..];
      assert ids == ids[..i] + [id] + ids[i + 1..];
      assert id !in once;
      assert ToggledIds(once, id) == once + [id];
    }
  }

  /** `toppings.reduce((sum, t) => sum + t.price, 0)`. */
  function ToppingTotal(ts: seq<Toppings.Topping>): int
  {
    if |ts| == 0 then 0 else ts[0].price + ToppingTotal(ts[1..])
  }

  lemma {:induction false} ToppingTotalAppend(a: seq<Toppings.Topping>, b: seq<Toppings.Topping>)
    ensures ToppingTotal(a + b) == ToppingTotal(a) + ToppingTotal(b)
    decreases |a|
  {
    if |a| == 0 {
      assert a + b == b;
    } else {
      assert (a + b)[0] == a[0];
      assert (a + b)[1..] == a[1..] + b;
      ToppingTotalAppend(a[1..], b);
    }
  }

  /** Looking up one more id appends its topping, when it names one. */
  lemma {:induction false} ToppingsByIdsAppend(ts: seq<Toppings.Topping>, ids: seq<string>, id: string)
    ensures Toppings.GetToppingsByIds(ts, ids + [id]) ==
            Toppings.GetToppingsByIds(ts, ids) +
            (match Toppings.GetToppingById(ts, id) case Some(t) => [t] case None => [])
    decreases |ids|
  {
    if |ids| == 0 {
      assert ids + [id] == [id];
      assert ([id])[1..] == [];
    } else {
      assert (ids + [id])[0] == ids[0];
      assert (ids + [id])[1..] == ids[1..] + [id];
      ToppingsByIdsAppend(ts, ids[1..], id);
    }
  }

  /** The surcharge of the chosen size, 0 when none is chosen or it is gone. */
  function SizePrice(sizeId: Option<string>, sizes: seq<Sizes.Size>): int
  {
    if sizeId.None? then 0
    else match Sizes.GetSizeById(sizes, sizeId.value)
      case Some(s) => s.priceAdd
      case None => 0
  }

  /** calculateBuilderPrice on a given state: zeros and no unit price without a
   *  product. */
  function BuilderPrice(product: Option<Product>, sizeId: Option<string>, toppingIds: seq<string>, quantity: int,
                        sizes: seq<Sizes.Size>, toppings: seq<Toppings.Topping>): (p: Price)
    ensures product.None? ==> p == Price(0, 0, 0, None, 0)
    ensures product.Some? ==> p.basePrice == product.value.price && p.sizePrice == SizePrice(sizeId, sizes)
    ensures product.Some? ==> p.unitPrice == Some(p.basePrice + p.sizePrice + p.toppingPrice)
    ensures product.Some? ==> p.totalPrice == p.unitPrice.value * quantity
    ensures toppingIds == [] ==> p.toppingPrice == 0
  {
    if product.None? then Price(0, 0, 0, None, 0)
    else
      var basePrice := product.value.price;
      var sizePrice := SizePrice(sizeId, sizes);
      var toppingPrice := ToppingTotal(Toppings.GetToppingsByIds(toppings, toppingIds));
      var unitPrice := basePrice + sizePrice + toppingPrice;
      Price(basePrice, sizePrice, toppingPrice, Some(unitPrice), unitPrice * quantity)
  }

  /** With no size and no topping chosen, a drink costs its base price. */
  lemma PlainDrinkPrice(p: Product, quantity: int, sizes: seq<Sizes.Size>, toppings: seq<Toppings.Topping>)
    ensures BuilderPrice(Some(p), None, [], quantity, sizes, toppings).unitPrice == Some(p.price)
  {
  }

  /** Choosing one more topping raises the unit price by exactly that
   *  topping's price (nothing for an unknown id). */
  lemma ToppingAddsItsPrice(product: Product, sizeId: Option<string>, ids: seq<string>, id: string, quantity: int,
                            sizes: seq<Sizes.Size>, toppings: seq<Toppings.Topping>)
    requires id !in ids
    ensures var before := BuilderPrice(Some(product), sizeId, ids, quantity, sizes, toppings);
            var after := BuilderPrice(Some(product), sizeId, ToggledIds(ids, id), quantity, sizes, toppings);
            after.unitPrice.value == before.unitPrice.value +
              (match Toppings.GetToppingById(toppings, id) case Some(t) => t.price case None => 0)
  {
    ToppingsByIdsAppend(toppings, ids, id);
    var extra := match Toppings.GetToppingById(toppings, id) case Some(t) => [t] case None => [];
    ToppingTotalAppend(Toppings.GetToppingsByIds(toppings, ids), extra);
    if extra != [] {
      assert extra[1..] == [];
    }
  }

  /** The builder's state (`builderState`). */
  class ProductBuilder {
    var product: Option<Product>
    var selectedSizeId: Option<string>
    var selectedToppingIds: seq<string>
    var quantity: int

    /** At least one drink, and no topping chosen twice. */
    predicate Valid()
      reads this
    {
      quantity >= 1 && NoDuplicates(selectedToppingIds)
    }

    constructor ()
      ensures product == None && selectedSizeId == None && selectedToppingIds == [] && quantity == 1
      ensures Valid()
    {
      product := None;
      selectedSizeId := None;
      selectedToppingIds := [];
      quantity := 1;
    }

    /** calculateBuilderPrice on the current state. */
    function CurrentPrice(sizes: seq<Sizes.Size>, toppings: seq<Toppings.Topping>): (p: Price)
      reads this
      ensures p.unitPrice.Some? <==> product.Some?
      ensures product.Some? ==>
              p.unitPrice.value == product.value.price + SizePrice(selectedSizeId, sizes) + p.toppingPrice &&
              p.totalPrice == p.unitPrice.value * quantity
      ensures product.None? ==> p.totalPrice == 0
    {
      BuilderPrice(product, selectedSizeId, selectedToppingIds, quantity, sizes, toppings)
    }

    /** initBuilder: an unknown product leaves everything as it was;
     *  otherwise the builder starts over with that product, no topping, one
     *  drink, and the default size. */
    method InitBuilder(products: seq<Product>, sizes: seq<Sizes.Size>, productId: string) returns (found: bool)
      modifies this
      ensures found <==> ProductById(products, productId).Some?
      ensures !found ==>
                product == old(product) && selectedSizeId == old(selectedSizeId) &&
                selectedToppingIds == old(selectedToppingIds) && quantity == old(quantity)
      ensures found ==>
                product == ProductById(products, productId) &&
                selectedSizeId == DefaultSize(product.value, sizes) &&
                selectedToppingIds == [] && quantity == 1
      ensures found ==> Valid()
    {
      var p := ProductById(products, productId);
      if p.None? {
        return false;
      }
      product := p;
      selectedSizeId := None;
      selectedToppingIds := [];
      quantity := 1;
      RenderSizeOptions(sizes);
      found := true;
    }

    /** The state change in renderSizeOptions: the default size is taken only
     *  when no size is chosen yet. */
    method RenderSizeOptions(sizes: seq<Sizes.Size>)
      requires product.Some?
      modifies this
      ensures product == old(product) && selectedToppingIds == old(selectedToppingIds) && quantity == old(quantity)
      ensures selectedSizeId == if old(selectedSizeId).Some? then old(selectedSizeId) else DefaultSize(product.value, sizes)
    {
      if !product.value.allowSize {
        return;
      }
      var active := Sizes.GetActiveSizes(sizes);
      if |active| == 0 {
        return;
      }
      if selectedSizeId.None? {
        selectedSizeId := Some(active[0].id);
      }
    }

    /** handleSizeChange. */
    method HandleSizeChange(sizeId: string)
      modifies this
      ensures selectedSizeId == Some(sizeId)
      ensures product == old(product) && selectedToppingIds == old(selectedToppingIds) && quantity == old(quantity)
      ensures old(Valid()) ==> Valid()
    {
      selectedSizeId := Some(sizeId);
    }

    /** handleToppingChange: `push` when absent, `splice` when present. */
    method HandleToppingChange(toppingId: string)
      modifies this
      ensures selectedToppingIds == ToggledIds(old(selectedToppingIds), toppingId)
      ensures product == old(product) && selectedSizeId == old(selectedSizeId) && quantity == old(quantity)
      ensures old(Valid()) ==> Valid()
    {
      var index := FirstIndex(selectedToppingIds, (x: string) => x == toppingId);
      if index == -1 {
        selectedToppingIds := selectedToppingIds + [toppingId];
      } else {
        selectedToppingIds := selectedToppingIds[..index] + selectedToppingIds[index + 1..];
      }
    }

    /** handleBuilderQuantity: never below one drink. */
    method HandleBuilderQuantity(delta: int)
      modifies this
      ensures quantity == Max(1, old(quantity) + delta) && quantity >= 1
      ensures product == old(product) && selectedSizeId == old(selectedSizeId) &&
              selectedToppingIds == old(selectedToppingIds)
      ensures old(Valid()) ==> Valid()
    {
      quantity := Max(1, quantity + delta);
    }
  }
}
