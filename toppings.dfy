/** The drink toppings (js/toppings.js): a priced extra with an on/off switch,
 *  optionally limited to some product categories. */
module Toppings {
  import opened Common

  /** A topping. An empty `categoryIds` (also how a missing list is modelled)
   *  means the topping fits every category. */
  datatype Topping = Topping(id: string, name: string, price: int, active: bool, categoryIds: seq<string>)

  /** The fields `updateTopping` may overwrite; None leaves a field as it is. */
  datatype ToppingPatch = ToppingPatch(name: Option<string>, price: Option<int>, active: Option<bool>,
                                       categoryIds: Option<seq<string>>)

  datatype ToppingError = NameRequired | ToppingNotFound

  predicate IdsUnique(ts: seq<Topping>)
  {
    forall i, j :: 0 <= i < j < |ts| ==> ts[i].id != ts[j].id
  }

  predicate IsActive(t: Topping)
  {
    t.active
  }

  /** The first index holding that id, or -1 (`findIndex` / `find`). */
  function ToppingIndex(ts: seq<Topping>, id: string): (r: int)
    ensures -1 <= r < |ts|
    ensures r == -1 <==> forall j :: 0 <= j < |ts| ==> ts[j].id != id
    ensures 0 <= r ==> ts[r].id == id && forall j :: 0 <= j < r ==> ts[j].id != id
  {
    FirstIndex(ts, (t: Topping) => t.id == id)
  }

  /** getActiveToppings. */
  function GetActiveToppings(ts: seq<Topping>): (r: seq<Topping>)
    ensures forall t :: t in r <==> t in ts && t.active
    ensures |r| <= |ts|
  {
    Filter(ts, IsActive)
  }

  /** getToppingById: the first topping with that id, None for `null`. */
  function GetToppingById(ts: seq<Topping>, id: string): (r: Option<Topping>)
    ensures r.None? <==> forall j :: 0 <= j < |ts| ==> ts[j].id != id
    ensures r.Some? ==> r.value in ts && r.value.id == id
  {
    var i := ToppingIndex(ts, id);
    if i < 0 then None else Some(ts[i])
  }

  /** Whether an id names some topping. */
  function Known(ts: seq<Topping>): string -> bool
  {
    (id: string) => ToppingIndex(ts, id) >= 0
  }

  /** getToppingsByIds: each id looked up in turn, the unknown ones dropped. */
  function GetToppingsByIds(ts: seq<Topping>, ids: seq<string>): (r: seq<Topping>)
    ensures |r| <= |ids|
    ensures forall t :: t in r ==> t in ts && t.id in ids
    ensures |ids| == 0 ==> r == []
  {
    if |ids| == 0 then []
    else
      var rest := GetToppingsByIds(ts, ids[1..]);
      match GetToppingById(ts, ids[0])
      case Some(t) => [t] + rest
      case None => rest
  }

  /** The k-th topping of r is the one the k-th id of known names. */
  predicate Aligned(ts: seq<Topping>, known: seq<string>, r: seq<Topping>)
  {
    |r| == |known| && forall k :: 0 <= k < |known| ==> GetToppingById(ts, known[k]) == Some(r[k])
  }

  /** Looking up one more known id in front keeps the alignment. */
  lemma AlignedCons(ts: seq<Topping>, id: string, t: Topping, known: seq<string>, r: seq<Topping>)
    requires GetToppingById(ts, id) == Some(t)
    requires Aligned(ts, known, r)
    ensures Aligned(ts, [id] + known, [t] + r)
  {
    var known' := [id] + known;
    var r' := [t] + r;
    assert known'[0] == id && r'[0] == t;
    assert known'[1..] == known && r'[1..] == r;
    forall k | 1 <= k < |known'|
      ensures GetToppingById(ts, known'[k]) == Some(r'[k])
    {
      assert known'[k] == known[k - 1];
    }
  }

  /** The lookup keeps the order of the ids: its k-th topping is the one the
   *  k-th known id names. */
  lemma {:induction false} ToppingsByIdsInOrder(ts: seq<Topping>, ids: seq<string>)
    ensures Aligned(ts, Filter(ids, Known(ts)), GetToppingsByIds(ts, ids))
    decreases |ids|
  {
    if |ids| > 0 {
      ToppingsByIdsInOrder(ts, ids[1..]);
      var rest := GetToppingsByIds(ts, ids[1..]);
      var knownRest := Filter(ids[1..], Known(ts));
      var found := GetToppingById(ts, ids[0]);
      if Known(ts)(ids[0]) {
        assert Filter(ids, Known(ts)) == [ids[0]] + knownRest;
        assert GetToppingsByIds(ts, ids) == [found.value] + rest;
        AlignedCons(ts, ids[0], found.value, knownRest, rest);
      } else {
        assert Filter(ids, Known(ts)) == knownRest;
        assert GetToppingsByIds(ts, ids) == rest;
      }
    }
  }

  /** Whether a topping is offered for products of category `categoryId`. */
  function FitsCategory(categoryId: string): Topping -> bool
  {
    (t: Topping) => |t.categoryIds| == 0 || categoryId in t.categoryIds
  }

  /** getToppingsForCategory: the active toppings, narrowed to those fitting the
   *  category when one is given (the empty id stands for none). */
  function GetToppingsForCategory(ts: seq<Topping>, categoryId: string): (r: seq<Topping>)
    ensures forall t :: t in r <==>
              t in ts && t.active && (categoryId == "" || |t.categoryIds| == 0 || categoryId in t.categoryIds)
    ensures categoryId == "" ==> r == GetActiveToppings(ts)
    ensures |r| <= |GetActiveToppings(ts)|
  {
    var active := GetActiveToppings(ts);
    if categoryId == "" then active else Filter(active, FitsCategory(categoryId))
  }

  /** A topping without a category list is offered for every category. */
  lemma UnrestrictedFitsEveryCategory(ts: seq<Topping>, t: Topping, categoryId: string)
    requires t in ts && t.active && |t.categoryIds| == 0
    ensures t in GetToppingsForCategory(ts, categoryId)
  {
  }

  /** `{ ...topping, ...data }`. */
  function Merge(t: Topping, p: ToppingPatch): (m: Topping)
    ensures m.id == t.id
  {
    Topping(t.id, p.name.GetOr(t.name), p.price.GetOr(t.price), p.active.GetOr(t.active),
            p.categoryIds.GetOr(t.categoryIds))
  }

  /** Applying the same patch twice changes nothing more; an empty patch
   *  changes nothing. */
  lemma MergeIdempotent(t: Topping, p: ToppingPatch)
    ensures Merge(Merge(t, p), p) == Merge(t, p)
    ensures Merge(t, ToppingPatch(None, None, None, None)) == t
  {
  }

  /** toggleTopping on the list `ts`: the new `active`, or not found. */
  function FlipActive(ts: seq<Topping>, id: string): (o: (Result<bool, ToppingError>, seq<Topping>))
    ensures ToppingIndex(ts, id) < 0 <==> o.0 == Err(ToppingNotFound)
    ensures o.0.Err? ==> o.1 == ts
    ensures o.0.Ok? ==>
              var i := ToppingIndex(ts, id);
              o.0.value == !ts[i].active && o.1 == ts[i := ts[i].(active := o.0.value)]
  {
    var i := ToppingIndex(ts, id);
    if i < 0 then (Err(ToppingNotFound), ts)
    else (Ok(!ts[i].active), ts[i := ts[i].(active := !ts[i].active)])
  }

  /** Toggling twice restores the list. */
  lemma FlipActiveTwice(ts: seq<Topping>, id: string)
    ensures FlipActive(FlipActive(ts, id).1, id).1 == ts
  {
    var t := FlipActive(ts, id).1;
    assert forall j :: 0 <= j < |ts| ==> t[j].id == ts[j].id;
    assert ToppingIndex(t, id) == ToppingIndex(ts, id);
  }

  /** A toggle switches exactly one topping: the number of active toppings
   *  goes up by one when it is switched on and down by one when switched off. */
  lemma FlipActiveCount(ts: seq<Topping>, id: string)
    requires FlipActive(ts, id).0.Ok?
    ensures var o := FlipActive(ts, id);
            |GetActiveToppings(o.1)| == |GetActiveToppings(ts)| + (if o.0.value then 1 else -1)
  {
    var i := ToppingIndex(ts, id);
    CountUpdate(ts, i, ts[i].(active := !ts[i].active), IsActive);
    FilterCount(ts, IsActive);
    FilterCount(ts[i := ts[i].(active := !ts[i].active)], IsActive);
  }

  /** `toppings.filter(t => t.id !== id)`. */
  function WithoutTopping(ts: seq<Topping>, id: string): (r: seq<Topping>)
    ensures forall t :: t in r <==> t in ts && t.id != id
    ensures |r| == |ts| <==> forall j :: 0 <= j < |ts| ==> ts[j].id != id
  {
    Filter(ts, (t: Topping) => t.id != id)
  }

  class ToppingShelf {
    var toppings: seq<Topping>

    constructor (seed: seq<Topping>)
      ensures toppings == seed
    {
      toppings := seed;
    }

    /** addTopping: only the empty name is refused (a name of spaces is kept,
     *  trimmed to nothing); the new topping is active, priced at the parsed
     *  integer or 0, fits every category, and is appended with no check for a
     *  duplicate name. `price` is the parsed integer, None when it is not a
     *  number; `newId` comes from the clock. */
    method AddTopping(name: string, price: Option<int>, newId: string) returns (r: Result<Topping, ToppingError>)
      requires forall j :: 0 <= j < |toppings| ==> toppings[j].id != newId
      modifies this
      ensures r.Err? <==> name == ""
      ensures r.Err? ==> r.error == NameRequired && toppings == old(toppings)
      ensures r.Ok? ==>
              r.value == Topping(newId, Trim(name), price.GetOr(0), true, []) &&
              toppings == old(toppings) + [r.value]
      ensures IdsUnique(old(toppings)) ==> IdsUnique(toppings)
    {
      if name == "" {
        return Err(NameRequired);
      }
      var t := Topping(newId, Trim(name), price.GetOr(0), true, []);
      toppings := toppings + [t];
      r := Ok(t);
    }

    /** updateTopping: an unknown id is refused; otherwise the first topping
     *  with that id is merged with the patch and nothing else changes. */
    method UpdateTopping(id: string, patch: ToppingPatch) returns (r: Result<Topping, ToppingError>)
      modifies this
      ensures r.Err? <==> ToppingIndex(old(toppings), id) < 0
      ensures r.Err? ==> r.error == ToppingNotFound && toppings == old(toppings)
      ensures r.Ok? ==>
              var i := ToppingIndex(old(toppings), id);
              r.value == Merge(old(toppings)[i], patch) && toppings == old(toppings)[i := r.value]
      ensures IdsUnique(old(toppings)) ==> IdsUnique(toppings)
    {
      var i := ToppingIndex(toppings, id);
      if i < 0 {
        return Err(ToppingNotFound);
      }
      var t := Merge(toppings[i], patch);
      toppings := toppings[i := t];
      r := Ok(t);
    }

    /** toggleTopping: flips `active` of the first topping with that id only. */
    method ToggleTopping(id: string) returns (r: Result<bool, ToppingError>)
      modifies this
      ensures (r, toppings) == FlipActive(old(toppings), id)
    {
      var i := ToppingIndex(toppings, id);
      if i < 0 {
        return Err(ToppingNotFound);
      }
      var active := !toppings[i].active;
      toppings := toppings[i := toppings[i].(active := active)];
      r := Ok(active);
    }

    /** deleteTopping: every topping with that id is removed; the call reports
     *  not found exactly when the list did not get shorter. */
    method DeleteTopping(id: string) returns (r: Result<(), ToppingError>)
      modifies this
      ensures r.Err? <==> forall j :: 0 <= j < |old(toppings)| ==> old(toppings)[j].id != id
      ensures r.Err? ==> r.error == ToppingNotFound && toppings == old(toppings)
      ensures r.Ok? ==> toppings == WithoutTopping(old(toppings), id)
      ensures forall t :: t in toppings ==> t.id != id
    {
      var remaining := WithoutTopping(toppings, id);
      if |remaining| == |toppings| {
        return Err(ToppingNotFound);
      }
      toppings := remaining;
      r := Ok(());
    }
  }
}
