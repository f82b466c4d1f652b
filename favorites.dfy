/** The wishlist (js/favorites.js): one list of product ids per user, kept in a
 *  single dictionary keyed by user id. The signed-in user is a parameter: None
 *  when nobody is signed in. */
module Favorites {
  import opened Common
  import opened Products

  type FavoriteLists = map<string, seq<string>>

  datatype FavoriteError = LoginRequired | AlreadyFavorite

  /** getFavorites: the signed-in user's list, [] when signed out or when the
   *  user has none yet. */
  function GetFavorites(lists: FavoriteLists, user: Option<string>): (r: seq<string>)
    ensures user.None? ==> r == []
    ensures user.Some? && user.value in lists ==> r == lists[user.value]
    ensures user.Some? && user.value !in lists ==> r == []
  {
    match user
    case None => []
    case Some(u) => if u in lists then lists[u] else []
  }

  /** isFavorite. */
  predicate IsFavorite(lists: FavoriteLists, user: Option<string>, productId: string)
  {
    productId in GetFavorites(lists, user)
  }

  /** saveFavorites on the dictionary: the signed-in user's entry replaced,
   *  nothing at all when signed out. */
  function Saved(lists: FavoriteLists, user: Option<string>, favorites: seq<string>): (r: FavoriteLists)
    ensures user.None? ==> r == lists
    ensures user.Some? ==> r.Keys == lists.Keys + {user.value} && GetFavorites(r, user) == favorites
    ensures forall u :: user != Some(u) && u in lists ==> u in r && r[u] == lists[u]
  {
    match user
    case None => lists
    case Some(u) => lists[u := favorites]
  }

  /** `id => id !== productId`. */
  function Other(productId: string): string -> bool
  {
    (id: string) => id != productId
  }

  /** The dictionary after addToFavorites: signed out or already present is
   *  refused and changes nothing; otherwise the id is appended. */
  function Added(lists: FavoriteLists, user: Option<string>, productId: string): (o: (Result<(), FavoriteError>, FavoriteLists))
    ensures user.None? <==> o.0 == Err(LoginRequired)
    ensures user.Some? && IsFavorite(lists, user, productId) <==> o.0 == Err(AlreadyFavorite)
    ensures o.0.Err? ==> o.1 == lists
    ensures o.0.Ok? ==> GetFavorites(o.1, user) == GetFavorites(lists, user) + [productId]
    ensures o.0.Ok? ==> forall u :: user != Some(u) && u in lists ==> u in o.1 && o.1[u] == lists[u]
  {
    if user.None? then (Err(LoginRequired), lists)
    else if IsFavorite(lists, user, productId) then (Err(AlreadyFavorite), lists)
    else (Ok(()), Saved(lists, user, GetFavorites(lists, user) + [productId]))
  }

  /** The dictionary after removeFromFavorites: every occurrence of the id is
   *  dropped from the signed-in user's list (which is then stored, even when
   *  nothing was removed); signed out, nothing changes. */
  function Removed(lists: FavoriteLists, user: Option<string>, productId: string): (r: FavoriteLists)
    ensures user.None? ==> r == lists
    ensures forall id :: id in GetFavorites(r, user) <==> id in GetFavorites(lists, user) && id != productId
    ensures !IsFavorite(r, user, productId)
    ensures forall u :: user != Some(u) && u in lists ==> u in r && r[u] == lists[u]
  {
    Saved(lists, user, Filter(GetFavorites(lists, user), Other(productId)))
  }

  /** Every user's list is free of repeats. */
  predicate ListsDistinct(lists: FavoriteLists)
  {
    forall u :: u in lists ==> NoDuplicates(lists[u])
  }

  /** Adding (which refuses an id already present) and removing keep every
   *  list free of repeats. */
  lemma AddRemoveKeepDistinct(lists: FavoriteLists, user: Option<string>, productId: string)
    requires ListsDistinct(lists)
    ensures ListsDistinct(Added(lists, user, productId).1)
    ensures ListsDistinct(Removed(lists, user, productId))
  {
    if user.Some? {
      var favs := GetFavorites(lists, user);
      assert NoDuplicates(favs);
      FilterKeepsNoDuplicates(favs, Other(productId));
    }
  }

  /** toggleFavorite on the dictionary: signed out changes nothing (the page
   *  goes to the sign-in form); otherwise a favourite is removed and any other
   *  product added. */
  function Toggled(lists: FavoriteLists, user: Option<string>, productId: string): (r: FavoriteLists)
    ensures user.None? ==> r == lists
    ensures user.Some? ==> (IsFavorite(r, user, productId) <==> !IsFavorite(lists, user, productId))
  {
    if user.None? then lists
    else if IsFavorite(lists, user, productId) then Removed(lists, user, productId)
    else Added(lists, user, productId).1
  }

  /** Toggling a product that is not a favourite twice gives back the same
   *  list. */
  lemma ToggleTwiceRestores(lists: FavoriteLists, user: Option<string>, productId: string)
    requires !IsFavorite(lists, user, productId)
    ensures GetFavorites(Toggled(Toggled(lists, user, productId), user, productId), user) == GetFavorites(lists, user)
  {
    if user.Some? {
      var favs := GetFavorites(lists, user);
      var once := Toggled(lists, user, productId);
      assert GetFavorites(once, user) == favs + [productId];
      FilterAppend(favs, [productId], Other(productId));
      assert Filter([productId], Other(productId)) == [];
      assert Filter(favs, Other(productId)) == favs;
    }
  }

  /** getFavoriteProducts: the products whose id is on the list, in the order
   *  of the product catalogue. */
  function GetFavoriteProducts(products: seq<Product>, favoriteIds: seq<string>): (r: seq<Product>)
    ensures forall p :: p in r <==> p in products && p.id in favoriteIds
    ensures |r| <= |products|
  {
    Filter(products, (p: Product) => p.id in favoriteIds)
  }

  class FavoriteBook {
    var lists: FavoriteLists

    constructor (seed: FavoriteLists)
      ensures lists == seed
    {
      lists := seed;
    }

    /** saveFavorites. */
    method SaveFavorites(user: Option<string>, favorites: seq<string>)
      modifies this
      ensures lists == Saved(old(lists), user, favorites)
    {
      if user.None? {
        return;
      }
      lists := lists[user.value := favorites];
    }

    /** addToFavorites. */
    method AddToFavorites(user: Option<string>, productId: string) returns (r: Result<(), FavoriteError>)
      modifies this
      ensures (r, lists) == Added(old(lists), user, productId)
      ensures ListsDistinct(old(lists)) ==> ListsDistinct(lists)
    {
      if user.None? {
        return Err(LoginRequired);
      }
      var favorites := GetFavorites(lists, user);
      if productId in favorites {
        return Err(AlreadyFavorite);
      }
      if ListsDistinct(lists) {
        AddRemoveKeepDistinct(lists, user, productId);
      }
      SaveFavorites(user, favorites + [productId]);
      r := Ok(());
    }

    /** removeFromFavorites: always reports success. */
    method RemoveFromFavorites(user: Option<string>, productId: string)
      modifies this
      ensures lists == Removed(old(lists), user, productId)
      ensures ListsDistinct(old(lists)) ==> ListsDistinct(lists)
    {
      if ListsDistinct(lists) {
        AddRemoveKeepDistinct(lists, user, productId);
      }
      SaveFavorites(user, Filter(GetFavorites(lists, user), Other(productId)));
    }

    /** toggleFavorite: returns whether the product is a favourite afterwards,
     *  None when signed out. */
    method ToggleFavorite(user: Option<string>, productId: string) returns (r: Option<bool>)
      modifies this
      ensures lists == Toggled(old(lists), user, productId)
      ensures r.None? <==> user.None?
      ensures r.Some? ==> r.value == IsFavorite(lists, user, productId) && r.value == !IsFavorite(old(lists), user, productId)
    {
      if user.None? {
        return None;
      }
      var wasFavorite := productId in GetFavorites(lists, user);
      if wasFavorite {
        RemoveFromFavorites(user, productId);
      } else {
        var _ := AddToFavorites(user, productId);
      }
      r := Some(!wasFavorite);
    }
  }
}
