/** The product record both screens receive from the catalog endpoint,
    and the favourite test both screens derive from the shared
    favourites list. */
module Catalog {

  datatype Option<+T> = None | Some(value: T)

  /** The review summary; only the single-product endpoint sends it. */
  datatype Rating = Rating(rate: real, count: int)

  /** A catalog item. `id` is the only key the screens compare. */
  datatype Product = Product(
    id: int,
    title: string,
    price: real,
    description: string,
    image: string,
    category: string,
    rating: Option<Rating>)

  /** `favorites.some((fav) => fav.id === id)`: scans the favourites from
      the first, and holds exactly when one of them carries `id`. */
  function IsFavorite(favorites: seq<Product>, id: int): (r: bool)
    ensures r <==> exists i :: 0 <= i < |favorites| && favorites[i].id == id
  {
    if favorites == [] then false
    else if favorites[0].id == id then true
    else
      var r := IsFavorite(favorites[1..], id);
      assert forall i :: 1 <= i < |favorites| ==> favorites[i] == favorites[1..][i - 1];
      r
  }

  /** A product that is itself in the favourites list is a favourite. */
  lemma MemberIsFavorite(favorites: seq<Product>, p: Product)
    requires p in favorites
    ensures IsFavorite(favorites, p.id)
  {
    var i :| 0 <= i < |favorites| && favorites[i] == p;
    assert favorites[i].id == p.id;
  }
}
