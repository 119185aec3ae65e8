/** The favorites slice: an insertion-ordered list of products in which no id occurs twice. */
module Favorites {
  import opened Wrappers
  import opened Catalog
  import Seqs

  function ProductId(p: Product): int { p.id }

  /** `selectIsFavorite`: some favorite has this id. */
  predicate IsFavorite(items: seq<Product>, id: int) {
    Seqs.Contains(items, ProductId, id)
  }

  // ----- The reducers as transitions on the list -----

  /** `toggleFavorite`: splice out the first product with the argument's id, or append the
      argument when there is none. */
  function Toggled(items: seq<Product>, p: Product): seq<Product> {
    match Seqs.IndexOf(items, ProductId, p.id)
    case Some(i) => items[..i] + items[i + 1..]
    case None => items + [p]
  }

  /** `addFavorite`: append the argument unless its id is already there. */
  function WithFavorite(items: seq<Product>, p: Product): seq<Product> {
    if Seqs.IndexOf(items, ProductId, p.id).None? then items + [p] else items
  }

  /** `removeFavorite`: keep the products whose id differs. */
  function WithoutFavorite(items: seq<Product>, id: int): seq<Product> {
    Seqs.Without(items, ProductId, id)
  }

  // ----- Properties of the reducers -----

  /** Toggling a product whose id is absent appends it at the end. */
  lemma {:induction false} ToggleAbsent(items: seq<Product>, p: Product)
    requires !IsFavorite(items, p.id)
    ensures Toggled(items, p) == items + [p]
  {
    assert Seqs.IndexOf(items, ProductId, p.id) == None;
  }

  /** Toggling a product whose id sits at position `i` cuts out that one entry and keeps
      the others in order; in a list without repeated ids that is the same as removing the id. */
  lemma {:induction false} TogglePresent(items: seq<Product>, p: Product, i: nat)
    requires Seqs.Distinct(items, ProductId) && i < |items| && items[i].id == p.id
    ensures Toggled(items, p) == items[..i] + items[i + 1..]
    ensures Toggled(items, p) == WithoutFavorite(items, p.id)
  {
    Seqs.IndexOfAt(items, ProductId, i);
    assert Seqs.IndexOf(items, ProductId, p.id) == Some(i);
    Seqs.WithoutAt(items, ProductId, i);
  }

  /** Toggling the same product twice, starting with its id absent, restores the list. */
  lemma {:induction false} ToggleTwice(items: seq<Product>, p: Product)
    requires !IsFavorite(items, p.id)
    ensures Toggled(Toggled(items, p), p) == items
  {
    ToggleAbsent(items, p);
    var t := items + [p];
    assert Seqs.IndexOf(t, ProductId, p.id) == Some(|items|) by {
      forall j | 0 <= j < |items| ensures ProductId(t[j]) != p.id {
        assert t[j] == items[j];
      }
      assert ProductId(t[|items|]) == p.id;
    }
    assert t[..|items|] == items;
  }

  /** Each toggle negates the membership of the toggled id and leaves every other id's
      membership as it was. */
  lemma {:induction false} ToggleFlipsMembership(items: seq<Product>, p: Product)
    requires Seqs.Distinct(items, ProductId)
    ensures IsFavorite(Toggled(items, p), p.id) == !IsFavorite(items, p.id)
    ensures forall id :: id != p.id ==> (IsFavorite(Toggled(items, p), id) <==> IsFavorite(items, id))
  {
    var r := Toggled(items, p);
    match Seqs.IndexOf(items, ProductId, p.id)
    case Some(i) =>
      TogglePresent(items, p, i);
      Seqs.WithoutMembers(items, ProductId, p.id);
      forall id | id != p.id ensures IsFavorite(r, id) <==> IsFavorite(items, id) {
        if IsFavorite(items, id) {
          var k :| 0 <= k < |items| && items[k].id == id;
        }
        if IsFavorite(r, id) {
          var k :| 0 <= k < |r| && r[k].id == id;
          assert r[k] in items;
        }
      }
    case None =>
      ToggleAbsent(items, p);
      assert r[|items|] == p;
      forall id | id != p.id ensures IsFavorite(r, id) <==> IsFavorite(items, id) {
        if IsFavorite(items, id) {
          var k :| 0 <= k < |items| && items[k].id == id;
          assert r[k] == items[k];
        }
        if IsFavorite(r, id) {
          var k :| 0 <= k < |r| && r[k].id == id;
          assert k < |items| && r[k] == items[k];
        }
      }
  }

  /** `addFavorite` appends when the id is absent and changes nothing when it is present;
      applying it twice is applying it once, and in a list without repeated ids the result
      holds exactly one entry with the id. */
  lemma {:induction false} AddFavoriteEffect(items: seq<Product>, p: Product)
    ensures !IsFavorite(items, p.id) ==> WithFavorite(items, p) == items + [p]
    ensures IsFavorite(items, p.id) ==> WithFavorite(items, p) == items
    ensures WithFavorite(WithFavorite(items, p), p) == WithFavorite(items, p)
    ensures Seqs.Distinct(items, ProductId) ==>
      IsFavorite(WithFavorite(items, p), p.id) &&
      forall a, b :: 0 <= a < b < |WithFavorite(items, p)| ==>
        WithFavorite(items, p)[a].id != p.id || WithFavorite(items, p)[b].id != p.id
  {
    var r := WithFavorite(items, p);
    assert IsFavorite(r, p.id) by {
      if !IsFavorite(items, p.id) {
        assert r[|items|] == p;
      }
    }
    if Seqs.Distinct(items, ProductId) {
      WithFavoriteDistinct(items, p);
    }
  }

  /** `removeFavorite` leaves no entry with the id, keeps the others in order (the entry at
      `i` is cut out) and is a no-op on an absent id. */
  lemma {:induction false} RemoveFavoriteEffect(items: seq<Product>, id: int)
    requires Seqs.Distinct(items, ProductId)
    ensures !IsFavorite(WithoutFavorite(items, id), id)
    ensures forall i :: 0 <= i < |items| && items[i].id == id ==>
      WithoutFavorite(items, id) == items[..i] + items[i + 1..]
    ensures !IsFavorite(items, id) ==> WithoutFavorite(items, id) == items
  {
    forall i | 0 <= i < |items| && items[i].id == id
      ensures WithoutFavorite(items, id) == items[..i] + items[i + 1..]
    {
      Seqs.WithoutAt(items, ProductId, i);
    }
    if !IsFavorite(items, id) {
      Seqs.WithoutAbsent(items, ProductId, id);
    }
  }

  // ----- The invariant: no id occurs twice -----

  lemma {:induction false} ToggledDistinct(items: seq<Product>, p: Product)
    requires Seqs.Distinct(items, ProductId)
    ensures Seqs.Distinct(Toggled(items, p), ProductId)
  {
    match Seqs.IndexOf(items, ProductId, p.id)
    case Some(i) => Seqs.SpliceDistinct(items, ProductId, i);
    case None => Seqs.AppendDistinct(items, ProductId, p);
  }

  lemma {:induction false} WithFavoriteDistinct(items: seq<Product>, p: Product)
    requires Seqs.Distinct(items, ProductId)
    ensures Seqs.Distinct(WithFavorite(items, p), ProductId)
  {
    if Seqs.IndexOf(items, ProductId, p.id).None? {
      Seqs.AppendDistinct(items, ProductId, p);
    }
  }

  lemma {:induction false} WithoutFavoriteDistinct(items: seq<Product>, id: int)
    requires Seqs.Distinct(items, ProductId)
    ensures Seqs.Distinct(WithoutFavorite(items, id), ProductId)
  {
    Seqs.WithoutDistinct(items, ProductId, id);
  }

  // ----- The slice's state, changed in place by the reducers -----

  class FavoritesState {
    var items: seq<Product>

    ghost predicate Valid()
      reads this
    {
      Seqs.Distinct(items, ProductId)
    }

    /** The initial state: no favorites. */
    constructor ()
      ensures Valid() && items == []
    {
      items := [];
    }

    method ToggleFavorite(p: Product)
      requires Valid()
      modifies this
      ensures Valid() && items == Toggled(old(items), p)
      ensures IsFavorite(items, p.id) == !IsFavorite(old(items), p.id)
    {
      ToggledDistinct(items, p);
      ToggleFlipsMembership(items, p);
      var index := Seqs.FindIndex(items, ProductId, p.id);
      if index != -1 {
        items := items[..index] + items[index + 1..];
      } else {
        items := items + [p];
      }
    }

    method AddFavorite(p: Product)
      requires Valid()
      modifies this
      ensures Valid() && items == WithFavorite(old(items), p)
      ensures IsFavorite(items, p.id)
    {
      WithFavoriteDistinct(items, p);
      AddFavoriteEffect(items, p);
      var index := Seqs.FindIndex(items, ProductId, p.id);
      if index == -1 {
        items := items + [p];
      }
    }

    method RemoveFavorite(id: int)
      requires Valid()
      modifies this
      ensures Valid() && items == WithoutFavorite(old(items), id)
      ensures !IsFavorite(items, id)
    {
      WithoutFavoriteDistinct(items, id);
      items := WithoutFavorite(items, id);
    }

    method ClearFavorites()
      modifies this
      ensures Valid() && items == []
      ensures forall id :: !IsFavorite(items, id)
    {
      items := [];
    }
  }
}
