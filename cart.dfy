/** The cart slice: an insertion-ordered list of line items, each a product snapshot
    with a quantity, changed by five commands and read through two running sums. */
module Cart {
  import opened Wrappers
  import opened Catalog
  import Seqs

  /** A line item: the product's fields as they were when it was first added, plus a quantity. */
  datatype CartItem = CartItem(product: Product, quantity: int)

  function ItemId(c: CartItem): int { c.product.id }

  /** The cart's invariant: at most one line item per product id, and no quantity below 1. */
  predicate WellFormed(items: seq<CartItem>) {
    Seqs.Distinct(items, ItemId) && forall i :: 0 <= i < |items| ==> items[i].quantity >= 1
  }

  // ----- Selectors: left folds over the items, as `reduce` computes them -----

  /** `selectCartItemCount`: the sum of all quantities. */
  function ItemCount(items: seq<CartItem>): (n: int)
  {
    if |items| == 0 then 0
    else ItemCount(items[..|items| - 1]) + items[|items| - 1].quantity
  }

  /** What one line contributes to the subtotal: its stored price times its quantity. */
  function LineTotal(c: CartItem): int {
    c.product.price * c.quantity
  }

  /** `selectCartSubtotal`: the sum of price times quantity over the line items, using each
      item's stored price. */
  function Subtotal(items: seq<CartItem>): (total: int)
  {
    if |items| == 0 then 0
    else Subtotal(items[..|items| - 1]) + LineTotal(items[|items| - 1])
  }

  // ----- The reducers as transitions on the item list -----

  /** `addToCart`: bump the quantity of the first item with the product's id, or append
      the product with quantity 1. */
  function Added(items: seq<CartItem>, p: Product): seq<CartItem> {
    match Seqs.IndexOf(items, ItemId, p.id)
    case Some(i) => items[i := items[i].(quantity := items[i].quantity + 1)]
    case None => items + [CartItem(p, 1)]
  }

  /** `increaseQuantity`: bump the quantity of the item with this id, if any. */
  function Increased(items: seq<CartItem>, id: int): seq<CartItem> {
    match Seqs.IndexOf(items, ItemId, id)
    case Some(i) => items[i := items[i].(quantity := items[i].quantity + 1)]
    case None => items
  }

  /** `decreaseQuantity`: lower the quantity of the item with this id, or splice the item
      out when its quantity is not above 1; nothing when the id is absent. */
  function Decreased(items: seq<CartItem>, id: int): seq<CartItem> {
    match Seqs.IndexOf(items, ItemId, id)
    case Some(i) =>
      if items[i].quantity > 1 then items[i := items[i].(quantity := items[i].quantity - 1)]
      else items[..i] + items[i + 1..]
    case None => items
  }

  /** `removeFromCart`: keep the items whose id differs. */
  function Removed(items: seq<CartItem>, id: int): seq<CartItem> {
    Seqs.Without(items, ItemId, id)
  }

  /** In a well-formed cart every line counts at least once, so the count is at least the
      number of lines. */
  lemma {:induction false} ItemCountAtLeastLines(items: seq<CartItem>)
    requires WellFormed(items)
    ensures ItemCount(items) >= |items|
  {
    if |items| > 0 {
      var init := items[..|items| - 1];
      assert WellFormed(init) by {
        assert forall k :: 0 <= k < |init| ==> init[k] == items[k];
      }
      ItemCountAtLeastLines(init);
    }
  }

  /** With no negative prices, the subtotal of a well-formed cart is not negative. */
  lemma {:induction false} SubtotalNonNegative(items: seq<CartItem>)
    requires WellFormed(items) && forall k :: 0 <= k < |items| ==> items[k].product.price >= 0
    ensures Subtotal(items) >= 0
  {
    if |items| > 0 {
      var init := items[..|items| - 1];
      assert WellFormed(init) && forall k :: 0 <= k < |init| ==> init[k].product.price >= 0 by {
        assert forall k :: 0 <= k < |init| ==> init[k] == items[k];
      }
      SubtotalNonNegative(init);
      var last := items[|items| - 1];
      assert LineTotal(last) >= 0 by {
        assert last.product.price >= 0 && last.quantity >= 1;
      }
    }
  }

  // ----- How the sums react to one changed or removed line -----

  lemma {:induction false} SumsOfConcat(a: seq<CartItem>, b: seq<CartItem>)
    ensures ItemCount(a + b) == ItemCount(a) + ItemCount(b)
    ensures Subtotal(a + b) == Subtotal(a) + Subtotal(b)
  {
    if |b| > 0 {
      var b' := b[..|b| - 1];
      assert (a + b)[..|a + b| - 1] == a + b';
      SumsOfConcat(a, b');
    } else {
      assert a + b == a;
    }
  }

  lemma {:induction false} SumsOfSingle(x: CartItem)
    ensures ItemCount([x]) == x.quantity && Subtotal([x]) == LineTotal(x)
  {
    assert [x][..0] == [];
  }

  /** One more, or one fewer, of a line adds, or takes away, its stored price. */
  lemma {:induction false} LineTotalStep(c: CartItem)
    ensures LineTotal(c.(quantity := c.quantity + 1)) == LineTotal(c) + c.product.price
    ensures LineTotal(c.(quantity := c.quantity - 1)) == LineTotal(c) - c.product.price
  {
  }

  /** Each sum splits at line `i` into the part before it, the line itself and the part after it. */
  lemma {:induction false} SumsAround(s: seq<CartItem>, i: nat)
    requires i < |s|
    ensures ItemCount(s) == ItemCount(s[..i]) + s[i].quantity + ItemCount(s[i + 1..])
    ensures Subtotal(s) == Subtotal(s[..i]) + LineTotal(s[i]) + Subtotal(s[i + 1..])
  {
    assert s == (s[..i] + [s[i]]) + s[i + 1..];
    SumsOfConcat(s[..i] + [s[i]], s[i + 1..]);
    SumsOfConcat(s[..i], [s[i]]);
    SumsOfSingle(s[i]);
  }

  /** Replacing line `i` by `y` changes each sum by the difference of the two lines. */
  lemma {:induction false} SumsOfUpdate(s: seq<CartItem>, i: nat, y: CartItem)
    requires i < |s|
    ensures ItemCount(s[i := y]) == ItemCount(s) - s[i].quantity + y.quantity
    ensures Subtotal(s[i := y]) == Subtotal(s) - LineTotal(s[i]) + LineTotal(y)
  {
    var t := s[i := y];
    assert t[..i] == s[..i] && t[i + 1..] == s[i + 1..];
    SumsAround(s, i);
    SumsAround(t, i);
  }

  /** Cutting out line `i` lowers each sum by that line's share. */
  lemma {:induction false} SumsOfSplice(s: seq<CartItem>, i: nat)
    requires i < |s|
    ensures ItemCount(s[..i] + s[i + 1..]) == ItemCount(s) - s[i].quantity
    ensures Subtotal(s[..i] + s[i + 1..]) == Subtotal(s) - LineTotal(s[i])
  {
    SumsAround(s, i);
    SumsOfConcat(s[..i], s[i + 1..]);
  }

  // ----- Properties of the reducers -----

  /** Adding a product whose id is not in the cart appends one line with quantity 1 and the
      product's own fields, leaves every earlier line as it was, and raises the count by 1
      and the subtotal by the product's price. */
  lemma {:induction false} AddNew(items: seq<CartItem>, p: Product)
    requires !Seqs.Contains(items, ItemId, p.id)
    ensures var r := Added(items, p);
      |r| == |items| + 1 && r[..|items|] == items && r[|items|] == CartItem(p, 1) &&
      ItemCount(r) == ItemCount(items) + 1 && Subtotal(r) == Subtotal(items) + p.price
  {
    var r := Added(items, p);
    assert r == items + [CartItem(p, 1)];
    assert r[..|items|] == items;
  }

  /** Adding a product whose id is at position `i` raises only that line's quantity, by 1;
      the line keeps its stored snapshot (the argument's price and other fields are
      ignored), its position and the cart's length; the count rises by 1 and the subtotal
      by the stored price. */
  lemma {:induction false} AddExisting(items: seq<CartItem>, p: Product, i: nat)
    requires Seqs.Distinct(items, ItemId) && i < |items| && ItemId(items[i]) == p.id
    ensures Added(items, p) == items[i := items[i].(quantity := items[i].quantity + 1)]
    ensures ItemCount(Added(items, p)) == ItemCount(items) + 1
    ensures Subtotal(Added(items, p)) == Subtotal(items) + items[i].product.price
  {
    var y := items[i].(quantity := items[i].quantity + 1);
    assert Added(items, p) == items[i := y] by {
      Seqs.IndexOfAt(items, ItemId, i);
      assert Seqs.IndexOf(items, ItemId, p.id) == Some(i);
    }
    assert ItemCount(items[i := y]) == ItemCount(items) + 1 &&
           Subtotal(items[i := y]) == Subtotal(items) + items[i].product.price by {
      SumsOfUpdate(items, i, y);
      LineTotalStep(items[i]);
    }
  }

  /** `increaseQuantity` on the id at position `i` raises only that line's quantity, by 1,
      together with the count by 1 and the subtotal by the stored price. */
  lemma {:induction false} IncreasePresent(items: seq<CartItem>, id: int, i: nat)
    requires Seqs.Distinct(items, ItemId) && i < |items| && ItemId(items[i]) == id
    ensures Increased(items, id) == items[i := items[i].(quantity := items[i].quantity + 1)]
    ensures ItemCount(Increased(items, id)) == ItemCount(items) + 1
    ensures Subtotal(Increased(items, id)) == Subtotal(items) + items[i].product.price
  {
    var y := items[i].(quantity := items[i].quantity + 1);
    assert Increased(items, id) == items[i := y] by {
      Seqs.IndexOfAt(items, ItemId, i);
      assert Seqs.IndexOf(items, ItemId, id) == Some(i);
    }
    assert ItemCount(items[i := y]) == ItemCount(items) + 1 &&
           Subtotal(items[i := y]) == Subtotal(items) + items[i].product.price by {
      SumsOfUpdate(items, i, y);
      LineTotalStep(items[i]);
    }
  }

  /** `increaseQuantity` on an absent id is a no-op. */
  lemma {:induction false} IncreaseAbsent(items: seq<CartItem>, id: int)
    requires !Seqs.Contains(items, ItemId, id)
    ensures Increased(items, id) == items
  {
  }

  /** `decreaseQuantity` on the line at position `i`: above 1 the quantity drops by 1; at 1
      the line is cut out and the others keep their order. Either way the count drops by 1
      and the subtotal by the stored price. */
  lemma {:induction false} DecreasePresent(items: seq<CartItem>, id: int, i: nat)
    requires Seqs.Distinct(items, ItemId) && i < |items| && ItemId(items[i]) == id && items[i].quantity >= 1
    ensures items[i].quantity > 1 ==>
      Decreased(items, id) == items[i := items[i].(quantity := items[i].quantity - 1)]
    ensures items[i].quantity == 1 ==> Decreased(items, id) == items[..i] + items[i + 1..]
    ensures ItemCount(Decreased(items, id)) == ItemCount(items) - 1
    ensures Subtotal(Decreased(items, id)) == Subtotal(items) - items[i].product.price
  {
    if items[i].quantity > 1 {
      var y := items[i].(quantity := items[i].quantity - 1);
      assert Decreased(items, id) == items[i := y] by {
        Seqs.IndexOfAt(items, ItemId, i);
      }
      assert ItemCount(items[i := y]) == ItemCount(items) - 1 &&
             Subtotal(items[i := y]) == Subtotal(items) - items[i].product.price by {
        SumsOfUpdate(items, i, y);
        LineTotalStep(items[i]);
      }
    } else {
      var t := items[..i] + items[i + 1..];
      assert Decreased(items, id) == t by {
        Seqs.IndexOfAt(items, ItemId, i);
      }
      assert ItemCount(t) == ItemCount(items) - 1 &&
             Subtotal(t) == Subtotal(items) - items[i].product.price by {
        SumsOfSplice(items, i);
      }
    }
  }

  /** `decreaseQuantity` on an absent id is a no-op. */
  lemma {:induction false} DecreaseAbsent(items: seq<CartItem>, id: int)
    requires !Seqs.Contains(items, ItemId, id)
    ensures Decreased(items, id) == items
  {
  }

  /** `removeFromCart` leaves no line with the id and keeps the other lines in order (the
      line at `i` is cut out); it is a no-op on an absent id, and applying it twice is
      applying it once. */
  lemma {:induction false} RemoveEffect(items: seq<CartItem>, id: int)
    requires Seqs.Distinct(items, ItemId)
    ensures !Seqs.Contains(Removed(items, id), ItemId, id)
    ensures forall i :: 0 <= i < |items| && ItemId(items[i]) == id ==>
      Removed(items, id) == items[..i] + items[i + 1..]
    ensures !Seqs.Contains(items, ItemId, id) ==> Removed(items, id) == items
    ensures Removed(Removed(items, id), id) == Removed(items, id)
  {
    forall i | 0 <= i < |items| && ItemId(items[i]) == id
      ensures Removed(items, id) == items[..i] + items[i + 1..]
    {
      Seqs.WithoutAt(items, ItemId, i);
    }
    if !Seqs.Contains(items, ItemId, id) {
      Seqs.WithoutAbsent(items, ItemId, id);
    }
    Seqs.WithoutTwice(items, ItemId, id);
  }

  /** `addToCart` keeps the invariant: ids stay pairwise distinct and quantities stay at least 1. */
  lemma {:induction false} AddedWellFormed(items: seq<CartItem>, p: Product)
    requires WellFormed(items)
    ensures WellFormed(Added(items, p))
  {
    match Seqs.IndexOf(items, ItemId, p.id)
    case Some(i) =>
      Seqs.UpdateDistinct(items, ItemId, i, items[i].(quantity := items[i].quantity + 1));
    case None =>
      Seqs.AppendDistinct(items, ItemId, CartItem(p, 1));
  }

  /** `increaseQuantity` keeps the invariant. */
  lemma {:induction false} IncreasedWellFormed(items: seq<CartItem>, id: int)
    requires WellFormed(items)
    ensures WellFormed(Increased(items, id))
  {
    match Seqs.IndexOf(items, ItemId, id)
    case Some(i) =>
      Seqs.UpdateDistinct(items, ItemId, i, items[i].(quantity := items[i].quantity + 1));
    case None =>
  }

  /** `decreaseQuantity` keeps the invariant: a quantity that would fall below 1 takes its
      line away instead. */
  lemma {:induction false} DecreasedWellFormed(items: seq<CartItem>, id: int)
    requires WellFormed(items)
    ensures WellFormed(Decreased(items, id))
  {
    match Seqs.IndexOf(items, ItemId, id)
    case Some(i) =>
      if items[i].quantity > 1 {
        var y := items[i].(quantity := items[i].quantity - 1);
        assert Decreased(items, id) == items[i := y];
        assert WellFormed(items[i := y]) by {
          Seqs.UpdateDistinct(items, ItemId, i, y);
        }
      } else {
        var t := items[..i] + items[i + 1..];
        assert Decreased(items, id) == t;
        assert WellFormed(t) by {
          Seqs.SpliceDistinct(items, ItemId, i);
          forall k | 0 <= k < |t| ensures t[k].quantity >= 1 {
            assert t[k] == items[if k < i then k else k + 1];
          }
        }
      }
    case None =>
  }

  /** `removeFromCart` keeps the invariant. */
  lemma {:induction false} RemovedWellFormed(items: seq<CartItem>, id: int)
    requires WellFormed(items)
    ensures WellFormed(Removed(items, id))
  {
    Seqs.WithoutDistinct(items, ItemId, id);
    Seqs.WithoutMembers(items, ItemId, id);
    var r := Removed(items, id);
    forall k | 0 <= k < |r| ensures r[k].quantity >= 1 {
      var j :| 0 <= j < |items| && items[j] == r[k];
    }
  }

  /** Adding the same id twice to an empty cart leaves one line with quantity 2 that keeps
      the first call's snapshot, so the subtotal is twice the first price. */
  lemma {:induction false} AddSameTwice(p: Product, q: Product)
    requires p.id == q.id
    ensures Added(Added([], p), q) == [CartItem(p, 2)]
    ensures ItemCount(Added(Added([], p), q)) == 2 && Subtotal(Added(Added([], p), q)) == 2 * p.price
  {
    assert Added([], p) == [CartItem(p, 1)];
    assert Seqs.IndexOf([CartItem(p, 1)], ItemId, q.id) == Some(0);
    SumsOfSingle(CartItem(p, 2));
  }

  /** A cart of two lines at 10.00 x 2 and 5.50 x 1 (prices in cents) holds 3 items
      worth 25.50. */
  lemma {:induction false} TwoLineTotals(a: Product, b: Product)
    requires a.price == 1000 && b.price == 550
    ensures ItemCount([CartItem(a, 2), CartItem(b, 1)]) == 3
    ensures Subtotal([CartItem(a, 2), CartItem(b, 1)]) == 2550
  {
    var items := [CartItem(a, 2), CartItem(b, 1)];
    assert items[..1] == [CartItem(a, 2)];
    SumsOfSingle(CartItem(a, 2));
  }

  // ----- The slice's state, changed in place by the reducers -----

  class CartState {
    var items: seq<CartItem>

    ghost predicate Valid()
      reads this
    {
      WellFormed(items)
    }

    /** The initial state: no items. */
    constructor ()
      ensures Valid() && items == []
    {
      items := [];
    }

    method AddToCart(p: Product)
      requires Valid()
      modifies this
      ensures Valid() && items == Added(old(items), p)
    {
      AddedWellFormed(items, p);
      var i := Seqs.FindIndex(items, ItemId, p.id);
      if i != -1 {
        items := items[i := items[i].(quantity := items[i].quantity + 1)];
      } else {
        items := items + [CartItem(p, 1)];
      }
    }

    method IncreaseQuantity(id: int)
      requires Valid()
      modifies this
      ensures Valid() && items == Increased(old(items), id)
    {
      IncreasedWellFormed(items, id);
      var i := Seqs.FindIndex(items, ItemId, id);
      if i != -1 {
        items := items[i := items[i].(quantity := items[i].quantity + 1)];
      }
    }

    method DecreaseQuantity(id: int)
      requires Valid()
      modifies this
      ensures Valid() && items == Decreased(old(items), id)
    {
      DecreasedWellFormed(items, id);
      var i := Seqs.FindIndex(items, ItemId, id);
      if i != -1 {
        if items[i].quantity > 1 {
          items := items[i := items[i].(quantity := items[i].quantity - 1)];
        } else {
          items := items[..i] + items[i + 1..];
        }
      }
    }

    method RemoveFromCart(id: int)
      requires Valid()
      modifies this
      ensures Valid() && items == Removed(old(items), id)
      ensures !Seqs.Contains(items, ItemId, id)
    {
      RemovedWellFormed(items, id);
      items := Removed(items, id);
    }

    method ClearCart()
      modifies this
      ensures Valid() && items == []
      ensures ItemCount(items) == 0 && Subtotal(items) == 0
    {
      items := [];
    }
  }
}
