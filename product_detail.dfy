/**
 * The product detail page (frontend/src/pages/ProductDetailPage.tsx): the
 * quantity selector and the "Add to Cart" handler, which calls the cart's
 * `addToCart` once per unit of the selected quantity.
 */
module ProductDetail {
  import opened Wrappers
  import opened Cart

  /** The product fields the page uses. Prices are integer cents; 0 is a falsy price. */
  datatype Product = Product(
    id: string, name: string, price: int, discountPrice: int, stock: int,
    images: seq<string>, sellerId: string, sellerName: string)

  /** `product.discountPrice || product.price` */
  function UnitPrice(p: Product): (r: int)
    ensures p.discountPrice != 0 ==> r == p.discountPrice
    ensures p.discountPrice == 0 ==> r == p.price
  {
    if p.discountPrice != 0 then p.discountPrice else p.price
  }

  /** The item the handler passes to `addToCart`; a product without images gives "". */
  function CartDetails(p: Product): (d: ItemDetails)
    ensures d.id == p.id && d.price == UnitPrice(p) && d.sellerId == p.sellerId
  {
    ItemDetails(p.id, p.name, UnitPrice(p), if |p.images| > 0 then p.images[0] else "", p.sellerId, p.sellerName)
  }

  /** The values the quantity `<select>` offers: `[...Array(10)].map((_, i) => i + 1)`. */
  function QuantityOptions(): (r: seq<int>)
    ensures |r| == 10
    ensures forall i :: 0 <= i < |r| ==> r[i] == i + 1
  {
    seq(10, i => i + 1)
  }

  /** The add button is disabled exactly when the stock is 0. */
  function AddDisabled(p: Product): (r: bool)
    ensures r <==> p.stock == 0
  {
    p.stock == 0
  }

  /** The cart after `addToCart(d)` has run `n` times. */
  function AddedTimes(items: seq<CartItem>, d: ItemDetails, n: int): seq<CartItem>
    decreases n
  {
    if n <= 0 then items else AddedTimes(Added(items, d), d, n - 1)
  }

  /** Adding `n` times keeps the cart well-formed. */
  lemma {:induction false} AddedTimesWellFormed(items: seq<CartItem>, d: ItemDetails, n: nat)
    requires WellFormed(items)
    ensures WellFormed(AddedTimes(items, d, n))
    decreases n
  {
    if n > 0 {
      AddWellFormed(items, d);
      AddedTimesWellFormed(Added(items, d), d, n - 1);
    }
  }

  /**
   * The same cart written in one step: the product's line gains `n` units, or,
   * when it has none and `n > 0`, a line with quantity `n` is appended.
   */
  function AddedAtOnce(items: seq<CartItem>, d: ItemDetails, n: int): seq<CartItem> {
    if n <= 0 then items
    else
      var k := FindIndex(items, d.id);
      if k >= 0 then items[k := items[k].(quantity := items[k].quantity + n)]
      else items + [NewLine(d).(quantity := n)]
  }

  /** Changing lines at or after the first match of an id does not move that first match. */
  lemma FirstMatchStable(items: seq<CartItem>, other: seq<CartItem>, id: string)
    requires InCart(items, id)
    requires |other| == |items|
    requires var k := FindIndex(items, id);
      other[k].id == id && forall j :: 0 <= j < k ==> other[j] == items[j]
    ensures FindIndex(other, id) == FindIndex(items, id)
  {
    var k := FindIndex(items, id);
    assert InCart(other, id) by {
      assert other[k].id == id;
    }
    FoundLine(other, id);
  }

  /** One add followed by `n - 1` more at once is the same as `n` at once. */
  lemma AddedAtOnceStep(items: seq<CartItem>, d: ItemDetails, n: int)
    requires n > 0
    ensures AddedAtOnce(Added(items, d), d, n - 1) == AddedAtOnce(items, d, n)
  {
    var once := Added(items, d);
    var k := FindIndex(items, d.id);
    if k >= 0 {
      FoundLine(items, d.id);
      assert once == items[k := items[k].(quantity := items[k].quantity + 1)];
      if n > 1 {
        FirstMatchStable(items, once, d.id);
        assert once[k := once[k].(quantity := once[k].quantity + n - 1)]
          == items[k := items[k].(quantity := items[k].quantity + n)];
      }
    } else {
      assert once == items + [NewLine(d)];
      if n > 1 {
        assert once[|items|].id == d.id;
        FoundLine(once, d.id);
        assert FindIndex(once, d.id) == |items|;
        assert once[|items| := once[|items|].(quantity := once[|items|].quantity + n - 1)]
          == items + [NewLine(d).(quantity := n)];
      } else {
        assert NewLine(d).(quantity := n) == NewLine(d);
      }
    }
  }

  /** `n` separate adds give the cart that adding `n` units at once gives. */
  lemma {:induction false} AddedTimesAtOnce(items: seq<CartItem>, d: ItemDetails, n: nat)
    ensures AddedTimes(items, d, n) == AddedAtOnce(items, d, n)
    decreases n
  {
    if n > 0 {
      AddedAtOnceStep(items, d, n);
      AddedTimesAtOnce(Added(items, d), d, n - 1);
    }
  }

  /** Adding `n` units at once grows the item count by `n`. */
  lemma AddedAtOnceCount(items: seq<CartItem>, d: ItemDetails, n: nat)
    ensures ItemsCount(AddedAtOnce(items, d, n)) == ItemsCount(items) + n
  {
    var k := FindIndex(items, d.id);
    if n > 0 {
      if k >= 0 {
        ReplaceLineCount(items, k, items[k].(quantity := items[k].quantity + n));
      } else {
        ItemsCountConcat(items, [NewLine(d).(quantity := n)]);
        ItemsCountSingle(NewLine(d).(quantity := n));
      }
    }
  }

  /** Adding `n` times grows the item count by `n`. */
  lemma AddedTimesCount(items: seq<CartItem>, d: ItemDetails, n: nat)
    ensures ItemsCount(AddedTimes(items, d, n)) == ItemsCount(items) + n
  {
    AddedTimesAtOnce(items, d, n);
    AddedAtOnceCount(items, d, n);
  }

  /**
   * Adding a product that has a line `n` times grows that line's quantity by
   * `n` and leaves every other line, and the order, as it was.
   */
  lemma AddedTimesExisting(items: seq<CartItem>, d: ItemDetails, n: nat)
    requires InCart(items, d.id)
    ensures var k := FindIndex(items, d.id);
      AddedTimes(items, d, n) == items[k := items[k].(quantity := items[k].quantity + n)]
  {
    var k := FindIndex(items, d.id);
    assert AddedAtOnce(items, d, n) == items[k := items[k].(quantity := items[k].quantity + n)];
    AddedTimesAtOnce(items, d, n);
  }

  /** Adding a product without a line `n > 0` times appends one line with quantity `n`. */
  lemma AddedTimesNew(items: seq<CartItem>, d: ItemDetails, n: nat)
    requires !InCart(items, d.id) && n > 0
    ensures AddedTimes(items, d, n) == items + [NewLine(d).(quantity := n)]
  {
    AddedTimesAtOnce(items, d, n);
  }

  /** The page's state: the loaded product (if any) and the selected quantity. */
  class ProductDetailPage {
    var product: Option<Product>
    var isLoading: bool
    var quantity: int

    /** The selected quantity is always one of the offered values. */
    predicate Valid()
      reads this
    {
      1 <= quantity <= 10
    }

    /** The page starts loading, with no product and quantity 1. */
    constructor ()
      ensures product == None && isLoading && quantity == 1 && Valid()
    {
      product, isLoading, quantity := None, true, 1;
    }

    /** The product fetch finished, with the product or without one. */
    method ProductLoaded(p: Option<Product>)
      modifies this
      ensures product == p && !isLoading && quantity == old(quantity)
    {
      product, isLoading := p, false;
    }

    /** `handleQuantityChange`: the selector only offers the values 1 to 10. */
    method HandleQuantityChange(choice: int)
      requires choice in QuantityOptions()
      modifies this
      ensures quantity == choice && product == old(product) && Valid()
    {
      quantity := choice;
    }

    /**
     * `handleAddToCart`: with a loaded product, call `addToCart` `quantity`
     * times; without one, do nothing.
     */
    method HandleAddToCart(cart: CartStore)
      modifies cart
      ensures product.None? ==> cart.cartItems == old(cart.cartItems)
      ensures product.Some? ==>
        cart.cartItems == AddedTimes(old(cart.cartItems), CartDetails(product.value), quantity)
    {
      if product.Some? {
        var d := CartDetails(product.value);
        var i := 0;
        while i < quantity
          invariant 0 <= i && (quantity >= 0 ==> i <= quantity)
          invariant AddedTimes(cart.cartItems, d, quantity - i) == AddedTimes(old(cart.cartItems), d, quantity)
        {
          ghost var before := cart.cartItems;
          cart.AddToCart(d);
          assert AddedTimes(before, d, quantity - i) == AddedTimes(cart.cartItems, d, quantity - i - 1);
          i := i + 1;
        }
      }
    }
  }
}
