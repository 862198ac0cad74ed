/**
 * The storefront's shopping cart (frontend/src/contexts/CartContext.tsx).
 *
 * The cart is a list of lines keyed by product id. `CartStore` holds the list
 * the way the React provider holds its `cartItems` state; each operation
 * replaces the list by a new one computed from the old one. The pure
 * functions below compute those new lists, and the lemmas state what the
 * operations promise: one line per product, quantities of at least 1, the
 * exact effect of each operation on the lines, the item count and the total.
 * Prices are integer cents.
 */
module Cart {
  import Seqs

  /** What `addToCart` receives: a cart line without its quantity. */
  datatype ItemDetails = ItemDetails(
    id: string, name: string, price: int, image: string, sellerId: string, sellerName: string)

  /** One line of the cart. */
  datatype CartItem = CartItem(
    id: string, name: string, price: int, quantity: int, image: string, sellerId: string, sellerName: string)

  /** `{ ...item, quantity: 1 }` */
  function NewLine(d: ItemDetails): CartItem {
    CartItem(d.id, d.name, d.price, 1, d.image, d.sellerId, d.sellerName)
  }

  predicate InCart(items: seq<CartItem>, id: string) {
    exists i :: 0 <= i < |items| && items[i].id == id
  }

  predicate UniqueIds(items: seq<CartItem>) {
    forall i, j :: 0 <= i < j < |items| ==> items[i].id != items[j].id
  }

  predicate PositiveQuantities(items: seq<CartItem>) {
    forall i :: 0 <= i < |items| ==> items[i].quantity >= 1
  }

  /** The cart invariant: one line per product id, every quantity at least 1. */
  predicate WellFormed(items: seq<CartItem>) {
    UniqueIds(items) && PositiveQuantities(items)
  }

  /** `items.findIndex(line => line.id === id)`: the first line with that id, or -1. */
  function FindIndex(items: seq<CartItem>, id: string): (k: int)
    ensures -1 <= k < |items|
    ensures k >= 0 ==> forall j :: 0 <= j < k ==> items[j].id != id
    ensures k == -1 <==> !InCart(items, id)
  {
    if items == [] then -1
    else if items[0].id == id then 0
    else
      var k := FindIndex(items[1..], id);
      if k == -1 then -1 else k + 1
  }

  /** The line found carries the id looked for. */
  lemma {:induction false} FoundLine(items: seq<CartItem>, id: string)
    requires FindIndex(items, id) >= 0
    ensures items[FindIndex(items, id)].id == id
  {
    if items[0].id != id {
      FoundLine(items[1..], id);
    }
  }

  /** The list `addToCart` produces. */
  function Added(items: seq<CartItem>, d: ItemDetails): seq<CartItem> {
    var k := FindIndex(items, d.id);
    if k >= 0 then items[k := items[k].(quantity := items[k].quantity + 1)]
    else items + [NewLine(d)]
  }

  /**
   * After an add the product has a line; the number of lines grows only for a
   * new product; every line of another product stays where it was.
   */
  lemma AddedShape(items: seq<CartItem>, d: ItemDetails)
    ensures InCart(Added(items, d), d.id)
    ensures |Added(items, d)| == if InCart(items, d.id) then |items| else |items| + 1
    ensures forall j :: 0 <= j < |items| && items[j].id != d.id ==> Added(items, d)[j] == items[j]
  {
    var k := FindIndex(items, d.id);
    var r := Added(items, d);
    if k >= 0 {
      FoundLine(items, d.id);
      assert r[k].id == d.id;
    } else {
      assert r[|items|].id == d.id;
    }
  }

  /** The test `removeFromCart` filters with. */
  function OtherThan(id: string): CartItem -> bool {
    (line: CartItem) => line.id != id
  }

  /** The list `removeFromCart` produces. */
  function Removed(items: seq<CartItem>, id: string): (r: seq<CartItem>)
    ensures !InCart(r, id)
    ensures |r| <= |items|
    ensures forall j :: 0 <= j < |items| && items[j].id != id ==> items[j] in r
  {
    Seqs.Filter(items, OtherThan(id))
  }

  /** The per-line rewrite of `updateQuantity` for a positive quantity. */
  function QuantitySetter(id: string, quantity: int): CartItem -> CartItem {
    (line: CartItem) => if line.id == id then line.(quantity := quantity) else line
  }

  /** The list `updateQuantity` produces: a non-positive quantity removes the line. */
  function UpdatedQuantity(items: seq<CartItem>, id: string, quantity: int): (r: seq<CartItem>)
    ensures quantity <= 0 ==> r == Removed(items, id)
    ensures quantity > 0 ==> |r| == |items|
    ensures quantity > 0 ==> forall j :: 0 <= j < |items| ==>
      r[j] == if items[j].id == id then items[j].(quantity := quantity) else items[j]
  {
    if quantity <= 0 then Removed(items, id)
    else Seqs.Map(items, QuantitySetter(id, quantity))
  }

  /**
   * `getItemsCount`: the reduce `count + item.quantity` from the left, so the
   * last line is added last.
   */
  function ItemsCount(items: seq<CartItem>): int {
    if items == [] then 0
    else ItemsCount(items[..|items| - 1]) + items[|items| - 1].quantity
  }

  /** What one line adds to the total: `item.price * item.quantity`, in cents. */
  function LineAmount(line: CartItem): int {
    line.price * line.quantity
  }

  /** `getCartTotal`: the reduce `total + item.price * item.quantity` from the left, in cents. */
  function CartTotal(items: seq<CartItem>): int {
    if items == [] then 0
    else CartTotal(items[..|items| - 1]) + LineAmount(items[|items| - 1])
  }

  /** The item count of a concatenation is the sum of the parts' counts. */
  lemma {:induction false} ItemsCountConcat(a: seq<CartItem>, b: seq<CartItem>)
    ensures ItemsCount(a + b) == ItemsCount(a) + ItemsCount(b)
  {
    if b == [] {
      assert a + b == a;
    } else {
      var b' := b[..|b| - 1];
      assert (a + b)[..|a + b| - 1] == a + b';
      ItemsCountConcat(a, b');
    }
  }

  /** The total of a concatenation is the sum of the parts' totals. */
  lemma {:induction false} CartTotalConcat(a: seq<CartItem>, b: seq<CartItem>)
    ensures CartTotal(a + b) == CartTotal(a) + CartTotal(b)
  {
    if b == [] {
      assert a + b == a;
    } else {
      var b' := b[..|b| - 1];
      assert (a + b)[..|a + b| - 1] == a + b';
      CartTotalConcat(a, b');
    }
  }

  /** With every quantity at least 1, the item count is at least the number of lines. */
  lemma {:induction false} ItemsCountBound(items: seq<CartItem>)
    requires PositiveQuantities(items)
    ensures ItemsCount(items) >= |items|
  {
    if items != [] {
      var init := items[..|items| - 1];
      assert forall i :: 0 <= i < |init| ==> init[i] == items[i];
      ItemsCountBound(init);
    }
  }

  /** With no negative line amount, the total is not negative. */
  lemma {:induction false} CartTotalNonNegative(items: seq<CartItem>)
    requires forall i :: 0 <= i < |items| ==> LineAmount(items[i]) >= 0
    ensures CartTotal(items) >= 0
  {
    if items != [] {
      var init := items[..|items| - 1];
      assert forall i :: 0 <= i < |init| ==> init[i] == items[i];
      CartTotalNonNegative(init);
    }
  }

  lemma ItemsCountSingle(x: CartItem)
    ensures ItemsCount([x]) == x.quantity
  {
    assert [x][..0] == [];
  }

  lemma CartTotalSingle(x: CartItem)
    ensures CartTotal([x]) == LineAmount(x)
  {
    assert [x][..0] == [];
  }

  /** The count of a cart with one line between two parts. */
  lemma ItemsCountAround(a: seq<CartItem>, x: CartItem, b: seq<CartItem>)
    ensures ItemsCount(a + [x] + b) == ItemsCount(a) + x.quantity + ItemsCount(b)
  {
    ItemsCountConcat(a + [x], b);
    ItemsCountConcat(a, [x]);
    ItemsCountSingle(x);
  }

  /** The total of a cart with one line between two parts. */
  lemma CartTotalAround(a: seq<CartItem>, x: CartItem, b: seq<CartItem>)
    ensures CartTotal(a + [x] + b) == CartTotal(a) + LineAmount(x) + CartTotal(b)
  {
    CartTotalConcat(a + [x], b);
    CartTotalConcat(a, [x]);
    CartTotalSingle(x);
  }

  /** The count without line `k` is the count minus that line's quantity. */
  lemma SplitCount(items: seq<CartItem>, k: int)
    requires 0 <= k < |items|
    ensures ItemsCount(items[..k] + items[k + 1..]) == ItemsCount(items) - items[k].quantity
  {
    Seqs.SplitAround(items, k);
    ItemsCountAround(items[..k], items[k], items[k + 1..]);
    ItemsCountConcat(items[..k], items[k + 1..]);
  }

  /** The total without line `k` is the total minus that line's amount. */
  lemma SplitTotal(items: seq<CartItem>, k: int)
    requires 0 <= k < |items|
    ensures CartTotal(items[..k] + items[k + 1..]) == CartTotal(items) - LineAmount(items[k])
  {
    Seqs.SplitAround(items, k);
    CartTotalAround(items[..k], items[k], items[k + 1..]);
    CartTotalConcat(items[..k], items[k + 1..]);
  }

  /** Replacing one line by another changes the count by the difference of their quantities. */
  lemma ReplaceLineCount(items: seq<CartItem>, k: int, x: CartItem)
    requires 0 <= k < |items|
    ensures ItemsCount(items[k := x]) == ItemsCount(items) - items[k].quantity + x.quantity
  {
    Seqs.SplitAround(items, k);
    Seqs.ReplaceAround(items, k, x);
    ItemsCountAround(items[..k], items[k], items[k + 1..]);
    ItemsCountAround(items[..k], x, items[k + 1..]);
  }

  /** Replacing one line by another changes the total by the difference of their amounts. */
  lemma ReplaceLineTotal(items: seq<CartItem>, k: int, x: CartItem)
    requires 0 <= k < |items|
    ensures CartTotal(items[k := x]) == CartTotal(items) - LineAmount(items[k]) + LineAmount(x)
  {
    Seqs.SplitAround(items, k);
    Seqs.ReplaceAround(items, k, x);
    CartTotalAround(items[..k], items[k], items[k + 1..]);
    CartTotalAround(items[..k], x, items[k + 1..]);
  }

  /**
   * Adding a product that already has a line raises that line's quantity by
   * exactly 1; every other line and the order of the lines stay as they were.
   */
  lemma AddExisting(items: seq<CartItem>, d: ItemDetails, k: int)
    requires UniqueIds(items)
    requires 0 <= k < |items| && items[k].id == d.id
    ensures |Added(items, d)| == |items|
    ensures Added(items, d)[k] == items[k].(quantity := items[k].quantity + 1)
    ensures forall j :: 0 <= j < |items| && j != k ==> Added(items, d)[j] == items[j]
  {
    assert InCart(items, d.id);
    FoundLine(items, d.id);
    assert FindIndex(items, d.id) == k;
  }

  /** Adding a product without a line appends one line with quantity 1 at the end. */
  lemma AddNew(items: seq<CartItem>, d: ItemDetails)
    requires !InCart(items, d.id)
    ensures Added(items, d) == items + [NewLine(d)]
  {
  }

  /** Adding always raises the item count by exactly one. */
  lemma AddCount(items: seq<CartItem>, d: ItemDetails)
    ensures ItemsCount(Added(items, d)) == ItemsCount(items) + 1
  {
    var k := FindIndex(items, d.id);
    if k >= 0 {
      ReplaceLineCount(items, k, items[k].(quantity := items[k].quantity + 1));
    } else {
      ItemsCountConcat(items, [NewLine(d)]);
      ItemsCountSingle(NewLine(d));
    }
  }

  /**
   * Adding raises the total by one unit price: the price already stored on the
   * product's line when it has one (the price passed in is then ignored),
   * otherwise the price passed in.
   */
  lemma AddTotal(items: seq<CartItem>, d: ItemDetails)
    ensures var k := FindIndex(items, d.id);
      CartTotal(Added(items, d)) == CartTotal(items) + (if k >= 0 then items[k].price else d.price)
  {
    var k := FindIndex(items, d.id);
    if k >= 0 {
      ReplaceLineTotal(items, k, items[k].(quantity := items[k].quantity + 1));
      assert LineAmount(items[k].(quantity := items[k].quantity + 1)) == LineAmount(items[k]) + items[k].price;
    } else {
      CartTotalConcat(items, [NewLine(d)]);
      CartTotalSingle(NewLine(d));
    }
  }

  lemma AddWellFormed(items: seq<CartItem>, d: ItemDetails)
    requires WellFormed(items)
    ensures WellFormed(Added(items, d))
  {
  }

  /** Lines that pass a filter of a well-formed cart form a well-formed cart. */
  lemma {:induction false} FilterWellFormed(items: seq<CartItem>, keep: CartItem -> bool)
    requires WellFormed(items)
    ensures WellFormed(Seqs.Filter(items, keep))
  {
    if items != [] {
      FilterWellFormed(items[1..], keep);
      var rest := Seqs.Filter(items[1..], keep);
      forall i | 0 <= i < |rest| ensures rest[i].id != items[0].id {
        assert rest[i] in items[1..];
      }
    }
  }

  /**
   * Removing a product's line from a well-formed cart deletes exactly that line
   * and keeps the remaining lines in their original order.
   */
  lemma RemoveExisting(items: seq<CartItem>, k: int)
    requires UniqueIds(items)
    requires 0 <= k < |items|
    ensures Removed(items, items[k].id) == items[..k] + items[k + 1..]
  {
    var id := items[k].id;
    var pre, post := items[..k], items[k + 1..];
    forall i | 0 <= i < |pre| ensures OtherThan(id)(pre[i]) {
      assert pre[i] == items[i];
    }
    forall i | 0 <= i < |post| ensures OtherThan(id)(post[i]) {
      assert post[i] == items[k + 1 + i];
    }
    Seqs.SplitAround(items, k);
    Seqs.FilterOutOne(pre, items[k], post, OtherThan(id));
  }

  /** Removing an id that has no line changes nothing. */
  lemma RemoveAbsent(items: seq<CartItem>, id: string)
    requires !InCart(items, id)
    ensures Removed(items, id) == items
  {
    Seqs.FilterKeepsAll(items, OtherThan(id));
  }

  /** Removing a line lowers the item count by that line's quantity. */
  lemma RemoveCount(items: seq<CartItem>, k: int)
    requires UniqueIds(items)
    requires 0 <= k < |items|
    ensures ItemsCount(Removed(items, items[k].id)) == ItemsCount(items) - items[k].quantity
  {
    RemoveExisting(items, k);
    SplitCount(items, k);
  }

  /** Removing a line lowers the total by that line's amount. */
  lemma RemoveTotal(items: seq<CartItem>, k: int)
    requires UniqueIds(items)
    requires 0 <= k < |items|
    ensures CartTotal(Removed(items, items[k].id)) == CartTotal(items) - LineAmount(items[k])
  {
    RemoveExisting(items, k);
    SplitTotal(items, k);
  }

  /**
   * A positive quantity update on a well-formed cart sets that one line's
   * quantity; the length and all other lines stay as they were.
   */
  lemma UpdateExisting(items: seq<CartItem>, k: int, quantity: int)
    requires UniqueIds(items)
    requires 0 <= k < |items| && quantity > 0
    ensures UpdatedQuantity(items, items[k].id, quantity) == items[k := items[k].(quantity := quantity)]
    ensures ItemsCount(UpdatedQuantity(items, items[k].id, quantity)) == ItemsCount(items) - items[k].quantity + quantity
  {
    var r := UpdatedQuantity(items, items[k].id, quantity);
    assert r == items[k := items[k].(quantity := quantity)];
    ReplaceLineCount(items, k, items[k].(quantity := quantity));
  }

  lemma UpdateWellFormed(items: seq<CartItem>, id: string, quantity: int)
    requires WellFormed(items)
    ensures WellFormed(UpdatedQuantity(items, id, quantity))
  {
    if quantity <= 0 {
      FilterWellFormed(items, OtherThan(id));
    }
  }

  /** The cart operations, as the provider exposes them. */
  datatype CartOp = Add(item: ItemDetails) | Remove(id: string) | Update(id: string, quantity: int) | Clear

  function Apply(items: seq<CartItem>, op: CartOp): seq<CartItem> {
    match op
    case Add(d) => Added(items, d)
    case Remove(id) => Removed(items, id)
    case Update(id, q) => UpdatedQuantity(items, id, q)
    case Clear => []
  }

  function ApplyAll(items: seq<CartItem>, ops: seq<CartOp>): seq<CartItem>
    decreases |ops|
  {
    if ops == [] then items else ApplyAll(Apply(items, ops[0]), ops[1..])
  }

  /** Ids stay unique and quantities stay at least 1 across any sequence of operations. */
  lemma {:induction false} ApplyAllWellFormed(items: seq<CartItem>, ops: seq<CartOp>)
    requires WellFormed(items)
    ensures WellFormed(ApplyAll(items, ops))
    decreases |ops|
  {
    if ops != [] {
      var next := Apply(items, ops[0]);
      match ops[0] {
        case Add(d) => AddWellFormed(items, d);
        case Remove(id) => FilterWellFormed(items, OtherThan(id));
        case Update(id, q) => UpdateWellFormed(items, id, q);
        case Clear =>
      }
      ApplyAllWellFormed(next, ops[1..]);
    }
  }

  /** The cart provider's state: the list of lines. */
  class CartStore {
    var cartItems: seq<CartItem>

    predicate Valid()
      reads this
    {
      WellFormed(cartItems)
    }

    /** A fresh provider starts with an empty cart. */
    constructor ()
      ensures cartItems == [] && Valid()
    {
      cartItems := [];
    }

    /** `addToCart`: copy the list and overwrite the matching line, or append a new one. */
    method AddToCart(item: ItemDetails)
      modifies this
      ensures cartItems == Added(old(cartItems), item)
      ensures old(Valid()) ==> Valid()
    {
      var existingItemIndex := FindIndex(cartItems, item.id);
      if existingItemIndex >= 0 {
        var updatedItems := cartItems;
        var line := updatedItems[existingItemIndex];
        updatedItems := updatedItems[existingItemIndex := line.(quantity := line.quantity + 1)];
        cartItems := updatedItems;
      } else {
        cartItems := cartItems + [NewLine(item)];
      }
      if old(Valid()) {
        AddWellFormed(old(cartItems), item);
      }
    }

    /** `removeFromCart` */
    method RemoveFromCart(itemId: string)
      modifies this
      ensures cartItems == Removed(old(cartItems), itemId)
      ensures old(Valid()) ==> Valid()
    {
      cartItems := Seqs.Filter(cartItems, OtherThan(itemId));
      if old(Valid()) {
        FilterWellFormed(old(cartItems), OtherThan(itemId));
      }
    }

    /** `updateQuantity`: a quantity of 0 or less delegates to `removeFromCart`. */
    method UpdateQuantity(itemId: string, quantity: int)
      modifies this
      ensures cartItems == UpdatedQuantity(old(cartItems), itemId, quantity)
      ensures quantity <= 0 ==> cartItems == Removed(old(cartItems), itemId)
      ensures old(Valid()) ==> Valid()
    {
      if quantity <= 0 {
        RemoveFromCart(itemId);
        return;
      }
      cartItems := Seqs.Map(cartItems, QuantitySetter(itemId, quantity));
      if old(Valid()) {
        UpdateWellFormed(old(cartItems), itemId, quantity);
      }
    }

    /** `clearCart` */
    method ClearCart()
      modifies this
      ensures cartItems == [] && Valid()
    {
      cartItems := [];
    }
  }
}
