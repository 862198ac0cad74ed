/**
 * The cart page (frontend/src/pages/CartPage.tsx): what it shows for a cart,
 * and which cart operation each of a line's buttons requests.
 */
module CartPage {
  import Seqs
  import opened Cart

  /** The requests a line's "-", "+" and "Remove" buttons make. */
  datatype LineControls = LineControls(id: string, decrementTo: int, incrementTo: int, removeId: string)

  /** The two views of the page. Shipping is always 0 cents. */
  datatype CartView =
    | EmptyCartView
    | CartSummary(lines: seq<LineControls>, subtotal: int, shipping: int, total: int)

  /** `Math.max(1, item.quantity - 1)`, `item.quantity + 1` and `item.id`. */
  function Controls(line: CartItem): LineControls {
    LineControls(line.id, if 1 >= line.quantity - 1 then 1 else line.quantity - 1, line.quantity + 1, line.id)
  }

  /** The page for a given list of cart lines. */
  function Render(items: seq<CartItem>): (v: CartView)
    ensures v.EmptyCartView? <==> |items| == 0
    ensures v.CartSummary? ==> |v.lines| == |items| && v.shipping == 0
    ensures v.CartSummary? ==> v.subtotal == CartTotal(items) && v.total == v.subtotal
    ensures v.CartSummary? ==> forall i :: 0 <= i < |items| ==>
      v.lines[i] == Controls(items[i]) && v.lines[i].id == items[i].id && v.lines[i].removeId == items[i].id
  {
    var totalPrice := CartTotal(items);
    if |items| == 0 then EmptyCartView
    else CartSummary(Seqs.Map(items, Controls), totalPrice, 0, totalPrice)
  }

  /**
   * The "-" button never removes a line and never takes its quantity below 1:
   * it sets that line's quantity to max(1, q - 1) and leaves the rest alone.
   */
  lemma DecrementKeepsLine(items: seq<CartItem>, k: int)
    requires WellFormed(items)
    requires 0 <= k < |items|
    ensures var r := UpdatedQuantity(items, items[k].id, Controls(items[k]).decrementTo);
      && WellFormed(r)
      && |r| == |items|
      && r[k].quantity >= 1
      && r[k].quantity == (if items[k].quantity > 1 then items[k].quantity - 1 else 1)
      && forall j :: 0 <= j < |items| && j != k ==> r[j] == items[j]
  {
    UpdateExisting(items, k, Controls(items[k]).decrementTo);
    UpdateWellFormed(items, items[k].id, Controls(items[k]).decrementTo);
  }

  /** The "+" button raises exactly that line's quantity by one, so the item count grows by one. */
  lemma IncrementAddsOne(items: seq<CartItem>, k: int)
    requires UniqueIds(items)
    requires 0 <= k < |items| && items[k].quantity >= 0
    ensures var r := UpdatedQuantity(items, items[k].id, Controls(items[k]).incrementTo);
      && r == items[k := items[k].(quantity := items[k].quantity + 1)]
      && ItemsCount(r) == ItemsCount(items) + 1
  {
    UpdateExisting(items, k, Controls(items[k]).incrementTo);
  }

  /** The "Remove" button deletes that line and keeps the others in order. */
  lemma RemoveButtonRemovesLine(items: seq<CartItem>, k: int)
    requires UniqueIds(items)
    requires 0 <= k < |items|
    ensures Removed(items, Controls(items[k]).removeId) == items[..k] + items[k + 1..]
  {
    RemoveExisting(items, k);
  }
}
