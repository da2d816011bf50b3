/**
 * The cart panel: the dispatch of the quantity buttons, the item count, and
 * the order summary (shipping, tax, the free-shipping notice and the final
 * total). Amounts are integer cents; the subtotal is the `totalPrice` the
 * panel receives, in cents.
 */
module CartView {
  import opened Wrappers
  import opened StoreTypes
  import Catalog

  /** The callback a quantity change ends in. */
  datatype CartCommand = RemoveLine(id: string) | SetQuantity(id: string, quantity: int)

  /** handleQuantityChange: below one removes the line, anything else is passed on unchanged. */
  function HandleQuantityChange(productId: string, newQuantity: int): (c: CartCommand)
    ensures c.RemoveLine? <==> newQuantity < 1
    ensures c.id == productId
    ensures c.SetQuantity? ==> c.quantity == newQuantity
  {
    if newQuantity < 1 then RemoveLine(productId) else SetQuantity(productId, newQuantity)
  }

  /** What the catalog does with a command. */
  function Apply(cart: seq<CartItem>, c: CartCommand): seq<CartItem> {
    match c
    case RemoveLine(id) => Catalog.Removed(cart, id)
    case SetQuantity(id, q) => Catalog.Updated(cart, id, q)
  }

  /** For whole quantities, the dispatch through remove or update gives the same cart as updateQuantity alone. */
  lemma DispatchAgreesWithUpdate(cart: seq<CartItem>, productId: string, newQuantity: int)
    ensures Apply(cart, HandleQuantityChange(productId, newQuantity)) == Catalog.Updated(cart, productId, newQuantity)
  {
  }

  /** The minus button on a line of quantity one cuts exactly that line out of the cart. */
  lemma DecrementFromOneRemoves(cart: seq<CartItem>, k: nat)
    requires k < |cart| && cart[k].quantity == 1 && UniqueIds(cart)
    ensures var c := HandleQuantityChange(cart[k].product.id, cart[k].quantity - 1);
      c == RemoveLine(cart[k].product.id) && Apply(cart, c) == cart[..k] + cart[k + 1..]
  {
    Catalog.RemovedCutsOneLine(cart, k);
  }

  /** The plus button adds exactly one to that line. */
  lemma IncrementAddsOne(cart: seq<CartItem>, k: nat)
    requires k < |cart| && cart[k].quantity >= 0 && UniqueIds(cart)
    ensures var c := HandleQuantityChange(cart[k].product.id, cart[k].quantity + 1);
      var r := Apply(cart, c);
      |r| == |cart| && r[k] == cart[k].(quantity := cart[k].quantity + 1)
      && forall j :: 0 <= j < |cart| && j != k ==> r[j] == cart[j]
  {
  }

  const FreeShippingThresholdCents := 10000
  const ShippingCents := 999

  /** getShippingCost: free strictly above 100.00, 9.99 otherwise. */
  function ShippingCost(subtotalCents: int): (c: int)
    ensures c == 0 <==> subtotalCents > FreeShippingThresholdCents
    ensures c != 0 ==> c == ShippingCents
  {
    if subtotalCents > FreeShippingThresholdCents then 0 else ShippingCents
  }

  /** getTax: 8% of the subtotal, exactly. */
  function Tax(subtotalCents: int): (t: real)
    ensures 25.0 * t == 2.0 * subtotalCents as real
  {
    subtotalCents as real * 8.0 / 100.0
  }

  /** getFinalTotal. */
  function FinalTotal(subtotalCents: int): real {
    subtotalCents as real + ShippingCost(subtotalCents) as real + Tax(subtotalCents)
  }

  /** Above the threshold the total is the subtotal plus tax; at or below it, 9.99 more. */
  lemma FinalTotalParts(subtotalCents: int)
    ensures subtotalCents > FreeShippingThresholdCents ==> FinalTotal(subtotalCents) == subtotalCents as real * 1.08
    ensures subtotalCents <= FreeShippingThresholdCents ==>
      FinalTotal(subtotalCents) == subtotalCents as real * 1.08 + ShippingCents as real
  {
  }

  /** The free-shipping notice: shown when shipping is charged and the subtotal is below 100.00, with the amount missing. */
  function ShippingNotice(subtotalCents: int): (n: Option<int>)
    ensures n.Some? <==> subtotalCents < FreeShippingThresholdCents
    ensures n.Some? ==> n.value == FreeShippingThresholdCents - subtotalCents && n.value > 0
  {
    if ShippingCost(subtotalCents) > 0 && subtotalCents < FreeShippingThresholdCents
    then Some(FreeShippingThresholdCents - subtotalCents)
    else None
  }

  /** At exactly 100.00 shipping is charged, yet no notice is shown. */
  lemma ExactlyAtThreshold()
    ensures ShippingCost(FreeShippingThresholdCents) == ShippingCents
    ensures ShippingNotice(FreeShippingThresholdCents).None?
  {
  }

  /** The order summary a non-empty cart shows. */
  datatype Summary = Summary(itemCount: int, subtotalCents: int, shippingCents: int, tax: real,
                             notice: Option<int>, total: real)

  datatype CartScreen = EmptyState | Filled(lines: seq<CartItem>, summary: Summary)

  /** The checkout button is part of the filled panel only. */
  predicate ShowsCheckoutButton(s: CartScreen) {
    s.Filled?
  }

  function Render(cart: seq<CartItem>, subtotalCents: int): (s: CartScreen)
    ensures s.EmptyState? <==> |cart| == 0
    ensures ShowsCheckoutButton(s) <==> |cart| > 0
    ensures s.Filled? ==> s.lines == cart && s.summary.itemCount == QuantitySum(cart)
    ensures s.Filled? ==> s.summary.subtotalCents == subtotalCents
    ensures s.Filled? ==> s.summary.shippingCents == ShippingCost(subtotalCents)
                          && s.summary.tax == Tax(subtotalCents)
                          && s.summary.notice == ShippingNotice(subtotalCents)
                          && s.summary.total == FinalTotal(subtotalCents)
  {
    if |cart| == 0 then EmptyState
    else
      Filled(cart, Summary(QuantitySum(cart), subtotalCents, ShippingCost(subtotalCents), Tax(subtotalCents),
                           ShippingNotice(subtotalCents), FinalTotal(subtotalCents)))
  }
}
