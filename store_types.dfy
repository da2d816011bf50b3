/**
 * The storefront's records: a catalog product, a cart line and the payment
 * result the backend relays from the provider. Prices are integer cents and
 * ratings integer tenths of a star, so that every comparison and rounding
 * below is exact.
 */
module StoreTypes {
  import opened Wrappers

  datatype Product = Product(
    id: string,
    name: string,
    priceCents: int,
    description: string,
    image: string,
    category: string,
    rating: Option<int>,   // tenths of a star; None when the field is absent
    reviews: Option<int>,
    inStock: bool)

  datatype CartItem = CartItem(product: Product, quantity: int)

  /** The fields of a payment result the checkout reads; a non-string status or sub-status is kept as "". */
  datatype PaymentResult = PaymentResult(status: string, subStatus: string, requiresAction: bool)

  /** The product ids of the cart lines are pairwise distinct. */
  predicate UniqueIds(cart: seq<CartItem>) {
    forall i, j :: 0 <= i < j < |cart| ==> cart[i].product.id != cart[j].product.id
  }

  predicate HasId(cart: seq<CartItem>, id: string) {
    exists i :: 0 <= i < |cart| && cart[i].product.id == id
  }

  /** `cart.reduce((total, item) => total + item.quantity, 0)`: a left fold. */
  function QuantitySum(cart: seq<CartItem>): int
    decreases |cart|
  {
    if |cart| == 0 then 0 else QuantitySum(cart[..|cart| - 1]) + cart[|cart| - 1].quantity
  }

  /** `cart.reduce((total, item) => total + item.product.price * item.quantity, 0)`, in cents. */
  function SubtotalCents(cart: seq<CartItem>): int
    decreases |cart|
  {
    if |cart| == 0 then 0
    else SubtotalCents(cart[..|cart| - 1]) + cart[|cart| - 1].product.priceCents * cart[|cart| - 1].quantity
  }

  /** The quantity sum of two carts laid end to end is the sum of their sums. */
  lemma {:induction false} QuantitySumConcat(a: seq<CartItem>, b: seq<CartItem>)
    ensures QuantitySum(a + b) == QuantitySum(a) + QuantitySum(b)
    decreases |b|
  {
    if |b| > 0 {
      assert (a + b)[..|a + b| - 1] == a + b[..|b| - 1];
      QuantitySumConcat(a, b[..|b| - 1]);
    } else {
      assert a + b == a;
    }
  }

  /** The quantity sum, written as a sum over the lines from the front. */
  lemma QuantitySumCons(x: CartItem, rest: seq<CartItem>)
    ensures QuantitySum([x] + rest) == x.quantity + QuantitySum(rest)
  {
    QuantitySumConcat([x], rest);
    assert [x][..0] == [];
  }
}
