/**
 * A product card: the star row for a rating, whether the rating block is
 * shown, and the add-to-cart button. Ratings are integer tenths of a star,
 * so Math.floor, Math.ceil and `% 1` are exact.
 */
module ProductCard {
  import opened Wrappers
  import opened StoreTypes
  import Catalog

  datatype Star = Full | Half | Empty

  /** Math.floor of a rating in tenths (Dafny's division by a positive divisor rounds down). */
  function FloorStars(tenths: int): (r: int)
    ensures 10 * r <= tenths < 10 * r + 10
  {
    tenths / 10
  }

  /** Math.ceil of a rating in tenths. */
  function CeilStars(tenths: int): (r: int)
    ensures 10 * r - 10 < tenths <= 10 * r
  {
    -((-tenths) / 10)
  }

  function Repeat(s: Star, n: int): (r: seq<Star>)
    ensures |r| == if n > 0 then n else 0
    ensures forall i :: 0 <= i < |r| ==> r[i] == s
  {
    if n <= 0 then [] else Repeat(s, n - 1) + [s]
  }

  /** The star row: floor(rating) full stars, a half star when the rating is not whole, then 5 − ceil(rating) empty ones. */
  function Stars(tenths: int): seq<Star> {
    Repeat(Full, FloorStars(tenths)) + (if tenths % 10 != 0 then [Half] else []) + Repeat(Empty, 5 - CeilStars(tenths))
  }

  /** renderStars: a loop of full stars, a conditional half star, then a loop of empty stars. */
  method RenderStars(tenths: int) returns (stars: seq<Star>)
    ensures stars == Stars(tenths)
  {
    stars := [];
    var fullStars := FloorStars(tenths);
    var hasHalfStar := tenths % 10 != 0;
    var i := 0;
    while i < fullStars
      invariant 0 <= i <= (if fullStars > 0 then fullStars else 0)
      invariant stars == Repeat(Full, i)
    {
      stars := stars + [Full];
      i := i + 1;
    }
    assert stars == Repeat(Full, fullStars);
    if hasHalfStar {
      stars := stars + [Half];
    }
    var half := stars;
    var emptyStars := 5 - CeilStars(tenths);
    i := 0;
    while i < emptyStars
      invariant 0 <= i <= (if emptyStars > 0 then emptyStars else 0)
      invariant stars == half + Repeat(Empty, i)
    {
      stars := stars + [Empty];
      i := i + 1;
    }
    assert stars == half + Repeat(Empty, emptyStars);
  }

  function Count(s: seq<Star>, x: Star): nat {
    multiset(s)[x]
  }

  /** For a rating between 0 and 5 the row has five stars: floor(rating) full ones and one half star iff the rating is not whole. */
  lemma FiveStars(tenths: int)
    requires 0 <= tenths <= 50
    ensures |Stars(tenths)| == 5
    ensures Count(Stars(tenths), Full) == tenths / 10
    ensures Count(Stars(tenths), Half) == (if tenths % 10 != 0 then 1 else 0)
    ensures Count(Stars(tenths), Empty) == 5 - CeilStars(tenths)
  {
    var full := FloorStars(tenths);
    var empty := 5 - CeilStars(tenths);
    assert 0 <= full <= 5 && 0 <= empty <= 5;
    assert full + (if tenths % 10 != 0 then 1 else 0) + empty == 5;
    var f := Repeat(Full, full);
    var h: seq<Star> := if tenths % 10 != 0 then [Half] else [];
    var e := Repeat(Empty, empty);
    assert Stars(tenths) == f + h + e;
    assert multiset(f + h + e) == multiset(f) + multiset(h) + multiset(e);
    RepeatCount(Full, full);
    RepeatCount(Empty, empty);
  }

  lemma {:induction false} RepeatCount(s: Star, n: int)
    ensures multiset(Repeat(s, n))[s] == (if n > 0 then n else 0)
    ensures forall t :: t != s ==> multiset(Repeat(s, n))[t] == 0
    decreases if n > 0 then n else 0
  {
    if n > 0 {
      RepeatCount(s, n - 1);
      assert multiset(Repeat(s, n)) == multiset(Repeat(s, n - 1)) + multiset{s};
    }
  }

  /** The rating block: rendered, with the star row of the rating, only for a present, non-zero rating (`product.rating &&`). */
  function RatingBlock(p: Product): (r: Option<seq<Star>>)
    ensures r.Some? <==> p.rating.Some? && p.rating.value != 0
    ensures r.Some? ==> r.value == Stars(p.rating.value)
  {
    match p.rating
    case None => None
    case Some(t) => if t == 0 then None else Some(Stars(t))
  }

  datatype AddButton = AddButton(enabled: bool, caption: string)

  function AddToCartButton(p: Product): (b: AddButton)
    ensures b.enabled <==> p.inStock
    ensures !p.inStock ==> b.caption == "Out of Stock"
  {
    if p.inStock then AddButton(true, "Add to Cart") else AddButton(false, "Out of Stock")
  }

  /** A click on the card's button: a disabled button does nothing, an enabled one hands the product to addToCart. */
  function ClickAdd(cart: seq<CartItem>, p: Product): seq<CartItem> {
    if AddToCartButton(p).enabled then Catalog.Added(cart, p) else cart
  }

  /** The disabled button and addToCart's own stock guard agree: a click changes the cart exactly as addToCart would. */
  lemma ClickAddIsAddToCart(cart: seq<CartItem>, p: Product)
    ensures ClickAdd(cart, p) == Catalog.Added(cart, p)
    ensures !p.inStock ==> ClickAdd(cart, p) == cart
  {
  }
}
