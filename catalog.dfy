/**
 * The catalog page: the cart held in page state and the pure updates that
 * replace it, the search/category filter, the sort of the filtered product
 * list, and the category list.
 */
module Catalog {
  import opened Wrappers
  import opened StoreTypes
  import Text

  // ---------------------------------------------------------------- cart updates

  /** The quantity of every line whose product has this id: set to `q`, or one more when `increment`. */
  function MapMatching(cart: seq<CartItem>, id: string, q: int, increment: bool): (r: seq<CartItem>)
    ensures |r| == |cart|
    ensures forall i :: 0 <= i < |cart| ==>
              r[i] == if cart[i].product.id == id
                      then cart[i].(quantity := if increment then cart[i].quantity + 1 else q)
                      else cart[i]
  {
    seq(|cart|, i requires 0 <= i < |cart| =>
      if cart[i].product.id == id
      then cart[i].(quantity := if increment then cart[i].quantity + 1 else q)
      else cart[i])
  }

  /** addToCart: nothing for an out-of-stock product; one more of a product already in the
   *  cart (its line keeps its place and its stored product); otherwise a new line at the end. */
  function Added(cart: seq<CartItem>, product: Product): (r: seq<CartItem>)
    ensures !product.inStock ==> r == cart
    ensures product.inStock && HasId(cart, product.id) ==>
              |r| == |cart| &&
              forall i :: 0 <= i < |cart| ==>
                r[i] == if cart[i].product.id == product.id
                        then cart[i].(quantity := cart[i].quantity + 1) else cart[i]
    ensures product.inStock && !HasId(cart, product.id) ==> r == cart + [CartItem(product, 1)]
  {
    if !product.inStock then cart
    else if HasId(cart, product.id) then MapMatching(cart, product.id, 0, true)
    else cart + [CartItem(product, 1)]
  }

  /** removeFromCart: the lines of every other product, in their original order. */
  function Removed(cart: seq<CartItem>, id: string): (r: seq<CartItem>)
    ensures |r| <= |cart|
    ensures forall x :: x in r <==> x in cart && x.product.id != id
    ensures !HasId(r, id)
    decreases |cart|
  {
    if |cart| == 0 then []
    else
      var rest := Removed(cart[1..], id);
      assert forall x :: x in cart <==> x == cart[0] || x in cart[1..] by {
        assert cart == [cart[0]] + cart[1..];
      }
      var r := if cart[0].product.id == id then rest else [cart[0]] + rest;
      assert forall i :: 0 <= i < |r| ==> r[i] in r;
      r
  }

  /** updateQuantity: a quantity of zero or less removes the product; any other quantity
   *  replaces that product's quantity and changes nothing else. */
  function Updated(cart: seq<CartItem>, id: string, quantity: int): (r: seq<CartItem>)
    ensures quantity <= 0 ==> r == Removed(cart, id)
    ensures quantity > 0 ==>
              |r| == |cart| &&
              forall i :: 0 <= i < |cart| ==>
                r[i] == if cart[i].product.id == id then cart[i].(quantity := quantity) else cart[i]
  {
    if quantity <= 0 then Removed(cart, id) else MapMatching(cart, id, quantity, false)
  }

  /** Removing a product the cart does not hold changes nothing. */
  lemma {:induction false} RemovedAbsent(cart: seq<CartItem>, id: string)
    requires !HasId(cart, id)
    ensures Removed(cart, id) == cart
    decreases |cart|
  {
    if |cart| > 0 {
      assert !HasId(cart[1..], id) by {
        forall i | 0 <= i < |cart[1..]| ensures cart[1..][i].product.id != id {
          assert cart[1..][i] == cart[i + 1];
        }
      }
      RemovedAbsent(cart[1..], id);
      assert cart == [cart[0]] + cart[1..];
    }
  }

  /** In a cart with distinct ids, removing the product at index k cuts out exactly line k. */
  lemma {:induction false} RemovedCutsOneLine(cart: seq<CartItem>, k: nat)
    requires UniqueIds(cart) && k < |cart|
    ensures Removed(cart, cart[k].product.id) == cart[..k] + cart[k + 1..]
    decreases k
  {
    var id := cart[k].product.id;
    TailUnique(cart);
    if k == 0 {
      TailLacksHead(cart);
      RemovedAbsent(cart[1..], id);
    } else {
      var tail := cart[1..];
      assert tail[k - 1] == cart[k];
      RemovedCutsOneLine(tail, k - 1);
      assert cart[0].product.id != cart[k].product.id;
      RemovedKeepsHead(cart, id);
      SliceAfterHead(cart, k);
    }
  }

  lemma RemovedKeepsHead(cart: seq<CartItem>, id: string)
    requires |cart| > 0 && cart[0].product.id != id
    ensures Removed(cart, id) == [cart[0]] + Removed(cart[1..], id)
  {
  }

  lemma SliceAfterHead(cart: seq<CartItem>, k: nat)
    requires 0 < k < |cart|
    ensures [cart[0]] + (cart[1..][..k - 1] + cart[1..][k..]) == cart[..k] + cart[k + 1..]
  {
    assert cart[1..][..k - 1] == cart[1..k];
    assert cart[1..][k..] == cart[k + 1..];
    assert cart[..k] == [cart[0]] + cart[1..k];
  }

  lemma TailUnique(cart: seq<CartItem>)
    requires UniqueIds(cart) && |cart| > 0
    ensures UniqueIds(cart[1..])
  {
    forall i, j | 0 <= i < j < |cart[1..]| ensures cart[1..][i].product.id != cart[1..][j].product.id {
      assert cart[1..][i] == cart[i + 1] && cart[1..][j] == cart[j + 1];
    }
  }

  lemma TailLacksHead(cart: seq<CartItem>)
    requires UniqueIds(cart) && |cart| > 0
    ensures !HasId(cart[1..], cart[0].product.id)
  {
    forall i | 0 <= i < |cart[1..]| ensures cart[1..][i].product.id != cart[0].product.id {
      assert cart[1..][i] == cart[i + 1];
    }
  }

  /** In a cart with distinct ids, changing the lines of the product at index k changes line k only. */
  lemma MapMatchingOneLine(cart: seq<CartItem>, k: nat, q: int, increment: bool)
    requires UniqueIds(cart) && k < |cart|
    ensures MapMatching(cart, cart[k].product.id, q, increment) ==
            cart[..k] + [cart[k].(quantity := if increment then cart[k].quantity + 1 else q)] + cart[k + 1..]
  {
    var r := MapMatching(cart, cart[k].product.id, q, increment);
    var s := cart[..k] + [cart[k].(quantity := if increment then cart[k].quantity + 1 else q)] + cart[k + 1..];
    assert |r| == |s|;
    forall i | 0 <= i < |r| ensures r[i] == s[i] {
      if i < k { assert s[i] == cart[i]; }
      else if i > k { assert s[i] == cart[i]; }
    }
  }

  /** Adding keeps the product ids of a cart pairwise distinct. */
  lemma AddedUnique(cart: seq<CartItem>, product: Product)
    requires UniqueIds(cart)
    ensures UniqueIds(Added(cart, product))
  {
  }

  /** Updating a quantity keeps the product ids of a cart pairwise distinct. */
  lemma UpdatedUnique(cart: seq<CartItem>, id: string, quantity: int)
    requires UniqueIds(cart)
    ensures UniqueIds(Updated(cart, id, quantity))
  {
    RemovedUnique(cart, id);
  }

  /** Removing keeps the product ids of a cart pairwise distinct. */
  lemma {:induction false} RemovedUnique(cart: seq<CartItem>, id: string)
    requires UniqueIds(cart)
    ensures UniqueIds(Removed(cart, id))
    decreases |cart|
  {
    if |cart| > 0 {
      TailUnique(cart);
      RemovedUnique(cart[1..], id);
      var rest := Removed(cart[1..], id);
      if cart[0].product.id != id {
        var r := [cart[0]] + rest;
        forall i, j | 0 <= i < j < |r| ensures r[i].product.id != r[j].product.id {
          if i == 0 {
            assert r[j] == rest[j - 1];
            assert rest[j - 1] in cart[1..];
            var m :| 0 <= m < |cart[1..]| && cart[1..][m] == rest[j - 1];
            assert cart[m + 1] == rest[j - 1];
          } else {
            assert r[i] == rest[i - 1] && r[j] == rest[j - 1];
          }
        }
      }
    }
  }

  /** Adding an in-stock product raises the item count by exactly one. */
  lemma AddedCount(cart: seq<CartItem>, product: Product)
    requires UniqueIds(cart)
    ensures QuantitySum(Added(cart, product)) == QuantitySum(cart) + (if product.inStock then 1 else 0)
  {
    if product.inStock {
      if HasId(cart, product.id) {
        var k :| 0 <= k < |cart| && cart[k].product.id == product.id;
        MapMatchingOneLine(cart, k, 0, true);
        SpliceCount(cart, k, cart[k].(quantity := cart[k].quantity + 1));
      } else {
        QuantitySumConcat(cart, [CartItem(product, 1)]);
        assert [CartItem(product, 1)][..0] == [];
      }
    }
  }

  /** Removing the product of line k lowers the item count by that line's quantity. */
  lemma RemovedCount(cart: seq<CartItem>, k: nat)
    requires UniqueIds(cart) && k < |cart|
    ensures QuantitySum(Removed(cart, cart[k].product.id)) == QuantitySum(cart) - cart[k].quantity
  {
    RemovedCutsOneLine(cart, k);
    SplitAt(cart, k);
    QuantitySumConcat(cart[..k], cart[k + 1..]);
    SpliceSum(cart[..k], cart[k], cart[k + 1..]);
  }

  /** Setting the quantity of line k to q > 0 changes the item count by q minus the old quantity. */
  lemma UpdatedCount(cart: seq<CartItem>, k: nat, quantity: int)
    requires UniqueIds(cart) && k < |cart| && quantity > 0
    ensures QuantitySum(Updated(cart, cart[k].product.id, quantity)) == QuantitySum(cart) - cart[k].quantity + quantity
  {
    MapMatchingOneLine(cart, k, quantity, false);
    SpliceCount(cart, k, cart[k].(quantity := quantity));
  }

  lemma SpliceCount(cart: seq<CartItem>, k: nat, x: CartItem)
    requires k < |cart|
    ensures QuantitySum(cart[..k] + [x] + cart[k + 1..]) == QuantitySum(cart) - cart[k].quantity + x.quantity
  {
    SplitAt(cart, k);
    SpliceSum(cart[..k], x, cart[k + 1..]);
    SpliceSum(cart[..k], cart[k], cart[k + 1..]);
  }

  lemma SplitAt(cart: seq<CartItem>, k: nat)
    requires k < |cart|
    ensures cart == cart[..k] + [cart[k]] + cart[k + 1..]
  {
  }

  lemma SpliceSum(a: seq<CartItem>, x: CartItem, b: seq<CartItem>)
    ensures QuantitySum(a + [x] + b) == QuantitySum(a) + x.quantity + QuantitySum(b)
  {
    QuantitySumConcat(a + [x], b);
    assert (a + [x])[..|a|] == a;
  }

  // ---------------------------------------------------------------- filter, sort, categories

  datatype SortField = ByName | ByPrice | ByRating
  datatype SortOrder = Ascending | Descending

  /** The filter predicate: the lower-cased search term occurs in the lower-cased name or
   *  description, and the category is the selected one or 'All' is selected. */
  predicate Matches(p: Product, searchTerm: string, selectedCategory: string) {
    var term := Text.Lower(searchTerm);
    (Text.Includes(Text.Lower(p.name), term) || Text.Includes(Text.Lower(p.description), term))
    && (selectedCategory == "All" || p.category == selectedCategory)
  }

  /** `products.filter(...)`: the matching products, in catalog order. */
  function Filtered(products: seq<Product>, searchTerm: string, selectedCategory: string): (r: seq<Product>)
    ensures forall p :: p in r ==> Matches(p, searchTerm, selectedCategory)
    ensures forall p :: multiset(r)[p] == if Matches(p, searchTerm, selectedCategory) then multiset(products)[p] else 0
    decreases |products|
  {
    if |products| == 0 then []
    else
      var rest := Filtered(products[1..], searchTerm, selectedCategory);
      assert products == [products[0]] + products[1..];
      if Matches(products[0], searchTerm, selectedCategory) then [products[0]] + rest else rest
  }

  lemma MatchesAll(p: Product)
    ensures Matches(p, "", "All")
  {
    assert Text.Lower("") == "";
    assert Text.Lower(p.name)[..0] == "";
  }

  /** With an empty search and 'All' selected, every product is shown, in catalog order. */
  lemma {:induction false} EmptySearchShowsAll(products: seq<Product>)
    ensures Filtered(products, "", "All") == products
    decreases |products|
  {
    if |products| > 0 {
      MatchesAll(products[0]);
      FilteredKeepsHead(products, "", "All");
      EmptySearchShowsAll(products[1..]);
      assert [products[0]] + products[1..] == products;
    }
  }

  lemma FilteredKeepsHead(products: seq<Product>, searchTerm: string, selectedCategory: string)
    requires |products| > 0 && Matches(products[0], searchTerm, selectedCategory)
    ensures Filtered(products, searchTerm, selectedCategory)
            == [products[0]] + Filtered(products[1..], searchTerm, selectedCategory)
  {
  }

  /** The value `(a.rating || 0)` the rating sort compares. */
  function RatingOrZero(p: Product): int {
    p.rating.GetOr(0)
  }

  /** The value a product is compared by; names are compared by their position in the
   *  locale's collation order, which is taken as given. */
  function SortValue(p: Product, field: SortField, collation: string -> int): int {
    match field
    case ByName => collation(p.name)
    case ByPrice => p.priceCents
    case ByRating => RatingOrZero(p)
  }

  /** The comparator passed to sort: the ascending comparison, negated for 'desc'. */
  function Compare(a: Product, b: Product, field: SortField, order: SortOrder, collation: string -> int): int {
    var comparison := SortValue(a, field, collation) - SortValue(b, field, collation);
    if order == Ascending then comparison else -comparison
  }

  /** The key under which the comparator orders products: the sort value, negated for 'desc'. */
  function Rank(p: Product, field: SortField, order: SortOrder, collation: string -> int): int {
    if order == Ascending then SortValue(p, field, collation) else -SortValue(p, field, collation)
  }

  /** 'desc' reverses the comparator, and the comparator is the difference of ranks. */
  lemma {:induction false} CompareRule(a: Product, b: Product, field: SortField, collation: string -> int)
    ensures Compare(a, b, field, Descending, collation) == -Compare(a, b, field, Ascending, collation)
    ensures forall order :: Compare(a, b, field, order, collation) == Rank(a, field, order, collation) - Rank(b, field, order, collation)
  {
  }

  /** No product is placed before one that the comparator puts ahead of it. */
  ghost predicate SortedBy(s: seq<Product>, field: SortField, order: SortOrder, collation: string -> int) {
    forall i, j :: 0 <= i < j < |s| ==> Compare(s[i], s[j], field, order, collation) <= 0
  }

  /** The elements of `s` below `hi` are in rank order. */
  ghost predicate RankSorted(s: seq<Product>, hi: int, field: SortField, order: SortOrder, collation: string -> int) {
    forall x, y :: 0 <= x < y < hi && y < |s| ==> Rank(s[x], field, order, collation) <= Rank(s[y], field, order, collation)
  }

  /** Exchanges the elements at `j - 1` and `j`. */
  method Swap(a: array<Product>, j: int)
    requires 0 < j < a.Length
    modifies a
    ensures a[..] == old(a[..])[j - 1 := old(a[j])][j := old(a[j - 1])]
    ensures multiset(a[..]) == old(multiset(a[..]))
  {
    a[j - 1], a[j] := a[j], a[j - 1];
  }

  /** Element `j` is sinking: the ranked prefix up to `i`, except at `j`, is in order, and `j` ranks no higher than what follows it. */
  ghost predicate Sinking(s: seq<Product>, i: int, j: int, field: SortField, order: SortOrder, collation: string -> int)
    requires 0 <= j <= i < |s|
  {
    && (forall x, y :: 0 <= x < y <= i && x != j && y != j ==>
          Rank(s[x], field, order, collation) <= Rank(s[y], field, order, collation))
    && (forall y :: j < y <= i ==> Rank(s[j], field, order, collation) <= Rank(s[y], field, order, collation))
  }

  /** Swapping a sinking element with a higher-ranked predecessor moves it one place down. */
  lemma SinkStep(s: seq<Product>, i: int, j: int, field: SortField, order: SortOrder, collation: string -> int)
    requires 0 < j <= i < |s| && Sinking(s, i, j, field, order, collation)
    requires Rank(s[j - 1], field, order, collation) > Rank(s[j], field, order, collation)
    ensures Sinking(s[j - 1 := s[j]][j := s[j - 1]], i, j - 1, field, order, collation)
  {
  }

  /** A sinking element that ranks no lower than its predecessor completes the ranked prefix. */
  lemma SinkDone(s: seq<Product>, i: int, j: int, field: SortField, order: SortOrder, collation: string -> int)
    requires 0 <= j <= i < |s| && Sinking(s, i, j, field, order, collation)
    requires j == 0 || Rank(s[j - 1], field, order, collation) <= Rank(s[j], field, order, collation)
    ensures RankSorted(s, i + 1, field, order, collation)
  {
  }

  /** One step of the insertion sort: element `i` sinks into the ranked prefix before it. */
  method Insert(a: array<Product>, i: int, field: SortField, order: SortOrder, collation: string -> int)
    requires 1 <= i < a.Length
    requires RankSorted(a[..], i, field, order, collation)
    modifies a
    ensures RankSorted(a[..], i + 1, field, order, collation)
    ensures multiset(a[..]) == old(multiset(a[..]))
  {
    var j := i;
    while j > 0 && Rank(a[j - 1], field, order, collation) > Rank(a[j], field, order, collation)
      invariant 0 <= j <= i
      invariant Sinking(a[..], i, j, field, order, collation)
      invariant multiset(a[..]) == old(multiset(a[..]))
    {
      SinkStep(a[..], i, j, field, order, collation);
      Swap(a, j);
      j := j - 1;
    }
    SinkDone(a[..], i, j, field, order, collation);
  }

  /** `filtered.sort(comparator)`: an insertion sort of the fresh array, in place. */
  method SortInPlace(a: array<Product>, field: SortField, order: SortOrder, collation: string -> int)
    modifies a
    ensures SortedBy(a[..], field, order, collation)
    ensures multiset(a[..]) == old(multiset(a[..]))
  {
    if a.Length == 0 { return; }
    var i := 1;
    while i < a.Length
      invariant 1 <= i <= a.Length
      invariant RankSorted(a[..], i, field, order, collation)
      invariant multiset(a[..]) == old(multiset(a[..]))
    {
      Insert(a, i, field, order, collation);
      i := i + 1;
    }
    forall x, y | 0 <= x < y < a.Length
      ensures Compare(a[..][x], a[..][y], field, order, collation) <= 0
    {
      CompareRule(a[x], a[y], field, collation);
    }
  }

  /** filteredAndSortedProducts: the matching products, each as often as in the catalog, in comparator order. */
  method FilterAndSort(products: seq<Product>, searchTerm: string, selectedCategory: string,
                       field: SortField, order: SortOrder, collation: string -> int)
    returns (r: seq<Product>)
    ensures multiset(r) == multiset(Filtered(products, searchTerm, selectedCategory))
    ensures forall p :: p in r ==> Matches(p, searchTerm, selectedCategory)
    ensures SortedBy(r, field, order, collation)
  {
    var f := Filtered(products, searchTerm, selectedCategory);
    var a := new Product[|f|](i requires 0 <= i < |f| => f[i]);
    assert a[..] == f;
    SortInPlace(a, field, order, collation);
    r := a[..];
    forall p | p in r ensures Matches(p, searchTerm, selectedCategory) {
      assert p in multiset(r);
      assert p in multiset(f);
    }
  }

  /** `products.map(product => product.category)`. */
  function CategoryColumn(products: seq<Product>): (r: seq<string>)
    ensures |r| == |products| && forall i :: 0 <= i < |products| ==> r[i] == products[i].category
  {
    seq(|products|, i requires 0 <= i < |products| => products[i].category)
  }

  /** `['All', ...new Set(categories)]`. */
  function Categories(products: seq<Product>): seq<string> {
    ["All"] + Text.Distinct(CategoryColumn(products))
  }

  /** The category list starts with 'All', then every catalog category once, by first appearance. */
  lemma CategoriesSpec(products: seq<Product>)
    ensures Categories(products)[0] == "All"
    ensures Text.NoDuplicates(Categories(products)[1..])
    ensures forall c :: c in Categories(products)[1..] <==> exists p :: p in products && p.category == c
    ensures forall c :: c in Categories(products)[1..] ==> c in CategoryColumn(products)
    ensures forall i, j :: 1 <= i < j < |Categories(products)| ==>
              Text.FirstIndex(CategoryColumn(products), Categories(products)[i]) <
              Text.FirstIndex(CategoryColumn(products), Categories(products)[j])
  {
    var cats := CategoryColumn(products);
    Text.DistinctSpec(cats);
    var all := Categories(products);
    assert all[1..] == Text.Distinct(cats);
    forall c ensures c in cats <==> exists p :: p in products && p.category == c {
      if c in cats {
        var i :| 0 <= i < |cats| && cats[i] == c;
        assert products[i] in products;
      }
      if exists p :: p in products && p.category == c {
        var p :| p in products && p.category == c;
        var i :| 0 <= i < |products| && products[i] == p;
        assert cats[i] == c;
      }
    }
    forall i, j | 1 <= i < j < |all|
      ensures Text.FirstIndex(cats, all[i]) < Text.FirstIndex(cats, all[j])
    {
      assert all[i] == all[1..][i - 1] && all[j] == all[1..][j - 1];
    }
  }

  // ---------------------------------------------------------------- the catalog and the page state

  /** The twelve products of the demo catalog (prices in cents, ratings in tenths). */
  const MockProducts: seq<Product> := [
    Product("1", "Classic Polo Shirt", 4999, "Timeless polo shirt crafted from premium piqu\U{E9} cotton with ribbed collar",
            "https://images.unsplash.com/photo-1581655353564-df123a1eb820?w=400&h=400&fit=crop&q=80", "Shirts", Some(48), Some(234), true),
    Product("2", "Tailored Slim Chinos", 7999, "Modern slim-fit chinos with stretch comfort and clean silhouette",
            "https://images.unsplash.com/photo-1624378439575-d8705ad7ae80?w=400&h=400&fit=crop&q=80", "Pants", Some(47), Some(189), true),
    Product("3", "Oxford Button-Down", 6999, "Classic Oxford shirt with button-down collar for versatile styling",
            "https://images.unsplash.com/photo-1598033129183-c4f50c736f10?w=400&h=400&fit=crop&q=80", "Shirts", Some(49), Some(312), true),
    Product("4", "Merino Wool Sweater", 12999, "Luxurious merino wool sweater with fine-gauge knit construction",
            "https://images.unsplash.com/photo-1620799140408-ed5341252629?w=400&h=400&fit=crop&q=80", "Knitwear", Some(48), Some(156), true),
    Product("5", "Premium Blazer", 24999, "Expertly tailored blazer with Italian wool blend and modern lapels",
            "https://images.unsplash.com/photo-1593030761757-71fae45fa317?w=400&h=400&fit=crop&q=80", "Outerwear", Some(49), Some(98), true),
    Product("6", "Linen Summer Shirt", 5999, "Breathable linen shirt perfect for warm weather occasions",
            "https://images.unsplash.com/photo-1589310243389-96a5483213a8?w=400&h=400&fit=crop&q=80", "Shirts", Some(46), Some(145), true),
    Product("7", "Structured Trench Coat", 29999, "Classic trench coat with water-resistant fabric and timeless design",
            "https://images.unsplash.com/photo-1548624149-f321941d99d4?w=400&h=400&fit=crop&q=80", "Outerwear", Some(47), Some(67), false),
    Product("8", "Casual Crew Neck Tee", 3499, "Essential crew neck t-shirt in premium Supima cotton",
            "https://images.unsplash.com/photo-1583743814966-8936f5b7be1a?w=400&h=400&fit=crop&q=80", "T-Shirts", Some(45), Some(423), true),
    Product("9", "Wool Dress Pants", 14999, "Elegant wool-blend dress pants with pressed creases",
            "https://images.unsplash.com/photo-1506629082955-511b1aa002c4?w=400&h=400&fit=crop&q=80", "Pants", Some(48), Some(112), true),
    Product("10", "Quilted Vest", 11999, "Lightweight quilted vest with water-resistant finish",
            "https://images.unsplash.com/photo-1617114919297-3c8ddbec014e?w=400&h=400&fit=crop&q=80", "Outerwear", Some(46), Some(89), true),
    Product("11", "Cashmere V-Neck", 18999, "Ultra-soft cashmere sweater with classic V-neck styling",
            "https://images.unsplash.com/photo-1576566588028-4147f3842f27?w=400&h=400&fit=crop&q=80", "Knitwear", Some(49), Some(78), true),
    Product("12", "Slim Fit Dress Shirt", 8999, "Crisp cotton dress shirt with French cuffs and spread collar",
            "https://images.unsplash.com/photo-1600121110465-9830573e3432?w=400&h=400&fit=crop&q=80", "Shirts", Some(47), Some(265), true)
  ]

  /** The page's state: the cart, whether checkout is open, and the filter and sort controls. */
  class CatalogPage {
    var cart: seq<CartItem>
    var showCheckout: bool
    var searchTerm: string
    var selectedCategory: string
    var sortBy: SortField
    var sortOrder: SortOrder

    /** Every update below keeps one line per product. */
    ghost predicate Valid()
      reads this
    {
      UniqueIds(cart)
    }

    /** The initial values of the page's useState hooks. */
    constructor ()
      ensures Valid()
      ensures cart == [] && !showCheckout
      ensures searchTerm == "" && selectedCategory == "All" && sortBy == ByName && sortOrder == Ascending
    {
      cart := [];
      showCheckout := false;
      searchTerm := "";
      selectedCategory := "All";
      sortBy := ByName;
      sortOrder := Ascending;
    }

    /** cartItemCount, the badge in the header. */
    function ItemCount(): int
      reads this
    {
      QuantitySum(cart)
    }

    /** totalPrice, in cents. */
    function TotalCents(): int
      reads this
    {
      SubtotalCents(cart)
    }

    method AddToCart(product: Product)
      requires Valid()
      modifies this`cart
      ensures Valid() && cart == Added(old(cart), product)
      ensures ItemCount() == old(ItemCount()) + if product.inStock then 1 else 0
    {
      AddedUnique(cart, product);
      AddedCount(cart, product);
      if !product.inStock {
        return;
      }
      cart := Added(cart, product);
    }

    method RemoveFromCart(productId: string)
      requires Valid()
      modifies this`cart
      ensures Valid() && cart == Removed(old(cart), productId)
      ensures !HasId(cart, productId)
    {
      RemovedUnique(cart, productId);
      cart := Removed(cart, productId);
    }

    method UpdateQuantity(productId: string, quantity: int)
      requires Valid()
      modifies this`cart
      ensures Valid() && cart == Updated(old(cart), productId, quantity)
    {
      if quantity <= 0 {
        RemoveFromCart(productId);
        return;
      }
      UpdatedUnique(cart, productId, quantity);
      cart := MapMatching(cart, productId, quantity, false);
    }

    method ClearCart()
      modifies this`cart
      ensures Valid() && cart == []
    {
      cart := [];
    }

    /** handleCheckout: an empty cart does not open checkout. */
    method HandleCheckout()
      modifies this`showCheckout
      ensures showCheckout == (old(showCheckout) || |cart| > 0)
    {
      if |cart| == 0 {
        return;
      }
      showCheckout := true;
    }

    /** handleCheckoutComplete: the checkout closes and the cart empties. */
    method HandleCheckoutComplete()
      modifies this`cart, this`showCheckout
      ensures Valid() && cart == [] && !showCheckout
    {
      showCheckout := false;
      cart := [];
    }

    method SetSearchTerm(term: string)
      modifies this`searchTerm
      ensures searchTerm == term
    {
      searchTerm := term;
    }

    method SetSelectedCategory(category: string)
      modifies this`selectedCategory
      ensures selectedCategory == category
    {
      selectedCategory := category;
    }

    method SetSortBy(field: SortField)
      modifies this`sortBy
      ensures sortBy == field
    {
      sortBy := field;
    }

    method SetSortOrder(order: SortOrder)
      modifies this`sortOrder
      ensures sortOrder == order
    {
      sortOrder := order;
    }

    /** filteredAndSortedProducts for the current controls. */
    method ShownProducts(collation: string -> int) returns (r: seq<Product>)
      ensures multiset(r) == multiset(Filtered(MockProducts, searchTerm, selectedCategory))
      ensures SortedBy(r, sortBy, sortOrder, collation)
    {
      r := FilterAndSort(MockProducts, searchTerm, selectedCategory, sortBy, sortOrder, collation);
    }
  }
}
