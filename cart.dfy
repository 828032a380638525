/**
 * The shopping cart of the storefront page: an ordered list of lines, each a
 * catalog product with a quantity, and the pure transformations that the page's
 * setters apply to it (add, remove, change quantity) with the two sums it shows.
 */
module ShoppingCart {
  import opened Wrappers
  import opened Sequences
  import opened Catalog

  /** A cart line: every field of the product it was added from, plus a quantity. */
  datatype CartItem = CartItem(product: Product, quantity: int)
  {
    function Id(): int { product.id }
  }

  type Cart = seq<CartItem>

  /** The product ids of the lines, in cart order. */
  function Ids(cart: Cart): seq<int>
  {
    seq(|cart|, i requires 0 <= i < |cart| => cart[i].Id())
  }

  /** No two lines of the cart are for the same product id. */
  predicate UniqueIds(cart: Cart)
  {
    Distinct(Ids(cart))
  }

  /** Unique ids, stated on the lines themselves. */
  lemma UniqueIdsAt(cart: Cart)
    ensures UniqueIds(cart) <==> forall i, j :: 0 <= i < j < |cart| ==> cart[i].Id() != cart[j].Id()
  {
    var ids := Ids(cart);
    assert forall i :: 0 <= i < |cart| ==> ids[i] == cart[i].Id();
  }

  predicate HasLine(cart: Cart, id: int)
  {
    exists i :: 0 <= i < |cart| && cart[i].Id() == id
  }

  predicate PositiveQuantities(cart: Cart)
  {
    forall i :: 0 <= i < |cart| ==> cart[i].quantity >= 1
  }

  /** Line `i` is the first line for `id`. */
  predicate FirstLine(cart: Cart, id: int, i: int)
  {
    0 <= i < |cart| && cart[i].Id() == id && forall j :: 0 <= j < i ==> cart[j].Id() != id
  }

  /** The first line for product `id`, if the cart has one. */
  function Find(cart: Cart, id: int): (r: Option<CartItem>)
    ensures r.None? <==> !HasLine(cart, id)
    ensures r.Some? ==> exists i :: FirstLine(cart, id, i) && cart[i] == r.value
  {
    if cart == [] then None
    else if cart[0].Id() == id then
      assert FirstLine(cart, id, 0);
      Some(cart[0])
    else
      var r := Find(cart[1..], id);
      if r.Some? then
        var i :| FirstLine(cart[1..], id, i) && cart[1..][i] == r.value;
        assert FirstLine(cart, id, i + 1);
        r
      else
        r
  }

  /** A copy of the line with a new quantity: every product field is kept. */
  function WithQuantity(item: CartItem, quantity: int): (r: CartItem)
    ensures r.product == item.product && r.Id() == item.Id()
    ensures r.quantity == quantity
  {
    item.(quantity := quantity)
  }

  /** Every line for `id` gains one unit; the other lines are unchanged. */
  function BumpQuantity(cart: Cart, id: int): (r: Cart)
    ensures |r| == |cart|
    ensures forall i :: 0 <= i < |cart| ==>
      r[i] == if cart[i].Id() == id then WithQuantity(cart[i], cart[i].quantity + 1) else cart[i]
  {
    if cart == [] then []
    else
      var line := if cart[0].Id() == id then WithQuantity(cart[0], cart[0].quantity + 1) else cart[0];
      [line] + BumpQuantity(cart[1..], id)
  }

  /** Every line for `id` gets quantity `quantity`; the other lines are unchanged. */
  function SetQuantity(cart: Cart, id: int, quantity: int): (r: Cart)
    ensures |r| == |cart|
    ensures forall i :: 0 <= i < |cart| ==>
      r[i] == if cart[i].Id() == id then WithQuantity(cart[i], quantity) else cart[i]
  {
    if cart == [] then []
    else
      var line := if cart[0].Id() == id then WithQuantity(cart[0], quantity) else cart[0];
      [line] + SetQuantity(cart[1..], id, quantity)
  }

  /** Adding a product: bump its line if there is one, otherwise append a line of one unit. */
  function AddToCart(cart: Cart, p: Product): (r: Cart)
    ensures HasLine(r, p.id)
    ensures UniqueIds(cart) ==> UniqueIds(r)
    ensures PositiveQuantities(cart) ==> PositiveQuantities(r)
  {
    UniqueIdsAt(cart);
    if Find(cart, p.id).Some? then
      UniqueIdsAt(BumpQuantity(cart, p.id));
      BumpQuantity(cart, p.id)
    else
      var r := cart + [CartItem(p, 1)];
      assert r[|cart|].Id() == p.id;
      UniqueIdsAt(r);
      r
  }

  /** Removing a product: keep exactly the lines for other ids, in their order. */
  function RemoveFromCart(cart: Cart, id: int): (r: Cart)
    ensures !HasLine(r, id)
    ensures forall x :: x in r <==> x in cart && x.Id() != id
    ensures IsSubsequence(r, cart)
  {
    if cart == [] then []
    else
      var rest := RemoveFromCart(cart[1..], id);
      if cart[0].Id() == id then
        assert rest == [] || rest[0] != cart[0] by {
          if rest != [] { assert rest[0] in rest; }
        }
        rest
      else
        [cart[0]] + rest
  }

  /** Removing lines keeps the ids unique. */
  lemma {:induction false} RemoveFromCartKeepsIdsUnique(cart: Cart, id: int)
    ensures UniqueIds(cart) ==> UniqueIds(RemoveFromCart(cart, id))
  {
    if cart != [] && UniqueIds(cart) {
      var rest := RemoveFromCart(cart[1..], id);
      UniqueIdsAt(cart);
      UniqueIdsAt(cart[1..]);
      UniqueIdsAt(rest);
      UniqueIdsAt(RemoveFromCart(cart, id));
      RemoveFromCartKeepsIdsUnique(cart[1..], id);
      if cart[0].Id() != id {
        forall k | 0 <= k < |rest| ensures rest[k].Id() != cart[0].Id() {
          assert rest[k] in cart[1..];
        }
      }
    }
  }

  /** Removing lines keeps every quantity at least one. */
  lemma RemoveFromCartKeepsPositive(cart: Cart, id: int)
    requires PositiveQuantities(cart)
    ensures PositiveQuantities(RemoveFromCart(cart, id))
  {
  }

  /** Changing a quantity: zero removes the line; any other value overwrites it. */
  function UpdateQuantity(cart: Cart, id: int, quantity: int): (r: Cart)
    ensures UniqueIds(cart) ==> UniqueIds(r)
    ensures PositiveQuantities(cart) && quantity >= 0 ==> PositiveQuantities(r)
  {
    if quantity == 0 then
      RemoveFromCartKeepsIdsUnique(cart, id);
      RemoveFromCart(cart, id)
    else
      UniqueIdsAt(cart);
      UniqueIdsAt(SetQuantity(cart, id, quantity));
      SetQuantity(cart, id, quantity)
  }

  /** Adding a product that already has a line bumps that line by one unit and changes nothing else. */
  lemma AddToCartExisting(cart: Cart, p: Product, k: int)
    requires UniqueIds(cart)
    requires 0 <= k < |cart| && cart[k].Id() == p.id
    ensures |AddToCart(cart, p)| == |cart|
    ensures AddToCart(cart, p)[k] == cart[k].(quantity := cart[k].quantity + 1)
    ensures forall i :: 0 <= i < |cart| && i != k ==> AddToCart(cart, p)[i] == cart[i]
  {
    UniqueIdsAt(cart);
  }

  /** Adding a product that has no line appends one line that copies the product, with one unit. */
  lemma AddToCartNew(cart: Cart, p: Product)
    requires !HasLine(cart, p.id)
    ensures AddToCart(cart, p) == cart + [CartItem(p, 1)]
    ensures AddToCart(cart, p)[|cart|].product == p
  {
  }

  /** Adding the same product twice gives one line of two units, not two lines. */
  lemma AddTwiceMakesOneLine(cart: Cart, p: Product)
    requires !HasLine(cart, p.id)
    ensures AddToCart(AddToCart(cart, p), p) == cart + [CartItem(p, 2)]
  {
    var once := AddToCart(cart, p);
    AddToCartNew(cart, p);
    assert once == cart + [CartItem(p, 1)];
    assert once[|cart|].Id() == p.id;
    var twice := AddToCart(once, p);
    assert twice == BumpQuantity(once, p.id);
    assert |twice| == |cart| + 1;
    forall i | 0 <= i < |cart| + 1 ensures twice[i] == (cart + [CartItem(p, 2)])[i] {
      if i < |cart| {
        assert cart[i].Id() != p.id;
      }
    }
  }

  /** Removing an id that has no line leaves the cart as it was. */
  lemma {:induction false} RemoveAbsentIsNoOp(cart: Cart, id: int)
    requires !HasLine(cart, id)
    ensures RemoveFromCart(cart, id) == cart
  {
    if cart != [] {
      assert cart[0].Id() != id;
      assert !HasLine(cart[1..], id) by {
        forall i | 0 <= i < |cart[1..]| ensures cart[1..][i].Id() != id {
          assert cart[1..][i] == cart[i + 1];
        }
      }
      RemoveAbsentIsNoOp(cart[1..], id);
    }
  }

  /** A line occurs in the result as often as in the cart when its id differs, and never otherwise. */
  lemma {:induction false} RemoveCounts(cart: Cart, id: int, x: CartItem)
    ensures multiset(RemoveFromCart(cart, id))[x] == if x.Id() == id then 0 else multiset(cart)[x]
  {
    if cart != [] {
      RemoveCounts(cart[1..], id, x);
      assert cart == [cart[0]] + cart[1..];
    }
  }

  /** With unique ids, removing an id that has a line shortens the cart by exactly one line. */
  lemma {:induction false} RemoveExistingShrinksByOne(cart: Cart, id: int)
    requires UniqueIds(cart) && HasLine(cart, id)
    ensures |RemoveFromCart(cart, id)| == |cart| - 1
  {
    assert cart != [];
    UniqueIdsAt(cart);
    UniqueIdsAt(cart[1..]);
    if cart[0].Id() == id {
      assert !HasLine(cart[1..], id) by {
        forall i | 0 <= i < |cart[1..]| ensures cart[1..][i].Id() != id {
          assert cart[1..][i] == cart[i + 1];
        }
      }
      RemoveAbsentIsNoOp(cart[1..], id);
    } else {
      var i :| 0 <= i < |cart| && cart[i].Id() == id;
      assert cart[1..][i - 1].Id() == id;
      RemoveExistingShrinksByOne(cart[1..], id);
    }
  }

  /** `updateQuantity(id, 0)` is exactly `removeFromCart(id)`. */
  lemma UpdateToZeroRemoves(cart: Cart, id: int)
    ensures UpdateQuantity(cart, id, 0) == RemoveFromCart(cart, id)
  {
  }

  /** Any other quantity, negative ones included, overwrites the quantity of the lines for `id`
      and nothing else; an id without a line leaves the cart as it was. */
  lemma UpdateNonzeroOverwrites(cart: Cart, id: int, quantity: int)
    requires quantity != 0
    ensures |UpdateQuantity(cart, id, quantity)| == |cart|
    ensures forall i :: 0 <= i < |cart| && cart[i].Id() == id ==>
      UpdateQuantity(cart, id, quantity)[i] == cart[i].(quantity := quantity)
    ensures forall i :: 0 <= i < |cart| && cart[i].Id() != id ==>
      UpdateQuantity(cart, id, quantity)[i] == cart[i]
    ensures !HasLine(cart, id) ==> UpdateQuantity(cart, id, quantity) == cart
  {
  }

  /** The minus and plus buttons of a cart line call `updateQuantity(item.id, item.quantity - 1)` and
      `updateQuantity(item.id, item.quantity + 1)`; when every quantity is at least one, both keep it so. */
  lemma QuantityButtonsKeepPositive(cart: Cart, item: CartItem)
    requires PositiveQuantities(cart) && item in cart
    ensures PositiveQuantities(UpdateQuantity(cart, item.Id(), item.quantity - 1))
    ensures PositiveQuantities(UpdateQuantity(cart, item.Id(), item.quantity + 1))
  {
  }

  /** One call of a cart setter, as the page makes it. */
  datatype CartEvent =
    | Add(product: Product)
    | Remove(id: int)
    | Update(id: int, quantity: int)

  function Apply(cart: Cart, e: CartEvent): Cart
  {
    match e
    case Add(p) => AddToCart(cart, p)
    case Remove(id) => RemoveFromCart(cart, id)
    case Update(id, quantity) => UpdateQuantity(cart, id, quantity)
  }

  /** The cart after the setter calls `es`, in order. */
  function ApplyAll(cart: Cart, es: seq<CartEvent>): Cart
    decreases |es|
  {
    if es == [] then cart else ApplyAll(Apply(cart, es[0]), es[1..])
  }

  /** Starting from the empty cart, no sequence of setter calls makes two lines share an id. */
  lemma {:induction false} EventsKeepIdsUnique(cart: Cart, es: seq<CartEvent>)
    requires UniqueIds(cart)
    ensures UniqueIds(ApplyAll(cart, es))
    decreases |es|
  {
    if es != [] {
      if es[0].Remove? {
        RemoveFromCartKeepsIdsUnique(cart, es[0].id);
      }
      EventsKeepIdsUnique(Apply(cart, es[0]), es[1..]);
    }
  }

  lemma ReachableCartsHaveUniqueIds(es: seq<CartEvent>)
    ensures UniqueIds(ApplyAll([], es))
  {
    EventsKeepIdsUnique([], es);
  }

  /** What one line contributes to the cart total: price times quantity. */
  function LineTotal(item: CartItem): int
  {
    item.product.price * item.quantity
  }

  /** What one line contributes to the unit count: its quantity. */
  function LineQuantity(item: CartItem): int
  {
    item.quantity
  }

  /** A left fold: starting from `acc`, add `f` of each line in cart order. It equals `acc`
      plus the reference sum. */
  function Reduce(cart: Cart, f: CartItem -> int, acc: int): (r: int)
    ensures r == acc + Sum(cart, f)
  {
    if cart == [] then acc else Reduce(cart[1..], f, acc + f(cart[0]))
  }

  /** The sum of `f` over the lines. */
  function Sum(cart: Cart, f: CartItem -> int): int
  {
    if cart == [] then 0 else f(cart[0]) + Sum(cart[1..], f)
  }

  lemma {:induction false} SumAppend(a: Cart, b: Cart, f: CartItem -> int)
    ensures Sum(a + b, f) == Sum(a, f) + Sum(b, f)
  {
    if a == [] {
      assert a + b == b;
    } else {
      assert (a + b)[1..] == a[1..] + b;
      SumAppend(a[1..], b, f);
    }
  }

  /** `cartTotal`: the sum of price times quantity over the lines. */
  function CartTotal(cart: Cart): (total: int)
    ensures total == Sum(cart, LineTotal)
  {
    Reduce(cart, LineTotal, 0)
  }

  /** `cartItemsCount`: the number of units, the sum of the quantities. */
  function CartItemsCount(cart: Cart): (count: int)
    ensures count == Sum(cart, LineQuantity)
  {
    Reduce(cart, LineQuantity, 0)
  }

  /** With unique ids, bumping the line at `k` adds its price to the total and one to the count. */
  lemma {:induction false} BumpQuantitySums(cart: Cart, id: int, k: int)
    requires UniqueIds(cart)
    requires 0 <= k < |cart| && cart[k].Id() == id
    ensures Sum(BumpQuantity(cart, id), LineTotal) == Sum(cart, LineTotal) + cart[k].product.price
    ensures Sum(BumpQuantity(cart, id), LineQuantity) == Sum(cart, LineQuantity) + 1
  {
    var r := BumpQuantity(cart, id);
    assert r[1..] == BumpQuantity(cart[1..], id);
    UniqueIdsAt(cart);
    UniqueIdsAt(cart[1..]);
    if k == 0 {
      assert BumpQuantity(cart[1..], id) == cart[1..];
    } else {
      assert cart[1..][k - 1] == cart[k];
      BumpQuantitySums(cart[1..], id, k - 1);
    }
  }

  /** Adding a product raises the total by its price and the unit count by one, when the cart's
      ids are unique and any line for the product carries the product's price. */
  lemma AddToCartTotals(cart: Cart, p: Product)
    requires UniqueIds(cart)
    requires forall i :: 0 <= i < |cart| && cart[i].Id() == p.id ==> cart[i].product.price == p.price
    ensures CartTotal(AddToCart(cart, p)) == CartTotal(cart) + p.price
    ensures CartItemsCount(AddToCart(cart, p)) == CartItemsCount(cart) + 1
  {
    if HasLine(cart, p.id) {
      var k :| 0 <= k < |cart| && cart[k].Id() == p.id;
      BumpQuantitySums(cart, p.id, k);
    } else {
      SumAppend(cart, [CartItem(p, 1)], LineTotal);
      SumAppend(cart, [CartItem(p, 1)], LineQuantity);
    }
  }

  /** Both sums are zero on the empty cart. */
  lemma EmptyCartSums()
    ensures CartTotal([]) == 0 && CartItemsCount([]) == 0
  {
  }

  /** Adding product 1 (2490) and product 2 (8990) gives a total of 11480; adding product 1 again
      gives two lines, a total of 13970 and three units. */
  lemma ExampleScenario()
    ensures CartTotal(AddToCart(AddToCart([], Products[0]), Products[1])) == 11480
    ensures var c := AddToCart(AddToCart(AddToCart([], Products[0]), Products[1]), Products[0]);
      && c == [CartItem(Products[0], 2), CartItem(Products[1], 1)]
      && CartTotal(c) == 13970
      && CartItemsCount(c) == 3
  {
    var p1, p2 := Products[0], Products[1];
    assert p1.id == 1 && p1.price == 2490 && p2.id == 2 && p2.price == 8990;
    var c1 := AddToCart([], p1);
    AddToCartNew([], p1);
    assert c1 == [CartItem(p1, 1)];
    var c2 := AddToCart(c1, p2);
    assert !HasLine(c1, p2.id);
    AddToCartNew(c1, p2);
    assert c2 == [CartItem(p1, 1), CartItem(p2, 1)];
    assert UniqueIds(c2) by { UniqueIdsAt(c2); }
    AddToCartExisting(c2, p1, 0);
    var c3 := AddToCart(c2, p1);
    assert c3 == [CartItem(p1, 2), CartItem(p2, 1)];
    SumAppend([CartItem(p1, 1)], [CartItem(p2, 1)], LineTotal);
    assert [CartItem(p1, 1)] + [CartItem(p2, 1)] == c2;
    assert Sum([CartItem(p1, 1)], LineTotal) == 2490;
    assert Sum([CartItem(p2, 1)], LineTotal) == 8990;
    SumAppend([CartItem(p1, 2)], [CartItem(p2, 1)], LineTotal);
    SumAppend([CartItem(p1, 2)], [CartItem(p2, 1)], LineQuantity);
    assert [CartItem(p1, 2)] + [CartItem(p2, 1)] == c3;
    assert Sum([CartItem(p1, 2)], LineTotal) == 4980;
    assert Sum([CartItem(p1, 2)], LineQuantity) == 2;
    assert Sum([CartItem(p2, 1)], LineQuantity) == 1;
  }
}
