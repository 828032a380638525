/**
 * The storefront page component: four state slots (search query, selected
 * category, cart, active section) that event handlers replace wholesale, and
 * the values the page derives from them on every render.
 */
module StorefrontPage {
  import opened Sequences
  import opened Catalog
  import opened ShoppingCart

  /** The six mutually exclusive panels the page can show. */
  datatype Section =
    | HomeSection
    | CatalogSection
    | CartSection
    | AboutSection
    | ReviewsSection
    | ContactsSection

  /** Every line of the cart was added from a catalog product. */
  predicate LinesFromCatalog(cart: Cart)
  {
    forall i :: 0 <= i < |cart| ==> cart[i].product in Products
  }

  class IndexPage {
    var searchQuery: string
    var selectedCategory: string
    var cart: Cart
    var activeSection: Section

    /** The cart has at most one line per product, each taken from the catalog. */
    ghost predicate Valid()
      reads this
    {
      UniqueIds(cart) && LinesFromCatalog(cart)
    }

    /** The initial state: empty query, the wildcard category, an empty cart, the home panel. */
    constructor ()
      ensures Valid()
      ensures searchQuery == "" && selectedCategory == AllCategories
      ensures cart == [] && activeSection == HomeSection
    {
      searchQuery := "";
      selectedCategory := AllCategories;
      cart := [];
      activeSection := HomeSection;
    }

    /** The products the catalog panel lists for the current query and category. */
    function FilteredProducts(): (r: seq<Product>)
      reads this
      ensures forall p :: p in r <==> p in Products && Matches(p, searchQuery, selectedCategory)
      ensures IsSubsequence(r, Products)
    {
      FilterProducts(Products, searchQuery, selectedCategory)
    }

    /** The cart total shown on the cart panel. */
    function Total(): (total: int)
      reads this
      ensures total == Sum(cart, LineTotal)
    {
      CartTotal(cart)
    }

    /** The unit count shown on the cart badge. */
    function ItemsCount(): (count: int)
      reads this
      ensures count == Sum(cart, LineQuantity)
    {
      CartItemsCount(cart)
    }

    method SetSearchQuery(query: string)
      requires Valid()
      modifies this`searchQuery
      ensures Valid()
      ensures searchQuery == query
    {
      searchQuery := query;
    }

    method SetSelectedCategory(category: string)
      requires Valid()
      modifies this`selectedCategory
      ensures Valid()
      ensures selectedCategory == category
    {
      selectedCategory := category;
    }

    method SetActiveSection(section: Section)
      requires Valid()
      modifies this`activeSection
      ensures Valid()
      ensures activeSection == section
    {
      activeSection := section;
    }

    /** The "add to cart" button of a catalog card. */
    method AddToCart(p: Product)
      requires Valid() && p in Products
      modifies this`cart
      ensures Valid()
      ensures cart == ShoppingCart.AddToCart(old(cart), p)
      ensures Total() == old(Total()) + p.price
      ensures ItemsCount() == old(ItemsCount()) + 1
    {
      CatalogIds();
      forall i | 0 <= i < |cart| && cart[i].Id() == p.id ensures cart[i].product.price == p.price {
        var a :| 0 <= a < |Products| && Products[a] == cart[i].product;
        var b :| 0 <= b < |Products| && Products[b] == p;
        assert a == b;
      }
      AddToCartTotals(cart, p);
      var next := ShoppingCart.AddToCart(cart, p);
      forall i | 0 <= i < |next| ensures next[i].product in Products {
        if i < |cart| {
          assert next[i].product == cart[i].product;
        }
      }
      cart := next;
    }

    /** The trash button of a cart line. */
    method RemoveFromCart(id: int)
      requires Valid()
      modifies this`cart
      ensures Valid()
      ensures cart == ShoppingCart.RemoveFromCart(old(cart), id)
      ensures old(PositiveQuantities(cart)) ==> PositiveQuantities(cart)
    {
      RemoveFromCartKeepsIdsUnique(cart, id);
      if PositiveQuantities(cart) {
        RemoveFromCartKeepsPositive(cart, id);
      }
      var next := ShoppingCart.RemoveFromCart(cart, id);
      forall i | 0 <= i < |next| ensures next[i].product in Products {
        assert next[i] in cart;
      }
      cart := next;
    }

    /** The minus and plus buttons of a cart line. */
    method UpdateQuantity(id: int, quantity: int)
      requires Valid()
      modifies this`cart
      ensures Valid()
      ensures cart == ShoppingCart.UpdateQuantity(old(cart), id, quantity)
      ensures old(PositiveQuantities(cart)) && quantity >= 0 ==> PositiveQuantities(cart)
    {
      if quantity == 0 {
        RemoveFromCart(id);
      } else {
        var next := SetQuantity(cart, id, quantity);
        UniqueIdsAt(cart);
        UniqueIdsAt(next);
        assert forall i :: 0 <= i < |next| ==> next[i].product == cart[i].product;
        cart := next;
      }
    }
  }
}
