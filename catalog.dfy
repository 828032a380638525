/**
 * The static catalog of the storefront page and the filter that the catalog
 * section applies to it: a product is listed when its lower-cased name contains
 * the lower-cased search query and the selected category is "all" or its own.
 */
module Catalog {
  import opened Sequences
  import opened Text

  /** A catalog item. Prices are whole roubles. */
  datatype Product = Product(
    id: int,
    name: string,
    price: int,
    category: string,
    image: string,
    description: string)

  /** A category tab: its identifier and its label. */
  datatype Category = Category(id: string, name: string)

  /** The category identifier that selects every product. */
  const AllCategories: string := "all"

  const Products: seq<Product> := [
    Product(1, "Минималистичная ваза", 2490, "decor",
      "https://images.unsplash.com/photo-1578500494198-246f612d3b3d?w=400&h=400&fit=crop",
      "Элегантная керамическая ваза"),
    Product(2, "Скандинавский стул", 8990, "furniture",
      "https://images.unsplash.com/photo-1506439773649-6e0eb8cfb237?w=400&h=400&fit=crop",
      "Удобный стул из натурального дерева"),
    Product(3, "Настольная лампа", 3990, "lighting",
      "https://images.unsplash.com/photo-1507473885765-e6ed057f782c?w=400&h=400&fit=crop",
      "Лаконичная LED лампа"),
    Product(4, "Хлопковое покрывало", 4490, "textile",
      "https://images.unsplash.com/photo-1522771739844-6a9f6d5f14af?w=400&h=400&fit=crop",
      "Мягкое покрывало из органического хлопка"),
    Product(5, "Книжная полка", 12990, "furniture",
      "https://images.unsplash.com/photo-1594620302200-9a762244a156?w=400&h=400&fit=crop",
      "Настенная полка из дуба"),
    Product(6, "Подушка декоративная", 1990, "textile",
      "https://images.unsplash.com/photo-1584100936595-c0654b55a2e2?w=400&h=400&fit=crop",
      "Мягкая подушка с геометрическим узором"),
    Product(7, "Керамическая тарелка", 890, "decor",
      "https://images.unsplash.com/photo-1610701596007-11502861dcfa?w=400&h=400&fit=crop",
      "Ручная работа, уникальная глазурь"),
    Product(8, "Торшер напольный", 7990, "lighting",
      "https://images.unsplash.com/photo-1513506003901-1e6a229e2d15?w=400&h=400&fit=crop",
      "Регулируемый по высоте торшер")
  ]

  const Categories: seq<Category> := [
    Category("all", "Все товары"),
    Category("furniture", "Мебель"),
    Category("decor", "Декор"),
    Category("lighting", "Освещение"),
    Category("textile", "Текстиль")
  ]

  /** The ids of the products, in order. */
  function ProductIds(ps: seq<Product>): seq<int>
  {
    seq(|ps|, i requires 0 <= i < |ps| => ps[i].id)
  }

  /** The catalog numbers its products 1, 2, ... in order, so their ids are unique and positive. */
  lemma CatalogIds()
    ensures forall i :: 0 <= i < |Products| ==> Products[i].id == i + 1
    ensures Distinct(ProductIds(Products))
  {
  }

  /** Every catalog product has a price that is not negative and names a category tab
      other than the wildcard. */
  lemma CatalogProductsWellFormed(p: Product)
    requires p in Products
    ensures p.price >= 0
    ensures p.category != AllCategories
    ensures exists c :: c in Categories && c.id == p.category
  {
  }

  /** The name contains the query, both lower-cased. The empty query matches every name. */
  predicate MatchesSearch(p: Product, query: string): (b: bool)
    ensures query == [] ==> b
  {
    assert ToLowerCase(query) == [] <== query == [];
    Includes(ToLowerCase(p.name), ToLowerCase(query))
  }

  /** The wildcard category matches every product; any other category matches only the
      products that carry it. */
  predicate MatchesCategory(p: Product, category: string): (b: bool)
    ensures category == AllCategories ==> b
    ensures category != AllCategories ==> (b <==> p.category == category)
  {
    category == AllCategories || p.category == category
  }

  /** Both tests of the filter. Every product matches the empty query in the wildcard category. */
  predicate Matches(p: Product, query: string, category: string): (b: bool)
    ensures query == [] && category == AllCategories ==> b
  {
    MatchesSearch(p, query) && MatchesCategory(p, category)
  }

  /** The products that match, in their original order. */
  function FilterProducts(ps: seq<Product>, query: string, category: string): (r: seq<Product>)
    ensures forall p :: p in r <==> p in ps && Matches(p, query, category)
    ensures IsSubsequence(r, ps)
  {
    if ps == [] then []
    else
      var rest := FilterProducts(ps[1..], query, category);
      if Matches(ps[0], query, category) then
        [ps[0]] + rest
      else
        assert rest == [] || rest[0] != ps[0] by {
          if rest != [] { assert rest[0] in rest; }
        }
        rest
  }

  /** A product occurs in the result as often as in the input when it matches, and never otherwise. */
  lemma {:induction false} FilterCounts(ps: seq<Product>, query: string, category: string, p: Product)
    ensures multiset(FilterProducts(ps, query, category))[p] ==
            if Matches(p, query, category) then multiset(ps)[p] else 0
  {
    if ps != [] {
      FilterCounts(ps[1..], query, category, p);
      assert ps == [ps[0]] + ps[1..];
    }
  }

  /** On the catalog, every matching product is listed exactly once and every other product never. */
  lemma CatalogFilterExactlyOnce(query: string, category: string, p: Product)
    ensures p in Products ==>
      multiset(FilterProducts(Products, query, category))[p] == if Matches(p, query, category) then 1 else 0
  {
    if p in Products {
      CatalogIds();
      assert Distinct(Products) by {
        forall i, j | 0 <= i < j < |Products| ensures Products[i] != Products[j] {
          assert Products[i].id != Products[j].id;
        }
      }
      DistinctOccursOnce(Products, p);
      FilterCounts(Products, query, category, p);
    }
  }

  /** The empty query in the wildcard category lists the whole catalog, unchanged. */
  lemma {:induction false} FilterEverything(ps: seq<Product>)
    ensures FilterProducts(ps, "", AllCategories) == ps
  {
    if ps != [] {
      FilterEverything(ps[1..]);
    }
  }

  /** The search ignores the case of the query: a lower-cased query lists the same products. */
  lemma {:induction false} FilterIgnoresQueryCase(ps: seq<Product>, query: string, category: string)
    ensures FilterProducts(ps, ToLowerCase(query), category) == FilterProducts(ps, query, category)
  {
    ToLowerCaseIdempotent(query);
    if ps != [] {
      FilterIgnoresQueryCase(ps[1..], query, category);
    }
  }

  /** A category that no product carries, other than the wildcard, lists nothing. */
  lemma UnknownCategoryListsNothing(ps: seq<Product>, query: string, category: string)
    requires category != AllCategories
    requires forall p :: p in ps ==> p.category != category
    ensures FilterProducts(ps, query, category) == []
  {
  }
}
