/** The product catalogue and the category filter of the products page. */
module Catalog {

  /** A product on sale. Images and descriptions are display data and are not kept. */
  datatype Product = Product(id: int, name: string, price: int, category: string)

  /** The filter value that selects every product. */
  const AllCategories: string := "all"

  /** The store's catalogue: prices are whole Jamaican dollars. */
  const Products: seq<Product> := [
    Product(1, "Acoustic Guitar", 85000, "guitars"),
    Product(2, "Electric Guitar", 125000, "guitars"),
    Product(3, "Digital Piano", 185000, "pianos"),
    Product(4, "Drum Set", 245000, "drums"),
    Product(5, "Violin", 65000, "strings"),
    Product(6, "Instrument Repair Service", 15000, "repair"),
    Product(7, "Bass Guitar", 95000, "guitars"),
    Product(8, "Saxophone", 135000, "wind")
  ]

  /** The products whose category is `category`, in catalogue order: what
      `Array.prototype.filter` keeps. */
  function OfCategory(ps: seq<Product>, category: string): (r: seq<Product>)
    ensures |r| <= |ps|
    ensures forall i | 0 <= i < |r| :: r[i].category == category
  {
    if |ps| == 0 then []
    else (if ps[0].category == category then [ps[0]] else []) + OfCategory(ps[1..], category)
  }

  /** The products the page lists for the filter value `filter`. */
  function FilterProducts(ps: seq<Product>, filter: string): (r: seq<Product>)
    ensures filter == AllCategories ==> r == ps
    ensures filter != AllCategories ==> forall i | 0 <= i < |r| :: r[i].category == filter
  {
    if filter == AllCategories then ps else OfCategory(ps, filter)
  }

  /** Filtering a concatenation filters each part and keeps them in order; with
      `OfSingle` this fixes the result completely, including its order. */
  lemma {:induction false} OfCategoryAppend(a: seq<Product>, b: seq<Product>, category: string)
    ensures OfCategory(a + b, category) == OfCategory(a, category) + OfCategory(b, category)
    decreases |a|
  {
    if |a| == 0 {
      assert a + b == b;
    } else {
      assert (a + b)[1..] == a[1..] + b;
      OfCategoryAppend(a[1..], b, category);
    }
  }

  /** A single product is kept exactly when its category matches. */
  lemma {:induction false} OfSingle(p: Product, category: string)
    ensures OfCategory([p], category) == if p.category == category then [p] else []
  {
  }

  /** Every product is kept as often as it occurs in the catalogue when its
      category matches, and never otherwise. */
  lemma {:induction false} OfCategoryCounts(ps: seq<Product>, category: string, p: Product)
    ensures multiset(OfCategory(ps, category))[p] ==
      if p.category == category then multiset(ps)[p] else 0
  {
    if |ps| > 0 {
      assert ps == [ps[0]] + ps[1..];
      OfCategoryCounts(ps[1..], category, p);
    }
  }

  /** Any filter other than `AllCategories` lists exactly the catalogue's
      products of that category. */
  lemma {:induction false} FilterProductsMembers(ps: seq<Product>, filter: string)
    requires filter != AllCategories
    ensures forall p :: p in FilterProducts(ps, filter) <==> p in ps && p.category == filter
  {
    forall p {
      OfCategoryCounts(ps, filter, p);
    }
  }

  /** Filtering twice by the same value is the same as filtering once. */
  lemma {:induction false} OfCategoryIdempotent(ps: seq<Product>, category: string)
    ensures OfCategory(OfCategory(ps, category), category) == OfCategory(ps, category)
  {
    if |ps| > 0 {
      var head := if ps[0].category == category then [ps[0]] else [];
      OfCategoryAppend(head, OfCategory(ps[1..], category), category);
      OfCategoryIdempotent(ps[1..], category);
      if ps[0].category == category {
        OfSingle(ps[0], category);
      }
    }
  }

  /** The guitars page lists the acoustic, electric and bass guitars, in that order. */
  lemma GuitarsFilter()
    ensures FilterProducts(Products, "guitars") == [Products[0], Products[1], Products[6]]
  {
  }
}
