/** The records of the product catalog and the pure queries over them: the
    conjunction of optional criteria that decides which products are visible,
    and the lookups by id. */
module Catalog {
  import opened Wrappers
  import opened Seqs
  import opened Text

  /** A catalog entry. Prices and ratings are exact reals; presentation fields
      (images, variants, nutrition facts, stock count) are not modelled. */
  datatype Product = Product(
    id: string,
    name: string,
    price: real,
    category: string,
    brand: string,
    rating: real,
    description: string,
    inStock: bool,
    tags: seq<string>)

  /** The store's filter record: every key may be absent. */
  datatype ProductFilters = ProductFilters(
    category: Option<string>,
    brand: Option<string>,
    minPrice: Option<real>,
    maxPrice: Option<real>,
    rating: Option<real>,
    inStock: Option<bool>,
    search: Option<string>)

  /** The empty record `{}`. */
  const NoFilters := ProductFilters(None, None, None, None, None, None, None)

  datatype SortBy = Name | PriceLow | PriceHigh | Rating | Newest

  /** JavaScript truthiness of an optional string: absent and `""` are both false. */
  predicate Truthy(o: Option<string>) {
    o.Some? && o.value != ""
  }

  /** The search test for an already lower-cased query: a substring of the
      lower-cased name, description, brand or of one of the tags. */
  predicate Mentions(p: Product, lowered: string) {
    || Contains(Lower(p.name), lowered)
    || Contains(Lower(p.description), lowered)
    || Contains(Lower(p.brand), lowered)
    || exists t | t in p.tags :: Contains(Lower(t), lowered)
  }

  /** The search criterion: inactive unless truthy, then a case-insensitive
      substring test. */
  predicate SearchOk(search: Option<string>, p: Product) {
    Truthy(search) ==> Mentions(p, Lower(search.value))
  }

  /** A product passes `f` when it meets every active criterion. Search,
      category and brand are active when truthy; the numeric and boolean
      criteria are active whenever they are present, even at `0` or `false`. */
  predicate Matches(f: ProductFilters, p: Product): (r: bool)
    ensures f == NoFilters ==> r
    ensures f.minPrice.Some? && f.maxPrice.Some? && f.maxPrice.value < f.minPrice.value ==> !r
    ensures r && f.minPrice.Some? && f.maxPrice.Some? ==> f.minPrice.value <= p.price <= f.maxPrice.value
  {
    && SearchOk(f.search, p)
    && (Truthy(f.category) ==> p.category == f.category.value)
    && (Truthy(f.brand) ==> p.brand == f.brand.value)
    && (f.minPrice.Some? ==> p.price >= f.minPrice.value)
    && (f.maxPrice.Some? ==> p.price <= f.maxPrice.value)
    && (f.rating.Some? ==> p.rating >= f.rating.value)
    && (f.inStock.Some? ==> p.inStock == f.inStock.value)
  }

  /** `Matches` as a test to hand to `filter`. */
  function Passes(f: ProductFilters): Product -> bool {
    p => Matches(f, p)
  }

  /** The products of `products` that pass `f`, in collection order. */
  function Select(products: seq<Product>, f: ProductFilters): (r: seq<Product>)
    ensures forall p :: p in r <==> p in products && Matches(f, p)
  {
    Filter(products, Passes(f))
  }

  /** Two filter records that accept the same products select the same view. */
  lemma SameSelection(products: seq<Product>, f: ProductFilters, g: ProductFilters)
    requires forall p :: Matches(f, p) == Matches(g, p)
    ensures Select(products, f) == Select(products, g)
  {
    FilterAgree(products, Passes(f), Passes(g));
  }

  /** With no criteria every product is visible, in collection order. */
  lemma SelectUnfiltered(products: seq<Product>)
    ensures Select(products, NoFilters) == products
  {
    FilterKeepsAll(products, Passes(NoFilters));
  }

  /** Bounds are not validated: a minimum above the maximum hides everything. */
  lemma InvertedPriceWindowIsEmpty(products: seq<Product>, f: ProductFilters)
    requires f.minPrice.Some? && f.maxPrice.Some?
    requires f.minPrice.value > f.maxPrice.value
    ensures Select(products, f) == []
  {
    FilterDropsAll(products, Passes(f));
  }

  /** An empty search, category or brand string imposes nothing: it selects
      exactly what an absent one selects. */
  lemma EmptyTextIsNoConstraint(products: seq<Product>, f: ProductFilters)
    ensures Select(products, f.(search := Some(""))) == Select(products, f.(search := None))
    ensures Select(products, f.(category := Some(""))) == Select(products, f.(category := None))
    ensures Select(products, f.(brand := Some(""))) == Select(products, f.(brand := None))
  {
    var f1, g1 := f.(search := Some("")), f.(search := None);
    forall p ensures Matches(f1, p) == Matches(g1, p) {
      assert SearchOk(f1.search, p) && SearchOk(g1.search, p);
    }
    SameSelection(products, f1, g1);
    var f2, g2 := f.(category := Some("")), f.(category := None);
    forall p ensures Matches(f2, p) == Matches(g2, p) {
      assert !Truthy(f2.category);
    }
    SameSelection(products, f2, g2);
    var f3, g3 := f.(brand := Some("")), f.(brand := None);
    forall p ensures Matches(f3, p) == Matches(g3, p) {
      assert !Truthy(f3.brand);
    }
    SameSelection(products, f3, g3);
  }

  /** Present numeric and boolean criteria are live even at `0` and `false`:
      `inStock: false` keeps exactly the products that are out of stock, and
      `maxPrice: 0` keeps exactly the products priced at most zero. */
  lemma ZeroAndFalseAreLive(products: seq<Product>)
    ensures Select(products, NoFilters.(inStock := Some(false))) == Filter(products, (p: Product) => !p.inStock)
    ensures Select(products, NoFilters.(maxPrice := Some(0.0))) == Filter(products, (p: Product) => p.price <= 0.0)
  {
    FilterAgree(products, Passes(NoFilters.(inStock := Some(false))), (p: Product) => !p.inStock);
    FilterAgree(products, Passes(NoFilters.(maxPrice := Some(0.0))), (p: Product) => p.price <= 0.0);
  }

  /** The position of the first product with this id, or `|products|` when
      there is none (`Array.prototype.findIndex` with "not found" as the length). */
  function IndexOfId(products: seq<Product>, id: string): (k: nat)
    ensures k <= |products|
    ensures forall j :: 0 <= j < k ==> products[j].id != id
    ensures k < |products| ==> products[k].id == id
  {
    if products == [] || products[0].id == id then 0
    else 1 + IndexOfId(products[1..], id)
  }

  /** `products.find(p => p.id === id)`. */
  function FindById(products: seq<Product>, id: string): (r: Option<Product>)
    ensures r.None? <==> forall j :: 0 <= j < |products| ==> products[j].id != id
    ensures r.Some? ==> r.value.id == id && r.value in products
  {
    var k := IndexOfId(products, id);
    if k < |products| then Some(products[k]) else None
  }

  /** `find` returns the first product with the id, wherever later
      duplicates sit. */
  lemma FindByIdIsFirst(products: seq<Product>, id: string, k: nat)
    requires k < |products| && products[k].id == id
    requires forall j :: 0 <= j < k ==> products[j].id != id
    ensures FindById(products, id) == Some(products[k])
  {
  }

  /** The products other than `id` that share its category, in collection order. */
  function Siblings(products: seq<Product>, id: string, category: string): seq<Product> {
    Filter(products, (p: Product) => p.id != id && p.category == category)
  }

  /** `getRelatedProducts(id, limit = 4)`: nothing for an unknown id; otherwise
      the first `limit` products (with JavaScript's `slice` reading of a
      negative limit) that share the category of the first product with that
      id and do not have that id. */
  function Related(products: seq<Product>, id: string, limit: int := 4): (r: seq<Product>)
    ensures FindById(products, id).None? ==> r == []
    ensures FindById(products, id).Some? ==>
      var category := FindById(products, id).value.category;
      var all := Siblings(products, id, category);
      && |r| <= |all| && r == all[..|r|]
      && (limit >= 0 ==> |r| == if limit < |all| then limit else |all|)
    ensures forall i :: 0 <= i < |r| ==> r[i] in products && r[i].id != id
    ensures limit >= 0 ==> |r| <= limit
  {
    match FindById(products, id)
    case None => []
    case Some(current) => SliceFromStart(Siblings(products, id, current.category), limit)
  }

  /** Every related product shares the category of the product asked about. */
  lemma RelatedShareCategory(products: seq<Product>, id: string, limit: int)
    requires FindById(products, id).Some?
    ensures forall p :: p in Related(products, id, limit) ==>
      p.category == FindById(products, id).value.category
  {
    var category := FindById(products, id).value.category;
    var all := Siblings(products, id, category);
    var r := Related(products, id, limit);
    forall p | p in r ensures p.category == category {
      assert p in all;
    }
  }
}
