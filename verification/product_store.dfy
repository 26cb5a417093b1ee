/** The catalog store: the product collection, the active filters and sort
    key, and the derived list of visible products that every action except
    `setProducts` recomputes. */
module ProductStore {
  import opened Wrappers
  import opened Seqs
  import opened Text
  import opened Catalog
  import opened CatalogOrder

  /** What `filterProducts` publishes: the products that pass `f`, in the
      order `order` gives them. */
  function View(products: seq<Product>, f: ProductFilters, order: SortBy): (r: seq<Product>)
    ensures forall p :: p in r <==> p in products && Matches(f, p)
    ensures multiset(r) == multiset(Select(products, f))
  {
    Arrange(order, Select(products, f))
  }

  /** One filtering pass narrows the selection by one more criterion. */
  lemma Narrow(products: seq<Product>, g: ProductFilters, h: ProductFilters, keep: Product -> bool)
    requires forall p :: Matches(h, p) == (Matches(g, p) && keep(p))
    ensures Filter(Select(products, g), keep) == Select(products, h)
  {
    FilterTwice(products, Passes(g), keep, Passes(h));
  }

  /** After clearing, the view is the whole collection in the current order. */
  lemma ClearedView(products: seq<Product>, order: SortBy)
    ensures View(products, NoFilters, order) == Arrange(order, products)
  {
    SelectUnfiltered(products);
  }

  /** `setProducts` skips the filter and sort phases: two products out of
      name order are published as given, which is not the view the default
      sort key describes. */
  lemma SetProductsSkipsSorting(a: Product, b: Product)
    requires !NameLe(a.name, b.name)
    ensures View([a, b], NoFilters, Name) != [a, b]
  {
    SelectUnfiltered([a, b]);
    assert Ordered(NameAsc, View([a, b], NoFilters, Name));
  }

  /** The text criteria of `f` alone: search, category and brand. */
  function TextPart(f: ProductFilters): ProductFilters {
    ProductFilters(f.category, f.brand, None, None, None, None, f.search)
  }

  /** The filter phase of `filterProducts`: each active criterion in turn
      narrows the copy of the collection, which ends up as the selection. */
  method FilterPhase(products: seq<Product>, f: ProductFilters) returns (filtered: seq<Product>)
    ensures filtered == Select(products, f)
  {
    filtered := TextPasses(products, f);
    filtered := PricePasses(products, f, filtered);
    filtered := QualityPasses(products, f, filtered);
  }

  /** The passes for search, category and brand, which are active only when
      the string is truthy. */
  method TextPasses(products: seq<Product>, f: ProductFilters) returns (filtered: seq<Product>)
    ensures filtered == Select(products, TextPart(f))
  {
    filtered := products;
    ghost var applied := NoFilters;
    SelectUnfiltered(products);

    if Truthy(f.search) {
      var searchLower := Lower(f.search.value);
      var keep := (p: Product) => Mentions(p, searchLower);
      assert Filter(filtered, keep) == Select(products, applied.(search := f.search)) by {
        Narrow(products, applied, applied.(search := f.search), keep);
      }
      filtered := Filter(filtered, keep);
    } else {
      assert filtered == Select(products, applied.(search := f.search)) by {
        SameSelection(products, applied, applied.(search := f.search));
      }
    }
    applied := applied.(search := f.search);
    assert filtered == Select(products, applied);

    if Truthy(f.category) {
      var keep := (p: Product) => p.category == f.category.value;
      assert Filter(filtered, keep) == Select(products, applied.(category := f.category)) by {
        Narrow(products, applied, applied.(category := f.category), keep);
      }
      filtered := Filter(filtered, keep);
    } else {
      assert filtered == Select(products, applied.(category := f.category)) by {
        SameSelection(products, applied, applied.(category := f.category));
      }
    }
    applied := applied.(category := f.category);
    assert filtered == Select(products, applied);

    if Truthy(f.brand) {
      var keep := (p: Product) => p.brand == f.brand.value;
      assert Filter(filtered, keep) == Select(products, applied.(brand := f.brand)) by {
        Narrow(products, applied, applied.(brand := f.brand), keep);
      }
      filtered := Filter(filtered, keep);
    } else {
      assert filtered == Select(products, applied.(brand := f.brand)) by {
        SameSelection(products, applied, applied.(brand := f.brand));
      }
    }
    applied := applied.(brand := f.brand);
    assert filtered == Select(products, applied);
    assert applied == TextPart(f);
  }

  /** The text and price criteria of `f`: everything but rating and stock. */
  function PricedPart(f: ProductFilters): ProductFilters {
    f.(rating := None, inStock := None)
  }

  /** The passes for the price bounds, active whenever the key is present
      (so a bound of 0 still filters). */
  method PricePasses(ghost products: seq<Product>, f: ProductFilters, textFiltered: seq<Product>)
    returns (filtered: seq<Product>)
    requires textFiltered == Select(products, TextPart(f))
    ensures filtered == Select(products, PricedPart(f))
  {
    filtered := textFiltered;
    ghost var applied := TextPart(f);

    if f.minPrice.Some? {
      var keep := (p: Product) => p.price >= f.minPrice.value;
      assert Filter(filtered, keep) == Select(products, applied.(minPrice := f.minPrice)) by {
        Narrow(products, applied, applied.(minPrice := f.minPrice), keep);
      }
      filtered := Filter(filtered, keep);
    }
    applied := applied.(minPrice := f.minPrice);
    assert filtered == Select(products, applied);

    if f.maxPrice.Some? {
      var keep := (p: Product) => p.price <= f.maxPrice.value;
      assert Filter(filtered, keep) == Select(products, applied.(maxPrice := f.maxPrice)) by {
        Narrow(products, applied, applied.(maxPrice := f.maxPrice), keep);
      }
      filtered := Filter(filtered, keep);
    }
    applied := applied.(maxPrice := f.maxPrice);
    assert applied == PricedPart(f);
  }

  /** The passes for the minimum rating and the stock flag, active whenever
      the key is present (so `inStock: false` keeps only unavailable items). */
  method QualityPasses(ghost products: seq<Product>, f: ProductFilters, pricedFiltered: seq<Product>)
    returns (filtered: seq<Product>)
    requires pricedFiltered == Select(products, PricedPart(f))
    ensures filtered == Select(products, f)
  {
    filtered := pricedFiltered;
    ghost var applied := PricedPart(f);

    if f.rating.Some? {
      var keep := (p: Product) => p.rating >= f.rating.value;
      assert Filter(filtered, keep) == Select(products, applied.(rating := f.rating)) by {
        Narrow(products, applied, applied.(rating := f.rating), keep);
      }
      filtered := Filter(filtered, keep);
    }
    applied := applied.(rating := f.rating);
    assert filtered == Select(products, applied);

    if f.inStock.Some? {
      var keep := (p: Product) => p.inStock == f.inStock.value;
      assert Filter(filtered, keep) == Select(products, applied.(inStock := f.inStock)) by {
        Narrow(products, applied, applied.(inStock := f.inStock), keep);
      }
      filtered := Filter(filtered, keep);
    }
    applied := applied.(inStock := f.inStock);
    assert applied == f;
  }

  class Store {
    var products: seq<Product>
    var filteredProducts: seq<Product>
    var filters: ProductFilters
    var sortBy: SortBy
    var isLoading: bool

    /** The initial state publishes the collection as given, unsorted. */
    constructor (catalog: seq<Product>)
      ensures products == catalog && filteredProducts == catalog
      ensures filters == NoFilters && sortBy == Name && !isLoading
    {
      products := catalog;
      filteredProducts := catalog;
      filters := NoFilters;
      sortBy := Name;
      isLoading := false;
    }

    /** The published list is the view of the current inputs. */
    ghost predicate Synced()
      reads this
    {
      filteredProducts == View(products, filters, sortBy)
    }

    /** `filterProducts`: copies `products`, narrows the copy by each active
        criterion in turn, orders it, and publishes it. Only the published
        list changes, and recomputing an up-to-date store changes nothing. */
    method FilterProducts()
      modifies this`filteredProducts
      ensures Synced()
      ensures old(Synced()) ==> filteredProducts == old(filteredProducts)
    {
      var filtered := FilterPhase(products, filters);

      match sortBy {
        case PriceLow => filtered := StableSort(PriceAsc, filtered);
        case PriceHigh => filtered := StableSort(PriceDesc, filtered);
        case Rating => filtered := StableSort(RatingDesc, filtered);
        case Newest => filtered := Reverse(filtered);
        case Name => filtered := StableSort(NameAsc, filtered);
      }
      filteredProducts := filtered;
    }

    /** `setProducts`: publishes the new list as it is, neither filtered nor
        sorted; filters and sort key are kept. */
    method SetProducts(list: seq<Product>)
      modifies this`products, this`filteredProducts
      ensures products == list && filteredProducts == list
    {
      products := list;
      filteredProducts := list;
    }

    /** `setFilters`: replaces the whole filter record, then recomputes. */
    method SetFilters(f: ProductFilters)
      modifies this`filters, this`filteredProducts
      ensures filters == f && Synced()
    {
      filters := f;
      FilterProducts();
    }

    method SetSortBy(order: SortBy)
      modifies this`sortBy, this`filteredProducts
      ensures sortBy == order && Synced()
    {
      sortBy := order;
      FilterProducts();
    }

    /** `clearFilters`: resets to `{}`, so every product is shown in the
        current order. */
    method ClearFilters()
      modifies this`filters, this`filteredProducts
      ensures filters == NoFilters && Synced()
      ensures filteredProducts == Arrange(sortBy, products)
    {
      filters := NoFilters;
      FilterProducts();
      ClearedView(products, sortBy);
    }

    /** `searchProducts`: replaces only the search text, then recomputes. */
    method SearchProducts(query: string)
      modifies this`filters, this`filteredProducts
      ensures filters == old(filters).(search := Some(query)) && Synced()
    {
      filters := filters.(search := Some(query));
      FilterProducts();
    }

    /** `getProductById`: looks in the whole collection, not in the view. */
    function GetProductById(id: string): (r: Option<Product>)
      reads this
      ensures r.None? <==> forall p :: p in products ==> p.id != id
      ensures r.Some? ==> r.value in products && r.value.id == id
    {
      FindById(products, id)
    }

    function GetRelatedProducts(productId: string, limit: int := 4): (r: seq<Product>)
      reads this
      ensures forall i :: 0 <= i < |r| ==> r[i] in products && r[i].id != productId
    {
      Related(products, productId, limit)
    }
  }
}
