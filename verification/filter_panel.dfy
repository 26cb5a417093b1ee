/** The shop's filter panel: each handler builds a new filter record from the
    current one and hands it to the store; the panel itself keeps only the
    typed search query and the price range being edited. */
module FilterPanel {
  import opened Wrappers
  import opened Seqs
  import opened Catalog

  /** The record the panel emits: the store's criteria plus the brand and
      colour lists, which the store keeps along with the rest but never reads. */
  datatype PanelFilters = PanelFilters(
    base: ProductFilters,
    brands: Option<seq<string>>,
    colors: Option<seq<string>>)

  /** `list || []`. */
  function OrEmpty(list: Option<seq<string>>): seq<string> {
    if list.Some? then list.value else []
  }

  /** The test `b => b !== id`. */
  function DiffersFrom(id: string): string -> bool {
    x => x != id
  }

  /** The brand or colour toggle: a listed id is removed (every occurrence),
      an unlisted one is appended at the end. */
  function Toggled(list: Option<seq<string>>, id: string): (r: seq<string>)
    ensures list.Some? && id in list.value ==>
      id !in r && forall x :: x in r <==> x in list.value && x != id
    ensures list.Some? && id in list.value ==> r == Filter(list.value, DiffersFrom(id))
    ensures !(list.Some? && id in list.value) ==> r == OrEmpty(list) + [id]
  {
    if list.Some? && id in list.value then Filter(list.value, DiffersFrom(id))
    else OrEmpty(list) + [id]
  }

  /** Toggling an unlisted id twice gives back the list it started from
      (an absent list comes back as `[]`). */
  lemma ToggleTwice(list: Option<seq<string>>, id: string)
    requires id !in OrEmpty(list)
    ensures Toggled(Some(Toggled(list, id)), id) == OrEmpty(list)
  {
    var start := OrEmpty(list);
    var once := Toggled(list, id);
    assert once == start + [id];
    assert id in once by { assert once[|start|] == id; }
    calc {
      Toggled(Some(once), id);
      Filter(start + [id], DiffersFrom(id));
      { FilterAppend(start, [id], DiffersFrom(id)); }
      Filter(start, DiffersFrom(id)) + Filter([id], DiffersFrom(id));
      { FilterKeepsAll(start, DiffersFrom(id)); FilterDropsAll([id], DiffersFrom(id)); }
      start + [];
    }
    assert start + [] == start;
  }

  /** `handleCategoryChange`: `'all'` clears the category, any other id sets
      it; every other key is copied. */
  function CategoryChanged(f: PanelFilters, categoryId: string): (r: PanelFilters)
    ensures r.base.category == (if categoryId == "all" then None else Some(categoryId))
    ensures r.base.(category := f.base.category) == f.base
    ensures r.brands == f.brands && r.colors == f.colors
  {
    f.(base := f.base.(category := if categoryId == "all" then None else Some(categoryId)))
  }

  /** `handleBrandChange`: only `brands` changes, so the store's selection
      does not. */
  function BrandChanged(f: PanelFilters, brandId: string): (r: PanelFilters)
    ensures r.brands == Some(Toggled(f.brands, brandId))
    ensures r.base == f.base && r.colors == f.colors
  {
    f.(brands := Some(Toggled(f.brands, brandId)))
  }

  /** `handleColorChange`: only `colors` changes, so the store's selection
      does not. */
  function ColorChanged(f: PanelFilters, colorId: string): (r: PanelFilters)
    ensures r.colors == Some(Toggled(f.colors, colorId))
    ensures r.base == f.base && r.brands == f.brands
  {
    f.(colors := Some(Toggled(f.colors, colorId)))
  }

  /** `handlePriceChange`: both bounds come from the range being edited;
      every other key is copied. */
  function PriceApplied(f: PanelFilters, low: real, high: real): (r: PanelFilters)
    ensures r.base.minPrice == Some(low) && r.base.maxPrice == Some(high)
    ensures r.base.(minPrice := f.base.minPrice, maxPrice := f.base.maxPrice) == f.base
    ensures r.brands == f.brands && r.colors == f.colors
  {
    f.(base := f.base.(minPrice := Some(low), maxPrice := Some(high)))
  }

  /** After applying a price range every visible product lies inside it. */
  lemma PriceAppliedBounds(products: seq<Product>, f: PanelFilters, low: real, high: real)
    ensures forall p :: p in Select(products, PriceApplied(f, low, high).base) ==> low <= p.price <= high
  {
  }

  /** The rating radio: sets `rating`, copies every other key. */
  function RatingSelected(f: PanelFilters, rating: real): (r: PanelFilters)
    ensures r.base.rating == Some(rating)
    ensures r.base.(rating := f.base.rating) == f.base
    ensures r.brands == f.brands && r.colors == f.colors
  {
    f.(base := f.base.(rating := Some(rating)))
  }

  /** The record `clearFilters` emits: no category, empty brand and colour
      lists, the full default price range, no rating, and no search, brand or
      stock key at all. */
  function Cleared(): (r: PanelFilters)
    ensures r.brands == Some([]) && r.colors == Some([])
    ensures r.base.category.None? && r.base.rating.None? && r.base.search.None?
    ensures forall p :: Matches(r.base, p) <==> 0.0 <= p.price <= 1000.0
  {
    PanelFilters(
      ProductFilters(None, None, Some(0.0), Some(1000.0), None, None, None),
      Some([]), Some([]))
  }

  /** The panel's "clear" is not the store's: its default price window still
      hides every product priced outside `[0, 1000]`. */
  lemma ClearedKeepsPriceWindow(products: seq<Product>)
    ensures forall p :: p in Select(products, Cleared().base) <==> p in products && 0.0 <= p.price <= 1000.0
  {
  }

  /** The initial price range `[filters.minPrice || 0, filters.maxPrice || 1000]`:
      `||` replaces an absent or zero bound by the default. */
  function InitialRange(f: PanelFilters): (r: (real, real))
    ensures r.0 == f.base.minPrice.GetOr(0.0)
    ensures r.1 == (if f.base.maxPrice.Some? && f.base.maxPrice.value != 0.0 then f.base.maxPrice.value else 1000.0)
    ensures f.base.maxPrice == Some(0.0) ==> r.1 == 1000.0
  {
    var low := if f.base.minPrice.Some? && f.base.minPrice.value != 0.0 then f.base.minPrice.value else 0.0;
    var high := if f.base.maxPrice.Some? && f.base.maxPrice.value != 0.0 then f.base.maxPrice.value else 1000.0;
    (low, high)
  }

  /** The panel's own state. The filter record is a property owned by the
      page, so every handler takes it as an argument and returns the record
      it emits. */
  class Panel {
    var searchQuery: string
    var priceRange: (real, real)

    constructor (filters: PanelFilters)
      ensures searchQuery == "" && priceRange == InitialRange(filters)
    {
      searchQuery := "";
      priceRange := InitialRange(filters);
    }

    /** Typing in the search box. */
    method EditQuery(text: string)
      modifies this
      ensures searchQuery == text && priceRange == old(priceRange)
    {
      searchQuery := text;
    }

    /** Editing the lower bound keeps the upper one. */
    method EditLow(value: real)
      modifies this
      ensures priceRange == (value, old(priceRange).1) && searchQuery == old(searchQuery)
    {
      priceRange := (value, priceRange.1);
    }

    /** Editing the upper bound keeps the lower one. */
    method EditHigh(value: real)
      modifies this
      ensures priceRange == (old(priceRange).0, value) && searchQuery == old(searchQuery)
    {
      priceRange := (priceRange.0, value);
    }

    /** `handleSearchSubmit`: the query goes to the store as typed. */
    method SubmitSearch() returns (query: string)
      ensures query == searchQuery
    {
      query := searchQuery;
    }

    /** `handlePriceChange`: emits the current range as both bounds. */
    method ApplyPrice(filters: PanelFilters) returns (emitted: PanelFilters)
      ensures emitted == PriceApplied(filters, priceRange.0, priceRange.1)
    {
      emitted := PriceApplied(filters, priceRange.0, priceRange.1);
    }

    /** `clearFilters`: emits the cleared record and resets the range and
      the query. */
    method ClearAll() returns (emitted: PanelFilters)
      modifies this
      ensures emitted == Cleared()
      ensures priceRange == (0.0, 1000.0) && searchQuery == ""
    {
      emitted := Cleared();
      priceRange := (0.0, 1000.0);
      searchQuery := "";
    }
  }
}
