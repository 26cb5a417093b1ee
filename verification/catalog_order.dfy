/** The ordering phase of the catalog query: one comparator per sort key, the
    stable sort that `Array.prototype.sort` is required to be, and the plain
    reversal used for "newest". */
module CatalogOrder {
  import opened Seqs
  import opened Catalog

  /** `a.localeCompare(b) <= 0`, read as lexicographic order on code points. */
  predicate NameLe(a: string, b: string) {
    a == [] || (b != [] && (a[0] < b[0] || (a[0] == b[0] && NameLe(a[1..], b[1..]))))
  }

  lemma {:induction false} NameLeTotal(a: string, b: string)
    ensures NameLe(a, b) || NameLe(b, a)
  {
    if a != [] && b != [] && a[0] == b[0] {
      NameLeTotal(a[1..], b[1..]);
    }
  }

  lemma {:induction false} NameLeTransitive(a: string, b: string, c: string)
    requires NameLe(a, b) && NameLe(b, c)
    ensures NameLe(a, c)
  {
    if a != [] && b != [] && c != [] && a[0] == b[0] && b[0] == c[0] {
      NameLeTransitive(a[1..], b[1..], c[1..]);
    }
  }

  /** Two names compare equal only when they are the same string. */
  lemma {:induction false} NameLeAntisymmetric(a: string, b: string)
    requires NameLe(a, b) && NameLe(b, a)
    ensures a == b
  {
    if a != [] && b != [] {
      NameLeAntisymmetric(a[1..], b[1..]);
      assert a == [a[0]] + a[1..] && b == [b[0]] + b[1..];
    }
  }

  /** Every name may stand before itself. */
  lemma {:induction false} NameLeReflexive(a: string)
    ensures NameLe(a, a)
  {
    if a != [] {
      NameLeReflexive(a[1..]);
    }
  }

  /** The four comparators of the source: name ascending, price ascending,
      price descending, rating descending. */
  datatype Key = NameAsc | PriceAsc | PriceDesc | RatingDesc

  /** `cmp(a, b) <= 0`: the comparator lets `a` stand before `b`. Price
      descending is price ascending with the arguments swapped, and a product
      may always stand next to itself. */
  predicate Precedes(k: Key, a: Product, b: Product): (r: bool)
    ensures k == PriceDesc ==> (r <==> b.price <= a.price)
    ensures a == b ==> r
  {
    NameLeReflexive(a.name);
    match k
    case NameAsc => NameLe(a.name, b.name)
    case PriceAsc => a.price <= b.price
    case PriceDesc => a.price >= b.price
    case RatingDesc => a.rating >= b.rating
  }

  /** `cmp(a, b) == 0`. */
  predicate Tie(k: Key, a: Product, b: Product) {
    Precedes(k, a, b) && Precedes(k, b, a)
  }

  lemma PrecedesTotal(k: Key, a: Product, b: Product)
    ensures Precedes(k, a, b) || Precedes(k, b, a)
  {
    if k == NameAsc {
      NameLeTotal(a.name, b.name);
    }
  }

  lemma PrecedesTransitive(k: Key, a: Product, b: Product, c: Product)
    requires Precedes(k, a, b) && Precedes(k, b, c)
    ensures Precedes(k, a, c)
  {
    if k == NameAsc {
      NameLeTransitive(a.name, b.name, c.name);
    }
  }

  predicate Ordered(k: Key, s: seq<Product>) {
    forall i, j :: 0 <= i < j < |s| ==> Precedes(k, s[i], s[j])
  }

  /** `x` may precede every element of `s`, and `s` is ordered. */
  lemma OrderedCons(k: Key, x: Product, s: seq<Product>)
    requires Ordered(k, s)
    requires forall j :: 0 <= j < |s| ==> Precedes(k, x, s[j])
    ensures Ordered(k, [x] + s)
  {
    var r := [x] + s;
    forall i, j | 0 <= i < j < |r| ensures Precedes(k, r[i], r[j]) {
      if i > 0 {
        assert r[i] == s[i - 1] && r[j] == s[j - 1];
      } else {
        assert r[j] == s[j - 1];
      }
    }
  }

  /** Places `x` in front of the first element it may precede. */
  function Insert(k: Key, x: Product, s: seq<Product>): seq<Product> {
    if s == [] || Precedes(k, x, s[0]) then [x] + s
    else [s[0]] + Insert(k, x, s[1..])
  }

  lemma {:induction false} InsertPermutes(k: Key, x: Product, s: seq<Product>)
    ensures multiset(Insert(k, x, s)) == multiset(s) + multiset{x}
  {
    if s != [] && !Precedes(k, x, s[0]) {
      InsertPermutes(k, x, s[1..]);
      assert s == [s[0]] + s[1..];
    }
  }

  lemma {:induction false} InsertOrdered(k: Key, x: Product, s: seq<Product>)
    requires Ordered(k, s)
    ensures Ordered(k, Insert(k, x, s))
  {
    if s == [] || Precedes(k, x, s[0]) {
      forall j | 0 <= j < |s| ensures Precedes(k, x, s[j]) {
        if j > 0 { PrecedesTransitive(k, x, s[0], s[j]); }
      }
      OrderedCons(k, x, s);
    } else {
      var tail := s[1..];
      assert Ordered(k, tail);
      var rest := Insert(k, x, tail);
      InsertOrdered(k, x, tail);
      InsertPermutes(k, x, tail);
      forall j | 0 <= j < |rest| ensures Precedes(k, s[0], rest[j]) {
        var e := rest[j];
        assert e in multiset(rest);
        if e == x {
          PrecedesTotal(k, x, s[0]);
        } else {
          assert e in multiset(tail);
          var i :| 0 <= i < |tail| && tail[i] == e;
          assert s[i + 1] == e;
        }
      }
      OrderedCons(k, s[0], rest);
    }
  }

  /** The model of `filtered.sort(cmp)`: a stable insertion sort. */
  function StableSort(k: Key, s: seq<Product>): (r: seq<Product>)
    ensures multiset(r) == multiset(s)
    ensures Ordered(k, r)
  {
    if s == [] then []
    else
      var sorted := StableSort(k, s[1..]);
      InsertPermutes(k, s[0], sorted);
      InsertOrdered(k, s[0], sorted);
      assert s == [s[0]] + s[1..];
      Insert(k, s[0], sorted)
  }

  /** The test "compares equal to `y`", to hand to `filter`. */
  function TiesWith(k: Key, y: Product): Product -> bool {
    e => Tie(k, e, y)
  }

  /** The elements of `s` that compare equal to `y`, in their order in `s`. */
  function TiedWith(k: Key, s: seq<Product>, y: Product): seq<Product> {
    Filter(s, TiesWith(k, y))
  }

  lemma {:induction false} InsertTies(k: Key, x: Product, s: seq<Product>, y: Product)
    ensures TiedWith(k, Insert(k, x, s), y) == (if Tie(k, x, y) then [x] else []) + TiedWith(k, s, y)
  {
    var t := TiesWith(k, y);
    var mine := if Tie(k, x, y) then [x] else [];
    if s == [] || Precedes(k, x, s[0]) {
      FilterAppend([x], s, t);
    } else {
      var head, tail := s[0], s[1..];
      assert s == [head] + tail;
      var rest := Insert(k, x, tail);
      assert Insert(k, x, s) == [head] + rest;
      InsertTies(k, x, tail, y);
      FilterAppend([head], rest, t);
      FilterAppend([head], tail, t);
      var one := Filter([head], t);
      if Tie(k, x, y) && Tie(k, head, y) {
        PrecedesTransitive(k, x, y, head);
        assert false;
      }
      assert TiedWith(k, Insert(k, x, s), y) == one + (mine + Filter(tail, t));
      assert TiedWith(k, s, y) == one + Filter(tail, t);
      SwapPastEmpty(one, mine, Filter(tail, t));
    }
  }

  lemma SwapPastEmpty(a: seq<Product>, b: seq<Product>, c: seq<Product>)
    requires a == [] || b == []
    ensures a + (b + c) == b + (a + c)
  {
  }

  /** Stability: the elements that compare equal to any `y` appear in the
      sorted sequence in the order they had before sorting. */
  lemma {:induction false} SortIsStable(k: Key, s: seq<Product>, y: Product)
    ensures TiedWith(k, StableSort(k, s), y) == TiedWith(k, s, y)
  {
    if s != [] {
      SortIsStable(k, s[1..], y);
      InsertTies(k, s[0], StableSort(k, s[1..]), y);
      FilterAppend([s[0]], s[1..], TiesWith(k, y));
      assert s == [s[0]] + s[1..];
    }
  }

  /** `filtered.reverse()`. */
  function Reverse(s: seq<Product>): (r: seq<Product>)
    ensures |r| == |s|
    ensures forall i :: 0 <= i < |s| ==> r[i] == s[|s| - 1 - i]
    ensures multiset(r) == multiset(s)
  {
    if s == [] then []
    else
      assert s == [s[0]] + s[1..];
      Reverse(s[1..]) + [s[0]]
  }

  /** The comparator a sort key selects; `newest` has none. */
  function KeyOf(order: SortBy): Key
    requires order != Newest
  {
    match order
    case Name => NameAsc
    case PriceLow => PriceAsc
    case PriceHigh => PriceDesc
    case Rating => RatingDesc
  }

  /** The sort phase: exactly one ordering for each sort key. */
  function Arrange(order: SortBy, s: seq<Product>): (r: seq<Product>)
    ensures multiset(r) == multiset(s)
    ensures forall p :: p in r <==> p in s
    ensures order != Newest ==> Ordered(KeyOf(order), r)
  {
    var r := if order == Newest then Reverse(s) else StableSort(KeyOf(order), s);
    assert forall p :: p in r <==> p in multiset(r);
    assert forall p :: p in s <==> p in multiset(s);
    r
  }

  /** What each sort key promises, spelled out field by field. */
  lemma ArrangeOrders(order: SortBy, s: seq<Product>)
    ensures var r := Arrange(order, s);
      && (order == Name ==> forall i, j :: 0 <= i < j < |r| ==> NameLe(r[i].name, r[j].name))
      && (order == PriceLow ==> forall i, j :: 0 <= i < j < |r| ==> r[i].price <= r[j].price)
      && (order == PriceHigh ==> forall i, j :: 0 <= i < j < |r| ==> r[i].price >= r[j].price)
      && (order == Rating ==> forall i, j :: 0 <= i < j < |r| ==> r[i].rating >= r[j].rating)
      && (order == Newest ==> |r| == |s| && forall i :: 0 <= i < |s| ==> r[i] == s[|s| - 1 - i])
  {
    var r := Arrange(order, s);
    if order != Newest {
      assert forall i, j :: 0 <= i < j < |r| ==> Precedes(KeyOf(order), r[i], r[j]);
    }
  }

  /** Ties keep their input order under every comparator-based key. */
  lemma ArrangeIsStable(order: SortBy, s: seq<Product>, y: Product)
    requires order != Newest
    ensures TiedWith(KeyOf(order), Arrange(order, s), y) == TiedWith(KeyOf(order), s, y)
  {
    SortIsStable(KeyOf(order), s, y);
  }
}
