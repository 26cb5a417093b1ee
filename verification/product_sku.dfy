/** The SKU shown on the product page: the prefix `FWM` followed by the
    product id left-padded with zeros to four characters
    (`` `FWM${id.padStart(4, '0')}` ``). */
module ProductSku {

  /** `n` copies of `c`. */
  function Repeat(c: char, n: nat): (r: string)
    ensures |r| == n
    ensures forall i :: 0 <= i < n ==> r[i] == c
  {
    if n == 0 then [] else [c] + Repeat(c, n - 1)
  }

  /** `s.padStart(width, fill)` for a one-character fill: a string already
      `width` long or longer is returned as is; a shorter one gets copies of
      `fill` in front up to exactly `width`. */
  function PadStart(s: string, width: nat, fill: char): (r: string)
    ensures |s| >= width ==> r == s
    ensures |s| < width ==> |r| == width
    ensures |s| < width ==> r[width - |s|..] == s
    ensures |s| < width ==> forall i :: 0 <= i < width - |s| ==> r[i] == fill
  {
    if |s| >= width then s else Repeat(fill, width - |s|) + s
  }

  const Prefix := "FWM"

  function Sku(id: string): (r: string)
    ensures |r| == 3 + (if |id| >= 4 then |id| else 4)
    ensures r[..3] == Prefix
    ensures |id| >= 4 ==> r[3..] == id
    ensures |id| < 4 ==> r[|r| - |id|..] == id
    ensures |id| < 4 ==> forall i :: 3 <= i < 7 - |id| ==> r[i] == '0'
  {
    var padded := PadStart(id, 4, '0');
    assert (Prefix + padded)[3..] == padded;
    Prefix + padded
  }

  /** Ids of the same length get different SKUs. */
  lemma SkuInjective(a: string, b: string)
    requires |a| == |b| && a != b
    ensures Sku(a) != Sku(b)
  {
    var n := |Sku(a)|;
    assert Sku(a)[n - |a|..] == a;
    assert Sku(b)[n - |b|..] == b;
  }

  /** Ids of different lengths can share a SKU: the padding hides leading
      zeros. */
  lemma PaddingCollides()
    ensures Sku("7") == Sku("0007")
  {
    assert PadStart("7", 4, '0') == "0007" by {
      assert Repeat('0', 3) == "000";
    }
  }
}
