/** The byte strings hashed into product and option identifiers. The digest itself is
    left abstract: what matters is which byte string is fed to it. */
module Product {
  import opened Machine
  import opened Sequences

  type Bytes = seq<u8>

  datatype MintPrice = MintPrice(mintUrl: Bytes, pricePerSecond: i64, pricePerUnit: i64, mintUnit: Bytes)

  // ---- Byte layout ----

  function Pow256(width: nat): nat { if width == 0 then 1 else 256 * Pow256(width - 1) }

  /** The low `width` bytes of `n`, most significant first. */
  function BigEndian(n: nat, width: nat): (b: Bytes)
    ensures |b| == width
  {
    if width == 0 then [] else BigEndian(n / 256, width - 1) + [n % 256]
  }

  function Length32(n: nat): Bytes { BigEndian(n % U32_COUNT, 4) }

  /** Two's complement. */
  function Signed64(x: i64): Bytes { BigEndian(if x < 0 then x + U64_COUNT else x, 8) }

  /** "tollgate/product-id/v1" */
  const PRODUCT_TAG: Bytes :=
    [116, 111, 108, 108, 103, 97, 116, 101, 47, 112, 114, 111, 100, 117, 99, 116, 45, 105, 100, 47, 118, 49]

  /** "tollgate/option-id/v1" */
  const OPTION_TAG: Bytes :=
    [116, 111, 108, 108, 103, 97, 116, 101, 47, 111, 112, 116, 105, 111, 110, 45, 105, 100, 47, 118, 49]

  function Prefixed(b: Bytes): Bytes { Length32(|b|) + b }

  function Entry(p: MintPrice): Bytes {
    Prefixed(p.mintUrl) + Signed64(p.pricePerSecond) + Signed64(p.pricePerUnit) + Prefixed(p.mintUnit)
  }

  function Entries(prices: seq<MintPrice>): Bytes
    decreases |prices|
  {
    if prices == [] then [] else Entries(prices[..|prices| - 1]) + Entry(prices[|prices| - 1])
  }

  function ProductPreimage(scale: u32, sorted: seq<MintPrice>, extensions: Bytes): Bytes {
    PRODUCT_TAG + BigEndian(scale, 4) + Length32(|sorted|) + Entries(sorted) + Prefixed(extensions)
  }

  function OptionPreimage(url: Bytes, unit: Bytes): Bytes {
    OPTION_TAG + Prefixed(url) + Prefixed(unit)
  }

  // ---- Sorting by URL bytes ----

  /** Byte-wise lexicographic order. */
  predicate LexLe(a: Bytes, b: Bytes)
    decreases |a|
  {
    a == [] || (b != [] && (a[0] < b[0] || (a[0] == b[0] && LexLe(a[1..], b[1..]))))
  }

  predicate SortedByUrl(s: seq<MintPrice>) {
    forall i, j :: 0 <= i < j < |s| ==> LexLe(s[i].mintUrl, s[j].mintUrl)
  }

  /** `s` is one of the orders an unstable sort by URL may leave `prices` in. */
  predicate IsSorting(s: seq<MintPrice>, prices: seq<MintPrice>) {
    SortedByUrl(s) && multiset(s) == multiset(prices)
  }

  lemma {:induction false} LexTotal(a: Bytes, b: Bytes)
    ensures LexLe(a, b) || LexLe(b, a)
    decreases |a|
  {
    if a != [] && b != [] {
      LexTotal(a[1..], b[1..]);
    }
  }

  lemma {:induction false} LexTransitive(a: Bytes, b: Bytes, c: Bytes)
    requires LexLe(a, b) && LexLe(b, c)
    ensures LexLe(a, c)
    decreases |a|
  {
    if a != [] && a[0] == b[0] == c[0] {
      LexTransitive(a[1..], b[1..], c[1..]);
    }
  }

  lemma {:induction false} LexAntisymmetric(a: Bytes, b: Bytes)
    requires LexLe(a, b) && LexLe(b, a)
    ensures a == b
    decreases |a|
  {
    if a != [] {
      LexAntisymmetric(a[1..], b[1..]);
      assert a == [a[0]] + a[1..] && b == [b[0]] + b[1..];
    }
  }

  /** Places one more price in URL order. */
  method InsertByUrl(sorted: seq<MintPrice>, p: MintPrice) returns (out: seq<MintPrice>)
    requires SortedByUrl(sorted)
    ensures SortedByUrl(out) && multiset(out) == multiset(sorted) + multiset{p}
  {
    var i := |sorted|;
    while i > 0 && !LexLe(sorted[i - 1].mintUrl, p.mintUrl)
      invariant 0 <= i <= |sorted|
      invariant forall k :: i <= k < |sorted| ==> LexLe(p.mintUrl, sorted[k].mintUrl)
    {
      LexTotal(sorted[i - 1].mintUrl, p.mintUrl);
      i := i - 1;
    }
    forall k | 0 <= k < i ensures LexLe(sorted[k].mintUrl, p.mintUrl) {
      if k < i - 1 {
        LexTransitive(sorted[k].mintUrl, sorted[i - 1].mintUrl, p.mintUrl);
      }
    }
    out := sorted[..i] + [p] + sorted[i..];
    InsertedInOrder(sorted, p, i);
  }

  lemma InsertedInOrder(sorted: seq<MintPrice>, p: MintPrice, i: nat)
    requires SortedByUrl(sorted) && i <= |sorted|
    requires forall k | 0 <= k < i :: LexLe(sorted[k].mintUrl, p.mintUrl)
    requires forall k | i <= k < |sorted| :: LexLe(p.mintUrl, sorted[k].mintUrl)
    ensures var out := sorted[..i] + [p] + sorted[i..];
            SortedByUrl(out) && multiset(out) == multiset(sorted) + multiset{p}
  {
    var out := sorted[..i] + [p] + sorted[i..];
    InsertedKeepsAll(sorted, p, i);
    forall a, b | 0 <= a < b < |out| ensures LexLe(out[a].mintUrl, out[b].mintUrl) {
      assert out[a] == if a < i then sorted[a] else if a == i then p else sorted[a - 1];
      assert out[b] == if b < i then sorted[b] else if b == i then p else sorted[b - 1];
    }
  }

  lemma InsertedKeepsAll(sorted: seq<MintPrice>, p: MintPrice, i: nat)
    requires i <= |sorted|
    ensures multiset(sorted[..i] + [p] + sorted[i..]) == multiset(sorted) + multiset{p}
  {
    SplitAt(sorted, 0, i);
    assert sorted[0..i] == sorted[..i] && sorted[0..] == sorted;
  }

  method SortByUrl(prices: seq<MintPrice>) returns (sorted: seq<MintPrice>)
    ensures IsSorting(sorted, prices)
  {
    sorted := [];
    var i := 0;
    while i < |prices|
      invariant 0 <= i <= |prices|
      invariant IsSorting(sorted, prices[..i])
    {
      sorted := InsertByUrl(sorted, prices[i]);
      assert prices[..i + 1] == prices[..i] + [prices[i]];
      i := i + 1;
    }
    assert prices[..i] == prices;
  }

  /** Feeds one price, field by field. */
  method FeedPrice(fed: Bytes, price: MintPrice) returns (out: Bytes)
    ensures out == fed + Entry(price)
  {
    out := fed + Length32(|price.mintUrl|);
    out := out + price.mintUrl;
    out := out + Signed64(price.pricePerSecond);
    out := out + Signed64(price.pricePerUnit);
    out := out + Length32(|price.mintUnit|);
    out := out + price.mintUnit;
    assert out == fed + Entry(price);
  }

  /** Feeds every price in turn. */
  method FeedPrices(header: Bytes, sorted: seq<MintPrice>) returns (fed: Bytes)
    ensures fed == header + Entries(sorted)
  {
    fed := header;
    var i := 0;
    while i < |sorted|
      invariant 0 <= i <= |sorted|
      invariant fed == header + Entries(sorted[..i])
    {
      fed := FeedPrice(fed, sorted[i]);
      assert sorted[..i + 1][..i] == sorted[..i];
      Regroup(header, Entries(sorted[..i]), Entry(sorted[i]));
      i := i + 1;
    }
    assert sorted[..i] == sorted;
  }

  /** What is fed to the hasher for a product: the layout of some sorting of its prices. */
  method ProductIdPreimage(scale: u32, prices: seq<MintPrice>, extensions: Bytes) returns (fed: Bytes)
    ensures exists sorted :: IsSorting(sorted, prices) && fed == ProductPreimage(scale, sorted, extensions)
  {
    var sorted := SortByUrl(prices);
    fed := PRODUCT_TAG;
    fed := fed + BigEndian(scale, 4);
    fed := fed + Length32(|sorted|);
    fed := FeedPrices(fed, sorted);
    ghost var body := fed;
    fed := fed + Length32(|extensions|);
    fed := fed + extensions;
    assert fed == body + Prefixed(extensions);
    assert fed == ProductPreimage(scale, sorted, extensions);
  }

  method OptionIdPreimage(url: Bytes, unit: Bytes) returns (fed: Bytes)
    ensures fed == OptionPreimage(url, unit)
  {
    fed := OPTION_TAG;
    fed := fed + Length32(|url|);
    fed := fed + url;
    fed := fed + Length32(|unit|);
    fed := fed + unit;
    assert fed == OPTION_TAG + (Length32(|url|) + url) + (Length32(|unit|) + unit);
  }
}
