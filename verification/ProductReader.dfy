/** A reader of the hashed layouts, written from the layouts alone: most significant byte first, two's complement,
    every field behind its length. What is hashed reads back as what was put in. */
module ProductReader {
  import opened Machine
  import opened Wrappers
  import opened Sequences
  import opened Product
  import opened ProductLaws

  // ---- The reader ----

  /** The characters' codes. */
  function Ascii(s: string): seq<int> { seq(|s|, i requires 0 <= i < |s| => s[i] as int) }

  /** Digits to base 256, the first the most significant. */
  function ReadUint(b: Bytes): nat
    decreases |b|
  {
    if b == [] then 0 else 256 * ReadUint(b[..|b| - 1]) + b[|b| - 1]
  }

  function ReadInt64(b: Bytes): int {
    var v := ReadUint(b);
    if v < 0x8000_0000_0000_0000 then v else v - 0x1_0000_0000_0000_0000
  }

  /** A field behind its four-byte length, and what follows it. */
  function ReadField(b: Bytes): Option<(Bytes, Bytes)> {
    if |b| < 4 then None
    else
      var end := 4 + ReadUint(b[..4]);
      if |b| < end then None else Some((b[4..end], b[end..]))
  }

  function ReadPrice(b: Bytes): Option<(MintPrice, Bytes)> {
    match ReadField(b)
    case None => None
    case Some((url, fixed)) =>
      if |fixed| < 16 then None
      else
        var perSecond, perUnit := ReadInt64(fixed[..8]), ReadInt64(fixed[8..16]);
        match ReadField(fixed[16..])
        case None => None
        case Some((unit, rest)) =>
          if I64_MIN <= perSecond <= I64_MAX && I64_MIN <= perUnit <= I64_MAX
          then Some((MintPrice(url, perSecond, perUnit, unit), rest)) else None
  }

  function ReadPrices(b: Bytes, count: nat): Option<(seq<MintPrice>, Bytes)> {
    if count == 0 then Some(([], b))
    else
      match ReadPrice(b)
      case None => None
      case Some((price, rest)) =>
        match ReadPrices(rest, count - 1)
        case None => None
        case Some((prices, rest')) => Some(([price] + prices, rest'))
  }

  /** Tag, scale, number of prices, the prices, extensions, and nothing after that. */
  function ReadProduct(b: Bytes): Option<(nat, seq<MintPrice>, Bytes)> {
    if |b| < 30 || b[..22] != Ascii("tollgate/product-id/v1") then None
    else
      match ReadPrices(b[30..], ReadUint(b[26..30]))
      case None => None
      case Some((prices, rest)) =>
        match ReadField(rest)
        case None => None
        case Some((extensions, end)) => if end == [] then Some((ReadUint(b[22..26]), prices, extensions)) else None
  }

  function ReadOption(b: Bytes): Option<(Bytes, Bytes)> {
    if |b| < 21 || b[..21] != Ascii("tollgate/option-id/v1") then None
    else
      match ReadField(b[21..])
      case None => None
      case Some((url, rest)) =>
        match ReadField(rest)
        case None => None
        case Some((unit, end)) => if end == [] then Some((url, unit)) else None
  }

  // ---- What is fed reads back ----

  lemma {:induction false} BigEndianReads(n: nat, width: nat)
    requires n < Pow256(width)
    ensures ReadUint(BigEndian(n, width)) == n
    decreases width
  {
    if 0 < width {
      BigEndianReads(n / 256, width - 1);
      assert BigEndian(n, width)[..width - 1] == BigEndian(n / 256, width - 1);
    }
  }

  /** The digits one by one. */
  lemma {:induction false} BigEndianDigit(n: nat, width: nat, i: nat)
    requires i < width
    ensures 0 < Pow256(width - 1 - i)
    ensures BigEndian(n, width)[i] == n / Pow256(width - 1 - i) % 256
    decreases width
  {
    PowPositive(width - 1 - i);
    if i < width - 1 {
      BigEndianDigit(n / 256, width - 1, i);
      var p := Pow256(width - 2 - i);
      DivDiv(n, p);
    }
  }

  lemma {:induction false} PowPositive(width: nat)
    ensures 0 < Pow256(width)
  {
    if 0 < width {
      PowPositive(width - 1);
    }
  }

  lemma DivDiv(n: nat, p: nat)
    requires 0 < p
    ensures n / 256 / p == n / (256 * p)
  {
    var q := n / 256 / p;
    var r := n / 256 - q * p;
    assert 0 <= r < p;
    assert n == 256 * (q * p + r) + n % 256;
    assert 256 * (q * p) == q * (256 * p);
    assert 0 <= 256 * r + n % 256 < 256 * p;
    Quotient(n, 256 * p, q, 256 * r + n % 256);
  }

  lemma Quotient(n: nat, d: nat, q: nat, r: nat)
    requires 0 < d && n == q * d + r && r < d
    ensures n / d == q
  {
    var q' := n / d;
    assert n == q' * d + n % d;
    assert (q + 1) * d == q * d + d && (q' + 1) * d == q' * d + d;
    if q < q' {
      MulMonotone(q + 1, q', d);
      assert false;
    } else if q' < q {
      MulMonotone(q' + 1, q, d);
      assert false;
    }
  }

  lemma FieldReads(field: Bytes, rest: Bytes)
    requires |field| < U32_COUNT
    ensures ReadField(Prefixed(field) + rest) == Some((field, rest))
  {
    NumberReads(|field|);
    FieldParts(Length32(|field|), field, rest);
  }

  lemma NumberReads(n: u32)
    ensures ReadUint(BigEndian(n, 4)) == n && Length32(n) == BigEndian(n, 4)
  {
    WidthOfU32();
    BigEndianReads(n, 4);
  }

  lemma FieldParts(length: Bytes, field: Bytes, rest: Bytes)
    requires |length| == 4
    ensures var b := length + field + rest;
            b[..4] == length && b[4..4 + |field|] == field && b[4 + |field|..] == rest
  {
  }

  lemma SignedReads(x: i64)
    ensures ReadInt64(Signed64(x)) == x
  {
    WidthOfU64();
    BigEndianReads(if x < 0 then x + U64_COUNT else x, 8);
  }

  lemma PriceReads(p: MintPrice, rest: Bytes)
    requires |p.mintUrl| < U32_COUNT && |p.mintUnit| < U32_COUNT
    ensures ReadPrice(Entry(p) + rest) == Some((p, rest))
  {
    var tail := Prefixed(p.mintUnit) + rest;
    var fixed := Signed64(p.pricePerSecond) + (Signed64(p.pricePerUnit) + tail);
    EntryLayout(p, rest);
    FieldReads(p.mintUrl, fixed);
    assert fixed[..8] == Signed64(p.pricePerSecond) && fixed[8..16] == Signed64(p.pricePerUnit) && fixed[16..] == tail;
    SignedReads(p.pricePerSecond);
    SignedReads(p.pricePerUnit);
    FieldReads(p.mintUnit, rest);
  }

  lemma {:induction false} PricesRead(ps: seq<MintPrice>, rest: Bytes)
    requires FitsU32(ps, [])
    ensures ReadPrices(Entries(ps) + rest, |ps|) == Some((ps, rest))
    decreases |ps|
  {
    if ps == [] {
      assert Entries(ps) + rest == rest;
    } else {
      EntriesFromFront(ps);
      Regroup(Entry(ps[0]), Entries(ps[1..]), rest);
      PriceReads(ps[0], Entries(ps[1..]) + rest);
      PricesRead(ps[1..], rest);
      HeadAndTail(ps);
    }
  }

  /** The bytes hashed for a product read back, by the layout, as its scale, its prices in order and its extensions. */
  lemma ProductReads(scale: u32, ps: seq<MintPrice>, extensions: Bytes)
    requires FitsU32(ps, extensions)
    ensures ReadProduct(ProductPreimage(scale, ps, extensions)) == Some((scale, ps, extensions))
  {
    var b := ProductPreimage(scale, ps, extensions);
    var rest := Entries(ps) + Prefixed(extensions);
    ProductLayout(scale, ps, extensions);
    NumberReads(scale);
    NumberReads(|ps|);
    TagsSpell();
    HeaderParts(PRODUCT_TAG, BigEndian(scale, 4), Length32(|ps|), rest);
    PricesRead(ps, Prefixed(extensions));
    FieldReads(extensions, []);
    assert Prefixed(extensions) + [] == Prefixed(extensions);
  }

  lemma HeaderParts(tag: Bytes, scale: Bytes, count: Bytes, rest: Bytes)
    requires |tag| == 22 && |scale| == 4 && |count| == 4
    ensures var b := tag + (scale + (count + rest));
            |b| >= 30 && b[..22] == tag && b[22..26] == scale && b[26..30] == count && b[30..] == rest
  {
  }

  lemma TagsSpell()
    ensures PRODUCT_TAG == Ascii("tollgate/product-id/v1")
    ensures OPTION_TAG == Ascii("tollgate/option-id/v1")
  {
  }

  /** The bytes hashed for an option read back as its URL and unit. */
  lemma OptionReads(url: Bytes, unit: Bytes)
    requires |url| < U32_COUNT && |unit| < U32_COUNT
    ensures ReadOption(OptionPreimage(url, unit)) == Some((url, unit))
  {
    var b := OptionPreimage(url, unit);
    TagsSpell();
    Regroup(OPTION_TAG, Prefixed(url), Prefixed(unit));
    assert b[..21] == OPTION_TAG && b[21..] == Prefixed(url) + Prefixed(unit);
    FieldReads(url, Prefixed(unit));
    FieldReads(unit, []);
    assert Prefixed(unit) + [] == Prefixed(unit);
  }

  // ---- URL order ----

  /** One is the beginning of the other, or smaller in the first byte in which they differ. */
  predicate FirstDifferenceLess(a: Bytes, b: Bytes) {
    || (|a| <= |b| && a == b[..|a|])
    || exists i :: 0 <= i < |a| && i < |b| && a[..i] == b[..i] && a[i] < b[i]
  }

  lemma SameHead(x: u8, a: Bytes, b: Bytes)
    ensures FirstDifferenceLess([x] + a, [x] + b) <==> FirstDifferenceLess(a, b)
  {
    var xa, xb := [x] + a, [x] + b;
    if i :| 0 <= i < |a| && i < |b| && a[..i] == b[..i] && a[i] < b[i] {
      assert xa[..i + 1] == [x] + a[..i] && xb[..i + 1] == [x] + b[..i];
      assert xa[i + 1] < xb[i + 1];
    }
    if i :| 0 <= i < |xa| && i < |xb| && xa[..i] == xb[..i] && xa[i] < xb[i] {
      assert a[..i - 1] == xa[..i][1..] && b[..i - 1] == xb[..i][1..];
      assert a[i - 1] < b[i - 1];
    }
    assert |a| <= |b| ==> xb[..|xa|] == [x] + b[..|a|];
    assert |a| <= |b| ==> b[..|a|] == xb[..|xa|][1..] && a == xa[1..];
  }

  lemma OtherHead(a: Bytes, b: Bytes)
    requires a != [] && b != [] && a[0] != b[0]
    ensures FirstDifferenceLess(a, b) <==> a[0] < b[0]
  {
    assert a[..0] == b[..0];
    forall i | 0 < i <= |a| && i <= |b| ensures a[..i] != b[..i] {
      assert a[..i][0] == a[0] && b[..i][0] == b[0];
    }
    assert a[..|a|] == a;
  }

  /** The first byte in which two URLs differ decides; a URL comes before its continuations. */
  lemma {:induction false} OrderedByFirstDifference(a: Bytes, b: Bytes)
    ensures LexLe(a, b) <==> FirstDifferenceLess(a, b)
    decreases |a|
  {
    if a != [] && b != [] {
      if a[0] == b[0] {
        OrderedByFirstDifference(a[1..], b[1..]);
        HeadAndTail(a);
        HeadAndTail(b);
        SameHead(a[0], a[1..], b[1..]);
      } else {
        OtherHead(a, b);
      }
    }
  }
}
