/** The product preimage is canonical and injective, and never clashes with an option preimage. */
module ProductLaws {
  import opened Machine
  import opened Sequences
  import opened Product

  // ---- Order independence ----

  /** Prices under one URL are one and the same price. */
  predicate UrlsIdentify(prices: seq<MintPrice>) {
    forall p, q :: p in prices && q in prices && p.mintUrl == q.mintUrl ==> p == q
  }

  /** Among prices identified by their URL there is only one sorting. */
  lemma {:induction false} SortingUnique(a: seq<MintPrice>, b: seq<MintPrice>)
    requires SortedByUrl(a) && SortedByUrl(b) && multiset(a) == multiset(b) && UrlsIdentify(a)
    ensures a == b
    decreases |a|
  {
    assert |multiset(a)| == |a| && |multiset(b)| == |b|;
    if a != [] {
      FirstsAgree(a, b);
      TailsAgree(a, b);
      SortingUnique(a[1..], b[1..]);
      assert a == [a[0]] + a[1..] && b == [b[0]] + b[1..];
    }
  }

  lemma FirstsAgree(a: seq<MintPrice>, b: seq<MintPrice>)
    requires a != [] && b != []
    requires SortedByUrl(a) && SortedByUrl(b) && multiset(a) == multiset(b) && UrlsIdentify(a)
    ensures a[0] == b[0]
  {
    assert a[0] in multiset(b) && b[0] in multiset(a);
    FirstIsLeast(a, b[0]);
    FirstIsLeast(b, a[0]);
    LexAntisymmetric(a[0].mintUrl, b[0].mintUrl);
  }

  lemma TailsAgree(a: seq<MintPrice>, b: seq<MintPrice>)
    requires a != [] && b != [] && a[0] == b[0] && multiset(a) == multiset(b)
    ensures multiset(a[1..]) == multiset(b[1..])
  {
    assert a == [a[0]] + a[1..] && b == [b[0]] + b[1..];
    assert multiset(a[1..]) == multiset(a) - multiset{a[0]};
    assert multiset(b[1..]) == multiset(b) - multiset{b[0]};
  }

  lemma FirstIsLeast(s: seq<MintPrice>, p: MintPrice)
    requires SortedByUrl(s) && p in s
    ensures LexLe(s[0].mintUrl, p.mintUrl)
  {
    var k :| 0 <= k < |s| && s[k] == p;
    if k == 0 {
      LexTotal(p.mintUrl, p.mintUrl);
    }
  }

  /** The identifier cannot depend on declaration order: whenever no URL carries two different
      prices, any two declarations of the same prices feed the hasher the same bytes. */
  lemma OrderIndependent(scale: u32, declared: seq<MintPrice>, redeclared: seq<MintPrice>, extensions: Bytes,
                         sorted: seq<MintPrice>, resorted: seq<MintPrice>)
    requires UrlsIdentify(declared) && multiset(declared) == multiset(redeclared)
    requires IsSorting(sorted, declared) && IsSorting(resorted, redeclared)
    ensures ProductPreimage(scale, sorted, extensions) == ProductPreimage(scale, resorted, extensions)
  {
    assert forall p :: p in sorted ==> p in multiset(declared);
    SortingUnique(sorted, resorted);
  }

  /** The condition is exact: with lengths that fit their 32-bit prefixes, the bytes are determined
      by the declared prices if and only if no URL carries two different prices. */
  lemma {:induction false} CanonicalIff(scale: u32, prices: seq<MintPrice>, extensions: Bytes)
    requires FitsU32(prices, extensions)
    ensures (forall s, t | IsSorting(s, prices) && IsSorting(t, prices) ::
               ProductPreimage(scale, s, extensions) == ProductPreimage(scale, t, extensions))
            <==> UrlsIdentify(prices)
  {
    if UrlsIdentify(prices) {
      forall s, t | IsSorting(s, prices) && IsSorting(t, prices)
        ensures ProductPreimage(scale, s, extensions) == ProductPreimage(scale, t, extensions)
      {
        OrderIndependent(scale, prices, prices, extensions, s, t);
      }
    } else {
      var s, t := TwoSortings(prices);
      SortingFits(s, prices, extensions);
      SortingFits(t, prices, extensions);
      if ProductPreimage(scale, s, extensions) == ProductPreimage(scale, t, extensions) {
        Injective(scale, s, extensions, scale, t, extensions);
      }
    }
  }

  /** A URL with two different prices leaves the sort free to order them either way. */
  lemma TwoSortings(prices: seq<MintPrice>) returns (s: seq<MintPrice>, t: seq<MintPrice>)
    requires !UrlsIdentify(prices)
    ensures IsSorting(s, prices) && IsSorting(t, prices) && s != t
  {
    s := SomeSorting(prices);
    var p, q :| p in prices && q in prices && p.mintUrl == q.mintUrl && p != q;
    assert p in multiset(s) && q in multiset(s);
    var i :| 0 <= i < |s| && s[i] == p;
    var j :| 0 <= j < |s| && s[j] == q;
    t := s[i := q][j := p];
    assert multiset(t) == multiset(s);
    forall k, l | 0 <= k < l < |t| ensures LexLe(t[k].mintUrl, t[l].mintUrl) {
      assert t[k].mintUrl == s[k].mintUrl && t[l].mintUrl == s[l].mintUrl;
    }
  }

  lemma {:induction false} SomeSorting(prices: seq<MintPrice>) returns (s: seq<MintPrice>)
    ensures IsSorting(s, prices)
    decreases |prices|
  {
    if prices == [] {
      s := [];
    } else {
      var n := |prices| - 1;
      var rest := SomeSorting(prices[..n]);
      s := Inserted(rest, prices[n]);
      assert prices == prices[..n] + [prices[n]];
    }
  }

  lemma StaysSorted(p: MintPrice, rest: seq<MintPrice>)
    requires SortedByUrl(rest) && forall k | 0 <= k < |rest| :: LexLe(p.mintUrl, rest[k].mintUrl)
    ensures SortedByUrl([p] + rest)
  {
  }

  lemma {:induction false} Inserted(sorted: seq<MintPrice>, p: MintPrice) returns (s: seq<MintPrice>)
    requires SortedByUrl(sorted)
    ensures SortedByUrl(s) && multiset(s) == multiset(sorted) + multiset{p}
    decreases |sorted|
  {
    if sorted == [] || LexLe(p.mintUrl, sorted[0].mintUrl) {
      s := [p] + sorted;
      forall k | 0 <= k < |sorted| ensures LexLe(p.mintUrl, sorted[k].mintUrl) {
        FirstIsLeast(sorted, sorted[k]);
        LexTransitive(p.mintUrl, sorted[0].mintUrl, sorted[k].mintUrl);
      }
    } else {
      LexTotal(p.mintUrl, sorted[0].mintUrl);
      var rest := Inserted(sorted[1..], p);
      s := [sorted[0]] + rest;
      HeadAndTail(sorted);
      forall k | 0 <= k < |rest| ensures LexLe(sorted[0].mintUrl, rest[k].mintUrl) {
        assert rest[k] in multiset(rest);
        if rest[k] != p {
          assert rest[k] in sorted[1..];
        }
      }
      StaysSorted(sorted[0], rest);
    }
  }

  // ---- Injectivity ----

  predicate FitsU32(prices: seq<MintPrice>, extensions: Bytes) {
    && |prices| < U32_COUNT && |extensions| < U32_COUNT
    && forall p | p in prices :: |p.mintUrl| < U32_COUNT && |p.mintUnit| < U32_COUNT
  }

  lemma SortingFits(s: seq<MintPrice>, prices: seq<MintPrice>, extensions: Bytes)
    requires IsSorting(s, prices) && FitsU32(prices, extensions)
    ensures FitsU32(s, extensions)
  {
    assert |multiset(s)| == |s| && |multiset(prices)| == |prices|;
    assert forall p | p in s :: p in multiset(prices);
  }

  lemma {:induction false} BigEndianInjective(m: nat, n: nat, width: nat)
    requires m < Pow256(width) && n < Pow256(width) && BigEndian(m, width) == BigEndian(n, width)
    ensures m == n
    decreases width
  {
    if width > 0 {
      var a, b := BigEndian(m / 256, width - 1), BigEndian(n / 256, width - 1);
      assert (a + [m % 256])[..width - 1] == a && (b + [n % 256])[..width - 1] == b;
      assert (a + [m % 256])[width - 1] == m % 256 && (b + [n % 256])[width - 1] == n % 256;
      BigEndianInjective(m / 256, n / 256, width - 1);
    }
  }

  /** Equal concatenations with equally long heads agree part by part. */
  lemma SplitEqual(a: Bytes, b: Bytes, c: Bytes, d: Bytes)
    requires a + b == c + d && |a| == |c|
    ensures a == c && b == d
  {
    assert a == (a + b)[..|a|] && c == (c + d)[..|a|];
    assert b == (a + b)[|a|..] && d == (c + d)[|a|..];
  }

  lemma WidthOfU32()
    ensures Pow256(4) == U32_COUNT
  {
    assert Pow256(2) == 65536;
  }

  lemma WidthOfU64()
    ensures Pow256(8) == U64_COUNT
  {
    WidthOfU32();
    assert Pow256(6) == 65536 * U32_COUNT;
  }

  lemma PrefixedInjective(a: Bytes, rest: Bytes, b: Bytes, rest': Bytes)
    requires |a| < U32_COUNT && |b| < U32_COUNT
    requires Prefixed(a) + rest == Prefixed(b) + rest'
    ensures a == b && rest == rest'
  {
    Regroup(Length32(|a|), a, rest);
    Regroup(Length32(|b|), b, rest');
    SplitEqual(Length32(|a|), a + rest, Length32(|b|), b + rest');
    LengthInjective(|a|, |b|);
    SplitEqual(a, rest, b, rest');
  }

  lemma LengthInjective(m: nat, n: nat)
    requires m < U32_COUNT && n < U32_COUNT && Length32(m) == Length32(n)
    ensures m == n
  {
    assert m % U32_COUNT == m && n % U32_COUNT == n;
    ScaleInjective(m, n);
  }

  lemma Signed64Injective(x: i64, y: i64)
    requires Signed64(x) == Signed64(y)
    ensures x == y
  {
    WidthOfU64();
    BigEndianInjective(if x < 0 then x + U64_COUNT else x, if y < 0 then y + U64_COUNT else y, 8);
  }

  lemma EntryInjective(p: MintPrice, rest: Bytes, q: MintPrice, rest': Bytes)
    requires |p.mintUrl| < U32_COUNT && |p.mintUnit| < U32_COUNT && |q.mintUrl| < U32_COUNT && |q.mintUnit| < U32_COUNT
    requires Entry(p) + rest == Entry(q) + rest'
    ensures p == q && rest == rest'
  {
    var p1, q1 := Prefixed(p.mintUnit) + rest, Prefixed(q.mintUnit) + rest';
    var p2, q2 := Signed64(p.pricePerUnit) + p1, Signed64(q.pricePerUnit) + q1;
    var p3, q3 := Signed64(p.pricePerSecond) + p2, Signed64(q.pricePerSecond) + q2;
    EntryLayout(p, rest);
    EntryLayout(q, rest');
    PrefixedInjective(p.mintUrl, p3, q.mintUrl, q3);
    SplitEqual(Signed64(p.pricePerSecond), p2, Signed64(q.pricePerSecond), q2);
    SplitEqual(Signed64(p.pricePerUnit), p1, Signed64(q.pricePerUnit), q1);
    Signed64Injective(p.pricePerSecond, q.pricePerSecond);
    Signed64Injective(p.pricePerUnit, q.pricePerUnit);
    PrefixedInjective(p.mintUnit, rest, q.mintUnit, rest');
  }

  lemma EntryLayout(p: MintPrice, rest: Bytes)
    ensures Entry(p) + rest
         == Prefixed(p.mintUrl) + (Signed64(p.pricePerSecond) + (Signed64(p.pricePerUnit) + (Prefixed(p.mintUnit) + rest)))
  {
    var a, b, c, d := Prefixed(p.mintUrl), Signed64(p.pricePerSecond), Signed64(p.pricePerUnit), Prefixed(p.mintUnit);
    Regroup(a + b + c, d, rest);
    Regroup(a + b, c, d + rest);
    Regroup(a, b, c + (d + rest));
  }

  lemma {:induction false} EntriesFromFront(prices: seq<MintPrice>)
    requires prices != []
    ensures Entries(prices) == Entry(prices[0]) + Entries(prices[1..])
    decreases |prices|
  {
    var n := |prices| - 1;
    if n == 0 {
      assert Entries(prices[..0]) == [] && Entries(prices[1..]) == [];
    } else {
      EntriesFromFront(prices[..n]);
      assert prices[..n][1..] == prices[1..][..n - 1];
      Regroup(Entry(prices[0]), Entries(prices[1..][..n - 1]), Entry(prices[n]));
      assert Entries(prices[1..]) == Entries(prices[1..][..n - 1]) + Entry(prices[n]);
    }
  }

  lemma {:induction false} EntriesInjective(ps: seq<MintPrice>, rest: Bytes, qs: seq<MintPrice>, rest': Bytes)
    requires |ps| == |qs| && FitsU32(ps, []) && FitsU32(qs, [])
    requires Entries(ps) + rest == Entries(qs) + rest'
    ensures ps == qs && rest == rest'
    decreases |ps|
  {
    if ps == [] {
      assert [] + rest == rest && [] + rest' == rest';
    } else {
      EntriesFromFront(ps);
      EntriesFromFront(qs);
      var p1, q1 := Entries(ps[1..]) + rest, Entries(qs[1..]) + rest';
      Regroup(Entry(ps[0]), Entries(ps[1..]), rest);
      Regroup(Entry(qs[0]), Entries(qs[1..]), rest');
      EntryInjective(ps[0], p1, qs[0], q1);
      EntriesInjective(ps[1..], rest, qs[1..], rest');
      HeadAndTail(ps);
      HeadAndTail(qs);
    }
  }

  /** Any change to scale, prices or extensions changes the bytes that are hashed. */
  lemma {:induction false} Injective(scale: u32, ps: seq<MintPrice>, ext: Bytes, scale': u32, qs: seq<MintPrice>, ext': Bytes)
    requires FitsU32(ps, ext) && FitsU32(qs, ext')
    requires ProductPreimage(scale, ps, ext) == ProductPreimage(scale', qs, ext')
    ensures scale == scale' && ps == qs && ext == ext'
  {
    ProductLayout(scale, ps, ext);
    ProductLayout(scale', qs, ext');
    HeaderInjective(scale, |ps|, Entries(ps) + Prefixed(ext), scale', |qs|, Entries(qs) + Prefixed(ext'));
    EntriesInjective(ps, Prefixed(ext), qs, Prefixed(ext'));
    PrefixedAlone(ext, ext');
  }

  lemma ProductLayout(scale: u32, ps: seq<MintPrice>, ext: Bytes)
    ensures ProductPreimage(scale, ps, ext)
            == PRODUCT_TAG + (BigEndian(scale, 4) + (Length32(|ps|) + (Entries(ps) + Prefixed(ext))))
  {
    Regroup(PRODUCT_TAG + BigEndian(scale, 4) + Length32(|ps|), Entries(ps), Prefixed(ext));
    Regroup(PRODUCT_TAG + BigEndian(scale, 4), Length32(|ps|), Entries(ps) + Prefixed(ext));
    Regroup(PRODUCT_TAG, BigEndian(scale, 4), Length32(|ps|) + (Entries(ps) + Prefixed(ext)));
  }

  lemma HeaderInjective(scale: u32, count: nat, body: Bytes, scale': u32, count': nat, body': Bytes)
    requires count < U32_COUNT && count' < U32_COUNT
    requires PRODUCT_TAG + (BigEndian(scale, 4) + (Length32(count) + body))
          == PRODUCT_TAG + (BigEndian(scale', 4) + (Length32(count') + body'))
    ensures scale == scale' && count == count' && body == body'
  {
    var a, b := Length32(count) + body, Length32(count') + body';
    SplitEqual(PRODUCT_TAG, BigEndian(scale, 4) + a, PRODUCT_TAG, BigEndian(scale', 4) + b);
    SplitEqual(BigEndian(scale, 4), a, BigEndian(scale', 4), b);
    SplitEqual(Length32(count), body, Length32(count'), body');
    ScaleInjective(scale, scale');
    LengthInjective(count, count');
  }

  lemma ScaleInjective(m: u32, n: u32)
    requires BigEndian(m, 4) == BigEndian(n, 4)
    ensures m == n
  {
    WidthOfU32();
    BigEndianInjective(m, n, 4);
  }

  /** An option identifier names exactly one pair of mint URL and unit. */
  lemma OptionInjective(url: Bytes, unit: Bytes, url': Bytes, unit': Bytes)
    requires |url| < U32_COUNT && |unit| < U32_COUNT && |url'| < U32_COUNT && |unit'| < U32_COUNT
    ensures OptionPreimage(url, unit) == OptionPreimage(url', unit') <==> url == url' && unit == unit'
  {
    if OptionPreimage(url, unit) == OptionPreimage(url', unit') {
      Regroup(OPTION_TAG, Prefixed(url), Prefixed(unit));
      Regroup(OPTION_TAG, Prefixed(url'), Prefixed(unit'));
      SplitEqual(OPTION_TAG, Prefixed(url) + Prefixed(unit), OPTION_TAG, Prefixed(url') + Prefixed(unit'));
      PrefixedInjective(url, Prefixed(unit), url', Prefixed(unit'));
      PrefixedAlone(unit, unit');
    }
  }

  lemma PrefixedAlone(a: Bytes, b: Bytes)
    requires |a| < U32_COUNT && |b| < U32_COUNT && Prefixed(a) == Prefixed(b)
    ensures a == b
  {
    assert Prefixed(a) + [] == Prefixed(a) && Prefixed(b) + [] == Prefixed(b);
    PrefixedInjective(a, [], b, []);
  }

  /** No product shares its hashed bytes with an option, whatever their contents. */
  lemma DomainsDisjoint(scale: u32, prices: seq<MintPrice>, extensions: Bytes, url: Bytes, unit: Bytes)
    ensures ProductPreimage(scale, prices, extensions) != OptionPreimage(url, unit)
  {
    assert ProductPreimage(scale, prices, extensions)[9] == PRODUCT_TAG[9];
    assert OptionPreimage(url, unit)[9] == OPTION_TAG[9];
  }
}
