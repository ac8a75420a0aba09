/** The comparison of a stored item list with a requested one. */
module Items {
  import opened Text
  import opened Models
  import opened Int64

  datatype ItemInput = ItemInput(productId: string, name: string, sku: string, quantity: int)

  datatype ItemKey = ItemKey(productId: string, name: string, sku: string)

  /** An item as the comparison sees it: its trimmed texts and its quantity. */
  datatype Line = Line(key: ItemKey, quantity: int)

  function KeyOf(productId: string, name: string, sku: string): (k: ItemKey) {
    ItemKey(TrimSpace(productId), TrimSpace(name), TrimSpace(sku))
  }

  /** Items are told apart by product, name and SKU, outer white space aside. */
  lemma KeysTellApart(a: ItemRow, b: ItemInput)
    ensures KeyOf(a.productId, a.name, a.sku) == KeyOf(b.productId, b.name, b.sku)
            <==> && TrimSpace(a.productId) == TrimSpace(b.productId) && TrimSpace(a.name) == TrimSpace(b.name)
                 && TrimSpace(a.sku) == TrimSpace(b.sku)
  {
  }

  function StoredLines(rows: seq<ItemRow>): (lines: seq<Line>)
    ensures |lines| == |rows|
  {
    seq(|rows|,
        i requires 0 <= i < |rows| => Line(KeyOf(rows[i].productId, rows[i].name, rows[i].sku), rows[i].quantity))
  }

  function RequestedLines(items: seq<ItemInput>): (lines: seq<Line>)
    ensures |lines| == |items|
  {
    seq(|items|,
        i requires 0 <= i < |items| => Line(KeyOf(items[i].productId, items[i].name, items[i].sku), items[i].quantity))
  }

  /** The quantity that a list asks for under one key. */
  function Total(lines: seq<Line>, k: ItemKey): (n: int) {
    if lines == [] then 0
    else Total(lines[..|lines| - 1], k) + if lines[|lines| - 1].key == k then lines[|lines| - 1].quantity else 0
  }

  /** The quantity over all keys. */
  function GrandTotal(lines: seq<Line>): (n: int) {
    if lines == [] then 0 else GrandTotal(lines[..|lines| - 1]) + lines[|lines| - 1].quantity
  }

  predicate Congruent(a: int, b: int) {
    (a - b) % TWO_64 == 0
  }

  /** Equally long lists with the same totals per key, as far as a 64-bit sum can tell. */
  ghost predicate SameLines(a: seq<Line>, b: seq<Line>) {
    |a| == |b| && forall k :: Congruent(Total(a, k), Total(b, k))
  }

  function Quantity(quantities: map<ItemKey, int>, k: ItemKey): (n: int) {
    if k in quantities then quantities[k] else 0
  }

  function WithAdded(quantities: map<ItemKey, int>, k: ItemKey, delta: int): (q: map<ItemKey, int>) {
    quantities[k := Wrap64(Quantity(quantities, k) + delta)]
  }

  lemma TotalOfPrefix(lines: seq<Line>, i: nat, k: ItemKey)
    requires i < |lines|
    ensures Total(lines[..i + 1], k) == Total(lines[..i], k) + if lines[i].key == k then lines[i].quantity else 0
  {
    assert lines[..i + 1][..i] == lines[..i];
  }

  lemma WrapStep(exact: int, delta: int)
    ensures Wrap64(Wrap64(exact) + delta) == Wrap64(exact + delta)
  {
  }

  lemma WrapIsZeroIff(a: int, b: int)
    ensures Wrap64(a - b) == 0 <==> Congruent(a, b)
  {
  }

  /** The map holds, per key, the wrapped difference of the totals of two lists. */
  ghost predicate Tallied(quantities: map<ItemKey, int>, a: seq<Line>, b: seq<Line>) {
    forall k :: Quantity(quantities, k) == Wrap64(Total(a, k) - Total(b, k))
  }

  lemma TallyStored(quantities: map<ItemKey, int>, a: seq<Line>, i: nat)
    requires i < |a| && Tallied(quantities, a[..i], [])
    ensures Tallied(WithAdded(quantities, a[i].key, a[i].quantity), a[..i + 1], [])
  {
    forall k {
      TotalOfPrefix(a, i, k);
    }
    WrapStep(Total(a[..i], a[i].key), a[i].quantity);
  }

  lemma TallyRequested(quantities: map<ItemKey, int>, a: seq<Line>, b: seq<Line>, i: nat)
    requires i < |b| && Tallied(quantities, a, b[..i])
    ensures Tallied(WithAdded(quantities, b[i].key, -b[i].quantity), a, b[..i + 1])
  {
    forall k {
      TotalOfPrefix(b, i, k);
    }
    WrapStep(Total(a, b[i].key) - Total(b[..i], b[i].key), -b[i].quantity);
  }

  lemma TallyIsZeroIff(quantities: map<ItemKey, int>, a: seq<Line>, b: seq<Line>)
    requires Tallied(quantities, a, b) && |a| == |b|
    ensures (forall k :: Quantity(quantities, k) == 0) <==> SameLines(a, b)
  {
    forall k ensures Quantity(quantities, k) == 0 <==> Congruent(Total(a, k), Total(b, k)) {
      WrapIsZeroIff(Total(a, k), Total(b, k));
    }
  }

  method AllZero(quantities: map<ItemKey, int>) returns (zero: bool)
    ensures zero <==> forall k :: Quantity(quantities, k) == 0
  {
    var keys := quantities.Keys;
    while keys != {}
      invariant keys <= quantities.Keys
      invariant forall k :: k !in keys ==> Quantity(quantities, k) == 0
    {
      var key :| key in keys;
      if quantities[key] != 0 {
        assert Quantity(quantities, key) != 0;
        return false;
      }
      keys := keys - {key};
    }
    return true;
  }

  method ItemsMatch(stored: seq<ItemRow>, requested: seq<ItemInput>) returns (same: bool)
    ensures same <==> SameLines(StoredLines(stored), RequestedLines(requested))
  {
    if |stored| != |requested| {
      return false;
    }
    ghost var a, b := StoredLines(stored), RequestedLines(requested);
    var quantities: map<ItemKey, int> := map[];
    for i := 0 to |stored|
      invariant Tallied(quantities, a[..i], [])
    {
      var key := KeyOf(stored[i].productId, stored[i].name, stored[i].sku);
      assert a[i] == Line(key, stored[i].quantity);
      TallyStored(quantities, a, i);
      quantities := WithAdded(quantities, key, stored[i].quantity);
    }
    assert a[..|stored|] == a && b[..0] == [];
    for i := 0 to |requested|
      invariant Tallied(quantities, a, b[..i])
    {
      var key := KeyOf(requested[i].productId, requested[i].name, requested[i].sku);
      assert b[i] == Line(key, requested[i].quantity);
      TallyRequested(quantities, a, b, i);
      quantities := WithAdded(quantities, key, -requested[i].quantity);
    }
    assert b[..|requested|] == b;
    TallyIsZeroIff(quantities, a, b);
    same := AllZero(quantities);
  }

  /** The comparison is an equivalence. */
  lemma SameLinesIsEquivalence(a: seq<Line>, b: seq<Line>, c: seq<Line>)
    ensures SameLines(a, a)
    ensures SameLines(a, b) ==> SameLines(b, a)
    ensures SameLines(a, b) && SameLines(b, c) ==> SameLines(a, c)
  {
    if SameLines(a, b) {
      forall k ensures Congruent(Total(b, k), Total(a, k)) {
        assert Congruent(Total(a, k), Total(b, k));
        assert Total(b, k) - Total(a, k) == -(Total(a, k) - Total(b, k));
      }
      if SameLines(b, c) {
        forall k ensures Congruent(Total(a, k), Total(c, k)) {
          assert Congruent(Total(a, k), Total(b, k)) && Congruent(Total(b, k), Total(c, k));
        }
      }
    }
  }

  lemma {:induction false} TotalWithout(lines: seq<Line>, j: nat, k: ItemKey)
    requires j < |lines|
    ensures Total(lines, k) == Total(lines[..j] + lines[j + 1..], k)
            + if lines[j].key == k then lines[j].quantity else 0
  {
    var rest := lines[..j] + lines[j + 1..];
    if j == |lines| - 1 {
      assert rest == lines[..j];
    } else {
      var shorter := lines[..|lines| - 1];
      TotalWithout(shorter, j, k);
      assert rest[..|rest| - 1] == shorter[..j] + shorter[j + 1..];
    }
  }

  /** The order of a list does not matter. */
  lemma {:induction false} TotalOfPermutation(a: seq<Line>, b: seq<Line>, k: ItemKey)
    requires multiset(a) == multiset(b)
    ensures |a| == |b| && Total(a, k) == Total(b, k)
  {
    assert |multiset(a)| == |a| && |multiset(b)| == |b|;
    if a != [] {
      var x := a[|a| - 1];
      assert a == a[..|a| - 1] + [x];
      assert x in multiset(b);
      var j :| 0 <= j < |b| && b[j] == x;
      var rest := b[..j] + b[j + 1..];
      assert b == b[..j] + [x] + b[j + 1..];
      assert multiset(rest) == multiset(b) - multiset{x};
      TotalOfPermutation(a[..|a| - 1], rest, k);
      TotalWithout(b, j, k);
    }
  }

  lemma SameLinesIgnoresOrder(a: seq<Line>, b: seq<Line>)
    requires multiset(a) == multiset(b)
    ensures SameLines(a, b)
  {
    forall k ensures Congruent(Total(a, k), Total(b, k)) {
      TotalOfPermutation(a, b, k);
    }
    TotalOfPermutation(a, b, ItemKey("", "", ""));
  }

  ghost predicate EqualTotals(a: seq<Line>, b: seq<Line>) {
    |a| == |b| && forall k :: Total(a, k) == Total(b, k)
  }

  ghost predicate Positive(lines: seq<Line>) {
    forall i :: 0 <= i < |lines| ==> lines[i].quantity >= 1
  }

  lemma {:induction false} TotalWithinGrandTotal(lines: seq<Line>, k: ItemKey)
    requires Positive(lines)
    ensures 0 <= Total(lines, k) <= GrandTotal(lines)
  {
    if lines != [] {
      TotalWithinGrandTotal(lines[..|lines| - 1], k);
    }
  }

  /** With grand totals below 2^64 the comparison is exact: equal lengths and equal quantities per key. */
  lemma SameLinesIsExact(a: seq<Line>, b: seq<Line>)
    requires Positive(a) && Positive(b)
    requires GrandTotal(a) < TWO_64 && GrandTotal(b) < TWO_64
    ensures SameLines(a, b) <==> EqualTotals(a, b)
  {
    forall k ensures Congruent(Total(a, k), Total(b, k)) <==> Total(a, k) == Total(b, k) {
      TotalWithinGrandTotal(a, k);
      TotalWithinGrandTotal(b, k);
    }
  }

  /**
   * Without that bound it is not: three single pieces match three lines of one product whose quantities, each a valid
   * 64-bit number, sum to 2^64 + 3.
   */
  lemma SameLinesCanWrap() returns (a: seq<Line>, b: seq<Line>)
    ensures Orderable(a) && Orderable(b) && |a| == |b| == 3
    ensures SameLines(a, b) && !EqualTotals(a, b)
  {
    var k := ItemKey("p", "n", "");
    a := [Line(k, 1), Line(k, 1), Line(k, 1)];
    b := [Line(k, TWO_63 - 1), Line(k, TWO_63 - 1), Line(k, 5)];
    forall other ensures Congruent(Total(a, other), Total(b, other)) {
      TotalOfThree(a, other);
      TotalOfThree(b, other);
    }
    TotalOfThree(a, k);
    TotalOfThree(b, k);
  }

  lemma TotalOfThree(lines: seq<Line>, k: ItemKey)
    requires |lines| == 3 && lines[0].key == lines[1].key == lines[2].key
    ensures Total(lines, k) == if k == lines[0].key then lines[0].quantity + lines[1].quantity + lines[2].quantity
            else 0
  {
    TotalOfPrefix(lines, 0, k);
    TotalOfPrefix(lines, 1, k);
    TotalOfPrefix(lines, 2, k);
    assert lines[..3] == lines && lines[..0] == [];
  }

  /** What item validation and the 64-bit quantity column leave possible. */
  ghost predicate Orderable(lines: seq<Line>) {
    forall i :: 0 <= i < |lines| ==> 1 <= lines[i].quantity < TWO_63
  }

  ghost predicate ExactFor(n: nat) {
    forall a: seq<Line>, b: seq<Line> :: Orderable(a) && Orderable(b) && |a| == |b| == n
      ==> (SameLines(a, b) <==> EqualTotals(a, b))
  }

  lemma {:induction false} TotalOfConcat(a: seq<Line>, b: seq<Line>, k: ItemKey)
    ensures Total(a + b, k) == Total(a, k) + Total(b, k)
  {
    if b == [] {
      assert a + b == a;
    } else {
      assert (a + b)[..|a + b| - 1] == a + b[..|b| - 1];
      TotalOfConcat(a, b[..|b| - 1], k);
    }
  }

  lemma {:induction false} GrandTotalBound(lines: seq<Line>)
    requires Orderable(lines)
    ensures GrandTotal(lines) <= |lines| * (TWO_63 - 1)
  {
    if lines != [] {
      GrandTotalBound(lines[..|lines| - 1]);
    }
  }

  lemma WrappingLists(n: nat) returns (a: seq<Line>, b: seq<Line>)
    requires n >= 3
    ensures Orderable(a) && Orderable(b) && |a| == |b| == n && SameLines(a, b) && !EqualTotals(a, b)
  {
    var a0, b0 := SameLinesCanWrap();
    var pad := seq(n - 3, (i: nat) requires i < n - 3 => Line(ItemKey("", "", ""), 1));
    a, b := a0 + pad, b0 + pad;
    forall k ensures Total(a, k) - Total(b, k) == Total(a0, k) - Total(b0, k) {
      TotalOfConcat(a0, pad, k);
      TotalOfConcat(b0, pad, k);
    }
    var k :| Total(a0, k) != Total(b0, k);
    assert Total(a, k) != Total(b, k);
    forall other ensures Congruent(Total(a, other), Total(b, other)) {
      assert Congruent(Total(a0, other), Total(b0, other));
    }
  }

  /** The comparison tells all lists of n lines apart exactly when there are at most two lines. */
  lemma ExactIffAtMostTwoLines(n: nat)
    ensures ExactFor(n) <==> n <= 2
  {
    if n <= 2 {
      forall a: seq<Line>, b: seq<Line> | Orderable(a) && Orderable(b) && |a| == |b| == n
        ensures SameLines(a, b) <==> EqualTotals(a, b)
      {
        GrandTotalBound(a);
        GrandTotalBound(b);
        SameLinesIsExact(a, b);
      }
    } else {
      var a, b := WrappingLists(n);
      assert SameLines(a, b) && !EqualTotals(a, b);
    }
  }

  /** The rows that a creation stores for its items. */
  function ItemRows(shipmentId: nat, items: seq<ItemInput>): (rows: seq<ItemRow>)
    ensures |rows| == |items|
  {
    seq(|items|, i requires 0 <= i < |items| =>
      ItemRow(shipmentId, TrimSpace(items[i].productId), TrimSpace(items[i].name), TrimSpace(items[i].sku),
              items[i].quantity))
  }

  /** What a creation stores matches what it was asked for. */
  lemma StoredItemsMatchTheirRequest(shipmentId: nat, items: seq<ItemInput>)
    ensures StoredLines(ItemRows(shipmentId, items)) == RequestedLines(items)
  {
    forall i | 0 <= i < |items| ensures StoredLines(ItemRows(shipmentId, items))[i] == RequestedLines(items)[i] {
      TrimSpaceIsIdempotent(items[i].productId);
      TrimSpaceIsIdempotent(items[i].name);
      TrimSpaceIsIdempotent(items[i].sku);
    }
  }
}
