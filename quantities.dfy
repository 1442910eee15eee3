/** Pass 2, quantity conservation (src/validator.py:74-90). */
module Quantities {
  import opened Plan
  import opened CodeOrder

  /** A `(product_code, quantity_kg)` line of either side. */
  type Line = (string, real)

  /** The order side of lines 76-77. */
  function OrderLines(orders: seq<Order>): seq<Line>
  {
    seq(|orders|, i requires 0 <= i < |orders| => (orders[i].productCode, orders[i].quantityKg))
  }

  /** The batch side of lines 79-80, line 77's twin over the batch records. */
  function BatchLines(batches: seq<Batch>): seq<Line>
  {
    seq(|batches|, i requires 0 <= i < |batches| => (batches[i].productCode, batches[i].quantityKg))
  }

  /** The product codes of the lines, in order, with repetitions. */
  function Codes(lines: seq<Line>): seq<string>
  {
    seq(|lines|, i requires 0 <= i < |lines| => lines[i].0)
  }

  /** The sum of the quantities on the lines for `code` (0 when the code never occurs). */
  function Total(lines: seq<Line>, code: string): real {
    if lines == [] then 0.0
    else
      var last := lines[|lines| - 1];
      Total(lines[..|lines| - 1], code) + (if last.0 == code then last.1 else 0.0)
  }

  lemma {:induction false} TotalOfAbsentCode(lines: seq<Line>, code: string)
    requires code !in Codes(lines)
    ensures Total(lines, code) == 0.0
  {
    if lines != [] {
      var init := lines[..|lines| - 1];
      assert forall i :: 0 <= i < |init| ==> Codes(init)[i] == Codes(lines)[i];
      assert Codes(lines)[|init|] == lines[|init|].0;
      TotalOfAbsentCode(init, code);
    }
  }

  /** The mismatch records for `codes`, in the order of `codes`. */
  function Mismatches(codes: seq<string>, orders: seq<Line>, batches: seq<Line>): seq<Error> {
    if codes == [] then []
    else
      var c := codes[|codes| - 1];
      var o := Total(orders, c);
      var b := Total(batches, c);
      Mismatches(codes[..|codes| - 1], orders, batches) + (if o != b then [QuantityMismatch(c, o, b)] else [])
  }

  /** Pass 2's output: one record per code of either side, in ascending order, whose totals differ. */
  function QuantityErrors(orders: seq<Line>, batches: seq<Line>): seq<Error> {
    Mismatches(SortCodes(Codes(orders) + Codes(batches)), orders, batches)
  }

  /** The `defaultdict(float)` accumulation loops of lines 75-80. */
  method SumByCode(lines: seq<Line>) returns (sums: map<string, real>)
    ensures forall c :: c in sums <==> c in Codes(lines)
    ensures forall c :: c in sums ==> sums[c] == Total(lines, c)
  {
    sums := map[];
    for i := 0 to |lines|
      invariant forall c :: c in sums <==> c in Codes(lines[..i])
      invariant forall c :: c in sums ==> sums[c] == Total(lines[..i], c)
    {
      assert lines[..i + 1][..i] == lines[..i];
      var (code, qty) := lines[i];
      assert forall c :: Total(lines[..i + 1], c) == Total(lines[..i], c) + (if c == code then qty else 0.0);
      if code !in sums {
        TotalOfAbsentCode(lines[..i], code);
      }
      sums := sums[code := (if code in sums then sums[code] else 0.0) + qty];
      forall c ensures c in Codes(lines[..i + 1]) <==> c in Codes(lines[..i]) || c == code {
        assert Codes(lines[..i + 1]) == Codes(lines[..i]) + [code];
      }
      forall c | c in sums && c != code ensures c in Codes(lines[..i]) {
      }
    }
    assert lines[..|lines|] == lines;
  }

  /** `set(orders_sum.keys()) | set(batches_sum.keys())`, listed in some order. */
  method ListCodes(codes: set<string>) returns (listed: seq<string>)
    ensures forall c :: c in listed <==> c in codes
  {
    listed := [];
    var rest := codes;
    while rest != {}
      invariant rest <= codes
      invariant forall c :: c in listed ==> c in codes
      invariant forall c :: c in codes ==> c in listed || c in rest
      decreases |rest|
    {
      var c :| c in rest;
      listed := listed + [c];
      rest := rest - {c};
    }
  }

  /** The comparison loop of lines 84-88 over the accumulated sums. */
  method EmitMismatches(codes: seq<string>, o: seq<Line>, b: seq<Line>,
                        ordersSum: map<string, real>, batchesSum: map<string, real>)
    returns (errors: seq<Error>)
    requires forall c :: c in ordersSum <==> c in Codes(o)
    requires forall c :: c in ordersSum ==> ordersSum[c] == Total(o, c)
    requires forall c :: c in batchesSum <==> c in Codes(b)
    requires forall c :: c in batchesSum ==> batchesSum[c] == Total(b, c)
    ensures errors == Mismatches(codes, o, b)
  {
    errors := [];
    for k := 0 to |codes|
      invariant errors == Mismatches(codes[..k], o, b)
    {
      assert codes[..k + 1][..k] == codes[..k];
      var p := codes[k];
      if p !in ordersSum {
        TotalOfAbsentCode(o, p);
      }
      if p !in batchesSum {
        TotalOfAbsentCode(b, p);
      }
      var oQty := if p in ordersSum then ordersSum[p] else 0.0;
      var bQty := if p in batchesSum then batchesSum[p] else 0.0;
      if oQty != bQty {
        errors := errors + [QuantityMismatch(p, oQty, bQty)];
      }
    }
    assert codes[..|codes|] == codes;
  }

  /** Lines 75-88: accumulate, take the union of codes, walk it sorted and compare. */
  method CheckQuantities(orders: seq<Order>, batches: seq<Batch>) returns (errors: seq<Error>)
    ensures errors == QuantityErrors(OrderLines(orders), BatchLines(batches))
  {
    var o := OrderLines(orders);
    var b := BatchLines(batches);
    var ordersSum := SumByCode(o);
    var batchesSum := SumByCode(b);
    var listed := ListCodes(ordersSum.Keys + batchesSum.Keys);
    var codes := SortCodes(listed);
    SortCodesCanonical(listed, Codes(o) + Codes(b));
    errors := EmitMismatches(codes, o, b, ordersSum, batchesSum);
  }

  lemma {:induction false} MismatchesMembers(codes: seq<string>, orders: seq<Line>, batches: seq<Line>, err: Error)
    ensures err in Mismatches(codes, orders, batches) <==>
              err.QuantityMismatch? && err.productCode in codes &&
              err.orderedKg == Total(orders, err.productCode) &&
              err.producedKg == Total(batches, err.productCode) &&
              err.orderedKg != err.producedKg
  {
    if codes != [] {
      var init := codes[..|codes| - 1];
      MismatchesMembers(init, orders, batches, err);
      assert codes == init + [codes[|codes| - 1]];
    }
  }

  /**
   * A product is reported exactly when it occurs on some side and its order
   * and batch totals differ; a code seen on one side only is compared with 0.
   */
  lemma QuantityMismatchIff(orders: seq<Line>, batches: seq<Line>, code: string, ordered: real, produced: real)
    ensures QuantityMismatch(code, ordered, produced) in QuantityErrors(orders, batches) <==>
              (code in Codes(orders) || code in Codes(batches)) &&
              ordered == Total(orders, code) && produced == Total(batches, code) && ordered != produced
  {
    MismatchesMembers(SortCodes(Codes(orders) + Codes(batches)), orders, batches,
                      QuantityMismatch(code, ordered, produced));
  }

  /** Every record of the pass is a quantity mismatch, and their codes strictly ascend. */
  lemma {:induction false} MismatchesAscending(codes: seq<string>, orders: seq<Line>, batches: seq<Line>)
    requires Ascending(codes)
    ensures forall i :: 0 <= i < |Mismatches(codes, orders, batches)| ==>
              Mismatches(codes, orders, batches)[i].QuantityMismatch?
    ensures forall i, j :: 0 <= i < j < |Mismatches(codes, orders, batches)| ==>
              Below(Mismatches(codes, orders, batches)[i].productCode,
                    Mismatches(codes, orders, batches)[j].productCode)
  {
    if codes != [] {
      var init := codes[..|codes| - 1];
      var c := codes[|codes| - 1];
      MismatchesAscending(init, orders, batches);
      var prev := Mismatches(init, orders, batches);
      forall i | 0 <= i < |prev| ensures prev[i].QuantityMismatch? && Below(prev[i].productCode, c) {
        MismatchesMembers(init, orders, batches, prev[i]);
        var j :| 0 <= j < |init| && init[j] == prev[i].productCode;
        assert codes[j] == init[j];
      }
      var errs := Mismatches(codes, orders, batches);
      assert errs == prev || errs == prev + [QuantityMismatch(c, Total(orders, c), Total(batches, c))];
    }
  }

  lemma QuantityErrorsAscending(orders: seq<Line>, batches: seq<Line>)
    ensures var errs := QuantityErrors(orders, batches);
            (forall i :: 0 <= i < |errs| ==> errs[i].QuantityMismatch?) &&
            (forall i, j :: 0 <= i < j < |errs| ==> Below(errs[i].productCode, errs[j].productCode))
  {
    MismatchesAscending(SortCodes(Codes(orders) + Codes(batches)), orders, batches);
  }

  /** Every product's ordered total equals its produced total (both 0 for a product on neither side). */
  ghost predicate Conserved(orders: seq<Line>, batches: seq<Line>) {
    forall c :: Total(orders, c) == Total(batches, c)
  }

  /** Quantities are conserved for every product exactly when the pass reports nothing. */
  lemma ConservedIffNoMismatch(orders: seq<Line>, batches: seq<Line>)
    ensures QuantityErrors(orders, batches) == [] <==> Conserved(orders, batches)
  {
    var errs := QuantityErrors(orders, batches);
    if errs != [] {
      QuantityErrorsAscending(orders, batches);
      var err := errs[0];
      QuantityMismatchIff(orders, batches, err.productCode, err.orderedKg, err.producedKg);
    }
    if exists c :: Total(orders, c) != Total(batches, c) {
      var c :| Total(orders, c) != Total(batches, c);
      if c !in Codes(orders) && c !in Codes(batches) {
        TotalOfAbsentCode(orders, c);
        TotalOfAbsentCode(batches, c);
      }
      QuantityMismatchIff(orders, batches, c, Total(orders, c), Total(batches, c));
    }
  }

  /** A mismatch record with the two sides exchanged. */
  function SwapSides(err: Error): Error {
    if err.QuantityMismatch? then QuantityMismatch(err.productCode, err.producedKg, err.orderedKg) else err
  }

  function SwapAll(errs: seq<Error>): (r: seq<Error>)
    ensures |r| == |errs|
  {
    if errs == [] then [] else SwapAll(errs[..|errs| - 1]) + [SwapSides(errs[|errs| - 1])]
  }

  lemma {:induction false} MismatchesSwap(codes: seq<string>, orders: seq<Line>, batches: seq<Line>)
    ensures Mismatches(codes, batches, orders) == SwapAll(Mismatches(codes, orders, batches))
  {
    if codes != [] {
      var init := codes[..|codes| - 1];
      MismatchesSwap(init, orders, batches);
      SwapAllAppend(Mismatches(init, orders, batches),
                    (var c := codes[|codes| - 1];
                     if Total(orders, c) != Total(batches, c)
                     then [QuantityMismatch(c, Total(orders, c), Total(batches, c))] else []));
    }
  }

  lemma {:induction false} SwapAllAppend(a: seq<Error>, b: seq<Error>)
    ensures SwapAll(a + b) == SwapAll(a) + SwapAll(b)
    decreases |b|
  {
    if b == [] {
      assert a + b == a;
    } else {
      var init := b[..|b| - 1];
      assert (a + b)[..|a + b| - 1] == a + init;
      assert (a + b)[|a + b| - 1] == b[|b| - 1];
      SwapAllAppend(a, init);
    }
  }

  /**
   * Exchanging the whole order side with the whole batch side reports the
   * same products, in the same order, with the two quantities exchanged.
   */
  lemma QuantityErrorsSwap(orders: seq<Line>, batches: seq<Line>)
    ensures QuantityErrors(batches, orders) == SwapAll(QuantityErrors(orders, batches))
  {
    SortCodesCanonical(Codes(batches) + Codes(orders), Codes(orders) + Codes(batches));
    MismatchesSwap(SortCodes(Codes(orders) + Codes(batches)), orders, batches);
  }
}
