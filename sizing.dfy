/** Pass 3, equipment sizing and compatibility (src/validator.py:58, 94-111). */
module Sizing {
  import opened Wrappers
  import opened Plan

  /** Capacity bounds assumed when an equipment record leaves them out. */
  const DefaultMinKg: real := 0.0
  const DefaultMaxKg: real := 1000000000000000000.0

  /** `{e["equipment_id"]: e for e in equipment}`: a later record with the same id replaces an earlier one. */
  function EquipmentIndex(equipment: seq<Equipment>): (idx: map<string, Equipment>)
    ensures forall id :: id in idx ==> idx[id] in equipment && idx[id].equipmentId == id
  {
    if equipment == [] then map[]
    else
      var e := equipment[|equipment| - 1];
      EquipmentIndex(equipment[..|equipment| - 1])[e.equipmentId := e]
  }

  /** An id resolves exactly when some record carries it, and it resolves to the last such record. */
  lemma {:induction false} EquipmentIndexLastWins(equipment: seq<Equipment>, id: string)
    ensures id in EquipmentIndex(equipment) <==> exists k :: 0 <= k < |equipment| && equipment[k].equipmentId == id
    ensures forall k :: 0 <= k < |equipment| && equipment[k].equipmentId == id &&
                        (forall j :: k < j < |equipment| ==> equipment[j].equipmentId != id) ==>
                          EquipmentIndex(equipment)[id] == equipment[k]
  {
    if equipment != [] {
      var init := equipment[..|equipment| - 1];
      EquipmentIndexLastWins(init, id);
      assert forall k :: 0 <= k < |init| ==> init[k] == equipment[k];
    }
  }

  function MinOf(eq: Equipment): real {
    eq.minCapacityKg.GetOr(DefaultMinKg)
  }

  function MaxOf(eq: Equipment): real {
    eq.maxCapacityKg.GetOr(DefaultMaxKg)
  }

  /** The record kinds pass 3 emits for a resolved equipment. */
  predicate IsEquipmentCheck(err: Error) {
    err.UnsupportedProduct? || err.BelowMinCapacity? || err.AboveMaxCapacity?
  }

  /** The findings for one batch: unknown equipment alone, or the three independent checks. */
  function SizingFindings(idx: map<string, Equipment>, b: Batch): seq<Error> {
    if b.equipmentId !in idx then [UnknownEquipment(b.batchId, b.equipmentId)]
    else
      var eq := idx[b.equipmentId];
      (if b.productCode !in eq.productCodes
       then [UnsupportedProduct(b.batchId, b.productCode, b.equipmentId, eq.productCodes)] else []) +
      (if b.quantityKg < MinOf(eq)
       then [BelowMinCapacity(b.batchId, b.quantityKg, MinOf(eq), b.equipmentId)] else []) +
      (if b.quantityKg > MaxOf(eq)
       then [AboveMaxCapacity(b.batchId, b.quantityKg, MaxOf(eq), b.equipmentId)] else [])
  }

  /** Pass 3's output for `bs`, batch by batch. */
  function SizingErrors(idx: map<string, Equipment>, bs: seq<Batch>): seq<Error> {
    if bs == [] then []
    else SizingErrors(idx, bs[..|bs| - 1]) + SizingFindings(idx, bs[|bs| - 1])
  }

  /** The loop of lines 94-111. */
  method CheckSizing(equipment: seq<Equipment>, batches: seq<Batch>) returns (errors: seq<Error>)
    ensures errors == SizingErrors(EquipmentIndex(equipment), batches)
  {
    var eqById := EquipmentIndex(equipment);
    errors := [];
    for i := 0 to |batches|
      invariant errors == SizingErrors(eqById, batches[..i])
    {
      assert batches[..i + 1][..i] == batches[..i];
      var b := batches[i];
      var bid, eqId, qty := b.batchId, b.equipmentId, b.quantityKg;
      if eqId !in eqById {
        errors := errors + [UnknownEquipment(bid, eqId)];
        continue;
      }
      var eq := eqById[eqId];
      var minC := eq.minCapacityKg.GetOr(DefaultMinKg);
      var maxC := eq.maxCapacityKg.GetOr(DefaultMaxKg);
      var allowedProducts := eq.productCodes;
      var found: seq<Error> := [];
      if b.productCode !in allowedProducts {
        found := found + [UnsupportedProduct(bid, b.productCode, eqId, allowedProducts)];
      }
      if qty < minC {
        found := found + [BelowMinCapacity(bid, qty, minC, eqId)];
      }
      if qty > maxC {
        found := found + [AboveMaxCapacity(bid, qty, maxC, eqId)];
      }
      errors := errors + found;
    }
    assert batches[..|batches|] == batches;
  }

  /** Unknown equipment: exactly one error, and no compatibility or capacity check runs. */
  lemma UnknownEquipmentOnly(idx: map<string, Equipment>, b: Batch)
    requires b.equipmentId !in idx
    ensures SizingFindings(idx, b) == [UnknownEquipment(b.batchId, b.equipmentId)]
    ensures forall err :: err in SizingFindings(idx, b) ==> !IsEquipmentCheck(err)
  {
  }

  /**
   * Known equipment: the incompatible-product, below-minimum and
   * above-maximum records fire independently, each exactly when its own
   * condition holds, with the defaults 0 and 1e18 for absent bounds.
   */
  lemma KnownEquipmentChecks(idx: map<string, Equipment>, b: Batch)
    requires b.equipmentId in idx
    ensures var eq := idx[b.equipmentId];
            var r := SizingFindings(idx, b);
            && (UnsupportedProduct(b.batchId, b.productCode, b.equipmentId, eq.productCodes) in r <==>
                  b.productCode !in eq.productCodes)
            && (BelowMinCapacity(b.batchId, b.quantityKg, MinOf(eq), b.equipmentId) in r <==>
                  b.quantityKg < eq.minCapacityKg.GetOr(0.0))
            && (AboveMaxCapacity(b.batchId, b.quantityKg, MaxOf(eq), b.equipmentId) in r <==>
                  b.quantityKg > eq.maxCapacityKg.GetOr(1000000000000000000.0))
            && (forall err :: err in r ==> IsEquipmentCheck(err) && err.batchId == b.batchId)
            && |r| <= 3
  {
  }

  /** The pass is the union of the per-batch findings; no batch affects another's. */
  lemma {:induction false} SizingErrorsMembers(idx: map<string, Equipment>, bs: seq<Batch>, err: Error)
    ensures err in SizingErrors(idx, bs) <==> exists i :: 0 <= i < |bs| && err in SizingFindings(idx, bs[i])
  {
    if bs != [] {
      var init := bs[..|bs| - 1];
      SizingErrorsMembers(idx, init, err);
      if exists i :: 0 <= i < |bs| && err in SizingFindings(idx, bs[i]) {
        var i :| 0 <= i < |bs| && err in SizingFindings(idx, bs[i]);
        if i < |init| {
          assert init[i] == bs[i];
        }
      }
    }
  }

  /** A batch passes pass 3 when its equipment exists, accepts its product and its quantity is within bounds. */
  predicate FitsEquipment(idx: map<string, Equipment>, b: Batch) {
    b.equipmentId in idx &&
    b.productCode in idx[b.equipmentId].productCodes &&
    MinOf(idx[b.equipmentId]) <= b.quantityKg <= MaxOf(idx[b.equipmentId])
  }

  lemma SizingCleanIff(idx: map<string, Equipment>, bs: seq<Batch>)
    ensures SizingErrors(idx, bs) == [] <==> forall i :: 0 <= i < |bs| ==> FitsEquipment(idx, bs[i])
  {
    var errs := SizingErrors(idx, bs);
    if errs != [] {
      SizingErrorsMembers(idx, bs, errs[0]);
    }
    forall i | 0 <= i < |bs| && !FitsEquipment(idx, bs[i]) ensures errs != [] {
      var f := SizingFindings(idx, bs[i]);
      assert f != [];
      SizingErrorsMembers(idx, bs, f[0]);
    }
  }
}
