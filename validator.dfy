/** `validate` (src/validator.py:44-160): the five passes in order, appended to one list. */
module Validator {
  import opened Timestamps
  import opened Plan
  import BatchTimes
  import Quantities
  import Sizing
  import Conflicts
  import Bookings

  /** What `validate` needs of a plan to return a list instead of raising: passes 4 and 5 parse without a guard. */
  predicate Runs(fromIso: IsoParser, p: Plan) {
    Conflicts.ConflictsDefined(fromIso, p.downtimes, p.holidays, p.batches) &&
    Bookings.BookingsDefined(FieldParse(fromIso), p.batches)
  }

  /** The list `validate` returns: pass 1's records, then pass 2's, 3's, 4's and 5's. */
  function Report(fromIso: IsoParser, p: Plan): seq<Error>
    requires Runs(fromIso, p)
  {
    BatchTimes.TimeErrors(fromIso, p.batches) +
    Quantities.QuantityErrors(Quantities.OrderLines(p.orders), Quantities.BatchLines(p.batches)) +
    Sizing.SizingErrors(Sizing.EquipmentIndex(p.equipment), p.batches) +
    Conflicts.ConflictErrors(fromIso, p.downtimes, p.holidays, p.batches) +
    Bookings.BookingErrors(FieldParse(fromIso), p.batches)
  }

  /** Lines 44-160. */
  method Validate(fromIso: IsoParser, plan: Plan) returns (errors: seq<Error>)
    requires Runs(fromIso, plan)
    ensures errors == Report(fromIso, plan)
  {
    errors := BatchTimes.CheckBatchTimes(fromIso, plan.batches);
    var quantityErrors := Quantities.CheckQuantities(plan.orders, plan.batches);
    errors := errors + quantityErrors;
    var sizingErrors := Sizing.CheckSizing(plan.equipment, plan.batches);
    errors := errors + sizingErrors;
    var conflictErrors := Conflicts.CheckConflicts(fromIso, plan.downtimes, plan.holidays, plan.batches);
    errors := errors + conflictErrors;
    var bookingErrors := Bookings.CheckBookings(FieldParse(fromIso), plan.batches);
    errors := errors + bookingErrors;
  }

  /** Every batch has a present, parsable start strictly before a present, parsable end. */
  predicate TimesValid(fromIso: IsoParser, p: Plan) {
    forall i :: 0 <= i < |p.batches| ==> BatchTimes.TimesOrdered(fromIso, p.batches[i])
  }

  /** Pass 1's acceptance is what pass 5 needs about each batch: a known interval of positive length. */
  lemma TimesValidScheduled(fromIso: IsoParser, p: Plan)
    requires TimesValid(fromIso, p)
    ensures Bookings.AllScheduled(FieldParse(fromIso), p.batches)
  {
    var parse := FieldParse(fromIso);
    forall k | 0 <= k < |p.batches| ensures Bookings.Scheduled(parse, p.batches[k]) {
      var b := p.batches[k];
      assert BatchTimes.TimesOrdered(fromIso, b);
      assert BatchTimes.Subscript(fromIso, b.startTime) == GetParse(fromIso, b.startTime);
      assert BatchTimes.Subscript(fromIso, b.endTime) == GetParse(fromIso, b.endTime);
    }
  }

  /** Every product's ordered total equals its produced total. */
  ghost predicate Conserved(p: Plan) {
    Quantities.Conserved(Quantities.OrderLines(p.orders), Quantities.BatchLines(p.batches))
  }

  predicate AllFit(p: Plan) {
    forall i :: 0 <= i < |p.batches| ==> Sizing.FitsEquipment(Sizing.EquipmentIndex(p.equipment), p.batches[i])
  }

  predicate AllClear(fromIso: IsoParser, p: Plan) {
    forall i :: 0 <= i < |p.batches| ==> Conflicts.ClearOfWindows(fromIso, p.downtimes, p.holidays, p.batches[i])
  }

  predicate Unbooked(fromIso: IsoParser, p: Plan) {
    Bookings.AllScheduled(FieldParse(fromIso), p.batches) && Bookings.NoDoubleBooking(FieldParse(fromIso), p.batches)
  }

  /**
   * The plan is acceptable: valid batch times, every product's ordered and
   * produced totals equal, every batch fits its equipment, no batch meets a
   * downtime of its equipment or a holiday, and no two batches on the same
   * equipment overlap.
   */
  ghost predicate Acceptable(fromIso: IsoParser, p: Plan) {
    TimesValid(fromIso, p) && Conserved(p) && AllFit(p) && AllClear(fromIso, p) && Unbooked(fromIso, p)
  }

  lemma TimesClean(fromIso: IsoParser, p: Plan)
    ensures BatchTimes.TimeErrors(fromIso, p.batches) == [] <==> TimesValid(fromIso, p)
  {
    BatchTimes.TimeErrorsOnePerBatch(fromIso, p.batches);
  }

  lemma QuantitiesClean(p: Plan)
    ensures Quantities.QuantityErrors(Quantities.OrderLines(p.orders), Quantities.BatchLines(p.batches)) == [] <==> Conserved(p)
  {
    Quantities.ConservedIffNoMismatch(Quantities.OrderLines(p.orders), Quantities.BatchLines(p.batches));
  }

  lemma SizingClean(p: Plan)
    ensures Sizing.SizingErrors(Sizing.EquipmentIndex(p.equipment), p.batches) == [] <==> AllFit(p)
  {
    Sizing.SizingCleanIff(Sizing.EquipmentIndex(p.equipment), p.batches);
  }

  lemma ConflictsClean(fromIso: IsoParser, p: Plan)
    requires Conflicts.ConflictsDefined(fromIso, p.downtimes, p.holidays, p.batches)
    ensures Conflicts.ConflictErrors(fromIso, p.downtimes, p.holidays, p.batches) == [] <==> AllClear(fromIso, p)
  {
    Conflicts.ConflictFreeIff(fromIso, p.downtimes, p.holidays, p.batches);
  }

  lemma BookingsClean(fromIso: IsoParser, p: Plan)
    requires TimesValid(fromIso, p)
    ensures Bookings.BookingsDefined(FieldParse(fromIso), p.batches)
    ensures Bookings.BookingErrors(FieldParse(fromIso), p.batches) == [] <==> Unbooked(fromIso, p)
  {
    TimesValidScheduled(fromIso, p);
    Bookings.NoDoubleBookingIff(FieldParse(fromIso), p.batches);
  }

  lemma ConcatEmpty(t: seq<Error>, q: seq<Error>, z: seq<Error>, c: seq<Error>, b: seq<Error>)
    ensures t + q + z + c + b == [] <==> t == [] && q == [] && z == [] && c == [] && b == []
  {
    assert |t + q + z + c + b| == |t| + |q| + |z| + |c| + |b|;
  }

  /** `validate` returns an empty list (the command's exit status 0) exactly when the plan is acceptable. */
  lemma ReportEmptyIff(fromIso: IsoParser, p: Plan)
    requires Runs(fromIso, p)
    ensures Report(fromIso, p) == [] <==> Acceptable(fromIso, p)
  {
    var t := BatchTimes.TimeErrors(fromIso, p.batches);
    var q := Quantities.QuantityErrors(Quantities.OrderLines(p.orders), Quantities.BatchLines(p.batches));
    var z := Sizing.SizingErrors(Sizing.EquipmentIndex(p.equipment), p.batches);
    var c := Conflicts.ConflictErrors(fromIso, p.downtimes, p.holidays, p.batches);
    var b := Bookings.BookingErrors(FieldParse(fromIso), p.batches);
    assert Report(fromIso, p) == t + q + z + c + b;
    ConcatEmpty(t, q, z, c, b);
    TimesClean(fromIso, p);
    QuantitiesClean(p);
    SizingClean(p);
    ConflictsClean(fromIso, p);
    if TimesValid(fromIso, p) {
      BookingsClean(fromIso, p);
    }
  }
}
