/** Pass 1, batch time sanity (src/validator.py:61-70). */
module BatchTimes {
  import opened Wrappers
  import opened Timestamps
  import opened Plan

  /**
   * `parse_iso(b[key])` inside the pass's `try`: subscripting a missing key
   * raises `KeyError`, which the handler reports like a parse failure.
   */
  function Subscript(fromIso: IsoParser, st: Stamp): (p: Parsed)
    ensures st.NoKey? ==> p.Raises?
    ensures st.Null? ==> p.Absent?
    ensures st.Text? ==> p == ParseIso(fromIso, Some(st.text))
  {
    if st.NoKey? then Raises else ParseIso(fromIso, st.Get())
  }

  /** The batch's start and end both parse, and the start is strictly earlier. */
  predicate TimesOrdered(fromIso: IsoParser, b: Batch) {
    var s := Subscript(fromIso, b.startTime);
    var e := Subscript(fromIso, b.endTime);
    s.At? && e.At? && s.instant < e.instant
  }

  /** The record kinds pass 1 emits. */
  predicate IsTimeError(err: Error) {
    err.MissingTime? || err.BadTimeFormat? || err.StartNotBeforeEnd?
  }

  /**
   * The finding for one batch. Both sides are parsed before the `None` test,
   * so a raise on either side is reported in preference to a missing value.
   */
  function TimeFinding(fromIso: IsoParser, b: Batch): Option<Error> {
    var s := Subscript(fromIso, b.startTime);
    var e := Subscript(fromIso, b.endTime);
    if s.Raises? || e.Raises? then Some(BadTimeFormat(b.batchId))
    else if s.Absent? || e.Absent? then Some(MissingTime(b.batchId))
    else if s.instant >= e.instant then Some(StartNotBeforeEnd(b.batchId, b.startTime, b.endTime))
    else None
  }

  /** Pass 1's output for `bs`, batch by batch. */
  function TimeErrors(fromIso: IsoParser, bs: seq<Batch>): seq<Error> {
    if bs == [] then []
    else
      var f := TimeFinding(fromIso, bs[|bs| - 1]);
      TimeErrors(fromIso, bs[..|bs| - 1]) + (if f.Some? then [f.value] else [])
  }

  /** The batches of `bs`, in order, whose times are not both present, parseable and ordered. */
  function Unordered(fromIso: IsoParser, bs: seq<Batch>): seq<Batch> {
    if bs == [] then []
    else
      var b := bs[|bs| - 1];
      Unordered(fromIso, bs[..|bs| - 1]) + (if TimesOrdered(fromIso, b) then [] else [b])
  }

  /** The loop of lines 61-70. */
  method CheckBatchTimes(fromIso: IsoParser, batches: seq<Batch>) returns (errors: seq<Error>)
    ensures errors == TimeErrors(fromIso, batches)
  {
    errors := [];
    for i := 0 to |batches|
      invariant errors == TimeErrors(fromIso, batches[..i])
    {
      assert batches[..i + 1][..i] == batches[..i];
      var b := batches[i];
      var s := Subscript(fromIso, b.startTime);
      var e := Subscript(fromIso, b.endTime);
      if s.Raises? || e.Raises? {
        errors := errors + [BadTimeFormat(b.batchId)];
        continue;
      }
      if s.Absent? || e.Absent? {
        errors := errors + [MissingTime(b.batchId)];
        continue;
      }
      if s.instant >= e.instant {
        errors := errors + [StartNotBeforeEnd(b.batchId, b.startTime, b.endTime)];
      }
    }
    assert batches[..|batches|] == batches;
  }

  /** Which finding a batch gets, case by case; a batch with valid ordered times gets none. */
  lemma TimeFindingCases(fromIso: IsoParser, b: Batch)
    ensures var s := Subscript(fromIso, b.startTime);
            var e := Subscript(fromIso, b.endTime);
            && (TimeFinding(fromIso, b).None? <==> TimesOrdered(fromIso, b))
            && (TimeFinding(fromIso, b) == Some(BadTimeFormat(b.batchId)) <==> s.Raises? || e.Raises?)
            && (TimeFinding(fromIso, b) == Some(MissingTime(b.batchId)) <==>
                  !s.Raises? && !e.Raises? && (s.Absent? || e.Absent?))
            && (TimeFinding(fromIso, b) == Some(StartNotBeforeEnd(b.batchId, b.startTime, b.endTime)) <==>
                  s.At? && e.At? && s.instant >= e.instant)
  {
  }

  /**
   * One error per offending batch, in batch order: the k-th error of the pass
   * names the k-th batch whose times are not valid and ordered, and a plan
   * whose batches all have valid ordered times gets no error from this pass.
   */
  lemma {:induction false} TimeErrorsOnePerBatch(fromIso: IsoParser, bs: seq<Batch>)
    ensures |TimeErrors(fromIso, bs)| == |Unordered(fromIso, bs)|
    ensures forall k :: 0 <= k < |TimeErrors(fromIso, bs)| ==>
              IsTimeError(TimeErrors(fromIso, bs)[k]) &&
              TimeErrors(fromIso, bs)[k].batchId == Unordered(fromIso, bs)[k].batchId &&
              Some(TimeErrors(fromIso, bs)[k]) == TimeFinding(fromIso, Unordered(fromIso, bs)[k])
    ensures TimeErrors(fromIso, bs) == [] <==> forall i :: 0 <= i < |bs| ==> TimesOrdered(fromIso, bs[i])
  {
    if bs != [] {
      var init := bs[..|bs| - 1];
      var b := bs[|bs| - 1];
      TimeErrorsOnePerBatch(fromIso, init);
      TimeFindingCases(fromIso, b);
      assert TimeErrors(fromIso, bs) == [] <==> forall i :: 0 <= i < |bs| ==> TimesOrdered(fromIso, bs[i]) by {
        assert forall i :: 0 <= i < |init| ==> init[i] == bs[i];
      }
    }
  }
}
