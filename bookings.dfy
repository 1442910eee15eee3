/** Pass 5, equipment double-booking (src/validator.py:142-158). */
module Bookings {
  import opened Timestamps
  import opened Intervals
  import opened Plan

  // ---------------------------------------------------------------------------
  // Grouping by equipment (lines 142-145)
  // ---------------------------------------------------------------------------

  /** The distinct equipment ids of `bs` in first-appearance order: the key order of `batches_by_eq`. */
  function EquipmentOrder(bs: seq<Batch>): (r: seq<string>)
    ensures forall i, j :: 0 <= i < j < |r| ==> r[i] != r[j]
    ensures forall id :: id in r <==> exists k :: 0 <= k < |bs| && bs[k].equipmentId == id
  {
    if bs == [] then []
    else
      var init := bs[..|bs| - 1];
      var prev := EquipmentOrder(init);
      var id := bs[|bs| - 1].equipmentId;
      assert forall k :: 0 <= k < |init| ==> init[k] == bs[k];
      if id in prev then prev else prev + [id]
  }

  /** `batches_by_eq[eq]`: the batches on `eq`, in document order. */
  function Group(bs: seq<Batch>, eq: string): seq<Batch> {
    if bs == [] then []
    else
      var b := bs[|bs| - 1];
      Group(bs[..|bs| - 1], eq) + (if b.equipmentId == eq then [b] else [])
  }

  lemma {:induction false} GroupMembers(bs: seq<Batch>, eq: string, b: Batch)
    ensures b in Group(bs, eq) <==> b in bs && b.equipmentId == eq
  {
    if bs != [] {
      var init := bs[..|bs| - 1];
      GroupMembers(init, eq, b);
      assert bs == init + [bs[|bs| - 1]];
    }
  }

  lemma {:induction false} GroupNone(bs: seq<Batch>, eq: string)
    requires forall k :: 0 <= k < |bs| ==> bs[k].equipmentId != eq
    ensures Group(bs, eq) == []
  {
    if bs != [] {
      var init := bs[..|bs| - 1];
      assert forall k :: 0 <= k < |init| ==> init[k] == bs[k];
      GroupNone(init, eq);
    }
  }

  /** Lines 142-145: `setdefault(eq, []).append(b)`, remembering first-appearance order. */
  method GroupByEquipment(bs: seq<Batch>) returns (order: seq<string>, byEq: map<string, seq<Batch>>)
    ensures order == EquipmentOrder(bs)
    ensures forall id :: id in byEq <==> id in order
    ensures forall id :: id in byEq ==> byEq[id] == Group(bs, id)
  {
    order, byEq := [], map[];
    for i := 0 to |bs|
      invariant order == EquipmentOrder(bs[..i])
      invariant forall id :: id in byEq <==> id in order
      invariant forall id :: id in byEq ==> byEq[id] == Group(bs[..i], id)
    {
      var b := bs[i];
      var eqid := b.equipmentId;
      ghost var before := byEq;
      assert bs[..i + 1][..i] == bs[..i];
      if eqid !in byEq {
        GroupNone(bs[..i], eqid);
        order := order + [eqid];
      }
      byEq := byEq[eqid := (if eqid in byEq then byEq[eqid] else []) + [b]];
      forall id | id in byEq ensures byEq[id] == Group(bs[..i + 1], id) {
        if id != eqid {
          assert byEq[id] == before[id];
        }
      }
    }
    assert bs[..|bs|] == bs;
  }

  // ---------------------------------------------------------------------------
  // Sorting a group by start (line 151)
  // ---------------------------------------------------------------------------

  /** Every batch of `s` has a start instant, the sort key `_start`. */
  predicate StartsKnown(parse: FieldParser, s: seq<Batch>) {
    forall k :: 0 <= k < |s| ==> parse(s[k].startTime).At?
  }

  function StartOf(parse: FieldParser, b: Batch): int
    requires parse(b.startTime).At?
  {
    parse(b.startTime).instant
  }

  function EndOf(parse: FieldParser, b: Batch): int
    requires parse(b.endTime).At?
  {
    parse(b.endTime).instant
  }

  predicate SortedByStart(parse: FieldParser, s: seq<Batch>)
    requires StartsKnown(parse, s)
  {
    forall i, j :: 0 <= i < j < |s| ==> StartOf(parse, s[i]) <= StartOf(parse, s[j])
  }

  /** A batch paired with its sort key, as `sorted(..., key=...)` computes each key once. */
  type Keyed = (int, Batch)

  /** Each pair carries its batch's start instant. */
  predicate KeysMatch(parse: FieldParser, ps: seq<Keyed>) {
    forall k :: 0 <= k < |ps| ==> parse(ps[k].1.startTime).At? && ps[k].0 == StartOf(parse, ps[k].1)
  }

  function Decorate(parse: FieldParser, g: seq<Batch>): (ps: seq<Keyed>)
    requires StartsKnown(parse, g)
    ensures |ps| == |g| && KeysMatch(parse, ps)
    ensures forall k :: 0 <= k < |g| ==> ps[k].1 == g[k]
  {
    if g == [] then [] else [(StartOf(parse, g[0]), g[0])] + Decorate(parse, g[1..])
  }

  predicate KeyedSorted<T>(ps: seq<(int, T)>) {
    forall i, j :: 0 <= i < j < |ps| ==> ps[i].0 <= ps[j].0
  }

  function Payloads<T>(ps: seq<(int, T)>): (r: seq<T>)
    ensures |r| == |ps| && forall k :: 0 <= k < |ps| ==> r[k] == ps[k].1
  {
    if ps == [] then [] else [ps[0].1] + Payloads(ps[1..])
  }

  /** Insert `x` after every pair whose key is not larger than its own. */
  function InsertKeyed<T>(x: (int, T), ps: seq<(int, T)>): seq<(int, T)> {
    if ps == [] then [x]
    else if x.0 < ps[0].0 then [x] + ps
    else [ps[0]] + InsertKeyed(x, ps[1..])
  }

  lemma {:induction false} InsertKeyedPerm<T>(x: (int, T), ps: seq<(int, T)>)
    ensures multiset(InsertKeyed(x, ps)) == multiset(ps) + multiset{x}
  {
    if ps != [] && x.0 >= ps[0].0 {
      InsertKeyedPerm(x, ps[1..]);
      assert ps == [ps[0]] + ps[1..];
    }
  }

  lemma {:induction false} InsertKeyedSorted<T>(x: (int, T), ps: seq<(int, T)>)
    requires KeyedSorted(ps)
    ensures KeyedSorted(InsertKeyed(x, ps))
  {
    if ps != [] && x.0 >= ps[0].0 {
      var rest := InsertKeyed(x, ps[1..]);
      InsertKeyedSorted(x, ps[1..]);
      InsertKeyedPerm(x, ps[1..]);
      forall k | 0 <= k < |rest| ensures ps[0].0 <= rest[k].0 {
        assert rest[k] in multiset(rest);
        assert rest[k] == x || rest[k] in multiset(ps[1..]);
      }
    }
  }

  function SortKeyed<T>(ps: seq<(int, T)>): seq<(int, T)> {
    if ps == [] then [] else InsertKeyed(ps[|ps| - 1], SortKeyed(ps[..|ps| - 1]))
  }

  lemma {:induction false} SortKeyedPerm<T>(ps: seq<(int, T)>)
    ensures multiset(SortKeyed(ps)) == multiset(ps)
  {
    if ps != [] {
      var init := ps[..|ps| - 1];
      SortKeyedPerm(init);
      InsertKeyedPerm(ps[|ps| - 1], SortKeyed(init));
      assert ps == init + [ps[|ps| - 1]];
    }
  }

  lemma {:induction false} SortKeyedSorted<T>(ps: seq<(int, T)>)
    ensures KeyedSorted(SortKeyed(ps))
  {
    if ps != [] {
      SortKeyedSorted(ps[..|ps| - 1]);
      InsertKeyedSorted(ps[|ps| - 1], SortKeyed(ps[..|ps| - 1]));
    }
  }

  lemma {:induction false} PayloadsInsert<T>(x: (int, T), ps: seq<(int, T)>)
    ensures multiset(Payloads(InsertKeyed(x, ps))) == multiset(Payloads(ps)) + multiset{x.1}
  {
    if ps != [] && x.0 >= ps[0].0 {
      PayloadsInsert(x, ps[1..]);
      assert Payloads(ps) == [ps[0].1] + Payloads(ps[1..]);
      assert Payloads(InsertKeyed(x, ps)) == [ps[0].1] + Payloads(InsertKeyed(x, ps[1..]));
    } else if ps != [] {
      assert Payloads(InsertKeyed(x, ps)) == [x.1] + Payloads(ps);
    }
  }

  lemma PayloadsSnoc<T>(init: seq<(int, T)>, x: (int, T))
    ensures Payloads(init + [x]) == Payloads(init) + [x.1]
  {
    var whole, front := Payloads(init + [x]), Payloads(init);
    forall k | 0 <= k < |whole| ensures whole[k] == (front + [x.1])[k] {
      if k < |front| {
        assert (init + [x])[k] == init[k];
      }
    }
  }

  lemma {:induction false} PayloadsSort<T>(ps: seq<(int, T)>)
    ensures multiset(Payloads(SortKeyed(ps))) == multiset(Payloads(ps))
  {
    if ps != [] {
      var init := ps[..|ps| - 1];
      var x := ps[|ps| - 1];
      assert ps == init + [x];
      PayloadsSort(init);
      PayloadsInsert(x, SortKeyed(init));
      PayloadsSnoc(init, x);
    }
  }

  lemma KeysMatchPerm(parse: FieldParser, ps: seq<Keyed>, qs: seq<Keyed>)
    requires KeysMatch(parse, ps) && multiset(qs) == multiset(ps)
    ensures KeysMatch(parse, qs)
  {
    forall k | 0 <= k < |qs|
      ensures parse(qs[k].1.startTime).At? && qs[k].0 == StartOf(parse, qs[k].1)
    {
      assert qs[k] in multiset(ps);
      var j :| 0 <= j < |ps| && ps[j] == qs[k];
    }
  }

  /** `sorted(blist, key=_start)`: a stable insertion sort on the decorated batches. */
  function SortByStart(parse: FieldParser, g: seq<Batch>): (r: seq<Batch>)
    requires StartsKnown(parse, g)
    ensures |r| == |g| && StartsKnown(parse, r)
  {
    var ps := Decorate(parse, g);
    var qs := SortKeyed(ps);
    SortKeyedPerm(ps);
    KeysMatchPerm(parse, ps, qs);
    assert |qs| == |ps| by {
      assert |multiset(qs)| == |multiset(ps)|;
    }
    Payloads(qs)
  }

  /** The sort returns the group's batches, each as often as before, in non-decreasing order of start. */
  lemma SortByStartSpec(parse: FieldParser, g: seq<Batch>)
    requires StartsKnown(parse, g)
    ensures SortedByStart(parse, SortByStart(parse, g))
    ensures multiset(SortByStart(parse, g)) == multiset(g)
  {
    var ps := Decorate(parse, g);
    var qs := SortKeyed(ps);
    SortKeyedSorted(ps);
    SortKeyedPerm(ps);
    KeysMatchPerm(parse, ps, qs);
    PayloadsSort(ps);
    assert Payloads(ps) == g;
  }

  /** The batches of `s` whose start is `t`, in order. */
  function WithStart(parse: FieldParser, s: seq<Batch>, t: int): seq<Batch>
    requires StartsKnown(parse, s)
  {
    if s == [] then []
    else (if StartOf(parse, s[0]) == t then [s[0]] else []) + WithStart(parse, s[1..], t)
  }

  /** The payloads of the pairs of `ps` whose key is `t`, in order. */
  function WithKey<T>(ps: seq<(int, T)>, t: int): seq<T> {
    if ps == [] then []
    else (if ps[0].0 == t then [ps[0].1] else []) + WithKey(ps[1..], t)
  }

  lemma {:induction false} WithKeyAppend<T>(a: seq<(int, T)>, b: seq<(int, T)>, t: int)
    ensures WithKey(a + b, t) == WithKey(a, t) + WithKey(b, t)
  {
    if a == [] {
      assert a + b == b;
    } else {
      var head := if a[0].0 == t then [a[0].1] else [];
      assert (a + b)[0] == a[0];
      assert (a + b)[1..] == a[1..] + b;
      WithKeyAppend(a[1..], b, t);
      assert WithKey(a + b, t) == head + WithKey(a[1..] + b, t);
      assert WithKey(a, t) == head + WithKey(a[1..], t);
    }
  }

  lemma {:induction false} WithKeyNone<T>(ps: seq<(int, T)>, t: int)
    requires forall k :: 0 <= k < |ps| ==> ps[k].0 != t
    ensures WithKey(ps, t) == []
  {
    if ps != [] {
      WithKeyNone(ps[1..], t);
    }
  }

  lemma {:induction false} InsertKeyedStable<T>(x: (int, T), ps: seq<(int, T)>, t: int)
    requires KeyedSorted(ps)
    ensures WithKey(InsertKeyed(x, ps), t) == WithKey(ps, t) + (if x.0 == t then [x.1] else [])
  {
    var r := InsertKeyed(x, ps);
    var mine := if x.0 == t then [x.1] else [];
    if ps == [] {
      assert r == [x] && r[1..] == [];
    } else if x.0 < ps[0].0 {
      assert r == [x] + ps && r[0] == x && r[1..] == ps;
      assert WithKey(r, t) == mine + WithKey(ps, t);
      if x.0 == t {
        assert forall k :: 0 <= k < |ps| ==> ps[k].0 != t by {
          forall k | 0 <= k < |ps| ensures ps[k].0 != t {
            assert ps[0].0 <= ps[k].0;
          }
        }
        WithKeyNone(ps, t);
      }
    } else {
      var rest := InsertKeyed(x, ps[1..]);
      var head := if ps[0].0 == t then [ps[0].1] else [];
      assert r == [ps[0]] + rest && r[0] == ps[0] && r[1..] == rest;
      assert KeyedSorted(ps[1..]) by {
        var tail := ps[1..];
        forall i, j | 0 <= i < j < |tail| ensures tail[i].0 <= tail[j].0 {
          assert tail[i] == ps[i + 1] && tail[j] == ps[j + 1];
        }
      }
      InsertKeyedStable(x, ps[1..], t);
      assert WithKey(r, t) == head + WithKey(rest, t);
      assert WithKey(ps, t) == head + WithKey(ps[1..], t);
    }
  }

  lemma {:induction false} SortKeyedStable<T>(ps: seq<(int, T)>, t: int)
    ensures WithKey(SortKeyed(ps), t) == WithKey(ps, t)
  {
    if ps != [] {
      var init := ps[..|ps| - 1];
      var x := ps[|ps| - 1];
      assert ps == init + [x];
      assert SortKeyed(ps) == InsertKeyed(x, SortKeyed(init));
      SortKeyedStable(init, t);
      SortKeyedSorted(init);
      InsertKeyedStable(x, SortKeyed(init), t);
      WithKeyAppend(init, [x], t);
      assert [x][1..] == [];
      assert WithKey([x], t) == (if x.0 == t then [x.1] else []);
    }
  }

  lemma {:induction false} WithStartPayloads(parse: FieldParser, ps: seq<Keyed>, t: int)
    requires KeysMatch(parse, ps)
    ensures StartsKnown(parse, Payloads(ps))
    ensures WithStart(parse, Payloads(ps), t) == WithKey(ps, t)
  {
    if ps != [] {
      WithStartPayloads(parse, ps[1..], t);
      assert Payloads(ps)[1..] == Payloads(ps[1..]);
    }
  }

  /**
   * The sort is stable: for every start instant, the batches carrying it
   * keep their document order.
   */
  lemma SortByStartStable(parse: FieldParser, g: seq<Batch>, t: int)
    requires StartsKnown(parse, g)
    ensures WithStart(parse, SortByStart(parse, g), t) == WithStart(parse, g, t)
  {
    var ps := Decorate(parse, g);
    var qs := SortKeyed(ps);
    SortKeyedPerm(ps);
    KeysMatchPerm(parse, ps, qs);
    SortKeyedStable(ps, t);
    WithStartPayloads(parse, ps, t);
    WithStartPayloads(parse, qs, t);
    assert Payloads(ps) == g;
  }

  // ---------------------------------------------------------------------------
  // Adjacent comparison (lines 152-158)
  // ---------------------------------------------------------------------------

  /**
   * What lines 150-158 need of one group not to raise: `_start` parses every
   * start; with two or more batches every start is present (`sorted` compares
   * them) and every sorted batch but the last has a parsable end.
   */
  predicate GroupDefined(parse: FieldParser, g: seq<Batch>) {
    (forall k :: 0 <= k < |g| ==> !parse(g[k].startTime).Raises?) &&
    (|g| >= 2 ==>
       StartsKnown(parse, g) &&
       forall i :: 0 <= i < |g| - 1 ==> !parse(SortByStart(parse, g)[i].endTime).Raises?)
  }

  /** The earlier batch of an adjacent pair ends strictly after the later one starts. */
  predicate Flagged(parse: FieldParser, cur: Batch, nxt: Batch)
    requires parse(nxt.startTime).At?
  {
    parse(cur.endTime).At? && EndOf(parse, cur) > StartOf(parse, nxt)
  }

  /** The record for the adjacent pair `cur`, `nxt` of a sorted group on `eq`, if it is flagged. */
  function PairFinding(parse: FieldParser, eq: string, cur: Batch, nxt: Batch): seq<Error>
    requires parse(nxt.startTime).At?
  {
    if Flagged(parse, cur, nxt)
    then [DoubleBooking(eq, cur.batchId, EndOf(parse, cur), nxt.batchId, StartOf(parse, nxt))]
    else []
  }

  /** An adjacent pair that only touches (the earlier end equals the later start) is never flagged. */
  lemma TouchingNotFlagged(parse: FieldParser, eq: string, cur: Batch, nxt: Batch)
    requires parse(nxt.startTime).At? && parse(cur.endTime) == parse(nxt.startTime)
    ensures PairFinding(parse, eq, cur, nxt) == []
  {
  }

  /** The two-batch case: `[0,10)` then `[10,20)` gives no record, `[0,10)` then `[5,20)` exactly one. */
  lemma BackToBackPair(parse: FieldParser, eq: string, cur: Batch, nxt: Batch, late: Batch)
    requires parse(cur.endTime) == At(10) && parse(nxt.startTime) == At(10) && parse(late.startTime) == At(5)
    ensures PairFinding(parse, eq, cur, nxt) == []
    ensures PairFinding(parse, eq, cur, late) == [DoubleBooking(eq, cur.batchId, 10, late.batchId, 5)]
  {
  }

  /** The records for the first `n` adjacent pairs. */
  function PairErrors(parse: FieldParser, eq: string, s: seq<Batch>, n: nat): seq<Error>
    requires StartsKnown(parse, s) && n < |s|
  {
    if n == 0 then [] else PairErrors(parse, eq, s, n - 1) + PairFinding(parse, eq, s[n - 1], s[n])
  }

  /** The records for one equipment group; a group of one batch is never compared. */
  function GroupErrors(parse: FieldParser, eq: string, g: seq<Batch>): seq<Error>
    requires GroupDefined(parse, g)
  {
    if |g| < 2 then []
    else
      var s := SortByStart(parse, g);
      PairErrors(parse, eq, s, |s| - 1)
  }

  /** What pass 5 needs of the plan not to raise: every equipment group is defined. */
  predicate BookingsDefined(parse: FieldParser, bs: seq<Batch>) {
    forall k :: 0 <= k < |bs| ==> GroupDefined(parse, Group(bs, bs[k].equipmentId))
  }

  lemma GroupDefinedFrom(parse: FieldParser, bs: seq<Batch>, eq: string)
    requires BookingsDefined(parse, bs)
    ensures GroupDefined(parse, Group(bs, eq))
  {
    if forall k :: 0 <= k < |bs| ==> bs[k].equipmentId != eq {
      GroupNone(bs, eq);
    } else {
      var k :| 0 <= k < |bs| && bs[k].equipmentId == eq;
    }
  }

  /** The records for the group of `eq` in `bs`. */
  function GroupErrorsOf(parse: FieldParser, bs: seq<Batch>, eq: string): seq<Error>
    requires BookingsDefined(parse, bs)
  {
    GroupDefinedFrom(parse, bs, eq);
    GroupErrors(parse, eq, Group(bs, eq))
  }

  /** The records of the groups `order`, one sequence per group. */
  function GroupResults(parse: FieldParser, bs: seq<Batch>, order: seq<string>): (r: seq<seq<Error>>)
    requires BookingsDefined(parse, bs)
    ensures |r| == |order| && forall k :: 0 <= k < |order| ==> r[k] == GroupErrorsOf(parse, bs, order[k])
  {
    if order == [] then []
    else GroupResults(parse, bs, order[..|order| - 1]) + [GroupErrorsOf(parse, bs, order[|order| - 1])]
  }

  function Flatten(xss: seq<seq<Error>>): seq<Error> {
    if xss == [] then [] else Flatten(xss[..|xss| - 1]) + xss[|xss| - 1]
  }

  /** Pass 5's records for the groups `order`, in that order. */
  function BookingErrorsOver(parse: FieldParser, bs: seq<Batch>, order: seq<string>): seq<Error>
    requires BookingsDefined(parse, bs)
  {
    Flatten(GroupResults(parse, bs, order))
  }

  /** Pass 5's output: every group, in first-appearance order of its equipment. */
  function BookingErrors(parse: FieldParser, bs: seq<Batch>): seq<Error>
    requires BookingsDefined(parse, bs)
  {
    BookingErrorsOver(parse, bs, EquipmentOrder(bs))
  }

  /** Lines 153-158: one adjacent pair; a missing end or start skips the comparison. */
  method ComparePair(parse: FieldParser, eqid: string, cur: Batch, nxt: Batch) returns (found: seq<Error>)
    requires !parse(cur.endTime).Raises? && !parse(nxt.startTime).Raises?
    ensures parse(nxt.startTime).Absent? ==> found == []
    ensures parse(nxt.startTime).At? ==> found == PairFinding(parse, eqid, cur, nxt)
  {
    var curEnd := parse(cur.endTime);
    var nxtStart := parse(nxt.startTime);
    found := [];
    if curEnd.Absent? || nxtStart.Absent? {
      return;
    }
    if curEnd.instant > nxtStart.instant {
      found := [DoubleBooking(eqid, cur.batchId, curEnd.instant, nxt.batchId, nxtStart.instant)];
    }
  }

  /** Lines 149-158 for one group. */
  method CheckGroup(parse: FieldParser, eqid: string, blist: seq<Batch>) returns (found: seq<Error>)
    requires GroupDefined(parse, blist)
    ensures found == GroupErrors(parse, eqid, blist)
  {
    found := [];
    if |blist| < 2 {
      // `range(len(blist_sorted) - 1)` is empty
      return;
    }
    var blistSorted := SortByStart(parse, blist);
    for i := 0 to |blistSorted| - 1
      invariant found == PairErrors(parse, eqid, blistSorted, i)
    {
      var pair := ComparePair(parse, eqid, blistSorted[i], blistSorted[i + 1]);
      found := found + pair;
    }
  }

  /** Lines 142-158. */
  method CheckBookings(parse: FieldParser, batches: seq<Batch>) returns (errors: seq<Error>)
    requires BookingsDefined(parse, batches)
    ensures errors == BookingErrors(parse, batches)
  {
    var order, batchesByEq := GroupByEquipment(batches);
    errors := [];
    for n := 0 to |order|
      invariant errors == BookingErrorsOver(parse, batches, order[..n])
    {
      var eqid := order[n];
      assert order[..n + 1][..n] == order[..n] && order[..n + 1][n] == eqid;
      assert eqid in batchesByEq by {
        assert order[n] in order;
      }
      var blist := batchesByEq[eqid];
      assert blist == Group(batches, eqid);
      GroupDefinedFrom(parse, batches, eqid);
      var found := CheckGroup(parse, eqid, blist);
      ghost var before := GroupResults(parse, batches, order[..n]);
      assert GroupResults(parse, batches, order[..n + 1]) == before + [GroupErrorsOf(parse, batches, eqid)];
      assert (before + [GroupErrorsOf(parse, batches, eqid)])[..|before|] == before;
      errors := errors + found;
    }
    assert order[..|order|] == order;
  }

  // ---------------------------------------------------------------------------
  // What pass 5 reports
  // ---------------------------------------------------------------------------

  /** A batch with a known interval of positive length (what pass 1 accepts). */
  predicate Scheduled(parse: FieldParser, b: Batch) {
    parse(b.startTime).At? && parse(b.endTime).At? &&
    parse(b.startTime).instant < parse(b.endTime).instant
  }

  predicate AllScheduled(parse: FieldParser, s: seq<Batch>) {
    forall k :: 0 <= k < |s| ==> Scheduled(parse, s[k])
  }

  /** The two batches' intervals overlap. */
  predicate Clash(parse: FieldParser, a: Batch, b: Batch)
    requires Scheduled(parse, a) && Scheduled(parse, b)
  {
    Overlaps(StartOf(parse, a), EndOf(parse, a), StartOf(parse, b), EndOf(parse, b))
  }

  /** No two positions of `s` hold overlapping batches. */
  predicate NoClash(parse: FieldParser, s: seq<Batch>)
    requires AllScheduled(parse, s)
  {
    forall i, j :: 0 <= i < j < |s| ==> !Clash(parse, s[i], s[j])
  }

  lemma {:induction false} PairErrorsMembers(parse: FieldParser, eq: string, s: seq<Batch>, n: nat, err: Error)
    requires StartsKnown(parse, s) && n < |s|
    ensures err in PairErrors(parse, eq, s, n) <==> exists i :: 0 <= i < n && err in PairFinding(parse, eq, s[i], s[i + 1])
  {
    if n > 0 {
      PairErrorsMembers(parse, eq, s, n - 1, err);
    }
  }

  /**
   * A record names an adjacent pair of the start-sorted group in which the
   * earlier batch ends strictly after the later one starts, and every such
   * pair is reported.
   */
  lemma DoubleBookingIff(parse: FieldParser, eq: string, g: seq<Batch>, err: Error)
    requires GroupDefined(parse, g) && |g| >= 2
    ensures var s := SortByStart(parse, g);
            err in GroupErrors(parse, eq, g) <==>
              exists i :: 0 <= i < |s| - 1 && Flagged(parse, s[i], s[i + 1]) &&
                          err == DoubleBooking(eq, s[i].batchId, EndOf(parse, s[i]), s[i + 1].batchId, StartOf(parse, s[i + 1]))
  {
    var s := SortByStart(parse, g);
    PairErrorsMembers(parse, eq, s, |s| - 1, err);
  }

  /** With no record for the first `|s| - 1` pairs, every batch ends no later than any later one starts. */
  lemma {:induction false} NoFlagsChain(parse: FieldParser, eq: string, s: seq<Batch>, i: nat, j: nat)
    requires StartsKnown(parse, s) && AllScheduled(parse, s)
    requires forall k :: 0 <= k < |s| - 1 ==> PairFinding(parse, eq, s[k], s[k + 1]) == []
    requires i < j < |s|
    ensures EndOf(parse, s[i]) <= StartOf(parse, s[j])
    decreases j - i
  {
    if j == i + 1 {
      assert PairFinding(parse, eq, s[i], s[i + 1]) == [];
      assert Scheduled(parse, s[i]);
    } else {
      NoFlagsChain(parse, eq, s, i, j - 1);
      assert PairFinding(parse, eq, s[j - 1], s[j]) == [];
      assert Scheduled(parse, s[j - 1]);
    }
  }

  /** On a start-sorted sequence of scheduled batches, no adjacent record means no two batches overlap, and conversely. */
  lemma SortedCleanIff(parse: FieldParser, eq: string, s: seq<Batch>)
    requires StartsKnown(parse, s) && AllScheduled(parse, s) && SortedByStart(parse, s) && |s| >= 1
    ensures PairErrors(parse, eq, s, |s| - 1) == [] <==> NoClash(parse, s)
  {
    var n := |s| - 1;
    if PairErrors(parse, eq, s, n) == [] {
      forall k | 0 <= k < n ensures PairFinding(parse, eq, s[k], s[k + 1]) == [] {
        if PairFinding(parse, eq, s[k], s[k + 1]) != [] {
          PairErrorsMembers(parse, eq, s, n, PairFinding(parse, eq, s[k], s[k + 1])[0]);
        }
      }
      forall i, j | 0 <= i < j < |s| ensures !Clash(parse, s[i], s[j]) {
        NoFlagsChain(parse, eq, s, i, j);
      }
    } else {
      var err := PairErrors(parse, eq, s, n)[0];
      PairErrorsMembers(parse, eq, s, n, err);
      var k :| 0 <= k < n && err in PairFinding(parse, eq, s[k], s[k + 1]);
      assert Scheduled(parse, s[k]) && Scheduled(parse, s[k + 1]);
      assert Clash(parse, s[k], s[k + 1]);
    }
  }

  // ---------------------------------------------------------------------------
  // Positions and multiplicities
  // ---------------------------------------------------------------------------

  lemma CountAtLeastTwo(s: seq<Batch>, p: nat, q: nat)
    requires p < q < |s| && s[p] == s[q]
    ensures multiset(s)[s[p]] >= 2
  {
    assert s == s[..q] + s[q..];
    assert s[p] in s[..q];
    assert s[q] in s[q..];
  }

  lemma {:induction false} TwoCopies(s: seq<Batch>, v: Batch) returns (i: nat, j: nat)
    requires multiset(s)[v] >= 2
    ensures i < j < |s| && s[i] == v && s[j] == v
  {
    var init := s[..|s| - 1];
    var x := s[|s| - 1];
    assert s == init + [x];
    if x == v {
      assert v in multiset(init);
      i :| 0 <= i < |init| && init[i] == v;
      j := |s| - 1;
    } else {
      i, j := TwoCopies(init, v);
    }
  }

  /** Two positions of `a` have two distinct matching positions in `b` when `b` holds their values at least as often. */
  lemma DistinctPositions(a: seq<Batch>, b: seq<Batch>, p: nat, q: nat) returns (i: nat, j: nat)
    requires p < q < |a|
    requires multiset(a)[a[p]] <= multiset(b)[a[p]] && multiset(a)[a[q]] <= multiset(b)[a[q]]
    ensures i < |b| && j < |b| && i != j && b[i] == a[p] && b[j] == a[q]
  {
    if a[p] != a[q] {
      assert a[p] in multiset(a) && a[q] in multiset(a);
      assert a[p] in multiset(b) && a[q] in multiset(b);
      i :| 0 <= i < |b| && b[i] == a[p];
      j :| 0 <= j < |b| && b[j] == a[q];
    } else {
      CountAtLeastTwo(a, p, q);
      i, j := TwoCopies(b, a[p]);
    }
  }

  lemma {:induction false} GroupCount(bs: seq<Batch>, eq: string, v: Batch)
    ensures multiset(Group(bs, eq))[v] == if v.equipmentId == eq then multiset(bs)[v] else 0
  {
    if bs != [] {
      var init := bs[..|bs| - 1];
      GroupCount(init, eq, v);
      assert bs == init + [bs[|bs| - 1]];
    }
  }

  // ---------------------------------------------------------------------------
  // No double-booking
  // ---------------------------------------------------------------------------

  lemma ScheduledGroupDefined(parse: FieldParser, g: seq<Batch>)
    requires AllScheduled(parse, g)
    ensures GroupDefined(parse, g)
  {
    if |g| >= 2 {
      var s := SortByStart(parse, g);
      SortByStartSpec(parse, g);
      forall i | 0 <= i < |g| - 1 ensures !parse(s[i].endTime).Raises? {
        assert s[i] in multiset(g);
      }
    }
  }

  lemma AllScheduledPerm(parse: FieldParser, a: seq<Batch>, b: seq<Batch>)
    requires AllScheduled(parse, b) && multiset(a) == multiset(b)
    ensures AllScheduled(parse, a)
  {
    forall k | 0 <= k < |a| ensures Scheduled(parse, a[k]) {
      assert a[k] in multiset(b);
    }
  }

  /** Rearranging a sequence does not change whether two of its positions overlap. */
  lemma NoClashPerm(parse: FieldParser, a: seq<Batch>, b: seq<Batch>)
    requires AllScheduled(parse, a) && AllScheduled(parse, b) && multiset(a) == multiset(b) && NoClash(parse, b)
    ensures NoClash(parse, a)
  {
    forall p, q | 0 <= p < q < |a| ensures !Clash(parse, a[p], a[q]) {
      var i, j := DistinctPositions(a, b, p, q);
      if j < i {
        assert !Clash(parse, b[j], b[i]);
      } else {
        assert !Clash(parse, b[i], b[j]);
      }
    }
  }

  /** For a start-ordered rearrangement `s` of a scheduled group `g`, the adjacent comparisons are clean iff `g` has no clash. */
  lemma PermCleanIff(parse: FieldParser, eq: string, g: seq<Batch>, s: seq<Batch>)
    requires AllScheduled(parse, g) && StartsKnown(parse, s) && SortedByStart(parse, s)
    requires multiset(s) == multiset(g) && |s| >= 1
    ensures AllScheduled(parse, s)
    ensures PairErrors(parse, eq, s, |s| - 1) == [] <==> NoClash(parse, g)
  {
    AllScheduledPerm(parse, s, g);
    SortedCleanIff(parse, eq, s);
    if NoClash(parse, s) {
      NoClashPerm(parse, g, s);
    }
    if NoClash(parse, g) {
      NoClashPerm(parse, s, g);
    }
  }

  /** A group of scheduled batches gets no record exactly when no two of its batches overlap. */
  lemma GroupCleanIff(parse: FieldParser, eq: string, g: seq<Batch>)
    requires AllScheduled(parse, g)
    ensures GroupDefined(parse, g)
    ensures GroupErrors(parse, eq, g) == [] <==> NoClash(parse, g)
  {
    ScheduledGroupDefined(parse, g);
    if |g| >= 2 {
      var s := SortByStart(parse, g);
      SortByStartSpec(parse, g);
      PermCleanIff(parse, eq, g, s);
    }
  }

  lemma {:induction false} FlattenEmpty(xss: seq<seq<Error>>)
    ensures Flatten(xss) == [] <==> forall k :: 0 <= k < |xss| ==> xss[k] == []
  {
    if xss != [] {
      var init := xss[..|xss| - 1];
      FlattenEmpty(init);
      assert forall k :: 0 <= k < |init| ==> init[k] == xss[k];
    }
  }

  /** Every group of a plan of scheduled batches is scheduled, so pass 5 cannot raise. */
  lemma ScheduledBookingsDefined(parse: FieldParser, bs: seq<Batch>)
    requires AllScheduled(parse, bs)
    ensures forall eq :: AllScheduled(parse, Group(bs, eq))
    ensures BookingsDefined(parse, bs)
  {
    forall eq ensures AllScheduled(parse, Group(bs, eq)) {
      var g := Group(bs, eq);
      forall k | 0 <= k < |g| ensures Scheduled(parse, g[k]) {
        GroupMembers(bs, eq, g[k]);
      }
    }
    forall k | 0 <= k < |bs| ensures GroupDefined(parse, Group(bs, bs[k].equipmentId)) {
      ScheduledGroupDefined(parse, Group(bs, bs[k].equipmentId));
    }
  }

  /** No two batches at different positions of `bs` on the same equipment overlap. */
  predicate NoDoubleBooking(parse: FieldParser, bs: seq<Batch>)
    requires AllScheduled(parse, bs)
  {
    forall p, q :: 0 <= p < q < |bs| && bs[p].equipmentId == bs[q].equipmentId ==> !Clash(parse, bs[p], bs[q])
  }

  lemma CleanGroupsNoDoubleBooking(parse: FieldParser, bs: seq<Batch>)
    requires AllScheduled(parse, bs)
    requires forall eq :: AllScheduled(parse, Group(bs, eq)) && NoClash(parse, Group(bs, eq))
    ensures NoDoubleBooking(parse, bs)
  {
    ScheduledBookingsDefined(parse, bs);
    forall p, q | 0 <= p < q < |bs| && bs[p].equipmentId == bs[q].equipmentId
      ensures !Clash(parse, bs[p], bs[q])
    {
      var eq := bs[p].equipmentId;
      var g := Group(bs, eq);
      GroupCount(bs, eq, bs[p]);
      GroupCount(bs, eq, bs[q]);
      var i, j := DistinctPositions(bs, g, p, q);
      if j < i {
        assert !Clash(parse, g[j], g[i]);
      } else {
        assert !Clash(parse, g[i], g[j]);
      }
    }
  }

  lemma NoDoubleBookingCleanGroup(parse: FieldParser, bs: seq<Batch>, eq: string)
    requires AllScheduled(parse, bs) && NoDoubleBooking(parse, bs)
    ensures AllScheduled(parse, Group(bs, eq)) && NoClash(parse, Group(bs, eq))
  {
    ScheduledBookingsDefined(parse, bs);
    var g := Group(bs, eq);
    forall i, j | 0 <= i < j < |g| ensures !Clash(parse, g[i], g[j]) {
      GroupCount(bs, eq, g[i]);
      GroupCount(bs, eq, g[j]);
      GroupMembers(bs, eq, g[i]);
      GroupMembers(bs, eq, g[j]);
      var p, q := DistinctPositions(g, bs, i, j);
      if q < p {
        assert !Clash(parse, bs[q], bs[p]);
      } else {
        assert !Clash(parse, bs[p], bs[q]);
      }
    }
  }

  /** A plan of scheduled batches gets no pass-5 record exactly when no two batches on the same equipment overlap. */
  lemma NoDoubleBookingIff(parse: FieldParser, bs: seq<Batch>)
    requires AllScheduled(parse, bs)
    ensures BookingsDefined(parse, bs)
    ensures BookingErrors(parse, bs) == [] <==> NoDoubleBooking(parse, bs)
  {
    ScheduledBookingsDefined(parse, bs);
    var order := EquipmentOrder(bs);
    var results := GroupResults(parse, bs, order);
    FlattenEmpty(results);
    if BookingErrors(parse, bs) == [] {
      forall eq ensures AllScheduled(parse, Group(bs, eq)) && NoClash(parse, Group(bs, eq)) {
        GroupCleanIff(parse, eq, Group(bs, eq));
        if eq in order {
          var k :| 0 <= k < |order| && order[k] == eq;
          assert results[k] == [];
        } else {
          GroupNone(bs, eq);
        }
      }
      CleanGroupsNoDoubleBooking(parse, bs);
    } else {
      var k :| 0 <= k < |results| && results[k] != [];
      var eq := order[k];
      GroupCleanIff(parse, eq, Group(bs, eq));
      if NoDoubleBooking(parse, bs) {
        NoDoubleBookingCleanGroup(parse, bs, eq);
      }
    }
  }
}
