/** Pass 4, downtime and holiday conflicts (src/validator.py:116-139). */
module Conflicts {
  import opened Wrappers
  import opened Timestamps
  import opened Intervals
  import opened Plan

  /** A parsed `(start, end, label)` tuple of `dt_by_eq` or `hols`. */
  datatype Window = Window(start: Parsed, end: Parsed, name: string)

  function DowntimeWindow(fromIso: IsoParser, d: Downtime): Window {
    Window(GetParse(fromIso, d.startTime), GetParse(fromIso, d.endTime), d.downtimeId)
  }

  function HolidayWindow(fromIso: IsoParser, h: Holiday): Window {
    Window(GetParse(fromIso, h.startTime), GetParse(fromIso, h.endTime), h.holidayName)
  }

  /** `dt_by_eq.get(eq, [])`: the windows of the downtimes on `eq`, in document order. */
  function DowntimeWindows(fromIso: IsoParser, downtimes: seq<Downtime>, eq: string): seq<Window> {
    if downtimes == [] then []
    else
      var d := downtimes[|downtimes| - 1];
      DowntimeWindows(fromIso, downtimes[..|downtimes| - 1], eq) +
      (if d.equipmentId == eq then [DowntimeWindow(fromIso, d)] else [])
  }

  /** `hols`: every holiday's window, in document order. */
  function HolidayWindows(fromIso: IsoParser, holidays: seq<Holiday>): seq<Window>
  {
    seq(|holidays|, k requires 0 <= k < |holidays| => HolidayWindow(fromIso, holidays[k]))
  }

  lemma {:induction false} DowntimeWindowsMembers(fromIso: IsoParser, downtimes: seq<Downtime>, eq: string, w: Window)
    ensures w in DowntimeWindows(fromIso, downtimes, eq) <==>
              exists k :: 0 <= k < |downtimes| && downtimes[k].equipmentId == eq && DowntimeWindow(fromIso, downtimes[k]) == w
  {
    if downtimes != [] {
      var init := downtimes[..|downtimes| - 1];
      DowntimeWindowsMembers(fromIso, init, eq, w);
      assert forall k :: 0 <= k < |init| ==> init[k] == downtimes[k];
    }
  }

  lemma {:induction false} DowntimeWindowsNone(fromIso: IsoParser, downtimes: seq<Downtime>, eq: string)
    requires forall k :: 0 <= k < |downtimes| ==> downtimes[k].equipmentId != eq
    ensures DowntimeWindows(fromIso, downtimes, eq) == []
  {
    if downtimes != [] {
      var init := downtimes[..|downtimes| - 1];
      assert forall k :: 0 <= k < |init| ==> init[k] == downtimes[k];
      DowntimeWindowsNone(fromIso, init, eq);
    }
  }

  /** Lines 116-120: group the downtime windows by equipment, keeping document order. */
  method IndexDowntimes(fromIso: IsoParser, downtimes: seq<Downtime>) returns (dtByEq: map<string, seq<Window>>)
    requires forall k :: 0 <= k < |downtimes| ==>
               StampParses(fromIso, downtimes[k].startTime) && StampParses(fromIso, downtimes[k].endTime)
    ensures forall eq :: eq in dtByEq <==> exists k :: 0 <= k < |downtimes| && downtimes[k].equipmentId == eq
    ensures forall eq :: (if eq in dtByEq then dtByEq[eq] else []) == DowntimeWindows(fromIso, downtimes, eq)
  {
    dtByEq := map[];
    for i := 0 to |downtimes|
      invariant forall eq :: eq in dtByEq <==> exists k :: 0 <= k < i && downtimes[k].equipmentId == eq
      invariant forall eq :: eq in dtByEq ==> dtByEq[eq] == DowntimeWindows(fromIso, downtimes[..i], eq)
    {
      var d := downtimes[i];
      var eqid := d.equipmentId;
      var w := DowntimeWindow(fromIso, d);
      ghost var before := dtByEq;
      assert downtimes[..i + 1][..i] == downtimes[..i];
      if eqid !in dtByEq {
        DowntimeWindowsNone(fromIso, downtimes[..i], eqid);
      }
      dtByEq := dtByEq[eqid := (if eqid in dtByEq then dtByEq[eqid] else []) + [w]];
      forall eq | eq in dtByEq ensures dtByEq[eq] == DowntimeWindows(fromIso, downtimes[..i + 1], eq) {
        if eq != eqid {
          assert dtByEq[eq] == before[eq];
        }
      }
    }
    assert downtimes[..|downtimes|] == downtimes;
    forall eq | eq !in dtByEq ensures DowntimeWindows(fromIso, downtimes, eq) == [] {
      DowntimeWindowsNone(fromIso, downtimes, eq);
    }
  }

  /** Lines 121-124. */
  method ListHolidays(fromIso: IsoParser, holidays: seq<Holiday>) returns (hols: seq<Window>)
    requires forall k :: 0 <= k < |holidays| ==>
               StampParses(fromIso, holidays[k].startTime) && StampParses(fromIso, holidays[k].endTime)
    ensures hols == HolidayWindows(fromIso, holidays)
  {
    hols := [];
    for i := 0 to |holidays|
      invariant hols == HolidayWindows(fromIso, holidays[..i])
    {
      var h := holidays[i];
      var s := GetParse(fromIso, h.startTime);
      var e := GetParse(fromIso, h.endTime);
      hols := hols + [Window(s, e, h.holidayName)];
    }
    assert holidays[..|holidays|] == holidays;
  }

  /**
   * `overlaps(s, e, ws, we)` evaluates without a `TypeError`: it compares
   * `s < we` first and only then `ws < e`, so the window's end must be present,
   * and its start too whenever the first comparison holds.
   */
  predicate Comparable(s: int, w: Window) {
    w.end.At? && (s < w.end.instant ==> w.start.At?)
  }

  /** `overlaps(s, e, ws, we)` on a comparable window. */
  predicate Hits(s: int, e: int, w: Window)
    requires Comparable(s, w)
  {
    s < w.end.instant && Overlaps(s, e, w.start.instant, w.end.instant)
  }

  function DowntimeHits(bid: string, eq: string, s: int, e: int, ws: seq<Window>): seq<Error>
    requires forall k :: 0 <= k < |ws| ==> Comparable(s, ws[k])
  {
    if ws == [] then []
    else
      var w := ws[|ws| - 1];
      DowntimeHits(bid, eq, s, e, ws[..|ws| - 1]) +
      (if Hits(s, e, w) then [DowntimeConflict(bid, s, e, w.name, eq, w.start.instant, w.end.instant)] else [])
  }

  function HolidayHits(bid: string, s: int, e: int, ws: seq<Window>): seq<Error>
    requires forall k :: 0 <= k < |ws| ==> Comparable(s, ws[k])
  {
    if ws == [] then []
    else
      var w := ws[|ws| - 1];
      HolidayHits(bid, s, e, ws[..|ws| - 1]) +
      (if Hits(s, e, w) then [HolidayConflict(bid, s, e, w.name, w.start.instant, w.end.instant)] else [])
  }

  /** The batch has both a start and an end (absent ones are skipped by the pass). */
  predicate Timed(fromIso: IsoParser, b: Batch) {
    GetParse(fromIso, b.startTime).At? && GetParse(fromIso, b.endTime).At?
  }

  /** What lines 119-139 need of the plan to run without raising. */
  predicate WindowsParse(fromIso: IsoParser, downtimes: seq<Downtime>, holidays: seq<Holiday>) {
    (forall k :: 0 <= k < |downtimes| ==>
       StampParses(fromIso, downtimes[k].startTime) && StampParses(fromIso, downtimes[k].endTime)) &&
    (forall k :: 0 <= k < |holidays| ==>
       StampParses(fromIso, holidays[k].startTime) && StampParses(fromIso, holidays[k].endTime))
  }

  predicate BatchComparable(fromIso: IsoParser, downtimes: seq<Downtime>, holidays: seq<Holiday>, b: Batch) {
    StampParses(fromIso, b.startTime) && StampParses(fromIso, b.endTime) &&
    (Timed(fromIso, b) ==>
       var s := GetParse(fromIso, b.startTime).instant;
       (forall w :: w in DowntimeWindows(fromIso, downtimes, b.equipmentId) ==> Comparable(s, w)) &&
       (forall w :: w in HolidayWindows(fromIso, holidays) ==> Comparable(s, w)))
  }

  predicate ConflictsDefined(fromIso: IsoParser, downtimes: seq<Downtime>, holidays: seq<Holiday>, batches: seq<Batch>) {
    WindowsParse(fromIso, downtimes, holidays) &&
    forall i :: 0 <= i < |batches| ==> BatchComparable(fromIso, downtimes, holidays, batches[i])
  }

  /** The records one batch contributes: one per overlapping downtime on its equipment, then one per overlapping holiday. */
  function ConflictFindings(fromIso: IsoParser, downtimes: seq<Downtime>, holidays: seq<Holiday>, b: Batch): seq<Error>
    requires BatchComparable(fromIso, downtimes, holidays, b)
  {
    if !Timed(fromIso, b) then []
    else
      var s := GetParse(fromIso, b.startTime).instant;
      var e := GetParse(fromIso, b.endTime).instant;
      DowntimeHits(b.batchId, b.equipmentId, s, e, DowntimeWindows(fromIso, downtimes, b.equipmentId)) +
      HolidayHits(b.batchId, s, e, HolidayWindows(fromIso, holidays))
  }

  /** Pass 4's output for `bs`, batch by batch. */
  function ConflictErrors(fromIso: IsoParser, downtimes: seq<Downtime>, holidays: seq<Holiday>, bs: seq<Batch>): seq<Error>
    requires forall i :: 0 <= i < |bs| ==> BatchComparable(fromIso, downtimes, holidays, bs[i])
  {
    if bs == [] then []
    else
      ConflictErrors(fromIso, downtimes, holidays, bs[..|bs| - 1]) +
      ConflictFindings(fromIso, downtimes, holidays, bs[|bs| - 1])
  }

  /** The inner downtime loop of lines 133-135. */
  method ScanDowntimes(bid: string, eq: string, s: int, e: int, ws: seq<Window>) returns (found: seq<Error>)
    requires forall k :: 0 <= k < |ws| ==> Comparable(s, ws[k])
    ensures found == DowntimeHits(bid, eq, s, e, ws)
  {
    found := [];
    for j := 0 to |ws|
      invariant found == DowntimeHits(bid, eq, s, e, ws[..j])
    {
      assert ws[..j + 1][..j] == ws[..j];
      var w := ws[j];
      if s < w.end.instant && w.start.instant < e {
        found := found + [DowntimeConflict(bid, s, e, w.name, eq, w.start.instant, w.end.instant)];
      }
    }
    assert ws[..|ws|] == ws;
  }

  /** The inner holiday loop of lines 137-139. */
  method ScanHolidays(bid: string, s: int, e: int, ws: seq<Window>) returns (found: seq<Error>)
    requires forall k :: 0 <= k < |ws| ==> Comparable(s, ws[k])
    ensures found == HolidayHits(bid, s, e, ws)
  {
    found := [];
    for j := 0 to |ws|
      invariant found == HolidayHits(bid, s, e, ws[..j])
    {
      assert ws[..j + 1][..j] == ws[..j];
      var w := ws[j];
      if s < w.end.instant && w.start.instant < e {
        found := found + [HolidayConflict(bid, s, e, w.name, w.start.instant, w.end.instant)];
      }
    }
    assert ws[..|ws|] == ws;
  }

  /** The body of the batch loop, lines 127-139, for one batch. */
  method BatchConflicts(fromIso: IsoParser, downtimes: seq<Downtime>, holidays: seq<Holiday>,
                        dtByEq: map<string, seq<Window>>, hols: seq<Window>, b: Batch)
    returns (found: seq<Error>)
    requires BatchComparable(fromIso, downtimes, holidays, b)
    requires forall eq :: (if eq in dtByEq then dtByEq[eq] else []) == DowntimeWindows(fromIso, downtimes, eq)
    requires hols == HolidayWindows(fromIso, holidays)
    ensures found == ConflictFindings(fromIso, downtimes, holidays, b)
  {
    var s := GetParse(fromIso, b.startTime);
    var e := GetParse(fromIso, b.endTime);
    if s.Absent? || e.Absent? {
      return [];
    }
    var ws := if b.equipmentId in dtByEq then dtByEq[b.equipmentId] else [];
    assert ws == DowntimeWindows(fromIso, downtimes, b.equipmentId);
    assert forall k :: 0 <= k < |ws| ==> Comparable(s.instant, ws[k]) by {
      forall k | 0 <= k < |ws| ensures Comparable(s.instant, ws[k]) {
        assert ws[k] in DowntimeWindows(fromIso, downtimes, b.equipmentId);
      }
    }
    assert forall k :: 0 <= k < |hols| ==> Comparable(s.instant, hols[k]) by {
      forall k | 0 <= k < |hols| ensures Comparable(s.instant, hols[k]) {
        assert hols[k] in HolidayWindows(fromIso, holidays);
      }
    }
    var onEquipment := ScanDowntimes(b.batchId, b.equipmentId, s.instant, e.instant, ws);
    var onHolidays := ScanHolidays(b.batchId, s.instant, e.instant, hols);
    found := onEquipment + onHolidays;
  }

  /** Lines 116-139. */
  method CheckConflicts(fromIso: IsoParser, downtimes: seq<Downtime>, holidays: seq<Holiday>, batches: seq<Batch>)
    returns (errors: seq<Error>)
    requires ConflictsDefined(fromIso, downtimes, holidays, batches)
    ensures errors == ConflictErrors(fromIso, downtimes, holidays, batches)
  {
    var dtByEq := IndexDowntimes(fromIso, downtimes);
    var hols := ListHolidays(fromIso, holidays);
    errors := [];
    for i := 0 to |batches|
      invariant errors == ConflictErrors(fromIso, downtimes, holidays, batches[..i])
    {
      assert batches[..i + 1][..i] == batches[..i];
      var found := BatchConflicts(fromIso, downtimes, holidays, dtByEq, hols, batches[i]);
      errors := errors + found;
    }
    assert batches[..|batches|] == batches;
  }

  lemma {:induction false} DowntimeHitsMembers(bid: string, eq: string, s: int, e: int, ws: seq<Window>, err: Error)
    requires forall k :: 0 <= k < |ws| ==> Comparable(s, ws[k])
    ensures err in DowntimeHits(bid, eq, s, e, ws) <==>
              exists k :: 0 <= k < |ws| && Hits(s, e, ws[k]) &&
                          err == DowntimeConflict(bid, s, e, ws[k].name, eq, ws[k].start.instant, ws[k].end.instant)
  {
    if ws != [] {
      var init := ws[..|ws| - 1];
      assert forall k :: 0 <= k < |init| ==> init[k] == ws[k];
      DowntimeHitsMembers(bid, eq, s, e, init, err);
    }
  }

  lemma {:induction false} HolidayHitsMembers(bid: string, s: int, e: int, ws: seq<Window>, err: Error)
    requires forall k :: 0 <= k < |ws| ==> Comparable(s, ws[k])
    ensures err in HolidayHits(bid, s, e, ws) <==>
              exists k :: 0 <= k < |ws| && Hits(s, e, ws[k]) &&
                          err == HolidayConflict(bid, s, e, ws[k].name, ws[k].start.instant, ws[k].end.instant)
  {
    if ws != [] {
      var init := ws[..|ws| - 1];
      assert forall k :: 0 <= k < |init| ==> init[k] == ws[k];
      HolidayHitsMembers(bid, s, e, init, err);
    }
  }

  /** A batch whose start or end is absent is skipped: it contributes no conflict. */
  lemma UntimedBatchNoConflicts(fromIso: IsoParser, downtimes: seq<Downtime>, holidays: seq<Holiday>, b: Batch)
    requires BatchComparable(fromIso, downtimes, holidays, b)
    requires b.startTime.Get().None? || b.endTime.Get().None?
    ensures ConflictFindings(fromIso, downtimes, holidays, b) == []
  {
  }

  /** Every record a batch contributes is a downtime or holiday conflict naming that batch and its interval. */
  lemma ConflictFindingsShape(fromIso: IsoParser, downtimes: seq<Downtime>, holidays: seq<Holiday>, b: Batch, err: Error)
    requires BatchComparable(fromIso, downtimes, holidays, b)
    requires err in ConflictFindings(fromIso, downtimes, holidays, b)
    ensures Timed(fromIso, b)
    ensures (err.DowntimeConflict? && err.equipmentId == b.equipmentId) || err.HolidayConflict?
    ensures err.batchId == b.batchId &&
            err.start == GetParse(fromIso, b.startTime).instant && err.end == GetParse(fromIso, b.endTime).instant
  {
    var s := GetParse(fromIso, b.startTime).instant;
    var e := GetParse(fromIso, b.endTime).instant;
    var ws := DowntimeWindows(fromIso, downtimes, b.equipmentId);
    var hs := HolidayWindows(fromIso, holidays);
    if err in DowntimeHits(b.batchId, b.equipmentId, s, e, ws) {
      DowntimeHitsMembers(b.batchId, b.equipmentId, s, e, ws, err);
    } else {
      HolidayHitsMembers(b.batchId, s, e, hs, err);
    }
  }

  /**
   * A downtime record is present iff some downtime on the batch's own
   * equipment has that window and overlaps the batch; downtimes of other
   * equipment never count.
   */
  lemma DowntimeConflictIff(fromIso: IsoParser, downtimes: seq<Downtime>, holidays: seq<Holiday>, b: Batch,
                            id: string, ds: int, de: int)
    requires BatchComparable(fromIso, downtimes, holidays, b)
    requires Timed(fromIso, b)
    ensures var s := GetParse(fromIso, b.startTime).instant;
            var e := GetParse(fromIso, b.endTime).instant;
            DowntimeConflict(b.batchId, s, e, id, b.equipmentId, ds, de) in ConflictFindings(fromIso, downtimes, holidays, b) <==>
              exists k :: 0 <= k < |downtimes| && downtimes[k].equipmentId == b.equipmentId &&
                          DowntimeWindow(fromIso, downtimes[k]) == Window(At(ds), At(de), id) && Overlaps(s, e, ds, de)
  {
    var s := GetParse(fromIso, b.startTime).instant;
    var e := GetParse(fromIso, b.endTime).instant;
    var ws := DowntimeWindows(fromIso, downtimes, b.equipmentId);
    var hs := HolidayWindows(fromIso, holidays);
    var err := DowntimeConflict(b.batchId, s, e, id, b.equipmentId, ds, de);
    DowntimeHitsMembers(b.batchId, b.equipmentId, s, e, ws, err);
    HolidayHitsMembers(b.batchId, s, e, hs, err);
    var w := Window(At(ds), At(de), id);
    DowntimeWindowsMembers(fromIso, downtimes, b.equipmentId, w);
    if err in DowntimeHits(b.batchId, b.equipmentId, s, e, ws) {
      var k :| 0 <= k < |ws| && Hits(s, e, ws[k]) &&
               err == DowntimeConflict(b.batchId, s, e, ws[k].name, b.equipmentId, ws[k].start.instant, ws[k].end.instant);
      assert ws[k] == w;
    }
    if exists k :: 0 <= k < |downtimes| && downtimes[k].equipmentId == b.equipmentId &&
                   DowntimeWindow(fromIso, downtimes[k]) == w && Overlaps(s, e, ds, de) {
      assert w in ws;
      var j :| 0 <= j < |ws| && ws[j] == w;
      assert Hits(s, e, ws[j]);
    }
  }

  /** A holiday record is present iff some holiday, of any equipment, has that window and overlaps the batch. */
  lemma HolidayConflictIff(fromIso: IsoParser, downtimes: seq<Downtime>, holidays: seq<Holiday>, b: Batch,
                           name: string, hs: int, he: int)
    requires BatchComparable(fromIso, downtimes, holidays, b)
    requires Timed(fromIso, b)
    ensures var s := GetParse(fromIso, b.startTime).instant;
            var e := GetParse(fromIso, b.endTime).instant;
            HolidayConflict(b.batchId, s, e, name, hs, he) in ConflictFindings(fromIso, downtimes, holidays, b) <==>
              exists k :: 0 <= k < |holidays| &&
                          HolidayWindow(fromIso, holidays[k]) == Window(At(hs), At(he), name) && Overlaps(s, e, hs, he)
  {
    var s := GetParse(fromIso, b.startTime).instant;
    var e := GetParse(fromIso, b.endTime).instant;
    var ws := DowntimeWindows(fromIso, downtimes, b.equipmentId);
    var hws := HolidayWindows(fromIso, holidays);
    var err := HolidayConflict(b.batchId, s, e, name, hs, he);
    DowntimeHitsMembers(b.batchId, b.equipmentId, s, e, ws, err);
    HolidayHitsMembers(b.batchId, s, e, hws, err);
    var w := Window(At(hs), At(he), name);
    if err in HolidayHits(b.batchId, s, e, hws) {
      var k :| 0 <= k < |hws| && Hits(s, e, hws[k]) &&
               err == HolidayConflict(b.batchId, s, e, hws[k].name, hws[k].start.instant, hws[k].end.instant);
      assert hws[k] == w;
    }
    if exists k :: 0 <= k < |holidays| && HolidayWindow(fromIso, holidays[k]) == w && Overlaps(s, e, hs, he) {
      var k :| 0 <= k < |holidays| && HolidayWindow(fromIso, holidays[k]) == w && Overlaps(s, e, hs, he);
      assert hws[k] == w;
      assert Hits(s, e, hws[k]);
    }
  }

  lemma {:induction false} ConflictErrorsMembers(fromIso: IsoParser, downtimes: seq<Downtime>, holidays: seq<Holiday>,
                                                 bs: seq<Batch>, err: Error)
    requires forall i :: 0 <= i < |bs| ==> BatchComparable(fromIso, downtimes, holidays, bs[i])
    ensures err in ConflictErrors(fromIso, downtimes, holidays, bs) <==>
              exists i :: 0 <= i < |bs| && err in ConflictFindings(fromIso, downtimes, holidays, bs[i])
  {
    if bs != [] {
      var init := bs[..|bs| - 1];
      assert forall i :: 0 <= i < |init| ==> init[i] == bs[i];
      ConflictErrorsMembers(fromIso, downtimes, holidays, init, err);
    }
  }

  /** Neither a downtime of its own equipment nor any holiday overlaps the batch's interval. */
  predicate ClearOfWindows(fromIso: IsoParser, downtimes: seq<Downtime>, holidays: seq<Holiday>, b: Batch) {
    Timed(fromIso, b) ==>
      var s := GetParse(fromIso, b.startTime).instant;
      var e := GetParse(fromIso, b.endTime).instant;
      (forall k :: 0 <= k < |downtimes| && downtimes[k].equipmentId == b.equipmentId &&
                   DowntimeWindow(fromIso, downtimes[k]).start.At? && DowntimeWindow(fromIso, downtimes[k]).end.At? ==>
                     !Overlaps(s, e, DowntimeWindow(fromIso, downtimes[k]).start.instant,
                               DowntimeWindow(fromIso, downtimes[k]).end.instant)) &&
      (forall k :: 0 <= k < |holidays| &&
                   HolidayWindow(fromIso, holidays[k]).start.At? && HolidayWindow(fromIso, holidays[k]).end.At? ==>
                     !Overlaps(s, e, HolidayWindow(fromIso, holidays[k]).start.instant,
                               HolidayWindow(fromIso, holidays[k]).end.instant))
  }

  /** One batch contributes no record exactly when it is clear of its downtimes and of all holidays. */
  lemma BatchClearIff(fromIso: IsoParser, downtimes: seq<Downtime>, holidays: seq<Holiday>, b: Batch)
    requires BatchComparable(fromIso, downtimes, holidays, b)
    ensures ConflictFindings(fromIso, downtimes, holidays, b) == [] <==> ClearOfWindows(fromIso, downtimes, holidays, b)
  {
    var found := ConflictFindings(fromIso, downtimes, holidays, b);
    if found != [] {
      var err := found[0];
      ConflictFindingsShape(fromIso, downtimes, holidays, b, err);
      if err.DowntimeConflict? {
        DowntimeConflictIff(fromIso, downtimes, holidays, b, err.downtimeId, err.windowStart, err.windowEnd);
      } else {
        HolidayConflictIff(fromIso, downtimes, holidays, b, err.holidayName, err.windowStart, err.windowEnd);
      }
    }
    if !ClearOfWindows(fromIso, downtimes, holidays, b) {
      var s := GetParse(fromIso, b.startTime).instant;
      var e := GetParse(fromIso, b.endTime).instant;
      if exists k :: 0 <= k < |downtimes| && downtimes[k].equipmentId == b.equipmentId &&
                     DowntimeWindow(fromIso, downtimes[k]).start.At? && DowntimeWindow(fromIso, downtimes[k]).end.At? &&
                     Overlaps(s, e, DowntimeWindow(fromIso, downtimes[k]).start.instant,
                              DowntimeWindow(fromIso, downtimes[k]).end.instant) {
        var k :| 0 <= k < |downtimes| && downtimes[k].equipmentId == b.equipmentId &&
                 DowntimeWindow(fromIso, downtimes[k]).start.At? && DowntimeWindow(fromIso, downtimes[k]).end.At? &&
                 Overlaps(s, e, DowntimeWindow(fromIso, downtimes[k]).start.instant,
                          DowntimeWindow(fromIso, downtimes[k]).end.instant);
        var w := DowntimeWindow(fromIso, downtimes[k]);
        DowntimeConflictIff(fromIso, downtimes, holidays, b, w.name, w.start.instant, w.end.instant);
      } else {
        var k :| 0 <= k < |holidays| &&
                 HolidayWindow(fromIso, holidays[k]).start.At? && HolidayWindow(fromIso, holidays[k]).end.At? &&
                 Overlaps(s, e, HolidayWindow(fromIso, holidays[k]).start.instant,
                          HolidayWindow(fromIso, holidays[k]).end.instant);
        var w := HolidayWindow(fromIso, holidays[k]);
        HolidayConflictIff(fromIso, downtimes, holidays, b, w.name, w.start.instant, w.end.instant);
      }
    }
  }

  /** Pass 4 reports nothing exactly when every timed batch is clear of its downtimes and of all holidays. */
  lemma ConflictFreeIff(fromIso: IsoParser, downtimes: seq<Downtime>, holidays: seq<Holiday>, bs: seq<Batch>)
    requires forall i :: 0 <= i < |bs| ==> BatchComparable(fromIso, downtimes, holidays, bs[i])
    ensures ConflictErrors(fromIso, downtimes, holidays, bs) == [] <==>
              forall i :: 0 <= i < |bs| ==> ClearOfWindows(fromIso, downtimes, holidays, bs[i])
  {
    var errs := ConflictErrors(fromIso, downtimes, holidays, bs);
    if errs != [] {
      ConflictErrorsMembers(fromIso, downtimes, holidays, bs, errs[0]);
      var i :| 0 <= i < |bs| && errs[0] in ConflictFindings(fromIso, downtimes, holidays, bs[i]);
      BatchClearIff(fromIso, downtimes, holidays, bs[i]);
    }
    forall i | 0 <= i < |bs| && !ClearOfWindows(fromIso, downtimes, holidays, bs[i]) ensures errs != [] {
      BatchClearIff(fromIso, downtimes, holidays, bs[i]);
      var found := ConflictFindings(fromIso, downtimes, holidays, bs[i]);
      ConflictErrorsMembers(fromIso, downtimes, holidays, bs, found[0]);
    }
  }
}
