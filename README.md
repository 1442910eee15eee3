# Production-plan validator, modelled in Dafny

This project models the rule-checking engine of `src/validator.py`. The engine takes a production plan: product orders, equipment, downtimes, holidays and the planned production batches. It returns the list of every violation it finds. It never stops at the first one. The model covers:

- `parse_iso`: an absent value passes through, and a trailing `Z` is rewritten to `+00:00` before the calendar parser runs. The parser itself is a parameter, `fromIso: string -> Option<int>`. `None` there stands for the exception the library raises. Instants are integers.
- `overlaps`: the strict half-open interval test.
- `validate`: its five passes, in their fixed order.
  1. batch time sanity;
  2. quantity conservation over the sorted union of product codes;
  3. equipment sizing and compatibility;
  4. downtime and holiday conflicts;
  5. equipment double-booking, with groups in first-appearance order, each sorted by start and compared pair by adjacent pair.

Each pass has two forms:

- a pure function giving its intended output (`TimeErrors`, `QuantityErrors`, `SizingErrors`, `ConflictErrors`, `BookingErrors`);
- a method that builds the list with loops the way the source does (`CheckBatchTimes`, `CheckQuantities`, `CheckSizing`, `CheckConflicts`, `CheckBookings`), proved equal to that function.

`Validator.Validate` chains the five methods and is proved to return `Validator.Report`, the concatenation of the five functions. Violations are structured records (`Plan.Error`): a kind, the identifiers involved and the offending values, instead of message text.

Passes 4 and 5 call `parse_iso` without a guard, so some inputs make `validate` raise instead of returning a list. These inputs are excluded by preconditions:

- `Conflicts.ConflictsDefined` for pass 4:
  - every downtime, holiday and batch timestamp parses;
  - for a timed batch, every window it is compared with has an end, and also a start whenever the first comparison `s < we` holds (Python's `and` short-circuits).
- `Bookings.BookingsDefined` for pass 5:
  - every start in a group parses, because `sorted` computes the key even for a group of one;
  - a group of two or more has all starts present, because `sorted` compares them and comparing `None` raises;
  - every batch but the last in sorted order has a parsable end.

`Validator.Runs` is the two of them together.

Pass 5 is proved for an arbitrary reading of timestamp fields (`Timestamps.FieldParser`). `validate` uses `Timestamps.FieldParse(fromIso)`, which is `parse_iso(record.get(key))`.

The command-line wrapper maps the result to an exit status: 0 when the list is empty, 1 otherwise. `Validator.ReportEmptyIff` states when the list is empty: exactly when the plan is acceptable. Acceptable means:

- valid ordered times;
- equal ordered and produced totals per product;
- every batch fits its equipment;
- no batch meets a downtime of its equipment or a holiday;
- no two batches on one equipment overlap.

Points where the code's behaviour is easy to misread:

- Passes 4 and 5 do not skip a batch whose timestamp fails to parse. The unguarded calls at lines 128 and 150-151 raise, so the model makes a parsable timestamp a precondition of those passes.
- Pass 1 subscripts `b["start_time"]`. A batch without the key therefore raises `KeyError` inside the `try`, and the model reports it as an invalid format, not as a missing time. An explicit `null` is reported as missing.
- Both sides are parsed before the `None` test. A parse failure on either side therefore wins over a missing value on the other.
- `overlaps` accepts an empty interval (`start == end`) lying strictly inside another one (`Intervals.EmptyIntervalCanOverlap`). So pass 4 can report a batch that pass 1 has already reported for `start >= end`.

## Model

| member | source | states |
|---|---|---|
| Timestamps.GetParseCases | src/validator.py:128 | `parse_iso(record.get(key))` is absent for a missing key and for `null`, and for a stored string is `parse_iso` of exactly that string |
| Timestamps.NormalizeZuluSpec | src/validator.py:16-17 | a trailing `Z` is replaced by `+00:00` and the rest of the text kept; any other string is unchanged; the result never ends in `Z` |
| Timestamps.ParseIsoSpec | src/validator.py:14-18 | `parse_iso` is absent exactly for `None`; otherwise it raises exactly when the parser rejects the normalised text, and yields the parser's instant otherwise |
| Timestamps.ZuluMeansUtc | src/validator.py:10-17 | `prefix + "Z"` and `prefix + "+00:00"` parse to the same outcome, whatever the parser |
| Intervals.OverlapsIffSharedInstant | src/validator.py:33-34 | on non-empty intervals, `overlaps` holds exactly when the two half-open intervals share an instant |
| Intervals.OverlapsSymmetric | src/validator.py:34 | exchanging the two intervals does not change the answer |
| Intervals.OverlapsSelf | src/validator.py:34 | an interval overlaps itself exactly when start < end |
| Intervals.TouchingDoNotOverlap | src/validator.py:33-34 | intervals that only touch do not overlap, in either order |
| Intervals.EmptyIntervalCanOverlap | src/validator.py:34 | `[5,5)` contains no instant yet passes the test against `[0,10)` |
| Intervals.BackToBackExample | src/validator.py:33-34 | `[0,10)` and `[10,20)` do not overlap; `[0,10)` and `[5,20)` do |
| BatchTimes.Subscript | src/validator.py:62-63 | `parse_iso(b[key])`: a missing key raises, `null` is absent, a string goes to `parse_iso` |
| BatchTimes.CheckBatchTimes | src/validator.py:61-70 | the loop returns the pass-1 records of every batch, in batch order |
| BatchTimes.TimeFindingCases | src/validator.py:62-70 | a batch gets no record iff both times parse and start < end; invalid format iff either side raises; missing iff neither raises and one is absent; `start >= end` iff both parse and are out of order |
| BatchTimes.TimeErrorsOnePerBatch | src/validator.py:61-70 | exactly one record per offending batch, the k-th naming the k-th offending batch; no record iff every batch has valid ordered times |
| CodeOrder.BelowIrreflexive | src/validator.py:84 | no product code sorts before itself under Python's string order |
| CodeOrder.BelowTransitive | src/validator.py:84 | Python's string order is transitive |
| CodeOrder.BelowTotal | src/validator.py:84 | any two distinct codes are ordered one way or the other |
| CodeOrder.BelowAsymmetric | src/validator.py:84 | no two codes are each below the other |
| CodeOrder.InsertCode | src/validator.py:84 | inserting into an ascending list keeps it ascending and adds exactly the new code |
| CodeOrder.SortCodes | src/validator.py:83-84 | `sorted` of the code union is strictly ascending and holds exactly the codes that occur |
| CodeOrder.AscendingUnique | src/validator.py:84 | two ascending lists with the same codes are equal |
| CodeOrder.SortCodesCanonical | src/validator.py:83-84 | the sorted union depends only on which codes occur |
| Quantities.TotalOfAbsentCode | src/validator.py:85-86 | a code that never occurs on a side totals 0 there |
| Quantities.SumByCode | src/validator.py:75-80 | the accumulated dictionary has a key exactly for each occurring code, holding that code's total |
| Quantities.ListCodes | src/validator.py:83 | the union of the two key sets is listed with exactly its members |
| Quantities.EmitMismatches | src/validator.py:84-88 | the comparison loop emits the mismatch records of the codes walked, with absent sides read as 0 |
| Quantities.CheckQuantities | src/validator.py:74-88 | the pass returns one mismatch per code of the sorted union whose totals differ |
| Quantities.MismatchesMembers | src/validator.py:84-88 | a record is emitted iff it names a walked code with its two totals, and they differ |
| Quantities.QuantityMismatchIff | src/validator.py:83-88 | a mismatch is reported for a code iff it occurs on some side and its order and batch totals differ; a one-sided code is compared with 0 |
| Quantities.MismatchesAscending | src/validator.py:84-88 | over an ascending code list every record is a mismatch and their codes strictly ascend |
| Quantities.QuantityErrorsAscending | src/validator.py:84-88 | the pass's records come out in strictly ascending code order |
| Quantities.ConservedIffNoMismatch | src/validator.py:83-88 | the pass is silent iff every product's ordered total equals its produced total |
| Quantities.MismatchesSwap | src/validator.py:84-88 | exchanging the two sides exchanges the two quantities of each record and nothing else |
| Quantities.QuantityErrorsSwap | src/validator.py:83-88 | the pass is symmetric in orders and batches up to exchanging the reported quantities |
| Sizing.EquipmentIndex | src/validator.py:58 | every indexed id maps to an equipment record carrying that id |
| Sizing.EquipmentIndexLastWins | src/validator.py:58 | an id is indexed iff some record carries it, and it maps to the last such record |
| Sizing.CheckSizing | src/validator.py:94-111 | the loop returns the pass-3 findings of every batch, in batch order |
| Sizing.UnknownEquipmentOnly | src/validator.py:98-100 | a batch on unknown equipment gets exactly the one unknown-equipment record |
| Sizing.KnownEquipmentChecks | src/validator.py:101-111 | on known equipment the product, below-minimum and above-maximum records each fire iff their own condition holds, with defaults 0 and 1e18 |
| Sizing.SizingErrorsMembers | src/validator.py:94-111 | a record is in the pass's output iff it is a finding of some batch |
| Sizing.SizingCleanIff | src/validator.py:94-111 | the pass is silent iff every batch's equipment exists, accepts its product and bounds its quantity |
| Conflicts.DowntimeWindowsMembers | src/validator.py:116-120 | a window belongs to an equipment's list iff it comes from a downtime on that equipment |
| Conflicts.IndexDowntimes | src/validator.py:116-120 | `dt_by_eq` has a key exactly for each equipment with a downtime, holding its windows in document order |
| Conflicts.ListHolidays | src/validator.py:121-124 | `hols` is the list of every holiday's window |
| Conflicts.ScanDowntimes | src/validator.py:133-135 | the downtime loop emits the records of the overlapping windows, in order |
| Conflicts.ScanHolidays | src/validator.py:137-139 | the holiday loop emits the records of the overlapping windows, in order |
| Conflicts.BatchConflicts | src/validator.py:127-139 | the loop body returns one batch's findings; a batch lacking a time gets none |
| Conflicts.CheckConflicts | src/validator.py:116-139 | the pass returns the findings of every batch, in batch order |
| Conflicts.DowntimeHitsMembers | src/validator.py:133-135 | a downtime record is emitted iff it names an overlapping window |
| Conflicts.HolidayHitsMembers | src/validator.py:137-139 | a holiday record is emitted iff it names an overlapping window |
| Conflicts.UntimedBatchNoConflicts | src/validator.py:128-130 | a batch with a missing start or end contributes nothing |
| Conflicts.ConflictFindingsShape | src/validator.py:127-139 | every record of a batch names that batch and its interval, and is a downtime on its own equipment or a holiday |
| Conflicts.DowntimeConflictIff | src/validator.py:133-135 | a downtime record is reported iff a downtime on the batch's own equipment has that window and overlaps the batch |
| Conflicts.HolidayConflictIff | src/validator.py:137-139 | a holiday record is reported iff some holiday has that window and overlaps the batch, whatever its equipment |
| Conflicts.ConflictErrorsMembers | src/validator.py:126-139 | a record is in the pass's output iff it is a finding of some batch |
| Conflicts.BatchClearIff | src/validator.py:126-139 | one batch gets no record iff it is clear of its equipment's downtimes and of all holidays |
| Conflicts.ConflictFreeIff | src/validator.py:116-139 | the pass is silent iff every timed batch is clear of its downtimes and of all holidays |
| Bookings.EquipmentOrder | src/validator.py:144-147 | the group order lists each used equipment id exactly once |
| Bookings.GroupMembers | src/validator.py:144-145 | a batch is in an equipment's group iff it is in the plan on that equipment |
| Bookings.GroupByEquipment | src/validator.py:142-145 | `batches_by_eq` holds exactly the used ids, in first-appearance order, each with its batches in document order |
| Bookings.InsertKeyedPerm | src/validator.py:151 | inserting into the sorted list adds exactly the new pair |
| Bookings.InsertKeyedSorted | src/validator.py:151 | inserting keeps the list sorted by key |
| Bookings.SortKeyedPerm | src/validator.py:151 | the keyed sort rearranges its input |
| Bookings.SortKeyedSorted | src/validator.py:151 | the keyed sort's output is sorted by key |
| Bookings.InsertKeyedStable | src/validator.py:151 | an inserted pair goes after every pair with the same key |
| Bookings.SortKeyedStable | src/validator.py:151 | the keyed sort keeps the input order among equal keys |
| Bookings.SortByStart | src/validator.py:151 | the sorted group has the group's length and known starts |
| Bookings.SortByStartSpec | src/validator.py:151 | the sorted group is in non-decreasing order of start and is a permutation of the group |
| Bookings.SortByStartStable | src/validator.py:151 | batches with equal starts keep their document order, as Python's stable `sorted` does |
| Bookings.ComparePair | src/validator.py:153-158 | one adjacent pair gives a record iff both instants are present and the earlier end is after the later start |
| Bookings.TouchingNotFlagged | src/validator.py:157 | a pair whose end equals the next start is never flagged |
| Bookings.BackToBackPair | src/validator.py:157 | an end at 10 and a start at 10 give no record; end 10 and start 5 give exactly one |
| Bookings.CheckGroup | src/validator.py:149-158 | one group's loop returns the records of its adjacent pairs in sorted order; a single batch gives none |
| Bookings.CheckBookings | src/validator.py:142-158 | the pass returns every group's records, groups in first-appearance order |
| Bookings.PairErrorsMembers | src/validator.py:152-158 | a record is among the first n pairs' records iff one of those pairs produces it |
| Bookings.DoubleBookingIff | src/validator.py:152-158 | a record is reported for a group iff it names an adjacent sorted pair whose earlier end is strictly after the later start |
| Bookings.NoFlagsChain | src/validator.py:152-158 | with no adjacent pair flagged in a sorted group, every batch ends no later than any later one starts |
| Bookings.SortedCleanIff | src/validator.py:152-158 | on a start-sorted group of scheduled batches, adjacent checks find nothing iff no two batches overlap |
| Bookings.ScheduledGroupDefined | src/validator.py:149-155 | a group whose batches all have ordered instants cannot make the pass raise |
| Bookings.PermCleanIff | src/validator.py:151-158 | comparing adjacent pairs of any start-sorted rearrangement finds nothing iff the group has no overlapping pair |
| Bookings.GroupCleanIff | src/validator.py:147-158 | a group of scheduled batches gets no record iff no two of its batches overlap |
| Bookings.ScheduledBookingsDefined | src/validator.py:142-158 | a plan of scheduled batches cannot make pass 5 raise |
| Bookings.CleanGroupsNoDoubleBooking | src/validator.py:142-158 | groups without overlaps mean no two batches of the plan on one equipment overlap |
| Bookings.NoDoubleBookingCleanGroup | src/validator.py:142-158 | no double-booking in the plan means no overlap in any group |
| Bookings.NoDoubleBookingIff | src/validator.py:142-158 | the pass is silent iff no two batches on the same equipment overlap, checking only adjacent pairs |
| Validator.Validate | src/validator.py:44-160 | `validate` returns pass 1's records, then pass 2's, 3's, 4's and 5's |
| Validator.TimesValidScheduled | src/validator.py:61-70 | a plan accepted by pass 1 has a known interval of positive length for every batch |
| Validator.TimesClean | src/validator.py:61-70 | pass 1 is silent iff every batch has valid ordered times |
| Validator.QuantitiesClean | src/validator.py:74-88 | pass 2 is silent iff quantities are conserved for every product |
| Validator.SizingClean | src/validator.py:94-111 | pass 3 is silent iff every batch fits its equipment |
| Validator.ConflictsClean | src/validator.py:116-139 | pass 4 is silent iff every batch is clear of downtimes and holidays |
| Validator.BookingsClean | src/validator.py:142-158 | on a plan with valid times, pass 5 cannot raise and is silent iff there is no double-booking |
| Validator.ReportEmptyIff | src/validator.py:44-160 | `validate` returns an empty list iff all five rules hold |

## Left out

- `load` (src/validator.py:36-42): file and JSON input is I/O. The plan arrives as a `Plan.Plan` value.
- `optima` and the entry block (src/validator.py:162-184): argument handling, printing and exit codes. The exit status is 0 exactly when the list is empty; `Validator.ReportEmptyIff` says when that happens.
- The `print` at src/validator.py:93: an output side effect only.
- The tests in src/test_validator.py: they drive the program through subprocesses on fixture files.
- `datetime.fromisoformat` and `isoformat()`: the parser is an abstract parameter. Naive against aware datetime comparisons, which raise `TypeError`, are not modelled. All instants compare as integers.
- Floating-point sums, `float(...)` conversions and `round(x, 9)` (lines 75-86): quantities are exact reals and the rounded comparison is plain equality.
- Message text: violations are structured records.
- Document shape:
  - Missing sections (`plan.get(..., [])`) become empty sequences.
  - Every identifier and code is a string; JSON `null` ids and non-string values are not modelled.
  - A record lacking a key that the source subscripts (`e["equipment_id"]`, `o["product_code"]`, `b["quantity_kg"]`) would raise. Such records cannot be written in the model, so these crashes are not modelled.
  - `b.get("quantity_kg", 0.0)` in pass 3 always finds the quantity.
  - An explicit `null` capacity, quantity or `product_codes` makes `float(...)` or `in` raise (lines 77, 80, 102-103, 106); this is not modelled. `None` in `Plan.Equipment` means the key is absent, not `null`.
- Conflicts.DowntimeConflictIff: states which records are present, not how many times each occurs. The per-window, one-record-per-overlap structure is visible only in `DowntimeHits`.
- Conflicts.HolidayConflictIff: likewise states presence, not multiplicity.
