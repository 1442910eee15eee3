/** The half-open interval test shared by the conflict passes (`overlaps`, src/validator.py:20-34). */
module Intervals {

  /** `[aStart, aEnd)` and `[bStart, bEnd)` overlap: each starts strictly before the other ends. */
  predicate Overlaps(aStart: int, aEnd: int, bStart: int, bEnd: int) {
    aStart < bEnd && bStart < aEnd
  }

  /** Instant `t` lies in the half-open interval `[start, end)`. */
  predicate Within(t: int, start: int, end: int) {
    start <= t < end
  }

  /** The reference meaning of the test on non-empty intervals: the two share an instant. */
  lemma OverlapsIffSharedInstant(aStart: int, aEnd: int, bStart: int, bEnd: int)
    requires aStart < aEnd && bStart < bEnd
    ensures Overlaps(aStart, aEnd, bStart, bEnd) <==>
            exists t :: Within(t, aStart, aEnd) && Within(t, bStart, bEnd)
  {
    if Overlaps(aStart, aEnd, bStart, bEnd) {
      var t := if aStart < bStart then bStart else aStart;
      assert Within(t, aStart, aEnd) && Within(t, bStart, bEnd);
    }
  }

  lemma OverlapsSymmetric(aStart: int, aEnd: int, bStart: int, bEnd: int)
    ensures Overlaps(aStart, aEnd, bStart, bEnd) == Overlaps(bStart, bEnd, aStart, aEnd)
  {
  }

  /** An interval overlaps itself exactly when it is not empty. */
  lemma OverlapsSelf(start: int, end: int)
    ensures Overlaps(start, end, start, end) <==> start < end
  {
  }

  /** Back-to-back intervals touch but do not overlap. */
  lemma TouchingDoNotOverlap(a: int, b: int, c: int)
    ensures !Overlaps(a, b, b, c)
    ensures !Overlaps(b, c, a, b)
  {
  }

  /** An empty interval (start == end) can still pass the test: `[5,5)` against `[0,10)`. */
  lemma EmptyIntervalCanOverlap()
    ensures Overlaps(5, 5, 0, 10)
    ensures !exists t :: Within(t, 5, 5)
  {
  }

  /** The literal case: `[0,10)` and `[10,20)`. */
  lemma BackToBackExample()
    ensures !Overlaps(0, 10, 10, 20)
    ensures Overlaps(0, 10, 5, 20)
  {
  }
}
