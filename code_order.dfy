/**
 * Python's ordering of `str` values (code point by code point, a proper prefix
 * first) and `sorted` over a set of product codes, as used by the quantity
 * pass (src/validator.py:83-84).
 */
module CodeOrder {

  /** `a < b` on Python strings. */
  predicate Below(a: string, b: string)
    decreases |a|
  {
    if |a| == 0 then |b| > 0
    else if |b| == 0 then false
    else if a[0] != b[0] then a[0] < b[0]
    else Below(a[1..], b[1..])
  }

  lemma {:induction false} BelowIrreflexive(a: string)
    ensures !Below(a, a)
    decreases |a|
  {
    if |a| > 0 {
      BelowIrreflexive(a[1..]);
    }
  }

  lemma {:induction false} BelowTransitive(a: string, b: string, c: string)
    requires Below(a, b) && Below(b, c)
    ensures Below(a, c)
    decreases |a|
  {
    if |a| > 0 && a[0] == b[0] && b[0] == c[0] {
      BelowTransitive(a[1..], b[1..], c[1..]);
    }
  }

  lemma {:induction false} BelowTotal(a: string, b: string)
    requires a != b
    ensures Below(a, b) || Below(b, a)
    decreases |a|
  {
    if |a| > 0 && |b| > 0 && a[0] == b[0] {
      assert a == [a[0]] + a[1..] && b == [b[0]] + b[1..];
      BelowTotal(a[1..], b[1..]);
    }
  }

  lemma BelowAsymmetric(a: string, b: string)
    requires Below(a, b)
    ensures !Below(b, a)
  {
    if Below(b, a) {
      BelowTransitive(a, b, a);
      BelowIrreflexive(a);
    }
  }

  /** Strictly increasing, hence also free of duplicates. */
  predicate Ascending(s: seq<string>) {
    forall i, j :: 0 <= i < j < |s| ==> Below(s[i], s[j])
  }

  /** Insert `x` into an ascending sequence, keeping it ascending and duplicate-free. */
  function InsertCode(x: string, s: seq<string>): (r: seq<string>)
    requires Ascending(s)
    ensures Ascending(r)
    ensures forall c :: c in r <==> c == x || c in s
    decreases |s|
  {
    if s == [] then [x]
    else if x == s[0] then s
    else if Below(x, s[0]) then
      assert forall j :: 0 < j < |s| ==> Below(x, s[j]) by {
        forall j | 0 < j < |s| ensures Below(x, s[j]) {
          BelowTransitive(x, s[0], s[j]);
        }
      }
      [x] + s
    else
      BelowTotal(x, s[0]);
      var rest := InsertCode(x, s[1..]);
      assert forall c :: c in rest ==> Below(s[0], c) by {
        forall c | c in rest ensures Below(s[0], c) {
          if c != x {
            var j :| 0 <= j < |s[1..]| && s[1..][j] == c;
            assert s[j + 1] == c;
          }
        }
      }
      [s[0]] + rest
  }

  /** `sorted(...)` of the distinct codes in `xs`. */
  function SortCodes(xs: seq<string>): (r: seq<string>)
    ensures Ascending(r)
    ensures forall c :: c in r <==> c in xs
  {
    if xs == [] then []
    else InsertCode(xs[|xs| - 1], SortCodes(xs[..|xs| - 1]))
  }

  /** An ascending sequence is determined by its elements: `sorted` of a set is unique. */
  lemma {:induction false} AscendingUnique(a: seq<string>, b: seq<string>)
    requires Ascending(a) && Ascending(b)
    requires forall c :: c in a <==> c in b
    ensures a == b
    decreases |a|
  {
    assert a == [] <==> b == [] by {
      if a != [] { assert a[0] in a; }
      if b != [] { assert b[0] in b; }
    }
    if a != [] {
      if a[0] != b[0] {
        assert b[0] in a;
        assert a[0] in b;
        var i :| 0 <= i < |a| && a[i] == b[0];
        var j :| 0 <= j < |b| && b[j] == a[0];
        assert Below(a[0], b[0]) by {
          assert i > 0;
        }
        assert Below(b[0], a[0]) by {
          assert j > 0;
        }
        BelowAsymmetric(a[0], b[0]);
      }
      forall c ensures c in a[1..] <==> c in b[1..] {
        if c in a[1..] {
          var i :| 0 <= i < |a[1..]| && a[1..][i] == c;
          assert Below(a[0], c);
          BelowIrreflexive(c);
          assert c in b && c != b[0];
          var j :| 0 <= j < |b| && b[j] == c;
          assert j > 0;
          assert b[1..][j - 1] == c;
        }
        if c in b[1..] {
          var j :| 0 <= j < |b[1..]| && b[1..][j] == c;
          assert Below(b[0], c);
          BelowIrreflexive(c);
          assert c in a && c != a[0];
          var i :| 0 <= i < |a| && a[i] == c;
          assert i > 0;
          assert a[1..][i - 1] == c;
        }
      }
      AscendingUnique(a[1..], b[1..]);
      assert a == [a[0]] + a[1..] && b == [b[0]] + b[1..];
    }
  }

  /** Sorting depends only on which codes occur, not on their order or multiplicity. */
  lemma SortCodesCanonical(xs: seq<string>, ys: seq<string>)
    requires forall c :: c in xs <==> c in ys
    ensures SortCodes(xs) == SortCodes(ys)
  {
    AscendingUnique(SortCodes(xs), SortCodes(ys));
  }
}
