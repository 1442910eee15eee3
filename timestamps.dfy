/**
 * Timestamp normalisation (`parse_iso`, src/validator.py:4-18).
 *
 * The calendar parser itself (`datetime.fromisoformat`) is a foreign library:
 * it is a parameter of type `IsoParser`, an arbitrary partial map from strings
 * to integer instants, where `None` stands for the exception it raises.
 */
module Timestamps {
  import opened Wrappers

  /** The library parser: an instant, or `None` when it raises. */
  type IsoParser = string -> Option<int>

  /** A timestamp field of a document record: the key is missing, holds null, or holds a string. */
  datatype Stamp = NoKey | Null | Text(text: string) {

    /** What `record.get(key)` yields: `None` for a missing key and for null. */
    function Get(): (r: Option<string>)
      ensures r.Some? <==> Text?
    {
      if Text? then Some(text) else None
    }
  }

  /** Outcome of `parse_iso`: `None` returned, an exception raised, or an instant. */
  datatype Parsed = Absent | Raises | At(instant: int)

  /** The suffix that replaces the UTC marker `Z`. */
  const UtcOffset: string := "+00:00"

  /** `s.endswith("Z")`. */
  predicate EndsWithZ(s: string) {
    |s| > 0 && s[|s| - 1] == 'Z'
  }

  /** The rewrite of line 16-17: a trailing `Z` becomes an explicit zero offset. */
  function NormalizeZulu(s: string): string {
    if EndsWithZ(s) then s[..|s| - 1] + UtcOffset else s
  }

  /** Only a trailing `Z` is touched: it becomes `+00:00`, the rest of the text is kept, and no `Z` is left at the end. */
  lemma NormalizeZuluSpec(s: string)
    ensures var r := NormalizeZulu(s);
            && !EndsWithZ(r)
            && (EndsWithZ(s) ==> |r| == |s| + 5 && r[..|s| - 1] == s[..|s| - 1] && r[|s| - 1..] == UtcOffset)
            && (!EndsWithZ(s) ==> r == s)
  {
    var r := NormalizeZulu(s);
    if EndsWithZ(s) {
      assert r[|r| - 1] == '0';
    }
  }

  /** `parse_iso`: absent passes through, anything else is rewritten and handed to the parser. */
  function ParseIso(fromIso: IsoParser, s: Option<string>): Parsed {
    match s
    case None => Absent
    case Some(text) =>
      match fromIso(NormalizeZulu(text))
      case None => Raises
      case Some(t) => At(t)
  }

  /** Absent exactly for `None`; otherwise the parser's verdict on the normalised text. */
  lemma ParseIsoSpec(fromIso: IsoParser, s: Option<string>)
    ensures var p := ParseIso(fromIso, s);
            && (s.None? <==> p.Absent?)
            && (s.Some? ==> (p.Raises? <==> fromIso(NormalizeZulu(s.value)).None?))
            && (p.At? ==> s.Some? && fromIso(NormalizeZulu(s.value)) == Some(p.instant))
  {
  }

  /** `parse_iso(record.get(key))`: a missing key or null is `None`. */
  function GetParse(fromIso: IsoParser, st: Stamp): Parsed {
    ParseIso(fromIso, st.Get())
  }

  /** `record.get(key)` then `parse_iso`: a missing key and `null` are both absent; a string is handed to `parse_iso` as stored. */
  lemma GetParseCases(fromIso: IsoParser, st: Stamp)
    ensures st.NoKey? ==> GetParse(fromIso, st) == Absent
    ensures st.Null? ==> GetParse(fromIso, st) == Absent
    ensures st.Text? ==> GetParse(fromIso, st) == ParseIso(fromIso, Some(st.text))
  {
  }

  /** A reading of timestamp fields, for code that is correct whatever the parser. */
  type FieldParser = Stamp -> Parsed

  /** The field reading `validate` uses: `parse_iso(record.get(key))` with the library parser. */
  function FieldParse(fromIso: IsoParser): FieldParser
  {
    st => GetParse(fromIso, st)
  }

  /** An unguarded `parse_iso` of this field does not raise (otherwise `validate` itself fails). */
  predicate StampParses(fromIso: IsoParser, st: Stamp) {
    !GetParse(fromIso, st).Raises?
  }

  /** The UTC marker and the explicit zero offset denote the same instant, whatever the parser. */
  lemma ZuluMeansUtc(fromIso: IsoParser, prefix: string)
    ensures ParseIso(fromIso, Some(prefix + "Z")) == ParseIso(fromIso, Some(prefix + UtcOffset))
  {
    var z := prefix + "Z";
    assert z[..|z| - 1] == prefix;
    assert NormalizeZulu(z) == prefix + UtcOffset;
    assert !EndsWithZ(prefix + UtcOffset) by {
      var u := prefix + UtcOffset;
      assert u[|u| - 1] == '0';
    }
  }
}
