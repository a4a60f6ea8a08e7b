/** The two display formatters of the desktop client: `safe`, which renders a KPI
    scalar with a placeholder for missing values, and `format_datetime`, which
    renders an upload timestamp and falls back to the raw text when it cannot be
    parsed. */
module Formatting {
  import opened Python

  /** Shown for a missing (None) scalar. */
  const PLACEHOLDER: string := "-"

  /** `safe(x)`: the placeholder for None, two decimals for a float, `str(x)` for
      everything else. */
  function Safe(rt: Runtime, x: PyValue): (r: string)
    ensures x.PyNone? ==> r == PLACEHOLDER
    ensures x.PyFloat? ==> r == rt.fixed2(x.f)
    ensures !x.PyNone? && !x.PyFloat? ==> r == Str(rt, x)
  {
    match x
    case PyNone => PLACEHOLDER
    case PyFloat(f) => rt.fixed2(f)
    case _ => Str(rt, x)
  }

  /** A missing scalar is never shown as a number: the KPI shows the placeholder,
      while plain `str` (used by the history table) shows "None". */
  lemma MissingIsNotZero(rt: Runtime)
    ensures Safe(rt, PyNone) == "-" && Str(rt, PyNone) == "None"
    ensures forall i: int :: Safe(rt, PyNone) != Safe(rt, PyInt(i))
  {
  }

  /** The outcome of trying to parse a timestamp: either a `datetime`, or the text
      to be shown unchanged. */
  datatype Stamp = Parsed(dt: DateTime) | Unparsed(raw: string)

  /** `datetime.fromisoformat(ts.replace("Z", ""))`, with the exception path made
      an explicit `Unparsed` value carrying the original text. */
  function ParseStamp(rt: Runtime, ts: string): (r: Stamp)
    ensures r.Unparsed? ==> r.raw == ts
    ensures r.Parsed? <==> rt.fromIsoFormat(RemoveAll(ts, 'Z')).Some?
    ensures r.Parsed? ==> Some(r.dt) == rt.fromIsoFormat(RemoveAll(ts, 'Z'))
  {
    match rt.fromIsoFormat(RemoveAll(ts, 'Z'))
    case Some(dt) => Parsed(dt)
    case None => Unparsed(ts)
  }

  /** `format_datetime(ts)`: never fails; a parsed timestamp is rendered with
      `strftime`, anything else is returned exactly as given (Z's included). */
  function FormatDatetime(rt: Runtime, ts: string): (r: string)
    ensures rt.fromIsoFormat(RemoveAll(ts, 'Z')).None? ==> r == ts
    ensures rt.fromIsoFormat(RemoveAll(ts, 'Z')).Some? ==>
      r == rt.strftime(rt.fromIsoFormat(RemoveAll(ts, 'Z')).value)
  {
    match ParseStamp(rt, ts)
    case Parsed(dt) => rt.strftime(dt)
    case Unparsed(raw) => raw
  }

  /** Every "Z" is removed before parsing, not only a trailing zone marker: a "Z"
      inserted anywhere into a timestamp that parses leaves the rendering unchanged. */
  lemma FormatIgnoresZ(rt: Runtime, before: string, after: string)
    requires rt.fromIsoFormat(RemoveAll(before + after, 'Z')).Some?
    ensures FormatDatetime(rt, before + "Z" + after) == FormatDatetime(rt, before + after)
  {
    var z: string := "Z";
    assert RemoveAll(z, 'Z') == [] by {
      assert z == [z[0]] + z[1..] && z[1..] == [];
    }
    calc {
      RemoveAll(before + z + after, 'Z');
      { RemoveAllConcat(before + z, after, 'Z'); }
      RemoveAll(before + z, 'Z') + RemoveAll(after, 'Z');
      { RemoveAllConcat(before, z, 'Z'); }
      RemoveAll(before, 'Z') + RemoveAll(after, 'Z');
      { RemoveAllConcat(before, after, 'Z'); }
      RemoveAll(before + after, 'Z');
    }
  }
}
