/**
 * Filtering an EPD stream by annotation values: lower bounds, upper bounds and allowed values
 * per key. A line is written unchanged unless one of the criteria rejects it.
 *
 * Python's `float` is a parameter, `parseFloat`: it gives the number a string denotes, or None
 * where `float` raises ValueError.
 */
module Filter {
  import opened Wrappers
  import opened Strings
  import opened Dicts
  import opened Epd

  /** The `--min`, `--max` and `--values` options, each a dictionary from key to its setting. */
  datatype Criteria = Criteria(min: Dict<string, string>, max: Dict<string, string>, values: Dict<string, string>)

  /** `float(annotations.get(k, 0))`: a missing key counts as 0. */
  function Number(annotations: Annotations, k: string, parseFloat: string -> Option<real>): (r: Result<real>)
    ensures Get(annotations, k).None? ==> r == Ok(0.0)
    ensures r.Err? ==> r.error == ValueError
  {
    match Get(annotations, k)
    case None => Ok(0.0)
    case Some(text) => if parseFloat(text).Some? then Ok(parseFloat(text).value) else Err(ValueError)
  }

  /** `float(v)` of a bound. */
  function Bound(v: string, parseFloat: string -> Option<real>): (r: Result<real>)
    ensures r.Err? ==> r.error == ValueError
  {
    if parseFloat(v).Some? then Ok(parseFloat(v).value) else Err(ValueError)
  }

  /** The `min` loop: true at the first key whose value is below its bound. */
  function BelowMin(annotations: Annotations, min: Dict<string, string>, parseFloat: string -> Option<real>): (r: Result<bool>)
    ensures r.Err? ==> r.error == ValueError
  {
    if |min| == 0 then Ok(false)
    else
      match Number(annotations, min[0].0, parseFloat)
      case Err(e) => Err(e)
      case Ok(x) =>
        match Bound(min[0].1, parseFloat)
        case Err(e) => Err(e)
        case Ok(b) => if x < b then Ok(true) else BelowMin(annotations, min[1..], parseFloat)
  }

  /** The `max` loop: true at the first key whose value is above its bound. */
  function AboveMax(annotations: Annotations, max: Dict<string, string>, parseFloat: string -> Option<real>): (r: Result<bool>)
    ensures r.Err? ==> r.error == ValueError
  {
    if |max| == 0 then Ok(false)
    else
      match Number(annotations, max[0].0, parseFloat)
      case Err(e) => Err(e)
      case Ok(x) =>
        match Bound(max[0].1, parseFloat)
        case Err(e) => Err(e)
        case Ok(b) => if x > b then Ok(true) else AboveMax(annotations, max[1..], parseFloat)
  }

  /**
   * The `values` loop: true at the first key whose annotation is not one of its comma-separated
   * values. A missing key gives the number 0, which equals no string.
   */
  function NotAllowed(annotations: Annotations, values: Dict<string, string>): bool {
    if |values| == 0 then false
    else
      var a := Get(annotations, values[0].0);
      a.None? || a.value !in Split(values[0].1, ',') || NotAllowed(annotations, values[1..])
  }

  /** `filter(annotations, min, max, values)`: true when the record is rejected. */
  function Reject(annotations: Annotations, c: Criteria, parseFloat: string -> Option<real>): (r: Result<bool>)
    ensures r.Err? ==> r.error == ValueError
  {
    match BelowMin(annotations, c.min, parseFloat)
    case Err(e) => Err(e)
    case Ok(low) =>
      if low then Ok(true)
      else
        match AboveMax(annotations, c.max, parseFloat)
        case Err(e) => Err(e)
        case Ok(high) => if high then Ok(true) else Ok(NotAllowed(annotations, c.values))
  }

  /** Every `min` bound and value is a number, and no value is below its bound. */
  predicate MeetsMin(annotations: Annotations, min: Dict<string, string>, parseFloat: string -> Option<real>) {
    forall i :: 0 <= i < |min| ==>
      && Number(annotations, min[i].0, parseFloat).Ok? && Bound(min[i].1, parseFloat).Ok?
      && Number(annotations, min[i].0, parseFloat).value >= Bound(min[i].1, parseFloat).value
  }

  /** Every `max` bound and value is a number, and no value is above its bound. */
  predicate MeetsMax(annotations: Annotations, max: Dict<string, string>, parseFloat: string -> Option<real>) {
    forall i :: 0 <= i < |max| ==>
      && Number(annotations, max[i].0, parseFloat).Ok? && Bound(max[i].1, parseFloat).Ok?
      && Number(annotations, max[i].0, parseFloat).value <= Bound(max[i].1, parseFloat).value
  }

  /** Every `values` key is annotated, with one of its allowed values. */
  predicate MeetsValues(annotations: Annotations, values: Dict<string, string>) {
    forall i :: 0 <= i < |values| ==>
      Get(annotations, values[i].0).Some? && Get(annotations, values[i].0).value in Split(values[i].1, ',')
  }

  lemma {:induction false} BelowMinSpec(annotations: Annotations, min: Dict<string, string>, parseFloat: string -> Option<real>)
    ensures BelowMin(annotations, min, parseFloat) == Ok(false) <==> MeetsMin(annotations, min, parseFloat)
  {
    if |min| > 0 {
      BelowMinSpec(annotations, min[1..], parseFloat);
      assert forall i :: 1 <= i < |min| ==> min[i] == min[1..][i - 1];
      if MeetsMin(annotations, min[1..], parseFloat) && !MeetsMin(annotations, min, parseFloat) {
        assert !(Number(annotations, min[0].0, parseFloat).Ok? && Bound(min[0].1, parseFloat).Ok?
          && Number(annotations, min[0].0, parseFloat).value >= Bound(min[0].1, parseFloat).value);
      }
    }
  }

  lemma {:induction false} AboveMaxSpec(annotations: Annotations, max: Dict<string, string>, parseFloat: string -> Option<real>)
    ensures AboveMax(annotations, max, parseFloat) == Ok(false) <==> MeetsMax(annotations, max, parseFloat)
  {
    if |max| > 0 {
      AboveMaxSpec(annotations, max[1..], parseFloat);
      assert forall i :: 1 <= i < |max| ==> max[i] == max[1..][i - 1];
      if MeetsMax(annotations, max[1..], parseFloat) && !MeetsMax(annotations, max, parseFloat) {
        assert !(Number(annotations, max[0].0, parseFloat).Ok? && Bound(max[0].1, parseFloat).Ok?
          && Number(annotations, max[0].0, parseFloat).value <= Bound(max[0].1, parseFloat).value);
      }
    }
  }

  lemma {:induction false} NotAllowedSpec(annotations: Annotations, values: Dict<string, string>)
    ensures !NotAllowed(annotations, values) <==> MeetsValues(annotations, values)
  {
    if |values| > 0 {
      NotAllowedSpec(annotations, values[1..]);
      assert forall i :: 1 <= i < |values| ==> values[i] == values[1..][i - 1];
    }
  }

  /**
   * A record passes exactly when every value is at least its `min` bound and at most its `max`
   * bound (a value equal to a bound passes; a missing key counts as 0), and every `values` key is
   * annotated with one of its allowed values.
   */
  lemma RejectSpec(annotations: Annotations, c: Criteria, parseFloat: string -> Option<real>)
    ensures Reject(annotations, c, parseFloat) == Ok(false) <==>
      && MeetsMin(annotations, c.min, parseFloat)
      && MeetsMax(annotations, c.max, parseFloat)
      && MeetsValues(annotations, c.values)
  {
    BelowMinSpec(annotations, c.min, parseFloat);
    AboveMaxSpec(annotations, c.max, parseFloat);
    NotAllowedSpec(annotations, c.values);
  }

  /** A `values` key the record lacks rejects it, unless a `min` or `max` check fails first. */
  lemma MissingValueRejects(annotations: Annotations, c: Criteria, parseFloat: string -> Option<real>, i: nat)
    requires i < |c.values| && Get(annotations, c.values[i].0).None?
    requires Reject(annotations, c, parseFloat).Ok?
    ensures Reject(annotations, c, parseFloat) == Ok(true)
  {
    RejectSpec(annotations, c, parseFloat);
  }

  /** With no criteria nothing is rejected. */
  lemma NoCriteriaAccepts(annotations: Annotations, parseFloat: string -> Option<real>)
    ensures Reject(annotations, Criteria([], [], []), parseFloat) == Ok(false)
  {
  }

  /** One input line: its annotations parsed as the loop of `filter_puzzles` does, then checked. */
  function LineRejected(line: string, c: Criteria, parseFloat: string -> Option<real>): (r: Result<bool>)
    ensures r.Err? ==> r.error == ValueError
  {
    match ParseAnnotations(Split(Strip(line), ';')[1..])
    case Err(e) => Err(e)
    case Ok(annotations) => Reject(annotations, c, parseFloat)
  }

  /** The lines written for the input lines, and the exception that stopped the loop, if any. */
  function Filtered(lines: seq<string>, c: Criteria, parseFloat: string -> Option<real>): (seq<string>, Option<Exception>) {
    if |lines| == 0 then ([], None)
    else
      var (written, failure) := Filtered(lines[..|lines| - 1], c, parseFloat);
      if failure.Some? then (written, failure)
      else
        match LineRejected(lines[|lines| - 1], c, parseFloat)
        case Err(e) => (written, Some(e))
        case Ok(rejected) => if rejected then (written, None) else (written + [lines[|lines| - 1]], None)
  }

  /** The output is input lines, unchanged and in input order, each of them accepted. */
  lemma {:induction false} FilteredSpec(lines: seq<string>, c: Criteria, parseFloat: string -> Option<real>)
    ensures IsSubsequence(Filtered(lines, c, parseFloat).0, lines)
    ensures forall i :: 0 <= i < |Filtered(lines, c, parseFloat).0| ==>
      LineRejected(Filtered(lines, c, parseFloat).0[i], c, parseFloat) == Ok(false)
  {
    if |lines| > 0 {
      var init, line := lines[..|lines| - 1], lines[|lines| - 1];
      FilteredSpec(init, c, parseFloat);
      var (written, failure) := Filtered(init, c, parseFloat);
      var out := Filtered(lines, c, parseFloat).0;
      if failure.None? && LineRejected(line, c, parseFloat) == Ok(false) {
        assert out == written + [line];
        assert out[..|out| - 1] == written;
      }
    }
  }

  /** When no exception stopped the loop, every line was checked and every accepted line written. */
  lemma {:induction false} FilteredComplete(lines: seq<string>, c: Criteria, parseFloat: string -> Option<real>)
    requires Filtered(lines, c, parseFloat).1.None?
    ensures forall i :: 0 <= i < |lines| ==> LineRejected(lines[i], c, parseFloat).Ok?
    ensures forall i :: 0 <= i < |lines| && LineRejected(lines[i], c, parseFloat) == Ok(false) ==>
      lines[i] in Filtered(lines, c, parseFloat).0
  {
    if |lines| > 0 {
      var init, line := lines[..|lines| - 1], lines[|lines| - 1];
      var (written, failure) := Filtered(init, c, parseFloat);
      assert failure.None?;
      FilteredComplete(init, c, parseFloat);
      var check := LineRejected(line, c, parseFloat);
      assert check.Ok?;
      var out := if check.value then written else written + [line];
      assert Filtered(lines, c, parseFloat).0 == out;
      forall i | 0 <= i < |lines|
        ensures LineRejected(lines[i], c, parseFloat).Ok?
        ensures LineRejected(lines[i], c, parseFloat) == Ok(false) ==> lines[i] in out
      {
        if i < |init| {
          assert lines[i] == init[i];
        }
      }
    }
  }

  /** `filter_puzzles`: each line read, checked, and written when accepted. */
  method FilterPuzzles(lines: seq<string>, c: Criteria, parseFloat: string -> Option<real>)
    returns (written: seq<string>, failure: Option<Exception>)
    ensures (written, failure) == Filtered(lines, c, parseFloat)
  {
    written, failure := [], None;
    var i := 0;
    while i < |lines|
      invariant i <= |lines|
      invariant Filtered(lines[..i], c, parseFloat) == (written, None)
    {
      assert lines[..i + 1][..i] == lines[..i];
      var rejected := LineRejected(lines[i], c, parseFloat);
      if rejected.Err? {
        FilteredStop(lines, i + 1, c, parseFloat);
        return written, Some(rejected.error);
      }
      if !rejected.value {
        written := written + [lines[i]];
      }
      i := i + 1;
    }
    assert lines[..i] == lines;
  }

  /** An exception stops the loop: later lines are neither read nor written. */
  lemma {:induction false} FilteredStop(lines: seq<string>, n: nat, c: Criteria, parseFloat: string -> Option<real>)
    requires n <= |lines| && Filtered(lines[..n], c, parseFloat).1.Some?
    ensures Filtered(lines, c, parseFloat) == Filtered(lines[..n], c, parseFloat)
  {
    if n < |lines| {
      assert lines[..|lines| - 1][..n] == lines[..n];
      FilteredStop(lines[..|lines| - 1], n, c, parseFloat);
    } else {
      assert lines[..n] == lines;
    }
  }
}
