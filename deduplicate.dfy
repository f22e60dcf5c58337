/**
 * Removing near-duplicate puzzles from an EPD stream.
 *
 * The records are optionally sorted by annotation keys. Each record is then reduced to:
 * - the pieces on the board after its principal variation;
 * - the SAN moves of the variation;
 * - a "mating pattern": the last move's piece and target square, the king piece and the
 *   king's squares.
 *
 * A record is kept when it is not too similar to any record kept before and its pattern has
 * not been seen. The chess library (the final position, move notation) is a parameter.
 */
module Deduplicate {
  import opened Wrappers
  import opened Strings
  import opened Dicts
  import opened Epd

  // ---------------------------------------------------------------------------
  // Sort keys

  /** One element of a sort key: a float when the annotation parses as one, else its text. */
  datatype KeyPart = Number(x: real) | Text(s: string)

  predicate Descending(direction: string) {
    direction == "d" || direction == "desc"
  }

  /**
   * `''.join(chr(255 - ord(c)) for c in s)`: each character mirrored around 255. `chr` of a
   * negative number raises ValueError, which happens for any character above 255.
   */
  function Flip(s: string): (r: Result<string>)
    ensures r.Ok? <==> forall i :: 0 <= i < |s| ==> s[i] as int <= 255
    ensures r.Err? ==> r.error == ValueError
    ensures r.Ok? ==> |r.value| == |s| && forall i :: 0 <= i < |s| ==> r.value[i] as int + s[i] as int == 255
  {
    if |s| == 0 then Ok("")
    else if s[0] as int > 255 then Err(ValueError)
    else
      match Flip(s[1..])
      case Err(e) => Err(e)
      case Ok(rest) => Ok([(255 - s[0] as int) as char] + rest)
  }

  /** Mirroring twice gives the string back: the descending key is an involution on Latin-1 text. */
  lemma FlipInvolution(s: string)
    requires Flip(s).Ok?
    ensures Flip(Flip(s).value) == Ok(s)
  {
    var t := Flip(s).value;
    assert Flip(t).Ok?;
    assert Flip(t).value == s;
  }

  /** Python's `<` on strings: character by character, a proper prefix first. */
  predicate StrLess(a: string, b: string) {
    if |a| == 0 then |b| > 0
    else if |b| == 0 then false
    else if a[0] != b[0] then a[0] < b[0]
    else StrLess(a[1..], b[1..])
  }

  /**
   * Mirroring reverses the order of two texts that differ at some position, but a proper prefix
   * stays a prefix: `"a" < "ab"`, and the mirrored `"a"` still sorts before the mirrored `"ab"`.
   * So a descending criterion lists `"a"` before `"ab"`, as an ascending one does.
   */
  lemma FlipKeepsPrefixFirst()
    ensures StrLess("a", "ab")
    ensures Flip("a").Ok? && Flip("ab").Ok? && StrLess(Flip("a").value, Flip("ab").value)
  {
    assert Flip("a").value == [158 as char];
    assert Flip("ab").value == [158 as char, 157 as char];
    assert StrLess([158 as char], [158 as char, 157 as char]) by {
      assert [158 as char, 157 as char][1..] == [157 as char];
    }
  }

  /** A character above every mirrored one, closing a descending text key. */
  const EndMark: char := 256 as char

  /**
   * The descending key of a text: the mirrored text closed by `EndMark`, so that a text sorts
   * after its proper prefixes are mirrored away (see `FlipKeepsPrefixFirst`).
   */
  function DescendingText(s: string): Result<string> {
    match Flip(s)
    case Err(e) => Err(e)
    case Ok(f) => Ok(f + [EndMark])
  }

  /** On Latin-1 texts the descending key reverses Python's string order exactly. */
  lemma {:induction false} DescendingTextReverses(a: string, b: string)
    requires DescendingText(a).Ok? && DescendingText(b).Ok?
    ensures StrLess(a, b) <==> StrLess(DescendingText(b).value, DescendingText(a).value)
  {
    var fa, fb := DescendingText(a).value, DescendingText(b).value;
    if |a| > 0 && |b| > 0 {
      assert fa[0] as int == 255 - a[0] as int && fb[0] as int == 255 - b[0] as int;
      if a[0] == b[0] {
        assert Flip(a[1..]).Ok? && Flip(b[1..]).Ok?;
        DescendingTextReverses(a[1..], b[1..]);
        assert fa[1..] == DescendingText(a[1..]).value;
        assert fb[1..] == DescendingText(b[1..]).value;
      }
    } else if |a| > 0 {
      assert fb == [EndMark];
      assert fa[0] as int <= 255;
    } else if |b| > 0 {
      assert fa == [EndMark];
      assert fb[0] as int <= 255;
    } else {
      assert fa == fb == [EndMark];
    }
  }

  /**
   * The key part of one criterion: the annotation's value, or `''` when the record lacks the
   * key; a float when `parseFloat` (Python's `float`) accepts it. A descending criterion negates
   * a number and mirrors a text with `Flip`, as the program does (`DescendingText` is the
   * corrected key, which the program does not use).
   */
  function KeyPartOf(criterion: (string, string), annotations: Annotations, parseFloat: string -> Option<real>): (r: Result<KeyPart>)
    ensures r.Err? ==> r.error == ValueError
  {
    var text := Get(annotations, criterion.0).GetOr("");
    var v := match parseFloat(text) case Some(x) => Number(x) case None => Text(text);
    if !Descending(criterion.1) then Ok(v)
    else
      match v
      case Number(x) => Ok(Number(-x))
      case Text(t) =>
        match Flip(t)
        case Err(e) => Err(e)
        case Ok(f) => Ok(Text(f))
  }

  /** The key parts of the criteria in order (the loop of `get_sort_key`). */
  function KeyParts(criteria: seq<(string, string)>, annotations: Annotations, parseFloat: string -> Option<real>): (r: Result<seq<KeyPart>>)
    ensures r.Ok? ==> |r.value| == |criteria|
  {
    if |criteria| == 0 then Ok([])
    else
      var last := criteria[|criteria| - 1];
      match KeyParts(criteria[..|criteria| - 1], annotations, parseFloat)
      case Err(e) => Err(e)
      case Ok(init) =>
        match KeyPartOf(last, annotations, parseFloat)
        case Err(e) => Err(e)
        case Ok(part) => Ok(init + [part])
  }

  /** The key has one part per criterion, in order, and fails exactly when one of its parts fails. */
  lemma {:induction false} KeyPartsSpec(criteria: seq<(string, string)>, annotations: Annotations, parseFloat: string -> Option<real>)
    ensures KeyParts(criteria, annotations, parseFloat).Ok? <==>
      forall i :: 0 <= i < |criteria| ==> KeyPartOf(criteria[i], annotations, parseFloat).Ok?
    ensures KeyParts(criteria, annotations, parseFloat).Ok? ==> forall i :: 0 <= i < |criteria| ==>
      KeyParts(criteria, annotations, parseFloat).value[i] == KeyPartOf(criteria[i], annotations, parseFloat).value
  {
    if |criteria| > 0 {
      var init := criteria[..|criteria| - 1];
      KeyPartsSpec(init, annotations, parseFloat);
      assert forall i :: 0 <= i < |init| ==> init[i] == criteria[i];
    }
  }

  /** `get_sort_key(sort_criteria, epd)`: the record's annotations, then one key part per criterion. */
  function SortKey(criteria: seq<(string, string)>, epd: string, parseFloat: string -> Option<real>): Result<seq<KeyPart>> {
    var annotations :- ParseAnnotations(Split(Strip(epd), ';')[1..]);
    KeyParts(criteria, annotations, parseFloat)
  }

  /**
   * A record without the criterion's key sorts by the empty text (which `float` refuses), in
   * either direction, since mirroring `''` gives `''`: before every other text.
   */
  lemma MissingKeyPart(criterion: (string, string), annotations: Annotations, parseFloat: string -> Option<real>)
    requires Get(annotations, criterion.0).None? && parseFloat("").None?
    ensures KeyPartOf(criterion, annotations, parseFloat) == Ok(Text(""))
    ensures forall t: string :: t != "" ==> StrLess("", t)
  {
  }

  /** A descending criterion negates a number, or mirrors a text; an ascending one keeps both. */
  lemma DescendingKeyPart(criterion: (string, string), annotations: Annotations, parseFloat: string -> Option<real>, text: string)
    requires Get(annotations, criterion.0) == Some(text)
    ensures parseFloat(text).Some? && Descending(criterion.1) ==>
      KeyPartOf(criterion, annotations, parseFloat) == Ok(Number(-parseFloat(text).value))
    ensures parseFloat(text).Some? && !Descending(criterion.1) ==>
      KeyPartOf(criterion, annotations, parseFloat) == Ok(Number(parseFloat(text).value))
    ensures parseFloat(text).None? && Descending(criterion.1) && Flip(text).Ok? ==>
      KeyPartOf(criterion, annotations, parseFloat) == Ok(Text(Flip(text).value))
    ensures parseFloat(text).None? && !Descending(criterion.1) ==>
      KeyPartOf(criterion, annotations, parseFloat) == Ok(Text(text))
  {
  }

  /** The key-building loop of `get_sort_key`. */
  method BuildSortKey(criteria: seq<(string, string)>, epd: string, parseFloat: string -> Option<real>)
    returns (r: Result<seq<KeyPart>>)
    ensures r == SortKey(criteria, epd, parseFloat)
  {
    var annotations := ParseAnnotations(Split(Strip(epd), ';')[1..]);
    if annotations.Err? {
      return Err(annotations.error);
    }
    var key: seq<KeyPart> := [];
    var i := 0;
    while i < |criteria|
      invariant i <= |criteria|
      invariant KeyParts(criteria[..i], annotations.value, parseFloat) == Ok(key)
    {
      assert criteria[..i + 1][..i] == criteria[..i];
      var part := KeyPartOf(criteria[i], annotations.value, parseFloat);
      if part.Err? {
        KeyPartsStop(criteria, i + 1, annotations.value, parseFloat);
        return Err(part.error);
      }
      key := key + [part.value];
      i := i + 1;
    }
    assert criteria[..i] == criteria;
    return Ok(key);
  }

  /** A failing prefix of the criteria fails the whole key, with the same error. */
  lemma {:induction false} KeyPartsStop(criteria: seq<(string, string)>, n: nat, annotations: Annotations, parseFloat: string -> Option<real>)
    requires n <= |criteria| && KeyParts(criteria[..n], annotations, parseFloat).Err?
    ensures KeyParts(criteria, annotations, parseFloat) == KeyParts(criteria[..n], annotations, parseFloat)
  {
    if n < |criteria| {
      assert criteria[..|criteria| - 1][..n] == criteria[..n];
      KeyPartsStop(criteria[..|criteria| - 1], n, annotations, parseFloat);
    } else {
      assert criteria[..n] == criteria;
    }
  }

  // ---------------------------------------------------------------------------
  // Sorting the records by their keys

  /** Python's `<` on two key parts; a number and a text do not compare (TypeError). */
  function PartLess(a: KeyPart, b: KeyPart): (r: Result<bool>)
    ensures r.Err? <==> a.Number? != b.Number?
    ensures r.Err? ==> r.error == TypeError
  {
    match (a, b)
    case (Number(x), Number(y)) => Ok(x < y)
    case (Text(u), Text(v)) => Ok(StrLess(u, v))
    case _ => Err(TypeError)
  }

  /** Python's `<` on tuples: the first position where the parts differ decides. */
  function KeyLess(a: seq<KeyPart>, b: seq<KeyPart>): (r: Result<bool>)
    ensures r.Err? ==> r.error == TypeError
  {
    if |a| == 0 then Ok(|b| > 0)
    else if |b| == 0 then Ok(false)
    else if a[0] == b[0] then KeyLess(a[1..], b[1..])
    else PartLess(a[0], b[0])
  }

  lemma {:induction false} StrLessAsymmetric(a: string, b: string)
    requires StrLess(a, b)
    ensures !StrLess(b, a)
  {
    if |a| > 0 && |b| > 0 && a[0] == b[0] {
      StrLessAsymmetric(a[1..], b[1..]);
    }
  }

  /** Of two keys, at most one is smaller than the other. */
  lemma {:induction false} KeyLessAsymmetric(a: seq<KeyPart>, b: seq<KeyPart>)
    requires KeyLess(a, b) == Ok(true)
    ensures KeyLess(b, a) == Ok(false)
  {
    if |a| > 0 && |b| > 0 {
      if a[0] == b[0] {
        KeyLessAsymmetric(a[1..], b[1..]);
      } else if a[0].Text? {
        StrLessAsymmetric(a[0].s, b[0].s);
      }
    }
  }

  type Entry = (seq<KeyPart>, string)

  /** One record inserted into sorted records from the back: it goes after every record whose key it is not smaller than. */
  function Insert(x: Entry, sorted: seq<Entry>): (r: Result<seq<Entry>>)
    ensures r.Err? ==> r.error == TypeError
    ensures r.Ok? ==> multiset(r.value) == multiset(sorted) + multiset{x}
    ensures r.Ok? ==> |r.value| == |sorted| + 1
    ensures r.Ok? ==> r.value[|sorted|]
                      == if |sorted| == 0 || KeyLess(x.0, sorted[|sorted| - 1].0) == Ok(false) then x else sorted[|sorted| - 1]
  {
    if |sorted| == 0 then Ok([x])
    else
      var last := sorted[|sorted| - 1];
      match KeyLess(x.0, last.0)
      case Err(e) => Err(e)
      case Ok(less) =>
        if !less then Ok(sorted + [x])
        else
          match Insert(x, sorted[..|sorted| - 1])
          case Err(e) => Err(e)
          case Ok(r) =>
            assert sorted[..|sorted| - 1] + [last] == sorted;
            Ok(r + [last])
  }

  /** No record's key is smaller than the key of the record before it. */
  predicate Sorted(entries: seq<Entry>) {
    forall i :: 0 < i < |entries| ==> KeyLess(entries[i].0, entries[i - 1].0) == Ok(false)
  }

  lemma {:induction false} InsertSorted(x: Entry, sorted: seq<Entry>)
    requires Sorted(sorted) && Insert(x, sorted).Ok?
    ensures Sorted(Insert(x, sorted).value)
  {
    if |sorted| > 0 {
      var init, last := sorted[..|sorted| - 1], sorted[|sorted| - 1];
      if KeyLess(x.0, last.0) == Ok(true) {
        InsertSorted(x, init);
        var r := Insert(x, init).value;
        if r[|init|] == x {
          KeyLessAsymmetric(x.0, last.0);
        }
        assert Insert(x, sorted).value == r + [last];
      }
    }
  }

  /** Insertion sort: each record goes after the sorted earlier records whose keys it is not smaller than. */
  function InsertionSort(entries: seq<Entry>): (r: Result<seq<Entry>>)
    ensures r.Err? ==> r.error == TypeError
    ensures r.Ok? ==> multiset(r.value) == multiset(entries)
  {
    if |entries| == 0 then Ok([])
    else
      match InsertionSort(entries[..|entries| - 1])
      case Err(e) => Err(e)
      case Ok(init) =>
        assert entries[..|entries| - 1] + [entries[|entries| - 1]] == entries;
        Insert(entries[|entries| - 1], init)
  }

  /** Every pair of keys compares: each position holds numbers in all keys or texts in all keys. */
  predicate Comparable(entries: seq<Entry>) {
    forall i, j :: 0 <= i < |entries| && 0 <= j < |entries| ==> KeyLess(entries[i].0, entries[j].0).Ok?
  }

  lemma {:induction false} InsertOk(x: Entry, sorted: seq<Entry>)
    requires forall i :: 0 <= i < |sorted| ==> KeyLess(x.0, sorted[i].0).Ok?
    ensures Insert(x, sorted).Ok?
  {
    if |sorted| > 0 {
      InsertOk(x, sorted[..|sorted| - 1]);
    }
  }

  /** The sorted records are the input's, rearranged so that no key is smaller than the one before; when all keys compare, sorting does not fail. */
  lemma {:induction false} InsertionSortSpec(entries: seq<Entry>)
    ensures InsertionSort(entries).Ok? ==> Sorted(InsertionSort(entries).value)
    ensures Comparable(entries) ==> InsertionSort(entries).Ok?
  {
    if |entries| > 0 {
      var init, x := entries[..|entries| - 1], entries[|entries| - 1];
      InsertionSortSpec(init);
      if InsertionSort(init).Ok? {
        InsertSorted'(x, init);
        if Comparable(entries) {
          var sorted := InsertionSort(init).value;
          forall i | 0 <= i < |sorted| ensures KeyLess(x.0, sorted[i].0).Ok? {
            assert sorted[i] in multiset(init);
            var j :| 0 <= j < |init| && init[j] == sorted[i];
            assert entries[j] == init[j];
          }
          InsertOk(x, sorted);
        }
      }
      if Comparable(entries) {
        assert Comparable(init) by {
          forall i, j | 0 <= i < |init| && 0 <= j < |init| ensures KeyLess(init[i].0, init[j].0).Ok? {
            assert init[i] == entries[i] && init[j] == entries[j];
          }
        }
      }
    }
  }

  lemma InsertSorted'(x: Entry, init: seq<Entry>)
    requires InsertionSort(init).Ok?
    ensures Sorted(InsertionSort(init).value) ==> Insert(x, InsertionSort(init).value).Ok? ==>
      Sorted(Insert(x, InsertionSort(init).value).value)
  {
    if Sorted(InsertionSort(init).value) && Insert(x, InsertionSort(init).value).Ok? {
      InsertSorted(x, InsertionSort(init).value);
    }
  }

  /** Each record paired with its sort key, computed in input order; the first failing key stops. */
  function KeyedRecords(criteria: seq<(string, string)>, epds: seq<string>, parseFloat: string -> Option<real>): (r: Result<seq<Entry>>)
    ensures r.Ok? ==> |r.value| == |epds| && forall i :: 0 <= i < |epds| ==> r.value[i].1 == epds[i]
  {
    if |epds| == 0 then Ok([])
    else
      match KeyedRecords(criteria, epds[..|epds| - 1], parseFloat)
      case Err(e) => Err(e)
      case Ok(init) =>
        match SortKey(criteria, epds[|epds| - 1], parseFloat)
        case Err(e) => Err(e)
        case Ok(key) => Ok(init + [(key, epds[|epds| - 1])])
  }

  /** The records of keyed records, keys dropped. */
  function Records(entries: seq<Entry>): (epds: seq<string>)
    ensures |epds| == |entries|
  {
    if |entries| == 0 then [] else Records(entries[..|entries| - 1]) + [entries[|entries| - 1].1]
  }

  lemma RecordsSnoc(entries: seq<Entry>, x: Entry)
    ensures Records(entries + [x]) == Records(entries) + [x.1]
  {
    assert (entries + [x])[..|entries|] == entries;
  }

  /** Inserting a record adds its record to the records, wherever it lands. */
  lemma {:induction false} InsertRecords(x: Entry, sorted: seq<Entry>)
    requires Insert(x, sorted).Ok?
    ensures multiset(Records(Insert(x, sorted).value)) == multiset(Records(sorted)) + multiset{x.1}
  {
    if |sorted| == 0 {
      assert Records([x]) == Records([] + [x]);
      RecordsSnoc([], x);
    } else {
      var init, last := sorted[..|sorted| - 1], sorted[|sorted| - 1];
      if KeyLess(x.0, last.0) == Ok(false) {
        RecordsSnoc(sorted, x);
      } else {
        InsertRecords(x, init);
        RecordsSnoc(Insert(x, init).value, last);
        RecordsSnoc(init, last);
        ButLast(sorted);
      }
    }
  }

  /** Sorting rearranges the records. */
  lemma {:induction false} InsertionSortRecords(entries: seq<Entry>)
    requires InsertionSort(entries).Ok?
    ensures multiset(Records(InsertionSort(entries).value)) == multiset(Records(entries))
  {
    if |entries| > 0 {
      var init, x := entries[..|entries| - 1], entries[|entries| - 1];
      InsertionSortRecords(init);
      InsertRecords(x, InsertionSort(init).value);
      RecordsSnoc(init, x);
      ButLast(entries);
    }
  }

  lemma {:induction false} KeyedRecordsRecords(criteria: seq<(string, string)>, epds: seq<string>, parseFloat: string -> Option<real>)
    requires KeyedRecords(criteria, epds, parseFloat).Ok?
    ensures Records(KeyedRecords(criteria, epds, parseFloat).value) == epds
  {
    if |epds| > 0 {
      var init := epds[..|epds| - 1];
      KeyedRecordsRecords(criteria, init, parseFloat);
      var e := KeyedRecords(criteria, epds, parseFloat).value;
      RecordsSnoc(KeyedRecords(criteria, init, parseFloat).value, e[|epds| - 1]);
      assert init + [epds[|epds| - 1]] == epds;
    }
  }

  /** `epds.sort(key=lambda x: get_sort_key(sort_criteria, x))` */
  function SortRecords(criteria: seq<(string, string)>, epds: seq<string>, parseFloat: string -> Option<real>): Result<seq<string>> {
    match KeyedRecords(criteria, epds, parseFloat)
    case Err(e) => Err(e)
    case Ok(entries) =>
      match InsertionSort(entries)
      case Err(e) => Err(e)
      case Ok(sorted) => Ok(Records(sorted))
  }

  /** Sorting rearranges the records, so that no record's key is smaller than the one before it. */
  lemma SortRecordsSpec(criteria: seq<(string, string)>, epds: seq<string>, parseFloat: string -> Option<real>)
    requires SortRecords(criteria, epds, parseFloat).Ok?
    ensures multiset(SortRecords(criteria, epds, parseFloat).value) == multiset(epds)
    ensures var sorted := InsertionSort(KeyedRecords(criteria, epds, parseFloat).value).value;
      Sorted(sorted) && SortRecords(criteria, epds, parseFloat).value == Records(sorted)
  {
    var entries := KeyedRecords(criteria, epds, parseFloat).value;
    InsertionSortSpec(entries);
    InsertionSortRecords(entries);
    KeyedRecordsRecords(criteria, epds, parseFloat);
  }

  // ---------------------------------------------------------------------------
  // LAN moves: `([A-Z])?([a-l][0-9]+)[-x]([a-l][0-9]+)`, matched at the start only

  /** The length of the run of ASCII digits at the start of `s` (what a greedy `[0-9]+` takes). */
  function DigitRun(s: string): (n: nat)
    ensures n <= |s|
    ensures forall i :: 0 <= i < n ==> IsDigit(s[i])
    ensures n < |s| ==> !IsDigit(s[n])
  {
    if |s| > 0 && IsDigit(s[0]) then 1 + DigitRun(s[1..]) else 0
  }

  predicate IsFileLetter(c: char) {
    'a' <= c <= 'l'
  }

  predicate IsUpper(c: char) {
    'A' <= c <= 'Z'
  }

  /** What `[a-l][0-9]+` matches in full. */
  predicate IsLanSquare(s: string) {
    |s| >= 2 && IsFileLetter(s[0]) && forall i :: 1 <= i < |s| ==> IsDigit(s[i])
  }

  /** The length of the `[a-l][0-9]+` match at the start of `s`, if there is one. */
  function SquareAt(s: string): (r: Option<nat>)
    ensures r.Some? ==> 2 <= r.value <= |s| && IsLanSquare(s[..r.value])
    ensures r.Some? && r.value < |s| ==> !IsDigit(s[r.value])
  {
    if |s| >= 2 && IsFileLetter(s[0]) && IsDigit(s[1]) then
      var n := 1 + DigitRun(s[1..]);
      assert forall i :: 1 <= i < n ==> s[..n][i] == s[1..][i - 1];
      Some(n)
    else None
  }

  /**
   * `parse_lan_move(move)`: the moving piece (`P` when no capital letter leads), the from square
   * and the to square; ValueError when the move does not start with that shape.
   */
  function ParseLan(move: string): (r: Result<(string, string, string)>)
    ensures r.Err? ==> r.error == ValueError
    ensures r.Ok? ==> |r.value.0| == 1 && IsUpper(r.value.0[0]) && IsLanSquare(r.value.1) && IsLanSquare(r.value.2)
  {
    var piece := if |move| > 0 && IsUpper(move[0]) then move[..1] else "";
    match LanSquares(move[|piece|..])
    case None => Err(ValueError)
    case Some(squares) => Ok((if piece == "" then "P" else piece, squares.0, squares.1))
  }

  /** The `([a-l][0-9]+)[-x]([a-l][0-9]+)` part of the pattern, at the start of `s`. */
  function LanSquares(s: string): (r: Option<(string, string)>)
    ensures r.Some? ==> IsLanSquare(r.value.0) && IsLanSquare(r.value.1)
  {
    match SquareAt(s)
    case None => None
    case Some(n) =>
      if n < |s| && (s[n] == '-' || s[n] == 'x') then
        match SquareAt(s[n + 1..])
        case None => None
        case Some(m) => Some((s[..n], s[n + 1..][..m]))
      else None
  }

  /** The greedy digit run of a square followed by a non-digit is the whole square. */
  lemma SquareAtOf(square: string, rest: string)
    requires IsLanSquare(square)
    requires |rest| == 0 || !IsDigit(rest[0])
    ensures SquareAt(square + rest) == Some(|square|)
  {
    DigitRunOf(square[1..], rest);
    assert (square + rest)[1..] == square[1..] + rest;
  }

  lemma {:induction false} DigitRunOf(digits: string, rest: string)
    requires forall i :: 0 <= i < |digits| ==> IsDigit(digits[i])
    requires |rest| == 0 || !IsDigit(rest[0])
    ensures DigitRun(digits + rest) == |digits|
  {
    if |digits| > 0 {
      assert (digits + rest)[1..] == digits[1..] + rest;
      DigitRunOf(digits[1..], rest);
    } else {
      assert digits + rest == rest;
    }
  }

  lemma LanSquaresOf(from: string, sep: char, to: string, suffix: string)
    requires IsLanSquare(from) && IsLanSquare(to) && (sep == '-' || sep == 'x')
    requires |suffix| == 0 || !IsDigit(suffix[0])
    ensures LanSquares(from + [sep] + to + suffix) == Some((from, to))
  {
    var s := from + [sep] + to + suffix;
    assert s == from + ([sep] + to + suffix);
    SquareAtOf(from, [sep] + to + suffix);
    assert s[..|from|] == from && s[|from|] == sep;
    assert s[|from| + 1..] == to + suffix;
    SquareAtOf(to, suffix);
    assert (to + suffix)[..|to|] == to;
  }

  /**
   * A move written as an optional capital piece, a square, `-` or `x`, a square and any suffix
   * that does not continue the digits parses back into its parts.
   */
  lemma ParseLanOf(piece: string, from: string, sep: char, to: string, suffix: string)
    requires |piece| == 0 || (|piece| == 1 && IsUpper(piece[0]))
    requires IsLanSquare(from) && IsLanSquare(to) && (sep == '-' || sep == 'x')
    requires |suffix| == 0 || !IsDigit(suffix[0])
    ensures ParseLan(piece + from + [sep] + to + suffix) == Ok((if piece == "" then "P" else piece, from, to))
  {
    var rest := from + [sep] + to + suffix;
    var move := piece + rest;
    assert piece + from + [sep] + to + suffix == move;
    LanSquaresOf(from, sep, to, suffix);
    if |piece| == 0 {
      assert move == rest && move[0] == from[0];
    } else {
      assert move[0] == piece[0] && move[..1] == piece && move[1..] == rest;
    }
  }

  /** The example of `parse_lan_move`'s documentation. */
  lemma ParseLanExample()
    ensures ParseLan("Rh6-h8+") == Ok(("R", "h6", "h8"))
  {
    ParseLanOf("R", "h6", '-', "h8", "+");
    assert "R" + "h6" + ['-'] + "h8" + "+" == "Rh6-h8+";
  }

  // ---------------------------------------------------------------------------
  // FEN board to square map

  predicate IsAlpha(c: char) {
    'a' <= c <= 'z' || 'A' <= c <= 'Z'
  }

  /** `chr(ord('a') + file) + str(rank)` */
  function SquareName(file: nat, rank: int): string
    requires file < Letters
  {
    [Letter(file)] + IntToString(rank)
  }

  /** The file a row has reached after `s`: each digit skips its value, each letter one file. */
  function FileAfter(s: string): nat {
    if |s| == 0 then 0
    else
      var c := s[|s| - 1];
      FileAfter(s[..|s| - 1]) + (if IsDigit(c) then DigitValue(c) else if IsAlpha(c) then 1 else 0)
  }

  function LetterCount(s: string): nat {
    if |s| == 0 then 0 else LetterCount(s[..|s| - 1]) + (if IsAlpha(s[|s| - 1]) then 1 else 0)
  }

  function LetterTotal(rows: seq<string>): nat {
    if |rows| == 0 then 0 else LetterTotal(rows[..|rows| - 1]) + LetterCount(rows[|rows| - 1])
  }

  /** The file a square name stands for. */
  function FileOf(name: string): int
    requires |name| > 0
  {
    name[0] as int - 'a' as int
  }

  /**
   * One row of a FEN board read left to right: the (square, piece) pairs it places at rank
   * `rank`, and the file it ends on. A letter past the last file `chr` can name is ValueError.
   */
  function RowScan(row: string, rank: int): (r: Result<(seq<(string, char)>, nat)>)
    ensures r.Err? ==> r.error == ValueError
  {
    if |row| == 0 then Ok(([], 0))
    else
      match RowScan(row[..|row| - 1], rank)
      case Err(e) => Err(e)
      case Ok(scan) => ScanChar(scan, row[|row| - 1], rank)
  }

  /** One character of a row: a digit skips files, a letter is placed and takes one file. */
  function ScanChar(scan: (seq<(string, char)>, nat), c: char, rank: int): Result<(seq<(string, char)>, nat)> {
    if IsDigit(c) then Ok((scan.0, scan.1 + DigitValue(c)))
    else if IsAlpha(c) then
      if scan.1 >= Letters then Err(ValueError)
      else Ok((scan.0 + [(SquareName(scan.1, rank), c)], scan.1 + 1))
    else Ok(scan)
  }

  /**
   * A row ends on the file its digits and letters add up to and places one pair per letter:
   * each a letter on rank `rank`, on files that increase from left to right.
   */
  lemma {:induction false} RowScanSpec(row: string, rank: int)
    requires RowScan(row, rank).Ok?
    ensures var r := RowScan(row, rank).value; r.1 == FileAfter(row) && |r.0| == LetterCount(row)
    ensures var r := RowScan(row, rank).value; forall j :: 0 <= j < |r.0| ==>
      && IsAlpha(r.0[j].1) && |r.0[j].0| > 0
      && r.0[j].0[1..] == IntToString(rank) && 0 <= FileOf(r.0[j].0) < r.1
    ensures var r := RowScan(row, rank).value; forall i, j :: 0 <= i < j < |r.0| ==> FileOf(r.0[i].0) < FileOf(r.0[j].0)
  {
    if |row| > 0 {
      RowScanSpec(row[..|row| - 1], rank);
    }
  }

  /** Scanning one more character of a row. */
  lemma RowScanNext(row: string, rank: int, k: nat, scan: (seq<(string, char)>, nat))
    requires k < |row| && RowScan(row[..k], rank) == Ok(scan)
    ensures RowScan(row[..k + 1], rank) == ScanChar(scan, row[k], rank)
  {
    assert row[..k + 1][..k] == row[..k];
  }

  /** Each letter of a row is placed on the file the row has reached before it. */
  lemma {:induction false} RowScanPlaces(row: string, rank: int, k: nat)
    requires RowScan(row, rank).Ok? && k < |row| && IsAlpha(row[k])
    ensures FileAfter(row[..k]) < Letters
    ensures (SquareName(FileAfter(row[..k]), rank), row[k]) in RowScan(row, rank).value.0
  {
    var init := row[..|row| - 1];
    if k < |row| - 1 {
      assert init[..k] == row[..k] && init[k] == row[k];
      RowScanPlaces(init, rank, k);
    } else {
      assert init == row[..k];
      RowScanSpec(init, rank);
    }
  }

  /** A failing start of a row fails the whole row. */
  lemma {:induction false} RowScanStop(row: string, rank: int, n: nat)
    requires n <= |row| && RowScan(row[..n], rank).Err?
    ensures RowScan(row, rank).Err?
  {
    if n < |row| {
      assert row[..|row| - 1][..n] == row[..n];
      RowScanStop(row[..|row| - 1], rank, n);
    } else {
      assert row[..n] == row;
    }
  }

  /** The rank a square name stands for, when its tail is a number. */
  function RankOf(name: string): Option<int>
    requires |name| > 0
  {
    ParseInt(name[1..])
  }

  /**
   * The pairs placed by the rows of a board, the first row on rank `ranks`, the next one rank
   * lower, and so on (the loops of `fen_to_square_map`).
   */
  function Placements(rows: seq<string>, ranks: int): (r: Result<seq<(string, char)>>)
    ensures r.Err? ==> r.error == ValueError
  {
    if |rows| == 0 then Ok([])
    else
      match Placements(rows[..|rows| - 1], ranks)
      case Err(e) => Err(e)
      case Ok(init) =>
        match RowScan(rows[|rows| - 1], ranks - (|rows| - 1))
        case Err(e) => Err(e)
        case Ok(scan) => Ok(init + scan.0)
  }

  /**
   * One pair per letter of the board, each with a letter as its piece and a rank between the
   * last row's and the first row's; no square is placed twice.
   */
  lemma {:induction false} PlacementsSpec(rows: seq<string>, ranks: int)
    requires Placements(rows, ranks).Ok?
    ensures var ps := Placements(rows, ranks).value; |ps| == LetterTotal(rows) && KeysDistinct(ps)
    ensures var ps := Placements(rows, ranks).value; forall j :: 0 <= j < |ps| ==>
      && IsAlpha(ps[j].1) && |ps[j].0| > 0
      && RankOf(ps[j].0).Some? && ranks - |rows| < RankOf(ps[j].0).value <= ranks
  {
    if |rows| > 0 {
      var init := rows[..|rows| - 1];
      var rank := ranks - (|rows| - 1);
      PlacementsSpec(init, ranks);
      var before := Placements(init, ranks).value;
      var row := RowScan(rows[|rows| - 1], rank).value.0;
      RowScanSpec(rows[|rows| - 1], rank);
      var ps := Placements(rows, ranks).value;
      assert ps == before + row;
      IntToStringParses(rank);
      forall j | 0 <= j < |row|
        ensures RankOf(row[j].0) == Some(rank)
      {
      }
      forall i, j | 0 <= i < j < |ps|
        ensures ps[i].0 != ps[j].0
      {
        if j >= |before| && i < |before| {
          assert RankOf(ps[i].0) != RankOf(ps[j].0);
        } else if i >= |before| {
          assert FileOf(row[i - |before|].0) < FileOf(row[j - |before|].0);
        }
      }
    }
  }

  /** Each letter of row `r` lands on its file and on rank `ranks - r`. */
  lemma {:induction false} PlacementsPlace(rows: seq<string>, ranks: int, r: nat, k: nat)
    requires Placements(rows, ranks).Ok? && r < |rows| && k < |rows[r]| && IsAlpha(rows[r][k])
    ensures FileAfter(rows[r][..k]) < Letters
    ensures (SquareName(FileAfter(rows[r][..k]), ranks - r), rows[r][k]) in Placements(rows, ranks).value
  {
    var init := rows[..|rows| - 1];
    if r < |rows| - 1 {
      assert init[r] == rows[r];
      PlacementsPlace(init, ranks, r, k);
    } else {
      RowScanPlaces(rows[r], ranks - r, k);
    }
  }

  /** A failing row fails the whole board. */
  lemma {:induction false} PlacementsStop(rows: seq<string>, ranks: int, n: nat)
    requires n <= |rows| && Placements(rows[..n], ranks).Err?
    ensures Placements(rows, ranks).Err?
  {
    if n < |rows| {
      assert rows[..|rows| - 1][..n] == rows[..n];
      PlacementsStop(rows[..|rows| - 1], ranks, n);
    } else {
      assert rows[..n] == rows;
    }
  }

  /** The rows of a FEN's board field, top rank first. */
  function BoardRows(fen: string): seq<string>
    requires |Words(fen)| > 0
  {
    Split(Words(fen)[0], '/')
  }

  /**
   * `fen_to_square_map(fen)`: the square of every piece letter on the board, in the order the
   * letters appear. IndexError for a FEN without fields.
   */
  function SquareMap(fen: string): (r: Result<Dict<string, char>>)
    ensures r.Err? ==> r.error == IndexError || r.error == ValueError
    ensures r.Ok? ==> |Words(fen)| > 0
  {
    if |Words(fen)| == 0 then Err(IndexError)
    else
      var rows := BoardRows(fen);
      match Placements(rows, |rows|)
      case Err(e) => Err(e)
      case Ok(ps) => Ok(FromPairs(ps))
  }

  /**
   * The map has one entry per piece letter of the board (no square is written twice), every
   * value is a letter, and every square lies on a rank between 1 and the number of rows.
   */
  lemma SquareMapSpec(fen: string)
    requires SquareMap(fen).Ok?
    ensures var m := SquareMap(fen).value; |m| == LetterTotal(BoardRows(fen))
    ensures var m := SquareMap(fen).value; forall j :: 0 <= j < |m| ==>
      && IsAlpha(m[j].1) && |m[j].0| > 0
      && RankOf(m[j].0).Some? && 1 <= RankOf(m[j].0).value <= |BoardRows(fen)|
  {
    var rows := BoardRows(fen);
    PlacementsSpec(rows, |rows|);
    FromPairsOfDistinct(Placements(rows, |rows|).value);
  }

  /** Each piece letter of row `r` is the value of its square, on rank `rows - r`. */
  lemma SquareMapPlaces(fen: string, r: nat, k: nat)
    requires SquareMap(fen).Ok? && r < |BoardRows(fen)| && k < |BoardRows(fen)[r]|
    requires IsAlpha(BoardRows(fen)[r][k])
    ensures FileAfter(BoardRows(fen)[r][..k]) < Letters
    ensures Get(SquareMap(fen).value, SquareName(FileAfter(BoardRows(fen)[r][..k]), |BoardRows(fen)| - r))
      == Some(BoardRows(fen)[r][k])
  {
    var rows := BoardRows(fen);
    var ps := Placements(rows, |rows|).value;
    PlacementsSpec(rows, |rows|);
    FromPairsOfDistinct(ps);
    PlacementsPlace(rows, |rows|, r, k);
    var i :| 0 <= i < |ps| && ps[i] == (SquareName(FileAfter(rows[r][..k]), |rows| - r), rows[r][k]);
    GetDistinctAt(ps, i);
  }

  /** Placing one more row on the board. */
  lemma PlacementsNext(rows: seq<string>, ranks: int, y: nat, placed: seq<(string, char)>, scan: (seq<(string, char)>, nat))
    requires y < |rows| && Placements(rows[..y], ranks) == Ok(placed)
    requires RowScan(rows[y], ranks - y) == Ok(scan)
    ensures Placements(rows[..y + 1], ranks) == Ok(placed + scan.0)
  {
    assert rows[..y + 1][..y] == rows[..y];
  }

  /** `fen_to_square_map`, filling the map square by square. */
  method FenToSquareMap(fen: string) returns (result: Result<Dict<string, char>>)
    ensures result == SquareMap(fen)
  {
    var words := Words(fen);
    if |words| == 0 {
      return Err(IndexError);
    }
    var rows := Split(words[0], '/');
    var ranks := |rows|;
    var squareMap: Dict<string, char> := [];
    ghost var placed: seq<(string, char)> := [];
    var y := 0;
    while y < |rows|
      invariant y <= |rows|
      invariant Placements(rows[..y], ranks) == Ok(placed)
      invariant squareMap == FromPairs(placed)
    {
      var next := PlaceRow(rows[y], ranks - y, squareMap);
      if next.Err? {
        PlacementsStop(rows, ranks, y + 1);
        return Err(ValueError);
      }
      var scan := RowScan(rows[y], ranks - y).value;
      PlacementsNext(rows, ranks, y, placed, scan);
      FromPairsAppend(placed, scan.0);
      squareMap := next.value;
      placed := placed + scan.0;
      y := y + 1;
    }
    Whole(rows, y);
    return Ok(squareMap);
  }

  /** The inner loop of `fen_to_square_map`: the pieces of one row put into the map. */
  method PlaceRow(row: string, rank: int, squareMap: Dict<string, char>) returns (r: Result<Dict<string, char>>)
    ensures RowScan(row, rank).Err? ==> r == Err(ValueError)
    ensures RowScan(row, rank).Ok? ==> r == Ok(PutAll(squareMap, RowScan(row, rank).value.0))
  {
    var fileIdx := 0;
    var next := squareMap;
    ghost var scan: (seq<(string, char)>, nat) := ([], 0);
    var k := 0;
    while k < |row|
      invariant k <= |row|
      invariant RowScan(row[..k], rank) == Ok(scan)
      invariant fileIdx == scan.1 && next == PutAll(squareMap, scan.0)
    {
      var c := row[k];
      RowScanNext(row, rank, k, scan);
      if IsDigit(c) {
        fileIdx := fileIdx + DigitValue(c);
      } else if IsAlpha(c) {
        if fileIdx >= Letters {
          RowScanStop(row, rank, k + 1);
          return Err(ValueError);
        }
        var square := SquareName(fileIdx, rank);
        PutAllSnoc(squareMap, scan.0, square, c);
        next := Put(next, square, c);
        fileIdx := fileIdx + 1;
      }
      scan := ScanChar(scan, c, rank).value;
      k := k + 1;
    }
    Whole(row, k);
    return Ok(next);
  }

  // ---------------------------------------------------------------------------
  // One record reduced to its board, its moves and its mating pattern

  /** The pyffish calls: the position after some moves, and the moves in LAN and in SAN notation. */
  datatype Library = Library(
    getFen: (Option<string>, string, seq<string>) -> string,
    lanMoves: (Option<string>, string, seq<string>) -> seq<string>,
    sanMoves: (Option<string>, string, seq<string>) -> seq<string>)

  datatype Puzzle = Puzzle(board: set<(string, char)>, sans: seq<string>, pattern: string)

  /** `[m for m in parts if m]` */
  function NonEmpty(parts: seq<string>): (r: seq<string>)
    ensures |r| <= |parts|
    ensures forall i :: 0 <= i < |r| ==> r[i] != "" && r[i] in parts
    ensures forall i :: 0 <= i < |parts| && parts[i] != "" ==> parts[i] in r
  {
    if |parts| == 0 then []
    else
      var init := NonEmpty(parts[..|parts| - 1]);
      assert forall i :: 0 <= i < |parts| - 1 ==> parts[..|parts| - 1][i] == parts[i];
      if parts[|parts| - 1] == "" then init else init + [parts[|parts| - 1]]
  }

  /** `frozenset(pieces.items())` */
  function Board(pieces: Dict<string, char>): set<(string, char)> {
    set p | p in pieces
  }

  /** `"".join([k for k, v in pieces.items() if v == king_piece])` */
  function KingSquares(pieces: Dict<string, char>, kingPiece: string): string {
    if |pieces| == 0 then ""
    else
      var last := pieces[|pieces| - 1];
      KingSquares(pieces[..|pieces| - 1], kingPiece) + (if [last.1] == kingPiece then last.0 else "")
  }

  /** With no king on the board the squares are empty; with one king they are its square. */
  lemma {:induction false} KingSquaresOfOne(pieces: Dict<string, char>, kingPiece: string, i: int)
    requires -1 <= i < |pieces|
    requires forall j :: 0 <= j < |pieces| && j != i ==> [pieces[j].1] != kingPiece
    requires i >= 0 ==> [pieces[i].1] == kingPiece
    ensures KingSquares(pieces, kingPiece) == if i < 0 then "" else pieces[i].0
  {
    if |pieces| > 0 {
      var init := pieces[..|pieces| - 1];
      if i == |pieces| - 1 {
        KingSquaresOfOne(init, kingPiece, -1);
      } else {
        KingSquaresOfOne(init, kingPiece, i);
      }
    }
  }

  /**
   * The analysis of one record in the loop of `deduplicate`. Its position is everything before
   * the first `;`, its moves the non-empty parts of its `pv`.
   *
   * From the position after the moves it takes:
   * - the pieces;
   * - the king of the side to move (`king` in upper case when White moves, else lower case).
   *
   * The pattern is the last move's piece and target square, then the king piece and its squares.
   */
  function Analyse(epd: string, king: string, lib: Library): (r: Result<Puzzle>)
    ensures r.Err? ==> r.error == IndexError || r.error == ValueError
  {
    var fen := Split(epd, ';')[0];
    match ParseAnnotations(Split(Strip(epd), ';')[1..])
    case Err(e) => Err(e)
    case Ok(annotations) =>
      var variant := Get(annotations, "variant");
      var moves := NonEmpty(Split(Get(annotations, "pv").GetOr(""), ','));
      var finalFen := lib.getFen(variant, fen, moves);
      match SquareMap(finalFen)
      case Err(e) => Err(e)
      case Ok(pieces) => Describe(pieces, Words(finalFen), king, lib.lanMoves(variant, fen, moves), lib.sanMoves(variant, fen, moves))
  }

  /** The puzzle of the final position's pieces and fields, given its moves in LAN and in SAN. */
  function Describe(pieces: Dict<string, char>, fields: seq<string>, king: string, lans: seq<string>, sans: seq<string>): (r: Result<Puzzle>)
    ensures r.Err? ==> r.error == IndexError || r.error == ValueError
  {
    if |fields| < 2 then Err(IndexError)
    else
      var kingPiece := if fields[1] == "w" then Upper(king) else Lower(king);
      if |lans| == 0 then Err(IndexError)
      else
        match ParseLan(lans[|lans| - 1])
        case Err(e) => Err(e)
        case Ok(lan) => Ok(Puzzle(Board(pieces), sans, lan.0 + "-" + lan.2 + "-" + kingPiece + "-" + KingSquares(pieces, kingPiece)))
  }

  /** The analysis of a record, building the square map with its loops. */
  method AnalysePuzzle(epd: string, king: string, lib: Library) returns (r: Result<Puzzle>)
    ensures r == Analyse(epd, king, lib)
  {
    var fen := Split(epd, ';')[0];
    var annotations := ParseAnnotations(Split(Strip(epd), ';')[1..]);
    if annotations.Err? {
      return Err(annotations.error);
    }
    var variant := Get(annotations.value, "variant");
    var moves := NonEmpty(Split(Get(annotations.value, "pv").GetOr(""), ','));
    var finalFen := lib.getFen(variant, fen, moves);
    var pieces := FenToSquareMap(finalFen);
    if pieces.Err? {
      return Err(pieces.error);
    }
    r := Describe(pieces.value, Words(finalFen), king, lib.lanMoves(variant, fen, moves), lib.sanMoves(variant, fen, moves));
  }

  // ---------------------------------------------------------------------------
  // Similarity of two puzzles

  /** What is remembered of a written record. */
  datatype Kept = Kept(board: set<(string, char)>, sans: seq<string>, epd: string)

  datatype Scores = Scores(board: real, move: real, overall: real)

  function MinLen(m: nat, n: nat): nat {
    if m <= n then m else n
  }

  /** How many of the last `n` moves of `a` and `b` agree, position by position from the end. */
  function MatchingFromBack(a: seq<string>, b: seq<string>, n: nat): (m: nat)
    requires n <= |a| && n <= |b|
    ensures m <= n
  {
    if n == 0 then 0
    else MatchingFromBack(a, b, n - 1) + (if a[|a| - n] == b[|b| - n] then 1 else 0)
  }

  /** Every one of the last `n` positions agrees exactly when the two sequences end alike. */
  lemma {:induction false} MatchingAll(a: seq<string>, b: seq<string>, n: nat)
    requires n <= |a| && n <= |b|
    ensures MatchingFromBack(a, b, n) == n <==> a[|a| - n..] == b[|b| - n..]
  {
    if n > 0 {
      MatchingAll(a, b, n - 1);
      assert a[|a| - n..] == [a[|a| - n]] + a[|a| - (n - 1)..];
      assert b[|b| - n..] == [b[|b| - n]] + b[|b| - (n - 1)..];
      if a[|a| - n..] == b[|b| - n..] {
        assert a[|a| - n] == a[|a| - n..][0];
        assert a[|a| - (n - 1)..] == a[|a| - n..][1..];
      }
    }
  }

  /** The loop counting the moves that agree from the back. */
  method CountMatching(a: seq<string>, b: seq<string>) returns (m: nat)
    ensures m == MatchingFromBack(a, b, MinLen(|a|, |b|))
  {
    var minLen := MinLen(|a|, |b|);
    m := 0;
    for i := 1 to minLen + 1
      invariant m == MatchingFromBack(a, b, i - 1)
    {
      if a[|a| - i] == b[|b| - i] {
        m := m + 1;
      }
    }
  }

  /** `2 * matching_pairs / (len(board) + len(board2))`: the Dice coefficient of two boards. */
  function Dice(board: set<(string, char)>, board2: set<(string, char)>): real
    requires |board| + |board2| > 0
  {
    (2 * |board * board2|) as real / (|board| + |board2|) as real
  }

  /** `matching_sans / min_len`: the share of the last `min_len` moves that agree. */
  function SuffixShare(sans: seq<string>, sans2: seq<string>): real
    requires MinLen(|sans|, |sans2|) > 0
  {
    MatchingFromBack(sans, sans2, MinLen(|sans|, |sans2|)) as real / MinLen(|sans|, |sans2|) as real
  }

  /**
   * The similarity of a puzzle to a kept one: the board score, the move score and their product.
   * ZeroDivisionError when both boards are empty or one move list is.
   */
  function Similarity(board: set<(string, char)>, sans: seq<string>, kept: Kept): Result<Scores> {
    if |board| + |kept.board| == 0 || MinLen(|sans|, |kept.sans|) == 0 then Err(ZeroDivisionError)
    else
      var boardScore := Dice(board, kept.board);
      var moveScore := SuffixShare(sans, kept.sans);
      Ok(Scores(boardScore, moveScore, boardScore * moveScore))
  }

  lemma {:induction false} SubsetCard<T>(x: set<T>, y: set<T>)
    requires x <= y
    ensures |x| <= |y|
    ensures |x| == |y| ==> x == y
  {
    if x != {} {
      var e :| e in x;
      SubsetCard(x - {e}, y - {e});
    } else if y != {} {
      var e :| e in y;
      assert |y| >= 1;
    }
  }

  /** A share of a whole lies between 0 and 1, and is 1 exactly when it is all of it. */
  lemma Ratio(part: nat, whole: nat)
    requires 0 < whole && part <= whole
    ensures 0.0 <= part as real / whole as real <= 1.0
    ensures part as real / whole as real == 1.0 <==> part == whole
  {
  }

  /** The board score lies between 0 and 1, and is 1 exactly when the two boards are equal. */
  lemma DiceBounds(board: set<(string, char)>, board2: set<(string, char)>)
    requires |board| + |board2| > 0
    ensures 0.0 <= Dice(board, board2) <= 1.0
    ensures Dice(board, board2) == 1.0 <==> board == board2
  {
    var common := board * board2;
    SubsetCard(common, board);
    SubsetCard(common, board2);
    Ratio(2 * |common|, |board| + |board2|);
    assert Dice(board, board2) == (2 * |common|) as real / (|board| + |board2|) as real;
    if 2 * |common| == |board| + |board2| {
      assert |common| == |board| && |common| == |board2|;
      assert common == board && common == board2;
    }
    if board == board2 {
      assert common == board;
    }
  }

  /**
   * The move score lies between 0 and 1, and is 1 exactly when the shorter move list is the end
   * of the longer one.
   */
  lemma SuffixShareBounds(sans: seq<string>, sans2: seq<string>)
    requires MinLen(|sans|, |sans2|) > 0
    ensures 0.0 <= SuffixShare(sans, sans2) <= 1.0
    ensures var n := MinLen(|sans|, |sans2|);
      SuffixShare(sans, sans2) == 1.0 <==> sans[|sans| - n..] == sans2[|sans2| - n..]
  {
    var n := MinLen(|sans|, |sans2|);
    MatchingAll(sans, sans2, n);
    Ratio(MatchingFromBack(sans, sans2, n), n);
  }

  /** The overall score, the product of the two, lies between 0 and 1 and is at most either. */
  lemma OverallScore(board: set<(string, char)>, sans: seq<string>, kept: Kept)
    requires Similarity(board, sans, kept).Ok?
    ensures var s := Similarity(board, sans, kept).value;
      0.0 <= s.overall <= s.board && s.overall <= s.move && s.overall <= 1.0
  {
    var x, y := Dice(board, kept.board), SuffixShare(sans, kept.sans);
    DiceBounds(board, kept.board);
    SuffixShareBounds(sans, kept.sans);
    ProductBounds(x, y);
    assert Similarity(board, sans, kept).value == Scores(x, y, x * y);
  }

  lemma ProductBounds(x: real, y: real)
    requires 0.0 <= x <= 1.0 && 0.0 <= y <= 1.0
    ensures 0.0 <= x * y <= x && x * y <= y
  {
  }

  /** The similarity of a puzzle to a kept record, counting the agreeing moves with a loop. */
  method Compare(puzzle: Puzzle, kept: Kept) returns (r: Result<Scores>)
    ensures r == Similarity(puzzle.board, puzzle.sans, kept)
  {
    var total := |puzzle.board| + |kept.board|;
    var minLen := MinLen(|puzzle.sans|, |kept.sans|);
    if total == 0 || minLen == 0 {
      return Err(ZeroDivisionError);
    }
    var boardScore := (2 * |puzzle.board * kept.board|) as real / total as real;
    var matching := CountMatching(puzzle.sans, kept.sans);
    var moveScore := matching as real / minLen as real;
    assert Similarity(puzzle.board, puzzle.sans, kept).value.move == moveScore;
    assert Similarity(puzzle.board, puzzle.sans, kept).value.overall == boardScore * moveScore;
    return Ok(Scores(boardScore, moveScore, boardScore * moveScore));
  }

  // ---------------------------------------------------------------------------
  // Selection

  datatype Thresholds = Thresholds(board: real, move: real, overall: real)

  predicate Above(s: Scores, t: Thresholds) {
    s.board > t.board || s.move > t.move || s.overall > t.overall
  }

  /** The `for puzzle2 in unique` loop: true at the first kept record above a threshold. */
  function AnySimilar(puzzle: Puzzle, unique: seq<Kept>, t: Thresholds): Result<bool> {
    if |unique| == 0 then Ok(false)
    else
      match Similarity(puzzle.board, puzzle.sans, unique[0])
      case Err(e) => Err(e)
      case Ok(s) => if Above(s, t) then Ok(true) else AnySimilar(puzzle, unique[1..], t)
  }

  /**
   * A puzzle is not similar exactly when every kept record scores below all thresholds; when it
   * is similar, some kept record scores above one.
   */
  lemma {:induction false} AnySimilarSpec(puzzle: Puzzle, unique: seq<Kept>, t: Thresholds)
    ensures AnySimilar(puzzle, unique, t) == Ok(false) <==> forall i :: 0 <= i < |unique| ==>
      Similarity(puzzle.board, puzzle.sans, unique[i]).Ok? && !Above(Similarity(puzzle.board, puzzle.sans, unique[i]).value, t)
    ensures AnySimilar(puzzle, unique, t) == Ok(true) ==> exists i :: 0 <= i < |unique| &&
                                                             Similarity(puzzle.board, puzzle.sans, unique[i]).Ok? &&
                                                             Above(Similarity(puzzle.board, puzzle.sans, unique[i]).value, t)
  {
    if |unique| > 0 {
      AnySimilarSpec(puzzle, unique[1..], t);
      assert forall i :: 1 <= i < |unique| ==> unique[i] == unique[1..][i - 1];
      if AnySimilar(puzzle, unique, t) == Ok(true) && AnySimilar(puzzle, unique[1..], t) == Ok(true) {
        var i :| 0 <= i < |unique[1..]| && Similarity(puzzle.board, puzzle.sans, unique[1..][i]).Ok?
          && Above(Similarity(puzzle.board, puzzle.sans, unique[1..][i]).value, t);
        assert unique[1..][i] == unique[i + 1];
      }
    }
  }

  /** The similarity loop over the kept records, stopping at the first similar one. */
  method FindSimilar(puzzle: Puzzle, unique: seq<Kept>, t: Thresholds) returns (r: Result<bool>)
    ensures r == AnySimilar(puzzle, unique, t)
  {
    var i := 0;
    while i < |unique|
      invariant i <= |unique|
      invariant AnySimilar(puzzle, unique[i..], t) == AnySimilar(puzzle, unique, t)
    {
      assert unique[i..][1..] == unique[i + 1..];
      var scores := Compare(puzzle, unique[i]);
      if scores.Err? {
        return Err(scores.error);
      }
      if Above(scores.value, t) {
        return Ok(true);
      }
      i := i + 1;
    }
    return Ok(false);
  }

  /** What the loop of `deduplicate` has built: the kept records, the patterns seen, the output. */
  datatype State = State(unique: seq<Kept>, patterns: map<string, seq<string>>, written: seq<string>)

  /**
   * A record that is not similar to a kept one: its pattern gets it appended, and when the
   * pattern was new the record is also written and kept.
   */
  function Record(s: State, epd: string, p: Puzzle): State {
    if p.pattern in s.patterns then
      State(s.unique, s.patterns[p.pattern := s.patterns[p.pattern] + [epd]], s.written)
    else
      State(s.unique + [Kept(p.board, p.sans, epd)], s.patterns[p.pattern := [epd]], s.written + [epd])
  }

  /** One record processed: analysed, compared with the kept records, and recorded unless similar. */
  function Step(s: State, epd: string, king: string, lib: Library, t: Thresholds): Result<State> {
    match Analyse(epd, king, lib)
    case Err(e) => Err(e)
    case Ok(p) =>
      match AnySimilar(p, s.unique, t)
      case Err(e) => Err(e)
      case Ok(similar) => if similar then Ok(s) else Ok(Record(s, epd, p))
  }

  /** The records processed in order from an empty state; the exception that stopped the loop, if any. */
  function Run(epds: seq<string>, king: string, lib: Library, t: Thresholds): (State, Option<Exception>) {
    if |epds| == 0 then (State([], map[], []), None)
    else
      var (s, failure) := Run(epds[..|epds| - 1], king, lib, t);
      if failure.Some? then (s, failure)
      else
        match Step(s, epds[|epds| - 1], king, lib, t)
        case Err(e) => (s, Some(e))
        case Ok(s') => (s', None)
  }

  /**
   * A record is written exactly when it is not similar to a kept one and its pattern is unseen;
   * every record that is not similar gets its pattern recorded, written or not.
   */
  lemma StepWrites(s: State, epd: string, king: string, lib: Library, t: Thresholds)
    requires Step(s, epd, king, lib, t).Ok?
    ensures var p := Analyse(epd, king, lib).value;
      var notSimilar := AnySimilar(p, s.unique, t) == Ok(false);
      var s' := Step(s, epd, king, lib, t).value;
      && (s'.written == s.written + [epd] <==> notSimilar && p.pattern !in s.patterns)
      && (s'.written != s.written + [epd] ==> s'.written == s.written && s'.unique == s.unique)
      && (notSimilar ==> p.pattern in s'.patterns && s'.patterns[p.pattern][|s'.patterns[p.pattern]| - 1] == epd)
      && (!notSimilar ==> s' == s)
  {
    var s' := Step(s, epd, king, lib, t).value;
    assert |s.written + [epd]| != |s.written|;
  }

  /** The written records are exactly the kept ones, one per pattern seen. */
  predicate Consistent(s: State) {
    && |s.unique| == |s.written| == |s.patterns|
    && forall i :: 0 <= i < |s.unique| ==> s.unique[i].epd == s.written[i]
  }

  /** Recording a record keeps the state consistent, and writes nothing or the record itself. */
  lemma RecordConsistent(s: State, epd: string, p: Puzzle)
    requires Consistent(s)
    ensures Consistent(Record(s, epd, p))
    ensures Record(s, epd, p).written in {s.written, s.written + [epd]}
  {
    var out := Record(s, epd, p);
    if p.pattern in s.patterns {
      assert out.patterns.Keys == s.patterns.Keys;
    } else {
      assert out.patterns.Keys == s.patterns.Keys + {p.pattern};
    }
  }

  /**
   * After any number of records the kept list is the output, with one record per pattern, and the
   * output is the input with some records left out, in input order.
   */
  lemma {:induction false} RunSpec(epds: seq<string>, king: string, lib: Library, t: Thresholds)
    ensures Consistent(Run(epds, king, lib, t).0)
    ensures IsSubsequence(Run(epds, king, lib, t).0.written, epds)
  {
    if |epds| > 0 {
      var init := epds[..|epds| - 1];
      var epd := epds[|epds| - 1];
      RunSpec(init, king, lib, t);
      var (s, failure) := Run(init, king, lib, t);
      var out := Run(epds, king, lib, t).0;
      if failure.None? && Step(s, epd, king, lib, t).Ok? && out != s {
        var p := Analyse(epd, king, lib).value;
        assert out == Record(s, epd, p);
        RecordConsistent(s, epd, p);
        if out.written == s.written + [epd] {
          assert out.written[..|out.written| - 1] == s.written;
        }
      }
    }
  }

  /** A failure stops the loop: processing more records changes nothing. */
  lemma {:induction false} RunStop(epds: seq<string>, n: nat, king: string, lib: Library, t: Thresholds)
    requires n <= |epds| && Run(epds[..n], king, lib, t).1.Some?
    ensures Run(epds, king, lib, t) == Run(epds[..n], king, lib, t)
  {
    if n < |epds| {
      assert epds[..|epds| - 1][..n] == epds[..n];
      RunStop(epds[..|epds| - 1], n, king, lib, t);
    } else {
      assert epds[..n] == epds;
    }
  }

  /** Processing one more record, when none has failed so far. */
  lemma RunNext(epds: seq<string>, i: nat, king: string, lib: Library, t: Thresholds)
    requires i < |epds| && Run(epds[..i], king, lib, t).1.None?
    ensures Run(epds[..i + 1], king, lib, t) ==
      match Step(Run(epds[..i], king, lib, t).0, epds[i], king, lib, t)
      case Err(e) => (Run(epds[..i], king, lib, t).0, Some(e))
      case Ok(s') => (s', None)
  {
    assert epds[..i + 1][..i] == epds[..i];
  }

  /**
   * The loop of `deduplicate` over the (sorted) records: the output written before the first
   * exception, and that exception.
   */
  method SelectUnique(epds: seq<string>, king: string, lib: Library, t: Thresholds)
    returns (written: seq<string>, failure: Option<Exception>)
    ensures failure == Run(epds, king, lib, t).1
    ensures written == Run(epds, king, lib, t).0.written
  {
    var patterns: map<string, seq<string>> := map[];
    var unique: seq<Kept> := [];
    written, failure := [], None;
    var i := 0;
    while i < |epds|
      invariant i <= |epds|
      invariant Run(epds[..i], king, lib, t) == (State(unique, patterns, written), None)
    {
      var epd := epds[i];
      ghost var before := State(unique, patterns, written);
      RunNext(epds, i, king, lib, t);
      var puzzle := AnalysePuzzle(epd, king, lib);
      if puzzle.Err? {
        assert Step(before, epd, king, lib, t) == Err(puzzle.error);
        RunStop(epds, i + 1, king, lib, t);
        return written, Some(puzzle.error);
      }
      var similar := FindSimilar(puzzle.value, unique, t);
      if similar.Err? {
        assert Step(before, epd, king, lib, t) == Err(similar.error);
        RunStop(epds, i + 1, king, lib, t);
        return written, Some(similar.error);
      }
      if !similar.value {
        var pattern := puzzle.value.pattern;
        if pattern in patterns {
          patterns := patterns[pattern := patterns[pattern] + [epd]];
        } else {
          written := written + [epd];
          unique := unique + [Kept(puzzle.value.board, puzzle.value.sans, epd)];
          patterns := patterns[pattern := [epd]];
        }
        assert State(unique, patterns, written) == Record(before, epd, puzzle.value);
      }
      assert Step(before, epd, king, lib, t) == Ok(State(unique, patterns, written));
      i := i + 1;
    }
    assert epds[..i] == epds;
  }

  /**
   * `deduplicate(...)`: the records, sorted first when sort criteria are given, through the
   * selection loop; what is written, and the exception that stopped the run, if any.
   */
  function Deduplication(epds: seq<string>, criteria: seq<(string, string)>, parseFloat: string -> Option<real>,
                         king: string, lib: Library, t: Thresholds): (seq<string>, Option<Exception>)
  {
    if |criteria| == 0 then (Run(epds, king, lib, t).0.written, Run(epds, king, lib, t).1)
    else
      match SortRecords(criteria, epds, parseFloat)
      case Err(e) => ([], Some(e))
      case Ok(sorted) => (Run(sorted, king, lib, t).0.written, Run(sorted, king, lib, t).1)
  }

  /**
   * Only input records are written, each at most as often as it occurs; without sort criteria they
   * keep their input order.
   */
  lemma DeduplicationWrites(epds: seq<string>, criteria: seq<(string, string)>, parseFloat: string -> Option<real>,
                            king: string, lib: Library, t: Thresholds)
    ensures multiset(Deduplication(epds, criteria, parseFloat, king, lib, t).0) <= multiset(epds)
    ensures |criteria| == 0 ==> IsSubsequence(Deduplication(epds, criteria, parseFloat, king, lib, t).0, epds)
  {
    if |criteria| == 0 {
      RunSpec(epds, king, lib, t);
      SubsequenceMultiset(Run(epds, king, lib, t).0.written, epds);
    } else if SortRecords(criteria, epds, parseFloat).Ok? {
      var sorted := SortRecords(criteria, epds, parseFloat).value;
      SortRecordsSpec(criteria, epds, parseFloat);
      RunSpec(sorted, king, lib, t);
      SubsequenceMultiset(Run(sorted, king, lib, t).0.written, sorted);
    }
  }

  /** `deduplicate`: sort the records in place when asked, then run the selection loop. */
  method Deduplicate(epds: seq<string>, criteria: seq<(string, string)>, parseFloat: string -> Option<real>,
                     king: string, lib: Library, t: Thresholds)
    returns (written: seq<string>, failure: Option<Exception>)
    ensures (written, failure) == Deduplication(epds, criteria, parseFloat, king, lib, t)
  {
    var records := epds;
    if |criteria| > 0 {
      var sorted := SortRecords(criteria, epds, parseFloat);
      if sorted.Err? {
        return [], Some(sorted.error);
      }
      records := sorted.value;
    }
    written, failure := SelectUnique(records, king, lib, t);
  }
}
