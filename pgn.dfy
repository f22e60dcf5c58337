/**
 * Puzzles as PGN games: for each EPD line, a header with the puzzle type, the variant and the
 * start position, then the principal variation in SAN with move numbers, ended by `*`.
 *
 * pyffish's `get_san_moves` and `get_fen` are the fields of the parameter `engine`.
 */
module Pgn {
  import opened Wrappers
  import opened Strings
  import opened Dicts
  import opened Epd

  /** pyffish: the SAN of moves played from a position, and the FEN after some of them. */
  datatype Engine = Engine(
    sanMoves: (string, string, seq<string>) -> seq<string>,
    getFen: (string, string, seq<string>) -> string)

  /** `annotations.get('type')` as `format` writes it: Python's None prints as `None`. */
  function EventOf(annotations: Annotations): string {
    match Get(annotations, "type")
    case Some(t) => t
    case None => "None"
  }

  /** The lines of `PGN_HEADER` filled in with the event, the variant and the FEN. */
  function HeaderLines(event: string, variant: string, fen: string): seq<string> {
    ["", "[Event \"" + event + "\"]", "[Result \"*\"]", "[Variant \"" + Capitalize(variant) + "\"]",
     "[FEN \"" + fen + "\"]", "[SetUp \"1\"]", ""]
  }

  /** `PGN_HEADER` filled in: its lines joined by line breaks, with a line break before and after. */
  function Header(event: string, variant: string, fen: string): string {
    Join(HeaderLines(event, variant, fen), "\n")
  }

  /**
   * Read line by line, the header holds the tags Event (the puzzle type), Result `*`, Variant
   * (the variant capitalised), FEN (the position as given) and SetUp `1`, between blank lines.
   */
  lemma HeaderTags(event: string, variant: string, fen: string)
    requires '\n' !in event && '\n' !in Capitalize(variant) && '\n' !in fen
    ensures Split(Header(event, variant, fen), '\n') == HeaderLines(event, variant, fen)
  {
    JoinThenSplit(HeaderLines(event, variant, fen), '\n');
  }

  /**
   * The move number written before ply `i` of the variation, from the position before it: `N. `
   * with white to move, `N... ` for a first ply with black to move, nothing otherwise; `N` is
   * the FEN's last field. A FEN with a single field has no side to move: IndexError.
   */
  function MoveNumber(curFen: string, i: nat): (r: Result<string>)
    ensures r.Err? <==> |Split(curFen, ' ')| < 2
    ensures r.Err? ==> r.error == IndexError
  {
    var fields := Split(curFen, ' ');
    var fullmove := fields[|fields| - 1];
    if |fields| < 2 then Err(IndexError)
    else if fields[1] == "w" then Ok(fullmove + ". ")
    else if i == 0 then Ok(fullmove + "... ")
    else Ok("")
  }

  /** The FEN before each of `n` plies: `get_fen(variant, fen, moves[:i])`. */
  function CurrentFens(variant: string, fen: string, moves: seq<string>, n: nat, engine: Engine): (fens: seq<string>)
    ensures |fens| == n
  {
    seq(n, i requires 0 <= i < n => engine.getFen(variant, fen, moves[..if i < |moves| then i else |moves|]))
  }

  /** The move number of each ply, from the FEN before it. */
  function MoveNumbers(curFens: seq<string>): (numbers: seq<Result<string>>)
    ensures |numbers| == |curFens|
  {
    seq(|curFens|, i requires 0 <= i < |curFens| => MoveNumber(curFens[i], i))
  }

  /** One ply as written: `'{}{} '.format(movenum, san_move)`. */
  function Ply(number: string, san: string): string {
    number + san + " "
  }

  /**
   * The movetext written for the SAN moves, each after its move number and followed by a
   * space; an exception stops the writing after the plies before it.
   */
  function Movetext(sans: seq<string>, numbers: seq<Result<string>>): (string, Option<Exception>)
    requires |numbers| == |sans|
  {
    if |sans| == 0 then ("", None)
    else
      var (text, failure) := Movetext(sans[..|sans| - 1], numbers[..|sans| - 1]);
      if failure.Some? then (text, failure)
      else
        match numbers[|sans| - 1]
        case Err(e) => (text, Some(e))
        case Ok(number) => (text + Ply(number, sans[|sans| - 1]), None)
  }

  /** What `epd_to_pgn` writes for one EPD line, and the exception that stopped it, if any. */
  function Game(line: string, variant: string, engine: Engine): (string, Option<Exception>) {
    var tokens := Split(Strip(line), ';');
    match ParseAnnotations(tokens[1..])
    case Err(e) => ("", Some(e))
    case Ok(annotations) =>
      var fen := tokens[0];
      var moves := Split(Get(annotations, "pv").GetOr(""), ',');
      var sans := engine.sanMoves(variant, fen, moves);
      var (text, failure) := Movetext(sans, MoveNumbers(CurrentFens(variant, fen, moves, |sans|, engine)));
      var header := Header(EventOf(annotations), variant, fen);
      if failure.Some? then (header + text, failure) else (header + text + "*\n", None)
  }

  /** What `epd_to_pgn` writes for the lines, and the exception that stopped it, if any. */
  function Pgn(lines: seq<string>, variant: string, engine: Engine): (string, Option<Exception>) {
    if |lines| == 0 then ("", None)
    else
      var (out, failure) := Pgn(lines[..|lines| - 1], variant, engine);
      if failure.Some? then (out, failure)
      else
        var (text, f) := Game(lines[|lines| - 1], variant, engine);
        (out + text, f)
  }

  /** The words of a move number: `N.`, `N...` or none. */
  lemma MoveNumberWords(curFen: string, i: nat)
    requires MoveNumber(curFen, i).Ok?
    requires NoSpace(Split(curFen, ' ')[|Split(curFen, ' ')| - 1])
    ensures var fields := Split(curFen, ' ');
      var fullmove := fields[|fields| - 1];
      && (fields[1] == "w" ==> Words(MoveNumber(curFen, i).value) == [fullmove + "."])
      && (fields[1] != "w" && i == 0 ==> Words(MoveNumber(curFen, i).value) == [fullmove + "..."])
      && (fields[1] != "w" && i > 0 ==> Words(MoveNumber(curFen, i).value) == [])
  {
    var fields := Split(curFen, ' ');
    var fullmove := fields[|fields| - 1];
    if fields[1] == "w" {
      assert fullmove + ". " == (fullmove + ".") + " " + "";
      WordsCons(fullmove + ".", "");
    } else if i == 0 {
      assert fullmove + "... " == (fullmove + "...") + " " + "";
      WordsCons(fullmove + "...", "");
    }
  }

  /** A word ending in `.` is a move number, not a move. */
  predicate IsNumber(word: string) {
    |word| > 0 && word[|word| - 1] == '.'
  }

  /** The moves of a PGN movetext: its words without the move numbers. */
  function MovesOf(words: seq<string>): seq<string> {
    if |words| == 0 then []
    else MovesOf(words[..|words| - 1]) + (if IsNumber(words[|words| - 1]) then [] else [words[|words| - 1]])
  }

  lemma {:induction false} MovesOfAppend(a: seq<string>, b: seq<string>)
    ensures MovesOf(a + b) == MovesOf(a) + MovesOf(b)
  {
    if |b| > 0 {
      assert (a + b)[..|a + b| - 1] == a + b[..|b| - 1];
      MovesOfAppend(a, b[..|b| - 1]);
    } else {
      assert a + b == a;
    }
  }

  /** Each move's FEN has a move-number field without whitespace. */
  predicate PlainNumbers(curFens: seq<string>) {
    forall i :: 0 <= i < |curFens| ==> NoSpace(Split(curFens[i], ' ')[|Split(curFens[i], ' ')| - 1])
  }

  /** Text that reads back as no moves and ends where a move can follow. */
  predicate NumberText(number: string) {
    (|number| == 0 || number[|number| - 1] == ' ') && MovesOf(Words(number)) == []
  }

  lemma MoveNumberText(curFen: string, i: nat)
    requires MoveNumber(curFen, i).Ok?
    requires NoSpace(Split(curFen, ' ')[|Split(curFen, ' ')| - 1])
    ensures NumberText(MoveNumber(curFen, i).value)
  {
    var ws := Words(MoveNumber(curFen, i).value);
    MoveNumberWords(curFen, i);
    if |ws| == 1 {
      assert MovesOf(ws) == MovesOf([]) + [];
    }
  }

  /** One ply read back: its move number drops out and its move remains. */
  lemma PlyReadBack(number: string, san: string)
    requires NumberText(number)
    requires IsWord(san) && !IsNumber(san)
    ensures MovesOf(Words(Ply(number, san))) == [san]
  {
    WordsAfterSpace(number, san + " ");
    assert number + san + " " == number + (san + " ");
    assert san + " " == san + " " + "";
    WordsCons(san, "");
    MovesOfAppend(Words(number), [san]);
    assert MovesOf([san]) == MovesOf([]) + [san];
  }

  /** One more ply of a movetext that has not raised. */
  lemma MovetextNext(sans: seq<string>, numbers: seq<Result<string>>, n: nat)
    requires |numbers| == |sans| && n < |sans|
    requires Movetext(sans[..n], numbers[..n]).1.None?
    ensures var prev := Movetext(sans[..n], numbers[..n]).0;
      Movetext(sans[..n + 1], numbers[..n + 1]) ==
        match numbers[n]
        case Err(e) => (prev, Some(e))
        case Ok(number) => (prev + Ply(number, sans[n]), None)
  {
    assert sans[..n + 1][..n] == sans[..n] && numbers[..n + 1][..n] == numbers[..n];
  }

  /** Read-back distributes over a movetext followed by one more ply. */
  lemma ReadBackAppend(text: string, ply: string)
    requires |text| == 0 || text[|text| - 1] == ' '
    ensures MovesOf(Words(text + ply)) == MovesOf(Words(text)) + MovesOf(Words(ply))
  {
    WordsAfterSpace(text, ply);
    MovesOfAppend(Words(text), Words(ply));
  }

  /** One more ply keeps the read-back: the moves read so far, then its move. */
  lemma ReadBackStep(prev: string, done: seq<string>, number: string, san: string)
    requires MovesOf(Words(prev)) == done
    requires |prev| == 0 || prev[|prev| - 1] == ' '
    requires NumberText(number) && IsWord(san) && !IsNumber(san)
    ensures MovesOf(Words(prev + Ply(number, san))) == done + [san]
    ensures (prev + Ply(number, san))[|prev + Ply(number, san)| - 1] == ' '
  {
    ReadBackAppend(prev, Ply(number, san));
    PlyReadBack(number, san);
  }

  /** The movetext reads back as its moves when every move number is number text. */
  lemma {:induction false} MovetextReadBack(sans: seq<string>, numbers: seq<Result<string>>)
    requires |numbers| == |sans| && Movetext(sans, numbers).1.None?
    requires forall i :: 0 <= i < |sans| ==> IsWord(sans[i]) && !IsNumber(sans[i])
    requires forall i :: 0 <= i < |numbers| && numbers[i].Ok? ==> NumberText(numbers[i].value)
    ensures MovesOf(Words(Movetext(sans, numbers).0)) == sans
    ensures |sans| > 0 ==> Movetext(sans, numbers).0[|Movetext(sans, numbers).0| - 1] == ' '
  {
    if |sans| > 0 {
      var n := |sans| - 1;
      assert sans[..n + 1] == sans && numbers[..n + 1] == numbers;
      assert forall i :: 0 <= i < n ==> sans[..n][i] == sans[i] && numbers[..n][i] == numbers[i];
      MovetextReadBack(sans[..n], numbers[..n]);
      MovetextNext(sans, numbers, n);
      ReadBackStep(Movetext(sans[..n], numbers[..n]).0, sans[..n], numbers[n].value, sans[n]);
      ButLast(sans);
    }
  }

  /**
   * Read back as PGN, the movetext gives the SAN moves again, in order: dropping the move
   * numbers leaves exactly the moves, when each is a word not ending in `.`.
   */
  lemma MovesReadBack(sans: seq<string>, curFens: seq<string>)
    requires |curFens| == |sans| && Movetext(sans, MoveNumbers(curFens)).1.None?
    requires forall i :: 0 <= i < |sans| ==> IsWord(sans[i]) && !IsNumber(sans[i])
    requires PlainNumbers(curFens)
    ensures MovesOf(Words(Movetext(sans, MoveNumbers(curFens)).0)) == sans
  {
    NumbersText(curFens);
    MovetextReadBack(sans, MoveNumbers(curFens));
  }

  lemma NumbersText(curFens: seq<string>)
    requires PlainNumbers(curFens)
    ensures forall i :: 0 <= i < |curFens| && MoveNumbers(curFens)[i].Ok? ==> NumberText(MoveNumbers(curFens)[i].value)
  {
    var numbers := MoveNumbers(curFens);
    forall i | 0 <= i < |numbers| && numbers[i].Ok?
      ensures NumberText(numbers[i].value)
    {
      assert numbers[i] == MoveNumber(curFens[i], i);
      MoveNumberText(curFens[i], i);
    }
  }

  /**
   * The pattern of the test puzzle (`31... Nef2+ 32. Qxf2 Nxf2+`): black moves first at move
   * N and is numbered `N...`, white then moves at move M and is numbered `M.`, and black's
   * reply carries no number.
   */
  lemma BlackFirstThenWhite(a: string, b: string, c: string, f0: string, f1: string, f2: string)
    requires |Split(f0, ' ')| >= 2 && Split(f0, ' ')[1] == "b"
    requires |Split(f1, ' ')| >= 2 && Split(f1, ' ')[1] == "w"
    requires |Split(f2, ' ')| >= 2 && Split(f2, ' ')[1] == "b"
    ensures var n := Split(f0, ' ')[|Split(f0, ' ')| - 1];
      var m := Split(f1, ' ')[|Split(f1, ' ')| - 1];
      Movetext([a, b, c], MoveNumbers([f0, f1, f2])) == ("" + Ply(n + "... ", a) + Ply(m + ". ", b) + Ply("", c), None)
  {
    var sans, numbers := [a, b, c], MoveNumbers([f0, f1, f2]);
    assert "b" != "w";
    assert numbers[0] == MoveNumber(f0, 0) && numbers[1] == MoveNumber(f1, 1) && numbers[2] == MoveNumber(f2, 2);
    assert sans[..0] == [] && numbers[..0] == [];
    MovetextNext(sans, numbers, 0);
    MovetextNext(sans, numbers, 1);
    MovetextNext(sans, numbers, 2);
    assert sans[..3] == sans && numbers[..3] == numbers;
  }

  /** `epd_to_pgn` for one line: the header, then the movetext, then `*`. */
  method WriteGame(line: string, variant: string, engine: Engine) returns (text: string, failure: Option<Exception>)
    ensures (text, failure) == Game(line, variant, engine)
  {
    var tokens := Split(Strip(line), ';');
    var fen := tokens[0];
    var parsed := ParseAnnotations(tokens[1..]);
    if parsed.Err? {
      return "", Some(parsed.error);
    }
    var annotations := parsed.value;
    var header := Header(EventOf(annotations), variant, fen);
    var moves := Split(Get(annotations, "pv").GetOr(""), ',');
    var sans := engine.sanMoves(variant, fen, moves);
    var movetext;
    movetext, failure := WriteMovetext(variant, fen, moves, sans, engine);
    text := header + movetext;
    if failure.None? {
      text := text + "*\n";
    }
  }

  /** The loop of `epd_to_pgn` over the SAN moves: each ply's move number, its move and a space. */
  method WriteMovetext(variant: string, fen: string, moves: seq<string>, sans: seq<string>, engine: Engine)
    returns (text: string, failure: Option<Exception>)
    ensures (text, failure) == Movetext(sans, MoveNumbers(CurrentFens(variant, fen, moves, |sans|, engine)))
  {
    ghost var fens := CurrentFens(variant, fen, moves, |sans|, engine);
    ghost var numbers := MoveNumbers(fens);
    text, failure := "", None;
    var i := 0;
    while i < |sans|
      invariant i <= |sans|
      invariant Movetext(sans[..i], numbers[..i]) == (text, None)
    {
      var curFen := engine.getFen(variant, fen, moves[..if i < |moves| then i else |moves|]);
      var number := MoveNumber(curFen, i);
      NumberAt(variant, fen, moves, sans, engine, i);
      MovetextNext(sans, numbers, i);
      if number.Err? {
        MovetextStop(sans, numbers, i + 1);
        return text, Some(number.error);
      }
      text := text + Ply(number.value, sans[i]);
      i := i + 1;
    }
    assert sans[..i] == sans && numbers[..i] == numbers;
  }

  lemma NumberAt(variant: string, fen: string, moves: seq<string>, sans: seq<string>, engine: Engine, i: nat)
    requires i < |sans|
    ensures MoveNumbers(CurrentFens(variant, fen, moves, |sans|, engine))[i]
      == MoveNumber(engine.getFen(variant, fen, moves[..if i < |moves| then i else |moves|]), i)
  {
  }

  /** An exception ends the movetext: later plies are not written. */
  lemma {:induction false} MovetextStop(sans: seq<string>, numbers: seq<Result<string>>, n: nat)
    requires |numbers| == |sans| && n <= |sans|
    requires Movetext(sans[..n], numbers[..n]).1.Some?
    ensures Movetext(sans, numbers) == Movetext(sans[..n], numbers[..n])
  {
    if n < |sans| {
      var m := |sans| - 1;
      assert sans[..m][..n] == sans[..n] && numbers[..m][..n] == numbers[..n];
      MovetextStop(sans[..m], numbers[..m], n);
    } else {
      assert sans[..n] == sans && numbers[..n] == numbers;
    }
  }

  /** `epd_to_pgn`: every line in turn, until one raises. */
  method EpdToPgn(lines: seq<string>, variant: string, engine: Engine) returns (out: string, failure: Option<Exception>)
    ensures (out, failure) == Pgn(lines, variant, engine)
  {
    out, failure := "", None;
    var i := 0;
    while i < |lines|
      invariant i <= |lines|
      invariant Pgn(lines[..i], variant, engine) == (out, None)
    {
      assert lines[..i + 1][..i] == lines[..i];
      var text, f := WriteGame(lines[i], variant, engine);
      out := out + text;
      if f.Some? {
        PgnStop(lines, i + 1, variant, engine);
        return out, f;
      }
      i := i + 1;
    }
    assert lines[..i] == lines;
  }

  /** An exception ends `epd_to_pgn`: later lines are not read. */
  lemma {:induction false} PgnStop(lines: seq<string>, n: nat, variant: string, engine: Engine)
    requires n <= |lines| && Pgn(lines[..n], variant, engine).1.Some?
    ensures Pgn(lines, variant, engine) == Pgn(lines[..n], variant, engine)
  {
    if n < |lines| {
      assert lines[..|lines| - 1][..n] == lines[..n];
      PgnStop(lines[..|lines| - 1], n, variant, engine);
    } else {
      assert lines[..n] == lines;
    }
  }
}
