/**
 * Export of shogi-variant puzzles to KIF (kif.py): Fairy-Stockfish's coordinate moves are
 * rewritten as USI moves on an N×N board, each puzzle line is parsed and filtered, its moves
 * are converted and replayed on a python-shogi board, and the puzzles that keep at least one
 * move are written out. The two libraries are parameters: Fairy-Stockfish's `start_fen`,
 * `variants` and `get_fen`, python-shogi's SFEN parser, `push_usi` and KIF exporter.
 */
module Kif {
  import opened Wrappers
  import opened Strings
  import opened Dicts

  // ---------------------------------------------------------------------------
  // Board size and square conversion

  /** The size assumed when the variant has no start position (kif.py:18-19). */
  const DefaultSize: nat := 9

  /**
   * `get_board_dimensions`: the number of `/`-separated ranks in the board part of the
   * variant's start FEN, for both axes. `startFen` is None where `start_fen` raises.
   */
  function BoardSize(startFen: Option<string>): (n: nat)
    ensures n >= 1
  {
    match startFen
    case None => DefaultSize
    case Some(fen) =>
      var words := Words(fen);
      if |words| == 0 then DefaultSize else |Split(words[0], '/')|
  }

  /** A start FEN's board has one more rank than its board part has `/` separators. */
  lemma BoardSizeRanks(fen: string)
    requires |Words(fen)| > 0
    ensures BoardSize(Some(fen)) == multiset(Words(fen)[0])['/'] + 1
  {
    SplitCount(Words(fen)[0], '/');
  }

  /** The pairs of `file_map`: file letter i is USI file n - i. */
  function FilePairs(n: nat): seq<(char, string)>
    requires n <= Letters
  {
    seq(n, i requires 0 <= i < n => (Letter(i), NatToString(n - i)))
  }

  /** The pairs of `rank_map`: rank number i + 1 is USI rank letter n - 1 - i. */
  function RankPairs(n: nat): seq<(string, char)>
    requires n <= Letters
  {
    seq(n, i requires 0 <= i < n => (NatToString(i + 1), Letter(n - 1 - i)))
  }

  /** The file letters of an n-file board are `a` up to the n-th letter. */
  predicate IsFile(c: char, n: nat) {
    'a' <= c && c as int - 'a' as int < n
  }

  /** The ranks a one-character square can name are the digits 1 to 9 that fit on the board. */
  predicate IsRank(c: char, n: nat) {
    '1' <= c <= '9' && DigitValue(c) <= n
  }

  /** The letter a file denotes counted from `a`. */
  function FileIndex(c: char): nat
    requires 'a' <= c
  {
    c as int - 'a' as int
  }

  /**
   * `pyffish_to_usi_square`: None unless the square has two characters and both are on the
   * board; ValueError where building the letter lists would need a character Dafny lacks.
   */
  function UsiSquare(square: string, startFen: Option<string>): Result<Option<string>> {
    if |square| != 2 then Ok(None) else SquareOn(square, BoardSize(startFen))
  }

  /** The lookups of a two-character square in `file_map` and `rank_map` of an n×n board. */
  function SquareOn(square: string, n: nat): Result<Option<string>>
    requires |square| == 2
  {
    if n > Letters then Err(ValueError)
    else
      var file := Get(FromPairs(FilePairs(n)), square[0]);
      var rank := Get(FromPairs(RankPairs(n)), square[1..]);
      // Both looked-up values are non-empty strings, so `usi_file and usi_rank` is their presence.
      if file.Some? && rank.Some? then Ok(Some(file.value + [rank.value])) else Ok(None)
  }

  /** `file_map.get(c)`: the USI file of a file letter on the board, nothing for any other character. */
  lemma FileLookup(n: nat, c: char)
    requires n <= Letters
    ensures Get(FromPairs(FilePairs(n)), c) == if IsFile(c, n) then Some(NatToString(n - FileIndex(c))) else None
  {
    var pairs := FilePairs(n);
    if IsFile(c, n) {
      var i := FileIndex(c);
      assert pairs[i].0 == c;
      forall j | i < j < |pairs| ensures pairs[j].0 != pairs[i].0 {
        assert pairs[j].0 as int == 'a' as int + j;
      }
      LastValueAt(pairs, i);
      FromPairsSpec(pairs);
    } else {
      forall j | 0 <= j < |pairs| ensures pairs[j].0 != c {
        assert pairs[j].0 as int == 'a' as int + j;
      }
      LastValueAbsent(pairs, c);
      FromPairsSpec(pairs);
    }
  }

  /** `rank_map.get(r)`: the USI rank letter of a rank digit on the board, nothing for any other character. */
  lemma RankLookup(n: nat, rank: string)
    requires n <= Letters && |rank| == 1
    ensures Get(FromPairs(RankPairs(n)), rank) == if IsRank(rank[0], n) then Some(Letter(n - DigitValue(rank[0]))) else None
  {
    if IsRank(rank[0], n) {
      RankFound(n, rank);
    } else {
      RankMissing(n, rank);
    }
  }

  lemma RankFound(n: nat, rank: string)
    requires n <= Letters && |rank| == 1 && IsRank(rank[0], n)
    ensures Get(FromPairs(RankPairs(n)), rank) == Some(Letter(n - DigitValue(rank[0])))
  {
    var pairs := RankPairs(n);
    var i := DigitValue(rank[0]) - 1;
    RankPairAt(n, rank);
    RankKeysDistinct(n, i);
    LastValueAt(pairs, i);
    FromPairsSpec(pairs);
  }

  /** The pair of `rank_map` for a rank on the board. */
  lemma RankPairAt(n: nat, rank: string)
    requires n <= Letters && |rank| == 1 && IsRank(rank[0], n)
    ensures var i := DigitValue(rank[0]) - 1;
      0 <= i < n && i + 1 < 10 && RankPairs(n)[i] == (rank, Letter(n - DigitValue(rank[0])))
  {
    var r := rank[0];
    var i := DigitValue(r) - 1;
    NatToStringShort(i + 1);
    assert rank == [r];
    assert DigitChar(i + 1) == r;
  }

  /** No later rank number is written like a one-digit rank number. */
  lemma RankKeysDistinct(n: nat, i: nat)
    requires n <= Letters && i < n && i + 1 < 10
    ensures forall j :: i < j < n ==> RankPairs(n)[j].0 != RankPairs(n)[i].0
  {
    var pairs := RankPairs(n);
    NatToStringShort(i + 1);
    forall j | i < j < n ensures pairs[j].0 != pairs[i].0 {
      NatToStringShort(j + 1);
    }
  }

  lemma RankMissing(n: nat, rank: string)
    requires n <= Letters && |rank| == 1 && !IsRank(rank[0], n)
    ensures Get(FromPairs(RankPairs(n)), rank) == None
  {
    var pairs := RankPairs(n);
    var r := rank[0];
    assert rank == [r];
    forall j | 0 <= j < |pairs| ensures pairs[j].0 != rank {
      NatToStringShort(j + 1);
    }
    LastValueAbsent(pairs, rank);
    FromPairsSpec(pairs);
  }

  /** The file and rank a two-character square names on an n×n board, as USI: file number, then rank letter. */
  function UsiOf(square: string, n: nat): string
    requires |square| == 2 && IsFile(square[0], n) && IsRank(square[1], n) && n <= Letters
  {
    NatToString(n - FileIndex(square[0])) + [Letter(n - DigitValue(square[1]))]
  }

  /**
   * A two-character square on the board becomes its file number counted from the right and
   * its rank letter counted from the top; off the board it has none.
   */
  lemma SquareOnSpec(square: string, n: nat)
    requires |square| == 2
    ensures SquareOn(square, n) ==
      if n > Letters then Err(ValueError)
      else if IsFile(square[0], n) && IsRank(square[1], n) then Ok(Some(UsiOf(square, n)))
      else Ok(None)
  {
    if n <= Letters {
      var file := Get(FromPairs(FilePairs(n)), square[0]);
      var rank := Get(FromPairs(RankPairs(n)), square[1..]);
      FileLookup(n, square[0]);
      RankLookup(n, square[1..]);
      assert square[1..][0] == square[1];
      if IsFile(square[0], n) && IsRank(square[1], n) {
        assert file.value + [rank.value] == UsiOf(square, n);
      } else {
        assert file.None? || rank.None?;
      }
    }
  }

  /** The same for `pyffish_to_usi_square`, where a square of any other length has none. */
  lemma UsiSquareSpec(square: string, startFen: Option<string>)
    ensures var n := BoardSize(startFen);
      UsiSquare(square, startFen) ==
        if |square| != 2 then Ok(None)
        else if n > Letters then Err(ValueError)
        else if IsFile(square[0], n) && IsRank(square[1], n) then Ok(Some(UsiOf(square, n)))
        else Ok(None)
  {
    if |square| == 2 {
      SquareOnSpec(square, BoardSize(startFen));
    }
  }

  /** On the standard 9×9 board a1 is 9i, i9 is 1a and e5 stays in the centre as 5e. */
  lemma StandardBoardSquares()
    ensures SquareOn("a1", 9) == Ok(Some("9i"))
    ensures SquareOn("i9", 9) == Ok(Some("1a"))
    ensures SquareOn("e5", 9) == Ok(Some("5e"))
  {
    StandardSquare("a1", 9, 'i');
    StandardSquare("i9", 1, 'a');
    StandardSquare("e5", 5, 'e');
  }

  lemma StandardSquare(square: string, file: nat, rank: char)
    requires |square| == 2 && IsFile(square[0], 9) && IsRank(square[1], 9)
    requires 1 <= file <= 9 && file == 9 - FileIndex(square[0]) && rank as int == 'a' as int + 9 - DigitValue(square[1])
    ensures SquareOn(square, 9) == Ok(Some([DigitChar(file), rank]))
  {
    SquareOnSpec(square, 9);
    NatToStringShort(file);
    assert Letter(9 - DigitValue(square[1])) == rank;
    assert UsiOf(square, 9) == [DigitChar(file)] + [rank] == [DigitChar(file), rank];
  }

  /** On the standard board there is no file j and no rank 0. */
  lemma StandardBoardEdges()
    ensures SquareOn("j1", 9) == Ok(None) && SquareOn("a0", 9) == Ok(None)
  {
    SquareOnSpec("j1", 9);
    SquareOnSpec("a0", 9);
  }

  /** The inverse mapping: a USI square back to Fairy-Stockfish's letter and digit. */
  function SquareFromUsi(usi: string, n: nat): Option<string>
    requires n <= Letters
  {
    if |usi| < 2 || usi[|usi| - 1] < 'a' then None
    else
      var k := FileIndex(usi[|usi| - 1]);
      match ParseUnsigned(usi[..|usi| - 1])
      case None => None
      case Some(f) =>
        if 1 <= f <= n && k < n && 1 <= n - k <= 9 then Some([Letter(n - f), DigitChar(n - k)]) else None
  }

  /** Converting a square and converting it back gives the square again. */
  lemma SquareOnRoundTrip(square: string, n: nat)
    requires |square| == 2 && SquareOn(square, n).Ok? && SquareOn(square, n).value.Some?
    ensures n <= Letters && SquareFromUsi(SquareOn(square, n).value.value, n) == Some(square)
  {
    SquareOnSpec(square, n);
    var usi := UsiOf(square, n);
    var i := FileIndex(square[0]);
    var d := DigitValue(square[1]);
    NatToStringParses(n - i);
    assert usi[..|usi| - 1] == NatToString(n - i);
    assert usi[|usi| - 1] == Letter(n - d);
    assert [Letter(n - (n - i)), DigitChar(n - (n - d))] == square;
  }

  lemma UsiSquareRoundTrip(square: string, startFen: Option<string>)
    requires UsiSquare(square, startFen).Ok? && UsiSquare(square, startFen).value.Some?
    ensures SquareFromUsi(UsiSquare(square, startFen).value.value, BoardSize(startFen)) == Some(square)
  {
    SquareOnRoundTrip(square, BoardSize(startFen));
  }

  /** Distinct squares on the board become distinct USI squares. */
  lemma UsiSquareInjective(a: string, b: string, startFen: Option<string>)
    requires UsiSquare(a, startFen).Ok? && UsiSquare(a, startFen).value.Some?
    requires UsiSquare(a, startFen) == UsiSquare(b, startFen)
    ensures a == b
  {
    UsiSquareRoundTrip(a, startFen);
    UsiSquareRoundTrip(b, startFen);
  }

  /** On a board of at most nine files every USI square has two characters. */
  lemma UsiSquareShort(square: string, startFen: Option<string>)
    requires BoardSize(startFen) <= 9
    requires UsiSquare(square, startFen).Ok? && UsiSquare(square, startFen).value.Some?
    ensures |UsiSquare(square, startFen).value.value| == 2
  {
    SquareOnSpec(square, BoardSize(startFen));
    NatToStringShort(BoardSize(startFen) - FileIndex(square[0]));
  }

  // ---------------------------------------------------------------------------
  // Move conversion

  /**
   * `pyffish_to_usi_move`: a drop `piece@square` becomes `PIECE*square`, a four-character move
   * the concatenation of its two squares, anything else None.
   */
  function UsiMove(move: string, startFen: Option<string>): (r: Result<Option<string>>)
    ensures r.Err? ==> r.error == ValueError
  {
    if '@' in move then
      var parts := Split(move, '@');
      if |parts| == 2 then
        var square :- UsiSquare(parts[1], startFen);
        Ok(if square.Some? then Some(Upper(parts[0]) + "*" + square.value) else None)
      else Ok(None)
    else if |move| == 4 then
      var from :- UsiSquare(move[..2], startFen);
      match UsiSquare(move[2..], startFen)
      case Err(e) => Err(e)
      case Ok(to) => Ok(if from.Some? && to.Some? then Some(from.value + to.value) else None)
    else Ok(None)
  }

  /** A drop converts its square and upper-cases its piece; an invalid square makes the move None. */
  lemma UsiDrop(piece: string, square: string, startFen: Option<string>)
    requires '@' !in piece && '@' !in square
    ensures UsiMove(piece + "@" + square, startFen) ==
      match UsiSquare(square, startFen)
      case Err(e) => Err(e)
      case Ok(None) => Ok(None)
      case Ok(Some(usi)) => Ok(Some(Upper(piece) + "*" + usi))
  {
    var move := piece + "@" + square;
    assert Join([piece, square], "@") == move;
    JoinThenSplit([piece, square], '@');
    assert move[|piece|] == '@';
  }

  /** A move with more than one `@` is not a drop and converts to None. */
  lemma UsiDoubleDrop(a: string, b: string, c: string, startFen: Option<string>)
    requires '@' !in a && '@' !in b && '@' !in c
    ensures UsiMove(a + "@" + b + "@" + c, startFen) == Ok(None)
  {
    var move := a + "@" + b + "@" + c;
    assert Join([b, c], "@") == b + "@" + c;
    assert Join([a, b, c], "@") == a + "@" + (b + "@" + c) == move;
    JoinThenSplit([a, b, c], '@');
    assert move[|a|] == '@';
  }

  /**
   * A four-character move converts to the concatenation of its two squares when both are on
   * the board, to None otherwise; a move of any other length without `@`, a promotion such as
   * `a1b2+` included, is None.
   */
  lemma UsiNormal(move: string, startFen: Option<string>)
    requires '@' !in move
    ensures |move| != 4 ==> UsiMove(move, startFen) == Ok(None)
    ensures |move| == 4 && BoardSize(startFen) <= Letters ==>
      var n := BoardSize(startFen);
      var onBoard := IsFile(move[0], n) && IsRank(move[1], n) && IsFile(move[2], n) && IsRank(move[3], n);
      UsiMove(move, startFen) == if onBoard then Ok(Some(UsiOf(move[..2], n) + UsiOf(move[2..], n))) else Ok(None)
  {
    if |move| == 4 {
      UsiSquareSpec(move[..2], startFen);
      UsiSquareSpec(move[2..], startFen);
    }
  }

  /** On a board of at most nine files, two different ordinary moves never convert to the same USI move. */
  lemma UsiNormalInjective(a: string, b: string, startFen: Option<string>)
    requires BoardSize(startFen) <= 9
    requires '@' !in a && '@' !in b && |a| == 4 && |b| == 4
    requires UsiMove(a, startFen).Ok? && UsiMove(a, startFen).value.Some?
    requires UsiMove(a, startFen) == UsiMove(b, startFen)
    ensures a == b
  {
    var usi := UsiMove(a, startFen).value.value;
    UsiSquareShort(a[..2], startFen);
    UsiSquareShort(a[2..], startFen);
    UsiSquareShort(b[..2], startFen);
    UsiSquareShort(b[2..], startFen);
    var fa, ta := UsiSquare(a[..2], startFen).value.value, UsiSquare(a[2..], startFen).value.value;
    var fb, tb := UsiSquare(b[..2], startFen).value.value, UsiSquare(b[2..], startFen).value.value;
    assert fa == usi[..2] == fb && ta == usi[2..] == tb;
    UsiSquareInjective(a[..2], b[..2], startFen);
    UsiSquareInjective(a[2..], b[2..], startFen);
    assert a == a[..2] + a[2..] && b == b[..2] + b[2..];
  }

  // ---------------------------------------------------------------------------
  // Variants

  const ShogiVariants: seq<string> :=
    ["shogi", "minishogi", "kyotoshogi", "euroshogi", "torishogi", "yarishogi", "okisakishogi", "shoshogi"]

  /** `is_shogi_variant`: membership of the lower-cased name in the list of shogi variants. */
  predicate IsShogiVariant(variant: string) {
    Lower(variant) in ShogiVariants
  }

  lemma LowerChars(c: char)
    ensures LowerChar(UpperChar(c)) == LowerChar(c) && LowerChar(LowerChar(c)) == LowerChar(c)
  {
  }

  /** The test ignores case: upper-casing or capitalising a name does not change the answer. */
  lemma ShogiVariantAnyCase(variant: string)
    ensures IsShogiVariant(Upper(variant)) == IsShogiVariant(variant)
    ensures IsShogiVariant(Capitalize(variant)) == IsShogiVariant(variant)
  {
    var u, c := Upper(variant), Capitalize(variant);
    forall i | 0 <= i < |variant| ensures Lower(u)[i] == Lower(variant)[i] && Lower(c)[i] == Lower(variant)[i] {
      LowerChars(variant[i]);
      if i > 0 {
        assert c[i] == c[1..][i - 1] == Lower(variant[1..])[i - 1] == LowerChar(variant[i]);
      }
    }
    assert Lower(u) == Lower(variant);
    assert Lower(c) == Lower(variant);
  }

  // ---------------------------------------------------------------------------
  // One puzzle line

  /** `dict(token.strip().split(' ', 1) for token in tokens if ' ' in token.strip())`, as pairs. */
  function KifPairs(tokens: seq<string>): seq<(string, string)> {
    if |tokens| == 0 then []
    else
      var t := Strip(tokens[|tokens| - 1]);
      KifPairs(tokens[..|tokens| - 1]) + (if ' ' in t then [SplitOnce(t, ' ').value] else [])
  }

  function KifAnnotations(tokens: seq<string>): Dict<string, string> {
    FromPairs(KifPairs(tokens))
  }

  /**
   * A token that has no space once stripped is ignored; one that has sets its key (the text
   * before the first space) to the rest and leaves every other key alone.
   */
  lemma KifAnnotationsStep(tokens: seq<string>, t: string, k: string)
    ensures var stripped := Strip(t);
      Get(KifAnnotations(tokens + [t]), k) ==
        if ' ' in stripped && SplitOnce(stripped, ' ').value.0 == k then Some(SplitOnce(stripped, ' ').value.1)
        else Get(KifAnnotations(tokens), k)
  {
    assert (tokens + [t])[..|tokens|] == tokens;
    var before := KifPairs(tokens);
    var after := KifPairs(tokens + [t]);
    if ' ' in Strip(t) {
      assert after == before + [SplitOnce(Strip(t), ' ').value];
      assert after[..|before|] == before;
    } else {
      assert after == before;
    }
    FromPairsSpec(after);
    FromPairsSpec(before);
  }

  /** What the two libraries answer. */
  datatype Libraries = Libraries(
    startFen: string -> Option<string>,
    variants: seq<string>,
    getFen: (string, string) -> Result<string>,
    parses: string -> bool,
    pushes: (Option<string>, seq<string>, string) -> bool,
    kif: (string, seq<string>) -> string,
    defaultSfen: string)
  // startFen: `sf.start_fen(variant)`, None where it raises.
  // variants: `sf.variants()`.
  // getFen: `sf.get_fen(variant, fen, [], False, True)`, or the exception it raises.
  // parses: whether `shogi.Board(sfen=...)` accepts an SFEN.
  // pushes: whether `push_usi` accepts a move on the board built from an SFEN (None: the
  //   default board) after the given moves.
  // kif: the exporter's text for a start SFEN and its moves.
  // defaultSfen: the SFEN of the default `shogi.Board()`.

  /**
   * The first loop of the puzzle: stripped moves, empty ones skipped, converted, the ones that
   * do not convert dropped; an exception in the conversion ends it.
   */
  function ConvertedMoves(moves: seq<string>, startFen: Option<string>): (r: Result<seq<string>>)
    ensures r.Ok? ==> |r.value| <= |moves|
    ensures r.Err? ==> BoardSize(startFen) > Letters
  {
    if |moves| == 0 then Ok([])
    else
      var init :- ConvertedMoves(moves[..|moves| - 1], startFen);
      var move := Strip(moves[|moves| - 1]);
      if move == "" then Ok(init)
      else
        var usi :- UsiMove(move, startFen);
        Ok(if usi.Some? then init + [usi.value] else init)
  }

  /** One more move: skipped when empty, otherwise converted, and kept when it converts. */
  lemma ConvertedNext(moves: seq<string>, n: nat, startFen: Option<string>)
    requires n < |moves| && ConvertedMoves(moves[..n], startFen).Ok?
    ensures var init := ConvertedMoves(moves[..n], startFen).value;
      ConvertedMoves(moves[..n + 1], startFen) ==
        if Strip(moves[n]) == "" then Ok(init)
        else match UsiMove(Strip(moves[n]), startFen)
          case Err(e) => Err(e)
          case Ok(usi) => Ok(if usi.Some? then init + [usi.value] else init)
  {
    assert moves[..n + 1][..n] == moves[..n];
  }

  /** When every move converts, the result is the list of their conversions, in order. */
  lemma {:induction false} ConvertedAll(moves: seq<string>, usi: seq<string>, startFen: Option<string>)
    requires |usi| == |moves|
    requires forall i :: 0 <= i < |moves| ==> Strip(moves[i]) != "" && UsiMove(Strip(moves[i]), startFen) == Ok(Some(usi[i]))
    ensures ConvertedMoves(moves, startFen) == Ok(usi)
  {
    if |moves| > 0 {
      var k := |moves| - 1;
      assert forall i :: 0 <= i < k ==> moves[..k][i] == moves[i] && usi[..k][i] == usi[i];
      ConvertedAll(moves[..k], usi[..k], startFen);
      ConvertedNext(moves, k, startFen);
      assert moves[..k + 1] == moves;
      ButLast(usi);
    }
  }

  /** The loop of kif.py:108-117. */
  method ConvertMoves(moves: seq<string>, startFen: Option<string>) returns (r: Result<seq<string>>)
    ensures r == ConvertedMoves(moves, startFen)
  {
    var usiMoves: seq<string> := [];
    var i := 0;
    while i < |moves|
      invariant i <= |moves|
      invariant ConvertedMoves(moves[..i], startFen) == Ok(usiMoves)
    {
      ConvertedNext(moves, i, startFen);
      var move := Strip(moves[i]);
      if move != "" {
        var usi := UsiMove(move, startFen);
        if usi.Err? {
          ConvertedStops(moves, i, startFen);
          return Err(usi.error);
        }
        if usi.value.Some? {
          usiMoves := usiMoves + [usi.value.value];
        }
      }
      i := i + 1;
    }
    Whole(moves, i);
    return Ok(usiMoves);
  }

  /** An exception while converting one move is the outcome of the whole conversion. */
  lemma {:induction false} ConvertedStops(moves: seq<string>, i: nat, startFen: Option<string>)
    requires i < |moves| && ConvertedMoves(moves[..i + 1], startFen).Err?
    ensures ConvertedMoves(moves, startFen) == ConvertedMoves(moves[..i + 1], startFen)
    decreases |moves|
  {
    if |moves| > i + 1 {
      assert moves[..|moves| - 1][..i + 1] == moves[..i + 1];
      ConvertedStops(moves[..|moves| - 1], i, startFen);
    } else {
      assert moves[..i + 1] == moves;
    }
  }

  /** The moves the board accepts when played from the start: pushes of `usi[i..]` until one fails. */
  function PlayedFrom(start: Option<string>, usi: seq<string>, pushes: (Option<string>, seq<string>, string) -> bool, i: nat)
    : (r: seq<string>)
    requires i <= |usi|
    requires forall j :: 0 <= j < i ==> pushes(start, usi[..j], usi[j])
    ensures i <= |r| <= |usi| && r == usi[..|r|]
    ensures forall j :: 0 <= j < |r| ==> pushes(start, usi[..j], usi[j])
    ensures |r| < |usi| ==> !pushes(start, r, usi[|r|])
    decreases |usi| - i
  {
    if i == |usi| || !pushes(start, usi[..i], usi[i]) then usi[..i]
    else PlayedFrom(start, usi, pushes, i + 1)
  }

  /**
   * The second loop (kif.py:132-139): the longest prefix of the moves that the board accepts
   * one after the other.
   */
  function Played(start: Option<string>, usi: seq<string>, pushes: (Option<string>, seq<string>, string) -> bool)
    : (r: seq<string>)
    ensures |r| <= |usi| && r == usi[..|r|]
    ensures forall j :: 0 <= j < |r| ==> pushes(start, usi[..j], usi[j])
    ensures |r| < |usi| ==> !pushes(start, r, usi[|r|])
  {
    PlayedFrom(start, usi, pushes, 0)
  }

  /** Only one prefix is accepted move by move and then stops or refuses the next move. */
  lemma PlayedUnique(start: Option<string>, usi: seq<string>, pushes: (Option<string>, seq<string>, string) -> bool, p: seq<string>)
    requires |p| <= |usi| && p == usi[..|p|]
    requires forall j :: 0 <= j < |p| ==> pushes(start, usi[..j], usi[j])
    requires |p| < |usi| ==> !pushes(start, p, usi[|p|])
    ensures Played(start, usi, pushes) == p
  {
  }

  method PlayMoves(start: Option<string>, usi: seq<string>, pushes: (Option<string>, seq<string>, string) -> bool)
    returns (valid: seq<string>)
    ensures valid == Played(start, usi, pushes)
  {
    valid := [];
    var i := 0;
    while i < |usi|
      invariant i <= |usi| && valid == usi[..i]
      invariant forall j :: 0 <= j < i ==> pushes(start, usi[..j], usi[j])
      invariant PlayedFrom(start, usi, pushes, i) == Played(start, usi, pushes)
    {
      if !pushes(start, valid, usi[i]) {
        break;
      }
      valid := valid + [usi[i]];
      i := i + 1;
    }
  }

  const DefaultSite := "https://github.com/ianfab/Fairy-Stockfish"

  /** The text written for one puzzle: three comment lines and the KIF game. */
  function KifText(annotations: Dict<string, string>, variant: string, kif: string): string {
    "# Puzzle Type: " + Get(annotations, "type").GetOr("Unknown") + "\n"
    + "# Site: " + Get(annotations, "site").GetOr(DefaultSite) + "\n"
    + "# Variant: " + variant + "\n"
    + kif + "\n"
  }

  /** What one line leaves: the text written for it, if any, and the SFEN `start_sfen` holds afterwards. */
  datatype Outcome = Outcome(text: Option<string>, startSfen: Option<string>)

  /**
   * The `try` block of one puzzle, given the SFEN that `start_sfen` still holds from an earlier
   * line: `start_sfen` is a local of `epd_to_kif`, so its binding outlives the line that made it.
   * - A conversion error is caught by the outer `except` and the line is skipped.
   * - When `get_fen` returns, `start_sfen` is bound to its SFEN; the moves are played on the board
   *   it builds, or on the default board when `shogi.Board` refuses it.
   * - When `get_fen` raises ValueError or IndexError, the inner `except` plays the moves on the
   *   default board and the summary names the SFEN bound by an earlier line. With none bound,
   *   building the summary raises NameError, which the outer `except` catches.
   * - Any other exception of `get_fen` is caught by the outer `except`.
   */
  function Export(annotations: Dict<string, string>, fen: string, variant: string, moves: seq<string>, lib: Libraries,
                  bound: Option<string>): Outcome
  {
    match ConvertedMoves(moves, lib.startFen(variant))
    case Err(_) => Outcome(None, bound)
    case Ok(usi) =>
      if |usi| == 0 then Outcome(None, bound)
      else
        match lib.getFen(variant, fen)
        case Ok(sfen) =>
          var valid := Played(if lib.parses(sfen) then Some(sfen) else None, usi, lib.pushes);
          Outcome(if |valid| == 0 then None else Some(KifText(annotations, variant, lib.kif(sfen, valid))), Some(sfen))
        case Err(e) =>
          if e != ValueError && e != IndexError then Outcome(None, bound)
          else
            var valid := Played(None, usi, lib.pushes);
            if |valid| == 0 || bound.None? then Outcome(None, bound)
            else Outcome(Some(KifText(annotations, variant, lib.kif(bound.value, valid))), bound)
  }

  /** The FEN field of an input line. */
  function LineFen(line: string): string {
    Split(Strip(line), ';')[0]
  }

  /** The annotations of an input line. */
  function LineAnnotations(line: string): Dict<string, string> {
    KifAnnotations(Split(Strip(line), ';')[1..])
  }

  /** `annotations.get('variant', '')` */
  function LineVariant(line: string): string {
    Get(LineAnnotations(line), "variant").GetOr("")
  }

  /** `annotations.get('pv', '').split(',')` */
  function LineMoves(line: string): seq<string> {
    Split(Get(LineAnnotations(line), "pv").GetOr(""), ',')
  }

  /**
   * One input line, given the SFEN `start_sfen` holds: what it writes and what `start_sfen` holds
   * after it, or an error, only for a shogi variant the library does not support, which ends the
   * export.
   */
  function KifLine(line: string, lib: Libraries, bound: Option<string>): Result<Outcome> {
    var variant := LineVariant(line);
    if !IsShogiVariant(variant) then Ok(Outcome(None, bound))
    else if variant !in lib.variants then Err(Raised("Unsupported variant: " + variant))
    else
      var moves := LineMoves(line);
      if moves == [""] then Ok(Outcome(None, bound))
      else Ok(Export(LineAnnotations(line), LineFen(line), variant, moves, lib, bound))
  }

  /**
   * An exported puzzle names its variant, which is a supported shogi variant, and ends with the
   * KIF game of the moves the board accepted: at least one, each converted from the `pv`. When
   * `get_fen` returned an SFEN, the game starts from it; when it raised ValueError or IndexError,
   * the moves were played on the default board and the game names the SFEN an earlier line left.
   */
  lemma KifLineExported(line: string, lib: Libraries, bound: Option<string>)
    requires KifLine(line, lib, bound).Ok? && KifLine(line, lib, bound).value.text.Some?
    ensures var variant, moves := LineVariant(line), LineMoves(line);
      && IsShogiVariant(variant) && variant in lib.variants
      && ConvertedMoves(moves, lib.startFen(variant)).Ok?
      && var usi := ConvertedMoves(moves, lib.startFen(variant)).value;
         var out := KifLine(line, lib, bound).value;
         match lib.getFen(variant, LineFen(line))
         case Ok(sfen) =>
           var valid := Played(if lib.parses(sfen) then Some(sfen) else None, usi, lib.pushes);
           && 0 < |valid| <= |moves|
           && out.text.value == KifText(LineAnnotations(line), variant, lib.kif(sfen, valid))
           && out.startSfen == Some(sfen)
         case Err(e) =>
           var valid := Played(None, usi, lib.pushes);
           && (e == ValueError || e == IndexError) && bound.Some?
           && 0 < |valid| <= |moves|
           && out.text.value == KifText(LineAnnotations(line), variant, lib.kif(bound.value, valid))
           && out.startSfen == bound
  {
  }

  /**
   * `start_sfen` changes only on a line that reaches `get_fen` and gets an SFEN back, and then
   * holds that SFEN.
   */
  lemma KifLineSfen(line: string, lib: Libraries, bound: Option<string>)
    requires KifLine(line, lib, bound).Ok?
    ensures var after := KifLine(line, lib, bound).value.startSfen;
      after != bound ==> after.Some? && lib.getFen(LineVariant(line), LineFen(line)) == Ok(after.value)
  {
  }

  /** A line of a variant that is not shogi-like is skipped whatever else it holds, and leaves `start_sfen` alone. */
  lemma KifLineSkipsOthers(line: string, lib: Libraries, bound: Option<string>)
    requires !IsShogiVariant(LineVariant(line))
    ensures KifLine(line, lib, bound) == Ok(Outcome(None, bound))
  {
  }

  /** `epd_to_kif` with `start_sfen`'s binding and the chunks written so far: it stops at the first error. */
  function Kif(lines: seq<string>, lib: Libraries, bound: Option<string>, written: seq<string>): (seq<string>, Option<Exception>)
    decreases |lines|
  {
    if |lines| == 0 then (written, None)
    else
      var r := KifLine(lines[0], lib, bound);
      if r.Err? then (written, Some(r.error))
      else Kif(lines[1..], lib, r.value.startSfen, written + if r.value.text.Some? then [r.value.text.value] else [])
  }

  /** One more line of a loop that has not raised. */
  lemma KifNext(lines: seq<string>, lib: Libraries, bound: Option<string>, written: seq<string>)
    requires |lines| > 0 && KifLine(lines[0], lib, bound).Ok?
    ensures var r := KifLine(lines[0], lib, bound).value;
      Kif(lines, lib, bound, written) == Kif(lines[1..], lib, r.startSfen, written + if r.text.Some? then [r.text.value] else [])
  {
  }

  /** Everything written before an error stays written, in input order. */
  lemma {:induction false} KifKeepsWritten(lines: seq<string>, lib: Libraries, bound: Option<string>, written: seq<string>)
    ensures |written| <= |Kif(lines, lib, bound, written).0| <= |written| + |lines|
    ensures Kif(lines, lib, bound, written).0[..|written|] == written
    decreases |lines|
  {
    if |lines| > 0 {
      var r := KifLine(lines[0], lib, bound);
      if r.Ok? {
        var next := written + if r.value.text.Some? then [r.value.text.value] else [];
        KifKeepsWritten(lines[1..], lib, r.value.startSfen, next);
        assert Kif(lines, lib, bound, written).0[..|next|] == next;
        assert next[..|written|] == written;
      }
    }
  }

  /**
   * A puzzle whose `get_fen` raises ValueError, read after a line that bound `start_sfen`, is
   * played on the default board but exported naming the earlier line's SFEN.
   */
  lemma StaleStartSfen(first: string, second: string, lib: Libraries)
    requires KifLine(first, lib, None).Ok? && KifLine(first, lib, None).value.startSfen.Some?
    requires IsShogiVariant(LineVariant(second)) && LineVariant(second) in lib.variants && LineMoves(second) != [""]
    requires ConvertedMoves(LineMoves(second), lib.startFen(LineVariant(second))).Ok?
    requires lib.getFen(LineVariant(second), LineFen(second)) == Err(ValueError)
    requires |Played(None, ConvertedMoves(LineMoves(second), lib.startFen(LineVariant(second))).value, lib.pushes)| > 0
    ensures var earlier := KifLine(first, lib, None).value.startSfen.value;
      var valid := Played(None, ConvertedMoves(LineMoves(second), lib.startFen(LineVariant(second))).value, lib.pushes);
      var out := Kif([first, second], lib, None, []);
      && out.1 == None && |out.0| > 0
      && out.0[|out.0| - 1] == KifText(LineAnnotations(second), LineVariant(second), lib.kif(earlier, valid))
  {
    var r := KifLine(first, lib, None).value;
    var written := if r.text.Some? then [r.text.value] else [];
    KifNext([first, second], lib, None, []);
    assert [first, second][1..] == [second];
    var usi := ConvertedMoves(LineMoves(second), lib.startFen(LineVariant(second))).value;
    var valid := Played(None, usi, lib.pushes);
    var text := KifText(LineAnnotations(second), LineVariant(second), lib.kif(r.startSfen.value, valid));
    assert Export(LineAnnotations(second), LineFen(second), LineVariant(second), LineMoves(second), lib, r.startSfen)
      == Outcome(Some(text), r.startSfen);
    assert KifLine(second, lib, r.startSfen) == Ok(Outcome(Some(text), r.startSfen));
    KifNext([second], lib, r.startSfen, written);
    assert [second][1..] == [];
  }

  /**
   * The board the moves are played on: the SFEN `get_fen` returns when `shogi.Board` accepts it,
   * otherwise the default board (None); an exception other than ValueError or IndexError skips
   * the line.
   */
  function StartBoard(fen: string, variant: string, lib: Libraries): Result<Option<string>> {
    match lib.getFen(variant, fen)
    case Ok(sfen) => Ok(if lib.parses(sfen) then Some(sfen) else None)
    case Err(e) => if e == ValueError || e == IndexError then Ok(None) else Err(e)
  }

  /** The SFEN of a board: its own, or the default board's. */
  function BoardSfen(board: Option<string>, lib: Libraries): string {
    if board.Some? then board.value else lib.defaultSfen
  }

  /**
   * The `try` block as evidently intended: the summary names the position the moves were played
   * from, so nothing carries over from an earlier line.
   */
  function CorrectedExport(annotations: Dict<string, string>, fen: string, variant: string, moves: seq<string>, lib: Libraries)
    : Option<string>
  {
    match ConvertedMoves(moves, lib.startFen(variant))
    case Err(_) => None
    case Ok(usi) =>
      if |usi| == 0 then None
      else
        match StartBoard(fen, variant, lib)
        case Err(_) => None
        case Ok(board) =>
          var valid := Played(board, usi, lib.pushes);
          if |valid| == 0 then None else Some(KifText(annotations, variant, lib.kif(BoardSfen(board, lib), valid)))
  }

  /**
   * A corrected export is the KIF game of moves that were each accepted, in order, on the board
   * whose SFEN the game names.
   */
  lemma CorrectedExportStart(annotations: Dict<string, string>, fen: string, variant: string, moves: seq<string>, lib: Libraries)
    requires CorrectedExport(annotations, fen, variant, moves, lib).Some?
    ensures ConvertedMoves(moves, lib.startFen(variant)).Ok? && StartBoard(fen, variant, lib).Ok?
    ensures var board := StartBoard(fen, variant, lib).value;
      var valid := Played(board, ConvertedMoves(moves, lib.startFen(variant)).value, lib.pushes);
      && 0 < |valid| <= |moves|
      && (forall j :: 0 <= j < |valid| ==> lib.pushes(board, valid[..j], valid[j]))
      && CorrectedExport(annotations, fen, variant, moves, lib) == Some(KifText(annotations, variant, lib.kif(BoardSfen(board, lib), valid)))
  {
    var usi := ConvertedMoves(moves, lib.startFen(variant));
    assert usi.Ok?;
    var board := StartBoard(fen, variant, lib);
    assert board.Ok?;
    var valid := Played(board.value, usi.value, lib.pushes);
    assert |valid| <= |usi.value| <= |moves|;
    forall j | 0 <= j < |valid|
      ensures lib.pushes(board.value, valid[..j], valid[j])
    {
      assert valid[..j] == usi.value[..j] && valid[j] == usi.value[j];
    }
  }

  /** One line of the loop (kif.py:84-164), with its two inner loops as methods. */
  method ExportLine(line: string, lib: Libraries, bound: Option<string>) returns (r: Result<Outcome>)
    ensures r == KifLine(line, lib, bound)
  {
    var tokens := Split(Strip(line), ';');
    var annotations := KifAnnotations(tokens[1..]);
    var variant := Get(annotations, "variant").GetOr("");
    if !IsShogiVariant(variant) {
      return Ok(Outcome(None, bound));
    }
    if variant !in lib.variants {
      return Err(Raised("Unsupported variant: " + variant));
    }
    var moves := Split(Get(annotations, "pv").GetOr(""), ',');
    if moves == [""] {
      return Ok(Outcome(None, bound));
    }
    var usi := ConvertMoves(moves, lib.startFen(variant));
    if usi.Err? || |usi.value| == 0 {
      return Ok(Outcome(None, bound));
    }
    var sfen := lib.getFen(variant, tokens[0]);
    var start: Option<string>;
    if sfen.Ok? {
      start := if lib.parses(sfen.value) then Some(sfen.value) else None;
    } else if sfen.error == ValueError || sfen.error == IndexError {
      start := None;
    } else {
      return Ok(Outcome(None, bound));
    }
    var after := if sfen.Ok? then Some(sfen.value) else bound;
    var valid := PlayMoves(start, usi.value, lib.pushes);
    if |valid| == 0 || after.None? {
      return Ok(Outcome(None, after));
    }
    return Ok(Outcome(Some(KifText(annotations, variant, lib.kif(after.value, valid))), after));
  }

  /** `epd_to_kif`: the chunks written, and the exception that ended the export if any. */
  method EpdToKif(lines: seq<string>, lib: Libraries) returns (written: seq<string>, failure: Option<Exception>)
    ensures (written, failure) == Kif(lines, lib, None, [])
  {
    written := [];
    var startSfen: Option<string> := None;
    var i := 0;
    assert lines[i..] == lines;
    while i < |lines|
      invariant i <= |lines|
      invariant Kif(lines[i..], lib, startSfen, written) == Kif(lines, lib, None, [])
    {
      assert lines[i..][1..] == lines[i + 1..];
      var r := ExportLine(lines[i], lib, startSfen);
      if r.Err? {
        return written, Some(r.error);
      }
      written := written + if r.value.text.Some? then [r.value.text.value] else [];
      startSfen := r.value.startSfen;
      i := i + 1;
    }
    return written, None;
  }
}
