/**
 * Positions from a PGN file of lichess games, as EPD lines `<fen>;variant <v>;site <url>`.
 *
 * python-chess reads the file and calls back a visitor; here each game arrives as the sequence
 * of callbacks python-chess makes for it: its headers, then the comments, moves and boards of
 * its main line. `find_variant(name).uci_variant` is the parameter `table` (None where
 * find_variant raises ValueError), and a board is given by its FEN.
 */
module Pgn2Epd {
  import opened Wrappers
  import opened Strings

  /** `find_variant(name).uci_variant`, or None where there is no such variant. */
  type VariantTable = string -> Option<string>

  /**
   * One callback on the main line: `visit_comment(text)`, `visit_move(board, move)` with the
   * FEN of the board before the move, or `visit_board(board)` with the board's FEN in
   * Chess960 notation.
   */
  datatype Event = Comment(text: string) | Move(fen: string) | Board(fen: string)

  /** A game: its header tags in order, then the callbacks on its main line. */
  datatype Game = Game(headers: seq<(string, string)>, moves: seq<Event>)

  /** The fields of the visitor that change while a game is read; `board_eval` None is Python's None. */
  datatype Fields = Fields(uciVariant: string, fens: seq<string>, relevant: bool, site: string, boardEval: Option<string>)

  /** The fields as `begin_game` sets them. */
  const Fresh := Fields("", [], true, "", Some(""))

  predicate EndsWith(s: string, suffix: string) {
    |suffix| <= |s| && s[|s| - |suffix|..] == suffix
  }

  /** `str.removesuffix`. */
  function WithoutSuffix(s: string, suffix: string): (r: string)
    ensures EndsWith(s, suffix) ==> r + suffix == s
    ensures !EndsWith(s, suffix) ==> r == s
  {
    if EndsWith(s, suffix) then s[..|s| - |suffix|] else s
  }

  /** The line written for a position: its FEN, the game's variant and its site. */
  function Entry(fen: string, f: Fields): string {
    fen + ";variant " + f.uciVariant + ";site " + f.site
  }

  /**
   * `visit_header`: a `Variant` tag sets the variant, and makes the game irrelevant when a
   * variant was asked for and this is another; a `Site` tag sets the site.
   */
  function OnHeader(f: Fields, name: string, value: string, variant: Option<string>, table: VariantTable): Result<Fields> {
    if name == "Variant" then
      match table(WithoutSuffix(value, "960"))
      case None => Err(ValueError)
      case Some(u) => Ok(f.(uciVariant := u, relevant := f.relevant && !(variant.Some? && u != variant.value)))
    else if name == "Site" then Ok(f.(site := value))
    else Ok(f)
  }

  /** `visit_comment`: an eval comment is kept; any other comment ends the game's relevance. */
  function OnComment(f: Fields, comment: string): Fields {
    if StartsWith(comment, "[%eval") then f.(boardEval := Some(comment))
    else f.(boardEval := None, relevant := false)
  }

  /**
   * `visit_move` in mate mode: the position before the move is kept when the last eval is a
   * mate score; a move after a comment that was no eval ends the game's relevance.
   */
  function OnMove(f: Fields, fen: string, mate: bool): Fields {
    if f.relevant && mate then
      if f.boardEval.None? then f.(relevant := false)
      else if StartsWith(f.boardEval.value, "[%eval #") then f.(fens := f.fens + [Entry(fen, f)])
      else f
    else f
  }

  /** `visit_board` outside mate mode: the board is kept while the game is relevant. */
  function OnBoard(f: Fields, fen: string, mate: bool): Fields {
    if f.relevant && !mate then f.(fens := f.fens + [Entry(fen, f)]) else f
  }

  function OnEvent(f: Fields, e: Event, mate: bool): Fields {
    match e
    case Comment(text) => OnComment(f, text)
    case Move(fen) => OnMove(f, fen, mate)
    case Board(fen) => OnBoard(f, fen, mate)
  }

  /** The fields after the header tags, or the exception of the first unknown variant. */
  function Headers(f: Fields, headers: seq<(string, string)>, variant: Option<string>, table: VariantTable): Result<Fields> {
    if |headers| == 0 then Ok(f)
    else
      match Headers(f, headers[..|headers| - 1], variant, table)
      case Err(e) => Err(e)
      case Ok(g) => OnHeader(g, headers[|headers| - 1].0, headers[|headers| - 1].1, variant, table)
  }

  /** The fields after the callbacks of the main line. */
  function Moves(f: Fields, events: seq<Event>, mate: bool): Fields {
    if |events| == 0 then f else OnEvent(Moves(f, events[..|events| - 1], mate), events[|events| - 1], mate)
  }

  /** What `read_game` returns with this visitor: `end_headers` skips the moves of an irrelevant game. */
  function ReadGame(game: Game, variant: Option<string>, mate: bool, table: VariantTable): Result<seq<string>> {
    match Headers(Fresh, game.headers, variant, table)
    case Err(e) => Err(e)
    case Ok(h) => if !h.relevant then Ok(h.fens) else Ok(Moves(h, game.moves, mate).fens)
  }

  /** `PrintAllFensVisitor`. */
  class Visitor {
    const variant: Option<string>
    const mate: bool
    var uciVariant: string
    var fens: seq<string>
    var relevant: bool
    var site: string
    var boardEval: Option<string>

    function State(): Fields
      reads this
    {
      Fields(uciVariant, fens, relevant, site, boardEval)
    }

    constructor(variant: Option<string>, mate: bool)
      ensures this.variant == variant && this.mate == mate
      ensures State() == Fresh
    {
      this.variant := variant;
      this.mate := mate;
      uciVariant, fens, relevant, site, boardEval := "", [], true, "", Some("");
    }

    method BeginGame()
      modifies this
      ensures State() == Fresh
    {
      uciVariant := "";
      fens := [];
      relevant := true;
      site := "";
      boardEval := Some("");
    }

    method VisitHeader(name: string, value: string, table: VariantTable) returns (failure: Option<Exception>)
      modifies this
      ensures OnHeader(old(State()), name, value, variant, table).Ok? ==>
        failure.None? && State() == OnHeader(old(State()), name, value, variant, table).value
      ensures OnHeader(old(State()), name, value, variant, table).Err? ==>
        failure == Some(ValueError) && State() == old(State())
    {
      failure := None;
      if name == "Variant" {
        var u := table(WithoutSuffix(value, "960"));
        if u.None? {
          return Some(ValueError);
        }
        uciVariant := u.value;
        if variant.Some? && uciVariant != variant.value {
          relevant := false;
        }
      }
      if name == "Site" {
        site := value;
      }
    }

    /** `end_headers`: SKIP for an irrelevant game. */
    method EndHeaders() returns (skip: bool)
      ensures skip == !relevant
    {
      skip := !relevant;
    }

    method VisitComment(comment: string)
      modifies this
      ensures State() == OnComment(old(State()), comment)
    {
      if StartsWith(comment, "[%eval") {
        boardEval := Some(comment);
      } else {
        boardEval := None;
        relevant := false;
      }
    }

    method VisitMove(fen: string)
      modifies this
      ensures State() == OnMove(old(State()), fen, mate)
    {
      if relevant && mate {
        var ev := boardEval;
        if ev.None? {
          relevant := false;
        } else if StartsWith(ev.value, "[%eval #") {
          fens := fens + [fen + ";variant " + uciVariant + ";site " + site];
        }
      }
    }

    method VisitBoard(fen: string)
      modifies this
      ensures State() == OnBoard(old(State()), fen, mate)
    {
      if relevant && !mate {
        fens := fens + [fen + ";variant " + uciVariant + ";site " + site];
      }
    }
  }

  /** `read_game` driving a visitor through one game; its result is the visitor's `fens`. */
  method Replay(v: Visitor, game: Game, table: VariantTable) returns (result: Result<seq<string>>)
    modifies v
    ensures result == ReadGame(game, v.variant, v.mate, table)
  {
    v.BeginGame();
    var i := 0;
    while i < |game.headers|
      invariant i <= |game.headers|
      invariant Headers(Fresh, game.headers[..i], v.variant, table) == Ok(v.State())
    {
      assert game.headers[..i + 1][..i] == game.headers[..i];
      var failure := v.VisitHeader(game.headers[i].0, game.headers[i].1, table);
      if failure.Some? {
        HeadersStop(game.headers, i + 1, v.variant, table);
        return Err(failure.value);
      }
      i := i + 1;
    }
    assert game.headers[..i] == game.headers;
    ghost var h := v.State();
    var skip := v.EndHeaders();
    if skip {
      return Ok(v.fens);
    }
    i := 0;
    while i < |game.moves|
      invariant i <= |game.moves|
      invariant Moves(h, game.moves[..i], v.mate) == v.State()
    {
      assert game.moves[..i + 1][..i] == game.moves[..i];
      match game.moves[i] {
        case Comment(text) => v.VisitComment(text);
        case Move(fen) => v.VisitMove(fen);
        case Board(fen) => v.VisitBoard(fen);
      }
      i := i + 1;
    }
    assert game.moves[..i] == game.moves;
    return Ok(v.fens);
  }

  /** An unknown variant ends the reading of the headers. */
  lemma {:induction false} HeadersStop(headers: seq<(string, string)>, n: nat, variant: Option<string>, table: VariantTable)
    requires n <= |headers| && Headers(Fresh, headers[..n], variant, table).Err?
    ensures Headers(Fresh, headers, variant, table) == Headers(Fresh, headers[..n], variant, table)
  {
    if n < |headers| {
      assert headers[..|headers| - 1][..n] == headers[..n];
      HeadersStop(headers[..|headers| - 1], n, variant, table);
    } else {
      assert headers[..n] == headers;
    }
  }

  /** No callback makes an irrelevant game relevant again, and an irrelevant game gains no positions. */
  lemma {:induction false} IrrelevantStays(f: Fields, events: seq<Event>, mate: bool)
    requires !f.relevant
    ensures !Moves(f, events, mate).relevant && Moves(f, events, mate).fens == f.fens
  {
    if |events| > 0 {
      IrrelevantStays(f, events[..|events| - 1], mate);
    }
  }

  /** Header tags never make a game relevant again. */
  lemma {:induction false} HeadersKeepIrrelevant(f: Fields, headers: seq<(string, string)>, variant: Option<string>, table: VariantTable)
    requires Headers(f, headers, variant, table).Ok?
    ensures Headers(f, headers, variant, table).value.relevant ==> f.relevant
    ensures Headers(f, headers, variant, table).value.fens == f.fens
    ensures Headers(f, headers, variant, table).value.boardEval == f.boardEval
  {
    if |headers| > 0 {
      HeadersKeepIrrelevant(f, headers[..|headers| - 1], variant, table);
    }
  }

  /** A `Variant` tag naming another variant than the one asked for leaves the game without positions. */
  lemma {:induction false} OtherVariantSkipped(game: Game, variant: Option<string>, mate: bool, table: VariantTable, i: nat)
    requires i < |game.headers| && game.headers[i].0 == "Variant"
    requires variant.Some? && table(WithoutSuffix(game.headers[i].1, "960")).Some?
    requires table(WithoutSuffix(game.headers[i].1, "960")).value != variant.value
    requires ReadGame(game, variant, mate, table).Ok?
    ensures ReadGame(game, variant, mate, table) == Ok([])
  {
    var hs := game.headers;
    assert hs[..i + 1][..i] == hs[..i];
    assert hs[..i + 1] + hs[i + 1..] == hs;
    if Headers(Fresh, hs[..i + 1], variant, table).Err? {
      HeadersStop(hs, i + 1, variant, table);
      assert false;
    }
    var g := Headers(Fresh, hs[..i + 1], variant, table).value;
    assert !g.relevant;
    HeadersAppend(Fresh, hs[..i + 1], hs[i + 1..], variant, table);
    HeadersKeepIrrelevant(g, hs[i + 1..], variant, table);
    HeadersKeepIrrelevant(Fresh, hs, variant, table);
  }

  lemma {:induction false} HeadersAppend(f: Fields, a: seq<(string, string)>, b: seq<(string, string)>, variant: Option<string>, table: VariantTable)
    requires Headers(f, a, variant, table).Ok?
    ensures Headers(f, a + b, variant, table) == Headers(Headers(f, a, variant, table).value, b, variant, table)
  {
    if |b| > 0 {
      assert (a + b)[..|a + b| - 1] == a + b[..|b| - 1];
      HeadersAppend(f, a, b[..|b| - 1], variant, table);
    } else {
      assert a + b == a;
    }
  }

  /** The stored eval after a run of callbacks: set by the last comment, if there is one. */
  function EvalAfter(init: Option<string>, events: seq<Event>): Option<string> {
    if |events| == 0 then init
    else
      var e := events[|events| - 1];
      if e.Comment? then (if StartsWith(e.text, "[%eval") then Some(e.text) else None)
      else EvalAfter(init, events[..|events| - 1])
  }

  /** Where a kept position comes from: a move after a mate eval in mate mode, a board otherwise. */
  predicate Source(events: seq<Event>, j: nat, mate: bool, init: Option<string>)
    requires j < |events|
  {
    if mate then
      events[j].Move? && EvalAfter(init, events[..j]).Some? && StartsWith(EvalAfter(init, events[..j]).value, "[%eval #")
    else events[j].Board?
  }

  /** One callback keeps the variant and the site, and appends at most the entry of its own position. */
  lemma EventEffect(g: Fields, e: Event, mate: bool)
    ensures var h := OnEvent(g, e, mate);
      h.uciVariant == g.uciVariant && h.site == g.site &&
      h.boardEval == (if e.Comment? then (if StartsWith(e.text, "[%eval") then Some(e.text) else None) else g.boardEval) &&
      (h.fens == g.fens ||
       (h.fens == g.fens + [Entry(e.fen, g)] &&
        (if mate then e.Move? && g.boardEval.Some? && StartsWith(g.boardEval.value, "[%eval #") else e.Board?)))
  {
  }

  /** The entries of the callbacks that are sources, in order: the positions a game can keep. */
  function Sources(events: seq<Event>, mate: bool, init: Option<string>, f: Fields): seq<string> {
    if |events| == 0 then []
    else
      var n := |events| - 1;
      Sources(events[..n], mate, init, f) + (if Source(events, n, mate, init) then [Entry(events[n].fen, f)] else [])
  }

  /** A subsequence stays one when the sequence grows. */
  lemma SubsequenceGrows(xs: seq<string>, ys: seq<string>, z: seq<string>)
    requires IsSubsequence(xs, ys) && |z| <= 1
    ensures IsSubsequence(xs, ys + z)
  {
    if |z| == 1 {
      assert (ys + z)[..|ys + z| - 1] == ys;
    } else {
      assert ys + z == ys;
    }
  }

  /**
   * The callbacks keep the variant and the site, only append positions, and the positions
   * appended are, in order, entries of moves after a mate eval (mate mode) or of boards
   * (otherwise).
   */
  lemma {:induction false} MovesEntries(f: Fields, events: seq<Event>, mate: bool)
    ensures Moves(f, events, mate).uciVariant == f.uciVariant && Moves(f, events, mate).site == f.site
    ensures Moves(f, events, mate).boardEval == EvalAfter(f.boardEval, events)
    ensures f.fens <= Moves(f, events, mate).fens
    ensures IsSubsequence(Moves(f, events, mate).fens[|f.fens|..], Sources(events, mate, f.boardEval, f))
  {
    if |events| > 0 {
      var n := |events| - 1;
      var init := events[..n];
      MovesEntries(f, init, mate);
      var g := Moves(f, init, mate);
      var h := Moves(f, events, mate);
      assert h == OnEvent(g, events[n], mate);
      EventEffect(g, events[n], mate);
      var before := Sources(init, mate, f.boardEval, f);
      if h.fens == g.fens {
        SubsequenceGrows(g.fens[|f.fens|..], before, if Source(events, n, mate, f.boardEval) then [Entry(events[n].fen, f)] else []);
      } else {
        assert Source(events, n, mate, f.boardEval);
        var added := h.fens[|f.fens|..];
        assert added[..|added| - 1] == g.fens[|f.fens|..] && added[|added| - 1] == Entry(events[n].fen, f);
        assert Sources(events, mate, f.boardEval, f) == before + [Entry(events[n].fen, f)];
      }
    } else {
      assert Moves(f, events, mate) == f;
    }
  }

  /** The positions of a game are, in order, entries with the game's variant and site of sources its mode allows. */
  lemma GameEntries(game: Game, variant: Option<string>, mate: bool, table: VariantTable)
    requires ReadGame(game, variant, mate, table).Ok?
    ensures var h := Headers(Fresh, game.headers, variant, table).value;
      IsSubsequence(ReadGame(game, variant, mate, table).value, Sources(game.moves, mate, Some(""), h))
  {
    var h := Headers(Fresh, game.headers, variant, table).value;
    HeadersKeepIrrelevant(Fresh, game.headers, variant, table);
    assert h.fens == [] && h.boardEval == Some("");
    if h.relevant {
      MovesEntries(h, game.moves, mate);
      assert ReadGame(game, variant, mate, table).value == Moves(h, game.moves, mate).fens[|h.fens|..];
    } else {
      assert ReadGame(game, variant, mate, table).value == [];
    }
  }

  /**
   * A relevant game whose comments are all evals keeps every source, in order: every board
   * outside mate mode, every move after a mate eval in mate mode.
   */
  lemma {:induction false} EverySourceKept(f: Fields, events: seq<Event>, mate: bool)
    requires f.relevant && f.boardEval.Some?
    requires forall j :: 0 <= j < |events| && events[j].Comment? ==> StartsWith(events[j].text, "[%eval")
    ensures Moves(f, events, mate).relevant && Moves(f, events, mate).boardEval.Some?
    ensures Moves(f, events, mate).fens == f.fens + Sources(events, mate, f.boardEval, f)
  {
    if |events| > 0 {
      var n := |events| - 1;
      var init := events[..n];
      assert forall j :: 0 <= j < |init| ==> init[j] == events[j];
      EverySourceKept(f, init, mate);
      MovesEntries(f, init, mate);
      assert events[..n] == init;
    }
  }

  /** Progress of `write_fens`: the lines written, the games counted, and the exception raised, if any. */
  datatype Progress = Progress(lines: seq<string>, counted: nat, failure: Option<Exception>)

  /** The loop breaks right after the count first exceeds `count`. */
  predicate Stopped(p: Progress, count: int) {
    p.counted > 0 && p.counted > count
  }

  /**
   * `write_fens` over the games read: a game without positions is not counted outside mate
   * mode; every other game is counted and its positions written.
   */
  function Written(games: seq<Game>, variant: Option<string>, mate: bool, count: int, table: VariantTable): Progress {
    if |games| == 0 then Progress([], 0, None)
    else
      var p := Written(games[..|games| - 1], variant, mate, count, table);
      if p.failure.Some? || Stopped(p, count) then p
      else
        match ReadGame(games[|games| - 1], variant, mate, table)
        case Err(e) => p.(failure := Some(e))
        case Ok(fens) =>
          if |fens| == 0 && !mate then p else Progress(p.lines + fens, p.counted + 1, None)
  }

  /** `write_fens` counts at most `count` + 1 games (one, when `count` is negative). */
  lemma {:induction false} WrittenBound(games: seq<Game>, variant: Option<string>, mate: bool, count: int, table: VariantTable)
    ensures Written(games, variant, mate, count, table).counted <= if count < 0 then 1 else count + 1
  {
    if |games| > 0 {
      WrittenBound(games[..|games| - 1], variant, mate, count, table);
    }
  }

  /** Each game's positions in turn, or the exception of the first game that raises. */
  function GameResults(games: seq<Game>, variant: Option<string>, mate: bool, table: VariantTable): Result<seq<seq<string>>> {
    if |games| == 0 then Ok([])
    else
      match GameResults(games[..|games| - 1], variant, mate, table)
      case Err(e) => Err(e)
      case Ok(rs) =>
        match ReadGame(games[|games| - 1], variant, mate, table)
        case Err(e) => Err(e)
        case Ok(fens) => Ok(rs + [fens])
  }

  /** The games that count: all of them in mate mode, those with positions otherwise. */
  function CountedGames(results: seq<seq<string>>, mate: bool): (r: seq<seq<string>>)
    ensures forall k :: 0 <= k < |r| ==> mate || |r[k]| > 0
  {
    if |results| == 0 then []
    else
      var last := results[|results| - 1];
      CountedGames(results[..|results| - 1], mate) + (if mate || |last| > 0 then [last] else [])
  }

  function Concat(xss: seq<seq<string>>): seq<string> {
    if |xss| == 0 then [] else Concat(xss[..|xss| - 1]) + xss[|xss| - 1]
  }

  /**
   * When the loop ran to the end without an exception, it counted exactly the games that count
   * and wrote their positions, game after game.
   */
  lemma {:induction false} WrittenAll(games: seq<Game>, variant: Option<string>, mate: bool, count: int, table: VariantTable)
    requires Written(games, variant, mate, count, table).failure.None?
    requires !Stopped(Written(games, variant, mate, count, table), count)
    ensures GameResults(games, variant, mate, table).Ok?
    ensures var counted := CountedGames(GameResults(games, variant, mate, table).value, mate);
      && Written(games, variant, mate, count, table).counted == |counted|
      && Written(games, variant, mate, count, table).lines == Concat(counted)
  {
    if |games| > 0 {
      var init := games[..|games| - 1];
      var p := Written(init, variant, mate, count, table);
      assert p.failure.None? && !Stopped(p, count);
      WrittenAll(init, variant, mate, count, table);
      var rs := GameResults(init, variant, mate, table).value;
      var r := ReadGame(games[|games| - 1], variant, mate, table);
      assert r.Ok?;
      var fens := r.value;
      assert GameResults(games, variant, mate, table) == Ok(rs + [fens]);
      assert (rs + [fens])[..|rs|] == rs;
      var counted := CountedGames(rs, mate);
      if mate || |fens| > 0 {
        assert Written(games, variant, mate, count, table) == Progress(p.lines + fens, p.counted + 1, None);
        assert CountedGames(rs + [fens], mate) == counted + [fens];
        assert (counted + [fens])[..|counted|] == counted;
        assert Concat(counted + [fens]) == Concat(counted) + fens;
      } else {
        assert Written(games, variant, mate, count, table) == p;
        assert CountedGames(rs + [fens], mate) == counted;
      }
    }
  }

  /** An exception or the count limit ends the loop: later games are not read. */
  lemma {:induction false} WrittenStop(games: seq<Game>, n: nat, variant: Option<string>, mate: bool, count: int, table: VariantTable)
    requires n <= |games|
    requires Written(games[..n], variant, mate, count, table).failure.Some? || Stopped(Written(games[..n], variant, mate, count, table), count)
    ensures Written(games, variant, mate, count, table) == Written(games[..n], variant, mate, count, table)
  {
    if n < |games| {
      assert games[..|games| - 1][..n] == games[..n];
      WrittenStop(games[..|games| - 1], n, variant, mate, count, table);
    } else {
      assert games[..n] == games;
    }
  }

  /** One more game read by a loop that has neither raised nor stopped. */
  lemma WrittenNext(games: seq<Game>, i: nat, variant: Option<string>, mate: bool, count: int, table: VariantTable)
    requires i < |games|
    requires Written(games[..i], variant, mate, count, table).failure.None?
    requires !Stopped(Written(games[..i], variant, mate, count, table), count)
    ensures var p := Written(games[..i], variant, mate, count, table);
      Written(games[..i + 1], variant, mate, count, table) ==
        match ReadGame(games[i], variant, mate, table)
        case Err(e) => p.(failure := Some(e))
        case Ok(fens) => if |fens| == 0 && !mate then p else Progress(p.lines + fens, p.counted + 1, None)
  {
    assert games[..i + 1][..i] == games[..i];
  }

  /** `write_fens`: the lines written, and the exception that ended it, if any. */
  method WriteFens(games: seq<Game>, variant: Option<string>, count: int, mate: bool, table: VariantTable)
    returns (lines: seq<string>, failure: Option<Exception>)
    ensures lines == Written(games, variant, mate, count, table).lines
    ensures failure == Written(games, variant, mate, count, table).failure
  {
    lines, failure := [], None;
    var cnt := 0;
    var i := 0;
    while i < |games|
      invariant i <= |games|
      invariant Written(games[..i], variant, mate, count, table) == Progress(lines, cnt, None)
      invariant !(cnt > 0 && cnt > count)
    {
      WrittenNext(games, i, variant, mate, count, table);
      var visitor := new Visitor(variant, mate);
      var fens := Replay(visitor, games[i], table);
      if fens.Err? {
        WrittenStop(games, i + 1, variant, mate, count, table);
        return lines, Some(fens.error);
      }
      if mate || |fens.value| > 0 {
        cnt := cnt + 1;
        lines := lines + fens.value;
        if cnt > count {
          WrittenStop(games, i + 1, variant, mate, count, table);
          return;
        }
      }
      i := i + 1;
    }
    assert games[..i] == games;
  }
}
