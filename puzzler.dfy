/**
 * Puzzle extraction: the predicates over an engine's `score` tokens, the theme of a position
 * from the engine's two best lines, and the bookkeeping that follows the principal variation
 * while the position stays a puzzle and then writes the puzzle record.
 */
module Puzzler {
  import opened Wrappers
  import opened Strings
  import opened Dicts
  import opened Epd
  import opened Uci

  // ---------------------------------------------------------------------------
  // Reading an info record's score

  /** `info_line['score']`: the score tokens, such as `cp 35` or `mate -3`. */
  function ScoreTokens(info: Info): (r: Result<seq<string>>)
    ensures r.Ok? <==> "score" in info && info["score"].Tokens?
  {
    if "score" !in info then Err(KeyError)
    else if info["score"].Tokens? then Ok(info["score"].tokens)
    else Err(TypeError)
  }

  /** `info_line['score'][0]`: `cp`, `mate`, ... */
  function ScoreKind(info: Info): Result<string> {
    var tokens :- ScoreTokens(info);
    if |tokens| == 0 then Err(IndexError) else Ok(tokens[0])
  }

  /** `int(info_line['score'][1])` */
  function ScoreValue(info: Info): Result<int> {
    var tokens :- ScoreTokens(info);
    if |tokens| < 2 then Err(IndexError)
    else match ParseInt(tokens[1])
      case None => Err(ValueError)
      case Some(n) => Ok(n)
  }

  /** `move`: the first move of the record's principal variation, None without one. */
  function Move(info: Info): (r: Result<Option<string>>)
    ensures r.Ok? && r.value.None? <==> "pv" !in info
    ensures r.Ok? && r.value.Some? ==> info["pv"].Tokens? && |info["pv"].tokens| > 0 && r.value.value == info["pv"].tokens[0]
  {
    if "pv" !in info then Ok(None)
    else if !info["pv"].Tokens? then Err(TypeError)
    else if |info["pv"].tokens| == 0 then Err(IndexError)
    else Ok(Some(info["pv"].tokens[0]))
  }

  /** `format_eval`: the score's number, after `#` for a mate score. */
  function FormatEval(info: Info): Result<string> {
    var kind :- ScoreKind(info);
    var tokens := ScoreTokens(info).value;
    if |tokens| < 2 then Err(IndexError)
    else Ok((if kind == "mate" then "#" else "") + tokens[1])
  }

  /** `is_mate(info_line, distance)`: the number is read only for a mate score. */
  function IsMate(info: Info, distance: int): Result<bool> {
    var kind :- ScoreKind(info);
    if kind != "mate" then Ok(false)
    else
      var n :- ScoreValue(info);
      Ok(n > distance)
  }

  /** `mate_distance`: asserts a mate score. */
  function MateDistance(info: Info): Result<int> {
    var kind :- ScoreKind(info);
    if kind != "mate" then Err(AssertionError) else ScoreValue(info)
  }

  /** `has_cp(info_line, score)`: the number is read only for a centipawn score. */
  function HasCp(info: Info, score: int): Result<bool> {
    var kind :- ScoreKind(info);
    if kind != "cp" then Ok(false)
    else
      var n :- ScoreValue(info);
      Ok(n > score)
  }

  /**
   * `is_shortest_win`: the candidate mates, and the first alternative does not mate in fewer than
   * twice as many moves; the operands are evaluated left to right and stop as Python's
   * `and`/`not` do.
   */
  function IsShortestWin(candidate: Info, firstAlt: Info): Result<bool> {
    var candidateMates :- IsMate(candidate, 0);
    if !candidateMates then Ok(false)
    else
      var altMates :- IsMate(firstAlt, 0);
      if !altMates then Ok(true)
      else
        var altDistance :- MateDistance(firstAlt);
        var distance :- MateDistance(candidate);
        Ok(!(altDistance < distance * 2))
  }

  datatype Theme = Mate | Winning | Turnaround | Defensive {
    /** The name written in the `type` annotation. */
    function Name(): string {
      match this
      case Mate => "mate"
      case Winning => "winning"
      case Turnaround => "turnaround"
      case Defensive => "defensive"
    }
  }

  /**
   * `get_puzzle_theme` on the two best records; `gap` is the outcome of the win-probability gap
   * test between them, which is evaluated first (`or` skips the shortest-win test when it holds).
   */
  function GetTheme(gap: bool, candidate: Info, firstAlt: Info, win: int, unclear: int): Result<Option<Theme>> {
    var themed :- if gap then Ok(true) else IsShortestWin(candidate, firstAlt);
    if !themed then Ok(None)
    else
      var mates :- IsMate(candidate, 0);
      if mates then Ok(Some(Mate))
      else
        var winning :- HasCp(candidate, win);
        if winning then Ok(Some(Winning))
        else
          var turnaround :- HasCp(candidate, unclear);
          if turnaround then Ok(Some(Turnaround)) else Ok(Some(Defensive))
  }

  // ---------------------------------------------------------------------------
  // The same rules on decoded scores

  /** A score whose two tokens are present and whose number is an integer. */
  datatype Score = MateIn(moves: int) | Centipawns(cp: int) | OtherScore(kind: string, n: int)

  function Decode(info: Info): Option<Score> {
    if ScoreTokens(info).Err? then None
    else
      var tokens := ScoreTokens(info).value;
      if |tokens| < 2 || ParseInt(tokens[1]).None? then None
      else
        var n := ParseInt(tokens[1]).value;
        Some(if tokens[0] == "mate" then MateIn(n) else if tokens[0] == "cp" then Centipawns(n) else OtherScore(tokens[0], n))
  }

  /** A winning mate: mate in a positive number of moves. */
  predicate Mates(s: Score) {
    s.MateIn? && s.moves > 0
  }

  /** `is_mate` holds exactly for a mate score beyond the distance, so mate in 0 or less is no mate. */
  lemma IsMateSpec(info: Info, distance: int)
    requires Decode(info).Some?
    ensures IsMate(info, distance) == Ok(Decode(info).value.MateIn? && Decode(info).value.moves > distance)
  {
  }

  /** `has_cp` holds exactly for a centipawn score above the bound. */
  lemma HasCpSpec(info: Info, score: int)
    requires Decode(info).Some?
    ensures HasCp(info, score) == Ok(Decode(info).value.Centipawns? && Decode(info).value.cp > score)
  {
  }

  /** `mate_distance` is the number of a mate score, and fails its assertion on any other score. */
  lemma MateDistanceSpec(info: Info)
    requires Decode(info).Some?
    ensures MateDistance(info).Ok? <==> Decode(info).value.MateIn?
    ensures MateDistance(info).Ok? ==> MateDistance(info).value == Decode(info).value.moves
    ensures MateDistance(info).Err? ==> MateDistance(info).error == AssertionError
  {
  }

  /**
   * The candidate is the shortest win exactly when it mates and the alternative does not mate in
   * fewer than twice the candidate's moves (the factor is 2).
   */
  lemma IsShortestWinSpec(candidate: Info, firstAlt: Info)
    requires Decode(candidate).Some? && Decode(firstAlt).Some?
    ensures var c, a := Decode(candidate).value, Decode(firstAlt).value;
      IsShortestWin(candidate, firstAlt) == Ok(Mates(c) && !(Mates(a) && a.moves < c.moves * 2))
  {
    IsMateSpec(candidate, 0);
    IsMateSpec(firstAlt, 0);
    MateDistanceSpec(candidate);
    MateDistanceSpec(firstAlt);
  }

  /** The theme cascade on decoded scores. */
  function ThemeOf(themed: bool, c: Score, win: int, unclear: int): Option<Theme> {
    if !themed then None
    else if Mates(c) then Some(Mate)
    else if c.Centipawns? && c.cp > win then Some(Winning)
    else if c.Centipawns? && c.cp > unclear then Some(Turnaround)
    else Some(Defensive)
  }

  /**
   * A position is themed when the gap test or the shortest-win rule holds, and then its theme is
   * `mate` for a winning mate, else `winning` above the win threshold, else `turnaround` above the
   * unclear threshold, else `defensive`.
   */
  lemma GetThemeSpec(gap: bool, candidate: Info, firstAlt: Info, win: int, unclear: int)
    requires Decode(candidate).Some? && Decode(firstAlt).Some?
    ensures var c, a := Decode(candidate).value, Decode(firstAlt).value;
      GetTheme(gap, candidate, firstAlt, win, unclear)
      == Ok(ThemeOf(gap || (Mates(c) && !(Mates(a) && a.moves < c.moves * 2)), c, win, unclear))
  {
    IsShortestWinSpec(candidate, firstAlt);
    IsMateSpec(candidate, 0);
    HasCpSpec(candidate, win);
    HasCpSpec(candidate, unclear);
  }

  /** Reading an `eval` annotation: a leading `#` marks a mate score. */
  function ReadEval(s: string): (bool, string) {
    if |s| > 0 && s[0] == '#' then (true, s[1..]) else (false, s)
  }

  /** The `eval` annotation says whether the score is a mate and carries its number. */
  lemma FormatEvalRead(info: Info)
    requires Decode(info).Some?
    ensures FormatEval(info).Ok?
    ensures ReadEval(FormatEval(info).value) == (Decode(info).value.MateIn?, ScoreTokens(info).value[1])
  {
    var tokens := ScoreTokens(info).value;
    assert |tokens| >= 2 && ParseInt(tokens[1]).Some?;
    assert FormatEval(info) == Ok((if tokens[0] == "mate" then "#" else "") + tokens[1]);
    if |tokens[1]| > 0 && tokens[1][0] == '#' {
      ParseIntFirst(tokens[1]);
    }
    if tokens[0] == "mate" {
      assert ("#" + tokens[1])[1..] == tokens[1];
    } else {
      assert "" + tokens[1] == tokens[1];
    }
  }
  // ---------------------------------------------------------------------------
  // Asking the engine about one position

  /** What has been written to the engine, and what it has printed that is not read yet. */
  datatype Io = Io(sent: seq<string>, out: seq<string>)

  /** The floating-point figures of a puzzle, already formatted with three decimals. */
  datatype Ratings = Ratings(
    difficulty: string, content: string, quality: string, volatility: string,
    volatility2: string, accuracy: string, accuracy2: string, std: string)

  /**
   * The fixed arguments of a run and the computations done outside this model: the legal moves
   * of a position after some moves (pyffish), Python's `float` on a centipawn number, the
   * win-probability gap test between the two best records, and the ratings computed in floating
   * point from the analyses of the themed positions and the number of puzzle moves.
   */
  datatype Settings = Settings(
    depth: int, win: int, unclear: int,
    legal: (string, string, seq<string>) -> seq<string>,
    parseFloat: string -> Option<real>,
    gap: (Info, Info) -> bool,
    rate: (seq<seq<seq<Info>>>, int) -> Ratings)

  /**
   * `value(info_line, scale)` without its floating-point result: true when it returns a number
   * (`int` of a mate score's number, `float` of a centipawn score's), false when it returns None
   * (any other kind of score), or the exception it raises on the way.
   */
  function Valued(info: Info, s: Settings): (r: Result<bool>)
    ensures r.Err? ==> r.error in {KeyError, TypeError, IndexError, ValueError}
    ensures r == Ok(false) <==> ScoreKind(info).Ok? && ScoreKind(info).value != "mate" && ScoreKind(info).value != "cp"
  {
    var kind :- ScoreKind(info);
    if kind == "mate" then
      if ScoreValue(info).Err? then Err(ScoreValue(info).error) else Ok(true)
    else if kind == "cp" then
      var tokens := ScoreTokens(info).value;
      if |tokens| < 2 then Err(IndexError)
      else if s.parseFloat(tokens[1]).None? then Err(ValueError)
      else Ok(true)
    else Ok(false)
  }

  /** The commands `get_puzzle` writes once past its legal-move guard. */
  function PuzzleCommands(variant: string, fen: string, moves: seq<string>, depth: int): seq<string> {
    [SetOptionCommand("UCI_Variant", variant), "ucinewgame\n", "isready\n", PositionCommand(fen, moves),
     GoCommand([("depth", depth)])]
  }

  /** The engine output left once `newgame` has read up to `readyok`. */
  function AfterReady(out: seq<string>, exited: bool): seq<string> {
    out[ReadCount(out, exited, "readyok")..]
  }

  /**
   * `get_puzzle_theme` with the gap test's outcome supplied by the settings. The test subtracts
   * the two records' values first, which raises what `value` raises, or TypeError when either
   * value is None.
   */
  function PuzzleTheme(multipv: seq<Info>, s: Settings): Result<Option<Theme>> {
    if |multipv| < 2 then Err(IndexError)
    else
      var candidate :- Valued(multipv[0], s);
      var firstAlt :- Valued(multipv[1], s);
      if !candidate || !firstAlt then Err(TypeError)
      else GetTheme(s.gap(multipv[0], multipv[1]), multipv[0], multipv[1], s.win, s.unclear)
  }

  /**
   * `get_puzzle_theme` raises IndexError when there are fewer than two records, then what `value`
   * raises on the best record, then on the first alternative, then TypeError when either value is
   * None; on two numeric scores that decode, its answer is the theme `GetThemeSpec` describes.
   */
  lemma PuzzleThemeSpec(multipv: seq<Info>, s: Settings)
    ensures |multipv| < 2 ==> PuzzleTheme(multipv, s) == Err(IndexError)
    ensures |multipv| >= 2 && Valued(multipv[0], s).Err? ==>
      PuzzleTheme(multipv, s) == Err(Valued(multipv[0], s).error)
    ensures |multipv| >= 2 && Valued(multipv[0], s).Ok? && Valued(multipv[1], s).Err? ==>
      PuzzleTheme(multipv, s) == Err(Valued(multipv[1], s).error)
    ensures (|multipv| >= 2 && Valued(multipv[0], s).Ok? && Valued(multipv[1], s).Ok? &&
             (Valued(multipv[0], s) == Ok(false) || Valued(multipv[1], s) == Ok(false))) ==>
      PuzzleTheme(multipv, s) == Err(TypeError)
    ensures (|multipv| >= 2 && Valued(multipv[0], s) == Ok(true) && Valued(multipv[1], s) == Ok(true) &&
             Decode(multipv[0]).Some? && Decode(multipv[1]).Some?) ==>
      var c, a := Decode(multipv[0]).value, Decode(multipv[1]).value;
      PuzzleTheme(multipv, s)
      == Ok(ThemeOf(s.gap(multipv[0], multipv[1]) || (Mates(c) && !(Mates(a) && a.moves < c.moves * 2)), c, s.win, s.unclear))
  {
    if |multipv| >= 2 && Decode(multipv[0]).Some? && Decode(multipv[1]).Some? {
      GetThemeSpec(s.gap(multipv[0], multipv[1]), multipv[0], multipv[1], s.win, s.unclear);
    }
  }

  /** What `get_puzzle` makes of the result of `go`: the theme of the last depth, and the analysis. */
  function Judge(analysis: Result<Analysis>, s: Settings): (r: Result<(Option<Theme>, Option<seq<seq<Info>>>)>)
    ensures r.Ok? ==> analysis.Ok? && r.value.1 == Some(analysis.value.infos) && |analysis.value.infos| > 0
    ensures r.Ok? ==> PuzzleTheme(analysis.value.infos[|analysis.value.infos| - 1], s) == Ok(r.value.0)
    ensures r.Err? <==>
      analysis.Err? || |analysis.value.infos| == 0 || PuzzleTheme(analysis.value.infos[|analysis.value.infos| - 1], s).Err?
    ensures r.Err? && analysis.Ok? ==>
      r.error == (if |analysis.value.infos| == 0 then IndexError
                  else PuzzleTheme(analysis.value.infos[|analysis.value.infos| - 1], s).error)
    ensures Answered(r, s)
  {
    var a :- analysis;
    if |a.infos| == 0 then Err(IndexError)
    else
      var theme :- PuzzleTheme(a.infos[|a.infos| - 1], s);
      Ok((theme, Some(a.infos)))
  }

  /** A themed answer carries the analysis whose last depth has that theme. */
  predicate Answered(asked: Result<(Option<Theme>, Option<seq<seq<Info>>>)>, s: Settings) {
    asked.Ok? && asked.value.0.Some? ==> asked.value.1.Some? && Themed(asked.value.1.value, asked.value.0.value, s)
  }

  /** An analysis whose last depth's two best records have the given theme. */
  predicate Themed(info: seq<seq<Info>>, theme: Theme, s: Settings) {
    |info| > 0 && PuzzleTheme(info[|info| - 1], s) == Ok(Some(theme))
  }

  /**
   * `get_puzzle` from a given engine state: its result and the state it leaves. With at most two
   * legal moves it answers (None, None) and leaves the engine alone; otherwise a themed answer has
   * read at least one line of engine output.
   */
  function AskPuzzle(io: Io, exited: bool, variant: string, fen: string, moves: seq<string>, s: Settings)
    : (r: (Result<(Option<Theme>, Option<seq<seq<Info>>>)>, Io))
    ensures |s.legal(variant, fen, moves)| <= 2 ==> r == (Ok((None, None)), io)
    ensures r.0.Ok? && r.0.value.0.Some? ==> |r.1.out| < |io.out|
    ensures Answered(r.0, s)
  {
    if |s.legal(variant, fen, moves)| <= 2 then (Ok((None, None)), io)
    else
      var ready := AfterReady(io.out, exited);
      var lines := ReadLines(ready, exited, "bestmove");
      ReadWithin(ready, exited, "bestmove");
      assert lines == [] ==> Analyze(lines) == Ok(Analysis(None, []));
      (Judge(Analyze(lines), s), Io(io.sent + PuzzleCommands(variant, fen, moves, s.depth), ready[ReadCount(ready, exited, "bestmove")..]))
  }

  /** The engine calls of `get_puzzle`: set the variant, start a new game, set up the position and search. */
  method Consult(engine: Engine, variant: string, fen: string, moves: seq<string>, depth: int) returns (analysis: Result<Analysis>)
    modifies engine
    ensures var ready := AfterReady(old(engine.stdout), engine.exited);
      && analysis == Analyze(ReadLines(ready, engine.exited, "bestmove"))
      && engine.stdout == ready[ReadCount(ready, engine.exited, "bestmove")..]
    ensures engine.sent == old(engine.sent) + PuzzleCommands(variant, fen, moves, depth)
    ensures engine.options == old(engine.options) && engine.exited == old(engine.exited)
  {
    ghost var sent := engine.sent;
    engine.SetOption("UCI_Variant", variant);
    engine.NewGame();
    engine.Position(fen, moves);
    analysis := engine.Go([("depth", depth)]);
    FiveSent(sent, SetOptionCommand("UCI_Variant", variant), "ucinewgame\n", "isready\n", PositionCommand(fen, moves),
      GoCommand([("depth", depth)]));
  }

  lemma FiveSent<T>(sent: seq<T>, a: T, b: T, c: T, d: T, e: T)
    ensures sent + [a] + [b, c] + [d] + [e] == sent + [a, b, c, d, e]
  {
  }

  /** `get_puzzle`, driving the engine. */
  method GetPuzzle(engine: Engine, variant: string, fen: string, moves: seq<string>, s: Settings)
    returns (r: Result<(Option<Theme>, Option<seq<seq<Info>>>)>)
    modifies engine
    ensures r == AskPuzzle(Io(old(engine.sent), old(engine.stdout)), old(engine.exited), variant, fen, moves, s).0
    ensures Io(engine.sent, engine.stdout) == AskPuzzle(Io(old(engine.sent), old(engine.stdout)), old(engine.exited), variant, fen, moves, s).1
    ensures engine.options == old(engine.options) && engine.exited == old(engine.exited)
  {
    if |s.legal(variant, fen, moves)| <= 2 {
      return Ok((None, None));
    }
    var analysis := Consult(engine, variant, fen, moves, s.depth);
    r := Judge(analysis, s);
  }

  // ---------------------------------------------------------------------------
  // Following the principal variation

  /** The line followed so far: its moves, the analysis of each themed position and its theme. */
  datatype Walk = Walk(pv: seq<string>, steps: seq<seq<seq<Info>>>, types: seq<Theme>)

  /** `info[-1][0]['pv']`: the moves of the best record at the greatest depth. */
  function BestPv(info: seq<seq<Info>>): Result<seq<string>> {
    if |info| == 0 || |info[|info| - 1]| == 0 then Err(IndexError)
    else
      var best := info[|info| - 1][0];
      if "pv" !in best then Err(KeyError)
      else if best["pv"].Tokens? then Ok(best["pv"].tokens)
      else Err(TypeError)
  }

  /** `moves[:2]` */
  function FirstTwo(moves: seq<string>): seq<string> {
    if |moves| < 2 then moves else moves[..2]
  }

  /** `pv.pop()` when `pv` is not empty. */
  function Pop(pv: seq<string>): seq<string> {
    if |pv| > 0 then pv[..|pv| - 1] else pv
  }

  // ---------------------------------------------------------------------------
  // The exceptions of `rate_puzzle`

  /**
   * One pass of `rate_puzzle`'s loop over the depths, on one depth's records: reading the two
   * best records and their values, comparing the best record's move with `bestmove`, and the
   * subtractions, each of which raises TypeError on a None value. `best`, `bestScore` and
   * `bestScore2` are what the function read from the greatest depth before the loop.
   */
  function RateRow(row: seq<Info>, best: Option<string>, bestScore: bool, bestScore2: bool, s: Settings): Result<()> {
    if |row| == 0 then Err(IndexError)
    else
      var v0 :- Valued(row[0], s);
      if |row| < 2 then Err(IndexError)
      else
        var v1 :- Valued(row[1], s);
        var m :- Move(row[0]);
        if m == best && !(v0 && v1) then Err(TypeError)
        else if !(v0 && bestScore) || !(v1 && bestScore2) then Err(TypeError)
        else Ok(())
  }

  /** The loop of `rate_puzzle` over the depths, stopping at the first exception. */
  function RateRows(rows: seq<seq<Info>>, best: Option<string>, bestScore: bool, bestScore2: bool, s: Settings): Result<()> {
    if |rows| == 0 then Ok(())
    else
      var _ :- RateRow(rows[0], best, bestScore, bestScore2, s);
      RateRows(rows[1..], best, bestScore, bestScore2, s)
  }

  /**
   * `rate_puzzle(info, win_threshold)` without its floating-point results (the `rate` setting):
   * the exception it raises, if any. It reads the best move and the two best values at the
   * greatest depth, then goes through every depth.
   */
  function RateOutcome(info: seq<seq<Info>>, s: Settings): Result<()> {
    if |info| == 0 || |info[|info| - 1]| == 0 then Err(IndexError)
    else
      var last := info[|info| - 1];
      var best :- Move(last[0]);
      var bestScore :- Valued(last[0], s);
      if |last| < 2 then Err(IndexError)
      else
        var bestScore2 :- Valued(last[1], s);
        RateRows(info, best, bestScore, bestScore2, s)
  }

  /** A depth `rate_puzzle` gets through: two best records with numeric values, the best with a readable move. */
  predicate RowRateable(row: seq<Info>, s: Settings) {
    |row| >= 2 && Valued(row[0], s) == Ok(true) && Valued(row[1], s) == Ok(true) && Move(row[0]).Ok?
  }

  /** An analysis `rate_puzzle` gets through: every depth is rateable. */
  predicate Rateable(info: seq<seq<Info>>, s: Settings) {
    |info| > 0 && forall k :: 0 <= k < |info| ==> RowRateable(info[k], s)
  }

  /** The depth loop gets through exactly when every depth is rateable and the greatest depth's values are numbers. */
  lemma {:induction false} RateRowsSpec(rows: seq<seq<Info>>, best: Option<string>, bestScore: bool, bestScore2: bool, s: Settings)
    requires |rows| > 0
    ensures RateRows(rows, best, bestScore, bestScore2, s).Ok? <==>
      bestScore && bestScore2 && forall k :: 0 <= k < |rows| ==> RowRateable(rows[k], s)
    ensures RateRows(rows, best, bestScore, bestScore2, s).Err? ==>
      RateRows(rows, best, bestScore, bestScore2, s).error in {KeyError, TypeError, IndexError, ValueError}
  {
    if |rows| > 1 {
      RateRowsSpec(rows[1..], best, bestScore, bestScore2, s);
      assert forall k :: 1 <= k < |rows| ==> rows[1..][k - 1] == rows[k];
    }
  }

  /**
   * `rate_puzzle` raises nothing exactly when every depth has two best records whose scores have
   * numeric values and the best record has a readable move; otherwise it raises IndexError (a
   * depth with fewer than two records, an empty `pv` or score), KeyError (no `score`), ValueError
   * (a number that does not parse) or TypeError (a None value in a subtraction).
   */
  lemma RateOutcomeSpec(info: seq<seq<Info>>, s: Settings)
    ensures RateOutcome(info, s).Ok? <==> Rateable(info, s)
    ensures RateOutcome(info, s).Err? ==> RateOutcome(info, s).error in {KeyError, TypeError, IndexError, ValueError}
  {
    if |info| > 0 && |info[|info| - 1]| > 0 {
      var last := info[|info| - 1];
      if Move(last[0]).Ok? && Valued(last[0], s).Ok? && |last| >= 2 && Valued(last[1], s).Ok? {
        RateRowsSpec(info, Move(last[0]).value, Valued(last[0], s).value, Valued(last[1], s).value, s);
      }
    }
  }

  /** `rate_puzzle`'s loop, with its floating-point accumulators left to the `rate` setting. */
  method RatePuzzle(info: seq<seq<Info>>, s: Settings) returns (r: Result<()>)
    ensures r == RateOutcome(info, s)
  {
    if |info| == 0 || |info[|info| - 1]| == 0 {
      return Err(IndexError);
    }
    var last := info[|info| - 1];
    var best := Move(last[0]);
    if best.Err? {
      return Err(best.error);
    }
    var bestScore := Valued(last[0], s);
    if bestScore.Err? {
      return Err(bestScore.error);
    }
    if |last| < 2 {
      return Err(IndexError);
    }
    var bestScore2 := Valued(last[1], s);
    if bestScore2.Err? {
      return Err(bestScore2.error);
    }
    r := RateDepths(info, best.value, bestScore.value, bestScore2.value, s);
  }

  /** The `for multiinf in info` loop of `rate_puzzle`, stopping at the first exception. */
  method RateDepths(info: seq<seq<Info>>, best: Option<string>, bestScore: bool, bestScore2: bool, s: Settings)
    returns (r: Result<()>)
    ensures r == RateRows(info, best, bestScore, bestScore2, s)
  {
    ghost var all := RateRows(info, best, bestScore, bestScore2, s);
    var i := 0;
    assert info[i..] == info;
    while i < |info|
      invariant i <= |info|
      invariant RateRows(info[i..], best, bestScore, bestScore2, s) == all
    {
      assert info[i..][1..] == info[i + 1..];
      var row := RateRow(info[i], best, bestScore, bestScore2, s);
      if row.Err? {
        return Err(row.error);
      }
      i := i + 1;
    }
    return Ok(());
  }

  // ---------------------------------------------------------------------------
  // The walk

  /** What one answer of `get_puzzle` does to the walk: stop with a result, or go on with a longer walk. */
  datatype Next = Done(result: Result<Walk>) | More(walk: Walk)

  /**
   * One pass of the `while True` loop of `generate_puzzles` after `get_puzzle` answered: without
   * a theme, take back the last move and stop; with one, rate the position (which may raise),
   * record it and add the first two moves of the best line, and stop when that line has fewer
   * than two moves.
   */
  function Advance(w: Walk, asked: Result<(Option<Theme>, Option<seq<seq<Info>>>)>, s: Settings): (r: Next)
    ensures r.More? ==> asked.Ok? && asked.value.0.Some? && asked.value.1.Some?
    ensures r.More? ==> RateOutcome(asked.value.1.value, s).Ok?
    ensures r.More? ==> |r.walk.steps| == |w.steps| + 1 && |r.walk.types| == |w.types| + 1
  {
    if asked.Err? then Done(Err(asked.error))
    else if asked.value.0.None? then Done(Ok(w.(pv := Pop(w.pv))))
    else if asked.value.1.None? then Done(Err(TypeError))
    else
      var info := asked.value.1.value;
      match RateOutcome(info, s)
      case Err(e) => Done(Err(e))
      case Ok(_) =>
      match BestPv(info)
      case Err(e) => Done(Err(e))
      case Ok(moves) =>
        var grown := Walk(w.pv + FirstTwo(moves), w.steps + [info], w.types + [asked.value.0.value]);
        if |moves| < 2 then Done(Ok(grown)) else More(grown)
  }

  /** The whole loop from a given engine state and walk: the walk it ends with and the state it leaves. */
  function Follow(io: Io, exited: bool, variant: string, fen: string, w: Walk, s: Settings): (Result<Walk>, Io)
    decreases |io.out|
  {
    var (asked, next) := AskPuzzle(io, exited, variant, fen, w.pv, s);
    match Advance(w, asked, s)
    case Done(r) => (r, next)
    case More(grown) => Follow(next, exited, variant, fen, grown, s)
  }

  /** The loop itself, driving the engine. */
  method Extract(engine: Engine, variant: string, fen: string, seed: seq<string>, s: Settings) returns (r: Result<Walk>)
    modifies engine
    ensures (r, Io(engine.sent, engine.stdout)) == Follow(Io(old(engine.sent), old(engine.stdout)), engine.exited, variant, fen, Walk(seed, [], []), s)
    ensures engine.options == old(engine.options) && engine.exited == old(engine.exited)
  {
    var pv, steps, types := seed, [], [];
    while true
      invariant engine.options == old(engine.options) && engine.exited == old(engine.exited)
      invariant Follow(Io(engine.sent, engine.stdout), engine.exited, variant, fen, Walk(pv, steps, types), s)
        == Follow(Io(old(engine.sent), old(engine.stdout)), engine.exited, variant, fen, Walk(seed, [], []), s)
      decreases |engine.stdout|
    {
      var asked := GetPuzzle(engine, variant, fen, pv, s);
      if asked.Err? {
        return Err(asked.error);
      }
      var theme, info := asked.value.0, asked.value.1;
      if theme.None? {
        if |pv| > 0 {
          pv := pv[..|pv| - 1];
        }
        return Ok(Walk(pv, steps, types));
      }
      var rated := RatePuzzle(info.value, s);
      if rated.Err? {
        return Err(rated.error);
      }
      var moves := BestPv(info.value);
      if moves.Err? {
        return Err(moves.error);
      }
      pv := pv + FirstTwo(moves.value);
      steps := steps + [info.value];
      types := types + [theme.value];
      if |moves.value| < 2 {
        return Ok(Walk(pv, steps, types));
      }
    }
  }
  /** The moves of a themed position's best line, none when they cannot be read. */
  function MovesOf(info: seq<seq<Info>>): seq<string> {
    match BestPv(info)
    case Ok(moves) => moves
    case Err(_) => []
  }

  /** The moves a sequence of themed positions adds to the line: two from each best line. */
  function Chunks(steps: seq<seq<seq<Info>>>): seq<string> {
    if |steps| == 0 then [] else FirstTwo(MovesOf(steps[0])) + Chunks(steps[1..])
  }

  /** Each themed position adds at most two moves. */
  lemma {:induction false} ChunksBound(steps: seq<seq<seq<Info>>>)
    ensures |Chunks(steps)| <= 2 * |steps|
  {
    if |steps| > 0 {
      ChunksBound(steps[1..]);
    }
  }

  /**
   * What following the line does to a walk: it only appends themed positions, each with its
   * theme and with a readable best line; it appends the first two moves of each best line; every
   * best line but the last has at least two moves; and it ends either because the last best line
   * had fewer than two moves or because a position had no theme, and then exactly one move (if
   * any) is taken back.
   */
  predicate Extends(w: Walk, v: Walk, s: Settings) {
    Prefixes(w, v) && ThemedFrom(w, v, s) && LongLines(w, v) && PvGrowth(w, v)
  }

  /** The steps and themes of `w` are where `v` starts. */
  predicate Prefixes(w: Walk, v: Walk) {
    && |w.steps| <= |v.steps| && |v.types| == |v.steps| && |w.types| == |w.steps|
    && v.steps[..|w.steps|] == w.steps && v.types[..|w.types|] == w.types
  }

  /** Each step `v` adds has the theme recorded beside it, was rated without an exception and has a readable best line. */
  predicate ThemedFrom(w: Walk, v: Walk, s: Settings) {
    forall j :: |w.steps| <= j < |v.steps| && j < |v.types| ==>
      Themed(v.steps[j], v.types[j], s) && RateOutcome(v.steps[j], s).Ok? && BestPv(v.steps[j]).Ok?
  }

  /** Each step `v` adds, but the last, has a best line of at least two moves. */
  predicate LongLines(w: Walk, v: Walk) {
    forall j :: |w.steps| <= j < |v.steps| - 1 ==> |MovesOf(v.steps[j])| >= 2
  }

  /** The moves of `v`: those of `w` and two from each added step, less one when a position had no theme. */
  predicate PvGrowth(w: Walk, v: Walk) {
    |w.steps| <= |v.steps| &&
    var added := v.steps[|w.steps|..];
    || (|added| > 0 && |MovesOf(added[|added| - 1])| < 2 && v.pv == w.pv + Chunks(added))
    || ((|added| == 0 || |MovesOf(added[|added| - 1])| >= 2) && v.pv == Pop(w.pv + Chunks(added)))
  }

  /** Prefixes through one more step. */
  lemma PrefixesStep(w: Walk, grown: Walk, v: Walk, info: seq<seq<Info>>, theme: Theme)
    requires |w.types| == |w.steps| && grown.steps == w.steps + [info] && grown.types == w.types + [theme]
    requires Prefixes(grown, v)
    ensures Prefixes(w, v) && v.steps[|w.steps|] == info && v.types[|w.types|] == theme
  {
    assert v.steps[..|w.steps|] == v.steps[..|grown.steps|][..|w.steps|];
    assert v.types[..|w.types|] == v.types[..|grown.types|][..|w.types|];
    assert v.steps[..|grown.steps|][|w.steps|] == info;
    assert v.types[..|grown.types|][|w.types|] == theme;
  }

  /** PvGrowth through one more step. */
  lemma PvGrowthStep(w: Walk, grown: Walk, v: Walk, info: seq<seq<Info>>)
    requires grown.steps == w.steps + [info] && grown.pv == w.pv + FirstTwo(MovesOf(info)) && |MovesOf(info)| >= 2
    requires |grown.steps| <= |v.steps| && v.steps[|w.steps|] == info
    requires PvGrowth(grown, v)
    ensures PvGrowth(w, v)
  {
    var added, later := v.steps[|w.steps|..], v.steps[|grown.steps|..];
    assert added[0] == info;
    assert added[1..] == later;
    assert Chunks(added) == FirstTwo(MovesOf(info)) + Chunks(later);
    assert w.pv + Chunks(added) == grown.pv + Chunks(later);
    if |later| > 0 {
      assert added[|added| - 1] == later[|later| - 1];
    }
  }

  /** A walk that one answer ends extends the walk it started from. */
  lemma AdvanceDone(w: Walk, asked: Result<(Option<Theme>, Option<seq<seq<Info>>>)>, s: Settings)
    requires |w.types| == |w.steps| && Answered(asked, s)
    requires Advance(w, asked, s).Done? && Advance(w, asked, s).result.Ok?
    ensures Extends(w, Advance(w, asked, s).result.value, s)
  {
    var v := Advance(w, asked, s).result.value;
    if asked.value.0.Some? {
      var info := asked.value.1.value;
      assert v.steps[|w.steps|..] == [info];
      assert Chunks([info]) == FirstTwo(MovesOf(info)) + Chunks([]);
    } else {
      assert v.steps[|w.steps|..] == [];
    }
  }

  /** A walk that extends the walk one answer continues with extends the walk before the answer. */
  lemma AdvanceMore(w: Walk, asked: Result<(Option<Theme>, Option<seq<seq<Info>>>)>, v: Walk, s: Settings)
    requires |w.types| == |w.steps| && Answered(asked, s)
    requires Advance(w, asked, s).More? && Extends(Advance(w, asked, s).walk, v, s)
    ensures Extends(w, v, s)
  {
    var grown := Advance(w, asked, s).walk;
    var info, theme := asked.value.1.value, asked.value.0.value;
    PrefixesStep(w, grown, v, info, theme);
    assert Themed(info, theme, s) && |BestPv(info).value| >= 2;
    forall j | |w.steps| <= j < |v.steps| && j < |v.types|
      ensures Themed(v.steps[j], v.types[j], s) && RateOutcome(v.steps[j], s).Ok? && BestPv(v.steps[j]).Ok?
    {
      if j == |w.steps| {
        assert v.steps[j] == info && v.types[j] == theme;
      } else {
        assert |grown.steps| <= j < |v.steps| && j < |v.types|;
      }
    }
    forall j | |w.steps| <= j < |v.steps| - 1
      ensures |MovesOf(v.steps[j])| >= 2
    {
      if j == |w.steps| {
        assert v.steps[j] == info;
      } else {
        assert |grown.steps| <= j < |v.steps| - 1;
      }
    }
    PvGrowthStep(w, grown, v, info);
  }

  /** Following the line from a walk yields, when it succeeds, a walk that extends it. */
  lemma {:induction false} FollowSpec(io: Io, exited: bool, variant: string, fen: string, w: Walk, s: Settings)
    requires |w.types| == |w.steps|
    ensures var r := Follow(io, exited, variant, fen, w, s).0;
      r.Ok? ==> Extends(w, r.value, s)
    decreases |io.out|
  {
    var step := AskPuzzle(io, exited, variant, fen, w.pv, s);
    if Advance(w, step.0, s).More? {
      assert |step.1.out| < |io.out|;
      FollowSpec(step.1, exited, variant, fen, Advance(w, step.0, s).walk, s);
    }
    FollowStep(io, exited, variant, fen, w, s);
  }

  /** One pass of the loop keeps the walk an extension, given that the rest of the loop does. */
  lemma FollowStep(io: Io, exited: bool, variant: string, fen: string, w: Walk, s: Settings)
    requires |w.types| == |w.steps|
    requires var step := AskPuzzle(io, exited, variant, fen, w.pv, s);
      Advance(w, step.0, s).More? ==>
        var r := Follow(step.1, exited, variant, fen, Advance(w, step.0, s).walk, s).0;
        r.Ok? ==> Extends(Advance(w, step.0, s).walk, r.value, s)
    ensures var r := Follow(io, exited, variant, fen, w, s).0;
      r.Ok? ==> Extends(w, r.value, s)
  {
    var (asked, next) := AskPuzzle(io, exited, variant, fen, w.pv, s);
    var a := Advance(w, asked, s);
    if a.More? {
      var r := Follow(next, exited, variant, fen, a.walk, s).0;
      if r.Ok? {
        AdvanceMore(w, asked, r.value, s);
      }
    } else if a.result.Ok? {
      AdvanceDone(w, asked, s);
    }
  }

  /**
   * When a walk from the seed ends past the seed, its moves start with the seed, and its first
   * move after the seed is the first move of the best line in the first themed position.
   */
  lemma ExtendsSeed(seed: seq<string>, v: Walk, s: Settings)
    requires Extends(Walk(seed, [], []), v, s) && |v.pv| > |seed|
    ensures |v.steps| > 0 && |v.types| > 0 && Themed(v.steps[0], v.types[0], s)
    ensures v.pv[..|seed|] == seed
    ensures |MovesOf(v.steps[0])| > 0 && v.pv[|seed|] == MovesOf(v.steps[0])[0]
  {
    assert v.steps[0..] == v.steps;
    var chunks := Chunks(v.steps);
    assert |chunks| > 0;
    var first := FirstTwo(MovesOf(v.steps[0]));
    assert chunks == first + Chunks(v.steps[1..]);
    if |v.steps| > 1 {
      assert |MovesOf(v.steps[0])| >= 2;
    } else {
      assert v.steps[1..] == [];
    }
    assert |first| > 0;
    assert (seed + chunks)[|seed|] == first[0];
  }

  // ---------------------------------------------------------------------------
  // One input line

  const NoVariant := "Variant neither provided in EPD nor as argument"

  /** The `sm` annotation opens the line when it is a legal move of the position. */
  function Seed(annotations: Annotations, variant: string, fen: string, s: Settings): (r: seq<string>)
    ensures |r| <= 1
    ensures r != [] <==> Get(annotations, "sm").Some? && Get(annotations, "sm").value in s.legal(variant, fen, [])
    ensures r != [] ==> r[0] == Get(annotations, "sm").value
  {
    match Get(annotations, "sm")
    case Some(sm) => if sm in s.legal(variant, fen, []) then [sm] else []
    case None => []
  }

  /** The annotations the output record sets, in the order they are set. */
  function Updates(variant: string, stm: nat, pv: seq<string>, eval: string, ratings: Ratings, theme: Theme): seq<(string, string)>
    requires stm < |pv|
  {
    [("variant", variant)] + (if stm == 1 then [("sm", pv[0])] else [])
    + [("bm", pv[stm]), ("eval", eval),
       ("difficulty", ratings.difficulty), ("content", ratings.content), ("quality", ratings.quality),
       ("volatility", ratings.volatility), ("volatility2", ratings.volatility2),
       ("accuracy", ratings.accuracy), ("accuracy2", ratings.accuracy2), ("std", ratings.std),
       ("type", theme.Name()), ("pv", Join(pv, ","))]
  }

  /** `evals[0]`: the best record at the greatest depth of the first themed position. */
  function FirstEval(w: Walk): Result<Info> {
    if |w.steps| == 0 then Err(IndexError)
    else
      var info := w.steps[0];
      if |info| == 0 || |info[|info| - 1]| == 0 then Err(IndexError) else Ok(info[|info| - 1][0])
  }

  /** The output record of a line whose walk went past the side-to-move index. */
  function Emit(rec: Record, variant: string, stm: nat, w: Walk, s: Settings): Result<Record>
    requires stm < |w.pv|
  {
    if |w.steps| == 0 || |w.types| == 0 then Err(IndexError)
    else
      var best :- FirstEval(w);
      var eval :- FormatEval(best);
      var updates := Updates(variant, stm, w.pv, eval, s.rate(w.steps, |w.pv| - stm), w.types[0]);
      Ok(Record(rec.fen, PutAll(rec.annotations, updates)))
  }

  /** The annotations an output record sets. */
  const OutputKeys: set<string> := {"variant", "sm", "bm", "eval", "difficulty", "content", "quality",
    "volatility", "volatility2", "accuracy", "accuracy2", "std", "type", "pv"}

  /** The position of the `bm` update: after `variant`, and after `sm` when the line was seeded. */
  function Shift(stm: nat): nat {
    if stm == 1 then 1 else 0
  }

  /** An update that no later update overrides is what the output record holds for its key. */
  lemma EmitUpdate(rec: Record, variant: string, stm: nat, w: Walk, s: Settings, i: nat)
    requires stm < |w.pv| && Emit(rec, variant, stm, w, s).Ok?
    requires var updates := EmitUpdates(variant, stm, w, s);
      i < |updates| && forall j :: i < j < |updates| ==> updates[j].0 != updates[i].0
    ensures var updates := EmitUpdates(variant, stm, w, s);
      Get(Emit(rec, variant, stm, w, s).value.annotations, updates[i].0) == Some(updates[i].1)
  {
    var updates := EmitUpdates(variant, stm, w, s);
    PutAllSpec(rec.annotations, updates);
    LastValueAt(updates, i);
  }

  /** Every update sets one of the output keys, and `sm` only when the line was seeded. */
  lemma UpdateKeys(variant: string, stm: nat, pv: seq<string>, eval: string, ratings: Ratings, theme: Theme)
    requires stm < |pv|
    ensures var updates := Updates(variant, stm, pv, eval, ratings, theme);
      forall j :: 0 <= j < |updates| ==> updates[j].0 in OutputKeys && (updates[j].0 == "sm" ==> stm == 1)
  {
  }

  /** The updates Emit applies, with the ratings it asks for. */
  function EmitUpdates(variant: string, stm: nat, w: Walk, s: Settings): seq<(string, string)>
    requires stm < |w.pv| && |w.types| > 0 && FirstEval(w).Ok? && FormatEval(FirstEval(w).value).Ok?
  {
    Updates(variant, stm, w.pv, FormatEval(FirstEval(w).value).value, s.rate(w.steps, |w.pv| - stm), w.types[0])
  }

  /** The output record keeps the input's FEN and sets `variant` to the variant the line was analysed in. */
  lemma EmitVariant(rec: Record, variant: string, stm: nat, w: Walk, s: Settings)
    requires stm < |w.pv| && Emit(rec, variant, stm, w, s).Ok?
    ensures var out := Emit(rec, variant, stm, w, s).value;
      out.fen == rec.fen && Get(out.annotations, "variant") == Some(variant)
  {
    assert EmitUpdates(variant, stm, w, s)[0].0 == "variant";
    EmitUpdate(rec, variant, stm, w, s, 0);
  }

  /** The output record's `bm` is the first move after the seed. */
  lemma EmitBest(rec: Record, variant: string, stm: nat, w: Walk, s: Settings)
    requires stm < |w.pv| && Emit(rec, variant, stm, w, s).Ok?
    ensures Get(Emit(rec, variant, stm, w, s).value.annotations, "bm") == Some(w.pv[stm])
  {
    var o := Shift(stm);
    assert EmitUpdates(variant, stm, w, s)[1 + o].0 == "bm";
    EmitUpdate(rec, variant, stm, w, s, 1 + o);
  }

  /** A seeded line records its seed move as `sm`. */
  lemma EmitSeeded(rec: Record, variant: string, w: Walk, s: Settings)
    requires 1 < |w.pv| && Emit(rec, variant, 1, w, s).Ok?
    ensures Get(Emit(rec, variant, 1, w, s).value.annotations, "sm") == Some(w.pv[0])
  {
    assert EmitUpdates(variant, 1, w, s)[1].0 == "sm";
    EmitUpdate(rec, variant, 1, w, s, 1);
  }

  /**
   * The output record's `eval` is the formatted score of the first themed position, `type` is
   * that position's theme and `pv` the whole line joined with commas.
   */
  lemma EmitVerdict(rec: Record, variant: string, stm: nat, w: Walk, s: Settings)
    requires stm < |w.pv| && Emit(rec, variant, stm, w, s).Ok?
    ensures var out := Emit(rec, variant, stm, w, s).value;
      && Get(out.annotations, "eval") == Some(FormatEval(FirstEval(w).value).value)
      && Get(out.annotations, "type") == Some(w.types[0].Name())
      && Get(out.annotations, "pv") == Some(Join(w.pv, ","))
  {
    var updates := EmitUpdates(variant, stm, w, s);
    var o := Shift(stm);
    assert updates[2 + o].0 == "eval" && updates[11 + o].0 == "type" && updates[12 + o].0 == "pv";
    EmitUpdate(rec, variant, stm, w, s, 2 + o);
    EmitUpdate(rec, variant, stm, w, s, 11 + o);
    EmitUpdate(rec, variant, stm, w, s, 12 + o);
  }

  /** Every other annotation of the input, `sm` included when the line was not seeded, is kept. */
  lemma EmitKeeps(rec: Record, variant: string, stm: nat, w: Walk, s: Settings, k: string)
    requires stm < |w.pv| && Emit(rec, variant, stm, w, s).Ok?
    requires k !in OutputKeys || (k == "sm" && stm != 1)
    ensures Get(Emit(rec, variant, stm, w, s).value.annotations, k) == Get(rec.annotations, k)
  {
    var eval := FormatEval(FirstEval(w).value).value;
    var ratings := s.rate(w.steps, |w.pv| - stm);
    var updates := Updates(variant, stm, w.pv, eval, ratings, w.types[0]);
    assert Emit(rec, variant, stm, w, s) == Ok(Record(rec.fen, PutAll(rec.annotations, updates)));
    assert forall j :: 0 <= j < |updates| ==> updates[j].0 != k by {
      UpdateKeys(variant, stm, w.pv, eval, ratings, w.types[0]);
    }
    PutAllSpec(rec.annotations, updates);
    LastValueAbsent(updates, k);
  }

  /**
   * The body of the `for epd in instream` loop from a given engine state: the line written for the
   * input line, if any, and the state it leaves.
   */
  function PuzzleLine(io: Io, exited: bool, line: string, variant: string, s: Settings): (Result<Option<string>>, Io) {
    match ParseRecord(line)
    case Err(e) => (Err(e), io)
    case Ok(rec) =>
      var current := Get(rec.annotations, "variant").GetOr(variant);
      if current == "" then (Err(Raised(NoVariant)), io)
      else
        var seed := Seed(rec.annotations, current, rec.fen, s);
        var (walk, next) := Follow(io, exited, current, rec.fen, Walk(seed, [], []), s);
        if walk.Err? then (Err(walk.error), next)
        else if |walk.value.pv| <= |seed| then (Ok(None), next)
        else
          match Emit(rec, current, |seed|, walk.value, s)
          case Err(e) => (Err(e), next)
          case Ok(out) => (Ok(Some(FormatRecord(out))), next)
  }

  method GeneratePuzzle(engine: Engine, line: string, variant: string, s: Settings) returns (r: Result<Option<string>>)
    modifies engine
    ensures r == PuzzleLine(Io(old(engine.sent), old(engine.stdout)), old(engine.exited), line, variant, s).0
    ensures Io(engine.sent, engine.stdout) == PuzzleLine(Io(old(engine.sent), old(engine.stdout)), old(engine.exited), line, variant, s).1
    ensures engine.options == old(engine.options) && engine.exited == old(engine.exited)
  {
    var parsed := ParseRecord(line);
    if parsed.Err? {
      return Err(parsed.error);
    }
    var rec := parsed.value;
    var current := Get(rec.annotations, "variant").GetOr(variant);
    if current == "" {
      return Err(Raised(NoVariant));
    }
    var pv := Seed(rec.annotations, current, rec.fen, s);
    var walk := Extract(engine, current, rec.fen, pv, s);
    if walk.Err? {
      return Err(walk.error);
    }
    if |walk.value.pv| <= |pv| {
      return Ok(None);
    }
    var out := Emit(rec, current, |pv|, walk.value, s);
    if out.Err? {
      return Err(out.error);
    }
    return Ok(Some(FormatRecord(out.value)));
  }

  // ---------------------------------------------------------------------------
  // The whole input

  /** A line whose variant is neither annotated nor given is an error, and the engine is not consulted. */
  lemma PuzzleLineNoVariant(io: Io, exited: bool, line: string, variant: string, s: Settings)
    requires ParseRecord(line).Ok? && Get(ParseRecord(line).value.annotations, "variant").GetOr(variant) == ""
    ensures PuzzleLine(io, exited, line, variant, s) == (Err(Raised(NoVariant)), io)
  {
  }

  /**
   * A written puzzle: its line starts with the (legal) seed move, its first analysed position has
   * a theme, `bm` is the engine's best move there and `type` names that theme.
   */
  lemma PuzzleLineWritten(io: Io, exited: bool, line: string, variant: string, s: Settings)
    requires PuzzleLine(io, exited, line, variant, s).0.Ok? && PuzzleLine(io, exited, line, variant, s).0.value.Some?
    ensures ParseRecord(line).Ok?
    ensures var rec := ParseRecord(line).value;
      var current := Get(rec.annotations, "variant").GetOr(variant);
      var seed := Seed(rec.annotations, current, rec.fen, s);
      var walk := Follow(io, exited, current, rec.fen, Walk(seed, [], []), s).0;
      && current != "" && walk.Ok? && |walk.value.pv| > |seed|
      && walk.value.pv[..|seed|] == seed
      && |walk.value.steps| > 0 && |walk.value.types| > 0 && Themed(walk.value.steps[0], walk.value.types[0], s)
      && Emit(rec, current, |seed|, walk.value, s).Ok?
      && PuzzleLine(io, exited, line, variant, s).0.value.value == FormatRecord(Emit(rec, current, |seed|, walk.value, s).value)
      && |MovesOf(walk.value.steps[0])| > 0
      && Get(Emit(rec, current, |seed|, walk.value, s).value.annotations, "bm") == Some(MovesOf(walk.value.steps[0])[0])
      && Get(Emit(rec, current, |seed|, walk.value, s).value.annotations, "type") == Some(walk.value.types[0].Name())
  {
    var rec := ParseRecord(line).value;
    var current := Get(rec.annotations, "variant").GetOr(variant);
    var seed := Seed(rec.annotations, current, rec.fen, s);
    var walk := Follow(io, exited, current, rec.fen, Walk(seed, [], []), s).0.value;
    FollowSpec(io, exited, current, rec.fen, Walk(seed, [], []), s);
    ExtendsSeed(seed, walk, s);
    EmitBest(rec, current, |seed|, walk, s);
    EmitVerdict(rec, current, |seed|, walk, s);
  }

  /**
   * `generate_puzzles` from a given engine state and output so far: the lines written, the
   * exception that ended the run if one did, and the engine state left.
   */
  function Generate(io: Io, exited: bool, lines: seq<string>, variant: string, s: Settings, written: seq<string>)
    : (seq<string>, Option<Exception>, Io)
    decreases |lines|
  {
    if |lines| == 0 then (written, None, io)
    else
      var (r, next) := PuzzleLine(io, exited, lines[0], variant, s);
      if r.Err? then (written, Some(r.error), next)
      else Generate(next, exited, lines[1..], variant, s, written + if r.value.Some? then [r.value.value] else [])
  }

  method GeneratePuzzles(engine: Engine, lines: seq<string>, variant: string, s: Settings)
    returns (written: seq<string>, failure: Option<Exception>)
    modifies engine
    ensures written == Generate(Io(old(engine.sent), old(engine.stdout)), old(engine.exited), lines, variant, s, []).0
    ensures failure == Generate(Io(old(engine.sent), old(engine.stdout)), old(engine.exited), lines, variant, s, []).1
    ensures Io(engine.sent, engine.stdout) == Generate(Io(old(engine.sent), old(engine.stdout)), old(engine.exited), lines, variant, s, []).2
    ensures engine.options == old(engine.options) && engine.exited == old(engine.exited)
  {
    ghost var all := Generate(Io(engine.sent, engine.stdout), engine.exited, lines, variant, s, []);
    written := [];
    var i := 0;
    assert lines[i..] == lines;
    while i < |lines|
      invariant i <= |lines|
      invariant engine.options == old(engine.options) && engine.exited == old(engine.exited)
      invariant Generate(Io(engine.sent, engine.stdout), engine.exited, lines[i..], variant, s, written) == all
    {
      ghost var step := PuzzleLine(Io(engine.sent, engine.stdout), engine.exited, lines[i], variant, s);
      GenerateNext(Io(engine.sent, engine.stdout), engine.exited, lines, i, variant, s, written);
      var r := GeneratePuzzle(engine, lines[i], variant, s);
      assert r == step.0 && Io(engine.sent, engine.stdout) == step.1;
      if r.Err? {
        return written, Some(r.error);
      }
      written := written + if r.value.Some? then [r.value.value] else [];
      i := i + 1;
    }
    return written, None;
  }

  /** One more line of `generate_puzzles`. */
  lemma GenerateNext(io: Io, exited: bool, lines: seq<string>, i: nat, variant: string, s: Settings, written: seq<string>)
    requires i < |lines|
    ensures var step := PuzzleLine(io, exited, lines[i], variant, s);
      Generate(io, exited, lines[i..], variant, s, written) ==
        if step.0.Err? then (written, Some(step.0.error), step.1)
        else Generate(step.1, exited, lines[i + 1..], variant, s, written + if step.0.value.Some? then [step.0.value.value] else [])
  {
    assert lines[i..][0] == lines[i] && lines[i..][1..] == lines[i + 1..];
  }
}
