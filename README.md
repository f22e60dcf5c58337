# chess-variant-puzzler, modelled in Dafny

chess-variant-puzzler finds tactical puzzles for chess variants. It asks a UCI engine
(Fairy-Stockfish) about positions and keeps the ones where one move clearly stands out. It then
filters, deduplicates and converts the resulting EPD files (`fen;key value;key value...`) into
PGN or KIF. This project models the deterministic core of those tools and proves properties of
it:

- `Uci` (uci.dfy): the engine client. It models:
  - the `setoption`, `position` and `go` command lines, and how the engine reads them back;
  - `read`, which returns a prefix of the output up to a keyword line;
  - the `info`-line tokenizer;
  - the grouping of records by depth and multipv, and the sorting of both levels.

  The engine process is a class. Its fields are what was written to its input, the lines it
  will still print, and whether it has exited.
- `Puzzler` (puzzler.dfy):
  - the score predicates (`is_mate`, `has_cp`, `mate_distance`, `is_shortest_win`);
  - the theme cascade;
  - the exceptions `value` and `rate_puzzle` raise;
  - `get_puzzle` with its legal-move guard;
  - the `generate_puzzles` loop, which follows the principal variation while the position
    stays themed;
  - the output record it writes.
- `Kif` (kif.py → kif.dfy):
  - the Fairy-Stockfish → USI square and move conversion on an N×N board;
  - the shogi-variant test;
  - the per-line logic of `epd_to_kif`, with the `start_sfen` binding it carries from line to line.
- `Deduplicate` (deduplicate.dfy):
  - the sort key and the sort;
  - the anchored LAN pattern;
  - `fen_to_square_map`;
  - the board and move similarities, over `real`;
  - the keep-if-not-similar-and-pattern-unseen selection loop.
- `Filter` (filter.dfy): the `filter` predicate and the `filter_puzzles` stream loop.
- `Pgn2Epd` (pgn2epd.dfy): the `PrintAllFensVisitor` callbacks as a class, and the counting loop
  of `write_fens`.
- `Pgn` (pgn.dfy): the PGN header and the `N.` / `N...` move-number rule of `epd_to_pgn`.
- Shared modules:
  - `Wrappers`: Option, Result, and Python's exceptions as values;
  - `Strings`: `split`, `split()`, `join`, `strip`, `int`, `str`, and ASCII case mapping;
  - `Dicts`: a Python dict as an insertion-ordered list of pairs;
  - `Epd`: the record line format shared by every tool.

Foreign code becomes parameters:
- pyffish: `legal_moves`, `get_fen`, `get_san_moves`, `start_fen`, `variants`;
- python-chess: `read_game` as the sequence of callbacks it makes, and `find_variant`;
- python-shogi: the SFEN parser, `push_usi`, and the KIF exporter;
- Python's `float`;
- the floating-point ratings of a puzzle and the sigmoid gap test of `get_puzzle_theme`.

Python exceptions are `Err` values: IndexError, KeyError, ValueError, TypeError, AssertionError,
NameError, ZeroDivisionError, or a raised message. Each statement loop that writes output, drives
the engine or builds a value step by step is a `method` with a `while` loop. It is proved equal to
a function, and the properties are lemmas about that function. The three `for` loops of `filter`
(filter.py:16-24) only decide a boolean and are the recursive functions `Filter.BelowMin`,
`Filter.AboveMax` and `Filter.NotAllowed`; list and dict comprehensions are functions too.

## Model

| member | source | states |
|---|---|---|
| Uci.LimitItems | uci.py:39 | The `go` arguments flattened to key, `str(value)`, key, `str(value)`, in order, two items per limit |
| Uci.SetOptionRead | uci.py:19-20 | The engine reads a `setoption` line as `setoption`, `name`, the name's words, `value`, the value's words |
| Uci.SetOptionOneLine | uci.py:20 | A name and a value without newlines make exactly one command line |
| Uci.PositionPartWords | uci.py:34 | The position part reads as `fen` and the FEN's words for a non-empty FEN, `startpos` otherwise |
| Uci.MovesPartWords | uci.py:35 | The moves part reads as `moves` and the moves for a non-empty list, and as nothing for an empty one |
| Uci.PositionRead | uci.py:33-36 | A `position` line reads as `position`, then `fen <fields>` or `startpos`, then `moves m1 … mk` only when there are moves |
| Uci.LimitItemsAreWords | uci.py:39 | Every item of the `go` line is a single word when the keys are |
| Uci.GoRead | uci.py:38-39 | A `go` line reads as `go` and the limit items in order, and each value read back with `int` is the number sent |
| Uci.DecodeLimitItems | uci.py:39 | Decoding the flattened items gives back each key paired with its number |
| Uci.Convert | uci.py:58-60 | A list keyword keeps its tokens; a scalar keyword's value is `int` of its first token |
| Uci.ConvertOutcome | uci.py:58-60 | A group converts exactly when its keyword is a list keyword or its first token is an integer; an empty scalar group fails with TypeError (`int([])`), a non-integer first token with ValueError |
| Uci.NextKeyword | uci.py:56 | The first keyword at or after `i`, with no keyword before it |
| Uci.ParseInfo | uci.py:52-64 | The tokenizer loop computes the tokenizer function `Tokenize` |
| Uci.TokenizeValues | uci.py:42-43 | Every stored key is a keyword, and it holds a token list exactly when it is a list keyword |
| Uci.TokenizeSpec | uci.py:55-64 | The stored keys are exactly the keywords that occur; each holds the conversion of the tokens after its last occurrence, up to the next keyword |
| Uci.TokenizeDropsPrefix | uci.py:55-64 | Tokens before the first keyword do not change the record |
| Uci.Store | uci.py:65 | After storing, the record is found under its depth and its multipv, which defaults to 1 |
| Uci.StoreOthers | uci.py:65 | Storing leaves every other (depth, multipv) entry unchanged |
| Uci.StoreDistinct | uci.py:65 | Storing keeps the depths, and the multipvs of each depth, distinct |
| Uci.Insert | uci.py:66 | Inserting into an ascending list gives an ascending permutation of the list plus the element |
| Uci.SortInts | uci.py:66 | `sorted` of distinct integers: ascending, and a permutation of its input |
| Uci.DepthOrder | uci.py:66 | `sorted(infos.keys())` raises TypeError exactly when a None depth sits beside another depth; otherwise it gives the same depths, strictly ascending |
| Uci.Row | uci.py:66 | A depth's row lists the record of each multipv in ascending multipv order |
| Uci.Rows | uci.py:66 | One row per depth of the order, each the sorted row of that depth |
| Uci.Materialize | uci.py:66 | The nested list fails with TypeError exactly when the depths cannot be sorted; otherwise it has one row per depth |
| Uci.GatherWellFormed | uci.py:41-65 | The table built from the lines has distinct depths and distinct multipvs per depth |
| Uci.GatherSpec | uci.py:45-65 | Gathering fails exactly when some line fails (a `bestmove` line with nothing after it, or a scored `info` line whose tokens do not convert); otherwise the best move is the last one named, and each (depth, multipv) holds the last record with those keys |
| Uci.GatherErrPersists | uci.py:45-65 | A failure in the first lines is the failure of all of them |
| Uci.ReadCount | uci.py:72-81 | `read` consumes at most the lines there are |
| Uci.ReadSpec | uci.py:72-81 | `read` returns a prefix of the output. It ends after the first line that starts with the keyword, or drops the empty read at which an exited process ends; no earlier line stops it |
| Uci.ReadWithin | uci.py:72-81 | `read` returns no more lines than it consumes |
| Uci.SetOptionCommands | uci.py:25-26 | One `setoption` command per configured option, in the dict's order |
| Uci.Engine.constructor | uci.py:8-12 | Starting the engine sends `uci` and the option commands, and consumes the output up to `uciok` |
| Uci.Engine.Write | uci.py:14-17 | Writing appends the message to what was sent and changes nothing else |
| Uci.Engine.SetOption | uci.py:19-20 | `setoption` sends exactly its command line |
| Uci.Engine.Init | uci.py:22-26 | `_init` sends `uci`, reads through `uciok`, then sends one `setoption` per option |
| Uci.Engine.NewGame | uci.py:28-31 | `newgame` sends `ucinewgame` and `isready`, and reads through `readyok` |
| Uci.Engine.Position | uci.py:33-36 | `position` sends exactly its command line |
| Uci.Engine.Stop | uci.py:69-70 | `stop` sends `stop` and nothing else |
| Uci.Engine.Read | uci.py:72-81 | `read` returns the lines `ReadSpec` describes and consumes exactly those it took |
| Uci.Engine.Go | uci.py:38-67 | `go` sends the `go` line, reads through `bestmove`, and returns the decoding of exactly the lines read |
| Uci.Gather | uci.py:45-65 | The decoding loop over the lines read computes the function `GatherSpec` describes |
| Puzzler.ScoreTokens | puzzler.py:25 | `info_line['score']` succeeds exactly when the record has score tokens |
| Puzzler.Move | puzzler.py:20-21 | None exactly without a `pv`; otherwise the first move of the `pv` |
| Puzzler.IsMateSpec | puzzler.py:28-29 | `is_mate` holds exactly for a mate score greater than the distance, so a mate in 0 or less is no mate |
| Puzzler.HasCpSpec | puzzler.py:37-38 | `has_cp` holds exactly for a centipawn score above the bound |
| Puzzler.MateDistanceSpec | puzzler.py:32-34 | `mate_distance` is the mate number, and fails its assertion exactly on a non-mate score |
| Puzzler.IsShortestWinSpec | puzzler.py:57-58 | The shortest-win rule holds exactly when the candidate mates and the alternative does not mate in fewer than twice as many moves |
| Puzzler.GetThemeSpec | puzzler.py:61-78 | Themed exactly when the gap test or the shortest-win rule holds. The theme is then `mate` for a positive mate, else `winning` above the win threshold, else `turnaround` above the unclear threshold, else `defensive` |
| Puzzler.FormatEvalRead | puzzler.py:24-25 | The `eval` text tells whether the score is a mate (`#` prefix) and carries the score's number |
| Puzzler.Valued | puzzler.py:50-54 | `value` raises only KeyError, TypeError, IndexError or ValueError, and returns None exactly for a readable score kind other than `mate` and `cp` |
| Puzzler.Judge | puzzler.py:65-91 | `get_puzzle`'s answer is the theme of the last depth's records, together with the analysis. It fails exactly when `go` failed, the analysis is empty (IndexError) or `get_puzzle_theme` raises on the last depth, and then with that exception |
| Puzzler.PuzzleThemeSpec | puzzler.py:61-78 | `get_puzzle_theme` raises IndexError on fewer than two records, then what `value` raises on the best record, then on the first alternative, then TypeError when either value is None. On two numeric scores that decode, it returns the theme `GetThemeSpec` describes, with the gap test's outcome |
| Puzzler.AskPuzzle | puzzler.py:81-91 | With at most two legal moves the answer is (None, None) and the engine is untouched; a themed answer consumed engine output |
| Puzzler.Consult | puzzler.py:85-88 | Sends `UCI_Variant`, `ucinewgame`, `isready`, `position` and `go`, in that order, and returns the analysis of the lines read |
| Puzzler.GetPuzzle | puzzler.py:81-91 | The method computes exactly `AskPuzzle`'s answer and engine state |
| Puzzler.RateRowsSpec | puzzler.py:105-116 | The depth loop of `rate_puzzle` gets through exactly when every depth has two best records with numeric values and a readable best move, and the greatest depth's values are numbers; it fails only with KeyError, TypeError, IndexError or ValueError |
| Puzzler.RateOutcomeSpec | puzzler.py:94-118 | `rate_puzzle` raises nothing exactly when every depth has at least two records, both with numeric values, and a readable best move; otherwise it raises KeyError, TypeError, IndexError or ValueError |
| Puzzler.RatePuzzle | puzzler.py:94-118 | Reading the best move and the two best values, then the loop over the depths, raises exactly what `RateOutcome` says |
| Puzzler.RateDepths | puzzler.py:105-116 | The `for multiinf in info` loop stops at the first depth that raises, with that exception, exactly as `RateRows` says |
| Puzzler.Advance | puzzler.py:150-166 | A loop pass continues only after a themed answer whose analysis `rate_puzzle` got through, and then adds exactly one analysis and one theme |
| Puzzler.Extract | puzzler.py:149-166 | The loop, which rates every themed position and ends on `rate_puzzle`'s exception, computes the walk `FollowSpec` describes |
| Puzzler.ChunksBound | puzzler.py:164 | Each themed position adds at most two moves to the variation |
| Puzzler.AdvanceDone | puzzler.py:151-166 | A pass that ends the loop leaves a walk that extends the walk before it |
| Puzzler.AdvanceMore | puzzler.py:156-166 | A pass that continues keeps the extension relation through the rest of the loop |
| Puzzler.FollowSpec | puzzler.py:149-166 | A finished walk extends its start. Every step is themed and was rated without an exception, and the variation grows by each step's best two moves. It ends either because the last best line had fewer than two moves, or because the theme broke after a best line of at least two moves, and then one ply is taken back |
| Puzzler.ExtendsSeed | puzzler.py:139-166 | A walk that ends past the seed starts with the seed, and its next move is the best move of the first themed position |
| Puzzler.Seed | puzzler.py:138-141 | The line is seeded exactly when `sm` is annotated and legal in the bare position, and then with that move |
| Puzzler.EmitUpdate | puzzler.py:174-188 | The output holds, for each key, the last update written to it |
| Puzzler.UpdateKeys | puzzler.py:174-188 | Every update sets an output key, and `sm` is set only when the line was seeded |
| Puzzler.EmitVariant | puzzler.py:174 | The output keeps the input FEN and sets `variant` to the variant analysed |
| Puzzler.EmitBest | puzzler.py:177 | `bm` is `pv[stm_index]` |
| Puzzler.EmitSeeded | puzzler.py:175-176 | A seeded line writes its seed as `sm` |
| Puzzler.EmitVerdict | puzzler.py:178-188 | `eval` is the formatted first score, `type` the first theme, and `pv` the whole line joined with commas |
| Puzzler.EmitKeeps | puzzler.py:173-189 | Every other input annotation is kept, including `sm` when the line was not seeded |
| Puzzler.GeneratePuzzle | puzzler.py:132-190 | One input line, driving the engine, gives exactly the `PuzzleLine` result and engine state, including an exception `rate_puzzle` raises on any themed position |
| Puzzler.PuzzleLineNoVariant | puzzler.py:135-137 | A line with no variant, annotated or given, raises, and the engine is not consulted |
| Puzzler.PuzzleLineWritten | puzzler.py:131-190 | A written puzzle starts with its legal seed, and its first position is themed. Its record is the emitted one, with `bm` the engine's best move there and `type` that theme |
| Puzzler.GeneratePuzzles | puzzler.py:121-190 | The loop writes exactly the lines `Generate` gives, stops at the first exception (from parsing, `get_puzzle`, `rate_puzzle`, the best line or the output record), and leaves the engine in the state it gives |
| Puzzler.GenerateNext | puzzler.py:131-190 | One more line: an exception ends the run, and otherwise the puzzle, if any, is appended |
| Kif.BoardSize | kif.py:11-19 | The board size is at least one, and 9 when `start_fen` raises |
| Kif.BoardSizeRanks | kif.py:15-17 | The size is one more than the number of `/` in the board part of the start FEN |
| Kif.FileLookup | kif.py:40-48 | `file_map.get(c)` is `str(N - i)` for the i-th file letter on the board, and None for any other character |
| Kif.RankLookup | kif.py:44-49 | `rank_map.get(r)` is the letter at index N − d for a rank digit d on the board, and None otherwise |
| Kif.RankFound | kif.py:46-49 | A rank on the board gets the letter at index N − d |
| Kif.RankKeysDistinct | kif.py:45-46 | No later rank number is spelled like a one-digit rank, so a digit finds its own rank |
| Kif.RankMissing | kif.py:46-49 | A character that is not a rank on the board gets None |
| Kif.SquareOnSpec | kif.py:39-53 | A two-character square on an N×N board becomes its file counted from the right and its rank letter counted from the top; off the board it is None |
| Kif.UsiSquareSpec | kif.py:22-53 | `pyffish_to_usi_square` is None for any input that is not two characters long; otherwise it behaves as `SquareOnSpec` describes |
| Kif.StandardBoardSquares | kif.py:39-53 | On 9×9: a1 → 9i, i9 → 1a, e5 → 5e |
| Kif.StandardSquare | kif.py:39-53 | On 9×9 a square becomes the digit 9 − file index and the letter 9 − rank after `a` |
| Kif.StandardBoardEdges | kif.py:48-53 | On 9×9 file j and rank 0 give None |
| Kif.SquareOnRoundTrip | kif.py:39-53 | Converting a square and converting back gives the square again |
| Kif.UsiSquareRoundTrip | kif.py:22-53 | The same round trip for `pyffish_to_usi_square` |
| Kif.UsiSquareInjective | kif.py:41-46 | Distinct squares on the board map to distinct USI squares |
| Kif.UsiSquareShort | kif.py:41 | On a board of at most nine files every USI square has two characters |
| Kif.UsiMove | kif.py:56-72 | Conversion can fail only with ValueError |
| Kif.UsiDrop | kif.py:58-65 | A drop `p@sq` becomes `P*` followed by the converted square; an invalid square gives None |
| Kif.UsiDoubleDrop | kif.py:60-61 | A move with two `@` gives None |
| Kif.UsiNormal | kif.py:66-72 | A four-character move becomes its two converted squares, or None when either is off the board. Any other length without `@` is None, promotions included |
| Kif.UsiNormalInjective | kif.py:66-71 | On boards of at most nine files, distinct ordinary moves convert to distinct USI moves |
| Kif.ShogiVariantAnyCase | kif.py:75-78 | The shogi-variant test ignores case: upper-casing or capitalising the name gives the same answer |
| Kif.KifAnnotationsStep | kif.py:89 | A token with no space after stripping is ignored; one with a space sets its key to the rest and leaves other keys alone |
| Kif.ConvertedMoves | kif.py:108-117 | At most one USI move per input move; conversion fails only on a board too wide for `chr` |
| Kif.ConvertedNext | kif.py:109-117 | One more move: skipped when empty after stripping, otherwise converted and kept when it converts |
| Kif.ConvertedAll | kif.py:108-117 | When every move converts, the result is their conversions in order |
| Kif.ConvertMoves | kif.py:108-117 | The loop computes `ConvertedMoves` |
| Kif.ConvertedStops | kif.py:108-117 | An exception while converting one move is the result of the whole conversion |
| Kif.PlayedFrom | kif.py:132-139 | The moves pushed are a prefix of the moves. The board accepts each of them, and refuses the next one |
| Kif.Played | kif.py:132-139 | The same from the start of the list |
| Kif.PlayedUnique | kif.py:132-139 | Only one prefix has that property, so the accepted moves are determined |
| Kif.PlayMoves | kif.py:132-139 | The push loop computes `Played` |
| Kif.KifLineExported | kif.py:83-164 | An exported line names a supported shogi variant. It writes the three comment lines and the KIF game of the accepted moves: at least one of them, each converted from the `pv`. When `get_fen` returns an SFEN, the game starts from it and `start_sfen` holds it afterwards. When `get_fen` raises ValueError or IndexError, the moves were played on the default board and the game names the SFEN an earlier line bound |
| Kif.KifLineSfen | kif.py:124-129 | `start_sfen` changes only on a line whose `get_fen` returns, and then holds that SFEN |
| Kif.KifLineSkipsOthers | kif.py:93-95 | A line of a variant that is not shogi-like is skipped and leaves `start_sfen` alone |
| Kif.KifKeepsWritten | kif.py:83-98 | What was written before an unsupported variant stays written, in input order |
| Kif.StaleStartSfen | kif.py:124-148 | After a line that bound `start_sfen`, a puzzle whose `get_fen` raises ValueError is played on the default board and exported naming the earlier line's SFEN |
| Kif.CorrectedExportStart | kif.py:124-148 | With the fallback as intended, an exported game names the SFEN of the board on which each of its moves was accepted, in order |
| Kif.ExportLine | kif.py:83-168 | The per-line method computes `KifLine`, given and returning `start_sfen`'s binding |
| Kif.EpdToKif | kif.py:81-168 | The export loop carries `start_sfen` from line to line, writes what `Kif` gives and stops at the first unsupported variant |
| Deduplicate.Flip | deduplicate.py:33 | Each character mirrored around 255. ValueError exactly when some character is above 255 |
| Deduplicate.FlipInvolution | deduplicate.py:33 | Mirroring twice gives the text back |
| Deduplicate.FlipKeepsPrefixFirst | deduplicate.py:29-33 | A proper prefix still sorts first after mirroring, so a descending text key does not reverse `"a" < "ab"` (see Findings) |
| Deduplicate.DescendingTextReverses | deduplicate.py:29-33 | The corrected descending text key reverses Python's string order exactly |
| Deduplicate.KeyPartOf | deduplicate.py:24-34 | A key part fails only with ValueError, from `chr` on a character above 255 |
| Deduplicate.KeyParts | deduplicate.py:22-35 | One key part per criterion |
| Deduplicate.KeyPartsSpec | deduplicate.py:21-35 | The key fails exactly when some part fails; otherwise part i is criterion i's part |
| Deduplicate.MissingKeyPart | deduplicate.py:24-33 | A missing key sorts as the empty text in both directions, since mirroring `''` gives `''`, so it comes before every other text |
| Deduplicate.DescendingKeyPart | deduplicate.py:25-33 | Descending negates a number and mirrors a text character by character; ascending keeps both |
| Deduplicate.BuildSortKey | deduplicate.py:19-35 | The key loop computes `SortKey` |
| Deduplicate.KeyPartsStop | deduplicate.py:23-34 | A failing prefix of the criteria fails the key with the same error |
| Deduplicate.PartLess | deduplicate.py:79 | Comparing a number with a text raises TypeError, exactly then |
| Deduplicate.KeyLess | deduplicate.py:79 | Tuple comparison fails only with TypeError |
| Deduplicate.KeyLessAsymmetric | deduplicate.py:79 | Of two keys at most one is smaller |
| Deduplicate.Insert | deduplicate.py:78-79 | Inserting adds exactly the element, and places it last unless it is smaller than the last |
| Deduplicate.InsertSorted | deduplicate.py:78-79 | Inserting into a sorted list keeps it sorted |
| Deduplicate.InsertionSort | deduplicate.py:78-79 | Sorting fails only with TypeError, and otherwise permutes its input |
| Deduplicate.InsertionSortSpec | deduplicate.py:78-79 | A sort that succeeds is sorted, and it succeeds when all keys compare |
| Deduplicate.KeyedRecords | deduplicate.py:79 | Each record is paired with its key, in input order |
| Deduplicate.InsertRecords | deduplicate.py:78-79 | Inserting adds exactly the inserted record to the records |
| Deduplicate.InsertionSortRecords | deduplicate.py:78-79 | Sorting permutes the records |
| Deduplicate.KeyedRecordsRecords | deduplicate.py:79 | Dropping the keys gives the input back |
| Deduplicate.SortRecordsSpec | deduplicate.py:77-79 | `epds.sort(key=...)` permutes the records, and no key is smaller than the one before it |
| Deduplicate.DigitRun | deduplicate.py:38 | The greedy `[0-9]+` run: all digits, followed by no digit |
| Deduplicate.SquareAt | deduplicate.py:38 | The `[a-l][0-9]+` match at the start, not followed by a digit |
| Deduplicate.ParseLan | deduplicate.py:40-52 | ValueError on a mismatch; otherwise a capital piece and two squares of the pattern |
| Deduplicate.LanSquares | deduplicate.py:38 | The two squares of `([a-l][0-9]+)[-x]([a-l][0-9]+)` |
| Deduplicate.LanSquaresOf | deduplicate.py:38 | Two squares around `-` or `x` are matched, whatever follows them |
| Deduplicate.ParseLanOf | deduplicate.py:38-52 | An optional capital piece, a square, `-`/`x`, a square and any suffix parse into piece (`P` by default), from square and to square |
| Deduplicate.ParseLanExample | deduplicate.py:43 | `Rh6-h8+` parses as (R, h6, h8) |
| Deduplicate.RowScan | deduplicate.py:65-72 | A row fails only with ValueError, from `chr` |
| Deduplicate.RowScanSpec | deduplicate.py:64-72 | A row ends on the file its digits and letters add up to. It places one pair per letter, all on its rank, at files that increase from left to right |
| Deduplicate.RowScanPlaces | deduplicate.py:66-72 | Each letter is placed on the file the row has reached before it |
| Deduplicate.RowScanStop | deduplicate.py:66-72 | A failing start of a row fails the row |
| Deduplicate.Placements | deduplicate.py:62-73 | The board fails only with ValueError |
| Deduplicate.PlacementsSpec | deduplicate.py:62-73 | One pair per letter of the board, no square twice, each on a rank between the last row's and the first row's |
| Deduplicate.PlacementsPlace | deduplicate.py:64-72 | A letter of row r lands on its file and on rank `ranks - r` |
| Deduplicate.PlacementsStop | deduplicate.py:64-72 | A failing row fails the board |
| Deduplicate.SquareMap | deduplicate.py:55-73 | Fails only with IndexError or ValueError; success needs a FEN with a field |
| Deduplicate.SquareMapSpec | deduplicate.py:55-73 | One entry per piece letter of the board. Every value is a letter, and every rank lies between 1 and the number of rows |
| Deduplicate.SquareMapPlaces | deduplicate.py:64-72 | Each letter of row r is the value of its square, on rank `rows - r` |
| Deduplicate.FenToSquareMap | deduplicate.py:55-73 | The loops compute `SquareMap` |
| Deduplicate.PlaceRow | deduplicate.py:65-72 | The inner loop puts exactly the row's placements into the map, or fails as the row does |
| Deduplicate.NonEmpty | deduplicate.py:87 | Exactly the non-empty parts, each taken from the input |
| Deduplicate.KingSquaresOfOne | deduplicate.py:95 | With no king the squares are empty; with one king they are its square |
| Deduplicate.Analyse | deduplicate.py:84-103 | Analysing a record fails only with IndexError or ValueError |
| Deduplicate.Describe | deduplicate.py:89-103 | Describing the final position fails only with IndexError or ValueError |
| Deduplicate.AnalysePuzzle | deduplicate.py:84-103 | The method computes `Analyse` |
| Deduplicate.MatchingFromBack | deduplicate.py:111-115 | At most n moves agree |
| Deduplicate.MatchingAll | deduplicate.py:111-116 | All n agree exactly when the last n moves are equal |
| Deduplicate.CountMatching | deduplicate.py:111-115 | The counting loop computes `MatchingFromBack` over the shorter length |
| Deduplicate.Ratio | deduplicate.py:108 | A share lies in [0, 1] and is 1 exactly for the whole |
| Deduplicate.DiceBounds | deduplicate.py:107-108 | Board similarity lies in [0, 1] and is 1 exactly for equal boards |
| Deduplicate.SuffixShareBounds | deduplicate.py:111-116 | Move similarity lies in [0, 1] and is 1 exactly when the shorter list is the end of the longer one |
| Deduplicate.OverallScore | deduplicate.py:118 | The overall similarity lies in [0, 1] and is at most each factor |
| Deduplicate.Compare | deduplicate.py:107-118 | The method computes `Similarity` |
| Deduplicate.AnySimilarSpec | deduplicate.py:106-126 | Not similar exactly when every kept record scores below all thresholds; when similar, some kept record scores above one |
| Deduplicate.FindSimilar | deduplicate.py:106-126 | The `for` loop computes `AnySimilar` |
| Deduplicate.StepWrites | deduplicate.py:106-131 | A record is written exactly when it is not similar and its pattern is unseen. Every non-similar record has its pattern recorded; a similar one changes nothing |
| Deduplicate.RecordConsistent | deduplicate.py:127-131 | Recording keeps the state consistent, and writes nothing or the record itself |
| Deduplicate.RunSpec | deduplicate.py:83-131 | The kept list is the output, with one record per pattern, and the output is a subsequence of the input |
| Deduplicate.RunStop | deduplicate.py:83-131 | An exception ends the loop: later records change nothing |
| Deduplicate.RunNext | deduplicate.py:83-131 | One more record, when none has failed |
| Deduplicate.SelectUnique | deduplicate.py:81-131 | The selection loop writes exactly what `Run` gives and stops at its exception |
| Deduplicate.DeduplicationWrites | deduplicate.py:76-131 | Only input records are written, each at most as often as it occurs; without sort criteria they keep input order |
| Deduplicate.Deduplicate | deduplicate.py:76-131 | `deduplicate` computes `Deduplication` |
| Filter.Number | filter.py:17 | A missing key counts as 0; parsing fails only with ValueError |
| Filter.Bound | filter.py:17 | A bound fails only with ValueError |
| Filter.BelowMin | filter.py:16-18 | The `min` loop fails only with ValueError |
| Filter.AboveMax | filter.py:19-21 | The `max` loop fails only with ValueError |
| Filter.Reject | filter.py:15-25 | `filter` fails only with ValueError |
| Filter.BelowMinSpec | filter.py:16-18 | No `min` rejection exactly when every value is at least its bound |
| Filter.AboveMaxSpec | filter.py:19-21 | No `max` rejection exactly when every value is at most its bound |
| Filter.NotAllowedSpec | filter.py:22-24 | No `values` rejection exactly when every key is annotated with one of its allowed values |
| Filter.RejectSpec | filter.py:15-25 | Accepted exactly when all three criteria hold; a value equal to a bound passes |
| Filter.MissingValueRejects | filter.py:22-24 | A `values` key the record lacks always rejects it |
| Filter.NoCriteriaAccepts | filter.py:25 | With no criteria nothing is rejected |
| Filter.LineRejected | filter.py:38-39 | Checking a line fails only with ValueError |
| Filter.FilteredSpec | filter.py:37-40 | The output is input lines, unchanged and in input order, each of them accepted |
| Filter.FilteredComplete | filter.py:37-40 | Without an exception every accepted line is written |
| Filter.FilterPuzzles | filter.py:28-40 | The loop computes `Filtered` |
| Filter.FilteredStop | filter.py:37-40 | An exception ends the loop |
| Pgn2Epd.WithoutSuffix | pgn2epd.py:34 | `removesuffix` removes the suffix exactly when it is there |
| Pgn2Epd.Visitor.constructor | pgn2epd.py:20-23 | The visitor keeps its variant and mode, and starts in the `begin_game` state |
| Pgn2Epd.Visitor.BeginGame | pgn2epd.py:25-30 | Resets the variant, positions, relevance, site and eval |
| Pgn2Epd.Visitor.VisitHeader | pgn2epd.py:32-39 | A header updates the fields as `OnHeader` says, or raises ValueError for an unknown variant and leaves them alone |
| Pgn2Epd.Visitor.EndHeaders | pgn2epd.py:41-44 | SKIP exactly for an irrelevant game |
| Pgn2Epd.Visitor.VisitComment | pgn2epd.py:46-51 | An eval comment is stored; any other clears the eval and makes the game irrelevant |
| Pgn2Epd.Visitor.VisitMove | pgn2epd.py:53-62 | In mate mode the position is kept after a mate eval, and a missing eval makes the game irrelevant |
| Pgn2Epd.Visitor.VisitBoard | pgn2epd.py:64-71 | Outside mate mode every board of a relevant game is kept |
| Pgn2Epd.Replay | pgn2epd.py:86 | Driving the visitor through a game returns `ReadGame` |
| Pgn2Epd.HeadersStop | pgn2epd.py:34 | An unknown variant ends the header reading |
| Pgn2Epd.IrrelevantStays | pgn2epd.py:46-71 | No callback makes an irrelevant game relevant, and it gains no positions |
| Pgn2Epd.HeadersKeepIrrelevant | pgn2epd.py:32-39 | Headers never make a game relevant again, and leave the positions and eval alone |
| Pgn2Epd.OtherVariantSkipped | pgn2epd.py:33-44 | A game of another variant than the one asked for has no positions |
| Pgn2Epd.EventEffect | pgn2epd.py:46-71 | One callback keeps variant and site, and appends at most the entry of its own position, and only when the mode allows |
| Pgn2Epd.MovesEntries | pgn2epd.py:46-71 | The callbacks only append, and what they append is a subsequence of the positions the mode allows, in order |
| Pgn2Epd.GameEntries | pgn2epd.py:25-77 | A game's positions are, in order, entries of allowed sources with its variant and site |
| Pgn2Epd.EverySourceKept | pgn2epd.py:53-71 | A relevant game whose comments are all evals keeps every allowed source, in order |
| Pgn2Epd.WrittenBound | pgn2epd.py:84-99 | At most `count` + 1 games are counted, and one when `count` is negative |
| Pgn2Epd.CountedGames | pgn2epd.py:88-93 | Games without positions count only in mate mode |
| Pgn2Epd.WrittenAll | pgn2epd.py:84-99 | Without an exception or the limit, the counted games are exactly those that count, and their positions are written game after game |
| Pgn2Epd.WrittenStop | pgn2epd.py:85-99 | An exception or the limit ends the loop: later games are not read |
| Pgn2Epd.WrittenNext | pgn2epd.py:85-99 | One more game read by a loop that has neither raised nor stopped |
| Pgn2Epd.WriteFens | pgn2epd.py:80-99 | The loop computes `Written` |
| Pgn.HeaderTags | pgn.py:8-14 | Split into lines, the header is a blank line, Event (the type), Result `*`, Variant (the capitalised variant), FEN (as given), SetUp `1`, and a blank line |
| Pgn.MoveNumber | pgn.py:26-29 | IndexError exactly for a FEN without a second field |
| Pgn.CurrentFens | pgn.py:26 | One FEN per ply |
| Pgn.MoveNumbers | pgn.py:25-29 | One move number per ply |
| Pgn.MoveNumberWords | pgn.py:27-29 | `N.` with white to move, `N...` for a first ply with black to move, nothing otherwise |
| Pgn.PlyReadBack | pgn.py:30 | A ply read back without its number is its move |
| Pgn.MovetextNext | pgn.py:25-30 | One more ply of a movetext that has not raised |
| Pgn.ReadBackStep | pgn.py:30 | A ply appended after a space-terminated movetext adds exactly its move |
| Pgn.MovetextReadBack | pgn.py:25-30 | The movetext reads back as the moves, and ends in a space |
| Pgn.MovesReadBack | pgn.py:23-30 | With the FENs' move numbers, the movetext reads back as the SAN moves in order |
| Pgn.BlackFirstThenWhite | pgn.py:27-29 | Black first, then white, then black gives `N... a M. b c` (the `31... Nef2+ 32. Qxf2 Nxf2+` pattern) |
| Pgn.WriteGame | pgn.py:19-31 | One line becomes the header, the movetext and `*` |
| Pgn.WriteMovetext | pgn.py:25-30 | The ply loop computes `Movetext` over the move numbers of the FENs before each ply |
| Pgn.NumberAt | pgn.py:26 | The FEN before ply i is `get_fen` of the first i moves |
| Pgn.MovetextStop | pgn.py:25-30 | An exception ends the movetext |
| Pgn.EpdToPgn | pgn.py:17-31 | Every line in turn, until one raises |
| Pgn.PgnStop | pgn.py:18-31 | An exception ends `epd_to_pgn`: later lines are not read |
| Epd.Pairs | puzzler.py:134 | Each token is its key, a space, and its value, and the key has no space |
| Epd.ParseAnnotations | puzzler.py:134 | `dict(token.split(' ', 1) ...)` succeeds exactly when every token has a space, and otherwise raises ValueError |
| Epd.AnnotationTokens | puzzler.py:189 | `'{} {}'.format(k, v)` per annotation, in order |
| Epd.FormatThenParse | puzzler.py:189-190 | A written record reads back as itself |
| Epd.FormattedLineStrips | puzzler.py:132 | Stripping a written line removes only its newline |
| Epd.FormattedLineSplits | puzzler.py:132 | A written line splits at `;` into the FEN and the tokens |
| Strings.Split | pgn.py:19 | `split(c)` is never empty, and no piece holds `c` |
| Strings.SplitThenJoin | pgn.py:19 | Joining the pieces with `c` gives the text back |
| Strings.JoinThenSplit | puzzler.py:189 | Splitting a join of `c`-free pieces gives the pieces back |
| Strings.SplitCount | kif.py:16-17 | `split(c)` has one more piece than there are `c` |
| Strings.SplitOnce | deduplicate.py:85 | `split(' ', 1)`: the text before and after the first space, which occurs exactly then |
| Strings.Words | uci.py:46 | `split()` gives words without whitespace |
| Strings.WordsAroundSpace | uci.py:46 | Whitespace separates the words of its two sides |
| Strings.WordsOfJoin | uci.py:35 | Splitting words joined by spaces gives them back |
| Strings.StripStartSpec | puzzler.py:132 | `strip` removes exactly the leading whitespace |
| Strings.StripEndSpec | puzzler.py:132 | `strip` removes exactly the trailing whitespace |
| Strings.IntToStringParses | uci.py:39 | `int(str(n)) == n` |
| Strings.IntToStringInjective | uci.py:39 | `str` is injective on integers |
| Strings.NatToString | kif.py:41 | `str(n)` is decimal digits |
| Strings.NatToStringShort | kif.py:41 | `str(n)` has one character exactly below ten |
| Strings.Letter | kif.py:40 | `chr(ord('a') + k)` is the k-th character after `a` |
| Strings.Upper | kif.py:65 | `upper` maps each character |
| Strings.Lower | kif.py:78 | `lower` maps each character |
| Strings.Capitalize | pgn.py:22 | `capitalize` upper-cases the first character and lower-cases the rest |
| Dicts.Get | puzzler.py:135 | `get` is None exactly for a missing key |
| Dicts.Put | uci.py:65 | After `d[k] = v`, `k` holds `v` |
| Dicts.PutOthers | puzzler.py:174-188 | Setting a key leaves the other keys' values alone |
| Dicts.PutKeys | puzzler.py:174-188 | An existing key keeps its place; a new key goes last |
| Dicts.FromPairsSpec | puzzler.py:134 | In `dict(pairs)` the last pair of a key wins, and keys keep first-seen order |
| Dicts.PutAllSpec | puzzler.py:174-188 | After the updates a key holds its last update, or its old value if never updated |

## Findings

| source | as written | input that shows it | evidently intended | confidence | as-written member | corrected member |
|---|---|---|---|---|---|---|
| deduplicate.py:29-33 | A descending text criterion mirrors each character with `chr(255 - ord(c))`, which reverses the order of texts that differ at some position but keeps a proper prefix before its extensions | Sort values `"a"` and `"ab"` with `key=desc`: the mirrored `"\x9e"` sorts before `"\x9e\x9d"`, so `"a"` still comes first, as in ascending order | A descending criterion lists texts in reverse string order, longer extensions before their prefixes | high, not executed | Deduplicate.FlipKeepsPrefixFirst | Deduplicate.DescendingTextReverses |
| kif.py:124-148 | `start_sfen` is bound only when `get_fen` returns. The `except (ValueError, IndexError)` falls back to the default board but leaves `start_sfen` as it was, and line 148 exports it | Line 1 is a shogi puzzle whose `get_fen` returns S1. Line 2 is a shogi puzzle whose `get_fen` raises ValueError. Line 2's moves are played on the default board and its KIF game names S1 as its start | A puzzle that falls back to the default board is exported from the default position | medium, not executed | Kif.StaleStartSfen | Kif.CorrectedExportStart |

The corrected key, `DescendingText`, closes the mirrored text with the character 256, which is
above every mirrored character. `KeyPartOf` and the sort keep the key as written (`Flip`), so the
modelled `deduplicate` orders records as the program does.

The corrected export, `CorrectedExport`, names the default board's SFEN whenever the moves were
played on the default board. `KifLine` and `epd_to_kif` keep the export as written.

## Left out

- Process lifecycle, pipe writes, the lock and blocking `readline` (uci.py:8-17, 75-76) are not modelled. The engine's future output is a given list of lines plus an `exited` flag.
- Uci.ReadCount / Uci.Engine.Read: when the given output runs out and the process has not exited, the source would block in `readline`. The model stops reading there instead.
- `Engine.stop` is modelled but nothing calls it, as in the source.
- Floating point is not modelled: `sigmoid`, the numbers `value` returns, the `min_diff` gap test, the sums of `rate_puzzle`, `np.std`, and the difficulty, content and quality formulas with their `{:.3f}` formatting (puzzler.py:41-54, 62-63, 94-118, 169-186). `value` and `rate_puzzle` are modelled for the exceptions they raise (`Valued`, `RateOutcome`). The gap test's outcome is a boolean parameter, and the eight ratings are a parameter giving formatted strings. The ZeroDivisionError that a win threshold of 0 causes (`win_threshold / scale`, and `value`'s division by its scale) is not modelled.
- Python's `float` (filter.py:17-20, deduplicate.py:26, puzzler.py:54) is a parameter, so `nan` and `inf` are whatever it returns. The similarity scores of deduplicate.py are exact `real`s, not IEEE doubles.
- pyffish, python-chess and python-shogi are parameters: `legal_moves`, `get_fen`, `get_san_moves`, `start_fen`, `variants`, `read_game`, `find_variant`, `board.fen()`, the SFEN parser, `push_usi` and the KIF exporter. `read_game` is the sequence of callbacks it makes for one game's main line. Variations are not modelled because `begin_variation` returns SKIP.
- Pgn2Epd.Visitor.VisitBoard: setting `board.chess960` only changes the FEN notation python-chess prints, so the given FEN is taken to be that notation.
- Deduplicate.SortRecordsSpec: the sort is an insertion sort. It produces a sorted permutation, but Timsort's stability is not proved. The in-place `epds.sort` is a function on a sequence.
- Deduplicate.RowScan: only ASCII digits and letters are recognised. Python's `isdigit` and `isalpha` also accept other Unicode characters: `'٣'` counts three files, `'²'` makes `int` raise ValueError, and `'é'` places a piece. The model skips these characters, because Unicode character tables are not modelled.
- Strings.ParseInt: only ASCII digits are read. Python's `int` also accepts other Unicode decimal digits.
- Strings.Upper / Strings.Lower / Strings.Capitalize: only ASCII letters change case. Unicode case mapping is not modelled.
- Strings.Letter: `chr(ord('a') + k)` is modelled only below the surrogate block U+D800, which Dafny's characters exclude. A board that wide raises ValueError in the model, where Python would still produce a character.
- `os.linesep` is taken to be `"\n"`.
- I/O plumbing is not modelled: `line_count`, `game_count`, tqdm, fileinput, argparse, the `__main__` blocks, and the verbosity report of `deduplicate` (deduplicate.py:123-124, 133-136).
- generator.py, evaluate.py and tests.py are not part of this model: engine and pyffish calls with random depths, numpy statistics over CSV files, and tests. The `31... Nef2+ 32. Qxf2 Nxf2+` pattern of the tests is stated generically in `Pgn.BlackFirstThenWhite`, and the test call that omits `variant` follows pgn.py:17 instead.
- Kif.ConvertedMoves: the conversion exception is caught by the `try` of kif.py:106-168 and the line is skipped. The KIF exporter and `shogi.Board(sfen=...)` are total function parameters, so their own exceptions are not modelled.
