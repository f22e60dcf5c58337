/**
 * The Universal Chess Interface client: the commands sent to the engine, the reading of its
 * output, and the decoding of `info` lines into records grouped by depth and multipv rank.
 */
module Uci {
  import opened Wrappers
  import opened Strings
  import opened Dicts

  // ---------------------------------------------------------------------------
  // Outbound commands

  /** `setoption name <name> value <value>` */
  function SetOptionCommand(name: string, value: string): string {
    "setoption name " + name + " value " + value + "\n"
  }

  /**
   * `position fen <fen> moves <m1> ... <mk>`; an empty `fen` stands for a missing one (Python's
   * `None` and `''` are both false) and selects `startpos`; with no moves the moves part is empty,
   * which leaves a space before the newline.
   */
  function PositionCommand(fen: string, moves: seq<string>): string {
    "position " + PositionPart(fen) + " " + MovesPart(moves) + "\n"
  }

  function PositionPart(fen: string): string {
    if fen != "" then "fen " + fen else "startpos"
  }

  function MovesPart(moves: seq<string>): string {
    if |moves| > 0 then "moves " + Join(moves, " ") else ""
  }

  /** The keyword arguments of `go` flattened to key, value, key, value, ... with `str()`. */
  function LimitItems(limits: seq<(string, int)>): (items: seq<string>)
    ensures |items| == 2 * |limits|
    ensures forall i :: 0 <= i < |limits| ==> items[2 * i] == limits[i].0 && items[2 * i + 1] == IntToString(limits[i].1)
  {
    if |limits| == 0 then [] else [limits[0].0, IntToString(limits[0].1)] + LimitItems(limits[1..])
  }

  /** `go <key> <value> ...` */
  function GoCommand(limits: seq<(string, int)>): string {
    "go " + Join(LimitItems(limits), " ") + "\n"
  }

  /** A command is one line: its only newline is its last character. */
  predicate OneLine(cmd: string) {
    |cmd| > 0 && cmd[|cmd| - 1] == '\n' && '\n' !in cmd[..|cmd| - 1]
  }

  /** The command words are words. */
  lemma CommandWordsAreWords()
    ensures IsWord("setoption") && IsWord("name") && IsWord("value") && IsWord("position")
    ensures IsWord("fen") && IsWord("startpos") && IsWord("moves") && IsWord("go")
  {
  }

  /** `a b c d e` as a line, with `a`, `b` and `d` single words. */
  lemma WordsOfFive(a: string, b: string, c: string, d: string, e: string)
    requires IsWord(a) && IsWord(b) && IsWord(d)
    ensures Words(a + " " + b + " " + c + " " + d + " " + e + "\n") == [a, b] + Words(c) + [d] + Words(e)
  {
    var v1 := d + " " + e;
    var n1 := c + " " + v1;
    var n2 := b + " " + n1;
    var s1 := a + " " + n2;
    FiveShape(a, b, c, d, e);
    WordsCons(d, e);
    WordsAroundSpace(c, ' ', v1);
    WordsCons(b, n1);
    WordsCons(a, n2);
    WordsOfNewline(s1);
  }

  lemma FiveShape(a: string, b: string, c: string, d: string, e: string)
    ensures a + " " + b + " " + c + " " + d + " " + e + "\n" == a + " " + (b + " " + (c + " " + (d + " " + e))) + "\n"
  {
  }

  lemma SetOptionShape(name: string, value: string)
    ensures SetOptionCommand(name, value) == "setoption" + " " + "name" + " " + name + " " + "value" + " " + value + "\n"
  {
  }

  /** The engine reads a `setoption` line as the command word, then the name, then the value. */
  lemma SetOptionRead(name: string, value: string)
    ensures Words(SetOptionCommand(name, value)) == ["setoption", "name"] + Words(name) + ["value"] + Words(value)
  {
    SetOptionShape(name, value);
    CommandWordsAreWords();
    WordsOfFive("setoption", "name", name, "value", value);
  }

  /** A name and a value without newlines give a single command line. */
  lemma SetOptionOneLine(name: string, value: string)
    requires '\n' !in name && '\n' !in value
    ensures OneLine(SetOptionCommand(name, value))
  {
    var cmd := SetOptionCommand(name, value);
    var body := cmd[..|cmd| - 1];
    assert body == "setoption name " + name + " value " + value;
    forall i | 0 <= i < |body| ensures body[i] != '\n' {
      if 15 <= i < 15 + |name| {
        assert body[i] == name[i - 15];
      } else if 15 + |name| + 7 <= i {
        assert body[i] == value[i - 22 - |name|];
      }
    }
  }

  lemma PositionShape(fen: string, moves: seq<string>)
    ensures PositionCommand(fen, moves) == "position" + " " + (PositionPart(fen) + " " + MovesPart(moves)) + "\n"
  {
  }

  lemma PositionPartWords(fen: string)
    ensures Words(PositionPart(fen)) == if fen != "" then ["fen"] + Words(fen) else ["startpos"]
  {
    CommandWordsAreWords();
    if fen != "" {
      assert PositionPart(fen) == "fen" + " " + fen;
      WordsCons("fen", fen);
    } else {
      WordsOfWord("startpos");
    }
  }

  lemma MovesPartWords(moves: seq<string>)
    requires forall m :: m in moves ==> IsWord(m)
    ensures Words(MovesPart(moves)) == if |moves| > 0 then ["moves"] + moves else []
  {
    CommandWordsAreWords();
    if |moves| > 0 {
      assert MovesPart(moves) == "moves" + " " + Join(moves, " ");
      WordsCons("moves", Join(moves, " "));
      WordsOfJoin(moves);
    }
  }

  /**
   * The engine reads a `position` line as `position`, then `startpos` or `fen` and the FEN's
   * fields, then `moves` and the moves when there are any.
   */
  lemma PositionRead(fen: string, moves: seq<string>)
    requires forall m :: m in moves ==> IsWord(m)
    ensures Words(PositionCommand(fen, moves))
         == ["position"]
          + (if fen != "" then ["fen"] + Words(fen) else ["startpos"])
          + (if |moves| > 0 then ["moves"] + moves else [])
  {
    var rest := PositionPart(fen) + " " + MovesPart(moves);
    PositionShape(fen, moves);
    PositionPartWords(fen);
    MovesPartWords(moves);
    CommandWordsAreWords();
    WordsOfNewline("position" + " " + rest);
    WordsCons("position", rest);
    WordsAroundSpace(PositionPart(fen), ' ', MovesPart(moves));
  }

  /** What an engine reads back from `go`: the limits, each value parsed by `int()`. */
  function DecodeLimits(items: seq<string>): seq<(string, Option<int>)>
  {
    if |items| < 2 then [] else [(items[0], ParseInt(items[1]))] + DecodeLimits(items[2..])
  }

  /** A `go` line carries the limits in order, and each value reads back as the number sent. */
  lemma {:induction false} LimitItemsAreWords(limits: seq<(string, int)>)
    requires forall i :: 0 <= i < |limits| ==> IsWord(limits[i].0)
    ensures forall w :: w in LimitItems(limits) ==> IsWord(w)
  {
    if |limits| > 0 {
      LimitItemsAreWords(limits[1..]);
      assert LimitItems(limits) == [limits[0].0, IntToString(limits[0].1)] + LimitItems(limits[1..]);
    }
  }

  lemma GoShape(limits: seq<(string, int)>)
    ensures GoCommand(limits) == "go" + " " + Join(LimitItems(limits), " ") + "\n"
  {
  }

  /** A `go` line carries the limits in order, and each value reads back as the number sent. */
  lemma GoRead(limits: seq<(string, int)>)
    requires forall i :: 0 <= i < |limits| ==> IsWord(limits[i].0)
    ensures Words(GoCommand(limits)) == ["go"] + LimitItems(limits)
    ensures DecodeLimits(LimitItems(limits)) == seq(|limits|, i requires 0 <= i < |limits| => (limits[i].0, Some(limits[i].1)))
  {
    var items := LimitItems(limits);
    GoShape(limits);
    CommandWordsAreWords();
    WordsOfNewline("go" + " " + Join(items, " "));
    WordsCons("go", Join(items, " "));
    LimitItemsAreWords(limits);
    WordsOfJoin(items);
    DecodeLimitItems(limits);
  }

  lemma {:induction false} DecodeLimitItems(limits: seq<(string, int)>)
    ensures DecodeLimits(LimitItems(limits)) == seq(|limits|, i requires 0 <= i < |limits| => (limits[i].0, Some(limits[i].1)))
  {
    if |limits| > 0 {
      var items := LimitItems(limits);
      assert items[2..] == LimitItems(limits[1..]);
      IntToStringParses(limits[0].1);
      DecodeLimitItems(limits[1..]);
    }
  }

  // ---------------------------------------------------------------------------
  // Decoding of `info` lines

  /** A value of an `info` record: an `int` for a scalar keyword, the token list for `score` and `pv`. */
  datatype Value = Int(n: int) | Tokens(tokens: seq<string>)

  /** One decoded `info` line: keyword to value. */
  type Info = map<string, Value>

  /** The keyword table: six scalar (`int`) keys and two list keys. */
  const Keywords: set<string> := {"depth", "seldepth", "multipv", "nodes", "nps", "time", "score", "pv"}

  predicate IsKeyword(t: string) {
    t in Keywords
  }

  predicate IsListKeyword(t: string) {
    t == "score" || t == "pv"
  }

  /**
   * The value a keyword's group converts to: `list(values)` for a list keyword; for a scalar
   * keyword `int(values[0])`, which raises ValueError on a non-number, while an empty group is
   * passed on as the list itself and `int([])` raises TypeError.
   */
  function Convert(key: string, values: seq<string>): (r: Result<Value>)
    ensures r.Ok? && IsListKeyword(key) ==> r.value == Tokens(values)
    ensures r.Ok? && !IsListKeyword(key) ==> r.value.Int? && |values| > 0 && Some(r.value.n) == ParseInt(values[0])
  {
    if IsListKeyword(key) then Ok(Tokens(values))
    else if |values| == 0 then Err(TypeError)
    else match ParseInt(values[0])
      case None => Err(ValueError)
      case Some(n) => Ok(Int(n))
  }

  /**
   * A group converts exactly when its keyword is a list keyword or its first token is an
   * integer; an empty scalar group raises TypeError and a non-integer first token ValueError.
   */
  lemma ConvertOutcome(key: string, values: seq<string>)
    ensures Convert(key, values).Ok? <==> IsListKeyword(key) || (|values| > 0 && ParseInt(values[0]).Some?)
    ensures Convert(key, values).Err? ==> Convert(key, values).error == (if |values| == 0 then TypeError else ValueError)
  {
  }

  /** The position of the first keyword at or after `i`, or `|ts|` when there is none. */
  function NextKeyword(ts: seq<string>, i: nat): (j: nat)
    requires i <= |ts|
    ensures i <= j <= |ts|
    ensures j < |ts| ==> IsKeyword(ts[j])
    ensures forall k :: i <= k < j ==> !IsKeyword(ts[k])
    decreases |ts| - i
  {
    if i == |ts| || IsKeyword(ts[i]) then i else NextKeyword(ts, i + 1)
  }

  /**
   * The record built from the keyword groups starting at the keyword `ts[i]`: each keyword owns
   * the tokens up to the next keyword, and of two groups with the same keyword the later wins.
   */
  function GroupsFrom(ts: seq<string>, i: nat): Result<Info>
    requires i < |ts| && IsKeyword(ts[i])
    decreases |ts| - i
  {
    var j := NextKeyword(ts, i + 1);
    var v :- Convert(ts[i], ts[i + 1..j]);
    if j == |ts| then Ok(map[ts[i] := v])
    else
      var rest :- GroupsFrom(ts, j);
      Ok(map[ts[i] := v] + rest)
  }

  /** The record of the tokens after `info`: tokens before the first keyword are dropped. */
  function Tokenize(ts: seq<string>): Result<Info> {
    var k := NextKeyword(ts, 0);
    if k == |ts| then Ok(map[]) else GroupsFrom(ts, k)
  }

  /** `info` merged with the outcome of the groups still to come. */
  function Continue(info: Info, rest: Result<Info>): Result<Info> {
    match rest
    case Err(e) => Err(e)
    case Ok(m) => Ok(info + m)
  }

  lemma ContinueEmpty(rest: Result<Info>)
    ensures Continue(map[], rest) == rest
  {
    if rest.Ok? {
      assert map[] + rest.value == rest.value;
    }
  }

  lemma ContinueMerge(info: Info, k: string, v: Value, rest: Result<Info>)
    ensures Continue(info, Continue(map[k := v], rest)) == Continue(info[k := v], rest)
  {
    if rest.Ok? {
      assert info + (map[k := v] + rest.value) == info[k := v] + rest.value;
    }
  }

  /** The group of the keyword at `start` ends at the keyword `j`: its value is merged with the groups from `j`. */
  lemma GroupsFromStep(ts: seq<string>, start: nat, j: nat)
    requires start < j < |ts| && IsKeyword(ts[start]) && IsKeyword(ts[j])
    requires NextKeyword(ts, start + 1) == j
    ensures var c := Convert(ts[start], ts[start + 1..j]);
            GroupsFrom(ts, start) == if c.Err? then Err(c.error) else Continue(map[ts[start] := c.value], GroupsFrom(ts, j))
  {
  }

  /** The last group runs to the end of the tokens. */
  lemma GroupsFromLast(ts: seq<string>, start: nat)
    requires start < |ts| && IsKeyword(ts[start])
    requires NextKeyword(ts, start + 1) == |ts|
    ensures var c := Convert(ts[start], ts[start + 1..]);
            GroupsFrom(ts, start) == if c.Err? then Err(c.error) else Ok(map[ts[start] := c.value])
  {
    assert ts[start + 1..|ts|] == ts[start + 1..];
  }

  /**
   * The state of the tokenizer loop after the first `i` of the tokens `ts + [""]`: with no open
   * keyword nothing has been stored yet (or the sentinel has closed everything); with an open
   * keyword `ts[start]`, `values` holds its tokens so far and `info` merged with the groups from
   * `start` on is the whole record.
   */
  ghost predicate Scanned(ts: seq<string>, i: nat, key: Option<string>, values: seq<string>, info: Info, start: nat) {
    && i <= |ts| + 1
    && (key.None? && i <= |ts| ==> NextKeyword(ts, 0) >= i && info == map[])
    && (key.None? && i == |ts| + 1 ==> Tokenize(ts) == Ok(info))
    && (key.Some? ==>
        && start < i <= |ts| && ts[start] == key.value && IsKeyword(key.value)
        && NextKeyword(ts, start + 1) >= i && values == ts[start + 1..i]
        && Tokenize(ts) == Continue(info, GroupsFrom(ts, start)))
  }

  /** A token that is not a keyword joins the open group. */
  lemma ScanWord(ts: seq<string>, i: nat, key: Option<string>, values: seq<string>, info: Info, start: nat)
    requires Scanned(ts, i, key, values, info, start)
    requires i < |ts| && !IsKeyword(ts[i])
    ensures Scanned(ts, i + 1, key, values + [ts[i]], info, start)
  {
    if key.Some? {
      assert ts[start + 1..i + 1] == ts[start + 1..i] + [ts[i]];
    }
  }

  /** A keyword or the sentinel closes the open group; its conversion succeeds and is stored. */
  lemma ScanClose(ts: seq<string>, i: nat, key: Option<string>, values: seq<string>, info: Info, start: nat)
    requires Scanned(ts, i, key, values, info, start)
    requires i <= |ts| && (i < |ts| ==> IsKeyword(ts[i]))
    requires key.Some? ==> Convert(key.value, values).Ok?
    ensures Scanned(ts, i + 1, if i < |ts| then Some(ts[i]) else None, [],
                    if key.Some? then info[key.value := Convert(key.value, values).value] else info, i)
  {
    if key.Some? {
      var v := Convert(key.value, values).value;
      if i < |ts| {
        GroupsFromStep(ts, start, i);
        ContinueMerge(info, key.value, v, GroupsFrom(ts, i));
      } else {
        GroupsFromLast(ts, start);
        assert info + map[key.value := v] == info[key.value := v];
      }
    } else if i < |ts| {
      ContinueEmpty(GroupsFrom(ts, i));
    }
  }

  /** A group whose conversion fails makes the whole record fail with that error. */
  lemma ScanFail(ts: seq<string>, i: nat, key: Option<string>, values: seq<string>, info: Info, start: nat)
    requires Scanned(ts, i, key, values, info, start)
    requires i <= |ts| && (i < |ts| ==> IsKeyword(ts[i]))
    requires key.Some? && Convert(key.value, values).Err?
    ensures Tokenize(ts) == Err(Convert(key.value, values).error)
  {
    if i < |ts| {
      GroupsFromStep(ts, start, i);
    } else {
      GroupsFromLast(ts, start);
    }
  }

  /**
   * The tokenizer loop over the tokens after `info`, with an empty sentinel token appended:
   * a keyword (or the sentinel) closes the group of the current keyword, which is converted
   * and stored; any other token joins the current group.
   */
  method ParseInfo(ts: seq<string>) returns (r: Result<Info>)
    requires forall k :: 0 <= k < |ts| ==> ts[k] != ""
    ensures r == Tokenize(ts)
  {
    var items := ts + [""];
    var key: Option<string> := None;
    var values: seq<string> := [];
    var info: Info := map[];
    ghost var start := 0;
    var i := 0;
    while i < |items|
      invariant i <= |items|
      invariant Scanned(ts, i, key, values, info, start)
    {
      var t := items[i];
      assert i < |ts| ==> t == ts[i] && t != "";
      if t == "" || IsKeyword(t) {
        if key.Some? {
          var v := Convert(key.value, values);
          if v.Err? {
            ScanFail(ts, i, key, values, info, start);
            return Err(v.error);
          }
        }
        ScanClose(ts, i, key, values, info, start);
        if key.Some? {
          info := info[key.value := Convert(key.value, values).value];
        }
        key := if t == "" then None else Some(t);
        values := [];
        start := i;
      } else {
        ScanWord(ts, i, key, values, info, start);
        values := values + [t];
      }
      i := i + 1;
    }
    r := Ok(info);
  }

  /** Every stored key is a keyword, and a key holds a token list exactly when it is a list keyword. */
  lemma {:induction false} GroupsFromValues(ts: seq<string>, i: nat)
    requires i < |ts| && IsKeyword(ts[i])
    requires GroupsFrom(ts, i).Ok?
    ensures forall k :: k in GroupsFrom(ts, i).value ==>
      IsKeyword(k) && (GroupsFrom(ts, i).value[k].Tokens? <==> IsListKeyword(k))
    decreases |ts| - i
  {
    var j := NextKeyword(ts, i + 1);
    if j < |ts| {
      GroupsFromValues(ts, j);
    }
  }

  lemma TokenizeValues(ts: seq<string>)
    requires Tokenize(ts).Ok?
    ensures forall k :: k in Tokenize(ts).value ==>
      IsKeyword(k) && (Tokenize(ts).value[k].Tokens? <==> IsListKeyword(k))
  {
    var k := NextKeyword(ts, 0);
    if k < |ts| {
      GroupsFromValues(ts, k);
    }
  }

  /** The last group with a given keyword is the one that counts. */
  predicate LastOccurrence(ts: seq<string>, i: nat) {
    i < |ts| && forall k :: i < k < |ts| ==> ts[k] != ts[i]
  }

  /** The groups from `start` store exactly the keywords that occur from `start` on. */
  lemma {:induction false} GroupsFromKeys(ts: seq<string>, start: nat)
    requires start < |ts| && IsKeyword(ts[start]) && GroupsFrom(ts, start).Ok?
    ensures forall k :: k in GroupsFrom(ts, start).value <==> exists i :: start <= i < |ts| && ts[i] == k && IsKeyword(k)
    decreases |ts| - start
  {
    var j := NextKeyword(ts, start + 1);
    GroupsFromUnfold(ts, start);
    var m := GroupsFrom(ts, start).value;
    if j < |ts| {
      GroupsFromKeys(ts, j);
      var rest := GroupsFrom(ts, j).value;
      forall k ensures k in m <==> exists i :: start <= i < |ts| && ts[i] == k && IsKeyword(k) {
        if k in rest {
          var i :| j <= i < |ts| && ts[i] == k && IsKeyword(k);
        }
        if exists i :: start <= i < |ts| && ts[i] == k && IsKeyword(k) {
          var i :| start <= i < |ts| && ts[i] == k && IsKeyword(k);
          if i != start {
            assert j <= i;
          }
        }
      }
    } else {
      forall i | start <= i < |ts| && IsKeyword(ts[i]) ensures i == start {
      }
    }
  }

  /** A successful `GroupsFrom` is the first group's value merged with the rest. */
  lemma GroupsFromUnfold(ts: seq<string>, start: nat)
    requires start < |ts| && IsKeyword(ts[start]) && GroupsFrom(ts, start).Ok?
    ensures var j := NextKeyword(ts, start + 1);
      && Convert(ts[start], ts[start + 1..j]).Ok?
      && (j < |ts| ==> GroupsFrom(ts, j).Ok?)
      && GroupsFrom(ts, start).value
         == map[ts[start] := Convert(ts[start], ts[start + 1..j]).value] + (if j < |ts| then GroupsFrom(ts, j).value else map[])
  {
    var j := NextKeyword(ts, start + 1);
    if j == |ts| {
      assert map[ts[start] := Convert(ts[start], ts[start + 1..j]).value] + map[]
          == map[ts[start] := Convert(ts[start], ts[start + 1..j]).value];
    }
  }

  /** The value of a keyword is the conversion of the tokens after its last occurrence, up to the next keyword. */
  lemma {:induction false} GroupsFromValue(ts: seq<string>, start: nat, i: nat)
    requires start < |ts| && IsKeyword(ts[start]) && GroupsFrom(ts, start).Ok?
    requires start <= i < |ts| && IsKeyword(ts[i]) && LastOccurrence(ts, i)
    ensures var c := Convert(ts[i], ts[i + 1..NextKeyword(ts, i + 1)]);
      c.Ok? && ts[i] in GroupsFrom(ts, start).value && GroupsFrom(ts, start).value[ts[i]] == c.value
    decreases |ts| - start
  {
    GroupsFromKeys(ts, start);
    var j := NextKeyword(ts, start + 1);
    GroupsFromUnfold(ts, start);
    var m := GroupsFrom(ts, start).value;
    var v := Convert(ts[start], ts[start + 1..j]).value;
    if j < |ts| {
      var rest := GroupsFrom(ts, j).value;
      assert m == map[ts[start] := v] + rest;
      if i == start {
        GroupsFromKeys(ts, j);
        assert ts[start] !in rest by {
          assert forall k :: j <= k < |ts| ==> ts[k] != ts[start];
        }
        assert m[ts[i]] == v;
      } else {
        assert j <= i;
        GroupsFromValue(ts, j, i);
        assert ts[i] in rest && m[ts[i]] == rest[ts[i]];
      }
    } else {
      assert i == start;
      assert m[ts[i]] == v;
    }
  }

  /**
   * The tokenizer stores exactly the keywords that occur, each with the conversion of the tokens
   * after its last occurrence up to the next keyword (so tokens before the first keyword are lost).
   */
  lemma TokenizeSpec(ts: seq<string>)
    requires Tokenize(ts).Ok?
    ensures forall k :: k in Tokenize(ts).value <==> exists i :: 0 <= i < |ts| && ts[i] == k && IsKeyword(k)
    ensures forall i :: 0 <= i < |ts| && IsKeyword(ts[i]) && LastOccurrence(ts, i) ==>
      var c := Convert(ts[i], ts[i + 1..NextKeyword(ts, i + 1)]);
      c.Ok? && Tokenize(ts).value[ts[i]] == c.value
  {
    var f := NextKeyword(ts, 0);
    if f < |ts| {
      GroupsFromKeys(ts, f);
      forall i | 0 <= i < |ts| && IsKeyword(ts[i]) && LastOccurrence(ts, i)
        ensures var c := Convert(ts[i], ts[i + 1..NextKeyword(ts, i + 1)]); c.Ok? && Tokenize(ts).value[ts[i]] == c.value
      {
        GroupsFromValue(ts, f, i);
      }
    }
  }

  /** Tokens before the first keyword do not change the record. */
  lemma TokenizeDropsPrefix(pre: seq<string>, ts: seq<string>)
    requires forall k :: 0 <= k < |pre| ==> !IsKeyword(pre[k])
    ensures Tokenize(pre + ts) == Tokenize(ts)
  {
    NextKeywordShift(pre, ts, 0);
    assert NextKeyword(pre + ts, 0) == NextKeyword(pre + ts, |pre|) by {
      NextKeywordSkip(pre + ts, 0, |pre|);
    }
    var f := NextKeyword(ts, 0);
    if f < |ts| {
      GroupsFromShift(pre, ts, f);
    }
  }

  lemma {:induction false} NextKeywordSkip(ts: seq<string>, i: nat, j: nat)
    requires i <= j <= |ts| && forall k :: i <= k < j ==> !IsKeyword(ts[k])
    ensures NextKeyword(ts, i) == NextKeyword(ts, j)
    decreases j - i
  {
    if i < j {
      NextKeywordSkip(ts, i + 1, j);
    }
  }

  lemma {:induction false} NextKeywordShift(pre: seq<string>, ts: seq<string>, i: nat)
    requires i <= |ts|
    ensures NextKeyword(pre + ts, |pre| + i) == |pre| + NextKeyword(ts, i)
    decreases |ts| - i
  {
    if i < |ts| {
      assert (pre + ts)[|pre| + i] == ts[i];
      if !IsKeyword(ts[i]) {
        NextKeywordShift(pre, ts, i + 1);
      }
    }
  }

  /** One group's value joined to the record of the groups after it (`None` when there are none). */
  function JoinGroup(key: string, v: Result<Value>, rest: Option<Result<Info>>): Result<Info> {
    match v
    case Err(e) => Err(e)
    case Ok(x) =>
      match rest
      case None => Ok(map[key := x])
      case Some(Err(e)) => Err(e)
      case Some(Ok(m)) => Ok(map[key := x] + m)
  }

  /** `GroupsFrom` unfolded once, through `JoinGroup`, whether or not it fails. */
  lemma GroupsFromJoin(ts: seq<string>, i: nat)
    requires i < |ts| && IsKeyword(ts[i])
    ensures var j := NextKeyword(ts, i + 1);
      GroupsFrom(ts, i) == JoinGroup(ts[i], Convert(ts[i], ts[i + 1..j]), if j == |ts| then None else Some(GroupsFrom(ts, j)))
  {
  }

  lemma {:induction false} GroupsFromShift(pre: seq<string>, ts: seq<string>, i: nat)
    requires i < |ts| && IsKeyword(ts[i])
    ensures (pre + ts)[|pre| + i] == ts[i]
    ensures GroupsFrom(pre + ts, |pre| + i) == GroupsFrom(ts, i)
    decreases |ts| - i
  {
    var all := pre + ts;
    NextKeywordShift(pre, ts, i + 1);
    var j := NextKeyword(ts, i + 1);
    var n := NextKeyword(all, |pre| + i + 1);
    assert all[|pre| + i] == ts[i];
    assert all[|pre| + i + 1..n] == ts[i + 1..j];
    var rest := if j == |ts| then None else Some(GroupsFrom(ts, j));
    if j < |ts| {
      GroupsFromShift(pre, ts, j);
      assert GroupsFrom(all, n) == GroupsFrom(ts, j);
    }
    assert (if n == |all| then None else Some(GroupsFrom(all, n))) == rest;
    GroupsFromJoin(all, |pre| + i);
    GroupsFromJoin(ts, i);
  }

  // ---------------------------------------------------------------------------
  // Grouping by depth and multipv

  /** `infos`: depth (None when an `info` line has none) to multipv to the latest record. */
  type Table = Dict<Option<int>, Dict<int, Info>>

  /** `info.get('depth')` */
  function DepthOf(info: Info): Option<int> {
    if "depth" in info && info["depth"].Int? then Some(info["depth"].n) else None
  }

  /** `info.get('multipv', 1)` */
  function MultipvOf(info: Info): int {
    if "multipv" in info && info["multipv"].Int? then info["multipv"].n else 1
  }

  /** `infos[depth][multipv] = info` on a `defaultdict(dict)`. */
  function Store(table: Table, info: Info): (r: Table)
    ensures Lookup(r, DepthOf(info), MultipvOf(info)) == Some(info)
  {
    var row := Get(table, DepthOf(info)).GetOr([]);
    Put(table, DepthOf(info), Put(row, MultipvOf(info), info))
  }

  /** `infos[depth][multipv]` when both keys are present. */
  function Lookup(table: Table, depth: Option<int>, multipv: int): Option<Info> {
    match Get(table, depth)
    case None => None
    case Some(row) => Get(row, multipv)
  }

  /** Storing a record changes only the entry under its own two keys. */
  lemma StoreOthers(table: Table, info: Info, depth: Option<int>, multipv: int)
    requires (depth, multipv) != (DepthOf(info), MultipvOf(info))
    ensures Lookup(Store(table, info), depth, multipv) == Lookup(table, depth, multipv)
  {
    var row := Get(table, DepthOf(info)).GetOr([]);
    if depth != DepthOf(info) {
      PutOthers(table, DepthOf(info), Put(row, MultipvOf(info), info), depth);
    } else {
      PutOthers(row, MultipvOf(info), info, multipv);
    }
  }

  lemma StoreDistinct(table: Table, info: Info)
    requires KeysDistinct(table) && forall i :: 0 <= i < |table| ==> KeysDistinct(table[i].1)
    ensures var r := Store(table, info); KeysDistinct(r) && forall i :: 0 <= i < |r| ==> KeysDistinct(r[i].1)
  {
    var d, m := DepthOf(info), MultipvOf(info);
    var row := Get(table, d).GetOr([]);
    GetEntry(table, d);
    PutDistinct(row, m, info);
    PutDistinct(table, d, Put(row, m, info));
    PutEntries(table, d, Put(row, m, info));
  }

  /** A value found by `Get` is the value of one of the entries. */
  lemma {:induction false} GetEntry<K(!new), V>(d: Dict<K, V>, k: K)
    ensures Get(d, k).Some? ==> exists i :: 0 <= i < |d| && d[i] == (k, Get(d, k).value)
  {
    if |d| > 0 && d[0].0 != k {
      GetEntry(d[1..], k);
      if Get(d, k).Some? {
        var i :| 0 <= i < |d[1..]| && d[1..][i] == (k, Get(d, k).value);
        assert d[i + 1] == (k, Get(d, k).value);
      }
    } else if |d| > 0 {
      assert d[0] == (k, Get(d, k).value);
    }
  }

  /** After `Put(d, k, v)` every entry is `(k, v)` or an entry of `d`. */
  lemma {:induction false} PutEntries<K(!new), V>(d: Dict<K, V>, k: K, v: V)
    ensures forall i :: 0 <= i < |Put(d, k, v)| ==> Put(d, k, v)[i] == (k, v) || Put(d, k, v)[i] in d
  {
    if |d| > 0 && d[0].0 != k {
      PutEntries(d[1..], k, v);
      var rest := Put(d[1..], k, v);
      forall i | 0 <= i < |Put(d, k, v)| ensures Put(d, k, v)[i] == (k, v) || Put(d, k, v)[i] in d {
        if i > 0 {
          assert Put(d, k, v)[i] == rest[i - 1];
          assert rest[i - 1] in d[1..] ==> rest[i - 1] in d;
        }
      }
    } else if |d| > 0 {
      forall i | 0 <= i < |Put(d, k, v)| ensures Put(d, k, v)[i] == (k, v) || Put(d, k, v)[i] in d {
        if i > 0 {
          assert Put(d, k, v)[i] == d[i];
        }
      }
    }
  }

  // ---------------------------------------------------------------------------
  // sorted() and the final list of lists

  predicate Ascending(s: seq<int>) {
    forall i, j :: 0 <= i < j < |s| ==> s[i] < s[j]
  }

  predicate Distinct<T(==)>(s: seq<T>) {
    forall i, j :: 0 <= i < j < |s| ==> s[i] != s[j]
  }

  /** `x` put into its place in an ascending sequence that does not hold it. */
  function Insert(x: int, s: seq<int>): (r: seq<int>)
    requires Ascending(s) && x !in s
    ensures Ascending(r) && multiset(r) == multiset(s) + multiset{x}
    ensures forall y :: y in r <==> y == x || y in s
    decreases |s|, 1
  {
    if |s| == 0 then [x]
    else if x < s[0] then
      assert Ascending([x] + s) by {
        forall i, j | 0 <= i < j < |s| + 1 ensures ([x] + s)[i] < ([x] + s)[j] {
          if i > 0 {
            assert ([x] + s)[i] == s[i - 1];
          }
        }
      }
      [x] + s
    else
      InsertStep(x, s);
      [s[0]] + Insert(x, s[1..])
  }

  lemma InsertStep(x: int, s: seq<int>)
    requires Ascending(s) && x !in s && |s| > 0 && s[0] < x
    ensures Ascending(s[1..]) && x !in s[1..]
    ensures var r := [s[0]] + Insert(x, s[1..]);
      Ascending(r) && multiset(r) == multiset(s) + multiset{x} && forall y :: y in r <==> y == x || y in s
    decreases |s|, 0
  {
    assert Ascending(s[1..]) by {
      forall i, j | 0 <= i < j < |s| - 1 ensures s[1..][i] < s[1..][j] {
        assert s[1..][i] == s[i + 1] && s[1..][j] == s[j + 1];
      }
    }
    var rest := Insert(x, s[1..]);
    var r := [s[0]] + rest;
    assert s == [s[0]] + s[1..];
    forall i, j | 0 <= i < j < |r| ensures r[i] < r[j] {
      assert r[j] == rest[j - 1];
      if i == 0 {
        assert rest[j - 1] in rest;
        if rest[j - 1] != x {
          var k :| 0 <= k < |s[1..]| && s[1..][k] == rest[j - 1];
          assert s[k + 1] == rest[j - 1];
        }
      } else {
        assert r[i] == rest[i - 1];
      }
    }
  }

  /** `sorted(keys)` for distinct integer keys. */
  function SortInts(s: seq<int>): (r: seq<int>)
    requires Distinct(s)
    ensures Ascending(r) && multiset(r) == multiset(s)
  {
    if |s| == 0 then []
    else
      var init := s[..|s| - 1];
      assert s == init + [s[|s| - 1]];
      var sorted := SortInts(init);
      assert s[|s| - 1] !in sorted by {
        assert s[|s| - 1] !in multiset(init);
      }
      Insert(s[|s| - 1], sorted)
  }

  /**
   * `sorted(infos.keys())`: Python cannot order None against an int, so a depth-less record next
   * to any other depth raises TypeError; otherwise the depths in ascending order.
   */
  function DepthOrder(ks: seq<Option<int>>): (r: Result<seq<Option<int>>>)
    requires Distinct(ks)
    ensures r.Err? <==> None in ks && |ks| >= 2
    ensures r.Err? ==> r.error == TypeError
    ensures r.Ok? ==> |r.value| == |ks| && forall d :: d in r.value <==> d in ks
    ensures r.Ok? ==> forall i, j :: 0 <= i < j < |r.value| ==>
      r.value[i].Some? && r.value[j].Some? && r.value[i].value < r.value[j].value
  {
    if None in ks then
      if |ks| >= 2 then Err(TypeError) else Ok(ks)
    else
      DepthsSorted(ks);
      Ok(Depths(SortInts(Values(ks))))
  }

  /** The depths of records that all carry one. */
  function Values(ks: seq<Option<int>>): (ints: seq<int>)
    requires None !in ks
    ensures |ints| == |ks| && forall i :: 0 <= i < |ks| ==> ks[i] == Some(ints[i])
  {
    var ints := seq(|ks|, i requires 0 <= i < |ks| => ks[i].value);
    assert forall i :: 0 <= i < |ks| ==> ks[i] in ks && ks[i] == Some(ints[i]);
    ints
  }

  /** Depths as the keys of the table. */
  function Depths(s: seq<int>): (r: seq<Option<int>>)
    ensures |r| == |s| && forall i :: 0 <= i < |s| ==> r[i] == Some(s[i])
  {
    seq(|s|, i requires 0 <= i < |s| => Some(s[i]))
  }

  /** Sorting the depths keeps the same depths and puts them in ascending order. */
  lemma DepthsSorted(ks: seq<Option<int>>)
    requires Distinct(ks) && None !in ks
    ensures Distinct(Values(ks))
    ensures var r := Depths(SortInts(Values(ks)));
      |r| == |ks| && (forall d :: d in r <==> d in ks) &&
      forall i, j :: 0 <= i < j < |r| ==> r[i].Some? && r[j].Some? && r[i].value < r[j].value
  {
    var ints := Values(ks);
    var sorted := SortInts(ints);
    assert |sorted| == |ints| by {
      assert |multiset(sorted)| == |multiset(ints)|;
    }
    var r := Depths(sorted);
    assert forall i, j :: 0 <= i < j < |r| ==> r[i].Some? && r[j].Some? && r[i].value < r[j].value;
    SameDepths(ks, ints, sorted);
  }

  /** Wrapping the sorted values back gives the same set of depths. */
  lemma SameDepths(ks: seq<Option<int>>, ints: seq<int>, sorted: seq<int>)
    requires |ints| == |ks| && forall i :: 0 <= i < |ks| ==> ks[i] == Some(ints[i])
    requires multiset(sorted) == multiset(ints)
    ensures forall d :: d in Depths(sorted) <==> d in ks
  {
    var r := Depths(sorted);
    forall d | d in r ensures d in ks {
      var i :| 0 <= i < |r| && r[i] == d;
      assert sorted[i] in multiset(ints);
      var k :| 0 <= k < |ints| && ints[k] == sorted[i];
    }
    forall d | d in ks ensures d in r {
      var k :| 0 <= k < |ks| && ks[k] == d;
      assert ints[k] in multiset(sorted);
      var i :| 0 <= i < |sorted| && sorted[i] == ints[k];
      assert r[i] == d;
    }
  }

  /** Each multipv key once, with its own record in each row. */
  predicate WellFormed(table: Table) {
    KeysDistinct(table) && forall i :: 0 <= i < |table| ==> KeysDistinct(table[i].1)
  }

  /** `[infos[d][m] for m in sorted(infos[d].keys())]` */
  function Row(row: Dict<int, Info>): (r: seq<Info>)
    requires KeysDistinct(row)
    ensures |r| == |row|
    ensures var ms := SortInts(Keys(row)); |ms| == |r| && forall j :: 0 <= j < |r| ==> Get(row, ms[j]) == Some(r[j])
  {
    var ks := Keys(row);
    assert Distinct(ks) by {
      forall i, j | 0 <= i < j < |ks| ensures ks[i] != ks[j] {
        assert ks[i] == row[i].0 && ks[j] == row[j].0;
      }
    }
    var ms := SortInts(ks);
    assert |ms| == |ks| by {
      assert |multiset(ms)| == |multiset(ks)|;
    }
    assert forall j :: 0 <= j < |ms| ==> ms[j] in ks by {
      forall j | 0 <= j < |ms| ensures ms[j] in ks {
        assert ms[j] in multiset(ks);
      }
    }
    seq(|ms|, j requires 0 <= j < |ms| => Get(row, ms[j]).value)
  }

  /** A depth present in a well-formed table has a row with distinct multipv keys. */
  lemma RowFound(table: Table, d: Option<int>)
    requires WellFormed(table) && d in Keys(table)
    ensures Get(table, d).Some? && KeysDistinct(Get(table, d).value)
  {
    GetEntry(table, d);
  }

  /** The rows for the depths in `order`, each row ordered by multipv. */
  function Rows(table: Table, order: seq<Option<int>>): (r: seq<seq<Info>>)
    requires WellFormed(table) && forall d :: d in order ==> d in Keys(table)
    ensures |r| == |order|
    ensures forall i :: 0 <= i < |order| ==>
      Get(table, order[i]).Some? && KeysDistinct(Get(table, order[i]).value) && r[i] == Row(Get(table, order[i]).value)
  {
    if |order| == 0 then []
    else
      RowFound(table, order[0]);
      var rest := Rows(table, order[1..]);
      [Row(Get(table, order[0]).value)] + rest
  }

  /** `[[infos[d][m] for m in sorted(infos[d].keys())] for d in sorted(infos.keys())]` */
  function Materialize(table: Table): (r: Result<seq<seq<Info>>>)
    requires WellFormed(table)
    ensures r.Err? <==> None in Keys(table) && |table| >= 2
    ensures r.Err? ==> r.error == TypeError
    ensures r.Ok? ==> |r.value| == |table|
  {
    var ks := Keys(table);
    assert Distinct(ks) by {
      forall i, j | 0 <= i < j < |ks| ensures ks[i] != ks[j] {
        assert ks[i] == table[i].0 && ks[j] == table[j].0;
      }
    }
    var order :- DepthOrder(ks);
    Ok(Rows(table, order))
  }

  // ---------------------------------------------------------------------------
  // The lines read after `go`

  /** What `go` has gathered so far: the last `bestmove` and the table of records. */
  datatype Gathered = Gathered(bestmove: Option<string>, table: Table)

  /** An `info` line with a second token other than `string` and a `score` token somewhere. */
  predicate IsInfoLine(items: seq<string>) {
    |items| > 1 && items[0] == "info" && items[1] != "string" && "score" in items
  }

  /** One line of engine output: a `bestmove` line sets the move, a scored `info` line is stored. */
  function StepLine(g: Gathered, line: string): Result<Gathered> {
    var items := Words(line);
    if |items| == 0 then Ok(g)
    else if items[0] == "bestmove" then
      if |items| < 2 then Err(IndexError) else Ok(g.(bestmove := Some(items[1])))
    else if IsInfoLine(items) then
      var info :- Tokenize(items[1..]);
      Ok(g.(table := Store(g.table, info)))
    else Ok(g)
  }

  /** The lines taken in order, starting from nothing; the first failing line ends it. */
  function GatherLines(lines: seq<string>): Result<Gathered> {
    if |lines| == 0 then Ok(Gathered(None, []))
    else
      var g :- GatherLines(lines[..|lines| - 1]);
      StepLine(g, lines[|lines| - 1])
  }

  /** The result of `go`: the best move and the records by ascending depth, then multipv. */
  datatype Analysis = Analysis(bestmove: Option<string>, infos: seq<seq<Info>>)

  function Analyze(lines: seq<string>): Result<Analysis> {
    var g :- GatherLines(lines);
    GatherWellFormed(lines);
    var infos :- Materialize(g.table);
    Ok(Analysis(g.bestmove, infos))
  }

  lemma {:induction false} GatherWellFormed(lines: seq<string>)
    ensures GatherLines(lines).Ok? ==> WellFormed(GatherLines(lines).value.table)
  {
    if |lines| > 0 && GatherLines(lines).Ok? {
      var init := lines[..|lines| - 1];
      GatherWellFormed(init);
      var g := GatherLines(init).value;
      var items := Words(lines[|lines| - 1]);
      if |items| > 0 && items[0] != "bestmove" && IsInfoLine(items) {
        StoreDistinct(g.table, Tokenize(items[1..]).value);
      }
    }
  }

  /** The record a line contributes, if it is a scored `info` line that decodes. */
  function RecordOf(line: string): Option<Info> {
    var items := Words(line);
    if IsInfoLine(items) && Tokenize(items[1..]).Ok? then Some(Tokenize(items[1..]).value) else None
  }

  /** The move a `bestmove` line names. */
  function BestmoveOf(line: string): Option<string> {
    var items := Words(line);
    if |items| >= 2 && items[0] == "bestmove" then Some(items[1]) else None
  }

  /** Whether a line raises: a bare `bestmove`, or a scored `info` line that does not decode. */
  predicate LineFails(line: string) {
    var items := Words(line);
    (|items| == 1 && items[0] == "bestmove") || (IsInfoLine(items) && Tokenize(items[1..]).Err?)
  }

  /** The latest record among the lines whose depth and multipv are `depth` and `multipv`. */
  function LastRecord(lines: seq<string>, depth: Option<int>, multipv: int): Option<Info> {
    if |lines| == 0 then None
    else
      var r := RecordOf(lines[|lines| - 1]);
      if r.Some? && DepthOf(r.value) == depth && MultipvOf(r.value) == multipv then r
      else LastRecord(lines[..|lines| - 1], depth, multipv)
  }

  /** The move of the latest `bestmove` line. */
  function LastBestmove(lines: seq<string>): Option<string> {
    if |lines| == 0 then None
    else if BestmoveOf(lines[|lines| - 1]).Some? then BestmoveOf(lines[|lines| - 1])
    else LastBestmove(lines[..|lines| - 1])
  }

  /**
   * Gathering fails exactly when some line fails; otherwise the table holds, under each depth and
   * multipv, the latest record with those keys, and the best move is the latest one named.
   */
  lemma {:induction false} GatherSpec(lines: seq<string>)
    ensures GatherLines(lines).Err? <==> exists i :: 0 <= i < |lines| && LineFails(lines[i])
    ensures GatherLines(lines).Ok? ==>
      && GatherLines(lines).value.bestmove == LastBestmove(lines)
      && forall d, m :: Lookup(GatherLines(lines).value.table, d, m) == LastRecord(lines, d, m)
  {
    if |lines| > 0 {
      var init, line := lines[..|lines| - 1], lines[|lines| - 1];
      GatherSpec(init);
      assert forall i :: 0 <= i < |init| ==> init[i] == lines[i];
      if GatherLines(init).Ok? {
        var g := GatherLines(init).value;
        var items := Words(line);
        if IsInfoLine(items) && Tokenize(items[1..]).Ok? {
          var info := Tokenize(items[1..]).value;
          forall d, m ensures Lookup(GatherLines(lines).value.table, d, m) == LastRecord(lines, d, m) {
            if (d, m) != (DepthOf(info), MultipvOf(info)) {
              StoreOthers(g.table, info, d, m);
            }
          }
        }
      }
    }
  }

  /** A failure in the first `i` lines is the failure of all of them. */
  lemma {:induction false} GatherErrPersists(lines: seq<string>, i: nat, e: Exception)
    requires i <= |lines| && GatherLines(lines[..i]) == Err(e)
    ensures GatherLines(lines) == Err(e)
  {
    if i < |lines| {
      var init := lines[..|lines| - 1];
      assert init[..i] == lines[..i];
      GatherErrPersists(init, i, e);
    } else {
      assert lines[..i] == lines;
    }
  }

  // ---------------------------------------------------------------------------
  // Reading engine output

  /**
   * How many lines `read(keyword)` takes from `out`: it stops after the first line that starts with
   * the keyword, or at an empty read once the process has exited; here it also stops when `out`
   * runs out.
   */
  function ReadCount(out: seq<string>, exited: bool, keyword: string): (n: nat)
    ensures n <= |out|
  {
    if |out| == 0 then 0
    else if out[0] == "" && exited then 1
    else if StartsWith(out[0], keyword) then 1
    else 1 + ReadCount(out[1..], exited, keyword)
  }

  /** The lines `read(keyword)` returns: every line it takes except the empty read at exit. */
  function ReadLines(out: seq<string>, exited: bool, keyword: string): seq<string> {
    if |out| == 0 then []
    else if out[0] == "" && exited then []
    else if StartsWith(out[0], keyword) then [out[0]]
    else [out[0]] + ReadLines(out[1..], exited, keyword)
  }

  /** A read stops at its first stopping line, and returns what it took up to there. */
  predicate Stops(line: string, exited: bool, keyword: string) {
    (line == "" && exited) || StartsWith(line, keyword)
  }

  /**
   * `read(keyword)` returns a prefix of the output: the lines up to and including the first one
   * that starts with the keyword, or up to the empty read at which the exited process ends it.
   */
  lemma {:induction false} ReadSpec(out: seq<string>, exited: bool, keyword: string)
    ensures var n, o := ReadCount(out, exited, keyword), ReadLines(out, exited, keyword);
      && (|o| == n || (|o| == n - 1 && out[n - 1] == "" && exited))
      && o == out[..|o|]
      && (forall i :: 0 <= i < n - 1 ==> !Stops(out[i], exited, keyword))
      && (n < |out| ==> n > 0 && Stops(out[n - 1], exited, keyword))
      && (n > 0 && StartsWith(out[n - 1], keyword) && !(out[n - 1] == "" && exited) ==> |o| == n)
  {
    if |out| > 0 && !Stops(out[0], exited, keyword) {
      ReadSpec(out[1..], exited, keyword);
      var o := ReadLines(out, exited, keyword);
      assert o == [out[0]] + ReadLines(out[1..], exited, keyword);
      var n := ReadCount(out, exited, keyword);
      forall i | 0 <= i < n - 1 ensures !Stops(out[i], exited, keyword) {
        if i > 0 {
          assert out[i] == out[1..][i - 1];
        }
      }
    }
  }

  /** A read returns no more lines than it consumes. */
  lemma {:induction false} ReadWithin(out: seq<string>, exited: bool, keyword: string)
    ensures |ReadLines(out, exited, keyword)| <= ReadCount(out, exited, keyword)
  {
    if |out| > 0 && !Stops(out[0], exited, keyword) {
      ReadWithin(out[1..], exited, keyword);
    }
  }

  /** `[setoption(option, value) for option, value in options.items()]` as written commands. */
  function SetOptionCommands(options: Dict<string, string>): (cmds: seq<string>)
    ensures |cmds| == |options|
    ensures forall i :: 0 <= i < |options| ==> cmds[i] == SetOptionCommand(options[i].0, options[i].1)
  {
    if |options| == 0 then []
    else [SetOptionCommand(options[0].0, options[0].1)] + SetOptionCommands(options[1..])
  }

  /**
   * The engine process as the client sees it: what has been written to its input, what it will
   * still print, and whether it has exited.
   */
  class Engine {
    /** `self.options`, each value in its `str()` form. */
    var options: Dict<string, string>
    /** Every message written to the engine, in order. */
    var sent: seq<string>
    /** The lines `readline` will still return, in order. */
    var stdout: seq<string>
    /** Whether `poll()` reports that the process has ended. */
    var exited: bool

    /** `Engine(args, options)`: start the process and run the UCI handshake. */
    constructor (options: Dict<string, string>, stdout: seq<string>, exited: bool)
      ensures this.options == options && this.exited == exited
      ensures sent == ["uci\n"] + SetOptionCommands(options)
      ensures this.stdout == stdout[ReadCount(stdout, exited, "uciok")..]
    {
      this.options := options;
      this.sent := [];
      this.stdout := stdout;
      this.exited := exited;
      new;
      Init();
    }

    method Write(message: string)
      modifies this
      ensures sent == old(sent) + [message]
      ensures stdout == old(stdout) && options == old(options) && exited == old(exited)
    {
      sent := sent + [message];
    }

    method SetOption(name: string, value: string)
      modifies this
      ensures sent == old(sent) + [SetOptionCommand(name, value)]
      ensures stdout == old(stdout) && options == old(options) && exited == old(exited)
    {
      Write(SetOptionCommand(name, value));
    }

    /** `_init`: `uci`, wait for `uciok`, then one `setoption` per configured option. */
    method Init()
      modifies this
      ensures sent == old(sent) + ["uci\n"] + SetOptionCommands(options)
      ensures stdout == old(stdout)[ReadCount(old(stdout), exited, "uciok")..]
      ensures options == old(options) && exited == old(exited)
    {
      Write("uci\n");
      var _ := Read("uciok");
      var i := 0;
      while i < |options|
        invariant 0 <= i <= |options|
        invariant sent == old(sent) + ["uci\n"] + SetOptionCommands(options[..i])
        invariant stdout == old(stdout)[ReadCount(old(stdout), exited, "uciok")..]
        invariant options == old(options) && exited == old(exited)
      {
        SetOption(options[i].0, options[i].1);
        assert options[..i + 1] == options[..i] + [options[i]];
        SetOptionCommandsAppend(options[..i], options[i]);
        i := i + 1;
      }
      assert options[..i] == options;
    }

    /** `newgame`: `ucinewgame`, `isready`, then wait for `readyok`. */
    method NewGame()
      modifies this
      ensures sent == old(sent) + ["ucinewgame\n", "isready\n"]
      ensures stdout == old(stdout)[ReadCount(old(stdout), exited, "readyok")..]
      ensures options == old(options) && exited == old(exited)
    {
      Write("ucinewgame\n");
      Write("isready\n");
      var _ := Read("readyok");
    }

    method Position(fen: string, moves: seq<string>)
      modifies this
      ensures sent == old(sent) + [PositionCommand(fen, moves)]
      ensures stdout == old(stdout) && options == old(options) && exited == old(exited)
    {
      Write(PositionCommand(fen, moves));
    }

    method Stop()
      modifies this
      ensures sent == old(sent) + ["stop\n"]
      ensures stdout == old(stdout) && options == old(options) && exited == old(exited)
    {
      Write("stop\n");
    }

    /** `read(keyword)`: take lines until one starts with the keyword or the exited process has no more. */
    method Read(keyword: string) returns (output: seq<string>)
      modifies this
      ensures output == ReadLines(old(stdout), exited, keyword)
      ensures stdout == old(stdout)[ReadCount(old(stdout), exited, keyword)..]
      ensures sent == old(sent) && options == old(options) && exited == old(exited)
    {
      output := [];
      var rest, done := stdout, false;
      ghost var taken := 0;
      while |rest| > 0 && !done
        invariant taken <= |stdout| && rest == stdout[taken..]
        invariant done ==> output == ReadLines(stdout, exited, keyword) && taken == ReadCount(stdout, exited, keyword)
        invariant !done ==> output + ReadLines(rest, exited, keyword) == ReadLines(stdout, exited, keyword)
        invariant !done ==> taken + ReadCount(rest, exited, keyword) == ReadCount(stdout, exited, keyword)
        decreases |rest|, !done
      {
        var line := rest[0];
        rest := rest[1..];
        taken := taken + 1;
        if line == "" && exited {
          done := true;
        } else {
          output := output + [line];
          done := StartsWith(line, keyword);
        }
      }
      stdout := rest;
    }

    /**
     * `go(**limits)`: send the limits, read up to `bestmove`, and decode the lines read into the
     * best move and the records grouped by depth and multipv.
     */
    method Go(limits: seq<(string, int)>) returns (r: Result<Analysis>)
      modifies this
      ensures sent == old(sent) + [GoCommand(limits)]
      ensures stdout == old(stdout)[ReadCount(old(stdout), exited, "bestmove")..]
      ensures options == old(options) && exited == old(exited)
      ensures r == Analyze(ReadLines(old(stdout), exited, "bestmove"))
    {
      Write(GoCommand(limits));
      var lines := Read("bestmove");
      var gathered := Gather(lines);
      if gathered.Err? {
        return Err(gathered.error);
      }
      GatherWellFormed(lines);
      var rows := Materialize(gathered.value.table);
      if rows.Err? {
        return Err(rows.error);
      }
      r := Ok(Analysis(gathered.value.bestmove, rows.value));
    }
  }

  /**
   * The loop of `go` over the lines read: a `bestmove` line sets the move, and a scored `info`
   * line is tokenized and stored under its depth and multipv.
   */
  method Gather(lines: seq<string>) returns (r: Result<Gathered>)
    ensures r == GatherLines(lines)
  {
    var bestmove: Option<string> := None;
    var infos: Table := [];
    var i := 0;
    while i < |lines|
      invariant 0 <= i <= |lines|
      invariant GatherLines(lines[..i]) == Ok(Gathered(bestmove, infos))
    {
      var items := Words(lines[i]);
      assert lines[..i + 1][..i] == lines[..i] && lines[..i + 1][i] == lines[i];
      if |items| == 0 {
      } else if items[0] == "bestmove" {
        if |items| < 2 {
          GatherErrPersists(lines, i + 1, IndexError);
          return Err(IndexError);
        }
        bestmove := Some(items[1]);
      } else if IsInfoLine(items) {
        assert forall k :: 0 <= k < |items| - 1 ==> items[1..][k] in items;
        var info := ParseInfo(items[1..]);
        if info.Err? {
          GatherErrPersists(lines, i + 1, info.error);
          return Err(info.error);
        }
        infos := Store(infos, info.value);
      }
      i := i + 1;
    }
    assert lines[..i] == lines;
    r := Ok(Gathered(bestmove, infos));
  }

  lemma SetOptionCommandsAppend(options: Dict<string, string>, option: (string, string))
    ensures SetOptionCommands(options + [option]) == SetOptionCommands(options) + [SetOptionCommand(option.0, option.1)]
  {
  }
}
