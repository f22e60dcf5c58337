/**
 * The record format every tool of the repository reads and writes, one position per line:
 * `fen;key value;key value...`. Reading is `tokens = line.strip().split(';')`,
 * `fen = tokens[0]` and `dict(token.split(' ', 1) for token in tokens[1:])`; writing is
 * `'{};{}\n'.format(fen, ';'.join('{} {}'.format(k, v) for k, v in annotations.items()))`.
 */
module Epd {
  import opened Wrappers
  import opened Strings
  import opened Dicts

  type Annotations = Dict<string, string>

  datatype Record = Record(fen: string, annotations: Annotations)

  predicate AllHaveSpace(tokens: seq<string>) {
    forall i :: 0 <= i < |tokens| ==> ' ' in tokens[i]
  }

  /** Each token cut at its first space into a key and a value. */
  function Pairs(tokens: seq<string>): (ps: seq<(string, string)>)
    requires AllHaveSpace(tokens)
    ensures |ps| == |tokens|
    ensures forall i :: 0 <= i < |tokens| ==> ps[i].0 + " " + ps[i].1 == tokens[i] && ' ' !in ps[i].0
  {
    if |tokens| == 0 then [] else [SplitOnce(tokens[0], ' ').value] + Pairs(tokens[1..])
  }

  /**
   * `dict(token.split(' ', 1) for token in tokens)`: a token without a space splits into one
   * piece, which `dict` refuses with ValueError.
   */
  function ParseAnnotations(tokens: seq<string>): (r: Result<Annotations>)
    ensures r.Ok? <==> AllHaveSpace(tokens)
    ensures r.Err? ==> r.error == ValueError
  {
    if AllHaveSpace(tokens) then Ok(FromPairs(Pairs(tokens))) else Err(ValueError)
  }

  /** One line read into its FEN (the text before the first `;`) and its annotations. */
  function ParseRecord(line: string): Result<Record> {
    var tokens := Split(Strip(line), ';');
    var annotations :- ParseAnnotations(tokens[1..]);
    Ok(Record(tokens[0], annotations))
  }

  function AnnotationTokens(annotations: Annotations): (ts: seq<string>)
    ensures |ts| == |annotations|
    ensures forall i :: 0 <= i < |ts| ==> ts[i] == annotations[i].0 + " " + annotations[i].1
  {
    if |annotations| == 0 then []
    else [annotations[0].0 + " " + annotations[0].1] + AnnotationTokens(annotations[1..])
  }

  /** The output line for a record, with its newline. */
  function FormatRecord(r: Record): string {
    r.fen + ";" + Join(AnnotationTokens(r.annotations), ";") + "\n"
  }

  /** What a record needs for its line to read back as the same record. */
  predicate Rereadable(r: Record) {
    && ';' !in r.fen && (|r.fen| > 0 ==> !IsSpace(r.fen[0]))
    && |r.annotations| > 0 && KeysDistinct(r.annotations)
    && (forall i :: 0 <= i < |r.annotations| ==>
          ' ' !in r.annotations[i].0 && ';' !in r.annotations[i].0 && ';' !in r.annotations[i].1)
    && var last := r.annotations[|r.annotations| - 1].1;
       |last| > 0 && !IsSpace(last[|last| - 1])
  }

  lemma StripOfLine(t: string)
    requires |t| > 0 && !IsSpace(t[0]) && !IsSpace(t[|t| - 1])
    ensures Strip(t + "\n") == t
  {
    var s := t + "\n";
    assert StripStart(s) == s;
    assert s[..|s| - 1] == t;
    assert StripEnd(s) == StripEnd(t);
  }

  lemma {:induction false} PairsOfTokens(annotations: Annotations)
    requires forall i :: 0 <= i < |annotations| ==> ' ' !in annotations[i].0
    ensures AllHaveSpace(AnnotationTokens(annotations))
    ensures Pairs(AnnotationTokens(annotations)) == annotations
  {
    var ts := AnnotationTokens(annotations);
    forall i | 0 <= i < |ts| ensures ' ' in ts[i] {
      assert ts[i][|annotations[i].0|] == ' ';
    }
    if |annotations| > 0 {
      var k, v := annotations[0].0, annotations[0].1;
      assert ts[0] == k + [' '] + v;
      assert SplitOnce(ts[0], ' ') == Some((k, v)) by {
        var s := ts[0];
        assert s[|k|] == ' ';
        IndexOfAfterFree(k, ' ', v);
        assert s[..|k|] == k && s[|k| + 1..] == v;
      }
      assert ts[1..] == AnnotationTokens(annotations[1..]);
      PairsOfTokens(annotations[1..]);
    }
  }

  /** A written record reads back as itself: the writer and the reader of the format agree. */
  lemma FormatThenParse(r: Record)
    requires Rereadable(r)
    ensures ParseRecord(FormatRecord(r)) == Ok(r)
  {
    var ts := AnnotationTokens(r.annotations);
    var t := r.fen + ";" + Join(ts, ";");
    FormattedLineStrips(r);
    FormattedLineSplits(r);
    assert Split(Strip(FormatRecord(r)), ';')[1..] == ts;
    PairsOfTokens(r.annotations);
    FromPairsOfDistinct(r.annotations);
  }

  /** The text of a record's line has no surrounding whitespace, so only the newline is stripped. */
  lemma FormattedLineStrips(r: Record)
    requires Rereadable(r)
    ensures Strip(FormatRecord(r)) == r.fen + ";" + Join(AnnotationTokens(r.annotations), ";")
  {
    var ts := AnnotationTokens(r.annotations);
    var t := r.fen + ";" + Join(ts, ";");
    assert FormatRecord(r) == t + "\n";
    var last := r.annotations[|r.annotations| - 1];
    assert |ts| > 0 && ts[|ts| - 1] == last.0 + " " + last.1;
    JoinLastChar(ts, ";");
    assert t[|t| - 1] == last.1[|last.1| - 1];
    if |r.fen| > 0 {
      assert t[0] == r.fen[0];
    } else {
      assert t[0] == ';';
    }
    StripOfLine(t);
  }

  /** The line splits at `;` into the FEN and the annotation tokens. */
  lemma FormattedLineSplits(r: Record)
    requires Rereadable(r)
    ensures Split(r.fen + ";" + Join(AnnotationTokens(r.annotations), ";"), ';') == [r.fen] + AnnotationTokens(r.annotations)
  {
    var ts := AnnotationTokens(r.annotations);
    var ops := Join(ts, ";");
    var t := r.fen + ";" + ops;
    forall i | 0 <= i < |ts| ensures ';' !in ts[i] {
      assert ts[i] == r.annotations[i].0 + " " + r.annotations[i].1;
    }
    JoinThenSplit(ts, ';');
    IndexOfAfterFree(r.fen, ';', ops);
    assert t == r.fen + [';'] + ops;
    assert t[|r.fen|] == ';';
    assert t[..|r.fen|] == r.fen && t[|r.fen| + 1..] == ops;
  }

  lemma {:induction false} JoinLastChar(parts: seq<string>, sep: string)
    requires |parts| > 0 && |parts[|parts| - 1]| > 0
    ensures var j, p := Join(parts, sep), parts[|parts| - 1]; |j| > 0 && j[|j| - 1] == p[|p| - 1]
  {
    if |parts| > 1 {
      JoinLastChar(parts[1..], sep);
    }
  }
}
