/**
  The line-number protocol that ties the proposer to the scorer through
  param.csv. _preparation_data writes the header on line 0 and grid row k
  on line k + 1 (BEEMs.py); BO_single.py proposes row k of X_all and
  writes k + 2 into `info`; diff.py reads that number back and edits
  line row - 1 of param.csv, which is therefore line k + 1: grid row k.
 */
module Protocol {
  import opened Wrappers
  import opened Text
  import opened Values
  import Grid
  import BOSingle
  import Diff

  lemma {:induction false} TokenCellsNoNewline(toks: seq<string>)
    requires NoNewlines(toks)
    ensures '\n' !in BOSingle.TokenCells(toks)
    decreases |toks|
  {
    if toks != [] {
      TokenCellsNoNewline(toks[..|toks| - 1]);
    }
  }

  /** func_readinfo reads back the row number the proposer wrote into info. */
  lemma InfoRoundTrip(index: int, toks: seq<string>, names: seq<string>)
    requires |toks| >= |names| && NoNewlines(toks)
    ensures Diff.ReadInfo(BOSingle.InfoText(index, toks, names)) == Ok(index + 2)
  {
    var dec := IntToDecimal(index + 2);
    var cells := BOSingle.TokenCells(toks[..|names|]);
    TokenCellsNoNewline(toks[..|names|]);
    var line := " " + dec + (" " + cells);
    assert BOSingle.InfoText(index, toks, names) == line + ['\n'] + "";
    SplitHead(line, "", '\n');
    FirstToken(" ", dec, " " + cells);
    ParseIntOfDecimal(index + 2);
  }

  /** The lines of param.csv as _preparation_data writes them: the header, then one line per grid row. */
  function GridFileLines(names: seq<string>, x: seq<seq<real>>, py: Runtime): (ls: seq<string>)
    ensures |ls| == |x| + 1 && ls[0] == Grid.HeaderLine(names)
    ensures forall k :: 0 <= k < |x| ==> ls[k + 1] == Grid.RowCells(x[k], py)
  {
    [Grid.HeaderLine(names)] + Grid.RowLines(x, py)
  }

  /** param.csv after grid row k has been scored with d. */
  function ScoredLines(names: seq<string>, x: seq<seq<real>>, k: nat, d: real, py: Runtime): seq<string>
    requires k < |x|
  {
    GridFileLines(names, x, py)[k + 1 := Diff.ScorePrefix(d, py) + Grid.RowCells(x[k], py)]
  }

  lemma GridTextLines(names: seq<string>, x: seq<seq<real>>, py: Runtime)
    requires forall i :: 0 <= i < |names| ==> '\n' !in names[i]
    requires Grid.FormatsWithoutNewline(x, py)
    ensures Grid.GridText(names, x, py) == Unlines(GridFileLines(names, x, py))
    ensures NoNewlines(GridFileLines(names, x, py))
  {
    var ls := GridFileLines(names, x, py);
    assert ls[1..] == Grid.RowLines(x, py);
    Grid.GridLines(names, x, py);
    var parts := Split(Grid.GridText(names, x, py), '\n');
    assert parts[..|ls|] == ls;
  }

  /**
    Scoring the row the proposer chose (row number k + 2) puts the score in
    front of grid row k, on line k + 1, and leaves the header and every
    other row as they were.
   */
  lemma ScoreGridRow(names: seq<string>, x: seq<seq<real>>, k: nat, d: real, py: Runtime)
    requires forall i :: 0 <= i < |names| ==> '\n' !in names[i]
    requires Grid.FormatsWithoutNewline(x, py)
    requires k < |x| && '\n' !in py.percent12_8f(d)
    ensures Diff.ChParam(Grid.GridText(names, x, py), k + 2, d, py) == Ok(Diff.Written(Unlines(ScoredLines(names, x, k, d, py))))
    ensures Split(Unlines(ScoredLines(names, x, k, d, py)), '\n') == ScoredLines(names, x, k, d, py) + [""]
  {
    var ls := GridFileLines(names, x, py);
    GridTextLines(names, x, py);
    Grid.RowDeltaEmpty(x[k], py);
    assert !Diff.Scored(ls[k + 1]);
    Diff.ChParamLines(ls, k + 2, d, py);
  }

  /** Once grid row k carries a score, scoring it again is refused. */
  lemma ScoreGridRowTwice(names: seq<string>, x: seq<seq<real>>, k: nat, d1: real, d2: real, py: Runtime)
    requires forall i :: 0 <= i < |names| ==> '\n' !in names[i]
    requires Grid.FormatsWithoutNewline(x, py)
    requires k < |x| && '\n' !in py.percent12_8f(d1) && ',' !in py.percent12_8f(d1)
    ensures Diff.ChParam(Unlines(ScoredLines(names, x, k, d1, py)), k + 2, d2, py) == Ok(Diff.Rejected)
  {
    var out := ScoredLines(names, x, k, d1, py);
    ScoreGridRow(names, x, k, d1, py);
    Diff.ScoredAfterPrefix(d1, Grid.RowCells(x[k], py), py);
    Diff.ChParamScoredRow(Unlines(out), out, k + 2, d2, py);
  }

  /**
    diff.main on the info file the proposer wrote for grid row k and the
    param.csv _preparation_data wrote: the score goes onto line k + 1.
   */
  lemma DiffMainOnGrid(sim: seq<real>, target: seq<real>, k: nat, toks: seq<string>,
                       names: seq<string>, x: seq<seq<real>>, py: Runtime)
    requires |toks| >= |names| && NoNewlines(toks)
    requires forall i :: 0 <= i < |names| ==> '\n' !in names[i]
    requires Grid.FormatsWithoutNewline(x, py)
    requires k < |x|
    requires Diff.Score(sim, target).Ok? && '\n' !in py.percent12_8f(Diff.Score(sim, target).value)
    ensures var s := Diff.Score(sim, target).value;
      Diff.DiffMain(sim, target, BOSingle.InfoText(k, toks, names), Grid.GridText(names, x, py), py)
        == Ok(Diff.Scoring(s, Diff.Written(Unlines(ScoredLines(names, x, k, s, py)))))
  {
    InfoRoundTrip(k, toks, names);
    ScoreGridRow(names, x, k, Diff.Score(sim, target).value, py);
  }
}
