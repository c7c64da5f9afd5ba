/**
  Scoring of one evaluated point (solver/diff.py): the row number comes
  from the `info` file, the score is minus the mean squared deviation from
  the target curve, and the score is written into the empty `delta` cell
  of that row of param.csv unless the row is already scored.
 */
module Diff {
  import opened Wrappers
  import opened Text
  import opened Values
  import opened Reals

  // ---------------------------------------------------------------------
  // func_readinfo
  // ---------------------------------------------------------------------

  /** func_readinfo: int() of the first whitespace token of the first line. */
  function ReadInfo(infoText: string): (r: Result<int>)
    ensures var tmp := SplitWs(Split(infoText, '\n')[0]);
      && (r.Ok? <==> tmp != [] && ParseInt(tmp[0]).Some?)
      && (r.Ok? ==> ParseInt(tmp[0]) == Some(r.value))
  {
    var tmp := SplitWs(Split(infoText, '\n')[0]);
    if tmp == [] then Err(IndexError)
    else match ParseInt(tmp[0])
      case None => Err(ValueError(tmp[0]))
      case Some(row) => Ok(row)
  }

  // ---------------------------------------------------------------------
  // func_chparam
  // ---------------------------------------------------------------------

  /** What func_chparam does: refuse (return -1) or write the new file text. */
  datatype ChOutcome = Rejected | Written(text: string)

  /** Python's data[row - 1] on a list of n items: negative indices count from the end. */
  function LineIndex(row: int, n: nat): (r: Option<nat>)
    ensures r.Some? ==> r.value < n
    ensures 1 <= row <= n ==> r == Some(row - 1)
    ensures row == 0 && n > 0 ==> r == Some(n - 1)
  {
    var k := row - 1;
    if 0 <= k < n then Some(k)
    else if k < 0 && k + n >= 0 then Some(k + n)
    else None
  }

  /** A line is scored when the text before its first comma is non-empty. */
  predicate Scored(line: string) {
    Split(line, ',')[0] != []
  }

  /** "%12.8f  " % diff: what is put in front of the row. */
  function ScorePrefix(diff: real, py: Runtime): string {
    py.percent12_8f(diff) + "  "
  }

  /** func_chparam on the text of param.csv. */
  function ChParam(text: string, row: int, diff: real, py: Runtime): (r: Result<ChOutcome>)
    ensures r.Err? <==> LineIndex(row, |Split(text, '\n')|).None?
  {
    var data := Split(text, '\n');
    match LineIndex(row, |data|)
    case None => Err(IndexError)
    case Some(k) =>
      if Scored(data[k]) then Ok(Rejected)
      else
        var edited := data[k := ScorePrefix(diff, py) + data[k]];
        Ok(Written(Unlines(edited[..|data| - 1])))
  }

  /** The row is refused exactly when it already carries a score. */
  lemma ChParamRejected(text: string, row: int, diff: real, py: Runtime)
    requires LineIndex(row, |Split(text, '\n')|).Some?
    ensures ChParam(text, row, diff, py) == Ok(Rejected)
      <==> Scored(Split(text, '\n')[LineIndex(row, |Split(text, '\n')|).value])
  {
  }

  /**
    On a file of whole lines, an unscored row `row` (1-based line index into
    the file, so line row - 1) gets the score in front of it; every other
    line is kept, in order, and the file keeps its number of lines.
   */
  lemma ChParamLines(ls: seq<string>, row: int, diff: real, py: Runtime)
    requires NoNewlines(ls) && 1 <= row <= |ls|
    requires !Scored(ls[row - 1]) && '\n' !in py.percent12_8f(diff)
    ensures var out := ls[row - 1 := ScorePrefix(diff, py) + ls[row - 1]];
      ChParam(Unlines(ls), row, diff, py) == Ok(Written(Unlines(out))) && Split(Unlines(out), '\n') == out + [""]
  {
    SplitUnlines(ls);
    var data := ls + [""];
    assert data[row - 1] == ls[row - 1];
    var out := ls[row - 1 := ScorePrefix(diff, py) + ls[row - 1]];
    assert data[row - 1 := ScorePrefix(diff, py) + data[row - 1]][..|data| - 1] == out;
    ChParamWritten(Unlines(ls), row, diff, py);
    assert NoNewlines(out) by {
      assert '\n' !in "  ";
      assert '\n' !in ScorePrefix(diff, py);
    }
    SplitUnlines(out);
  }

  /** The unfolding of an accepted edit. */
  lemma ChParamWritten(text: string, row: int, diff: real, py: Runtime)
    requires LineIndex(row, |Split(text, '\n')|).Some?
    requires !Scored(Split(text, '\n')[LineIndex(row, |Split(text, '\n')|).value])
    ensures var data, k := Split(text, '\n'), LineIndex(row, |Split(text, '\n')|).value;
      ChParam(text, row, diff, py) == Ok(Written(Unlines(data[k := ScorePrefix(diff, py) + data[k]][..|data| - 1])))
  {
  }

  /** Row 0 addresses the empty piece after the final newline, which is never written back: the file is unchanged. */
  lemma ChParamRowZero(ls: seq<string>, diff: real, py: Runtime)
    requires NoNewlines(ls)
    ensures ChParam(Unlines(ls), 0, diff, py) == Ok(Written(Unlines(ls)))
  {
    SplitUnlines(ls);
    var data := ls + [""];
    assert !Scored(data[|data| - 1]);
    assert data[|data| - 1 := ScorePrefix(diff, py) + ""][..|data| - 1] == ls;
  }

  /** A row scored once is refused the second time. */
  lemma ChParamTwice(ls: seq<string>, row: int, d1: real, d2: real, py: Runtime)
    requires NoNewlines(ls) && 1 <= row <= |ls|
    requires !Scored(ls[row - 1]) && '\n' !in py.percent12_8f(d1) && ',' !in py.percent12_8f(d1)
    ensures var out := ls[row - 1 := ScorePrefix(d1, py) + ls[row - 1]];
      ChParam(Unlines(ls), row, d1, py) == Ok(Written(Unlines(out))) && ChParam(Unlines(out), row, d2, py) == Ok(Rejected)
  {
    ChParamLines(ls, row, d1, py);
    var out := ls[row - 1 := ScorePrefix(d1, py) + ls[row - 1]];
    ScoredAfterPrefix(d1, ls[row - 1], py);
    ChParamScoredRow(Unlines(out), out, row, d2, py);
  }

  /** A score with no comma in it makes the row scored. */
  lemma ScoredAfterPrefix(d: real, l: string, py: Runtime)
    requires ',' !in py.percent12_8f(d)
    ensures Scored(ScorePrefix(d, py) + l)
  {
    var line := ScorePrefix(d, py) + l;
    var f := py.percent12_8f(d);
    if f == [] {
      assert line == [' '] + ([' '] + l);
    } else {
      assert line == [f[0]] + (f[1..] + "  " + l);
    }
    assert line != [] && line[0] != ',';
  }

  /** A scored row in range is refused. */
  lemma ChParamScoredRow(text: string, out: seq<string>, row: int, d: real, py: Runtime)
    requires 1 <= row <= |out| && Split(text, '\n') == out + [""] && Scored(out[row - 1])
    ensures ChParam(text, row, d, py) == Ok(Rejected)
  {
    assert Split(text, '\n')[row - 1] == out[row - 1];
  }

  /** func_chparam: edit data[row - 1] in place, then print the first cnt_max pieces. */
  method ChParamRun(text: string, row: int, diff: real, py: Runtime) returns (r: Result<ChOutcome>)
    ensures r == ChParam(text, row, diff, py)
  {
    var data := Split(text, '\n');
    var cntMax := |data| - 1;
    var k := LineIndex(row, |data|);
    if k.None? {
      return Err(IndexError);
    }
    if Scored(data[k.value]) {
      return Ok(Rejected);
    }
    data := data[k.value := ScorePrefix(diff, py) + data[k.value]];
    var out := "";
    var cnt := 0;
    while cnt < cntMax
      invariant 0 <= cnt <= cntMax
      invariant out == Unlines(data[..cnt])
    {
      UnlinesAppend(data[..cnt], data[cnt]);
      assert data[..cnt + 1] == data[..cnt] + [data[cnt]];
      out := out + data[cnt] + "\n";
      cnt := cnt + 1;
    }
    r := Ok(Written(out));
  }

  // ---------------------------------------------------------------------
  // The score of main
  // ---------------------------------------------------------------------

  function SumSquares(d: seq<real>): (s: real)
    ensures s >= 0.0
  {
    if d == [] then 0.0 else SumSquares(d[..|d| - 1]) + Square(d[|d| - 1])
  }

  /** A sum of squares vanishes exactly when every term is zero. */
  lemma {:induction false} SumSquaresZero(d: seq<real>)
    ensures SumSquares(d) == 0.0 <==> forall i :: 0 <= i < |d| ==> d[i] == 0.0
    decreases |d|
  {
    if d != [] {
      var init := d[..|d| - 1];
      SumSquaresZero(init);
      assert forall i :: 0 <= i < |init| ==> init[i] == d[i];
      if d[|d| - 1] != 0.0 {
        SquarePositive(d[|d| - 1]);
      }
    }
  }

  /** hphi_mag - target_mag with numpy broadcasting of a one-element side. */
  function Deviation(sim: seq<real>, target: seq<real>): (r: Result<seq<real>>)
    ensures |sim| == |target| ==> r.Ok? && |r.value| == |sim|
    ensures |sim| == |target| ==> forall i :: 0 <= i < |sim| ==> r.value[i] == sim[i] - target[i]
    ensures |sim| != |target| && |sim| != 1 && |target| != 1 ==> r.Err?
  {
    if |sim| == |target| then Ok(seq(|sim|, i requires 0 <= i < |sim| => sim[i] - target[i]))
    else if |sim| == 1 then Ok(seq(|target|, i requires 0 <= i < |target| => sim[0] - target[i]))
    else if |target| == 1 then Ok(seq(|sim|, i requires 0 <= i < |sim| => sim[i] - target[0]))
    else Err(Numpy("operands could not be broadcast together"))
  }

  /** diff_mag = -np.mean((hphi_mag - target_mag) ** 2); the mean of nothing is NaN, an error here. */
  function Score(sim: seq<real>, target: seq<real>): (r: Result<real>)
    ensures r.Ok? ==> r.value <= 0.0
  {
    match Deviation(sim, target)
    case Err(e) => Err(e)
    case Ok(d) =>
      if d == [] then Err(Numpy("mean of empty array"))
      else Ok(-(SumSquares(d) / |d| as real))
  }

  /** On aligned curves, the score is zero exactly when they coincide. */
  lemma ScoreZero(sim: seq<real>, target: seq<real>)
    requires |sim| == |target| > 0
    ensures Score(sim, target).Ok?
    ensures Score(sim, target).value == 0.0 <==> sim == target
  {
    var d := Deviation(sim, target).value;
    SumSquaresZero(d);
    if sim == target {
      assert forall i :: 0 <= i < |d| ==> d[i] == 0.0;
    }
    if Score(sim, target).value == 0.0 {
      assert SumSquares(d) == 0.0;
      assert forall i :: 0 <= i < |sim| ==> sim[i] == target[i] by {
        forall i | 0 <= i < |sim| ensures sim[i] == target[i] {
          assert d[i] == sim[i] - target[i] == 0.0;
        }
      }
    }
  }

  // ---------------------------------------------------------------------
  // main
  // ---------------------------------------------------------------------

  /** What main computes: the score, and what func_chparam did to param.csv. */
  datatype Scoring = Scoring(score: real, param: ChOutcome)

  /**
    main(dir_name, target_data) after the magnetisation column of all_mag.csv
    has been read: row from info, the score, and the param.csv update. The
    score is returned whether or not the row was refused.
   */
  function DiffMain(sim: seq<real>, target: seq<real>, infoText: string, paramText: string, py: Runtime): (r: Result<Scoring>)
    ensures r.Ok? ==> Score(sim, target) == Ok(r.value.score) && r.value.score <= 0.0
    ensures r.Ok? ==> ReadInfo(infoText).Ok?
    ensures r.Ok? ==> ChParam(paramText, ReadInfo(infoText).value, r.value.score, py) == Ok(r.value.param)
  {
    match ReadInfo(infoText)
    case Err(e) => Err(e)
    case Ok(row) =>
      match Score(sim, target)
      case Err(e) => Err(e)
      case Ok(s) =>
        match ChParam(paramText, row, s, py)
        case Err(e) => Err(e)
        case Ok(o) => Ok(Scoring(s, o))
  }
}
