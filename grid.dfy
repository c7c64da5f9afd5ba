/**
  The candidate grid of BEEMs (`Propose._preparation_data` in BEEMs.py):
  one linspace per parameter named in the `physbo` section, their Cartesian
  product with the last parameter varying fastest, and param.csv, whose
  header is line 0 and whose row k, with an empty `delta` cell, is line k+1.
 */
module Grid {
  import opened Wrappers
  import opened Text
  import opened Values
  import opened OrderedDict

  // ---------------------------------------------------------------------
  // Axes
  // ---------------------------------------------------------------------

  /** np.linspace(a, b, n): n evenly spaced values from a to b, both included. */
  function Linspace(a: real, b: real, n: nat): (v: seq<real>)
    ensures |v| == n
    ensures n >= 1 ==> v[0] == a
    ensures n >= 2 ==> v[n - 1] == b
    ensures n >= 2 ==> forall i :: 0 <= i < n - 1 ==> v[i + 1] - v[i] == (b - a) / (n - 1) as real
  {
    var step := if n >= 2 then (b - a) / (n - 1) as real else 0.0;
    var v := seq(n, i requires 0 <= i < n => if n >= 2 && i == n - 1 then b else a + i as real * step);
    assert n >= 2 ==> (n - 1) as real * step == b - a;
    assert n >= 2 ==> v[n - 1] - v[n - 2] == step;
    v
  }

  /** int(x) of a TOML number. */
  function IntOf(v: Value): Option<int> {
    match v
    case VInt(i) => Some(i)
    case VReal(r) => Some(Trunc(r))
    case VBool(b) => Some(if b then 1 else 0)
    case _ => None
  }

  /** dict_toml["params"]: the parameter names, in order. */
  function ParamNames(physbo: Dict<Value>): Result<seq<string>> {
    match Get(physbo, "params")
    case None => Err(KeyError("params"))
    case Some(v) =>
      if !v.VList? then Err(TypeError("params"))
      else if exists i :: 0 <= i < |v.items| && !v.items[i].VStr? then Err(KeyError("params"))
      else Ok(seq(|v.items|, i requires 0 <= i < |v.items| => v.items[i].s))
  }

  /** np.linspace(dict_toml[x][0], dict_toml[x][1], int(dict_toml[x][2])) */
  function Axis(physbo: Dict<Value>, name: string): Result<seq<real>> {
    match Get(physbo, name)
    case None => Err(KeyError(name))
    case Some(v) =>
      if !v.VList? then Err(TypeError(name))
      else if |v.items| < 3 then Err(IndexError)
      else if NumberOf(v.items[0]).None? || NumberOf(v.items[1]).None? || IntOf(v.items[2]).None? then Err(TypeError(name))
      else if IntOf(v.items[2]).value < 0 then Err(ValueError(name))
      else Ok(Linspace(NumberOf(v.items[0]).value, NumberOf(v.items[1]).value, IntOf(v.items[2]).value))
  }

  /** The candidate loop: one axis per name, in order. */
  function Axes(physbo: Dict<Value>, names: seq<string>): Result<seq<seq<real>>> {
    if names == [] then Ok([])
    else match Axes(physbo, names[..|names| - 1])
      case Err(e) => Err(e)
      case Ok(axes) =>
        match Axis(physbo, names[|names| - 1])
        case Err(e) => Err(e)
        case Ok(a) => Ok(axes + [a])
  }

  // ---------------------------------------------------------------------
  // The Cartesian product
  // ---------------------------------------------------------------------

  function Prefixed(x: real, rows: seq<seq<real>>): (r: seq<seq<real>>)
    ensures |r| == |rows| && forall k :: 0 <= k < |rows| ==> r[k] == [x] + rows[k]
  {
    seq(|rows|, k requires 0 <= k < |rows| => [x] + rows[k])
  }

  function ProductWith(xs: seq<real>, rest: seq<seq<real>>): seq<seq<real>> {
    if xs == [] then [] else Prefixed(xs[0], rest) + ProductWith(xs[1..], rest)
  }

  /** itertools.product(*axes) */
  function Product(axes: seq<seq<real>>): seq<seq<real>>
    decreases |axes|
  {
    if axes == [] then [[]] else ProductWith(axes[0], Product(axes[1..]))
  }

  /** The product of the axis lengths. */
  function Size(axes: seq<seq<real>>): nat {
    if axes == [] then 1 else |axes[0]| * Size(axes[1..])
  }

  /** Entry i * |rest| + r of the product with `rest` pairs value i with row r. */
  lemma {:induction false} ProductWithAt(xs: seq<real>, rest: seq<seq<real>>, i: nat, r: nat)
    requires i < |xs| && r < |rest|
    ensures |ProductWith(xs, rest)| == |xs| * |rest|
    ensures i * |rest| + r < |ProductWith(xs, rest)|
    ensures ProductWith(xs, rest)[i * |rest| + r] == [xs[i]] + rest[r]
    decreases |xs|
  {
    var n := |rest|;
    ProductWithSize(xs, rest);
    MulBound(i, |xs|, r, n);
    assert ProductWith(xs, rest) == Prefixed(xs[0], rest) + ProductWith(xs[1..], rest);
    if i > 0 {
      ProductWithAt(xs[1..], rest, i - 1, r);
      MulShift(i, r, n);
      assert xs[1..][i - 1] == xs[i];
    }
  }

  lemma MulBound(i: nat, m: nat, r: nat, n: nat)
    requires i < m && r < n
    ensures i * n + r < m * n
  {
    assert (i + 1) * n == i * n + n;
    MulMono(i + 1, m, n);
  }

  lemma {:induction false} MulMono(a: nat, b: nat, n: nat)
    requires a <= b
    ensures a * n <= b * n
    decreases b - a
  {
    if a < b {
      MulMono(a, b - 1, n);
      assert b * n == (b - 1) * n + n;
    }
  }

  lemma MulShift(i: nat, r: nat, n: nat)
    requires i > 0
    ensures i * n + r == n + ((i - 1) * n + r)
  {
  }

  lemma {:induction false} ProductWithSize(xs: seq<real>, rest: seq<seq<real>>)
    ensures |ProductWith(xs, rest)| == |xs| * |rest|
    decreases |xs|
  {
    if xs != [] {
      ProductWithSize(xs[1..], rest);
      assert |xs| * |rest| == |rest| + (|xs| - 1) * |rest|;
    }
  }

  /** The grid has as many rows as the product of the candidate counts. */
  lemma {:induction false} ProductSize(axes: seq<seq<real>>)
    ensures |Product(axes)| == Size(axes)
    decreases |axes|
  {
    if axes != [] {
      ProductSize(axes[1..]);
      ProductWithSize(axes[0], Product(axes[1..]));
    }
  }

  /**
    The first parameter varies slowest: row i * Size(rest) + r of the grid
    is value i of the first axis followed by row r of the grid of the rest.
   */
  lemma ProductAt(axes: seq<seq<real>>, i: nat, r: nat)
    requires |axes| >= 1 && i < |axes[0]| && r < Size(axes[1..])
    ensures |Product(axes[1..])| == Size(axes[1..])
    ensures i * Size(axes[1..]) + r < |Product(axes)|
    ensures Product(axes)[i * Size(axes[1..]) + r] == [axes[0][i]] + Product(axes[1..])[r]
  {
    ProductSize(axes[1..]);
    ProductWithAt(axes[0], Product(axes[1..]), i, r);
  }

  /** Each row of a product with `rest` is a value of xs followed by a row of rest. */
  lemma {:induction false} ProductWithRow(xs: seq<real>, rest: seq<seq<real>>, k: nat)
    requires k < |ProductWith(xs, rest)|
    ensures |ProductWith(xs, rest)[k]| >= 1
    ensures ProductWith(xs, rest)[k][0] in xs && ProductWith(xs, rest)[k][1..] in rest
    decreases |xs|
  {
    var p := Prefixed(xs[0], rest);
    var tail := ProductWith(xs[1..], rest);
    assert ProductWith(xs, rest) == p + tail;
    if k < |p| {
      assert ProductWith(xs, rest)[k] == [xs[0]] + rest[k];
    } else {
      ProductWithRow(xs[1..], rest, k - |p|);
      assert ProductWith(xs, rest)[k] == tail[k - |p|];
    }
  }

  /** Every grid row has one coordinate per axis, taken from that axis. */
  lemma {:induction false} ProductRows(axes: seq<seq<real>>, k: nat)
    requires k < |Product(axes)|
    ensures |Product(axes)[k]| == |axes|
    ensures forall j :: 0 <= j < |axes| ==> Product(axes)[k][j] in axes[j]
    decreases |axes|
  {
    if axes != [] {
      var rest := Product(axes[1..]);
      var row := Product(axes)[k];
      ProductWithRow(axes[0], rest, k);
      var r :| 0 <= r < |rest| && rest[r] == row[1..];
      ProductRows(axes[1..], r);
      forall j | 0 <= j < |axes| ensures row[j] in axes[j] {
        if j > 0 {
          assert row[j] == rest[r][j - 1];
          assert axes[1..][j - 1] == axes[j];
        }
      }
    }
  }

  // ---------------------------------------------------------------------
  // param.csv
  // ---------------------------------------------------------------------

  /** "delta," followed by "<name>_cand," for each name, as the header loop builds it. */
  function HeaderBuilt(names: seq<string>): (h: string)
    ensures |h| >= 6 && h[|h| - 1] == ','
  {
    if names == [] then "delta," else HeaderBuilt(names[..|names| - 1]) + names[|names| - 1] + "_cand,"
  }

  /** header[:-1]: the header without its last comma. */
  function HeaderLine(names: seq<string>): string {
    var h := HeaderBuilt(names);
    h[..|h| - 1]
  }

  /** The header cells: "delta" and then "<name>_cand" for each name. */
  function HeaderCells(names: seq<string>): (cs: seq<string>)
    ensures |cs| == |names| + 1 && cs[0] == "delta"
    ensures forall i :: 0 <= i < |names| ==> cs[i + 1] == names[i] + "_cand"
  {
    ["delta"] + seq(|names|, i requires 0 <= i < |names| => names[i] + "_cand")
  }

  predicate NoComma(names: seq<string>) {
    forall i :: 0 <= i < |names| ==> ',' !in names[i]
  }

  /** Appending a name adds one cell after the previous header line. */
  lemma HeaderLineStep(names: seq<string>)
    requires names != []
    ensures HeaderLine(names) == HeaderLine(names[..|names| - 1]) + [','] + (names[|names| - 1] + "_cand")
  {
    var hi := HeaderBuilt(names[..|names| - 1]);
    var cell := names[|names| - 1] + "_cand";
    assert hi == hi[..|hi| - 1] + [','];
    assert HeaderBuilt(names) == hi + cell + [','];
  }

  lemma HeaderCellsStep(names: seq<string>)
    requires names != []
    ensures HeaderCells(names) == HeaderCells(names[..|names| - 1]) + [names[|names| - 1] + "_cand"]
  {
    var a, b := HeaderCells(names), HeaderCells(names[..|names| - 1]) + [names[|names| - 1] + "_cand"];
    assert |a| == |b|;
    forall i | 0 <= i < |a| ensures a[i] == b[i] {
      if 0 < i < |a| - 1 {
        assert a[i] == names[i - 1] + "_cand";
      }
    }
  }

  /** The header has no trailing comma: its comma-separated cells are "delta" and "<p>_cand" for each parameter. */
  lemma {:induction false} HeaderSplit(names: seq<string>)
    requires NoComma(names)
    ensures Split(HeaderLine(names), ',') == HeaderCells(names)
    decreases |names|
  {
    if names == [] {
      assert HeaderLine(names) == "delta";
      SplitNoSep("delta", ',');
    } else {
      var init, last := names[..|names| - 1], names[|names| - 1];
      assert NoComma(init) by {
        assert forall i :: 0 <= i < |init| ==> init[i] == names[i];
      }
      HeaderSplit(init);
      var cell := last + "_cand";
      HeaderLineStep(names);
      SplitAt(HeaderLine(init), cell, ',');
      assert ',' !in cell by {
        assert ',' !in last;
        assert ',' !in "_cand";
      }
      SplitNoSep(cell, ',');
      HeaderCellsStep(names);
      calc {
        Split(HeaderLine(names), ',');
        Split(HeaderLine(init) + [','] + cell, ',');
        Split(HeaderLine(init), ',') + Split(cell, ',');
        HeaderCells(init) + [cell];
      }
    }
  }

  /** One grid row as written: ",%f" per coordinate. */
  function RowCells(row: seq<real>, py: Runtime): string {
    if row == [] then "" else RowCells(row[..|row| - 1], py) + "," + py.percentF(row[|row| - 1])
  }

  /** The rows of param.csv after the header. */
  function RowLines(x: seq<seq<real>>, py: Runtime): (ls: seq<string>)
    ensures |ls| == |x| && forall k :: 0 <= k < |x| ==> ls[k] == RowCells(x[k], py)
  {
    seq(|x|, k requires 0 <= k < |x| => RowCells(x[k], py))
  }

  /** The text of param.csv. */
  function GridText(names: seq<string>, x: seq<seq<real>>, py: Runtime): string {
    HeaderLine(names) + "\n" + Unlines(RowLines(x, py))
  }

  /** _preparation_data: the text of param.csv for the physbo section. */
  function PreparationText(physbo: Dict<Value>, py: Runtime): Result<string> {
    match ParamNames(physbo)
    case Err(e) => Err(e)
    case Ok(names) =>
      match Axes(physbo, names)
      case Err(e) => Err(e)
      case Ok(axes) => Ok(GridText(names, Product(axes), py))
  }

  /** A written row starts with an empty delta cell. */
  lemma RowDeltaEmpty(row: seq<real>, py: Runtime)
    ensures Split(RowCells(row, py), ',')[0] == ""
  {
    if row != [] {
      RowStartsWithComma(row, py);
      var c := RowCells(row, py);
      assert c == [] + [','] + c[1..];
      SplitAt([], c[1..], ',');
    }
  }

  lemma {:induction false} RowStartsWithComma(row: seq<real>, py: Runtime)
    requires row != []
    ensures RowCells(row, py) != [] && RowCells(row, py)[0] == ','
    decreases |row|
  {
    if |row| > 1 {
      RowStartsWithComma(row[..|row| - 1], py);
    }
  }

  predicate FormatsWithoutNewline(x: seq<seq<real>>, py: Runtime) {
    forall k, j :: 0 <= k < |x| && 0 <= j < |x[k]| ==> '\n' !in py.percentF(x[k][j])
  }

  lemma {:induction false} RowCellsNoNewline(row: seq<real>, py: Runtime)
    requires forall j :: 0 <= j < |row| ==> '\n' !in py.percentF(row[j])
    ensures '\n' !in RowCells(row, py)
    decreases |row|
  {
    if row != [] {
      RowCellsNoNewline(row[..|row| - 1], py);
    }
  }

  lemma {:induction false} HeaderNoNewline(names: seq<string>)
    requires forall i :: 0 <= i < |names| ==> '\n' !in names[i]
    ensures '\n' !in HeaderBuilt(names)
    decreases |names|
  {
    if names != [] {
      HeaderNoNewline(names[..|names| - 1]);
    }
  }

  /**
    The line-number layout of param.csv: line 0 is the header and line k+1
    is grid row k; every line ends with a newline.
   */
  lemma GridLines(names: seq<string>, x: seq<seq<real>>, py: Runtime)
    requires forall i :: 0 <= i < |names| ==> '\n' !in names[i]
    requires FormatsWithoutNewline(x, py)
    ensures Split(GridText(names, x, py), '\n') == [HeaderLine(names)] + RowLines(x, py) + [""]
  {
    var ls := [HeaderLine(names)] + RowLines(x, py);
    HeaderNoNewline(names);
    forall k | 0 <= k < |x| ensures '\n' !in RowCells(x[k], py) {
      RowCellsNoNewline(x[k], py);
    }
    assert NoNewlines(ls);
    assert ls[1..] == RowLines(x, py);
    assert Unlines(ls) == GridText(names, x, py);
    SplitUnlines(ls);
  }

  // ---------------------------------------------------------------------
  // The loops of _preparation_data
  // ---------------------------------------------------------------------

  lemma {:induction false} AxesErr(physbo: Dict<Value>, names: seq<string>, i: nat)
    requires i < |names| && Axes(physbo, names[..i]).Ok? && Axis(physbo, names[i]).Err?
    ensures Axes(physbo, names) == Err(Axis(physbo, names[i]).error)
    decreases |names|
  {
    if |names| > i + 1 {
      var init := names[..|names| - 1];
      assert init[..i] == names[..i] && init[i] == names[i];
      AxesErr(physbo, init, i);
    } else {
      assert names[..|names| - 1] == names[..i];
    }
  }

  /** The candidate loop. */
  method BuildAxes(physbo: Dict<Value>, names: seq<string>) returns (r: Result<seq<seq<real>>>)
    ensures r == Axes(physbo, names)
  {
    var cands: seq<seq<real>> := [];
    var i := 0;
    while i < |names|
      invariant 0 <= i <= |names|
      invariant Axes(physbo, names[..i]) == Ok(cands)
    {
      assert names[..i + 1][..i] == names[..i];
      var a := Axis(physbo, names[i]);
      if a.Err? {
        AxesErr(physbo, names, i);
        return Err(a.error);
      }
      cands := cands + [a.value];
      i := i + 1;
    }
    assert names[..i] == names;
    r := Ok(cands);
  }

  /** The header loop and header[:-1] + "\n". */
  method WriteHeader(names: seq<string>) returns (text: string)
    ensures text == HeaderLine(names) + "\n"
  {
    var header := "delta,";
    var i := 0;
    while i < |names|
      invariant 0 <= i <= |names|
      invariant header == HeaderBuilt(names[..i])
    {
      assert names[..i + 1][..i] == names[..i];
      header := header + names[i] + "_cand,";
      i := i + 1;
    }
    assert names[..i] == names;
    text := header[..|header| - 1] + "\n";
  }

  /** The nested row loops: ",%f" per coordinate, then a newline per row. */
  method WriteRows(x: seq<seq<real>>, py: Runtime) returns (text: string)
    ensures text == Unlines(RowLines(x, py))
  {
    text := "";
    var i := 0;
    while i < |x|
      invariant 0 <= i <= |x|
      invariant text == Unlines(RowLines(x[..i], py))
    {
      var line := "";
      var j := 0;
      while j < |x[i]|
        invariant 0 <= j <= |x[i]|
        invariant line == RowCells(x[i][..j], py)
      {
        assert x[i][..j + 1][..j] == x[i][..j];
        line := line + "," + py.percentF(x[i][j]);
        j := j + 1;
      }
      assert x[i][..j] == x[i];
      assert RowLines(x[..i + 1], py) == RowLines(x[..i], py) + [line];
      UnlinesAppend(RowLines(x[..i], py), line);
      text := text + line + "\n";
      i := i + 1;
    }
    assert x[..i] == x;
  }

  /** _preparation_data: the candidate loop, the product, and param.csv. */
  method PreparationData(physbo: Dict<Value>, py: Runtime) returns (r: Result<string>)
    ensures r == PreparationText(physbo, py)
  {
    var names := ParamNames(physbo);
    if names.Err? {
      return Err(names.error);
    }
    var axes := BuildAxes(physbo, names.value);
    if axes.Err? {
      return Err(axes.error);
    }
    var x := Product(axes.value);
    var header := WriteHeader(names.value);
    var rows := WriteRows(x, py);
    r := Ok(header + rows);
  }
}
