/**
  The driver (job.py): the number of spins, the best row of param.csv,
  the restart point from the `BO_No<n>` directories, the iteration range
  with its Random/Bayesian label, the best.csv log, the consistency check
  of the store's basic info against the configuration, and the decision
  between restart and fresh mode.
 */
module Job {
  import opened Wrappers
  import opened Text
  import opened Values
  import opened OrderedDict

  // ---------------------------------------------------------------------
  // get_num_spin
  // ---------------------------------------------------------------------

  /** Python's `a * b` on two numbers from the configuration. */
  function Mul(a: Value, b: Value): (r: Result<Value>)
    ensures a.VInt? && b.VInt? ==> r == Ok(VInt(a.i * b.i))
  {
    if (a.VInt? || a.VBool?) && (b.VInt? || b.VBool?) then
      Ok(VInt(Trunc(NumberOf(a).value) * Trunc(NumberOf(b).value)))
    else if NumberOf(a).Some? && NumberOf(b).Some? then Ok(VReal(NumberOf(a).value * NumberOf(b).value))
    else Err(TypeError("*"))
  }

  /** hphi_params[name], with the errors of the lookup. */
  function Entry(toml: Dict<Value>, name: string): (r: Result<Value>)
    ensures r.Ok? ==> Get(toml, "hphi_params").Some? && Get(toml, "hphi_params").value.VTable?
    ensures r.Ok? ==> Get(Get(toml, "hphi_params").value.entries, name) == Some(r.value)
  {
    match Get(toml, "hphi_params")
    case None => Err(KeyError("hphi_params"))
    case Some(h) =>
      if !h.VTable? then Err(TypeError("hphi_params"))
      else match Get(h.entries, name)
        case None => Err(KeyError(name))
        case Some(v) => Ok(v)
  }

  /** get_num_spin: L on a chain (any case), L * W otherwise. */
  function GetNumSpin(toml: Dict<Value>): (r: Result<Value>)
    ensures r.Ok? ==> Entry(toml, "lattice").Ok? && Entry(toml, "lattice").value.VStr? && Entry(toml, "L").Ok?
    ensures r.Ok? && Lower(Entry(toml, "lattice").value.s) == "chain" ==> r.value == Entry(toml, "L").value
    ensures r.Ok? && Lower(Entry(toml, "lattice").value.s) != "chain" ==>
      Entry(toml, "W").Ok? && Mul(Entry(toml, "L").value, Entry(toml, "W").value) == r
  {
    match Entry(toml, "lattice")
    case Err(e) => Err(e)
    case Ok(lattice) =>
      if !lattice.VStr? then Err(TypeError("lower"))
      else if Lower(lattice.s) == "chain" then Entry(toml, "L")
      else match Entry(toml, "L")
        case Err(e) => Err(e)
        case Ok(l) =>
          match Entry(toml, "W")
          case Err(e) => Err(e)
          case Ok(w) => Mul(l, w)
  }

  // ---------------------------------------------------------------------
  // get_best_delta
  // ---------------------------------------------------------------------

  /** param.csv as pandas reads it: the column names and the rows (None is NaN). */
  datatype Frame = Frame(columns: seq<string>, rows: seq<seq<Option<real>>>)

  predicate WellFormed(df: Frame) {
    forall i :: 0 <= i < |df.rows| ==> |df.rows[i]| == |df.columns|
  }

  /** Column `c` read at row `i` as a value (None is NaN). */
  function Column(df: Frame, c: nat): (col: seq<Option<real>>)
    requires WellFormed(df) && c < |df.columns|
    ensures |col| == |df.rows| && forall i :: 0 <= i < |df.rows| ==> col[i] == df.rows[i][c]
  {
    seq(|df.rows|, i requires 0 <= i < |df.rows| => df.rows[i][c])
  }

  /** Series.idxmax(): the first row holding the largest value, NaN skipped; None when every value is NaN. */
  function IdxMax(col: seq<Option<real>>): (r: Option<nat>)
    ensures r.Some? ==> r.value < |col| && col[r.value].Some?
    ensures r.None? <==> forall i :: 0 <= i < |col| ==> col[i].None?
  {
    if col == [] then None
    else
      var last := |col| - 1;
      match IdxMax(col[..last])
      case None => if col[last].Some? then Some(last) else None
      case Some(m) =>
        if col[last].Some? && col[last].value > col[m].value then Some(last) else Some(m)
  }

  /** idxmax picks a largest value, and the first of the rows that hold it. */
  lemma {:induction false} IdxMaxIsMax(col: seq<Option<real>>)
    requires IdxMax(col).Some?
    ensures var m := IdxMax(col).value;
      && (forall i :: 0 <= i < |col| && col[i].Some? ==> col[i].value <= col[m].value)
      && (forall i :: 0 <= i < m && col[i].Some? ==> col[i].value < col[m].value)
    decreases |col|
  {
    var last := |col| - 1;
    var init := col[..last];
    if IdxMax(init).Some? {
      IdxMaxIsMax(init);
    }
  }

  /** The parameter name of a column: its name up to the first "_". */
  function ParamName(column: string): string {
    Split(column, '_')[0]
  }

  /** The dict of the best row: each column other than delta under its parameter name (a later column wins). */
  function BestParameters(df: Frame, i: nat, n: nat): (d: Dict<Option<real>>)
    requires WellFormed(df) && i < |df.rows| && n <= |df.columns|
  {
    if n == 0 then []
    else
      var d := BestParameters(df, i, n - 1);
      if df.columns[n - 1] != "delta" then Set(d, ParamName(df.columns[n - 1]), df.rows[i][n - 1]) else d
  }

  datatype Best = Best(delta: real, parameters: Dict<Option<real>>)

  /** The position of the first column named `name`. */
  function ColumnIndex(columns: seq<string>, name: string): (r: Option<nat>)
    ensures r.Some? ==> r.value < |columns| && columns[r.value] == name
    ensures r.None? <==> name !in columns
  {
    if columns == [] then None
    else if columns[0] == name then Some(0)
    else match ColumnIndex(columns[1..], name)
      case None => None
      case Some(i) => Some(i + 1)
  }

  /** get_best_delta: KeyError without a delta column, ValueError when no row is scored. */
  function GetBestDelta(df: Frame): (r: Result<Best>)
    requires WellFormed(df)
    ensures r.Err? <==> "delta" !in df.columns || forall i :: 0 <= i < |df.rows| ==> df.rows[i][ColumnIndex(df.columns, "delta").value].None?
  {
    match ColumnIndex(df.columns, "delta")
    case None => Err(KeyError("delta"))
    case Some(c) =>
      match IdxMax(Column(df, c))
      case None => Err(ValueError("attempt to get argmax of an empty sequence"))
      case Some(i) => Ok(Best(df.rows[i][c].value, BestParameters(df, i, |df.columns|)))
  }

  /**
    The best delta is the largest score in the delta column, taken from
    the first row that holds it, and each parameter of that row appears
    under its name.
   */
  lemma BestDeltaIsMax(df: Frame)
    requires WellFormed(df) && GetBestDelta(df).Ok?
    ensures var c := ColumnIndex(df.columns, "delta").value;
      var b := GetBestDelta(df).value;
      && (forall i :: 0 <= i < |df.rows| && df.rows[i][c].Some? ==> df.rows[i][c].value <= b.delta)
      && (exists i :: 0 <= i < |df.rows| && df.rows[i][c] == Some(b.delta))
  {
    var c := ColumnIndex(df.columns, "delta").value;
    var col := Column(df, c);
    IdxMaxIsMax(col);
    var m := IdxMax(col).value;
    assert df.rows[m][c] == col[m];
  }

  /** The parameters dict holds one entry per distinct parameter name, "delta" excluded, with the value of the last such column. */
  lemma {:induction false} BestParametersGet(df: Frame, i: nat, n: nat, c: nat)
    requires WellFormed(df) && i < |df.rows| && n <= |df.columns|
    requires c < n && df.columns[c] != "delta"
    requires forall c' :: c < c' < n ==> df.columns[c'] == "delta" || ParamName(df.columns[c']) != ParamName(df.columns[c])
    ensures UniqueKeys(BestParameters(df, i, n))
    ensures Get(BestParameters(df, i, n), ParamName(df.columns[c])) == Some(df.rows[i][c])
    decreases n
  {
    BestParametersUnique(df, i, n);
    if c == n - 1 {
      BestParametersLast(df, i, n);
    } else {
      var k := ParamName(df.columns[c]);
      assert df.columns[n - 1] == "delta" || ParamName(df.columns[n - 1]) != k;
      BestParametersGet(df, i, n - 1, c);
      BestParametersOther(df, i, n, k);
    }
  }

  lemma BestParametersLast(df: Frame, i: nat, n: nat)
    requires WellFormed(df) && i < |df.rows| && 0 < n <= |df.columns| && df.columns[n - 1] != "delta"
    ensures Get(BestParameters(df, i, n), ParamName(df.columns[n - 1])) == Some(df.rows[i][n - 1])
  {
    BestParametersUnique(df, i, n - 1);
    SetKeys(BestParameters(df, i, n - 1), ParamName(df.columns[n - 1]), df.rows[i][n - 1]);
  }

  lemma BestParametersOther(df: Frame, i: nat, n: nat, k: string)
    requires WellFormed(df) && i < |df.rows| && 0 < n <= |df.columns|
    requires df.columns[n - 1] == "delta" || ParamName(df.columns[n - 1]) != k
    ensures Get(BestParameters(df, i, n), k) == Get(BestParameters(df, i, n - 1), k)
  {
    if df.columns[n - 1] != "delta" {
      SetGetOther(BestParameters(df, i, n - 1), ParamName(df.columns[n - 1]), df.rows[i][n - 1]);
    }
  }

  lemma {:induction false} BestParametersUnique(df: Frame, i: nat, n: nat)
    requires WellFormed(df) && i < |df.rows| && n <= |df.columns|
    ensures UniqueKeys(BestParameters(df, i, n))
    decreases n
  {
    if n > 0 {
      BestParametersUnique(df, i, n - 1);
      if df.columns[n - 1] != "delta" {
        SetFacts(BestParameters(df, i, n - 1), ParamName(df.columns[n - 1]), df.rows[i][n - 1]);
      }
    }
  }

  /** The loop of get_best_delta over the columns. */
  method BestParametersRun(df: Frame, i: nat) returns (best: Dict<Option<real>>)
    requires WellFormed(df) && i < |df.rows|
    ensures best == BestParameters(df, i, |df.columns|)
  {
    best := [];
    var n := 0;
    while n < |df.columns|
      invariant 0 <= n <= |df.columns|
      invariant best == BestParameters(df, i, n)
    {
      if df.columns[n] != "delta" {
        best := Set(best, ParamName(df.columns[n]), df.rows[i][n]);
      }
      n := n + 1;
    }
  }

  method GetBestDeltaRun(df: Frame) returns (r: Result<Best>)
    requires WellFormed(df)
    ensures r == GetBestDelta(df)
  {
    var c := ColumnIndex(df.columns, "delta");
    if c.None? {
      return Err(KeyError("delta"));
    }
    var iBest := IdxMax(Column(df, c.value));
    if iBest.None? {
      return Err(ValueError("attempt to get argmax of an empty sequence"));
    }
    var best := BestParametersRun(df, iBest.value);
    r := Ok(Best(df.rows[iBest.value][c.value].value, best));
  }

  // ---------------------------------------------------------------------
  // The restart point of run_beems
  // ---------------------------------------------------------------------

  /** int(bo_dir.split("/")[-1].replace("BO_No", "")) */
  function DirNumber(path: string): Option<int> {
    var parts := Split(path, '/');
    ParseInt(RemoveAll(parts[|parts| - 1], "BO_No"))
  }

  /** The numbers of all the directories found; ValueError at the first that has none. */
  function DirNumbers(paths: seq<string>): (r: Result<seq<int>>)
    ensures r.Ok? ==> |r.value| == |paths| && forall j :: 0 <= j < |paths| ==> DirNumber(paths[j]) == Some(r.value[j])
    ensures r.Err? <==> exists j :: 0 <= j < |paths| && DirNumber(paths[j]).None?
  {
    if paths == [] then Ok([])
    else match DirNumbers(paths[..|paths| - 1])
      case Err(e) => Err(e)
      case Ok(ns) =>
        match DirNumber(paths[|paths| - 1])
        case None => Err(ValueError(paths[|paths| - 1]))
        case Some(n) => Ok(ns + [n])
  }

  function Max(ns: seq<int>): (m: int)
    requires ns != []
    ensures m in ns && forall j :: 0 <= j < |ns| ==> ns[j] <= m
  {
    if |ns| == 1 then ns[0]
    else var m := Max(ns[..|ns| - 1]); if ns[|ns| - 1] > m then ns[|ns| - 1] else m
  }

  /** Whether run_beems restarts, and the last iteration already done. */
  datatype Start = Start(restart: bool, maxNum: int)

  /** The restart handling of run_beems, given the paths glob finds for BO_No* in the summary directory. */
  function RestartPoint(restart: bool, found: seq<string>): (r: Result<Start>)
    ensures r.Ok? && r.value.restart ==> restart && found != [] && DirNumbers(found).Ok?
    ensures r.Ok? && r.value.restart ==> r.value.maxNum in DirNumbers(found).value
    ensures r.Ok? && r.value.restart ==> forall j :: 0 <= j < |found| ==> DirNumber(found[j]).value <= r.value.maxNum
    ensures r.Ok? && !r.value.restart ==> r.value.maxNum == 0
    ensures restart && found != [] ==> (r.Ok? <==> DirNumbers(found).Ok?) && (r.Ok? ==> r.value.restart)
    ensures !restart || found == [] ==> r == Ok(Start(false, 0))
  {
    if !restart || found == [] then Ok(Start(false, 0))
    else match DirNumbers(found)
      case Err(e) => Err(e)
      case Ok(ns) => Ok(Start(true, Max(ns)))
  }

  /** The name written for iteration n under a directory: its number is read back. */
  lemma DirNumberOfName(dir: string, n: nat)
    ensures DirNumber(dir + "/" + "BO_No" + NatToDecimal(n)) == Some(n)
  {
    var name := "BO_No" + NatToDecimal(n);
    assert '/' !in name by {
      assert forall k :: 0 <= k < |NatToDecimal(n)| ==> IsDigit(NatToDecimal(n)[k]);
    }
    SplitNoSep(name, '/');
    SplitAt(dir, name, '/');
    assert dir + "/" + "BO_No" + NatToDecimal(n) == dir + ['/'] + name;
    var d := NatToDecimal(n);
    assert name[..5] == "BO_No" && name[5..] == d;
    assert 'B' !in d by {
      assert forall k :: 0 <= k < |d| ==> IsDigit(d[k]);
    }
    RemoveAllAbsent(d, "BO_No");
    assert RemoveAll(name, "BO_No") == d;
    ParseIntOfDecimal(n);
    assert IntToDecimal(n) == d;
  }

  /** The loop that collects the numbers. */
  method DirNumbersRun(found: seq<string>) returns (r: Result<seq<int>>)
    ensures r.Ok? <==> DirNumbers(found).Ok?
    ensures r.Ok? ==> r == DirNumbers(found)
  {
    var nums: seq<int> := [];
    var j := 0;
    while j < |found|
      invariant 0 <= j <= |found|
      invariant DirNumbers(found[..j]) == Ok(nums)
    {
      assert found[..j + 1][..j] == found[..j];
      var n := DirNumber(found[j]);
      if n.None? {
        return Err(ValueError(found[j]));
      }
      nums := nums + [n.value];
      j := j + 1;
    }
    assert found[..j] == found;
    r := Ok(nums);
  }

  /** max(nums) */
  method MaxRun(nums: seq<int>) returns (m: int)
    requires nums != []
    ensures m == Max(nums)
  {
    m := nums[0];
    var k := 1;
    while k < |nums|
      invariant 1 <= k <= |nums|
      invariant m == Max(nums[..k])
    {
      assert nums[..k + 1][..k] == nums[..k];
      if nums[k] > m {
        m := nums[k];
      }
      k := k + 1;
    }
    assert nums[..k] == nums;
  }

  /** The restart handling: collect the numbers, then max(). */
  method RestartPointRun(restart: bool, found: seq<string>) returns (r: Result<Start>)
    ensures r.Ok? <==> RestartPoint(restart, found).Ok?
    ensures r.Ok? ==> r == RestartPoint(restart, found)
  {
    if !restart || found == [] {
      return Ok(Start(false, 0));
    }
    var nums := DirNumbersRun(found);
    if nums.Err? {
      return Err(nums.error);
    }
    var m := MaxRun(nums.value);
    r := Ok(Start(true, m));
  }

  // ---------------------------------------------------------------------
  // The iterations of run_beems
  // ---------------------------------------------------------------------

  /** range(max_num + 1, max_itr + 1) */
  function Iterations(maxNum: int, maxItr: int): (its: seq<int>)
    ensures |its| == if maxItr > maxNum then maxItr - maxNum else 0
    ensures forall j :: 0 <= j < |its| ==> its[j] == maxNum + 1 + j
    decreases maxItr - maxNum
  {
    if maxItr <= maxNum then [] else Iterations(maxNum, maxItr - 1) + [maxItr]
  }

  datatype RunType = RandomRun | BayesianRun

  /** The label of iteration i: "Random" iff i <= num_random. */
  function Label(i: int, numRandom: Value): (r: Result<RunType>)
    ensures NumberOf(numRandom).Some? ==> r.Ok? && (r.value == RandomRun <==> i as real <= NumberOf(numRandom).value)
    ensures NumberOf(numRandom).None? ==> r.Err?
  {
    match NumberOf(numRandom)
    case None => Err(TypeError("<="))
    case Some(x) => Ok(if i as real <= x then RandomRun else BayesianRun)
  }

  /** With the default num_random = 3 a fresh run labels iterations 1..3 Random and the rest Bayesian. */
  lemma DefaultLabels(maxItr: int)
    ensures var its := Iterations(0, maxItr);
      forall j :: 0 <= j < |its| ==> Label(its[j], VInt(3)) == Ok(if j < 3 then RandomRun else BayesianRun)
  {
  }

  /** The line iteration i appends to org/best.csv, given str() of the best score. */
  function BestLine(i: int, best: string): string {
    IntToDecimal(i) + "," + best
  }

  /** The text of best.csv holding the given (iteration, best score) lines. */
  function BestText(rows: seq<(int, string)>): string {
    Unlines(seq(|rows|, j requires 0 <= j < |rows| => BestLine(rows[j].0, rows[j].1)))
  }

  /** org/best.csv, as the (iteration, str(best score)) pairs written to it in order. */
  class BestLog {
    var rows: seq<(int, string)>

    constructor ()
      ensures rows == []
    {
      rows := [];
    }

    /** f.write("{},{}\n".format(i, best)) */
    method Append(i: int, best: string)
      modifies this
      ensures rows == old(rows) + [(i, best)]
    {
      rows := rows + [(i, best)];
    }
  }

  /**
    Read back, best.csv has one line per append, in order, each holding
    the iteration number and the score (when str() of the score has no
    comma or newline).
   */
  lemma BestTextLines(rows: seq<(int, string)>)
    requires forall j :: 0 <= j < |rows| ==> ',' !in rows[j].1 && '\n' !in rows[j].1
    ensures var ls := Split(BestText(rows), '\n');
      && |ls| == |rows| + 1 && ls[|rows|] == ""
      && forall j :: 0 <= j < |rows| ==> Split(ls[j], ',') == [IntToDecimal(rows[j].0), rows[j].1]
  {
    var ls := seq(|rows|, j requires 0 <= j < |rows| => BestLine(rows[j].0, rows[j].1));
    forall j | 0 <= j < |rows| ensures '\n' !in ls[j] && Split(ls[j], ',') == [IntToDecimal(rows[j].0), rows[j].1] {
      var d := IntToDecimal(rows[j].0);
      SplitNoSep(d, ',');
      SplitNoSep(rows[j].1, ',');
      SplitAt(d, rows[j].1, ',');
      assert ls[j] == d + [','] + rows[j].1;
    }
    SplitUnlines(ls);
  }

  /** One per iteration: the pairs iterations maxNum + 1, maxNum + 2, ... write, given their best scores. */
  function BestRows(maxNum: int, bests: seq<string>): (rs: seq<(int, string)>)
    ensures |rs| == |bests| && forall j :: 0 <= j < |bests| ==> rs[j] == (maxNum + 1 + j, bests[j])
  {
    seq(|bests|, j requires 0 <= j < |bests| => (maxNum + 1 + j, bests[j]))
  }

  /**
    The loop of run_beems: each iteration gets its label and appends one
    line. `bests` stands for str() of what get_best_delta reports after
    each iteration's solver run and scoring, which are not part of this
    model.
   */
  method RunIterations(log: BestLog, start: Start, maxItr: int, numRandom: Value, bests: seq<string>)
    returns (labels: Result<seq<RunType>>)
    requires |bests| == |Iterations(start.maxNum, maxItr)|
    modifies log
    ensures labels.Ok? ==> |labels.value| == |Iterations(start.maxNum, maxItr)|
    ensures labels.Ok? ==> forall j :: 0 <= j < |labels.value| ==> Label(start.maxNum + 1 + j, numRandom) == Ok(labels.value[j])
    ensures labels.Ok? ==> log.rows == old(log.rows) + BestRows(start.maxNum, bests)
    ensures labels.Err? ==> NumberOf(numRandom).None? && Iterations(start.maxNum, maxItr) != []
    ensures labels.Err? ==> log.rows == old(log.rows)
  {
    var maxNum := start.maxNum;
    if maxItr <= maxNum {
      assert bests == [];
      return Ok([]);
    }
    if NumberOf(numRandom).None? {
      // the comparison in the first iteration raises before anything is written
      return Err(TypeError("<="));
    }
    var out: seq<RunType> := [];
    var i := maxNum + 1;
    while i <= maxItr
      invariant maxNum + 1 <= i <= maxItr + 1
      invariant |out| == i - maxNum - 1
      invariant forall m :: 0 <= m < |out| ==> Label(maxNum + 1 + m, numRandom) == Ok(out[m])
      invariant log.rows == old(log.rows) + BestRows(maxNum, bests[..i - maxNum - 1])
    {
      var kind := Label(i, numRandom).value;
      out := out + [kind];
      log.Append(i, bests[i - maxNum - 1]);
      i := i + 1;
    }
    assert bests[..i - maxNum - 1] == bests;
    labels := Ok(out);
  }

  // ---------------------------------------------------------------------
  // _check_hdf5
  // ---------------------------------------------------------------------

  /**
    _check_hdf5 over the first n entries of basic_info: the error code and
    the keys, other than "uuid", whose stored value differs from
    hphi_params. A key missing from hphi_params raises KeyError.
   */
  function CheckHdf5(info: Dict<Value>, toml: Dict<Value>, n: nat): (r: Result<(int, seq<string>)>)
    requires n <= |info|
    ensures r.Ok? <==> forall j :: 0 <= j < n && info[j].0 != "uuid" ==> Entry(toml, info[j].0).Ok?
    ensures r.Ok? ==> (r.value.0 == 0 <==> r.value.1 == []) && (r.value.0 == 0 || r.value.0 == 1)
    ensures r.Ok? ==> forall k :: k in r.value.1 <==>
      exists j :: 0 <= j < n && info[j].0 == k && k != "uuid" && !PyEq(info[j].1, Entry(toml, k).value)
  {
    if n == 0 then Ok((0, []))
    else match CheckHdf5(info, toml, n - 1)
      case Err(e) => Err(e)
      case Ok(prev) =>
        var (key, dat) := info[n - 1];
        if key == "uuid" then Ok(prev)
        else match Entry(toml, key)
          case Err(e) => Err(e)
          case Ok(v) => if PyEq(dat, v) then Ok(prev) else Ok((1, prev.1 + [key]))
  }

  /** The loop of _check_hdf5. */
  method CheckHdf5Run(info: Dict<Value>, toml: Dict<Value>) returns (r: Result<(int, seq<string>)>)
    ensures r == CheckHdf5(info, toml, |info|)
  {
    var code := 0;
    var errs: seq<string> := [];
    var n := 0;
    while n < |info|
      invariant 0 <= n <= |info|
      invariant CheckHdf5(info, toml, n) == Ok((code, errs))
    {
      var key := info[n].0;
      if key != "uuid" {
        var v := Entry(toml, key);
        if v.Err? {
          CheckHdf5Err(info, toml, n, |info|);
          return Err(v.error);
        }
        if !PyEq(info[n].1, v.value) {
          code, errs := 1, errs + [key];
        }
      }
      n := n + 1;
    }
    r := Ok((code, errs));
  }

  /** An error stops the check. */
  lemma {:induction false} CheckHdf5Err(info: Dict<Value>, toml: Dict<Value>, n: nat, m: nat)
    requires n < m <= |info| && CheckHdf5(info, toml, n + 1).Err?
    ensures CheckHdf5(info, toml, m) == CheckHdf5(info, toml, n + 1)
    decreases m
  {
    if m > n + 1 {
      CheckHdf5Err(info, toml, n, m - 1);
    }
  }

  // ---------------------------------------------------------------------
  // The restart flag of main
  // ---------------------------------------------------------------------

  /** eval(physbo.get("restart", "True")) for the two texts it is meant to hold. */
  function RestartFlag(physbo: Dict<Value>): (r: Result<bool>)
    ensures Get(physbo, "restart").None? ==> r == Ok(true)
    ensures Get(physbo, "restart").Some? ==>
      (r == Ok(true) <==> Get(physbo, "restart").value == VStr("True")) &&
      (r == Ok(false) <==> Get(physbo, "restart").value == VStr("False"))
  {
    match Get(physbo, "restart")
    case None => Ok(true)
    case Some(v) =>
      if !v.VStr? then Err(TypeError("eval() arg 1 must be a string"))
      else if v.s == "True" then Ok(true)
      else if v.s == "False" then Ok(false)
      else Err(ValueError(v.s))
  }

  /** The directories removed, in order, from those present; a removed directory is gone for the later checks. */
  function Removals(ds: seq<string>, present: set<string>): (r: seq<string>)
    ensures forall d :: d in r <==> d in ds && d in present
    ensures forall j :: 0 <= j < |r| ==> r[j] in present
  {
    if ds == [] then []
    else if ds[0] in present then [ds[0]] + Removals(ds[1..], present - {ds[0]})
    else Removals(ds[1..], present)
  }

  /** What main settles before run_beems: restart or not, and the directories it deletes. */
  datatype Mode = Mode(restart: bool, removed: seq<string>)

  /**
    The restart decision of main. `found` is what glob("BO_No*") lists in
    the working directory, `present` the directories that exist.
   */
  function DecideMode(flag: bool, summary: string, found: seq<string>, present: set<string>): (m: Mode)
    ensures var boDir := if found != [] then found[0] else "BO_None";
      && (m.restart <==> flag && summary in present && boDir != "BO_No1")
      && (m.restart ==> m.removed == if boDir in present then [boDir] else [])
      && (!m.restart ==> forall d :: d in m.removed <==> d in ["org", summary, boDir] && d in present)
  {
    var boDir := if found != [] then found[0] else "BO_None";
    var restart := flag && summary in present && boDir != "BO_No1";
    if restart then Mode(true, if boDir in present then [boDir] else [])
    else Mode(false, Removals(["org", summary, boDir], present))
  }
}
