/**
  One proposal step (BO_single.py): read param.csv, split its rows into
  scored (training) and unscored ones, choose the Bayesian or the random
  branch, and write the chosen grid row into the `hphi_params` section of
  the input configuration and into the `info` file, whose first token is
  the grid index + 2.  The Bayesian search and the random draw are
  oracles: their results are parameters.
 */
module BOSingle {
  import opened Wrappers
  import opened Text
  import opened Values
  import opened OrderedDict
  import Grid

  /** One cell of the numpy array read from param.csv; None is nan. */
  type Cell = Option<real>

  // ---------------------------------------------------------------------
  // np.genfromtxt(param_csv, skip_header=1, delimiter=',')
  // ---------------------------------------------------------------------

  /** An empty or non-numeric cell reads as nan. */
  function CellValue(c: string, py: Runtime): Cell {
    if Strip(c) == [] then None else py.parseFloat(c)
  }

  function RowValues(line: string, py: Runtime): (row: seq<Cell>)
    ensures |row| == |Split(line, ',')|
  {
    var cs := Split(line, ',');
    seq(|cs|, i requires 0 <= i < |cs| => CellValue(cs[i], py))
  }

  /** The lines that hold data: not blank. */
  function NonBlank(ls: seq<string>): (r: seq<string>)
    ensures |r| <= |ls|
  {
    if ls == [] then []
    else NonBlank(ls[..|ls| - 1]) + (if Strip(ls[|ls| - 1]) == [] then [] else [ls[|ls| - 1]])
  }

  /** The array genfromtxt returns, when it is two-dimensional. */
  function GenFromText(text: string, py: Runtime): (r: Result<seq<seq<Cell>>>)
    ensures r.Ok? ==> |r.value| >= 2 && forall i :: 0 <= i < |r.value| ==> |r.value[i]| == |r.value[0]| >= 2
  {
    var ls := Split(text, '\n');
    var data := NonBlank(ls[1..]);
    var rows := seq(|data|, i requires 0 <= i < |data| => RowValues(data[i], py));
    if exists i :: 0 <= i < |rows| && |rows[i]| != |rows[0]| then Err(ValueError("wrong number of columns"))
    else if |rows| < 2 || |rows[0]| < 2 then Err(IndexError)  // a one-dimensional array has no arr[:, 0]
    else Ok(rows)
  }

  // ---------------------------------------------------------------------
  // load_data
  // ---------------------------------------------------------------------

  /** np.where(np.isnan(arr[:, 0]))[0]: the unscored rows, in order. */
  function TestIdx(arr: seq<seq<Cell>>): (r: seq<nat>)
    requires forall i :: 0 <= i < |arr| ==> |arr[i]| >= 1
    ensures forall j :: 0 <= j < |r| ==> r[j] < |arr|
  {
    if arr == [] then []
    else TestIdx(arr[..|arr| - 1]) + (if arr[|arr| - 1][0].None? then [|arr| - 1] else [])
  }

  /** The rows the ~isnan mask keeps: the scored ones, in order. */
  function TrainIdx(arr: seq<seq<Cell>>): (r: seq<nat>)
    requires forall i :: 0 <= i < |arr| ==> |arr[i]| >= 1
    ensures forall j :: 0 <= j < |r| ==> r[j] < |arr|
  {
    if arr == [] then []
    else TrainIdx(arr[..|arr| - 1]) + (if arr[|arr| - 1][0].Some? then [|arr| - 1] else [])
  }

  /** sorted(set(range(n)) - set(s)) */
  function SortedComplement(n: nat, s: seq<nat>): (r: seq<nat>)
    ensures forall j :: 0 <= j < |r| ==> r[j] < n
  {
    if n == 0 then [] else SortedComplement(n - 1, s) + (if n - 1 in s then [] else [n - 1])
  }

  datatype Data = Data(xTrain: seq<seq<Cell>>, tTrain: seq<real>, xAll: seq<seq<Cell>>, actions: seq<nat>, testActions: seq<nat>)

  /** load_data on the array read from param.csv. */
  function LoadData(arr: seq<seq<Cell>>): (d: Data)
    requires forall i :: 0 <= i < |arr| ==> |arr[i]| >= 1
    ensures |d.xAll| == |arr| && forall i :: 0 <= i < |arr| ==> d.xAll[i] == arr[i][1..]
    ensures |d.xTrain| == |d.tTrain| == |d.actions|
    ensures forall j :: 0 <= j < |d.actions| ==>
      d.actions[j] < |arr| && d.xTrain[j] == arr[d.actions[j]][1..] && Some(d.tTrain[j]) == arr[d.actions[j]][0]
  {
    TrainIdxFacts(arr);
    ComplementIsTrain(arr, |arr|);
    assert arr[..|arr|] == arr;
    var train := TrainIdx(arr);
    var test := TestIdx(arr);
    Data(
      seq(|train|, j requires 0 <= j < |train| => arr[train[j]][1..]),
      seq(|train|, j requires 0 <= j < |train| => if arr[train[j]][0].Some? then arr[train[j]][0].value else 0.0),
      seq(|arr|, i requires 0 <= i < |arr| => arr[i][1..]),
      SortedComplement(|arr|, test),
      test)
  }

  predicate Increasing(s: seq<nat>) {
    forall i, j :: 0 <= i < j < |s| ==> s[i] < s[j]
  }

  lemma {:induction false} TestIdxFacts(arr: seq<seq<Cell>>)
    requires forall i :: 0 <= i < |arr| ==> |arr[i]| >= 1
    ensures Increasing(TestIdx(arr))
    ensures forall i :: 0 <= i < |arr| ==> (i in TestIdx(arr) <==> arr[i][0].None?)
    decreases |arr|
  {
    if arr != [] {
      var init := arr[..|arr| - 1];
      TestIdxFacts(init);
      assert forall i :: 0 <= i < |init| ==> init[i] == arr[i];
    }
  }

  lemma {:induction false} TrainIdxFacts(arr: seq<seq<Cell>>)
    requires forall i :: 0 <= i < |arr| ==> |arr[i]| >= 1
    ensures Increasing(TrainIdx(arr))
    ensures forall i :: 0 <= i < |arr| ==> (i in TrainIdx(arr) <==> arr[i][0].Some?)
    decreases |arr|
  {
    if arr != [] {
      var init := arr[..|arr| - 1];
      TrainIdxFacts(init);
      assert forall i :: 0 <= i < |init| ==> init[i] == arr[i];
    }
  }

  lemma {:induction false} IdxCount(arr: seq<seq<Cell>>)
    requires forall i :: 0 <= i < |arr| ==> |arr[i]| >= 1
    ensures |TestIdx(arr)| + |TrainIdx(arr)| == |arr|
    decreases |arr|
  {
    if arr != [] {
      IdxCount(arr[..|arr| - 1]);
    }
  }

  lemma IdxFacts(arr: seq<seq<Cell>>)
    requires forall i :: 0 <= i < |arr| ==> |arr[i]| >= 1
    ensures Increasing(TestIdx(arr)) && Increasing(TrainIdx(arr))
    ensures forall i :: 0 <= i < |arr| ==> (i in TestIdx(arr) <==> arr[i][0].None?)
    ensures forall i :: 0 <= i < |arr| ==> (i in TrainIdx(arr) <==> arr[i][0].Some?)
    ensures forall j :: 0 <= j < |TrainIdx(arr)| ==> arr[TrainIdx(arr)[j]][0].Some?
    ensures |TestIdx(arr)| + |TrainIdx(arr)| == |arr|
  {
    TestIdxFacts(arr);
    TrainIdxFacts(arr);
    IdxCount(arr);
    var t := TrainIdx(arr);
    forall j | 0 <= j < |t| ensures arr[t[j]][0].Some? {
      assert t[j] in t;
    }
  }

  /** The set difference of load_data, sorted, is exactly the scored rows in order. */
  lemma {:induction false} ComplementIsTrain(arr: seq<seq<Cell>>, n: nat)
    requires forall i :: 0 <= i < |arr| ==> |arr[i]| >= 1
    requires n <= |arr|
    ensures SortedComplement(n, TestIdx(arr)) == TrainIdx(arr[..n])
    decreases n
  {
    if n > 0 {
      TestIdxFacts(arr);
      ComplementIsTrain(arr, n - 1);
      assert arr[..n][..n - 1] == arr[..n - 1];
      assert arr[..n][n - 1] == arr[n - 1];
    }
  }

  /**
    load_data partitions the rows: `actions` are the scored rows and
    `test_actions` the unscored ones, both in increasing order, and
    t_train lists the scores of `actions` in the same order.
   */
  lemma LoadDataPartition(arr: seq<seq<Cell>>)
    requires forall i :: 0 <= i < |arr| ==> |arr[i]| >= 1
    ensures var d := LoadData(arr);
      && Increasing(d.actions) && Increasing(d.testActions)
      && |d.actions| + |d.testActions| == |arr|
      && (forall i :: 0 <= i < |arr| ==> (i in d.actions <==> arr[i][0].Some?))
      && (forall i :: 0 <= i < |arr| ==> (i in d.testActions <==> arr[i][0].None?))
      && |d.tTrain| == |d.actions| == |d.xTrain|
      && (forall j :: 0 <= j < |d.actions| ==> Some(d.tTrain[j]) == arr[d.actions[j]][0])
  {
    IdxFacts(arr);
    ComplementIsTrain(arr, |arr|);
    assert arr[..|arr|] == arr;
  }

  // ---------------------------------------------------------------------
  // One probe: the chosen row into dic_param and info
  // ---------------------------------------------------------------------

  /** X_all[index], with numpy's negative indices. */
  function RowAt(xAll: seq<seq<Cell>>, index: int): (r: Result<seq<Cell>>)
    ensures 0 <= index < |xAll| ==> r == Ok(xAll[index])
  {
    if 0 <= index < |xAll| then Ok(xAll[index])
    else if index < 0 && index + |xAll| >= 0 then Ok(xAll[index + |xAll|])
    else Err(IndexError)
  }

  /** str(X_all[index]).split("[")[1].split("]")[0].split() */
  function Tokens(row: seq<Cell>, py: Runtime): (r: Result<seq<string>>)
    ensures r.Ok? ==> forall j :: 0 <= j < |r.value| ==> r.value[j] != [] && NoSpace(r.value[j])
  {
    var tmp := Split(py.npArray(row), '[');
    if |tmp| < 2 then Err(IndexError)
    else Ok(SplitWs(Split(tmp[1], ']')[0]))
  }

  /** The loop `dic_param[param] = float(tmp3[j])` over the parameter names. */
  function DicParam(names: seq<string>, toks: seq<string>, py: Runtime): (r: Result<Dict<Value>>)
    ensures r.Ok? ==> |toks| >= |names|
  {
    if names == [] then Ok([])
    else match DicParam(names[..|names| - 1], toks, py)
      case Err(e) => Err(e)
      case Ok(d) =>
        var j := |names| - 1;
        if j >= |toks| then Err(IndexError)
        else match py.parseFloat(toks[j])
          case None => Err(ValueError(toks[j]))
          case Some(v) => Ok(Set(d, names[j], VReal(v)))
  }

  /** The coordinates as info lists them: each token followed by a space. */
  function TokenCells(toks: seq<string>): string {
    if toks == [] then "" else TokenCells(toks[..|toks| - 1]) + toks[|toks| - 1] + " "
  }

  /** The text of `info`: a space, the row number index + 2, a space, then the coordinates. */
  function InfoText(index: int, toks: seq<string>, names: seq<string>): string
    requires |toks| >= |names|
  {
    " " + IntToDecimal(index + 2) + " " + TokenCells(toks[..|names|]) + "\n"
  }

  /** What one probe leaves behind. */
  datatype Probe = Probe(index: int, dicParam: Dict<Value>, info: string)

  function MakeProbe(xAll: seq<seq<Cell>>, index: int, names: seq<string>, py: Runtime): (r: Result<Probe>)
    ensures r.Ok? ==> r.value.index == index
  {
    match RowAt(xAll, index)
    case Err(e) => Err(e)
    case Ok(row) =>
      match Tokens(row, py)
      case Err(e) => Err(e)
      case Ok(toks) =>
        match DicParam(names, toks, py)
        case Err(e) => Err(e)
        case Ok(d) => Ok(Probe(index, d, InfoText(index, toks, names)))
  }

  /** One step of the loop: the last name gets the last coordinate it reads. */
  lemma DicParamStep(names: seq<string>, toks: seq<string>, py: Runtime)
    requires names != [] && DicParam(names, toks, py).Ok?
    ensures var last := |names| - 1;
      && DicParam(names[..last], toks, py).Ok? && last < |toks| && py.parseFloat(toks[last]).Some?
      && DicParam(names, toks, py).value
        == Set(DicParam(names[..last], toks, py).value, names[last], VReal(py.parseFloat(toks[last]).value))
  {
  }

  /** An assignment adds its key to the keys present. */
  lemma SetKeys(d: Dict<Value>, ks: seq<string>, k: string, v: Value)
    requires UniqueKeys(d) && forall x :: x in Keys(d) <==> x in ks
    ensures UniqueKeys(Set(d, k, v))
    ensures forall x :: x in Keys(Set(d, k, v)) <==> x in ks + [k]
  {
    SetFacts(d, k, v);
    SetOrder(d, k, v);
  }

  lemma {:induction false} DicParamKeys(names: seq<string>, toks: seq<string>, py: Runtime)
    requires DicParam(names, toks, py).Ok?
    ensures UniqueKeys(DicParam(names, toks, py).value)
    ensures forall k :: k in Keys(DicParam(names, toks, py).value) <==> k in names
    decreases |names|
  {
    if names != [] {
      var last := |names| - 1;
      var init := names[..last];
      assert names == init + [names[last]];
      DicParamStep(names, toks, py);
      DicParamKeys(init, toks, py);
      var d := DicParam(init, toks, py).value;
      var v := py.parseFloat(toks[last]).value;
      SetKeys(d, init, names[last], VReal(v));
    }
  }

  predicate Distinct(names: seq<string>) {
    forall a, b :: 0 <= a < b < |names| ==> names[a] != names[b]
  }

  /** With distinct names, dic_param maps the j-th name to the j-th coordinate. */
  lemma {:induction false} DicParamGet(names: seq<string>, toks: seq<string>, py: Runtime, j: nat)
    requires DicParam(names, toks, py).Ok? && j < |names| && Distinct(names)
    ensures j < |toks| && py.parseFloat(toks[j]).Some?
    ensures Get(DicParam(names, toks, py).value, names[j]) == Some(VReal(py.parseFloat(toks[j]).value))
    decreases |names|
  {
    var last := |names| - 1;
    if j < last {
      var init := names[..last];
      assert init[j] == names[j] != names[last];
      assert Distinct(init);
      DicParamStep(names, toks, py);
      DicParamGet(init, toks, py, j);
      DicParamGetEarlier(names, toks, py, j);
    } else {
      DicParamGetLast(names, toks, py);
    }
  }

  /** Reading the last name leaves the value of an earlier, different name alone. */
  lemma DicParamGetEarlier(names: seq<string>, toks: seq<string>, py: Runtime, j: nat)
    requires DicParam(names, toks, py).Ok? && j < |names| - 1 && names[j] != names[|names| - 1]
    ensures DicParam(names[..|names| - 1], toks, py).Ok?
    ensures Get(DicParam(names, toks, py).value, names[j]) == Get(DicParam(names[..|names| - 1], toks, py).value, names[j])
  {
    var last := |names| - 1;
    DicParamStep(names, toks, py);
    var d := DicParam(names[..last], toks, py).value;
    SetGetOther(d, names[last], VReal(py.parseFloat(toks[last]).value));
  }

  /** The last name read gets the last coordinate. */
  lemma DicParamGetLast(names: seq<string>, toks: seq<string>, py: Runtime)
    requires DicParam(names, toks, py).Ok? && names != []
    ensures var last := |names| - 1;
      last < |toks| && py.parseFloat(toks[last]).Some? &&
      Get(DicParam(names, toks, py).value, names[last]) == Some(VReal(py.parseFloat(toks[last]).value))
  {
    var last := |names| - 1;
    DicParamStep(names, toks, py);
    var d := DicParam(names[..last], toks, py).value;
    DicParamKeys(names[..last], toks, py);
    OrderedDict.SetKeys(d, names[last], VReal(py.parseFloat(toks[last]).value));
  }

  // ---------------------------------------------------------------------
  // get_toml_dic
  // ---------------------------------------------------------------------

  /**
    get_toml_dic: toml_dic["hphi_params"][key] = dic_param[key] for every
    key, in order. With no keys the section is never looked up.
   */
  function GetTomlDic(dicParam: Dict<Value>, toml: Dict<Value>): (r: Result<Dict<Value>>)
    ensures dicParam == [] ==> r == Ok(toml)
    ensures r.Err? <==>
      dicParam != [] && (Get(toml, "hphi_params").None? || !Get(toml, "hphi_params").value.VTable?)
  {
    if dicParam == [] then Ok(toml)
    else match Get(toml, "hphi_params")
      case None => Err(KeyError("hphi_params"))
      case Some(h) =>
        if !h.VTable? then Err(TypeError("hphi_params"))
        else Ok(Set(toml, "hphi_params", VTable(Update(h.entries, dicParam))))
  }

  /**
    get_toml_dic changes only the `hphi_params` section: each key of
    dic_param takes its new value, every other entry keeps its old one, and
    every other section is unchanged.
   */
  lemma GetTomlDicFacts(dicParam: Dict<Value>, toml: Dict<Value>, k: string, s: string)
    requires UniqueKeys(toml) && UniqueKeys(dicParam)
    requires GetTomlDic(dicParam, toml).Ok?
    requires Get(toml, "hphi_params").Some? && Get(toml, "hphi_params").value.VTable? && UniqueKeys(Get(toml, "hphi_params").value.entries)
    ensures var r := GetTomlDic(dicParam, toml).value;
      && UniqueKeys(r)
      && (s != "hphi_params" ==> Get(r, s) == Get(toml, s))
      && Get(r, "hphi_params").Some? && Get(r, "hphi_params").value.VTable?
      && Get(Get(r, "hphi_params").value.entries, k)
        == if k in Keys(dicParam) then Get(dicParam, k) else Get(Get(toml, "hphi_params").value.entries, k)
  {
    if dicParam != [] {
      var h := Get(toml, "hphi_params").value;
      SetFacts(toml, "hphi_params", VTable(Update(h.entries, dicParam)));
      UpdateGet(h.entries, dicParam, k);
    } else {
      UpdateGet(Get(toml, "hphi_params").value.entries, [], k);
    }
  }

  /** The loop of get_toml_dic, one key at a time. */
  method GetTomlDicRun(dicParam: Dict<Value>, toml: Dict<Value>) returns (r: Result<Dict<Value>>)
    ensures r == GetTomlDic(dicParam, toml)
  {
    if |dicParam| == 0 {
      // the loop body never runs, so a missing section is never looked up
      return Ok(toml);
    }
    var h := Get(toml, "hphi_params");
    if h.None? {
      return Err(KeyError("hphi_params"));
    }
    if !h.value.VTable? {
      return Err(TypeError("hphi_params"));
    }
    var section := h.value.entries;
    var i := 0;
    while i < |dicParam|
      invariant 0 <= i <= |dicParam|
      invariant Update(section, dicParam[i..]) == Update(h.value.entries, dicParam)
    {
      section := Set(section, dicParam[i].0, dicParam[i].1);
      assert dicParam[i..][1..] == dicParam[i + 1..];
      i := i + 1;
    }
    r := Ok(Set(toml, "hphi_params", VTable(section)));
  }

  // ---------------------------------------------------------------------
  // The two branches
  // ---------------------------------------------------------------------

  datatype Branch = Bayes | Random

  /** The Bayesian branch runs iff len(t_train) > num_random - 1. */
  function ChooseBranch(nTrain: nat, numRandom: real): (b: Branch)
    ensures b == Bayes <==> nTrain as real > numRandom - 1.0
    ensures numRandom == 3.0 ==> (b == Bayes <==> nTrain >= 3)
  {
    if nTrain as real > numRandom - 1.0 then Bayes else Random
  }

  /** Probing actions[i]: IndexError past the proposals bayes_search returned. */
  function ProbeAt(xAll: seq<seq<Cell>>, proposed: seq<int>, i: nat, names: seq<string>, py: Runtime): (r: Result<Probe>)
    ensures i >= |proposed| ==> r == Err(IndexError)
  {
    if i < |proposed| then MakeProbe(xAll, proposed[i], names, py) else Err(IndexError)
  }

  /** The probes of the loop over range(k), in order. */
  function ProbeResults(xAll: seq<seq<Cell>>, proposed: seq<int>, k: nat, names: seq<string>, py: Runtime): (rs: seq<Result<Probe>>)
    ensures |rs| == k && forall i :: 0 <= i < k ==> rs[i] == ProbeAt(xAll, proposed, i, names, py)
  {
    seq(k, i requires 0 <= i < k => ProbeAt(xAll, proposed, i, names, py))
  }

  /** The last probe so far, and the configuration as get_toml_dic has left it. */
  type LoopState = (Option<Probe>, Dict<Value>)

  /** One pass of the Bayesian loop: a probe's parameters written into the configuration. */
  function ProbeStep(prev: Result<LoopState>, probe: Result<Probe>): (r: Result<LoopState>)
    ensures prev.Err? ==> r == prev
    ensures r.Ok? ==> probe.Ok? && r.value.0 == Some(probe.value)
  {
    match prev
    case Err(e) => Err(e)
    case Ok(st) =>
      match probe
      case Err(e) => Err(e)
      case Ok(p) =>
        match GetTomlDic(p.dicParam, st.1)
        case Err(e) => Err(e)
        case Ok(t) => Ok((Some(p), t))
  }

  /** The Bayesian loop over the probes `rs`: each overwrites dic_param and info and updates the configuration again. */
  function Probes(rs: seq<Result<Probe>>, toml: Dict<Value>): Result<LoopState> {
    if rs == [] then Ok((None, toml)) else ProbeStep(Probes(rs[..|rs| - 1], toml), rs[|rs| - 1])
  }

  /**
    Only the last probe persists: dic_param and info are those of the last
    proposal, and the configuration is the one before it with that probe's
    parameters written in.
   */
  lemma ProbesLast(rs: seq<Result<Probe>>, toml: Dict<Value>)
    requires rs != [] && Probes(rs, toml).Ok?
    ensures var init := rs[..|rs| - 1];
      && rs[|rs| - 1].Ok? && Probes(init, toml).Ok?
      && Probes(rs, toml).value.0 == Some(rs[|rs| - 1].value)
      && GetTomlDic(rs[|rs| - 1].value.dicParam, Probes(init, toml).value.1) == Ok(Probes(rs, toml).value.1)
  {
  }

  /** Every probe before the last one succeeded too. */
  lemma {:induction false} ProbesPrefix(rs: seq<Result<Probe>>, m: nat, toml: Dict<Value>)
    requires m <= |rs| && Probes(rs, toml).Ok?
    ensures Probes(rs[..m], toml).Ok?
    decreases |rs|
  {
    if m < |rs| {
      var init := rs[..|rs| - 1];
      ProbesPrefix(init, m, toml);
      assert init[..m] == rs[..m];
    } else {
      assert rs[..m] == rs;
    }
  }

  /** A failing probe stops the loop with its own error. */
  lemma {:induction false} ProbesErr(rs: seq<Result<Probe>>, i: nat, toml: Dict<Value>)
    requires i < |rs| && Probes(rs[..i + 1], toml).Err?
    ensures Probes(rs, toml) == Probes(rs[..i + 1], toml)
    decreases |rs|
  {
    if |rs| > i + 1 {
      var init := rs[..|rs| - 1];
      assert init[..i + 1] == rs[..i + 1];
      ProbesErr(init, i, toml);
    } else {
      assert rs[..i + 1] == rs;
    }
  }

  /** The loop `dic_param[param] = float(tmp3[j])`. */
  method DicParamRun(names: seq<string>, toks: seq<string>, py: Runtime) returns (r: Result<Dict<Value>>)
    ensures r == DicParam(names, toks, py)
  {
    var dic: Dict<Value> := [];
    var j := 0;
    while j < |names|
      invariant 0 <= j <= |names|
      invariant DicParam(names[..j], toks, py) == Ok(dic)
    {
      assert names[..j + 1][..j] == names[..j];
      if j >= |toks| {
        DicParamErr(names, toks, py, j);
        return Err(IndexError);
      }
      var v := py.parseFloat(toks[j]);
      if v.None? {
        DicParamErr(names, toks, py, j);
        return Err(ValueError(toks[j]));
      }
      dic := Set(dic, names[j], VReal(v.value));
      j := j + 1;
    }
    assert names[..j] == names;
    r := Ok(dic);
  }

  /** The loop that writes info: the row number, then one coordinate per parameter name. */
  method InfoRun(index: int, toks: seq<string>, names: seq<string>) returns (info: string)
    requires |toks| >= |names|
    ensures info == InfoText(index, toks, names)
  {
    info := " " + IntToDecimal(index + 2) + " ";
    var j := 0;
    while j < |names|
      invariant 0 <= j <= |names|
      invariant info == " " + IntToDecimal(index + 2) + " " + TokenCells(toks[..j])
    {
      assert toks[..j + 1][..j] == toks[..j];
      info := info + toks[j] + " ";
      j := j + 1;
    }
    info := info + "\n";
  }

  /** The two loops of one probe: dic_param from the coordinates, then the text of info. */
  method MakeProbeRun(xAll: seq<seq<Cell>>, index: int, names: seq<string>, py: Runtime) returns (r: Result<Probe>)
    ensures r == MakeProbe(xAll, index, names, py)
  {
    var row := RowAt(xAll, index);
    if row.Err? {
      return Err(row.error);
    }
    var tmp3 := Tokens(row.value, py);
    if tmp3.Err? {
      return Err(tmp3.error);
    }
    var dic := DicParamRun(names, tmp3.value, py);
    if dic.Err? {
      return Err(dic.error);
    }
    var info := InfoRun(index, tmp3.value, names);
    r := Ok(Probe(index, dic.value, info));
  }

  /** The first name whose coordinate is missing or not a float ends the loop with that error. */
  lemma {:induction false} DicParamErr(names: seq<string>, toks: seq<string>, py: Runtime, j: nat)
    requires j < |names| && DicParam(names[..j], toks, py).Ok?
    requires j >= |toks| || py.parseFloat(toks[j]).None?
    ensures DicParam(names, toks, py) == DicParam(names[..j + 1], toks, py)
    ensures DicParam(names, toks, py) == if j >= |toks| then Err(IndexError) else Err(ValueError(toks[j]))
    decreases |names|
  {
    assert names[..j + 1][..j] == names[..j];
    if |names| > j + 1 {
      var init := names[..|names| - 1];
      assert init[..j] == names[..j] && init[..j + 1] == names[..j + 1];
      DicParamErr(init, toks, py, j);
    } else {
      assert names[..j + 1] == names;
    }
  }

  /** The loop over the probes of the Bayesian branch. */
  method RunProbes(xAll: seq<seq<Cell>>, proposed: seq<int>, k: nat, names: seq<string>, toml: Dict<Value>, py: Runtime)
    returns (r: Result<LoopState>)
    ensures r == Probes(ProbeResults(xAll, proposed, k, names, py), toml)
  {
    ghost var rs := ProbeResults(xAll, proposed, k, names, py);
    var last: Option<Probe> := None;
    var current := toml;
    var i := 0;
    while i < k
      invariant 0 <= i <= k
      invariant Probes(rs[..i], toml) == Ok((last, current))
    {
      assert rs[..i + 1][..i] == rs[..i];
      if i >= |proposed| {
        ProbesErr(rs, i, toml);
        return Err(IndexError);
      }
      var p := MakeProbeRun(xAll, proposed[i], names, py);
      if p.Err? {
        ProbesErr(rs, i, toml);
        return Err(p.error);
      }
      var t := GetTomlDicRun(p.value.dicParam, current);
      if t.Err? {
        ProbesErr(rs, i, toml);
        return Err(t.error);
      }
      last, current := Some(p.value), t.value;
      i := i + 1;
    }
    assert rs[..i] == rs;
    r := Ok((last, current));
  }

  // ---------------------------------------------------------------------
  // main
  // ---------------------------------------------------------------------

  /** What main leaves behind: the branch, the last probe (dic_param and info), and the configuration written to input.toml. */
  datatype Proposal = Proposal(branch: Branch, probe: Probe, toml: Dict<Value>)

  /** range(num_search_each_probe): an int or a bool; anything else raises TypeError. */
  function ProbeCount(v: Value): (r: Result<nat>)
    ensures v.VInt? ==> r == Ok(if v.i < 0 then 0 else v.i)
  {
    match v
    case VInt(i) => Ok(if i < 0 then 0 else i)
    case VBool(b) => Ok(if b then 1 else 0)
    case _ => Err(TypeError("num_search_each_probe"))
  }

  /** The Bayesian branch: the first num_search_each_probe proposals, each written in turn. */
  function BayesProposal(data: Data, numSearch: Value, proposed: seq<int>, names: seq<string>, toml: Dict<Value>, py: Runtime)
    : (r: Result<Proposal>)
    ensures r.Ok? ==> r.value.branch == Bayes
  {
    match ProbeCount(numSearch)
    case Err(e) => Err(e)
    case Ok(k) =>
      match Probes(ProbeResults(data.xAll, proposed, k, names, py), toml)
      case Err(e) => Err(e)
      case Ok(res) =>
        if res.0.None? then Err(NameError("dic_param"))  // no probe ran: dic_param is unbound at the return
        else Ok(Proposal(Bayes, res.0.value, res.1))
  }

  /** The random branch: randint(0, remain - 1) picks one of the unscored rows. */
  function RandomProposal(data: Data, draw: nat, names: seq<string>, toml: Dict<Value>, py: Runtime): (r: Result<Proposal>)
    ensures r.Ok? ==> r.value.branch == Random && r.value.probe.index in data.testActions
    ensures data.testActions == [] ==> r.Err?
  {
    if |data.testActions| == 0 then Err(ValueError("empty range for randrange"))
    else
      var action := data.testActions[draw % |data.testActions|];
      match MakeProbe(data.xAll, action, names, py)
      case Err(e) => Err(e)
      case Ok(p) =>
        match GetTomlDic(p.dicParam, toml)
        case Err(e) => Err(e)
        case Ok(t) => Ok(Proposal(Random, p, t))
  }

  /** The [physbo] settings main reads, with their defaults. */
  datatype Settings = Settings(numSearch: Value, numRandom: Value, names: seq<string>)

  function ReadSettings(dicToml: Dict<Value>): (r: Result<Settings>)
    ensures r.Ok? ==> Get(dicToml, "physbo").Some? && Get(dicToml, "physbo").value.VTable?
  {
    match Get(dicToml, "physbo")
    case None => Err(KeyError("physbo"))
    case Some(pv) =>
      if !pv.VTable? then Err(TypeError("physbo"))
      else
        var physbo := pv.entries;
        var numSearch := match Get(physbo, "num_search_each_probe") case None => VInt(1) case Some(v) => v;
        var numRandom := match Get(physbo, "num_random") case None => VInt(3) case Some(v) => v;
        match Grid.ParamNames(physbo)
        case Err(e) => Err(e)
        case Ok(names) => Ok(Settings(numSearch, numRandom, names))
  }

  /** The proposal on the array read from param.csv. */
  function Propose(st: Settings, arr: seq<seq<Cell>>, proposed: seq<int>, draw: nat, dicToml: Dict<Value>, py: Runtime)
    : (r: Result<Proposal>)
    requires forall i :: 0 <= i < |arr| ==> |arr[i]| >= 1
    ensures r.Ok? ==> NumberOf(st.numRandom).Some?
    ensures r.Ok? ==> r.value.branch == ChooseBranch(|TrainIdx(arr)|, NumberOf(st.numRandom).value)
  {
    var data := LoadData(arr);
    if NumberOf(st.numRandom).None? then Err(TypeError("num_random"))
    else if ChooseBranch(|data.tTrain|, NumberOf(st.numRandom).value) == Bayes then
      BayesProposal(data, st.numSearch, proposed, st.names, dicToml, py)
    else RandomProposal(data, draw, st.names, dicToml, py)
  }

  /**
    main: `proposed` is what bayes_search returns and `draw` what randint
    returns (any value; the unscored row picked is test_actions[draw mod
    their number]).
   */
  function BOMain(dicToml: Dict<Value>, paramCsv: string, proposed: seq<int>, draw: nat, py: Runtime): (r: Result<Proposal>)
    ensures r.Ok? ==> ReadSettings(dicToml).Ok? && GenFromText(paramCsv, py).Ok?
  {
    match ReadSettings(dicToml)
    case Err(e) => Err(e)
    case Ok(st) =>
      match GenFromText(paramCsv, py)
      case Err(e) => Err(e)
      case Ok(arr) => Propose(st, arr, proposed, draw, dicToml, py)
  }

  /**
    The random branch runs only when fewer than num_random rows are scored
    and proposes an unscored row; the Bayesian branch only when at least
    num_random are.
   */
  lemma ProposeBranch(st: Settings, arr: seq<seq<Cell>>, proposed: seq<int>, draw: nat, dicToml: Dict<Value>, py: Runtime)
    requires forall i :: 0 <= i < |arr| ==> |arr[i]| >= 1
    requires Propose(st, arr, proposed, draw, dicToml, py).Ok?
    ensures var r := Propose(st, arr, proposed, draw, dicToml, py).value;
      && (r.branch == Random <==> !(|TrainIdx(arr)| as real > NumberOf(st.numRandom).value - 1.0))
      && (r.branch == Random ==> 0 <= r.probe.index < |arr| && arr[r.probe.index][0].None?)
  {
    var r := Propose(st, arr, proposed, draw, dicToml, py).value;
    TestIdxFacts(arr);
    if r.branch == Random {
      assert r.probe.index in TestIdx(arr);
    }
  }

  /** The whole step on the configuration and the text of param.csv. */
  lemma BOMainBranch(dicToml: Dict<Value>, paramCsv: string, proposed: seq<int>, draw: nat, py: Runtime)
    requires BOMain(dicToml, paramCsv, proposed, draw, py).Ok?
    ensures GenFromText(paramCsv, py).Ok?
    ensures var arr := GenFromText(paramCsv, py).value;
      var r := BOMain(dicToml, paramCsv, proposed, draw, py).value;
      r.branch == Random ==> 0 <= r.probe.index < |arr| && arr[r.probe.index][0].None?
  {
    var arr := GenFromText(paramCsv, py).value;
    var st := ReadSettings(dicToml).value;
    ProposeBranch(st, arr, proposed, draw, dicToml, py);
  }
}
