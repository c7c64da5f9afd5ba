/**
  The HDF5 result cache of BEEMs (`SearchHDF5` and `WriteHDF5` in BEEMs.py).

  The file holds `basic_info` (the fixed solver settings, among them `exct`
  and `L`) and, under `data/param/<n>`, one group per parameter vector: the
  parameter values by name and a `field` group whose series grow by one
  entry each time a field value is evaluated for that parameter vector.
  Groups are named 0, 1, 2, ... in creation order; here group `n` is
  `groups[n]`.
 */
module Cache {
  import opened Wrappers
  import opened Text
  import opened Values
  import opened OrderedDict

  // ---------------------------------------------------------------------
  // Closeness of parameter vectors and field values
  // ---------------------------------------------------------------------

  /** The default tolerance of is_close and is_params_close. */
  const Eps: real := 0.00000001

  function Abs(x: real): real { if x < 0.0 then -x else x }

  /** is_close(x, y, eps): strictly within `eps`. */
  predicate IsClose(x: real, y: real, eps: real) {
    Abs(x - y) < eps
  }

  /** is_params_close(l1, l2, eps): same length and componentwise close. */
  predicate ParamsClose(l1: seq<real>, l2: seq<real>, eps: real) {
    |l1| == |l2| && forall i :: 0 <= i < |l1| ==> IsClose(l1[i], l2[i], eps)
  }

  /** One stored field row compared with the searched field value (its first component). */
  predicate RowClose(row: seq<real>, h: real) {
    |row| > 0 && IsClose(row[0], h, Eps)
  }

  lemma ParamsCloseExamples()
    ensures ParamsClose([1.0, 2.0], [1.000000001, 1.999999999], Eps)
    ensures !ParamsClose([1.0, 2.0], [1.00001, 2.0], Eps)
    ensures !ParamsClose([1.0, 2.0], [1.0], Eps)
    ensures !IsClose(0.0, Eps, Eps)
  {
    var l1, l2 := [1.0, 2.0], [1.00001, 2.0];
    assert Abs(l1[0] - l2[0]) == 0.00001;
    assert !IsClose(l1[0], l2[0], Eps);
  }

  // ---------------------------------------------------------------------
  // The stored data
  // ---------------------------------------------------------------------

  /** A numeric text file as np.loadtxt reads it, row by row. */
  type Table = seq<seq<real>>
  type IdxTable = seq<seq<int>>

  /** The series under data/param/<n>/field: entry j of each belongs to field row j. */
  datatype FieldSeries = FieldSeries(
    keys: seq<string>,                        // field/keys
    value: seq<seq<real>>,                    // field/value
    e: seq<seq<real>>,                        // calc_phys/E: one energy per eigenstate
    e2: seq<seq<real>>,                       // calc_phys/E2
    sz: seq<seq<real>>,                       // calc_phys/Sz
    green1: seq<seq<Table>>,                  // calc_phys/Sz2/green1
    green1Idx: seq<seq<IdxTable>>,            // calc_phys/Sz2/green1_idx
    green2: Option<seq<seq<Table>>>,          // calc_phys/Sz2/green2, absent in some files
    green2Idx: Option<seq<seq<IdxTable>>>,    // calc_phys/Sz2/green2_idx, absent in some files
    datetime: seq<string>,                    // calc_phys/info/*
    degeneration: seq<bool>,
    env: seq<string>,
    ver: seq<string>)

  /** data/param/<n>: the parameter values and, once a field was written, its series. */
  datatype Group = Group(params: seq<real>, field: Option<FieldSeries>)

  function Rows(g: Group): nat {
    if g.field.Some? then |g.field.value.value| else 0
  }

  /** Every series of a field group has one entry per stored field row. */
  predicate Aligned(fs: FieldSeries, nf: nat) {
    var n := |fs.value|;
    (forall j :: 0 <= j < n ==> |fs.value[j]| == nf) &&
    |fs.e| == n && |fs.e2| == n && |fs.sz| == n &&
    |fs.green1| == n && |fs.green1Idx| == n &&
    (fs.green2.Some? ==> |fs.green2.value| == n) &&
    (fs.green2Idx.Some? ==> |fs.green2Idx.value| == n) &&
    |fs.datetime| == n && |fs.degeneration| == n && |fs.env| == n && |fs.ver| == n
  }

  predicate WellFormed(g: Group, np: nat, nf: nat) {
    |g.params| == np && (g.field.Some? ==> Aligned(g.field.value, nf))
  }

  // ---------------------------------------------------------------------
  // What one HPhi run leaves in its output directory
  // ---------------------------------------------------------------------

  /** The files of an output directory; a list shorter than needed means a missing file. */
  datatype SolverOutput = SolverOutput(
    energy: Option<seq<string>>,   // zvo_energy.dat, as readlines() returns it
    cisajs: seq<Table>,            // zvo_cisajs_eigen<i>.dat for i = 0, 1, ...
    cisajscktalt: seq<Table>)      // zvo_cisajscktalt_eigen<i>.dat for i = 0, 1, ...

  /** The Green's-function tables of the first eigenstates. */
  datatype Greens = Greens(green1: seq<Table>, green1Idx: seq<IdxTable>,
                           green2: seq<Table>, green2Idx: seq<IdxTable>)

  /** Everything one evaluation adds to a field group. */
  datatype Evaluation = Evaluation(e: seq<real>, e2: seq<real>, sz: seq<real>, greens: Greens)

  /** array[:, :w].astype(np.int64) */
  function IdxColumns(t: Table, w: nat): (r: IdxTable)
    ensures |r| == |t|
    ensures forall i :: 0 <= i < |t| ==> |r[i]| == if |t[i]| < w then |t[i]| else w
  {
    seq(|t|, i requires 0 <= i < |t| =>
      seq(if |t[i]| < w then |t[i]| else w, c requires 0 <= c < |t[i]| && c < w => Trunc(t[i][c])))
  }

  /** array[:, w:] */
  function ValColumns(t: Table, w: nat): (r: Table)
    ensures |r| == |t|
    ensures forall i :: 0 <= i < |t| ==> r[i] == if |t[i]| < w then [] else t[i][w..]
  {
    seq(|t|, i requires 0 <= i < |t| => if |t[i]| < w then [] else t[i][w..])
  }

  function GreenFile(i: nat, two: bool): string {
    (if two then "zvo_cisajscktalt_eigen" else "zvo_cisajs_eigen") + NatToDecimal(i) + ".dat"
  }

  /** The Green's-function loading loop over the first `n` eigenstates. */
  function LoadGreens(out: SolverOutput, n: nat): Result<Greens> {
    if n == 0 then Ok(Greens([], [], [], []))
    else match LoadGreens(out, n - 1)
      case Err(e) => Err(e)
      case Ok(g) =>
        var i := n - 1;
        if i >= |out.cisajs| then Err(OSError(GreenFile(i, false)))
        else if i >= |out.cisajscktalt| then Err(OSError(GreenFile(i, true)))
        else Ok(Greens(g.green1 + [ValColumns(out.cisajs[i], 4)],
                       g.green1Idx + [IdxColumns(out.cisajs[i], 4)],
                       g.green2 + [ValColumns(out.cisajscktalt[i], 8)],
                       g.green2Idx + [IdxColumns(out.cisajscktalt[i], 8)]))
  }

  /** Loading succeeds exactly when both files exist for every state, and then keeps state order. */
  lemma {:induction false} LoadGreensFacts(out: SolverOutput, n: nat)
    ensures LoadGreens(out, n).Ok? <==> n <= |out.cisajs| && n <= |out.cisajscktalt|
    ensures LoadGreens(out, n).Ok? ==>
      var g := LoadGreens(out, n).value;
      |g.green1| == n && |g.green1Idx| == n && |g.green2| == n && |g.green2Idx| == n &&
      forall i :: 0 <= i < n ==>
        g.green1[i] == ValColumns(out.cisajs[i], 4) && g.green1Idx[i] == IdxColumns(out.cisajs[i], 4) &&
        g.green2[i] == ValColumns(out.cisajscktalt[i], 8) && g.green2Idx[i] == IdxColumns(out.cisajscktalt[i], 8)
  {
    if n > 0 {
      LoadGreensFacts(out, n - 1);
    }
  }

  /** Once a file is missing, loading more states fails with the same error. */
  lemma {:induction false} LoadGreensErr(out: SolverOutput, i: nat, n: nat)
    requires i <= n && LoadGreens(out, i).Err?
    ensures LoadGreens(out, n) == LoadGreens(out, i)
    decreases n
  {
    if n > i {
      LoadGreensErr(out, i, n - 1);
    }
  }

  /** Energy and Sz of eigenstate i: token 1 of lines 6i+1 and 6i+2 of zvo_energy.dat. */
  function StateEnergy(lines: seq<string>, i: nat, py: Runtime): Result<(real, real)> {
    if 6 * i + 2 >= |lines| then Err(IndexError)
    else
      var et := SplitWs(lines[6 * i + 1]);
      var st := SplitWs(lines[6 * i + 2]);
      if |et| < 2 then Err(IndexError)
      else match py.parseFloat(et[1])
        case None => Err(ValueError(et[1]))
        case Some(en) =>
          if |st| < 2 then Err(IndexError)
          else match py.parseFloat(st[1])
            case None => Err(ValueError(st[1]))
            case Some(s) => Ok((en, s))
  }

  /** The outcome of reading each of the first `n` eigenstates. */
  function States(lines: seq<string>, n: nat, py: Runtime): (rs: seq<Result<(real, real)>>)
    ensures |rs| == n && forall i :: 0 <= i < n ==> rs[i] == StateEnergy(lines, i, py)
  {
    seq(n, i requires 0 <= i < n => StateEnergy(lines, i, py))
  }

  /** The energy loop over per-state outcomes: energies and Sz values in state order; the first failure stops it. */
  function Collect(rs: seq<Result<(real, real)>>): Result<(seq<real>, seq<real>)> {
    if rs == [] then Ok(([], []))
    else match Collect(rs[..|rs| - 1])
      case Err(e) => Err(e)
      case Ok(acc) =>
        match rs[|rs| - 1]
        case Err(e) => Err(e)
        case Ok(p) => Ok((acc.0 + [p.0], acc.1 + [p.1]))
  }

  /** The energy loop over the first `n` eigenstates. */
  function Energies(lines: seq<string>, n: nat, py: Runtime): Result<(seq<real>, seq<real>)> {
    Collect(States(lines, n, py))
  }

  lemma {:induction false} CollectOk(rs: seq<Result<(real, real)>>)
    ensures Collect(rs).Ok? <==> forall i :: 0 <= i < |rs| ==> rs[i].Ok?
  {
    if rs != [] {
      var init := rs[..|rs| - 1];
      CollectOk(init);
      assert forall i :: 0 <= i < |init| ==> init[i] == rs[i];
    }
  }

  lemma {:induction false} CollectFacts(rs: seq<Result<(real, real)>>)
    requires Collect(rs).Ok?
    ensures var r := Collect(rs).value;
      |r.0| == |rs| && |r.1| == |rs| &&
      forall i :: 0 <= i < |rs| ==> rs[i] == Ok((r.0[i], r.1[i]))
  {
    if rs != [] {
      var init := rs[..|rs| - 1];
      CollectFacts(init);
      assert forall i :: 0 <= i < |init| ==> init[i] == rs[i];
    }
  }

  lemma {:induction false} CollectErr(rs: seq<Result<(real, real)>>, i: nat)
    requires i < |rs| && Collect(rs[..i]).Ok? && rs[i].Err?
    ensures Collect(rs) == Err(rs[i].error)
    decreases |rs|
  {
    if |rs| > i + 1 {
      var init := rs[..|rs| - 1];
      assert init[..i] == rs[..i] && init[i] == rs[i];
      CollectErr(init, i);
    } else {
      assert rs[..|rs| - 1] == rs[..i];
    }
  }

  /** One more state extends the lists by its energy and Sz. */
  lemma CollectStep(rs: seq<Result<(real, real)>>, i: nat)
    requires i < |rs| && Collect(rs[..i]).Ok? && rs[i].Ok?
    ensures Collect(rs[..i + 1]) == Ok((Collect(rs[..i]).value.0 + [rs[i].value.0], Collect(rs[..i]).value.1 + [rs[i].value.1]))
  {
    assert rs[..i + 1][..i] == rs[..i];
  }

  lemma StatesPrefix(lines: seq<string>, i: nat, n: nat, py: Runtime)
    requires i <= n
    ensures States(lines, n, py)[..i] == States(lines, i, py)
  {
  }

  /** The loop reads every state iff each one has a readable energy and Sz. */
  lemma EnergiesOk(lines: seq<string>, n: nat, py: Runtime)
    ensures Energies(lines, n, py).Ok? <==> forall i :: 0 <= i < n ==> StateEnergy(lines, i, py).Ok?
  {
    CollectOk(States(lines, n, py));
  }

  /** A successful read lists each state's energy and Sz at that state's position. */
  lemma EnergiesFacts(lines: seq<string>, n: nat, py: Runtime)
    requires Energies(lines, n, py).Ok?
    ensures var r := Energies(lines, n, py).value;
      |r.0| == n && |r.1| == n &&
      forall i :: 0 <= i < n ==> StateEnergy(lines, i, py) == Ok((r.0[i], r.1[i]))
  {
    CollectFacts(States(lines, n, py));
  }

  /** The first failing state stops the loop: the error is that state's. */
  lemma EnergiesErr(lines: seq<string>, i: nat, n: nat, py: Runtime)
    requires i < n && Energies(lines, i, py).Ok? && StateEnergy(lines, i, py).Err?
    ensures Energies(lines, n, py) == Err(StateEnergy(lines, i, py).error)
  {
    StatesPrefix(lines, i, n, py);
    CollectErr(States(lines, n, py), i);
  }

  function Squares(xs: seq<real>): (r: seq<real>)
    ensures |r| == |xs| && forall i :: 0 <= i < |xs| ==> r[i] == xs[i] * xs[i] && r[i] >= 0.0
  {
    seq(|xs|, i requires 0 <= i < |xs| => xs[i] * xs[i])
  }

  /** The `exct` setting as an iteration count (range() of a negative count is empty). */
  function Exct(basicInfo: Dict<Value>): Result<nat> {
    match Get(basicInfo, "exct")
    case None => Err(KeyError("basic_info/exct"))
    case Some(v) =>
      if v.VInt? then Ok(if v.i < 0 then 0 else v.i) else Err(TypeError("basic_info/exct"))
  }

  /** The files read by write_field, in the order it reads them. */
  function ReadEvaluation(out: SolverOutput, n: nat, py: Runtime): Result<Evaluation> {
    match LoadGreens(out, n)
    case Err(e) => Err(e)
    case Ok(g) =>
      match out.energy
      case None => Err(OSError("zvo_energy.dat"))
      case Some(lines) =>
        match Energies(lines, n, py)
        case Err(e) => Err(e)
        case Ok(es) => Ok(Evaluation(es.0, Squares(es.0), es.1, g))
  }

  /** The Green's-function loop of write_field. */
  method ReadGreens(out: SolverOutput, n: nat) returns (r: Result<Greens>)
    ensures r == LoadGreens(out, n)
  {
    var g1: seq<Table>, g1i: seq<IdxTable>, g2: seq<Table>, g2i: seq<IdxTable> := [], [], [], [];
    var i := 0;
    while i < n
      invariant 0 <= i <= n
      invariant LoadGreens(out, i) == Ok(Greens(g1, g1i, g2, g2i))
    {
      if i >= |out.cisajs| || i >= |out.cisajscktalt| {
        LoadGreensErr(out, i + 1, n);
        return Err(OSError(GreenFile(i, i < |out.cisajs|)));
      }
      g1i := g1i + [IdxColumns(out.cisajs[i], 4)];
      g2i := g2i + [IdxColumns(out.cisajscktalt[i], 8)];
      g1 := g1 + [ValColumns(out.cisajs[i], 4)];
      g2 := g2 + [ValColumns(out.cisajscktalt[i], 8)];
      i := i + 1;
    }
    r := Ok(Greens(g1, g1i, g2, g2i));
  }

  /** The energy loop of write_field: energies, their squares, and Sz values. */
  method ReadEnergies(lines: seq<string>, n: nat, py: Runtime) returns (r: Result<(seq<real>, seq<real>, seq<real>)>)
    ensures match Energies(lines, n, py)
      case Err(e) => r == Err(e)
      case Ok(p) => r == Ok((p.0, Squares(p.0), p.1))
  {
    var es: seq<real>, e2: seq<real>, sz: seq<real> := [], [], [];
    ghost var rs := States(lines, n, py);
    var i := 0;
    while i < n
      invariant 0 <= i <= n
      invariant Collect(rs[..i]) == Ok((es, sz))
      invariant e2 == Squares(es)
    {
      var st := StateEnergy(lines, i, py);
      if st.Err? {
        CollectErr(rs, i);
        return Err(st.error);
      }
      var (en, s) := st.value;
      CollectStep(rs, i);
      SquaresSnoc(es, en);
      es, e2, sz := es + [en], e2 + [en * en], sz + [s];
      i := i + 1;
    }
    assert rs[..i] == rs;
    r := Ok((es, e2, sz));
  }

  lemma SquaresSnoc(xs: seq<real>, x: real)
    ensures Squares(xs + [x]) == Squares(xs) + [x * x]
  {
    assert forall k :: 0 <= k < |xs| + 1 ==> Squares(xs + [x])[k] == (Squares(xs) + [x * x])[k];
  }

  // ---------------------------------------------------------------------
  // Appending one evaluation to a group
  // ---------------------------------------------------------------------

  const RunDate: string := "2022/08/29"
  const RunEnv: string := "ohtaka"
  const HPhiVersion: string := "3.4.3"

  /**
    The group after write_field: a first write creates every series with one
    entry; a later write appends one entry to each.  A file without
    `green2` keeps no `green2` and also loses `green2_idx`; a file with
    `green2` but without `green2_idx` gets `green2` extended only.
   */
  function AppendRecord(g: Group, keys: seq<string>, fv: seq<real>, ev: Evaluation): Group {
    match g.field
    case None =>
      Group(g.params, Some(FieldSeries(keys, [fv], [ev.e], [ev.e2], [ev.sz],
        [ev.greens.green1], [ev.greens.green1Idx], Some([ev.greens.green2]), Some([ev.greens.green2Idx]),
        [RunDate], [false], [RunEnv], [HPhiVersion])))
    case Some(f) =>
      Group(g.params, Some(FieldSeries(f.keys, f.value + [fv], f.e + [ev.e], f.e2 + [ev.e2], f.sz + [ev.sz],
        f.green1 + [ev.greens.green1], f.green1Idx + [ev.greens.green1Idx],
        if f.green2.Some? then Some(f.green2.value + [ev.greens.green2]) else None,
        if f.green2.Some? && f.green2Idx.Some? then Some(f.green2Idx.value + [ev.greens.green2Idx]) else None,
        f.datetime + [RunDate], f.degeneration + [false], f.env + [RunEnv], f.ver + [HPhiVersion])))
  }

  /** write_field adds exactly one row to every series, keeps the old rows, and keeps the group aligned. */
  lemma AppendRecordFacts(g: Group, np: nat, keys: seq<string>, fv: seq<real>, ev: Evaluation)
    requires WellFormed(g, np, |keys|) && |fv| == |keys|
    ensures var r := AppendRecord(g, keys, fv, ev);
      var f := r.field.value;
      var n := Rows(g);
      WellFormed(r, np, |keys|) && r.params == g.params && r.field.Some? &&
      Rows(r) == n + 1 && f.value[n] == fv &&
      f.e[n] == ev.e && f.e2[n] == ev.e2 && f.sz[n] == ev.sz &&
      f.green1[n] == ev.greens.green1 && f.green1Idx[n] == ev.greens.green1Idx &&
      f.datetime[n] == RunDate && f.degeneration[n] == false && f.env[n] == RunEnv && f.ver[n] == HPhiVersion &&
      (g.field.Some? ==> var o := g.field.value;
        f.keys == o.keys && f.value[..n] == o.value && f.e[..n] == o.e && f.e2[..n] == o.e2 && f.sz[..n] == o.sz &&
        f.green1[..n] == o.green1 && f.green1Idx[..n] == o.green1Idx &&
        f.datetime[..n] == o.datetime && f.degeneration[..n] == o.degeneration &&
        f.env[..n] == o.env && f.ver[..n] == o.ver) &&
      (g.field.None? ==> f.keys == keys) &&
      (f.green2.Some? <==> g.field.None? || g.field.value.green2.Some?) &&
      (f.green2Idx.Some? <==> g.field.None? || (g.field.value.green2.Some? && g.field.value.green2Idx.Some?))
  {
  }

  /** The whole effect of write_field on the parameter groups, or the error that stops it. */
  function FieldUpdate(basicInfo: Dict<Value>, gs: seq<Group>, indexParam: int, keys: seq<string>,
                       fv: seq<real>, out: SolverOutput, py: Runtime): Result<seq<Group>> {
    match Exct(basicInfo)
    case Err(e) => Err(e)
    case Ok(n) =>
      match ReadEvaluation(out, n, py)
      case Err(e) => Err(e)
      case Ok(ev) =>
        if 0 <= indexParam < |gs| then Ok(gs[indexParam := AppendRecord(gs[indexParam], keys, fv, ev)])
        else Err(KeyError("data/param/" + IntToDecimal(indexParam) + "/field"))
  }

  // ---------------------------------------------------------------------
  // Searching
  // ---------------------------------------------------------------------

  /** A search result: group index and field row index, -1 where nothing matched. */
  datatype Hit = Hit(param: int, field: int)

  /** The last row close to `h`, or `prev` when none is. */
  function LastRow(rows: seq<seq<real>>, h: real, prev: int): int {
    if rows == [] then prev
    else if RowClose(rows[|rows| - 1], h) then |rows| - 1
    else LastRow(rows[..|rows| - 1], h, prev)
  }

  lemma {:induction false} LastRowFacts(rows: seq<seq<real>>, h: real, prev: int)
    ensures var j := LastRow(rows, h, prev);
      (j == prev && forall i :: 0 <= i < |rows| ==> !RowClose(rows[i], h)) ||
      (0 <= j < |rows| && RowClose(rows[j], h) && forall i :: j < i < |rows| ==> !RowClose(rows[i], h))
  {
    if rows != [] && !RowClose(rows[|rows| - 1], h) {
      LastRowFacts(rows[..|rows| - 1], h, prev);
    }
  }

  /** The group loop of search: the last close group wins, and a close group's close rows update the row index. */
  function Scan(gs: seq<Group>, pv: seq<real>, h: real): Result<Hit> {
    if gs == [] then Ok(Hit(-1, -1))
    else match Scan(gs[..|gs| - 1], pv, h)
      case Err(e) => Err(e)
      case Ok(prev) =>
        var g := gs[|gs| - 1];
        if !ParamsClose(g.params, pv, Eps) then Ok(prev)
        else match g.field
          case None => Err(KeyError("field/value"))
          case Some(fs) => Ok(Hit(|gs| - 1, LastRow(fs.value, h, prev.field)))
  }

  /** search(param_vals, field_vals) on the groups of a store with the given key counts. */
  function SearchResult(gs: seq<Group>, np: nat, nf: nat, pv: seq<real>, fv: seq<real>): Result<Hit> {
    if |pv| != np || |fv| != nf then Err(Exit(1))
    else if |fv| == 0 then Err(IndexError)
    else Scan(gs, pv, fv[0])
  }

  predicate GroupClose(g: Group, pv: seq<real>) {
    ParamsClose(g.params, pv, Eps)
  }

  /** The parameter index found is the last close group, or -1 when no group is close. */
  lemma {:induction false} ScanParam(gs: seq<Group>, pv: seq<real>, h: real)
    ensures Scan(gs, pv, h).Err? <==>
      exists q :: 0 <= q < |gs| && GroupClose(gs[q], pv) && gs[q].field.None?
    ensures Scan(gs, pv, h).Ok? ==>
      var p := Scan(gs, pv, h).value.param;
      -1 <= p < |gs| &&
      (p == -1 <==> forall q :: 0 <= q < |gs| ==> !GroupClose(gs[q], pv)) &&
      (p >= 0 ==> GroupClose(gs[p], pv) && forall q :: p < q < |gs| ==> !GroupClose(gs[q], pv))
  {
    if gs != [] {
      var init := gs[..|gs| - 1];
      ScanParam(init, pv, h);
      assert forall q :: 0 <= q < |init| ==> init[q] == gs[q];
    }
  }

  /** A row index is reported only for a row that is close, in a close group. */
  lemma {:induction false} ScanField(gs: seq<Group>, pv: seq<real>, h: real)
    requires Scan(gs, pv, h).Ok?
    ensures var r := Scan(gs, pv, h).value;
      (r.param == -1 ==> r.field == -1) &&
      (r.field >= 0 ==>
        exists q :: 0 <= q < |gs| && GroupClose(gs[q], pv) && gs[q].field.Some? &&
          r.field < |gs[q].field.value.value| && RowClose(gs[q].field.value.value[r.field], h))
  {
    if gs != [] {
      var init := gs[..|gs| - 1];
      ScanField(init, pv, h);
      ScanParam(init, pv, h);
      var g := gs[|gs| - 1];
      assert forall q :: 0 <= q < |init| ==> init[q] == gs[q];
      if GroupClose(g, pv) && g.field.Some? {
        LastRowFacts(g.field.value.value, h, Scan(init, pv, h).value.field);
      }
    }
  }

  /** Groups that are not close do not change the result. */
  lemma {:induction false} ScanFarSuffix(a: seq<Group>, b: seq<Group>, pv: seq<real>, h: real)
    requires forall q :: 0 <= q < |b| ==> !GroupClose(b[q], pv)
    ensures Scan(a + b, pv, h) == Scan(a, pv, h)
    decreases |b|
  {
    if b != [] {
      var ab, init := a + b, a + b[..|b| - 1];
      ScanFarSuffix(a, b[..|b| - 1], pv, h);
      assert ab[..|ab| - 1] == init;
      assert ab[|ab| - 1] == b[|b| - 1];
      assert !GroupClose(ab[|ab| - 1], pv);
    } else {
      assert a + b == a;
    }
  }

  /** Once the scan stops with an error, later groups do not change it. */
  lemma {:induction false} ScanErr(a: seq<Group>, b: seq<Group>, pv: seq<real>, h: real)
    requires Scan(a, pv, h).Err?
    ensures Scan(a + b, pv, h) == Scan(a, pv, h)
    decreases |b|
  {
    if b != [] {
      var ab, init := a + b, a + b[..|b| - 1];
      ScanErr(a, b[..|b| - 1], pv, h);
      assert ab[..|ab| - 1] == init;
    } else {
      assert a + b == a;
    }
  }

  /** After a close group gains a last row close to `h`, search finds that row. */
  lemma ScanAfterAppend(gs: seq<Group>, p: nat, g': Group, pv: seq<real>, h: real)
    requires Scan(gs, pv, h).Ok? && Scan(gs, pv, h).value.param == p
    requires p < |gs| && g'.params == gs[p].params && g'.field.Some?
    requires var rows := g'.field.value.value; |rows| > 0 && RowClose(rows[|rows| - 1], h)
    ensures Scan(gs[p := g'], pv, h) == Ok(Hit(p, |g'.field.value.value| - 1))
  {
    ScanParam(gs, pv, h);
    var gs' := gs[p := g'];
    var pre := gs[..p];
    assert gs'[..p] == pre;
    assert gs'[..p + 1] == pre + [g'];
    assert gs'[..p + 1][..p] == pre;
    assert Scan(pre, pv, h).Ok? by {
      ScanParam(pre, pv, h);
      assert forall q :: 0 <= q < |pre| ==> pre[q] == gs[q];
    }
    var suffix := gs'[p + 1..];
    assert gs' == gs'[..p + 1] + suffix;
    assert forall q :: 0 <= q < |suffix| ==> suffix[q] == gs[p + 1 + q];
    ScanFarSuffix(gs'[..p + 1], suffix, pv, h);
  }

  /** When no group is close, a new close group whose last row is close to `h` is what search finds. */
  lemma ScanAfterNewGroup(gs: seq<Group>, g': Group, pv: seq<real>, h: real)
    requires Scan(gs, pv, h).Ok? && Scan(gs, pv, h).value.param == -1
    requires g'.params == pv && g'.field.Some?
    requires var rows := g'.field.value.value; |rows| > 0 && RowClose(rows[|rows| - 1], h)
    ensures Scan(gs + [g'], pv, h) == Ok(Hit(|gs|, |g'.field.value.value| - 1))
  {
    assert (gs + [g'])[..|gs|] == gs;
    assert GroupClose(g', pv);
  }

  // ---------------------------------------------------------------------
  // The store
  // ---------------------------------------------------------------------

  class Store {
    var basicInfo: Dict<Value>
    var groups: seq<Group>
    /** The parameter names of every group. */
    const paramKeys: seq<string>
    /** The field names; BEEMs always uses the single key "H". */
    const fieldKeys: seq<string>

    ghost predicate Valid()
      reads this
    {
      |fieldKeys| == 1 &&
      forall n :: 0 <= n < |groups| ==> WellFormed(groups[n], |paramKeys|, |fieldKeys|)
    }

    /** An opened cache file with its key lists. */
    constructor (basicInfo: Dict<Value>, groups: seq<Group>, paramKeys: seq<string>, fieldKeys: seq<string>)
      requires |fieldKeys| == 1
      requires forall n :: 0 <= n < |groups| ==> WellFormed(groups[n], |paramKeys|, |fieldKeys|)
      ensures Valid()
      ensures this.basicInfo == basicInfo && this.groups == groups
      ensures this.paramKeys == paramKeys && this.fieldKeys == fieldKeys
    {
      this.basicInfo := basicInfo;
      this.groups := groups;
      this.paramKeys := paramKeys;
      this.fieldKeys := fieldKeys;
    }

    /** search: the group index and field row index of a cached evaluation. */
    method Search(paramVals: seq<real>, fieldVals: seq<real>) returns (r: Result<Hit>)
      requires Valid()
      ensures r == SearchResult(groups, |paramKeys|, |fieldKeys|, paramVals, fieldVals)
    {
      if |paramVals| != |paramKeys| || |fieldVals| != |fieldKeys| {
        return Err(Exit(1));
      }
      var h := fieldVals[0];
      var p, f := -1, -1;
      var k := 0;
      while k < |groups|
        invariant 0 <= k <= |groups|
        invariant Scan(groups[..k], paramVals, h) == Ok(Hit(p, f))
      {
        assert groups[..k + 1][..k] == groups[..k];
        var g := groups[k];
        if ParamsClose(g.params, paramVals, Eps) {
          if g.field.None? {
            ScanErr(groups[..k + 1], groups[k + 1..], paramVals, h);
            assert groups[..k + 1] + groups[k + 1..] == groups;
            return Err(KeyError("field/value"));
          }
          p := k;
          var rows := g.field.value.value;
          var f0 := f;
          var j := 0;
          while j < |rows|
            invariant 0 <= j <= |rows|
            invariant f == LastRow(rows[..j], h, f0)
          {
            assert rows[..j + 1][..j] == rows[..j];
            if IsClose(rows[j][0], h, Eps) {
              f := j;
            }
            j := j + 1;
          }
          assert rows[..j] == rows;
        }
        k := k + 1;
      }
      assert groups[..k] == groups;
      r := Ok(Hit(p, f));
    }

    /** write_param: a negative index creates the next group with an empty field group. */
    method WriteParam(index: int, param: seq<real>) returns (indexParam: int)
      requires Valid()
      requires |param| >= |paramKeys|
      modifies this
      ensures Valid()
      ensures basicInfo == old(basicInfo)
      ensures index < 0 ==>
        indexParam == |old(groups)| && groups == old(groups) + [Group(param[..|paramKeys|], None)]
      ensures index >= 0 ==> indexParam == index && groups == old(groups)
    {
      indexParam := index;
      if index < 0 {
        indexParam := |groups|;
        groups := groups + [Group(param[..|paramKeys|], None)];
      }
    }

    /** write_field: read the solver output and append it to group `indexParam`. */
    method WriteField(indexParam: int, fieldVals: seq<real>, out: SolverOutput, py: Runtime)
      returns (r: Result<()>)
      requires Valid()
      requires |fieldVals| == |fieldKeys|
      modifies this
      ensures Valid()
      ensures basicInfo == old(basicInfo)
      ensures match FieldUpdate(old(basicInfo), old(groups), indexParam, fieldKeys, fieldVals, out, py)
        case Err(e) => r == Err(e) && groups == old(groups)
        case Ok(gs) => r == Ok(()) && groups == gs
    {
      var n: nat;
      match Exct(basicInfo) {
        case Err(e) => return Err(e);
        case Ok(m) => n := m;
      }
      var greens := ReadGreens(out, n);
      if greens.Err? {
        return Err(greens.error);
      }
      if out.energy.None? {
        return Err(OSError("zvo_energy.dat"));
      }
      var energies := ReadEnergies(out.energy.value, n, py);
      if energies.Err? {
        return Err(energies.error);
      }
      var (es, e2, sz) := energies.value;
      if !(0 <= indexParam < |groups|) {
        return Err(KeyError("data/param/" + IntToDecimal(indexParam) + "/field"));
      }
      var ev := Evaluation(es, e2, sz, greens.value);
      AppendRecordFacts(groups[indexParam], |paramKeys|, fieldKeys, fieldVals, ev);
      groups := groups[indexParam := AppendRecord(groups[indexParam], fieldKeys, fieldVals, ev)];
      r := Ok(());
    }
  }
}
