/**
  One evaluation step of the standard HPhi solver with the result cache
  (solver/SolverHPhiStdGC.py): read the couplings and the field from
  stan.in, look them up in the cache, run HPhi only on a miss and store its
  output, and finally collect one magnetisation per field into all_mag.csv.
 */
module SolverHPhiStdGC {
  import opened Wrappers
  import opened Text
  import opened Values
  import opened OrderedDict
  import opened Cache
  import AftMag

  // ---------------------------------------------------------------------
  // _read_param_file
  // ---------------------------------------------------------------------

  /**
    The (stripped key, value text) a line of stan.in assigns, if any: the
    line must contain "=" and the raw text before the first "=" must
    contain "J" or "H"; the value text is the piece after it.
   */
  function Assignment(line: string): Option<(string, string)> {
    if '=' !in line then None
    else
      SplitHasSep(line, '=');
      var vals := Split(line, '=');
      if 'J' in vals[0] || 'H' in vals[0] then Some((Strip(vals[0]), vals[1])) else None
  }

  predicate AssignsKey(line: string, k: string) {
    Assignment(line).Some? && Assignment(line).value.0 == k
  }

  /** The loop body of _read_param_file: an assignment line sets its key, other lines are skipped. */
  function ParamLine(d: Dict<real>, line: string, py: Runtime): Result<Dict<real>> {
    match Assignment(line)
    case None => Ok(d)
    case Some(kv) =>
      match py.parseFloat(kv.1)
      case None => Err(ValueError(kv.1))
      case Some(x) => Ok(Set(d, kv.0, x))
  }

  function ParamLines(lines: seq<string>, py: Runtime): Result<Dict<real>> {
    if lines == [] then Ok([])
    else match ParamLines(lines[..|lines| - 1], py)
      case Err(e) => Err(e)
      case Ok(d) => ParamLine(d, lines[|lines| - 1], py)
  }

  /** _read_param_file on the text of stan.in. */
  function ParamFile(text: string, py: Runtime): Result<Dict<real>> {
    ParamLines(Split(text, '\n'), py)
  }

  /** The key each line assigns, if any. */
  function AssignedKeys(lines: seq<string>): (r: seq<Option<string>>)
    ensures |r| == |lines|
    ensures forall i :: 0 <= i < |lines| ==> r[i].Some? == Assignment(lines[i]).Some?
    ensures forall i :: 0 <= i < |lines| && r[i].Some? ==> r[i].value == Assignment(lines[i]).value.0
  {
    seq(|lines|, i requires 0 <= i < |lines| =>
      if Assignment(lines[i]).Some? then Some(Assignment(lines[i]).value.0) else None)
  }

  /** The last position holding `x`. */
  function LastIndexOf<T(==)>(xs: seq<T>, x: T): (r: Option<nat>)
    ensures r.Some? ==> r.value < |xs| && xs[r.value] == x
  {
    if xs == [] then None
    else if xs[|xs| - 1] == x then Some(|xs| - 1)
    else LastIndexOf(xs[..|xs| - 1], x)
  }

  lemma {:induction false} LastIndexOfFacts<T>(xs: seq<T>, x: T)
    ensures LastIndexOf(xs, x).None? <==> x !in xs
    ensures LastIndexOf(xs, x).Some? ==> forall j :: LastIndexOf(xs, x).value < j < |xs| ==> xs[j] != x
  {
    if xs != [] && xs[|xs| - 1] != x {
      var init := xs[..|xs| - 1];
      LastIndexOfFacts(init, x);
      assert xs == init + [xs[|xs| - 1]];
    }
  }

  /** The value parsed from the last line that assigns `k`, if any. */
  function LastAssigned(lines: seq<string>, py: Runtime, k: string): Option<real> {
    match LastIndexOf(AssignedKeys(lines), Some(k))
    case None => None
    case Some(i) => py.parseFloat(Assignment(lines[i]).value.1)
  }

  lemma LastAssignedStep(lines: seq<string>, py: Runtime, k: string)
    requires lines != []
    ensures var init, last := lines[..|lines| - 1], lines[|lines| - 1];
      LastAssigned(lines, py, k) ==
        if AssignsKey(last, k) then py.parseFloat(Assignment(last).value.1) else LastAssigned(init, py, k)
  {
    var n := |lines| - 1;
    var init, last := lines[..n], lines[n];
    var ks := AssignedKeys(lines);
    assert ks[..n] == AssignedKeys(init);
    if AssignsKey(last, k) {
      assert ks[n] == Some(k);
      assert LastIndexOf(ks, Some(k)) == Some(n);
    } else {
      assert ks[n] != Some(k);
      assert LastIndexOf(ks, Some(k)) == LastIndexOf(AssignedKeys(init), Some(k));
      match LastIndexOf(AssignedKeys(init), Some(k))
      case None =>
      case Some(i) => assert init[i] == lines[i];
    }
  }

  /** One more line of _read_param_file sets the key it assigns and keeps every other key. */
  lemma ParamLinesStepGet(lines: seq<string>, py: Runtime, k: string)
    requires lines != [] && ParamLines(lines, py).Ok?
    requires UniqueKeys(ParamLines(lines[..|lines| - 1], py).value)
    ensures var init, last := lines[..|lines| - 1], lines[|lines| - 1];
      UniqueKeys(ParamLines(lines, py).value) &&
      Get(ParamLines(lines, py).value, k) ==
        if AssignsKey(last, k) then py.parseFloat(Assignment(last).value.1) else Get(ParamLines(init, py).value, k)
  {
    var last := lines[|lines| - 1];
    var d := ParamLines(lines[..|lines| - 1], py).value;
    if Assignment(last).Some? {
      var kv := Assignment(last).value;
      SetFacts(d, kv.0, py.parseFloat(kv.1).value);
    }
  }

  /**
    Later lines override earlier ones: a key holds the value of the last
    line that assigns it, and is absent when no line does.
   */
  lemma {:induction false} ParamLinesGet(lines: seq<string>, py: Runtime, k: string)
    requires ParamLines(lines, py).Ok?
    ensures UniqueKeys(ParamLines(lines, py).value)
    ensures Get(ParamLines(lines, py).value, k) == LastAssigned(lines, py, k)
  {
    if lines != [] {
      var init := lines[..|lines| - 1];
      ParamLinesGet(init, py, k);
      ParamLinesStepGet(lines, py, k);
      LastAssignedStep(lines, py, k);
    }
  }

  /** _read_param_file, with its loop over the lines. */
  method ReadParamFile(text: string, py: Runtime) returns (r: Result<Dict<real>>)
    ensures r == ParamFile(text, py)
  {
    var lines := Split(text, '\n');
    var d: Dict<real> := [];
    var i := 0;
    while i < |lines|
      invariant 0 <= i <= |lines|
      invariant ParamLines(lines[..i], py) == Ok(d)
    {
      assert lines[..i + 1][..i] == lines[..i];
      var a := Assignment(lines[i]);
      if a.Some? {
        var x := py.parseFloat(a.value.1);
        if x.None? {
          ParamLinesErr(lines, i, py);
          return Err(ValueError(a.value.1));
        }
        d := Set(d, a.value.0, x.value);
      }
      i := i + 1;
    }
    assert lines[..i] == lines;
    r := Ok(d);
  }

  lemma {:induction false} ParamLinesErr(lines: seq<string>, i: nat, py: Runtime)
    requires i < |lines| && ParamLines(lines[..i], py).Ok?
    requires ParamLine(ParamLines(lines[..i], py).value, lines[i], py).Err?
    ensures ParamLines(lines, py) == ParamLine(ParamLines(lines[..i], py).value, lines[i], py)
    decreases |lines|
  {
    if |lines| > i + 1 {
      var init := lines[..|lines| - 1];
      assert init[..i] == lines[..i] && init[i] == lines[i];
      ParamLinesErr(init, i, py);
    } else {
      assert lines[..|lines| - 1] == lines[..i];
    }
  }

  // ---------------------------------------------------------------------
  // _run_hphi
  // ---------------------------------------------------------------------

  /** [dic_param[key] for key in keys] */
  function Lookup(d: Dict<real>, keys: seq<string>): (r: Result<seq<real>>)
    ensures r.Ok? ==> |r.value| == |keys| && forall i :: 0 <= i < |keys| ==> Get(d, keys[i]) == Some(r.value[i])
    ensures r.Err? ==> exists i :: 0 <= i < |keys| && Get(d, keys[i]).None?
  {
    if keys == [] then Ok([])
    else match Get(d, keys[0])
      case None => Err(KeyError(keys[0]))
      case Some(x) =>
        match Lookup(d, keys[1..])
        case Err(e) => Err(e)
        case Ok(rest) => Ok([x] + rest)
  }

  /** The parameter and field vectors that stan.in names, in key order. */
  function Point(text: string, paramKeys: seq<string>, fieldKeys: seq<string>, py: Runtime): Result<(seq<real>, seq<real>)> {
    match ParamFile(text, py)
    case Err(e) => Err(e)
    case Ok(d) =>
      match Lookup(d, paramKeys)
      case Err(e) => Err(e)
      case Ok(pv) =>
        match Lookup(d, fieldKeys)
        case Err(e) => Err(e)
        case Ok(fv) => Ok((pv, fv))
  }

  /** What one _run_hphi call leaves behind besides the cache. */
  datatype Outcome = Outcome(
    ranSolver: bool,                       // HPhi was run (dry run, then run_hphi.sh)
    log: Option<(string, string)>,         // (file, line) appended after storing the output
    resulMag: Option<string>)              // output/resul_mag.dat written from the cache

  /** The message appended to the log after storing into group `index`, after the timestamp. */
  function SaveMessage(index: int): string {
    ": Save data to HDF5 (/data/param/" + IntToDecimal(index) + ").\n"
  }

  /** The cached Sz of the found row: data/param/<p>/field/calc_phys/Sz[f][0]. */
  function CachedSz(gs: seq<Group>, p: int, f: int): Result<real> {
    if !(0 <= p < |gs|) || gs[p].field.None? then Err(KeyError("data/param/" + IntToDecimal(p) + "/field/calc_phys/Sz"))
    else if !(0 <= f < |gs[p].field.value.sz|) || gs[p].field.value.sz[f] == [] then Err(IndexError)
    else Ok(gs[p].field.value.sz[f][0])
  }

  /** The hit branch as written: after reading Sz it prints to a file handle `fd` that is never bound. */
  function HitResultAsWritten(basicInfo: Dict<Value>, gs: seq<Group>, p: int, f: int, py: Runtime): Result<string> {
    match CachedSz(gs, p, f)
    case Err(e) => Err(e)
    case Ok(_) => Err(NameError("fd"))
  }

  /** The hit branch as intended: the cached Sz per site, "{}".format(Sz / L). */
  function HitResult(basicInfo: Dict<Value>, gs: seq<Group>, p: int, f: int, py: Runtime): Result<string> {
    match CachedSz(gs, p, f)
    case Err(e) => Err(e)
    case Ok(sz) =>
      match Get(basicInfo, "L")
      case None => Err(KeyError("basic_info/L"))
      case Some(v) =>
        match NumberOf(v)
        case None => Err(TypeError("basic_info/L"))
        case Some(l) => if l == 0.0 then Err(ZeroDivision) else Ok(py.str(sz / l))
  }

  /** As written, a cache hit never produces resul_mag.dat. */
  lemma HitAsWrittenNeverWrites(basicInfo: Dict<Value>, gs: seq<Group>, p: int, f: int, py: Runtime)
    ensures HitResultAsWritten(basicInfo, gs, p, f, py).Err?
    ensures CachedSz(gs, p, f).Ok? ==> HitResultAsWritten(basicInfo, gs, p, f, py) == Err(NameError("fd"))
  {
  }

  /**
    As intended, a hit on a row of the found group with at least one state
    and a non-zero L always produces the cached Sz per site.
   */
  lemma HitResultSucceeds(basicInfo: Dict<Value>, gs: seq<Group>, p: nat, f: nat, l: real, py: Runtime)
    requires p < |gs| && gs[p].field.Some? && f < |gs[p].field.value.sz| && gs[p].field.value.sz[f] != []
    requires Get(basicInfo, "L").Some? && NumberOf(Get(basicInfo, "L").value) == Some(l) && l != 0.0
    ensures HitResult(basicInfo, gs, p, f, py) == Ok(py.str(gs[p].field.value.sz[f][0] / l))
    ensures HitResultAsWritten(basicInfo, gs, p, f, py) == Err(NameError("fd"))
  {
  }

  /** After the miss branch appends the solver's row, search finds that row in the group it went to. */
  lemma StoredRowFound(g0: seq<Group>, g1: seq<Group>, p: int, index: int, pv: seq<real>,
                       keys: seq<string>, fv: seq<real>, ev: Evaluation)
    requires |fv| == |keys| == 1
    requires forall n :: 0 <= n < |g1| ==> WellFormed(g1[n], |pv|, |keys|)
    requires Scan(g0, pv, fv[0]).Ok? && Scan(g0, pv, fv[0]).value.param == p
    requires p < 0 ==> index == |g0| && g1 == g0 + [Group(pv, None)]
    requires p >= 0 ==> index == p && g1 == g0
    ensures 0 <= index < |g1|
    ensures var after := Scan(g1[index := AppendRecord(g1[index], keys, fv, ev)], pv, fv[0]);
      after.Ok? && after.value.param == index && after.value.field >= 0
  {
    var h := fv[0];
    ScanParam(g0, pv, h);
    var g' := AppendRecord(g1[index], keys, fv, ev);
    AppendRecordFacts(g1[index], |pv|, keys, fv, ev);
    assert RowClose(fv, h);
    if p < 0 {
      assert g1[index := g'] == g0 + [g'];
      ScanAfterNewGroup(g0, g', pv, h);
    } else {
      ScanAfterAppend(g0, p, g', pv, h);
    }
  }

  /** The groups after write_param(index_param, param_vals): a new group for a negative index. */
  function MissGroups(gs: seq<Group>, pv: seq<real>, p: int): seq<Group> {
    if p < 0 then gs + [Group(pv, None)] else gs
  }

  /** The group write_field appends to: the new one for a negative index. */
  function MissIndex(gs: seq<Group>, p: int): int {
    if p < 0 then |gs| else p
  }

  /**
    The miss branch of run_hphi: run the solver, store its output as a new
    row of the matching group (or of a new group when none matched), and
    report the log message.  Afterwards search finds the new row.
   */
  method StoreMiss(store: Store, pv: seq<real>, fv: seq<real>, p: int, out: SolverOutput, now: string, py: Runtime)
    returns (r: Result<Outcome>)
    requires store.Valid() && |pv| == |store.paramKeys| && |fv| == |store.fieldKeys|
    requires Scan(store.groups, pv, fv[0]).Ok? && Scan(store.groups, pv, fv[0]).value.param == p
    modifies store
    ensures store.Valid() && store.basicInfo == old(store.basicInfo)
    ensures r.Ok? ==>
      var after := Scan(store.groups, pv, fv[0]);
      after.Ok? && after.value.field >= 0 &&
      |store.groups| == |old(store.groups)| + (if p < 0 then 1 else 0) &&
      r.value == Outcome(true, Some(("log", now + SaveMessage(after.value.param))), None)
    ensures var g1 := MissGroups(old(store.groups), pv, p);
      var w := FieldUpdate(old(store.basicInfo), g1, MissIndex(old(store.groups), p), store.fieldKeys, fv, out, py);
      && (r.Ok? <==> w.Ok?)
      && (r.Ok? ==> store.groups == w.value)
      && (r.Err? ==> r.error == w.error && store.groups == g1)
  {
    ghost var g0 := store.groups;
    var index := p;
    if p < 0 {
      index := store.WriteParam(p, pv);
      assert pv[..|store.paramKeys|] == pv;
    }
    ghost var g1 := store.groups;
    var w := store.WriteField(index, fv, out, py);
    if w.Err? {
      return Err(w.error);
    }
    ghost var ev := ReadEvaluation(out, Exct(store.basicInfo).value, py).value;
    StoredRowFound(g0, g1, p, index, pv, store.fieldKeys, fv, ev);
    r := Ok(Outcome(true, Some(("log", now + SaveMessage(index))), None));
  }

  /**
    _run_hphi(logfile, sh5): with no cache the solver always runs; with a
    cache it runs only when the field row was not found, and then stores the
    output, creating the group first when no group matched.  On a hit the
    intended resul_mag.dat is written from the cache.  The log always goes
    to "log", whatever `logfile` says.
   */
  method RunHPhi(logfile: string, stan: string, store: Store?, out: SolverOutput, now: string, py: Runtime)
    returns (r: Result<Outcome>)
    requires store != null ==> store.Valid()
    modifies store
    ensures store != null ==> store.Valid() && store.basicInfo == old(store.basicInfo)
    ensures ParamFile(stan, py).Err? ==> r == Err(ParamFile(stan, py).error)
    ensures store == null && ParamFile(stan, py).Ok? ==> r == Ok(Outcome(true, None, None))
    ensures store != null && r.Ok? ==> Point(stan, store.paramKeys, store.fieldKeys, py).Ok?
    ensures store != null && r.Ok? ==>
      var pt := Point(stan, store.paramKeys, store.fieldKeys, py).value;
      var before := SearchResult(old(store.groups), |store.paramKeys|, |store.fieldKeys|, pt.0, pt.1);
      var after := SearchResult(store.groups, |store.paramKeys|, |store.fieldKeys|, pt.0, pt.1);
      before.Ok? && after.Ok? && after.value.field >= 0 &&
      (r.value.ranSolver <==> before.value.field < 0) &&
      (before.value.field >= 0 ==>
        store.groups == old(store.groups) && r.value.log == None &&
        r.value.resulMag.Some? &&
        HitResult(store.basicInfo, store.groups, before.value.param, before.value.field, py) == Ok(r.value.resulMag.value)) &&
      (before.value.field < 0 ==>
        |store.groups| == |old(store.groups)| + (if before.value.param < 0 then 1 else 0) &&
        r.value.log == Some(("log", now + SaveMessage(after.value.param))) && r.value.resulMag == None &&
        FieldUpdate(old(store.basicInfo), MissGroups(old(store.groups), pt.0, before.value.param),
                    MissIndex(old(store.groups), before.value.param), store.fieldKeys, pt.1, out, py) == Ok(store.groups))
  {
    var dic := ReadParamFile(stan, py);
    if dic.Err? {
      return Err(dic.error);
    }
    if store == null {
      return Ok(Outcome(true, None, None));
    }
    var pv := Lookup(dic.value, store.paramKeys);
    if pv.Err? {
      return Err(pv.error);
    }
    var fv := Lookup(dic.value, store.fieldKeys);
    if fv.Err? {
      return Err(fv.error);
    }
    var hit := store.Search(pv.value, fv.value);
    if hit.Err? {
      return Err(hit.error);
    }
    var p, f := hit.value.param, hit.value.field;
    if f < 0 {
      r := StoreMiss(store, pv.value, fv.value, p, out, now, py);
    } else {
      var text := HitResult(store.basicInfo, store.groups, p, f, py);
      if text.Err? {
        return Err(text.error);
      }
      r := Ok(Outcome(false, None, Some(text.value)));
    }
  }

  // ---------------------------------------------------------------------
  // calcvalues
  // ---------------------------------------------------------------------

  /** The directory h<i> of one field value: its resul_mag.dat, if present, and its zvo_energy.dat. */
  datatype FieldDir = FieldDir(resulMag: Option<string>, energy: Option<string>)

  /** The content of h<i>/resul_mag.dat after calcvalues: kept if present, else written by Aft_mag.main. */
  function DirResult(d: FieldDir, nspin: int, py: Runtime): Result<string> {
    match d.resulMag
    case Some(t) => Ok(t)
    case None =>
      match d.energy
      case None => Err(OSError("zvo_energy.dat"))
      case Some(e) => AftMag.MagFile(e, nspin, py)
  }

  function DirName(i: nat): string {
    "h" + NatToDecimal(i)
  }

  /** The lines of all_mag.csv for the first |fields| field values, without their terminators. */
  function CsvLines(fields: seq<real>, dirs: seq<FieldDir>, nspin: int, py: Runtime): Result<seq<string>> {
    if fields == [] then Ok([])
    else match CsvLines(fields[..|fields| - 1], dirs, nspin, py)
      case Err(e) => Err(e)
      case Ok(ls) =>
        var i := |fields| - 1;
        if i >= |dirs| then Err(OSError(DirName(i)))
        else match DirResult(dirs[i], nspin, py)
          case Err(e) => Err(e)
          case Ok(t) => Ok(ls + [py.str(fields[i]) + "," + TrimRight(t)])
  }

  /** Line i of all_mag.csv pairs field i with the stripped result of directory h<i>, in target order. */
  lemma {:induction false} CsvLinesFacts(fields: seq<real>, dirs: seq<FieldDir>, nspin: int, py: Runtime)
    requires CsvLines(fields, dirs, nspin, py).Ok?
    ensures var ls := CsvLines(fields, dirs, nspin, py).value;
      |ls| == |fields| && |fields| <= |dirs| &&
      forall i :: 0 <= i < |fields| ==>
        DirResult(dirs[i], nspin, py).Ok? && ls[i] == py.str(fields[i]) + "," + TrimRight(DirResult(dirs[i], nspin, py).value)
  {
    if fields != [] {
      var init := fields[..|fields| - 1];
      CsvLinesFacts(init, dirs, nspin, py);
      assert forall i :: 0 <= i < |init| ==> init[i] == fields[i];
    }
  }

  lemma {:induction false} CsvLinesErr(fields: seq<real>, i: nat, dirs: seq<FieldDir>, nspin: int, py: Runtime, e: Error)
    requires i < |fields| && CsvLines(fields[..i], dirs, nspin, py).Ok?
    requires (i >= |dirs| && e == OSError(DirName(i))) || (i < |dirs| && DirResult(dirs[i], nspin, py) == Err(e))
    ensures CsvLines(fields, dirs, nspin, py) == Err(e)
    decreases |fields|
  {
    if |fields| > i + 1 {
      var init := fields[..|fields| - 1];
      assert init[..i] == fields[..i] && init[i] == fields[i];
      CsvLinesErr(init, i, dirs, nspin, py, e);
    } else {
      assert fields[..|fields| - 1] == fields[..i];
    }
  }

  /** calcvalues(Nspin): the text of all_mag.csv, one "field,result" line per target row. */
  method CalcValues(fields: seq<real>, dirs: seq<FieldDir>, nspin: int, py: Runtime) returns (r: Result<string>)
    ensures match CsvLines(fields, dirs, nspin, py)
      case Err(e) => r == Err(e)
      case Ok(ls) => r == Ok(Unlines(ls))
  {
    var csv := "";
    ghost var ls: seq<string> := [];
    var i := 0;
    while i < |fields|
      invariant 0 <= i <= |fields|
      invariant CsvLines(fields[..i], dirs, nspin, py) == Ok(ls)
      invariant csv == Unlines(ls)
    {
      assert fields[..i + 1][..i] == fields[..i];
      if i >= |dirs| {
        CsvLinesErr(fields, i, dirs, nspin, py, OSError(DirName(i)));
        return Err(OSError(DirName(i)));
      }
      var result := DirResult(dirs[i], nspin, py);
      if result.Err? {
        CsvLinesErr(fields, i, dirs, nspin, py, result.error);
        return Err(result.error);
      }
      var line := py.str(fields[i]) + "," + TrimRight(result.value);
      UnlinesAppend(ls, line);
      csv := csv + line + "\n";
      ls := ls + [line];
      i := i + 1;
    }
    assert fields[..i] == fields;
    r := Ok(csv);
  }
}
