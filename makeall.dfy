/**
  The per-field HPhi inputs (makeall.py): the base stan.in built from the
  SpinGC defaults and `hphi_params`, one stan<i>.in per field value, the
  reader of "field,mag" result files, and the default-input dry run.
 */
module MakeAll {
  import opened Wrappers
  import opened Text
  import opened Values
  import opened OrderedDict
  import opened HPhiIO

  /** The nine default couplings output_stanin deletes before merging hphi_params. */
  const J0Keys: seq<string> := ["J0x", "J0y", "J0z", "J0'x", "J0'y", "J0'z", "J0''x", "J0''y", "J0''z"]

  /** hphi_cond: the HPhi executable and the input file name. */
  datatype Cond = Cond(pathHPhi: string, inputPath: string)

  /** toml_dic[name], which must be a table. */
  function Section(toml: Dict<Value>, name: string): Result<Dict<Value>> {
    match Get(toml, name)
    case None => Err(KeyError(name))
    case Some(v) => if v.VTable? then Ok(v.entries) else Err(TypeError(name))
  }

  /** os.path.join(dir, name) for a relative name. */
  function Join(dir: string, name: string): string {
    if dir == [] || dir[|dir| - 1] == '/' then dir + name else dir + "/" + name
  }

  /** hphi_cond from the [path] section: hphi_dir is required, stan defaults to "stan.in". */
  function Conditions(toml: Dict<Value>): Result<Cond> {
    match Section(toml, "path")
    case Err(e) => Err(e)
    case Ok(path) =>
      match Get(path, "hphi_dir")
      case None => Err(KeyError("hphi_dir"))
      case Some(dir) =>
        if !dir.VStr? then Err(TypeError("hphi_dir"))
        else match Get(path, "stan")
          case None => Ok(Cond(Join(dir.s, "HPhi"), "stan.in"))
          case Some(stan) => if stan.VStr? then Ok(Cond(Join(dir.s, "HPhi"), stan.s)) else Err(TypeError("stan"))
  }

  // ---------------------------------------------------------------------
  // output_stanin
  // ---------------------------------------------------------------------

  /** input_param when stan.in is written: the SpinGC defaults without J0*, then hphi_params. */
  function StanParams(hp: Dict<Value>): Dict<Value> {
    Update(RemoveKeys(SpinGCDefaults, J0Keys), hp)
  }

  /** stan<i>.in: the base text, a newline, and the field line. */
  function StanFile(i: nat, base: string, h: real, py: Runtime): (string, string) {
    ("stan" + NatToDecimal(i) + ".in", base + "\nH = " + py.str(h))
  }

  function StanFiles(base: string, fields: seq<real>, py: Runtime): (fs: seq<(string, string)>)
    ensures |fs| == |fields|
  {
    if fields == [] then []
    else StanFiles(base, fields[..|fields| - 1], py) + [StanFile(|fields| - 1, base, fields[|fields| - 1], py)]
  }

  /** output_stanin(toml_dic, mag_field): the files it writes, in order. */
  function Stanin(toml: Dict<Value>, fields: seq<real>, py: Runtime): Result<seq<(string, string)>> {
    match Conditions(toml)
    case Err(e) => Err(e)
    case Ok(_) =>
      match Section(toml, "hphi_params")
      case Err(e) => Err(e)
      case Ok(hp) => Ok(StanFiles(InputText(StanParams(hp), py), fields, py))
  }

  lemma SpinGCDefaultsUnique()
    ensures UniqueKeys(SpinGCDefaults)
  {
    var d := SpinGCDefaults;
    forall i, j | 0 <= i < j < |d| ensures d[i].0 != d[j].0 {
      assert d[i].0[0] != d[j].0[0] || |d[i].0| != |d[j].0| || d[i].0[|d[i].0| - 1] != d[j].0[|d[j].0| - 1] || d[i].0 != d[j].0;
    }
  }

  /**
    In stan.in a key takes its hphi_params value when hphi_params names
    it; otherwise a J0* coupling is absent and any other key keeps its
    SpinGC default.
   */
  lemma StanParamsGet(hp: Dict<Value>, k: string)
    requires UniqueKeys(hp)
    ensures Get(StanParams(hp), k) ==
      if k in Keys(hp) then Get(hp, k) else if k in J0Keys then None else Get(SpinGCDefaults, k)
  {
    SpinGCDefaultsUnique();
    RemoveKeysGet(SpinGCDefaults, J0Keys, k);
    UpdateGet(RemoveKeys(SpinGCDefaults, J0Keys), hp, k);
  }

  /** File i is named after its position and carries field i; there is one file per field. */
  lemma {:induction false} StanFilesFacts(base: string, fields: seq<real>, py: Runtime)
    ensures forall i :: 0 <= i < |fields| ==> StanFiles(base, fields, py)[i] == StanFile(i, base, fields[i], py)
  {
    if fields != [] {
      var init := fields[..|fields| - 1];
      StanFilesFacts(base, init, py);
      assert forall i :: 0 <= i < |init| ==> init[i] == fields[i];
    }
  }

  /**
    Each stan<i>.in reads as the lines of the base file, one blank line,
    and the field line, which has no terminator.
   */
  lemma StanFileLines(p: Dict<Value>, i: nat, h: real, py: Runtime)
    requires Printable(p, py) && '\n' !in py.str(h)
    ensures Split(StanFile(i, InputText(p, py), h, py).1, '\n') == InputLines(p, py) + ["", "H = " + py.str(h)]
  {
    var ls := InputLines(p, py);
    var hl := "H = " + py.str(h);
    InputLinesNoNewlines(p, py);
    InputTextUnlines(p, py);
    assert StanFile(i, InputText(p, py), h, py).1 == Unlines(ls) + ("\n" + hl);
    SplitUnlinesThen(ls, "\n" + hl);
    SplitLeadingNewline(hl);
  }

  lemma InputLinesNoNewlines(p: Dict<Value>, py: Runtime)
    requires Printable(p, py)
    ensures NoNewlines(InputLines(p, py))
  {
    var ls := InputLines(p, py);
    InputTextLines(p, py);
    forall j | 0 <= j < |ls| ensures '\n' !in ls[j] {
      assert ls[j] in Split(InputText(p, py), '\n');
    }
  }

  lemma SplitLeadingNewline(t: string)
    requires '\n' !in t
    ensures Split("\n" + t, '\n') == ["", t]
  {
    assert "\n" + t == [] + ['\n'] + t;
    SplitAt([], t, '\n');
    SplitNoSep(t, '\n');
    SplitNoSep([], '\n');
  }

  // ---------------------------------------------------------------------
  // func_readmag
  // ---------------------------------------------------------------------

  /** One line of the file: an empty line stays (0.0, 0.0), any other gives its first two comma fields. */
  function MagRow(line: string, py: Runtime): Result<(real, real)> {
    if line == [] then Ok((0.0, 0.0))
    else
      var tmp := Split(line, ',');
      match Float(tmp[0], py)
      case Err(e) => Err(e)
      case Ok(f) =>
        if |tmp| < 2 then Err(IndexError)
        else match Float(tmp[1], py)
          case Err(e) => Err(e)
          case Ok(m) => Ok((f, m))
  }

  /** The (field, mag) arrays filled from the given lines. */
  function MagRows(data: seq<string>, py: Runtime): Result<(seq<real>, seq<real>)> {
    if data == [] then Ok(([], []))
    else match MagRows(data[..|data| - 1], py)
      case Err(e) => Err(e)
      case Ok(acc) =>
        match MagRow(data[|data| - 1], py)
        case Err(e) => Err(e)
        case Ok(fm) => Ok((acc.0 + [fm.0], acc.1 + [fm.1]))
  }

  /** func_readmag on the text of the file: every "\n"-piece but the last. */
  function ReadMagText(text: string, py: Runtime): Result<(seq<real>, seq<real>)> {
    var data := Split(text, '\n');
    MagRows(data[..|data| - 1], py)
  }

  lemma {:induction false} MagRowsFacts(data: seq<string>, py: Runtime)
    requires MagRows(data, py).Ok?
    ensures var v := MagRows(data, py).value;
      |v.0| == |data| && |v.1| == |data| &&
      forall i :: 0 <= i < |data| ==> MagRow(data[i], py) == Ok((v.0[i], v.1[i]))
  {
    if data != [] {
      var init := data[..|data| - 1];
      MagRowsFacts(init, py);
      assert forall i :: 0 <= i < |init| ==> init[i] == data[i];
    }
  }

  lemma {:induction false} MagRowsErr(data: seq<string>, i: nat, py: Runtime)
    requires i < |data| && MagRows(data[..i], py).Ok? && MagRow(data[i], py).Err?
    ensures MagRows(data, py) == Err(MagRow(data[i], py).error)
    decreases |data|
  {
    if |data| > i + 1 {
      var init := data[..|data| - 1];
      assert init[..i] == data[..i] && init[i] == data[i];
      MagRowsErr(init, i, py);
    } else {
      assert data[..|data| - 1] == data[..i];
    }
  }

  lemma MagRowsStep(data: seq<string>, i: nat, f: seq<real>, m: seq<real>, py: Runtime)
    requires i < |data| && MagRows(data[..i], py) == Ok((f, m)) && MagRow(data[i], py).Ok?
    ensures MagRows(data[..i + 1], py) == Ok((f + [MagRow(data[i], py).value.0], m + [MagRow(data[i], py).value.1]))
  {
    assert data[..i + 1][..i] == data[..i];
  }

  lemma MagRowsErrPrefix(data: seq<string>, n: nat, i: nat, py: Runtime)
    requires i < n <= |data| && MagRows(data[..i], py).Ok? && MagRow(data[i], py).Err?
    ensures MagRows(data[..n], py) == Err(MagRow(data[i], py).error)
  {
    assert data[..n][..i] == data[..i] && data[..n][i] == data[i];
    MagRowsErr(data[..n], i, py);
  }

  /** One "field,mag" line reads back as its two numbers. */
  lemma MagRowOfCells(a: string, b: string, f: real, m: real, py: Runtime)
    requires ',' !in a && ',' !in b
    requires py.parseFloat(a) == Some(f) && py.parseFloat(b) == Some(m)
    ensures MagRow(a + "," + b, py) == Ok((f, m))
  {
    assert a + "," + b == a + [','] + b;
    SplitAt(a, b, ',');
    SplitNoSep(a, ',');
    SplitNoSep(b, ',');
  }

  /**
    A file of "field,mag" lines, each terminated, reads back as the two
    columns in file order.
   */
  lemma ReadMagOfLines(cells: seq<(string, string)>, fs: seq<real>, ms: seq<real>, py: Runtime)
    requires |fs| == |cells| && |ms| == |cells|
    requires forall i :: 0 <= i < |cells| ==>
      ',' !in cells[i].0 && ',' !in cells[i].1 && '\n' !in cells[i].0 && '\n' !in cells[i].1 &&
      py.parseFloat(cells[i].0) == Some(fs[i]) && py.parseFloat(cells[i].1) == Some(ms[i])
    ensures ReadMagText(Unlines(seq(|cells|, i requires 0 <= i < |cells| => cells[i].0 + "," + cells[i].1)), py) == Ok((fs, ms))
  {
    var ls := seq(|cells|, i requires 0 <= i < |cells| => cells[i].0 + "," + cells[i].1);
    SplitUnlines(ls);
    assert (ls + [""])[..|ls|] == ls;
    forall i | 0 <= i < |cells| ensures MagRow(ls[i], py) == Ok((fs[i], ms[i])) {
      MagRowOfCells(cells[i].0, cells[i].1, fs[i], ms[i], py);
    }
    MagRowsOfRows(ls, fs, ms, py);
  }

  lemma {:induction false} MagRowsOfRows(ls: seq<string>, fs: seq<real>, ms: seq<real>, py: Runtime)
    requires |fs| == |ls| && |ms| == |ls|
    requires forall i :: 0 <= i < |ls| ==> MagRow(ls[i], py) == Ok((fs[i], ms[i]))
    ensures MagRows(ls, py) == Ok((fs, ms))
  {
    if ls != [] {
      var n := |ls| - 1;
      MagRowsOfRows(ls[..n], fs[..n], ms[..n], py);
      assert fs[..n] + [fs[n]] == fs && ms[..n] + [ms[n]] == ms;
    }
  }

  /** func_readmag(file_name): two zero-filled arrays, filled line by line. */
  method ReadMag(text: string, py: Runtime) returns (r: Result<(seq<real>, seq<real>)>)
    ensures r == ReadMagText(text, py)
  {
    var data := Split(text, '\n');
    var cntMax := |data| - 1;
    var field := new real[cntMax];
    var mag := new real[cntMax];
    var i := 0;
    while i < cntMax
      invariant 0 <= i <= cntMax
      invariant MagRows(data[..i], py) == Ok((field[..i], mag[..i]))
    {
      var row := MagRow(data[i], py);
      if row.Err? {
        MagRowsErrPrefix(data, cntMax, i, py);
        return Err(row.error);
      }
      MagRowsStep(data, i, field[..i], mag[..i], py);
      field[i] := row.value.0;
      mag[i] := row.value.1;
      assert field[..i + 1] == field[..i] + [row.value.0];
      assert mag[..i + 1] == mag[..i] + [row.value.1];
      i := i + 1;
    }
    assert data[..i] == data[..|data| - 1];
    assert field[..] == field[..i] && mag[..] == mag[..i];
    r := Ok((field[..], mag[..]));
  }

  // ---------------------------------------------------------------------
  // main and output_def
  // ---------------------------------------------------------------------

  /** target_data[:, 0] */
  function FirstColumn(target: seq<seq<real>>): (r: Result<seq<real>>)
    ensures r.Ok? <==> forall i :: 0 <= i < |target| ==> target[i] != []
    ensures r.Ok? ==> |r.value| == |target| && forall i :: 0 <= i < |target| ==> r.value[i] == target[i][0]
  {
    if target == [] then Ok([])
    else match FirstColumn(target[..|target| - 1])
      case Err(e) => Err(e)
      case Ok(c) =>
        var row := target[|target| - 1];
        if row == [] then Err(IndexError) else Ok(c + [row[0]])
  }

  /** main(input_toml, target_data): the stan<i>.in files for the target's field column. */
  function MainFiles(toml: Dict<Value>, target: seq<seq<real>>, py: Runtime): Result<seq<(string, string)>> {
    match FirstColumn(target)
    case Err(e) => Err(e)
    case Ok(fields) => Stanin(toml, fields, py)
  }

  /** input_param for the dry run of output_def: the SpinGC defaults without L, then the whole TOML. */
  function DefParams(toml: Dict<Value>): Dict<Value> {
    Update(Remove(SpinGCDefaults, "L"), toml)
  }

  /** output_def(toml_dic): the input file it writes before the dry run. */
  function DefText(toml: Dict<Value>, py: Runtime): Result<string> {
    match Conditions(toml)
    case Err(e) => Err(e)
    case Ok(_) => Ok(InputText(DefParams(toml), py))
  }

  /** The dry-run input carries L only if the TOML itself has a top-level L. */
  lemma DefParamsL(toml: Dict<Value>)
    requires UniqueKeys(toml)
    ensures Get(DefParams(toml), "L") == Get(toml, "L")
    ensures Get(DefParams(toml), "model") == if "model" in Keys(toml) then Get(toml, "model") else Some(VStr("SpinGC"))
  {
    SpinGCDefaultsUnique();
    RemoveFacts(SpinGCDefaults, "L");
    UpdateGet(Remove(SpinGCDefaults, "L"), toml, "L");
    UpdateGet(Remove(SpinGCDefaults, "L"), toml, "model");
    GetUnique(SpinGCDefaults, 0);
  }

  /** output_stanin(toml_dic, mag_field) */
  method OutputStanin(toml: Dict<Value>, magField: seq<real>, py: Runtime) returns (r: Result<seq<(string, string)>>)
    ensures r == Stanin(toml, magField, py)
  {
    var cond := Conditions(toml);
    if cond.Err? {
      return Err(cond.error);
    }
    var solver := new HPhi.SpinGC(cond.value.pathHPhi, cond.value.inputPath);
    var _ := solver.DeleteInput(J0Keys);
    var hp := Section(toml, "hphi_params");
    if hp.Err? {
      return Err(hp.error);
    }
    var stanStr := solver.MakeInput(hp.value, py);
    var files := WriteStanFiles(stanStr, magField, py);
    r := Ok(files);
  }

  /** The loop of output_stanin: one stan<i>.in per field value. */
  method WriteStanFiles(base: string, magField: seq<real>, py: Runtime) returns (files: seq<(string, string)>)
    ensures files == StanFiles(base, magField, py)
  {
    files := [];
    var i := 0;
    while i < |magField|
      invariant 0 <= i <= |magField|
      invariant files == StanFiles(base, magField[..i], py)
    {
      assert magField[..i + 1][..i] == magField[..i];
      files := files + [StanFile(i, base, magField[i], py)];
      i := i + 1;
    }
    assert magField[..i] == magField;
  }

  /** main(input_toml, target_data) */
  method MakeInputs(toml: Dict<Value>, target: seq<seq<real>>, py: Runtime) returns (r: Result<seq<(string, string)>>)
    ensures r == MainFiles(toml, target, py)
  {
    var fields := FirstColumn(target);
    if fields.Err? {
      return Err(fields.error);
    }
    r := OutputStanin(toml, fields.value, py);
  }

  /** output_def(toml_dic): the text of the input file handed to HPhi's dry run. */
  method OutputDef(toml: Dict<Value>, py: Runtime) returns (r: Result<string>)
    ensures r == DefText(toml, py)
  {
    var cond := Conditions(toml);
    if cond.Err? {
      return Err(cond.error);
    }
    var solver := new HPhi.SpinGC(cond.value.pathHPhi, cond.value.inputPath);
    var _ := solver.DeleteInput(["L"]);
    assert RemoveKeys(SpinGCDefaults, ["L"]) == Remove(SpinGCDefaults, "L");
    var text := solver.MakeInput(toml, py);
    r := Ok(text);
  }
}
