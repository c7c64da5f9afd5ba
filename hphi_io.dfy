/**
  The HPhi wrapper (hphi_io.py): an object holding HPhi's standard-mode
  input as an insertion-ordered dictionary, the text it writes for HPhi,
  and the parsers of HPhi's energy output.  The base class and its SpinGC
  and Spin subclasses are one class here with one constructor per
  subclass; the HPhi executable is the `out` oracle of GetEnergyByHPhi.
 */
module HPhiIO {
  import opened Wrappers
  import opened Text
  import opened Values
  import opened OrderedDict

  // ---------------------------------------------------------------------
  // The input file
  // ---------------------------------------------------------------------

  /** "{} = {}".format(key, item) */
  function InputLine(k: string, v: Value, py: Runtime): string {
    k + " = " + ValueText(v, py)
  }

  function InputLines(d: Dict<Value>, py: Runtime): seq<string> {
    seq(|d|, i requires 0 <= i < |d| => InputLine(d[i].0, d[i].1, py))
  }

  /** What _make_input_file writes: each entry on its own terminated line, in insertion order. */
  function InputText(d: Dict<Value>, py: Runtime): string {
    if d == [] then []
    else InputText(d[..|d| - 1], py) + InputLine(d[|d| - 1].0, d[|d| - 1].1, py) + "\n"
  }

  lemma {:induction false} InputTextUnlines(d: Dict<Value>, py: Runtime)
    ensures InputText(d, py) == Unlines(InputLines(d, py))
  {
    if d != [] {
      var init := d[..|d| - 1];
      InputTextUnlines(init, py);
      assert InputLines(d, py) == InputLines(init, py) + [InputLine(d[|d| - 1].0, d[|d| - 1].1, py)];
      UnlinesAppend(InputLines(init, py), InputLine(d[|d| - 1].0, d[|d| - 1].1, py));
    }
  }

  /** Keys and value texts that stay on one line. */
  predicate Printable(d: Dict<Value>, py: Runtime) {
    forall i :: 0 <= i < |d| ==> '\n' !in d[i].0 && '\n' !in ValueText(d[i].1, py)
  }

  /**
    Read back, the input file has one line per entry, in order, each
    naming its key before the first "=" when the key has no "=" of its own.
   */
  lemma InputTextLines(d: Dict<Value>, py: Runtime)
    requires Printable(d, py)
    ensures Split(InputText(d, py), '\n') == InputLines(d, py) + [""]
    ensures forall i :: 0 <= i < |d| && '=' !in d[i].0 ==>
      Split(InputLines(d, py)[i], '=')[0] == d[i].0 + " "
  {
    var ls := InputLines(d, py);
    InputTextUnlines(d, py);
    forall i | 0 <= i < |ls| ensures '\n' !in ls[i] {
      assert ls[i] == d[i].0 + " = " + ValueText(d[i].1, py);
    }
    SplitUnlines(ls);
    forall i | 0 <= i < |d| && '=' !in d[i].0 ensures Split(ls[i], '=')[0] == d[i].0 + " " {
      assert ls[i] == (d[i].0 + " ") + ['='] + (" " + ValueText(d[i].1, py));
      SplitHead(d[i].0 + " ", " " + ValueText(d[i].1, py), '=');
    }
  }

  // ---------------------------------------------------------------------
  // The defaults of the subclasses
  // ---------------------------------------------------------------------

  /** input_param as hphi_io_spingc.__init__ leaves it. */
  const SpinGCDefaults: Dict<Value> := [
    ("model", VStr("SpinGC")), ("method", VStr("CG")), ("lattice", VStr("chain")), ("L", VInt(16)),
    ("J0z", VReal(1.0)), ("J0x", VReal(1.0)), ("J0y", VReal(1.0)),
    ("J0'z", VReal(1.0)), ("J0'x", VReal(1.0)), ("J0'y", VReal(1.0)),
    ("J0''z", VReal(1.0)), ("J0''x", VReal(1.0)), ("J0''y", VReal(1.0)),
    ("exct", VInt(2))]

  /** input_param as hphi_io_spin.__init__ leaves it. */
  const SpinDefaults: Dict<Value> := [
    ("model", VStr("Spin")), ("method", VStr("CG")), ("lattice", VStr("chain")), ("L", VInt(12)),
    ("J0", VReal(1.0)), ("exct", VInt(2)), ("2Sz", VInt(0))]

  /** The keys delete_input reports as absent, one message each, in order. */
  function Absent(d: Dict<Value>, ks: seq<string>): seq<string> {
    if ks == [] then []
    else
      var init := ks[..|ks| - 1];
      Absent(d, init) + if Find(RemoveKeys(d, init), ks[|ks| - 1]).Some? then [] else [ks[|ks| - 1]]
  }

  /** One pass of the delete_input loop. */
  lemma DeleteStep(d: Dict<Value>, keys: seq<string>, i: nat)
    requires i < |keys|
    ensures RemoveKeys(d, keys[..i + 1]) == Remove(RemoveKeys(d, keys[..i]), keys[i])
    ensures Absent(d, keys[..i + 1]) ==
      Absent(d, keys[..i]) + if Find(RemoveKeys(d, keys[..i]), keys[i]).Some? then [] else [keys[i]]
  {
    assert keys[..i + 1] == keys[..i] + [keys[i]];
    RemoveKeysSnoc(d, keys[..i], keys[i]);
  }

  // ---------------------------------------------------------------------
  // Energy output
  // ---------------------------------------------------------------------

  /** float(line.split()[1]) */
  function LineValue(line: string, py: Runtime): Result<real> {
    var t := SplitWs(line);
    if |t| < 2 then Err(IndexError)
    else match py.parseFloat(t[1])
      case None => Err(ValueError(t[1]))
      case Some(x) => Ok(x)
  }

  /**
    The loop of _get_energy_sz_from_hphi over the lines of zvo_energy.dat:
    a line mentioning "Energy" adds to the energies, otherwise a line
    mentioning "Sz" adds to the Sz values, and other lines are skipped.
   */
  function EnergySz(lines: seq<string>, py: Runtime): Result<(seq<real>, seq<real>)> {
    if lines == [] then Ok(([], []))
    else match EnergySz(lines[..|lines| - 1], py)
      case Err(e) => Err(e)
      case Ok(acc) =>
        var line := lines[|lines| - 1];
        if HasSubstring(line, "Energy") then
          match LineValue(line, py)
          case Err(e) => Err(e)
          case Ok(x) => Ok((acc.0 + [x], acc.1))
        else if HasSubstring(line, "Sz") then
          match LineValue(line, py)
          case Err(e) => Err(e)
          case Ok(x) => Ok((acc.0, acc.1 + [x]))
        else Ok(acc)
  }

  /** The loop of the Spin class's _get_energy_from_hphi: only the "Energy" lines. */
  function Energies(lines: seq<string>, py: Runtime): Result<seq<real>> {
    if lines == [] then Ok([])
    else match Energies(lines[..|lines| - 1], py)
      case Err(e) => Err(e)
      case Ok(es) =>
        var line := lines[|lines| - 1];
        if HasSubstring(line, "Energy") then
          match LineValue(line, py)
          case Err(e) => Err(e)
          case Ok(x) => Ok(es + [x])
        else Ok(es)
  }

  /** The number of lines mentioning `word`. */
  function CountWith(lines: seq<string>, word: string): nat {
    if lines == [] then 0
    else CountWith(lines[..|lines| - 1], word) + if HasSubstring(lines[|lines| - 1], word) then 1 else 0
  }

  /**
    Both parsers read the same energies, one per "Energy" line, and the Sz
    values come from the remaining lines that mention "Sz".
   */
  lemma {:induction false} EnergyParsersAgree(lines: seq<string>, py: Runtime)
    requires EnergySz(lines, py).Ok?
    ensures Energies(lines, py) == Ok(EnergySz(lines, py).value.0)
    ensures |EnergySz(lines, py).value.0| == CountWith(lines, "Energy")
    ensures |EnergySz(lines, py).value.0| + |EnergySz(lines, py).value.1| <= |lines|
  {
    if lines != [] {
      EnergyParsersAgree(lines[..|lines| - 1], py);
    }
  }

  lemma {:induction false} EnergySzErr(lines: seq<string>, i: nat, py: Runtime)
    requires i < |lines| && EnergySz(lines[..i + 1], py).Err?
    ensures EnergySz(lines, py) == EnergySz(lines[..i + 1], py)
    decreases |lines|
  {
    if |lines| > i + 1 {
      var init := lines[..|lines| - 1];
      assert init[..i + 1] == lines[..i + 1];
      EnergySzErr(init, i, py);
    } else {
      assert lines[..i + 1] == lines;
    }
  }

  lemma {:induction false} EnergiesErr(lines: seq<string>, i: nat, py: Runtime)
    requires i < |lines| && Energies(lines[..i + 1], py).Err?
    ensures Energies(lines, py) == Energies(lines[..i + 1], py)
    decreases |lines|
  {
    if |lines| > i + 1 {
      var init := lines[..|lines| - 1];
      assert init[..i + 1] == lines[..i + 1];
      EnergiesErr(init, i, py);
    } else {
      assert lines[..i + 1] == lines;
    }
  }

  // ---------------------------------------------------------------------
  // The Sz scan of get_energy_by_hphi
  // ---------------------------------------------------------------------

  /** L // 2 + 1, the length of the Sz range; range() refuses a float and L must be present. */
  function Sectors(d: Dict<Value>): Result<int> {
    match Get(d, "L")
    case None => Err(KeyError("L"))
    case Some(v) =>
      if v.VInt? then Ok(v.i / 2 + 1)
      else if v.VBool? then Ok(1)
      else Err(TypeError("L"))
  }

  /** input_param with 2Sz set for sector `sz`. */
  function WithSz(d: Dict<Value>, sz: int): Dict<Value> {
    Set(d, "2Sz", VInt(2 * sz))
  }

  /**
    energy[0] of one run: HPhi is run on the input text of `p` and leaves
    the lines of zvo_energy.dat (`out` gives None when it leaves no file,
    and then the energy list is empty).
   */
  function RunEnergy(p: Dict<Value>, out: string -> Option<seq<string>>, py: Runtime): Result<real> {
    match out(InputText(p, py))
    case None => Err(IndexError)
    case Some(lines) =>
      match Energies(lines, py)
      case Err(e) => Err(e)
      case Ok(es) => if es == [] then Err(IndexError) else Ok(es[0])
  }

  /** Setting 2Sz again overrides the previous sector in place. */
  lemma WithSzTwice(d: Dict<Value>, a: int, b: int)
    ensures WithSz(WithSz(d, a), b) == WithSz(d, b)
  {
    SetTwice(d, "2Sz", VInt(2 * a), VInt(2 * b));
  }

  /** The outcome of each run of the scan over sectors 0 .. n-1, were each one reached. */
  function SectorRuns(d: Dict<Value>, n: nat, out: string -> Option<seq<string>>, py: Runtime): (rs: seq<Result<real>>)
    ensures |rs| == n
  {
    seq(n, j requires 0 <= j < n => RunEnergy(WithSz(d, j), out, py))
  }

  /** The (sz, energy) list the loop builds from the runs' outcomes; the first failing run stops it. */
  function Scan(rs: seq<Result<real>>): Result<seq<(int, real)>> {
    if rs == [] then Ok([])
    else match Scan(rs[..|rs| - 1])
      case Err(e) => Err(e)
      case Ok(ps) =>
        match rs[|rs| - 1]
        case Err(e) => Err(e)
        case Ok(x) => Ok(ps + [(|rs| - 1, x)])
  }

  /** input_param when the scan stops: 2Sz holds the last sector reached. */
  function ParamAfterScan(d: Dict<Value>, rs: seq<Result<real>>): Dict<Value> {
    if rs == [] then d
    else if Scan(rs[..|rs| - 1]).Err? then ParamAfterScan(d, rs[..|rs| - 1])
    else WithSz(d, |rs| - 1)
  }

  /**
    A completed scan lists the sectors 0, 1, ..., n-1 in order, each with
    the first energy of its own run; it fails iff some run yields no
    readable energy.
   */
  lemma {:induction false} ScanFacts(rs: seq<Result<real>>)
    ensures Scan(rs).Ok? <==> forall j :: 0 <= j < |rs| ==> rs[j].Ok?
    ensures Scan(rs).Ok? ==> var ps := Scan(rs).value;
      |ps| == |rs| && forall j :: 0 <= j < |rs| ==> ps[j] == (j, rs[j].value)
  {
    if rs != [] {
      var init := rs[..|rs| - 1];
      ScanFacts(init);
      assert forall j :: 0 <= j < |init| ==> init[j] == rs[j];
    }
  }

  /** After a completed scan, 2Sz is 2 * (n - 1) and every other entry is as before. */
  lemma ScanLeavesSz(d: Dict<Value>, rs: seq<Result<real>>, k: string)
    requires UniqueKeys(d) && rs != [] && Scan(rs).Ok?
    ensures Get(ParamAfterScan(d, rs), "2Sz") == Some(VInt(2 * (|rs| - 1)))
    ensures k != "2Sz" ==> Get(ParamAfterScan(d, rs), k) == Get(d, k)
  {
    assert Scan(rs[..|rs| - 1]).Ok?;
    SetFacts(d, "2Sz", VInt(2 * (|rs| - 1)));
  }

  /** One more run extends the scan by its energy, or stops it with that run's error. */
  lemma ScanStep(d: Dict<Value>, rs: seq<Result<real>>, i: nat)
    requires i < |rs| && Scan(rs[..i]).Ok?
    ensures Scan(rs[..i + 1]) == if rs[i].Ok? then Ok(Scan(rs[..i]).value + [(i, rs[i].value)]) else Err(rs[i].error)
    ensures ParamAfterScan(d, rs[..i + 1]) == WithSz(d, i)
  {
    assert rs[..i + 1][..i] == rs[..i];
  }

  /** One pass of the get_energy_by_hphi loop, given the outcome `e` of the run for sector `sz`. */
  lemma SectorStep(d: Dict<Value>, m: nat, out: string -> Option<seq<string>>, py: Runtime,
                   sz: nat, energies: seq<(int, real)>, e: Result<real>)
    requires sz < m && e == RunEnergy(WithSz(d, sz), out, py)
    requires Scan(SectorRuns(d, m, out, py)[..sz]) == Ok(energies)
    ensures e.Ok? ==> Scan(SectorRuns(d, m, out, py)[..sz + 1]) == Ok(energies + [(sz, e.value)])
    ensures e.Err? ==> Scan(SectorRuns(d, m, out, py)) == Err(e.error)
    ensures e.Err? ==> ParamAfterScan(d, SectorRuns(d, m, out, py)) == WithSz(d, sz)
  {
    var rs := SectorRuns(d, m, out, py);
    assert rs[sz] == e;
    ScanStep(d, rs, sz);
    if e.Err? {
      ScanErrStays(d, rs, sz);
    }
  }

  /** Once a run fails, the whole scan fails the same way and input_param stays where it stopped. */
  lemma {:induction false} ScanErrStays(d: Dict<Value>, rs: seq<Result<real>>, k: nat)
    requires k < |rs| && Scan(rs[..k + 1]).Err? && Scan(rs[..k]).Ok?
    ensures Scan(rs) == Scan(rs[..k + 1])
    ensures ParamAfterScan(d, rs) == WithSz(d, k)
    decreases |rs|
  {
    if |rs| > k + 1 {
      var init := rs[..|rs| - 1];
      assert init[..k + 1] == rs[..k + 1] && init[..k] == rs[..k];
      ScanErrStays(d, init, k);
    } else {
      assert rs[..k + 1] == rs;
      assert rs[..|rs| - 1] == rs[..k];
    }
  }

  // ---------------------------------------------------------------------
  // get_mag and _modify_mag
  // ---------------------------------------------------------------------

  /** energy - Sz * H for each (Sz, energy) pair. */
  function EnergyMag(szEnergy: seq<(int, real)>, h: real): (em: seq<real>)
    ensures |em| == |szEnergy|
  {
    seq(|szEnergy|, i requires 0 <= i < |szEnergy| => szEnergy[i].1 - szEnergy[i].0 as real * h)
  }

  /** `k` is where list.index(min(list)) lands: a minimum with no equal value before it. */
  predicate IsFirstMin(xs: seq<real>, k: nat) {
    k < |xs| && (forall j :: 0 <= j < |xs| ==> xs[k] <= xs[j]) && (forall j :: 0 <= j < k ==> xs[j] > xs[k])
  }

  function FirstMin(xs: seq<real>): (k: nat)
    requires xs != []
    ensures IsFirstMin(xs, k)
  {
    if |xs| == 1 then 0
    else
      var k := FirstMin(xs[..|xs| - 1]);
      if xs[|xs| - 1] < xs[k] then |xs| - 1 else k
  }

  /** Only one position is a first minimum. */
  lemma FirstMinUnique(xs: seq<real>, k: nat)
    requires IsFirstMin(xs, k)
    ensures k == FirstMin(xs)
  {
    var m := FirstMin(xs);
    assert xs[m] <= xs[k] && xs[k] <= xs[m];
  }

  /** energy_mag.index(min(energy_mag)): a pass for the minimum, then a pass for its first position. */
  method IndexOfMin(xs: seq<real>) returns (k: nat)
    requires xs != []
    ensures k == FirstMin(xs)
  {
    var least := xs[0];
    var i := 1;
    while i < |xs|
      invariant 1 <= i <= |xs|
      invariant least in xs[..i]
      invariant forall j :: 0 <= j < i ==> least <= xs[j]
    {
      if xs[i] < least {
        least := xs[i];
      }
      i := i + 1;
    }
    k := 0;
    while xs[k] != least
      invariant 0 <= k < |xs|
      invariant least in xs[k..]
      invariant forall j :: 0 <= j < k ==> xs[j] != least
      decreases |xs| - k
    {
      assert xs[k..] == [xs[k]] + xs[k + 1..];
      k := k + 1;
    }
    assert IsFirstMin(xs, k);
    FirstMinUnique(xs, k);
  }

  /** Scanning sectors 0..n-1, get_mag picks one of those sectors. */
  lemma GetMagOfScan(ps: seq<(int, real)>, h: real)
    requires ps != [] && forall j :: 0 <= j < |ps| ==> ps[j].0 == j
    ensures 0 <= ps[FirstMin(EnergyMag(ps, h))].0 < |ps|
  {
  }

  /** np.isclose(a, b) with its default tolerances: |a - b| <= 1e-8 + 1e-5 |b|. */
  predicate IsClose(a: real, b: real) {
    var diff := if a >= b then a - b else b - a;
    var mag := if b >= 0.0 then b else -b;
    diff <= 0.00000001 + 0.00001 * mag
  }

  /** np.isclose weighs the tolerance by its second argument, so it is not symmetric. */
  lemma IsCloseAsymmetric()
    ensures IsClose(0.0, 0.00000001000005) && !IsClose(0.00000001000005, 0.0)
  {
  }

  /**
    _modify_mag(h, data) for the first two states' (energy, magnetisation)
    pairs: when their energies are close the result is 0 at zero field and
    otherwise their mean, else the ground state's magnetisation.  The
    result never leaves the range the two magnetisations span, except for
    the zero-field zero.
   */
  function ModifyMag(h: real, data: seq<(real, real)>): (r: Result<real>)
    ensures r.Err? <==> |data| < 2
    ensures r.Ok? && r.value != 0.0 ==>
      (data[0].1 <= r.value <= data[1].1) || (data[1].1 <= r.value <= data[0].1)
    ensures r.Ok? && !IsClose(data[0].0, data[1].0) ==> r.value == data[0].1
    ensures r.Ok? && IsClose(data[0].0, data[1].0) ==>
      r.value == if h == 0.0 then 0.0 else 0.5 * (data[0].1 + data[1].1)
    ensures r.Ok? && h != 0.0 && data[0].1 == data[1].1 ==> r.value == data[0].1
  {
    if |data| < 1 then Err(KeyError("0"))
    else if |data| < 2 then Err(KeyError("1"))
    else if IsClose(data[0].0, data[1].0) then
      Ok(if h == 0.0 then 0.0 else 0.5 * (data[0].1 + data[1].1))
    else Ok(data[0].1)
  }

  // ---------------------------------------------------------------------
  // The HPhi object
  // ---------------------------------------------------------------------

  class HPhi {
    var inputParam: Dict<Value>
    var energyList: seq<(int, real)>
    const pathHPhi: string
    const inputPath: string

    /** hphi_io_spingc(_hphi_cond) */
    constructor SpinGC(pathHPhi: string, inputPath: string)
      ensures inputParam == SpinGCDefaults && energyList == []
      ensures this.pathHPhi == pathHPhi && this.inputPath == inputPath
    {
      this.pathHPhi := pathHPhi;
      this.inputPath := inputPath;
      inputParam := SpinGCDefaults;
      energyList := [];
    }

    /** hphi_io_spin(_hphi_cond) */
    constructor Spin(pathHPhi: string, inputPath: string)
      ensures inputParam == SpinDefaults && energyList == []
      ensures this.pathHPhi == pathHPhi && this.inputPath == inputPath
    {
      this.pathHPhi := pathHPhi;
      this.inputPath := inputPath;
      inputParam := SpinDefaults;
      energyList := [];
    }

    /** _change_input: assign every entry of `inputDict`, in its order. */
    method ChangeInput(inputDict: Dict<Value>)
      modifies this
      ensures inputParam == Update(old(inputParam), inputDict)
      ensures energyList == old(energyList)
    {
      var i := 0;
      while i < |inputDict|
        invariant 0 <= i <= |inputDict|
        invariant Update(inputParam, inputDict[i..]) == Update(old(inputParam), inputDict)
        invariant energyList == old(energyList)
      {
        assert inputDict[i..][1..] == inputDict[i + 1..];
        inputParam := Set(inputParam, inputDict[i].0, inputDict[i].1);
        i := i + 1;
      }
    }

    /** delete_input: remove the listed keys that are present; return the ones reported as absent. */
    method DeleteInput(keys: seq<string>) returns (absent: seq<string>)
      modifies this
      ensures inputParam == RemoveKeys(old(inputParam), keys)
      ensures absent == Absent(old(inputParam), keys)
      ensures energyList == old(energyList)
    {
      absent := [];
      ghost var d := inputParam;
      var i := 0;
      while i < |keys|
        invariant 0 <= i <= |keys|
        invariant inputParam == RemoveKeys(d, keys[..i])
        invariant absent == Absent(d, keys[..i])
        invariant energyList == old(energyList)
      {
        DeleteStep(d, keys, i);
        absent := absent + if Find(inputParam, keys[i]).Some? then [] else [keys[i]];
        inputParam := Remove(inputParam, keys[i]);
        i := i + 1;
      }
      assert keys[..i] == keys;
    }

    /** _make_input_file: the text written to the input file. */
    method MakeInputFile(py: Runtime) returns (text: string)
      ensures text == InputText(inputParam, py)
    {
      text := "";
      var i := 0;
      while i < |inputParam|
        invariant 0 <= i <= |inputParam|
        invariant text == InputText(inputParam[..i], py)
      {
        assert inputParam[..i + 1][..i] == inputParam[..i];
        text := text + InputLine(inputParam[i].0, inputParam[i].1, py) + "\n";
        i := i + 1;
      }
      assert inputParam[..i] == inputParam;
    }

    /** make_input_file(input_dict): update, then write. */
    method MakeInput(inputDict: Dict<Value>, py: Runtime) returns (text: string)
      modifies this
      ensures inputParam == Update(old(inputParam), inputDict)
      ensures energyList == old(energyList)
      ensures text == InputText(inputParam, py)
    {
      ChangeInput(inputDict);
      text := MakeInputFile(py);
    }

    /**
      _get_energy_sz_from_hphi on zvo_energy.dat (None when the file is
      missing, which the method reports with None).
     */
    method GetEnergySzFromHPhi(file: Option<seq<string>>, py: Runtime) returns (r: Result<Option<(seq<real>, seq<real>)>>)
      ensures file.None? ==> r == Ok(None)
      ensures file.Some? ==> match EnergySz(file.value, py)
        case Err(e) => r == Err(e)
        case Ok(v) => r == Ok(Some(v))
    {
      if file.None? {
        return Ok(None);
      }
      var lines := file.value;
      var energy: seq<real> := [];
      var sz: seq<real> := [];
      var i := 0;
      while i < |lines|
        invariant 0 <= i <= |lines|
        invariant EnergySz(lines[..i], py) == Ok((energy, sz))
      {
        assert lines[..i + 1][..i] == lines[..i];
        var line := lines[i];
        if HasSubstring(line, "Energy") || HasSubstring(line, "Sz") {
          var x := LineValue(line, py);
          if x.Err? {
            EnergySzErr(lines, i, py);
            assert lines[..i + 1] == lines[..i] + [line];
            return Err(x.error);
          }
          if HasSubstring(line, "Energy") {
            energy := energy + [x.value];
          } else {
            sz := sz + [x.value];
          }
        }
        i := i + 1;
      }
      assert lines[..i] == lines;
      r := Ok(Some((energy, sz)));
    }

    /** _get_energy_from_hphi of the Spin class: the energies, or none when the file is missing. */
    method GetEnergyFromHPhi(file: Option<seq<string>>, py: Runtime) returns (r: Result<seq<real>>)
      ensures file.None? ==> r == Ok([])
      ensures file.Some? ==> r == Energies(file.value, py)
    {
      if file.None? {
        return Ok([]);
      }
      var lines := file.value;
      var energy: seq<real> := [];
      var i := 0;
      while i < |lines|
        invariant 0 <= i <= |lines|
        invariant Energies(lines[..i], py) == Ok(energy)
      {
        assert lines[..i + 1][..i] == lines[..i];
        if HasSubstring(lines[i], "Energy") {
          var x := LineValue(lines[i], py);
          if x.Err? {
            EnergiesErr(lines, i, py);
            return Err(x.error);
          }
          energy := energy + [x.value];
        }
        i := i + 1;
      }
      assert lines[..i] == lines;
      r := Ok(energy);
    }

    /**
      get_mag(sz_energy_list, H): the Sz of the first pair that minimises
      energy - Sz * H; min() of an empty list raises ValueError.
     */
    method GetMag(szEnergy: seq<(int, real)>, h: real) returns (r: Result<int>)
      ensures szEnergy == [] ==> r.Err?
      ensures szEnergy != [] ==> r == Ok(szEnergy[FirstMin(EnergyMag(szEnergy, h))].0)
    {
      var energyMag: seq<real> := [];
      var i := 0;
      while i < |szEnergy|
        invariant 0 <= i <= |szEnergy|
        invariant |energyMag| == i
        invariant forall j :: 0 <= j < i ==> energyMag[j] == szEnergy[j].1 - szEnergy[j].0 as real * h
      {
        energyMag := energyMag + [szEnergy[i].1 - szEnergy[i].0 as real * h];
        i := i + 1;
      }
      ghost var em := EnergyMag(szEnergy, h);
      assert forall j :: 0 <= j < |em| ==> em[j] == energyMag[j];
      assert energyMag == em;
      if energyMag == [] {
        return Err(ValueError("min() arg is an empty sequence"));
      }
      var k := IndexOfMin(energyMag);
      r := Ok(szEnergy[k].0);
    }

    /** One pass of the Sz loop: set 2Sz, write the input, run HPhi, take the first energy. */
    method RunSector(sz: int, out: string -> Option<seq<string>>, py: Runtime) returns (r: Result<real>)
      modifies this
      ensures inputParam == WithSz(old(inputParam), sz)
      ensures energyList == old(energyList)
      ensures r == RunEnergy(inputParam, out, py)
    {
      inputParam := Set(inputParam, "2Sz", VInt(2 * sz));
      var text := MakeInputFile(py);
      var energy := GetEnergyFromHPhi(out(text), py);
      if energy.Err? {
        return Err(energy.error);
      }
      if energy.value == [] {
        return Err(IndexError);
      }
      r := Ok(energy.value[0]);
    }

    /**
      get_energy_by_hphi(input_dict): update the input, then run HPhi once
      per sector sz = 0 .. L // 2 with 2Sz = 2 sz and collect (sz, first
      energy); the list is also kept in energy_list.
     */
    method GetEnergyByHPhi(inputDict: Dict<Value>, out: string -> Option<seq<string>>, py: Runtime)
      returns (r: Result<seq<(int, real)>>)
      modifies this
      ensures var d := Update(old(inputParam), inputDict);
        match Sectors(d)
        case Err(e) => r == Err(e) && inputParam == d && energyList == old(energyList)
        case Ok(n) =>
          var rs := SectorRuns(d, if n < 0 then 0 else n, out, py);
          r == Scan(rs) && inputParam == ParamAfterScan(d, rs) &&
          energyList == if r.Ok? then r.value else old(energyList)
    {
      ChangeInput(inputDict);
      ghost var d := inputParam;
      var sectors := Sectors(inputParam);
      if sectors.Err? {
        return Err(sectors.error);
      }
      var m := if sectors.value < 0 then 0 else sectors.value;
      ghost var rs := SectorRuns(d, m, out, py);
      var energies: seq<(int, real)> := [];
      var sz := 0;
      while sz < m
        invariant 0 <= sz <= m
        invariant Scan(rs[..sz]) == Ok(energies)
        invariant energyList == old(energyList)
        invariant sz == 0 ==> inputParam == d
        invariant sz > 0 ==> inputParam == WithSz(d, sz - 1)
      {
        if sz > 0 {
          WithSzTwice(d, sz - 1, sz);
        }
        var e := RunSector(sz, out, py);
        SectorStep(d, m, out, py, sz, energies, e);
        if e.Err? {
          return Err(e.error);
        }
        energies := energies + [(sz, e.value)];
        sz := sz + 1;
      }
      assert rs[..sz] == rs;
      if m > 0 {
        assert Scan(rs[..m - 1]).Ok?;
      }
      energyList := energies;
      r := Ok(energies);
    }
  }
}
