/**
  Magnetisation extraction after an HPhi run (solver/Aft_mag.py): `main`
  takes it from the energy file, `kitaev` sums it from the one-body Green's
  function.  Both produce the one-line text of resul_mag.dat.
 */
module AftMag {
  import opened Wrappers
  import opened Text
  import opened Values
  import opened OrderedDict

  /** The content of resul_mag.dat: a space, the value with 16 decimals, a space, a newline. */
  function ResultText(tot: real, py: Runtime): string {
    " " + py.fmt16f(tot) + " \n"
  }

  /** resul_mag.dat holds exactly one line. */
  lemma ResultTextOneLine(tot: real, py: Runtime)
    requires '\n' !in py.fmt16f(tot)
    ensures Split(ResultText(tot, py), '\n') == [" " + py.fmt16f(tot) + " ", ""]
  {
    var l := " " + py.fmt16f(tot) + " ";
    assert Unlines([l]) == ResultText(tot, py);
    SplitUnlines([l]);
  }

  // ---------------------------------------------------------------------
  // main: magnetisation per spin from the energy file
  // ---------------------------------------------------------------------

  /** tot_mag of main: minus token 1 of line 3 of zvo_energy.dat, divided by the spin count. */
  function TotMag(energyText: string, nspin: int, py: Runtime): (r: Result<real>)
    ensures var data := Split(energyText, '\n');
      && (r.Ok? <==> |data| >= 4 && |SplitWs(data[3])| >= 2 && py.parseFloat(SplitWs(data[3])[1]).Some? && nspin != 0)
      && (r.Ok? ==> r.value * nspin as real == -py.parseFloat(SplitWs(data[3])[1]).value)
      && (|data| < 4 || (|data| >= 4 && |SplitWs(data[3])| < 2) ==> r == Err(IndexError))
      && (|data| >= 4 && |SplitWs(data[3])| >= 2 && py.parseFloat(SplitWs(data[3])[1]).None? ==>
            r == Err(ValueError(SplitWs(data[3])[1])))
      && (|data| >= 4 && |SplitWs(data[3])| >= 2 && py.parseFloat(SplitWs(data[3])[1]).Some? && nspin == 0 ==>
            r == Err(ZeroDivision))
  {
    var data := Split(energyText, '\n');
    if |data| < 4 then Err(IndexError)
    else
      var t := SplitWs(data[3]);
      if |t| < 2 then Err(IndexError)
      else match py.parseFloat(t[1])
        case None => Err(ValueError(t[1]))
        case Some(x) => if nspin == 0 then Err(ZeroDivision) else Ok(-x / nspin as real)
  }

  /** main(Nspin): the text it writes to resul_mag.dat. */
  function MagFile(energyText: string, nspin: int, py: Runtime): (r: Result<string>)
    ensures r.Ok? <==> TotMag(energyText, nspin, py).Ok?
    ensures r.Err? ==> r.error == TotMag(energyText, nspin, py).error
    ensures r.Ok? ==> var n := |r.value|;
      && n >= 3 && r.value[0] == ' ' && r.value[n - 2..] == " \n"
      && r.value[1..n - 2] == py.fmt16f(TotMag(energyText, nspin, py).value)
  {
    match TotMag(energyText, nspin, py)
    case Err(e) => Err(e)
    case Ok(tot) => Ok(ResultText(tot, py))
  }

  /** For an energy file of whole lines, the value comes from token 1 of its fourth line. */
  lemma TotMagOfLines(ls: seq<string>, nspin: int, py: Runtime, x: real)
    requires NoNewlines(ls) && |ls| >= 4
    requires |SplitWs(ls[3])| >= 2 && py.parseFloat(SplitWs(ls[3])[1]) == Some(x)
    requires nspin != 0
    ensures TotMag(Unlines(ls), nspin, py).Ok?
    ensures TotMag(Unlines(ls), nspin, py).value * nspin as real == -x
  {
    SplitUnlines(ls);
    var data := ls + [""];
    assert data[3] == ls[3];
    TotMagValue(Unlines(ls), data, nspin, py, x);
  }

  lemma TotMagValue(text: string, data: seq<string>, nspin: int, py: Runtime, x: real)
    requires Split(text, '\n') == data && |data| >= 4 && nspin != 0
    requires var t := SplitWs(data[3]); |t| >= 2 && py.parseFloat(t[1]) == Some(x)
    ensures TotMag(text, nspin, py) == Ok(-x / nspin as real)
    ensures TotMag(text, nspin, py).value * nspin as real == -x
  {
    DivTimes(-x, nspin as real);
  }

  lemma DivTimes(a: real, b: real)
    requires b != 0.0
    ensures (a / b) * b == a
  {
  }

  // ---------------------------------------------------------------------
  // kitaev: magnetisation from the one-body Green's function
  // ---------------------------------------------------------------------

  datatype Spin = Spin(x: real, y: real, z: real)

  const Zero := Spin(0.0, 0.0, 0.0)

  function Add(a: Spin, b: Spin): Spin {
    Spin(a.x + b.x, a.y + b.y, a.z + b.z)
  }

  /** float(tmp[k]) */
  function Token(t: seq<string>, k: nat, py: Runtime): Result<real> {
    if k >= |t| then Err(IndexError)
    else match py.parseFloat(t[k])
      case None => Err(ValueError(t[k]))
      case Some(v) => Ok(v)
  }

  /**
    What one line of zvo_cisajs_eigen0.dat adds to (Sx, Sy, Sz): only
    non-empty lines of site 0 on both ends count; the spin pair (0,1) adds
    to Sx and Sy, (1,0) adds to Sx and subtracts from Sy, (0,0) adds to Sz
    and (1,1) subtracts from Sz.
   */
  function Contribution(line: string, py: Runtime): Result<Spin> {
    if line == [] then Ok(Zero)
    else
      var t := SplitWs(line);
      if |t| < 3 then Err(IndexError)
      else if !(t[0] == t[2] && t[0] == "0") then Ok(Zero)
      else if t[1] != "0" && t[1] != "1" then Ok(Zero)
      else if |t| < 4 then Err(IndexError)
      else if t[3] != "0" && t[3] != "1" then Ok(Zero)
      else match Token(t, 4, py)
        case Err(e) => Err(e)
        case Ok(re) =>
          if t[1] != t[3] then
            match Token(t, 5, py)
            case Err(e) => Err(e)
            case Ok(im) => Ok(if t[1] == "0" then Spin(re, im, 0.0) else Spin(re, -im, 0.0))
          else Ok(if t[1] == "0" then Spin(0.0, 0.0, re) else Spin(0.0, 0.0, -re))
  }

  /** The accumulation loop of kitaev, over the lines in file order. */
  function SpinSums(lines: seq<string>, py: Runtime): Result<Spin> {
    if lines == [] then Ok(Zero)
    else match SpinSums(lines[..|lines| - 1], py)
      case Err(e) => Err(e)
      case Ok(s) =>
        match Contribution(lines[|lines| - 1], py)
        case Err(e) => Err(e)
        case Ok(c) => Ok(Add(s, c))
  }

  /** Two lines accumulate as the sum of their contributions. */
  lemma SpinSumsPair(l1: string, l2: string, py: Runtime)
    requires Contribution(l1, py).Ok? && Contribution(l2, py).Ok?
    ensures SpinSums([l1, l2], py) == Ok(Add(Add(Zero, Contribution(l1, py).value), Contribution(l2, py).value))
  {
    var c1, c2 := Contribution(l1, py).value, Contribution(l2, py).value;
    var one := [l1];
    assert one[..0] == [] && one[0] == l1;
    assert SpinSums(one, py) == Ok(Add(Zero, c1));
    var p := [l1, l2];
    assert p[|p| - 1] == l2 && p[..|p| - 1] == one;
  }

  /** A Hermitian pair (0,1)/(1,0) with equal entries cancels in Sy and doubles Sx. */
  lemma HermitianPairXY(l01: string, l10: string, a: string, b: string, py: Runtime)
    requires py.parseFloat(a).Some? && py.parseFloat(b).Some?
    requires SplitWs(l01) == ["0", "0", "0", "1", a, b] && SplitWs(l10) == ["0", "1", "0", "0", a, b]
    ensures SpinSums([l01, l10], py) == Ok(Spin(2.0 * py.parseFloat(a).value, 0.0, 0.0))
  {
    OffDiagonalContribution(l01, "0", "1", a, b, py);
    OffDiagonalContribution(l10, "1", "0", a, b, py);
    ConjugatePairSum(l01, l10, py.parseFloat(a).value, py.parseFloat(b).value, py);
  }

  lemma ConjugatePairSum(l1: string, l2: string, x: real, y: real, py: Runtime)
    requires Contribution(l1, py) == Ok(Spin(x, y, 0.0)) && Contribution(l2, py) == Ok(Spin(x, -y, 0.0))
    ensures SpinSums([l1, l2], py) == Ok(Spin(2.0 * x, 0.0, 0.0))
  {
    SpinSumsPair(l1, l2, py);
  }

  /** A (0,1) line adds (re, im, 0), a (1,0) line (re, -im, 0). */
  lemma OffDiagonalContribution(l: string, s1: string, s2: string, a: string, b: string, py: Runtime)
    requires py.parseFloat(a).Some? && py.parseFloat(b).Some?
    requires (s1, s2) == ("0", "1") || (s1, s2) == ("1", "0")
    requires SplitWs(l) == ["0", s1, "0", s2, a, b]
    ensures var x, y := py.parseFloat(a).value, py.parseFloat(b).value;
      Contribution(l, py) == Ok(if s1 == "0" then Spin(x, y, 0.0) else Spin(x, -y, 0.0))
  {
    assert l != [];
  }

  /** A (0,0) line adds (0, 0, re), a (1,1) line (0, 0, -re). */
  lemma DiagonalContribution(l: string, s: string, a: string, py: Runtime)
    requires py.parseFloat(a).Some?
    requires s == "0" || s == "1"
    requires SplitWs(l) == ["0", s, "0", s, a]
    ensures var x := py.parseFloat(a).value;
      Contribution(l, py) == Ok(if s == "0" then Spin(0.0, 0.0, x) else Spin(0.0, 0.0, -x))
  {
    assert l != [];
  }

  /** A pair (0,0)/(1,1) with equal entries cancels in Sz. */
  lemma HermitianPairZ(l00: string, l11: string, a: string, py: Runtime)
    requires py.parseFloat(a).Some?
    requires SplitWs(l00) == ["0", "0", "0", "0", a] && SplitWs(l11) == ["0", "1", "0", "1", a]
    ensures SpinSums([l00, l11], py) == Ok(Zero)
  {
    DiagonalContribution(l00, "0", a, py);
    DiagonalContribution(l11, "1", a, py);
    SpinSumsPair(l00, l11, py);
  }

  /** input_dict["mag"][name] */
  function Coupling(inputDict: Dict<Value>, name: string): Result<real> {
    match Get(inputDict, "mag")
    case None => Err(KeyError("mag"))
    case Some(m) =>
      if !m.VTable? then Err(TypeError("mag"))
      else match Get(m.entries, name)
        case None => Err(KeyError(name))
        case Some(v) => if NumberOf(v).None? then Err(TypeError(name)) else Ok(NumberOf(v).value)
  }

  /** The radicand of tot_mag: (gab Sx)² + (gab Sy)² + (gc Sz)², never negative. */
  function SquaredMagnitude(gab: real, gc: real, s: Spin): (m: real)
    ensures m >= 0.0
  {
    var ax, ay, az := gab * s.x, gab * s.y, gc * s.z;
    assert ax * ax >= 0.0 && ay * ay >= 0.0 && az * az >= 0.0;
    ax * ax + ay * ay + az * az
  }

  /** kitaev(input_dict): the text it writes to resul_mag.dat. */
  function KitaevResult(inputDict: Dict<Value>, cisajsText: string, py: Runtime): Result<string> {
    match Coupling(inputDict, "gab")
    case Err(e) => Err(e)
    case Ok(gab) =>
      match Coupling(inputDict, "gc")
      case Err(e) => Err(e)
      case Ok(gc) =>
        match SpinSums(Split(cisajsText, '\n'), py)
        case Err(e) => Err(e)
        case Ok(s) => Ok(Finish(gab, gc, s, py))
  }

  /** Halve the sums, take the magnitude with the couplings, and format it. */
  function Finish(gab: real, gc: real, s: Spin, py: Runtime): string {
    var half := Spin(0.5 * s.x, 0.5 * s.y, 0.5 * s.z);
    ResultText(py.sqrt(SquaredMagnitude(gab, gc, half)), py)
  }

  /** A failing line stops the accumulation with its own error. */
  lemma {:induction false} SpinSumsErr(lines: seq<string>, i: nat, py: Runtime)
    requires i < |lines| && SpinSums(lines[..i], py).Ok? && Contribution(lines[i], py).Err?
    ensures SpinSums(lines, py) == Err(Contribution(lines[i], py).error)
    decreases |lines|
  {
    if |lines| > i + 1 {
      var init := lines[..|lines| - 1];
      assert init[..i] == lines[..i] && init[i] == lines[i];
      SpinSumsErr(init, i, py);
    } else {
      assert lines[..|lines| - 1] == lines[..i];
    }
  }

  /** The accumulation loop of kitaev. */
  method AccumulateSpin(lines: seq<string>, py: Runtime) returns (r: Result<Spin>)
    ensures r == SpinSums(lines, py)
  {
    var sx, sy, sz := 0.0, 0.0, 0.0;
    var i := 0;
    while i < |lines|
      invariant 0 <= i <= |lines|
      invariant SpinSums(lines[..i], py) == Ok(Spin(sx, sy, sz))
    {
      assert lines[..i + 1][..i] == lines[..i];
      var c := Contribution(lines[i], py);
      if c.Err? {
        SpinSumsErr(lines, i, py);
        return Err(c.error);
      }
      assert SpinSums(lines[..i + 1], py) == Ok(Add(Spin(sx, sy, sz), c.value));
      sx, sy, sz := sx + c.value.x, sy + c.value.y, sz + c.value.z;
      i := i + 1;
    }
    assert lines[..i] == lines;
    r := Ok(Spin(sx, sy, sz));
  }

  /** kitaev(input_dict): couplings, accumulation, halving, magnitude, result text. */
  method Kitaev(inputDict: Dict<Value>, cisajsText: string, py: Runtime) returns (r: Result<string>)
    ensures r == KitaevResult(inputDict, cisajsText, py)
  {
    var gab := Coupling(inputDict, "gab");
    if gab.Err? { return Err(gab.error); }
    var gc := Coupling(inputDict, "gc");
    if gc.Err? { return Err(gc.error); }
    var sums := AccumulateSpin(Split(cisajsText, '\n'), py);
    if sums.Err? { return Err(sums.error); }
    r := Ok(Finish(gab.value, gc.value, sums.value, py));
  }
}
