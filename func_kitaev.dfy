/**
  The Kitaev-model helpers (solver/func_kitaev.py): the expansion of eight
  parameters into the 63 exchange couplings of the three bonds, the
  rewriting of stan.in that installs them, reading H back from an input
  file, the site count of locspn.def, and the layout of trans.def.
 */
module FuncKitaev {
  import opened Wrappers
  import opened Text
  import opened Values
  import opened OrderedDict

  // ---------------------------------------------------------------------
  // Coupling names
  // ---------------------------------------------------------------------

  datatype Axis = X | Y | Z

  /** Neighbour order of a coupling, written as J<i>, J<i>' or J<i>''. */
  datatype Reach = Nearest | Second | Third

  type BondIndex = i: nat | i < 3

  /**
    One exchange coupling: the bond (0, 1, 2 for the x, y and z bonds), its
    reach, and the spin components it couples. a == b is a diagonal term,
    whose component is written with one letter.
   */
  datatype Coupling = Coupling(bond: BondIndex, reach: Reach, a: Axis, b: Axis)

  function AxisChar(x: Axis): char {
    match x
    case X => 'x'
    case Y => 'y'
    case Z => 'z'
  }

  function Marks(r: Reach): string {
    match r
    case Nearest => ""
    case Second => "'"
    case Third => "''"
  }

  /** comp: one letter on the diagonal, two letters off it. */
  function AxesText(a: Axis, b: Axis): string {
    if a == b then [AxisChar(a)] else [AxisChar(a), AxisChar(b)]
  }

  /** The key f"{prefix}{comp}" under which add_symmetric and the diagonal assignment store a coupling. */
  function KeyName(cp: Coupling): string {
    "J" + NatToDecimal(cp.bond) + Marks(cp.reach) + AxesText(cp.a, cp.b)
  }

  function AxisOf(c: char): Option<Axis> {
    if c == 'x' then Some(X) else if c == 'y' then Some(Y) else if c == 'z' then Some(Z) else None
  }

  function ParseAxes(s: string): Option<(Axis, Axis)> {
    if |s| == 1 && AxisOf(s[0]).Some? then Some((AxisOf(s[0]).value, AxisOf(s[0]).value))
    else if |s| == 2 && AxisOf(s[0]).Some? && AxisOf(s[1]).Some? && s[0] != s[1] then
      Some((AxisOf(s[0]).value, AxisOf(s[1]).value))
    else None
  }

  /** The part of a key after the bond digit: primes, then the component. */
  function ParseTail(s: string): Option<(Reach, Axis, Axis)> {
    var r := if |s| >= 2 && s[0] == '\'' && s[1] == '\'' then Third
      else if |s| >= 1 && s[0] == '\'' then Second
      else Nearest;
    match ParseAxes(s[|Marks(r)|..])
    case None => None
    case Some(ab) => Some((r, ab.0, ab.1))
  }

  /** Reads a coupling back from its key; None for any text that is not a coupling key. */
  function ParseKey(k: string): Option<Coupling> {
    if |k| < 3 || k[0] != 'J' || !('0' <= k[1] <= '2') then None
    else
      var bond: BondIndex := k[1] as int - '0' as int;
      match ParseTail(k[2..])
      case None => None
      case Some(t) => Some(Coupling(bond, t.0, t.1, t.2))
  }

  lemma ParseAxesText(a: Axis, b: Axis)
    ensures ParseAxes(AxesText(a, b)) == Some((a, b))
  {
  }

  lemma ParseTailText(r: Reach, a: Axis, b: Axis)
    ensures ParseTail(Marks(r) + AxesText(a, b)) == Some((r, a, b))
  {
    var s := Marks(r) + AxesText(a, b);
    assert s[|Marks(r)|..] == AxesText(a, b);
    ParseAxesText(a, b);
  }

  /** Every key reads back as the coupling it names. */
  lemma ParseKeyName(cp: Coupling)
    ensures ParseKey(KeyName(cp)) == Some(cp)
  {
    var k := KeyName(cp);
    var tail := Marks(cp.reach) + AxesText(cp.a, cp.b);
    assert NatToDecimal(cp.bond) == [DigitChar(cp.bond)];
    assert k == ['J', DigitChar(cp.bond)] + tail;
    assert k[2..] == tail;
    ParseTailText(cp.reach, cp.a, cp.b);
  }

  /** Distinct couplings have distinct keys, so no assignment of one overwrites another. */
  lemma KeyNameInjective(x: Coupling, y: Coupling)
    ensures KeyName(x) == KeyName(y) ==> x == y
  {
    ParseKeyName(x);
    ParseKeyName(y);
  }

  // ---------------------------------------------------------------------
  // get_dic_kitaev: the reference table
  // ---------------------------------------------------------------------

  /** K, G, GP, G2, GP2, J, J2 and J3 after defaulting. */
  datatype Coefs = Coefs(K: real, G: real, GP: real, G2: real, GP2: real, J: real, J2: real, J3: real)

  /** The component a bond is named after: x for bond 0, y for 1, z for 2. */
  function BondAxis(i: BondIndex): Axis {
    if i == 0 then X else if i == 1 then Y else Z
  }

  /** Position of an off-diagonal pair in ["yz", "zx", "xy"]: the position of the component it leaves out. */
  function PairIndex(a: Axis, b: Axis): nat {
    if a != X && b != X then 0 else if a != Y && b != Y then 1 else 2
  }

  /**
    The coupling constants of the model: on the bond's own component the
    diagonal is J + K and J elsewhere; the off-diagonal pair without the
    bond's component is G, the other two GP; second neighbours have J2 on
    the diagonal and G2 or GP2 off it (G2 only before the bond's position
    in ["yz", "zx", "xy"]); third neighbours are diagonal J3 only.
   */
  function ValueOf(c: Coefs, cp: Coupling): Option<real> {
    match cp.reach
    case Nearest =>
      if cp.a == cp.b then Some(if cp.a == BondAxis(cp.bond) then c.J + c.K else c.J)
      else Some(if cp.a != BondAxis(cp.bond) && cp.b != BondAxis(cp.bond) then c.G else c.GP)
    case Second =>
      if cp.a == cp.b then Some(c.J2)
      else Some(if PairIndex(cp.a, cp.b) < cp.bond then c.G2 else c.GP2)
    case Third =>
      if cp.a == cp.b then Some(c.J3) else None
  }

  /** Every off-diagonal coupling equals its transpose. */
  lemma ValueOfSymmetric(c: Coefs, i: BondIndex, r: Reach, a: Axis, b: Axis)
    ensures ValueOf(c, Coupling(i, r, a, b)) == ValueOf(c, Coupling(i, r, b, a))
  {
  }

  // ---------------------------------------------------------------------
  // get_dic_kitaev: the assignments it makes
  // ---------------------------------------------------------------------

  type Writes = seq<(Coupling, real)>

  /** add_symmetric(prefix, val, components): each component, then its reverse. */
  function Sym(i: BondIndex, r: Reach, v: real, comps: seq<(Axis, Axis)>): (w: Writes)
    ensures |w| == 2 * |comps|
  {
    if comps == [] then []
    else
      var p := comps[|comps| - 1];
      Sym(i, r, v, comps[..|comps| - 1]) + [(Coupling(i, r, p.0, p.1), v), (Coupling(i, r, p.1, p.0), v)]
  }

  /** ["yz", "zx", "xy"] */
  const Pairs: seq<(Axis, Axis)> := [(Y, Z), (Z, X), (X, Y)]

  /** ["x", "y", "z"]: one-letter components, whose reverse is themselves. */
  const Diag: seq<(Axis, Axis)> := [(X, X), (Y, Y), (Z, Z)]

  /** main_diag of bond i. */
  function MainDiag(c: Coefs, i: BondIndex): (real, real, real) {
    if i == 0 then (c.J + c.K, c.J, c.J)
    else if i == 1 then (c.J, c.J + c.K, c.J)
    else (c.J, c.J, c.J + c.K)
  }

  function DiagWrites(c: Coefs, i: BondIndex): Writes {
    var m := MainDiag(c, i);
    [(Coupling(i, Nearest, X, X), m.0), (Coupling(i, Nearest, Y, Y), m.1), (Coupling(i, Nearest, Z, Z), m.2)]
  }

  /** The G and GP assignments of bond i. */
  function GammaWrites(c: Coefs, i: BondIndex): Writes {
    if i == 0 then Sym(i, Nearest, c.G, [(Y, Z)]) + Sym(i, Nearest, c.GP, [(X, Y), (Z, X)])
    else if i == 1 then Sym(i, Nearest, c.G, [(Z, X)]) + Sym(i, Nearest, c.GP, [(X, Y), (Y, Z)])
    else Sym(i, Nearest, c.G, [(X, Y)]) + Sym(i, Nearest, c.GP, [(Y, Z), (Z, X)])
  }

  /** Every assignment of one pass of the bond loop, in order. */
  function BondWrites(c: Coefs, i: BondIndex): Writes {
    DiagWrites(c, i) + GammaWrites(c, i)
    + Sym(i, Second, c.J2, Diag) + Sym(i, Second, c.G2, Pairs[..i + 1]) + Sym(i, Second, c.GP2, Pairs[i..])
    + Sym(i, Third, c.J3, Diag)
  }

  /** The assignments of the first n passes of the bond loop. */
  function AllWrites(c: Coefs, n: nat): Writes
    requires n <= 3
  {
    if n == 0 then [] else AllWrites(c, n - 1) + BondWrites(c, n - 1)
  }

  /** The assignments as dict entries. */
  function Named(w: Writes): (d: Dict<real>)
    ensures |d| == |w|
  {
    seq(|w|, j requires 0 <= j < |w| => (KeyName(w[j].0), w[j].1))
  }

  /** dic_kitaev as get_dic_kitaev returns it. */
  function KitaevDict(c: Coefs): Dict<real> {
    Update([], Named(AllWrites(c, 3)))
  }

  /** The last value assigned to a coupling. */
  function LastWrite(w: Writes, cp: Coupling): Option<real> {
    if w == [] then None
    else match LastWrite(w[1..], cp)
      case Some(v) => Some(v)
      case None => if w[0].0 == cp then Some(w[0].1) else None
  }

  lemma {:induction false} LastWriteAppend(u: Writes, w: Writes, cp: Coupling)
    ensures LastWrite(u + w, cp) == if LastWrite(w, cp).Some? then LastWrite(w, cp) else LastWrite(u, cp)
    decreases |u|
  {
    if u == [] {
      assert u + w == w;
    } else {
      assert (u + w)[0] == u[0] && (u + w)[1..] == u[1..] + w;
      LastWriteAppend(u[1..], w, cp);
    }
  }

  /** comps names the pair (a, b) in one order or the other. */
  predicate Touches(comps: seq<(Axis, Axis)>, a: Axis, b: Axis) {
    (a, b) in comps || (b, a) in comps
  }

  /** add_symmetric sets exactly the pairs it is given, both ways round, to its value. */
  lemma {:induction false} LastWriteSym(i: BondIndex, r: Reach, v: real, comps: seq<(Axis, Axis)>, cp: Coupling)
    ensures LastWrite(Sym(i, r, v, comps), cp) ==
      if cp.bond == i && cp.reach == r && Touches(comps, cp.a, cp.b) then Some(v) else None
    decreases |comps|
  {
    if comps != [] {
      var n := |comps| - 1;
      var p := comps[n];
      var pair := [(Coupling(i, r, p.0, p.1), v), (Coupling(i, r, p.1, p.0), v)];
      LastWriteSym(i, r, v, comps[..n], cp);
      LastWriteAppend(Sym(i, r, v, comps[..n]), pair, cp);
      assert pair[1..][1..] == [];
      assert LastWrite(pair[1..], cp) == if pair[1].0 == cp then Some(v) else None;
      assert comps == comps[..n] + [p];
    }
  }

  lemma TouchesFacts(i: BondIndex, a: Axis, b: Axis)
    ensures Touches(Diag, a, b) <==> a == b
    ensures Touches(Pairs[..i + 1], a, b) <==> a != b && PairIndex(a, b) <= i
    ensures Touches(Pairs[i..], a, b) <==> a != b && PairIndex(a, b) >= i
  {
    assert Pairs[..1] == [(Y, Z)] && Pairs[..2] == [(Y, Z), (Z, X)] && Pairs[..3] == Pairs;
    assert Pairs[1..] == [(Z, X), (X, Y)] && Pairs[2..] == [(X, Y)];
  }

  /** One pass of the bond loop leaves every coupling of its bond at the reference value. */
  lemma LastWriteBond(c: Coefs, i: BondIndex, cp: Coupling)
    ensures LastWrite(BondWrites(c, i), cp) == if cp.bond == i then ValueOf(c, cp) else None
  {
    var d := DiagWrites(c, i);
    var g := GammaWrites(c, i);
    var s1 := Sym(i, Second, c.J2, Diag);
    var s2 := Sym(i, Second, c.G2, Pairs[..i + 1]);
    var s3 := Sym(i, Second, c.GP2, Pairs[i..]);
    var s4 := Sym(i, Third, c.J3, Diag);
    LastWriteAppend(d + g + s1 + s2 + s3, s4, cp);
    LastWriteAppend(d + g + s1 + s2, s3, cp);
    LastWriteAppend(d + g + s1, s2, cp);
    LastWriteAppend(d + g, s1, cp);
    LastWriteAppend(d, g, cp);
    LastWriteSym(i, Second, c.J2, Diag, cp);
    LastWriteSym(i, Second, c.G2, Pairs[..i + 1], cp);
    LastWriteSym(i, Second, c.GP2, Pairs[i..], cp);
    LastWriteSym(i, Third, c.J3, Diag, cp);
    TouchesFacts(i, cp.a, cp.b);
    LastWriteGamma(c, i, cp);
    LastWriteDiag(c, i, cp);
  }

  lemma LastWriteDiag(c: Coefs, i: BondIndex, cp: Coupling)
    ensures LastWrite(DiagWrites(c, i), cp) ==
      if cp.bond == i && cp.reach == Nearest && cp.a == cp.b then ValueOf(c, cp) else None
  {
    var d := DiagWrites(c, i);
    LastWriteAppend(d[..2], d[2..], cp);
    LastWriteAppend(d[..1], d[1..2], cp);
    assert d[..2] == d[..1] + d[1..2];
    assert d == d[..2] + d[2..];
  }

  lemma LastWriteGamma(c: Coefs, i: BondIndex, cp: Coupling)
    ensures LastWrite(GammaWrites(c, i), cp) ==
      if cp.bond == i && cp.reach == Nearest && cp.a != cp.b then ValueOf(c, cp) else None
  {
    var pg := if i == 0 then [(Y, Z)] else if i == 1 then [(Z, X)] else [(X, Y)];
    var pp := if i == 0 then [(X, Y), (Z, X)] else if i == 1 then [(X, Y), (Y, Z)] else [(Y, Z), (Z, X)];
    assert GammaWrites(c, i) == Sym(i, Nearest, c.G, pg) + Sym(i, Nearest, c.GP, pp);
    LastWriteAppend(Sym(i, Nearest, c.G, pg), Sym(i, Nearest, c.GP, pp), cp);
    LastWriteSym(i, Nearest, c.G, pg, cp);
    LastWriteSym(i, Nearest, c.GP, pp, cp);
    if cp.bond == i && cp.reach == Nearest && cp.a != cp.b {
      var a, b := cp.a, cp.b;
      if a != BondAxis(i) && b != BondAxis(i) {
        assert pg[0] == (a, b) || pg[0] == (b, a);
      } else {
        assert pp[0] == (a, b) || pp[0] == (b, a) || pp[1] == (a, b) || pp[1] == (b, a);
      }
    }
  }

  /** Every bond loop pass so far has left its couplings at the reference values; later bonds are untouched. */
  lemma {:induction false} LastWriteAll(c: Coefs, n: nat, cp: Coupling)
    requires n <= 3
    ensures LastWrite(AllWrites(c, n), cp) == if cp.bond < n then ValueOf(c, cp) else None
  {
    if n > 0 {
      LastWriteAll(c, n - 1, cp);
      LastWriteAppend(AllWrites(c, n - 1), BondWrites(c, n - 1), cp);
      LastWriteBond(c, n - 1, cp);
    }
  }

  lemma {:induction false} NamedLast(w: Writes, cp: Coupling)
    ensures LastGet(Named(w), KeyName(cp)) == LastWrite(w, cp)
  {
    if w != [] {
      assert Named(w)[1..] == Named(w[1..]);
      KeyNameInjective(w[0].0, cp);
      NamedLast(w[1..], cp);
    }
  }

  /** The couplings get_dic_kitaev stores: all but the third-neighbour off-diagonals. */
  predicate Stored(cp: Coupling) {
    cp.reach != Third || cp.a == cp.b
  }

  lemma NamedKeys(w: Writes, k: string)
    ensures k in Keys(Named(w)) <==> exists j :: 0 <= j < |w| && KeyName(w[j].0) == k
  {
    if k in Keys(Named(w)) {
      var j :| 0 <= j < |w| && Keys(Named(w))[j] == k;
      assert KeyName(w[j].0) == k;
    }
    if exists j :: 0 <= j < |w| && KeyName(w[j].0) == k {
      var j :| 0 <= j < |w| && KeyName(w[j].0) == k;
      assert Keys(Named(w))[j] == k;
    }
  }

  /** get_dic_kitaev stores every coupling under its key with its reference value. */
  lemma KitaevDictGet(c: Coefs, cp: Coupling)
    ensures UniqueKeys(KitaevDict(c))
    ensures Get(KitaevDict(c), KeyName(cp)) == ValueOf(c, cp)
  {
    var e := Named(AllWrites(c, 3));
    UpdateLast([], e, KeyName(cp));
    NamedLast(AllWrites(c, 3), cp);
    LastWriteAll(c, 3, cp);
  }

  /** The keys of dic_kitaev are exactly the keys of the stored couplings. */
  lemma KitaevDictKeys(c: Coefs, k: string)
    ensures k in Keys(KitaevDict(c)) <==> ParseKey(k).Some? && Stored(ParseKey(k).value) && KeyName(ParseKey(k).value) == k
  {
    if k in Keys(KitaevDict(c)) {
      KitaevDictKeyStored(c, k);
    }
    if ParseKey(k).Some? && Stored(ParseKey(k).value) && KeyName(ParseKey(k).value) == k {
      KitaevDictStoredKey(c, ParseKey(k).value);
    }
  }

  lemma KitaevDictKeyStored(c: Coefs, k: string)
    requires k in Keys(KitaevDict(c))
    ensures ParseKey(k).Some? && Stored(ParseKey(k).value) && KeyName(ParseKey(k).value) == k
  {
    var w := AllWrites(c, 3);
    UpdateOrder([], Named(w));
    NamedKeys(w, k);
    var j :| 0 <= j < |w| && KeyName(w[j].0) == k;
    var cp := w[j].0;
    ParseKeyName(cp);
    KeyedCouplingStored(c, cp);
  }

  /** A coupling whose key is in dic_kitaev is one of the stored couplings. */
  lemma KeyedCouplingStored(c: Coefs, cp: Coupling)
    requires KeyName(cp) in Keys(KitaevDict(c))
    ensures Stored(cp)
  {
    var w := AllWrites(c, 3);
    UpdateOrder([], Named(w));
    NamedLast(w, cp);
    LastWriteAll(c, 3, cp);
  }

  lemma KitaevDictStoredKey(c: Coefs, cp: Coupling)
    requires Stored(cp)
    ensures KeyName(cp) in Keys(KitaevDict(c))
  {
    var w := AllWrites(c, 3);
    UpdateOrder([], Named(w));
    NamedKeys(w, KeyName(cp));
    NamedLast(w, cp);
    LastWriteAll(c, 3, cp);
  }

  // ---------------------------------------------------------------------
  // get_dic_kitaev: 21 couplings per bond, 63 in all
  // ---------------------------------------------------------------------

  function AxisAt(n: nat): Axis
    requires n < 3
  {
    if n == 0 then X else if n == 1 then Y else Z
  }

  function AxisNumber(x: Axis): nat {
    match x
    case X => 0
    case Y => 1
    case Z => 2
  }

  /** The stored couplings numbered bond by bond: nine nearest, nine second, three third. */
  function StoredAt(j: nat): Coupling
    requires j < 63
  {
    var bond: BondIndex := j / 21;
    var t := j % 21;
    if t < 18 then
      var u := t % 9;
      Coupling(bond, if t < 9 then Nearest else Second, AxisAt(u / 3), AxisAt(u % 3))
    else Coupling(bond, Third, AxisAt(t - 18), AxisAt(t - 18))
  }

  function StoredNumber(cp: Coupling): nat {
    var ab := 3 * AxisNumber(cp.a) + AxisNumber(cp.b);
    21 * cp.bond + match cp.reach
      case Nearest => ab
      case Second => 9 + ab
      case Third => 18 + AxisNumber(cp.a)
  }

  lemma StoredNumberOf(cp: Coupling)
    requires Stored(cp)
    ensures StoredNumber(cp) < 63 && StoredAt(StoredNumber(cp)) == cp
  {
    var ab := 3 * AxisNumber(cp.a) + AxisNumber(cp.b);
    var t := StoredNumber(cp) - 21 * cp.bond;
    assert StoredNumber(cp) / 21 == cp.bond && StoredNumber(cp) % 21 == t;
    if cp.reach != Third {
      assert t % 9 == ab && ab / 3 == AxisNumber(cp.a) && ab % 3 == AxisNumber(cp.b);
    }
  }

  lemma StoredAtNumber(j: nat)
    requires j < 63
    ensures Stored(StoredAt(j)) && StoredNumber(StoredAt(j)) == j
  {
    var t := j % 21;
    var u := t % 9;
    assert j == 21 * (j / 21) + t;
    if t < 18 {
      assert u == 3 * (u / 3) + u % 3;
      assert t == (if t < 9 then 0 else 9) + u;
    }
  }

  lemma {:induction false} DistinctCard<T>(s: seq<T>)
    requires forall i, j :: 0 <= i < j < |s| ==> s[i] != s[j]
    ensures |set x | x in s| == |s|
  {
    if s != [] {
      var t := s[1..];
      DistinctCard(t);
      assert (set x | x in s) == {s[0]} + (set x | x in t);
      assert s[0] !in t;
    }
  }

  /** dic_kitaev has 63 entries: 21 for each bond. */
  lemma KitaevDictSize(c: Coefs)
    ensures |KitaevDict(c)| == 63
  {
    var d := KitaevDict(c);
    var all := seq(63, j requires 0 <= j < 63 => KeyName(StoredAt(j)));
    KitaevDictGet(c, Coupling(0, Nearest, X, X));
    forall i, j | 0 <= i < j < 63 ensures all[i] != all[j] {
      KeyNameInjective(StoredAt(i), StoredAt(j));
      StoredAtNumber(i);
      StoredAtNumber(j);
    }
    forall i, j | 0 <= i < j < |d| ensures Keys(d)[i] != Keys(d)[j] {
    }
    forall k ensures k in Keys(d) <==> k in all {
      KitaevDictKeys(c, k);
      if k in Keys(d) {
        var cp := ParseKey(k).value;
        StoredNumberOf(cp);
        assert all[StoredNumber(cp)] == k;
      }
      if k in all {
        var j :| 0 <= j < 63 && all[j] == k;
        StoredAtNumber(j);
        ParseKeyName(StoredAt(j));
      }
    }
    DistinctCard(Keys(d));
    DistinctCard(all);
    assert (set x | x in Keys(d)) == (set x | x in all);
  }

  /** The properties of dic_kitaev together. */
  lemma KitaevDictFacts(c: Coefs)
    ensures UniqueKeys(KitaevDict(c)) && |KitaevDict(c)| == 63
    ensures forall cp :: Get(KitaevDict(c), KeyName(cp)) == ValueOf(c, cp)
    ensures forall k :: k in Keys(KitaevDict(c)) ==> ParseKey(k).Some? && Stored(ParseKey(k).value)
  {
    forall cp ensures Get(KitaevDict(c), KeyName(cp)) == ValueOf(c, cp) {
      KitaevDictGet(c, cp);
    }
    forall k | k in Keys(KitaevDict(c)) ensures ParseKey(k).Some? && Stored(ParseKey(k).value) {
      KitaevDictKeys(c, k);
    }
    KitaevDictGet(c, Coupling(0, Nearest, X, X));
    KitaevDictSize(c);
  }

  // ---------------------------------------------------------------------
  // get_dic_kitaev: the defaults
  // ---------------------------------------------------------------------

  /** The parameters get_dic_kitaev reads. */
  const ParamKeys: seq<string> := ["K", "G", "GP", "G2", "GP2", "J", "J2", "J3"]

  /** kitaev_params before the update: every parameter 0.0. */
  const ParamDefaults: Dict<real> := [("K", 0.0), ("G", 0.0), ("GP", 0.0), ("G2", 0.0), ("GP2", 0.0), ("J", 0.0), ("J2", 0.0), ("J3", 0.0)]

  /** d.get(k, 0.0) */
  function GetOr(d: Dict<real>, k: string): real {
    match Get(d, k)
    case Some(v) => v
    case None => 0.0
  }

  /** The eight coefficients as get_dic_kitaev reads them from kitaev_params. */
  function CoefsOf(dicParam: Dict<real>): Coefs {
    var p := Update(ParamDefaults, dicParam);
    Coefs(GetOr(p, "K"), GetOr(p, "G"), GetOr(p, "GP"), GetOr(p, "G2"), GetOr(p, "GP2"), GetOr(p, "J"), GetOr(p, "J2"), GetOr(p, "J3"))
  }

  /** A parameter dic_param leaves out reads as 0.0; one it gives keeps its value. */
  lemma ParamDefaultsFacts()
    ensures UniqueKeys(ParamDefaults) && Keys(ParamDefaults) == ParamKeys
    ensures forall i :: 0 <= i < |ParamDefaults| ==> ParamDefaults[i].1 == 0.0
  {
    var d := ParamDefaults;
    forall i, j | 0 <= i < j < |d| ensures d[i].0 != d[j].0 {
      assert d[i].0[0] != d[j].0[0] || |d[i].0| != |d[j].0| || d[i].0[|d[i].0| - 1] != d[j].0[|d[j].0| - 1] || d[i].0 != d[j].0;
    }
  }

  /** A parameter dic_param leaves out reads as 0.0; one it gives keeps its value. */
  lemma ParamDefault(dicParam: Dict<real>, k: string)
    requires UniqueKeys(dicParam)
    ensures GetOr(Update(ParamDefaults, dicParam), k) == GetOr(dicParam, k)
    ensures k in ParamKeys && k !in Keys(dicParam) ==> Get(Update(ParamDefaults, dicParam), k) == Some(0.0)
  {
    ParamDefaultsFacts();
    UpdateGet(ParamDefaults, dicParam, k);
    if k in Keys(ParamDefaults) {
      var i :| 0 <= i < |ParamDefaults| && ParamDefaults[i].0 == k;
      GetUnique(ParamDefaults, i);
    }
  }

  // ---------------------------------------------------------------------
  // get_dic_kitaev: the method
  // ---------------------------------------------------------------------

  lemma NamedAppend(u: Writes, w: Writes)
    ensures Named(u + w) == Named(u) + Named(w)
  {
  }

  lemma AppendAssoc(a: Writes, b: Writes, c: Writes)
    ensures a + (b + c) == a + b + c
  {
  }

  lemma Extend(d: Dict<real>, u: Writes, w: Writes)
    ensures Update(Update(d, Named(u)), Named(w)) == Update(d, Named(u + w))
  {
    NamedAppend(u, w);
    UpdateAppend(d, Named(u), Named(w));
  }

  lemma SymStep(d: Dict<real>, i: BondIndex, r: Reach, v: real, comps: seq<(Axis, Axis)>, j: nat)
    requires j < |comps|
    ensures Update(d, Named(Sym(i, r, v, comps[..j + 1]))) ==
      Set(Set(Update(d, Named(Sym(i, r, v, comps[..j]))), KeyName(Coupling(i, r, comps[j].0, comps[j].1)), v),
          KeyName(Coupling(i, r, comps[j].1, comps[j].0)), v)
  {
    var p := comps[j];
    var pair := [(Coupling(i, r, p.0, p.1), v), (Coupling(i, r, p.1, p.0), v)];
    assert comps[..j + 1][..j] == comps[..j];
    assert Sym(i, r, v, comps[..j + 1]) == Sym(i, r, v, comps[..j]) + pair;
    Extend(d, Sym(i, r, v, comps[..j]), pair);
    UpdatePair(Update(d, Named(Sym(i, r, v, comps[..j]))), Named(pair));
  }

  /** add_symmetric(prefix, val, components) */
  method AddSymmetric(dic: Dict<real>, i: BondIndex, r: Reach, v: real, comps: seq<(Axis, Axis)>) returns (res: Dict<real>)
    ensures res == Update(dic, Named(Sym(i, r, v, comps)))
  {
    res := dic;
    var j := 0;
    while j < |comps|
      invariant 0 <= j <= |comps|
      invariant res == Update(dic, Named(Sym(i, r, v, comps[..j])))
    {
      var comp := comps[j];
      SymStep(dic, i, r, v, comps, j);
      res := Set(res, KeyName(Coupling(i, r, comp.0, comp.1)), v);
      res := Set(res, KeyName(Coupling(i, r, comp.1, comp.0)), v);
      j := j + 1;
    }
    assert comps[..j] == comps;
  }

  lemma DiagStep(d: Dict<real>, c: Coefs, i: BondIndex)
    ensures var m := MainDiag(c, i);
      Update(d, Named(DiagWrites(c, i))) ==
      Set(Set(Set(d, KeyName(Coupling(i, Nearest, X, X)), m.0), KeyName(Coupling(i, Nearest, Y, Y)), m.1),
          KeyName(Coupling(i, Nearest, Z, Z)), m.2)
  {
    UpdateTriple(d, Named(DiagWrites(c, i)));
  }

  /** One pass of the bond loop of get_dic_kitaev. */
  method AddBond(dic: Dict<real>, i: BondIndex, c: Coefs) returns (res: Dict<real>)
    ensures res == Update(dic, Named(BondWrites(c, i)))
  {
    var m := MainDiag(c, i);
    DiagStep(dic, c, i);
    res := Set(dic, KeyName(Coupling(i, Nearest, X, X)), m.0);
    res := Set(res, KeyName(Coupling(i, Nearest, Y, Y)), m.1);
    res := Set(res, KeyName(Coupling(i, Nearest, Z, Z)), m.2);
    ghost var w := DiagWrites(c, i);
    var pg := if i == 0 then [(Y, Z)] else if i == 1 then [(Z, X)] else [(X, Y)];
    var pp := if i == 0 then [(X, Y), (Z, X)] else if i == 1 then [(X, Y), (Y, Z)] else [(Y, Z), (Z, X)];
    res := AddSymmetric(res, i, Nearest, c.G, pg);
    Extend(dic, w, Sym(i, Nearest, c.G, pg));
    w := w + Sym(i, Nearest, c.G, pg);
    res := AddSymmetric(res, i, Nearest, c.GP, pp);
    Extend(dic, w, Sym(i, Nearest, c.GP, pp));
    w := w + Sym(i, Nearest, c.GP, pp);
    res := AddSymmetric(res, i, Second, c.J2, Diag);
    Extend(dic, w, Sym(i, Second, c.J2, Diag));
    w := w + Sym(i, Second, c.J2, Diag);
    res := AddSymmetric(res, i, Second, c.G2, Pairs[..i + 1]);
    Extend(dic, w, Sym(i, Second, c.G2, Pairs[..i + 1]));
    w := w + Sym(i, Second, c.G2, Pairs[..i + 1]);
    res := AddSymmetric(res, i, Second, c.GP2, Pairs[i..]);
    Extend(dic, w, Sym(i, Second, c.GP2, Pairs[i..]));
    w := w + Sym(i, Second, c.GP2, Pairs[i..]);
    res := AddSymmetric(res, i, Third, c.J3, Diag);
    Extend(dic, w, Sym(i, Third, c.J3, Diag));
    w := w + Sym(i, Third, c.J3, Diag);
    assert GammaWrites(c, i) == Sym(i, Nearest, c.G, pg) + Sym(i, Nearest, c.GP, pp);
    AppendAssoc(DiagWrites(c, i), Sym(i, Nearest, c.G, pg), Sym(i, Nearest, c.GP, pp));
  }

  /**
    get_dic_kitaev(dic_param): every stored coupling holds its reference
    value for the defaulted parameters, there is nothing else, and there
    are 63 entries.
   */
  method GetDicKitaev(dicParam: Dict<real>) returns (dic: Dict<real>)
    ensures dic == KitaevDict(CoefsOf(dicParam))
    ensures UniqueKeys(dic) && |dic| == 63
    ensures forall cp :: Get(dic, KeyName(cp)) == ValueOf(CoefsOf(dicParam), cp)
    ensures forall k :: k in Keys(dic) ==> ParseKey(k).Some? && Stored(ParseKey(k).value)
  {
    var kitaevParams := Update(ParamDefaults, dicParam);
    var c := Coefs(GetOr(kitaevParams, "K"), GetOr(kitaevParams, "G"), GetOr(kitaevParams, "GP"),
      GetOr(kitaevParams, "G2"), GetOr(kitaevParams, "GP2"), GetOr(kitaevParams, "J"),
      GetOr(kitaevParams, "J2"), GetOr(kitaevParams, "J3"));
    dic := [];
    var i := 0;
    while i < 3
      invariant 0 <= i <= 3
      invariant dic == Update([], Named(AllWrites(c, i)))
    {
      Extend([], AllWrites(c, i), BondWrites(c, i));
      dic := AddBond(dic, i, c);
      i := i + 1;
    }
    KitaevDictFacts(c);
  }

  // ---------------------------------------------------------------------
  // convert_stanin_kitaev
  // ---------------------------------------------------------------------

  /** The stripped text before the first "=" of a line. */
  function LineKey(line: string): string {
    Strip(Split(line, '=')[0])
  }

  /** What one line of the input file contributes. */
  datatype LineRole = Param(key: string, value: real) | Keep(line: string) | Drop

  /** The line with a newline added if it has none at its end. */
  function Terminated(line: string): (t: string)
    ensures t != [] && t[|t| - 1] == '\n'
    ensures line <= t && |t| <= |line| + 1
  {
    if line != [] && line[|line| - 1] == '\n' then line else line + "\n"
  }

  /**
    One line: a parameter assignment is parsed, any other "=" line except
    the one for L is kept, lines without "=" are dropped.
   */
  function ConvertLine(line: string, py: Runtime): Result<LineRole> {
    if '=' !in line then Ok(Drop)
    else
      SplitHasSep(line, '=');
      var vals := Split(line, '=');
      var key := Strip(vals[0]);
      if key in ParamKeys then
        match Float(Strip(vals[1]), py)
        case Err(e) => Err(e)
        case Ok(v) => Ok(Param(key, v))
      else if key != "L" then Ok(Keep(Terminated(line)))
      else Ok(Drop)
  }

  /** The role of every input line, in order. */
  function Roles(lines: seq<string>, py: Runtime): (rs: seq<Result<LineRole>>)
    ensures |rs| == |lines|
  {
    seq(|lines|, j requires 0 <= j < |lines| => ConvertLine(lines[j], py))
  }

  function Apply(acc: (Dict<real>, seq<string>), role: LineRole): (Dict<real>, seq<string>) {
    match role
    case Param(k, v) => (Set(acc.0, k, v), acc.1)
    case Keep(l) => (acc.0, acc.1 + [l])
    case Drop => acc
  }

  /** dic_param and lines_out after the lines with the given roles, or the first error. */
  function Fold(rs: seq<Result<LineRole>>): Result<(Dict<real>, seq<string>)> {
    if rs == [] then Ok(([], []))
    else match Fold(rs[..|rs| - 1])
      case Err(e) => Err(e)
      case Ok(acc) =>
        match rs[|rs| - 1]
        case Err(e) => Err(e)
        case Ok(role) => Ok(Apply(acc, role))
  }

  /** dic_param and lines_out after the loop over the input lines. */
  function ConvertLines(lines: seq<string>, py: Runtime): Result<(Dict<real>, seq<string>)> {
    Fold(Roles(lines, py))
  }

  /** "{} = {}\n".format(key, value) */
  function CouplingLine(k: string, v: real, py: Runtime): string {
    k + " = " + py.str(v) + "\n"
  }

  function CouplingLines(dic: Dict<real>, py: Runtime): (ls: seq<string>)
    ensures |ls| == |dic|
  {
    seq(|dic|, j requires 0 <= j < |dic| => CouplingLine(dic[j].0, dic[j].1, py))
  }

  /** lines_out when it is written back: the kept lines, then one line per coupling. */
  function ConvertedLines(lines: seq<string>, py: Runtime): Result<seq<string>> {
    match ConvertLines(lines, py)
    case Err(e) => Err(e)
    case Ok(acc) => Ok(acc.1 + CouplingLines(KitaevDict(CoefsOf(acc.0)), py))
  }

  /** The text convert_stanin_kitaev writes over the input file. */
  function ConvertText(lines: seq<string>, py: Runtime): Result<string> {
    match ConvertedLines(lines, py)
    case Err(e) => Err(e)
    case Ok(out) => Ok(Concat(out))
  }

  /** The line is one the rewritten file may contain: terminated, an assignment, and not of L or a parameter. */
  predicate Installable(l: string) {
    l != [] && l[|l| - 1] == '\n' && '=' in l && LineKey(l) !in ParamKeys && LineKey(l) != "L"
  }

  /** A role the loop body can produce: parameters are only the eight of the model. */
  predicate ParamRole(r: Result<LineRole>) {
    r.Ok? && r.value.Param? ==> r.value.key in ParamKeys
  }

  lemma LineKeyTerminated(line: string)
    requires '=' in line
    ensures '=' in Terminated(line) && LineKey(Terminated(line)) == LineKey(line)
  {
    if Terminated(line) != line {
      SplitHeadAppend(line, "\n", '=');
    }
  }

  lemma ParamKeysShape(k: string)
    ensures k in ParamKeys ==> k != [] && |k| <= 3 && (k[0] == 'J' ==> |k| <= 2)
    ensures "L" !in ParamKeys && "H" !in ParamKeys
  {
  }

  /** A line without "=" is dropped. */
  lemma ConvertLineNoAssign(line: string, py: Runtime)
    requires '=' !in line
    ensures ConvertLine(line, py) == Ok(Drop)
  {
  }

  /** The line assigning L is dropped. */
  lemma ConvertLineL(line: string, py: Runtime)
    requires '=' in line && LineKey(line) == "L"
    ensures ConvertLine(line, py) == Ok(Drop)
  {
    ParamKeysShape("L");
  }

  /** Any other assignment that is not of a parameter is kept, terminated by a newline. */
  lemma ConvertLineKeep(line: string, py: Runtime)
    requires '=' in line && LineKey(line) !in ParamKeys && LineKey(line) != "L"
    ensures ConvertLine(line, py) == Ok(Keep(Terminated(line)))
    ensures Installable(Terminated(line))
  {
    LineKeyTerminated(line);
  }

  /** A parameter line yields that parameter, with float() of its value, or the error of float(). */
  lemma ConvertLineParam(line: string, py: Runtime)
    requires '=' in line && LineKey(line) in ParamKeys
    ensures ConvertLine(line, py).Ok? ==> ConvertLine(line, py).value == Param(LineKey(line), AssignedValue(line, py).value)
    ensures ConvertLine(line, py).Err? ==> AssignedValue(line, py).Err?
  {
  }

  /** What the loop body makes of a line is one of the three cases above. */
  lemma ConvertLineRole(line: string, py: Runtime)
    ensures ParamRole(ConvertLine(line, py))
    ensures ConvertLine(line, py).Ok? && ConvertLine(line, py).value.Keep? ==>
      ConvertLine(line, py).value.line == Terminated(line) && Installable(Terminated(line))
  {
    if '=' !in line {
      ConvertLineNoAssign(line, py);
    } else if LineKey(line) in ParamKeys {
      ConvertLineParam(line, py);
    } else if LineKey(line) != "L" {
      ConvertLineKeep(line, py);
    } else {
      ConvertLineL(line, py);
    }
  }

  /**
    After the loop over roles whose parameters are among the eight,
    dic_param has one entry per parameter assigned and nothing else, and
    lines_out holds exactly the lines of the kept roles.
   */
  lemma {:induction false} FoldFacts(rs: seq<Result<LineRole>>)
    requires forall j :: 0 <= j < |rs| ==> ParamRole(rs[j])
    requires Fold(rs).Ok?
    ensures var acc := Fold(rs).value;
      UniqueKeys(acc.0) && (forall k :: k in Keys(acc.0) ==> k in ParamKeys) &&
      |acc.1| <= |rs| && forall j :: 0 <= j < |acc.1| ==> Ok(Keep(acc.1[j])) in rs
  {
    if rs != [] {
      var init := rs[..|rs| - 1];
      FoldFacts(init);
      var acc := Fold(init).value;
      assert forall j :: 0 <= j < |init| ==> init[j] == rs[j];
      match rs[|rs| - 1].value
      case Param(k, v) =>
        SetFacts(acc.0, k, v);
        SetOrder(acc.0, k, v);
      case Keep(l) =>
      case Drop =>
    }
  }

  /** Every line of a kept role reaches lines_out. */
  lemma {:induction false} FoldKept(rs: seq<Result<LineRole>>)
    requires Fold(rs).Ok?
    ensures forall j :: 0 <= j < |rs| && rs[j].Ok? && rs[j].value.Keep? ==> rs[j].value.line in Fold(rs).value.1
  {
    if rs != [] {
      var init := rs[..|rs| - 1];
      FoldKept(init);
      var acc := Fold(init).value;
      var acc' := Fold(rs).value;
      assert forall l :: l in acc.1 ==> l in acc'.1;
      forall j | 0 <= j < |rs| && rs[j].Ok? && rs[j].value.Keep?
        ensures rs[j].value.line in acc'.1
      {
        if j < |init| {
          assert rs[j] == init[j];
        }
      }
    }
  }

  /**
    The same, for the lines of a file: every line of lines_out is
    installable, and every assignment that is neither a parameter nor L
    reaches lines_out.
   */
  lemma ConvertLinesFacts(lines: seq<string>, py: Runtime)
    requires ConvertLines(lines, py).Ok?
    ensures var acc := ConvertLines(lines, py).value;
      UniqueKeys(acc.0) && (forall k :: k in Keys(acc.0) ==> k in ParamKeys) &&
      |acc.1| <= |lines| && forall j :: 0 <= j < |acc.1| ==> Installable(acc.1[j])
    ensures forall j :: 0 <= j < |lines| && '=' in lines[j] && LineKey(lines[j]) !in ParamKeys && LineKey(lines[j]) != "L" ==>
      Terminated(lines[j]) in ConvertLines(lines, py).value.1
  {
    var rs := Roles(lines, py);
    forall j | 0 <= j < |lines| ensures ParamRole(rs[j]) {
      ConvertLineRole(lines[j], py);
    }
    FoldFacts(rs);
    FoldKept(rs);
    var acc := Fold(rs).value;
    forall j | 0 <= j < |acc.1| ensures Installable(acc.1[j]) {
      var i :| 0 <= i < |rs| && rs[i] == Ok(Keep(acc.1[j]));
      ConvertLineRole(lines[i], py);
    }
    forall j | 0 <= j < |lines| && '=' in lines[j] && LineKey(lines[j]) !in ParamKeys && LineKey(lines[j]) != "L"
      ensures Terminated(lines[j]) in acc.1
    {
      ConvertLineKeep(lines[j], py);
      assert rs[j] == Ok(Keep(Terminated(lines[j])));
    }
  }

  /** The value of a parameter among the roles: the one of the last role that sets it. */
  function LastParam(rs: seq<Result<LineRole>>, k: string): Option<real> {
    if rs == [] then None
    else match rs[|rs| - 1]
      case Ok(Param(k', v)) => if k' == k then Some(v) else LastParam(rs[..|rs| - 1], k)
      case _ => LastParam(rs[..|rs| - 1], k)
  }

  /** A parameter assigned on several lines takes the value of the last one; one never assigned is absent. */
  lemma {:induction false} ConvertParamLast(rs: seq<Result<LineRole>>, k: string)
    requires forall j :: 0 <= j < |rs| ==> ParamRole(rs[j])
    requires Fold(rs).Ok?
    ensures Get(Fold(rs).value.0, k) == LastParam(rs, k)
  {
    if rs != [] {
      var init := rs[..|rs| - 1];
      ConvertParamLast(init, k);
      FoldFacts(init);
      var acc := Fold(init).value;
      match rs[|rs| - 1].value
      case Param(k', v) => SetFacts(acc.0, k', v);
      case Keep(_) =>
      case Drop =>
    }
  }

  /** One more pass of the loop body. */
  lemma FoldStep(rs: seq<Result<LineRole>>, i: nat)
    requires i < |rs| && Fold(rs[..i]).Ok? && rs[i].Ok?
    ensures Fold(rs[..i + 1]) == Ok(Apply(Fold(rs[..i]).value, rs[i].value))
  {
    assert rs[..i + 1][..i] == rs[..i];
  }

  /** The loop stops at the first line whose value float() rejects. */
  lemma {:induction false} FoldErr(rs: seq<Result<LineRole>>, i: nat)
    requires i < |rs| && Fold(rs[..i]).Ok? && rs[i].Err?
    ensures Fold(rs) == Err(rs[i].error)
    decreases |rs|
  {
    if |rs| > i + 1 {
      var init := rs[..|rs| - 1];
      assert init[..i] == rs[..i] && init[i] == rs[i];
      FoldErr(init, i);
    } else {
      assert rs[..|rs| - 1] == rs[..i];
    }
  }

  /** The key of a coupling is neither L nor one of the eight parameters. */
  lemma KeyNameShape(cp: Coupling)
    ensures |KeyName(cp)| >= 3 && KeyName(cp)[0] == 'J' && NoSpace(KeyName(cp)) && '=' !in KeyName(cp)
    ensures KeyName(cp) !in ParamKeys && KeyName(cp) != "L"
  {
    assert NatToDecimal(cp.bond) == [DigitChar(cp.bond)];
    ParamKeysShape(KeyName(cp));
  }

  /** The key of a line "k = ..." is k. */
  lemma AssignLineKey(k: string, rest: string)
    requires k != [] && NoSpace(k) && '=' !in k
    ensures '=' in k + " = " + rest && LineKey(k + " = " + rest) == k
  {
    var l := k + " = " + rest;
    assert l == (k + " ") + ['='] + (" " + rest);
    SplitHead(k + " ", " " + rest, '=');
    StripPadded(k);
    assert l[|k| + 1] == '=';
  }

  /** A coupling line names its coupling before the "=", and may stand in the rewritten file. */
  lemma CouplingLineKey(cp: Coupling, v: real, py: Runtime)
    ensures Installable(CouplingLine(KeyName(cp), v, py))
    ensures LineKey(CouplingLine(KeyName(cp), v, py)) == KeyName(cp)
  {
    KeyNameShape(cp);
    AssignLineKey(KeyName(cp), py.str(v) + "\n");
    assert CouplingLine(KeyName(cp), v, py) == KeyName(cp) + " = " + (py.str(v) + "\n");
  }

  /**
    The rewritten file: the kept lines, then 63 coupling lines; every line
    may stand in it (none assigns L or one of the eight parameters), and
    every stored coupling appears with its reference value.
   */
  lemma ConvertedLinesFacts(lines: seq<string>, py: Runtime)
    requires ConvertLines(lines, py).Ok?
    ensures var acc := ConvertLines(lines, py).value;
      var c := CoefsOf(acc.0);
      var out := ConvertedLines(lines, py).value;
      |out| == |acc.1| + 63 && out[..|acc.1|] == acc.1 &&
      (forall j :: 0 <= j < |out| ==> Installable(out[j])) &&
      forall cp :: ValueOf(c, cp).Some? ==> CouplingLine(KeyName(cp), ValueOf(c, cp).value, py) in out[|acc.1|..]
  {
    var acc := ConvertLines(lines, py).value;
    var c := CoefsOf(acc.0);
    var cl := CouplingLines(KitaevDict(c), py);
    assert ConvertedLines(lines, py).value == acc.1 + cl;
    ConvertLinesFacts(lines, py);
    CouplingLinesFacts(c, py);
    InstallableAppend(acc.1, cl);
  }

  lemma InstallableAppend(a: seq<string>, b: seq<string>)
    requires forall j :: 0 <= j < |a| ==> Installable(a[j])
    requires forall j :: 0 <= j < |b| ==> Installable(b[j])
    ensures (a + b)[..|a|] == a && (a + b)[|a|..] == b
    ensures forall j :: 0 <= j < |a + b| ==> Installable((a + b)[j])
  {
    assert (a + b)[..|a|] == a;
    assert (a + b)[|a|..] == b;
  }

  /** The 63 coupling lines: each may stand in the rewritten file, and each stored coupling has its line. */
  lemma CouplingLinesFacts(c: Coefs, py: Runtime)
    ensures var cl := CouplingLines(KitaevDict(c), py);
      |cl| == 63 && (forall j :: 0 <= j < |cl| ==> Installable(cl[j])) &&
      forall cp :: ValueOf(c, cp).Some? ==> CouplingLine(KeyName(cp), ValueOf(c, cp).value, py) in cl
  {
    KitaevDictSize(c);
    forall j | 0 <= j < 63 ensures Installable(CouplingLines(KitaevDict(c), py)[j]) {
      CouplingInstallable(c, j, py);
    }
    forall cp | ValueOf(c, cp).Some?
      ensures CouplingLine(KeyName(cp), ValueOf(c, cp).value, py) in CouplingLines(KitaevDict(c), py)
    {
      CouplingLineIn(c, cp, py);
    }
  }

  /** Line j of the coupling part assigns a coupling key. */
  lemma CouplingInstallable(c: Coefs, j: nat, py: Runtime)
    requires j < |KitaevDict(c)|
    ensures Installable(CouplingLines(KitaevDict(c), py)[j])
  {
    var d := KitaevDict(c);
    var k := d[j].0;
    assert k in Keys(d);
    KitaevDictKeys(c, k);
    CouplingLineKey(ParseKey(k).value, d[j].1, py);
  }

  /** A stored coupling has its line, with its reference value. */
  lemma CouplingLineIn(c: Coefs, cp: Coupling, py: Runtime)
    requires ValueOf(c, cp).Some?
    ensures CouplingLine(KeyName(cp), ValueOf(c, cp).value, py) in CouplingLines(KitaevDict(c), py)
  {
    var d := KitaevDict(c);
    KitaevDictGet(c, cp);
    var j := Find(d, KeyName(cp)).value;
    GetUnique(d, j);
    assert CouplingLines(d, py)[j] == CouplingLine(KeyName(cp), ValueOf(c, cp).value, py);
  }

  /** convert_stanin_kitaev(stanin), on the lines f.readlines() returns; the result is the text written back. */
  method ConvertStaninKitaev(lines: seq<string>, py: Runtime) returns (r: Result<string>)
    ensures r == ConvertText(lines, py)
  {
    var read := ReadParams(lines, py);
    if read.Err? {
      return Err(read.error);
    }
    var dicKitaev := GetDicKitaev(read.value.0);
    var text := WriteConverted(read.value.1, dicKitaev, py);
    r := Ok(text);
  }

  /** The body of the loop over the input lines, up to the update of dic_param and lines_out. */
  method ClassifyLine(line: string, py: Runtime) returns (role: Result<LineRole>)
    ensures role == ConvertLine(line, py)
  {
    if '=' in line {
      SplitHasSep(line, '=');
      var vals := Split(line, '=');
      var key := Strip(vals[0]);
      if key in ParamKeys {
        var v := Float(Strip(vals[1]), py);
        if v.Err? {
          return Err(v.error);
        }
        return Ok(Param(key, v.value));
      } else if key != "L" {
        var l := line;
        if l[|l| - 1] != '\n' {
          l := l + "\n";
        }
        return Ok(Keep(l));
      }
    }
    role := Ok(Drop);
  }

  /** The loop that collects dic_param and lines_out. */
  method ReadParams(lines: seq<string>, py: Runtime) returns (r: Result<(Dict<real>, seq<string>)>)
    ensures r == ConvertLines(lines, py)
  {
    ghost var rs := Roles(lines, py);
    var dicParam: Dict<real> := [];
    var linesOut: seq<string> := [];
    var i := 0;
    while i < |lines|
      invariant 0 <= i <= |lines|
      invariant Fold(rs[..i]) == Ok((dicParam, linesOut))
    {
      var role := ClassifyLine(lines[i], py);
      assert role == rs[i];
      if role.Err? {
        FoldErr(rs, i);
        return Err(role.error);
      }
      FoldStep(rs, i);
      dicParam, linesOut := ApplyRole(dicParam, linesOut, role.value);
      i := i + 1;
    }
    assert rs[..i] == rs;
    r := Ok((dicParam, linesOut));
  }

  /** dic_param[key] = value for a parameter line, lines_out.append(line) for a kept one. */
  method ApplyRole(dicParam: Dict<real>, linesOut: seq<string>, role: LineRole) returns (d: Dict<real>, out: seq<string>)
    ensures (d, out) == Apply((dicParam, linesOut), role)
  {
    d, out := dicParam, linesOut;
    match role {
      case Param(k, v) => d := Set(d, k, v);
      case Keep(l) => out := out + [l];
      case Drop =>
    }
  }

  /** The two loops that append the coupling lines and write lines_out. */
  method WriteConverted(kept: seq<string>, dicKitaev: Dict<real>, py: Runtime) returns (text: string)
    ensures text == Concat(kept + CouplingLines(dicKitaev, py))
  {
    var linesOut := kept;
    var j := 0;
    while j < |dicKitaev|
      invariant 0 <= j <= |dicKitaev|
      invariant linesOut == kept + CouplingLines(dicKitaev[..j], py)
    {
      linesOut := linesOut + [CouplingLine(dicKitaev[j].0, dicKitaev[j].1, py)];
      j := j + 1;
      assert CouplingLines(dicKitaev[..j], py) == CouplingLines(dicKitaev[..j - 1], py) + [CouplingLine(dicKitaev[j - 1].0, dicKitaev[j - 1].1, py)];
    }
    assert dicKitaev[..j] == dicKitaev;
    text := WriteLines(linesOut);
  }

  /** for line in lines_out: f.write(line) */
  method WriteLines(ls: seq<string>) returns (text: string)
    ensures text == Concat(ls)
  {
    text := [];
    var i := 0;
    while i < |ls|
      invariant 0 <= i <= |ls|
      invariant text == Concat(ls[..i])
    {
      assert ls[..i + 1][..i] == ls[..i];
      text := text + ls[i];
      i := i + 1;
    }
    assert ls[..i] == ls;
  }

  // ---------------------------------------------------------------------
  // get_h
  // ---------------------------------------------------------------------

  /** The line sets H: it has an "=" and the stripped text before the first one is "H". */
  predicate SetsH(line: string) {
    '=' in line && LineKey(line) == "H"
  }

  /** float() of the stripped text between the first and the second "=". */
  function AssignedValue(line: string, py: Runtime): Result<real>
    requires '=' in line
  {
    SplitHasSep(line, '=');
    Float(Strip(Split(line, '=')[1]), py)
  }

  /** The value of H from the first line that sets it; without one, H is never bound. */
  function HOf(lines: seq<string>, py: Runtime): Result<real> {
    if lines == [] then Err(NameError("H"))
    else if SetsH(lines[0]) then AssignedValue(lines[0], py)
    else HOf(lines[1..], py)
  }

  /** get_h(stanin), on the lines f.readlines() returns. */
  method GetH(lines: seq<string>, py: Runtime) returns (r: Result<real>)
    ensures r == HOf(lines, py)
  {
    var i := 0;
    while i < |lines|
      invariant 0 <= i <= |lines|
      invariant HOf(lines[i..], py) == HOf(lines, py)
    {
      var line := lines[i];
      assert lines[i..][1..] == lines[i + 1..];
      if '=' in line {
        SplitHasSep(line, '=');
        var vals := Split(line, '=');
        if Strip(vals[0]) == "H" {
          return Float(Strip(vals[1]), py);
        }
      }
      i := i + 1;
    }
    r := Err(NameError("H"));
  }

  /** Lines that do not set H are passed over; the first one that does decides. */
  lemma {:induction false} HOfAfter(pre: seq<string>, line: string, post: seq<string>, py: Runtime)
    requires forall j :: 0 <= j < |pre| ==> !SetsH(pre[j])
    requires SetsH(line)
    ensures HOf(pre + [line] + post, py) == AssignedValue(line, py)
  {
    if pre != [] {
      assert (pre + [line] + post)[1..] == pre[1..] + [line] + post;
      HOfAfter(pre[1..], line, post, py);
    } else {
      assert pre + [line] + post == [line] + post;
    }
  }

  /** Without a line that sets H, get_h fails. */
  lemma {:induction false} HOfNone(lines: seq<string>, py: Runtime)
    requires forall j :: 0 <= j < |lines| ==> !SetsH(lines[j])
    ensures HOf(lines, py) == Err(NameError("H"))
  {
    if lines != [] {
      HOfNone(lines[1..], py);
    }
  }

  // ---------------------------------------------------------------------
  // get_site_number
  // ---------------------------------------------------------------------

  /** int(lines[1].split()[1]) */
  function SiteNumber(lines: seq<string>): (r: Result<int>)
    ensures |lines| < 2 ==> r == Err(IndexError)
    ensures |lines| >= 2 && |SplitWs(lines[1])| < 2 ==> r == Err(IndexError)
    ensures |lines| >= 2 && |SplitWs(lines[1])| >= 2 ==>
      var tok := SplitWs(lines[1])[1];
      && (ParseInt(tok).None? <==> r == Err(ValueError(tok)))
      && (ParseInt(tok).Some? ==> r == Ok(ParseInt(tok).value))
  {
    if |lines| < 2 then Err(IndexError)
    else
      var toks := SplitWs(lines[1]);
      if |toks| < 2 then Err(IndexError)
      else match ParseInt(toks[1])
        case None => Err(ValueError(toks[1]))
        case Some(n) => Ok(n)
  }

  /** The site count written after a word and blanks on the second line of locspn.def reads back. */
  lemma SiteNumberOfHeader(first: string, word: string, pad: string, n: int, rest: seq<string>)
    requires word != [] && NoSpace(word)
    requires pad != [] && forall i :: 0 <= i < |pad| ==> IsSpace(pad[i])
    ensures SiteNumber([first, word + pad + IntToDecimal(n) + "\n"] + rest) == Ok(n)
  {
    var lines := [first, word + pad + IntToDecimal(n) + "\n"] + rest;
    assert lines[1] == word + pad + IntToDecimal(n) + "\n";
    SecondTokenParses(word, pad, n, "\n");
  }

  // ---------------------------------------------------------------------
  // mod_trans
  // ---------------------------------------------------------------------

  /** The Cartesian components of the Zeeman field. */
  datatype Field = Field(hx: real, hy: real, hz: real)

  /** The entries of dict_mag, in the order mod_trans reads them. */
  const MagKeys: seq<string> := ["amp_z", "amp_tot", "theta", "phi", "gab", "gc", "bohr"]

  /** The first of the keys the dictionary lacks. */
  function FirstMissing(d: Dict<real>, ks: seq<string>): (r: Option<string>)
    ensures r.None? <==> forall i :: 0 <= i < |ks| ==> Get(d, ks[i]).Some?
    ensures r.Some? ==> r.value in ks && Get(d, r.value).None?
  {
    if ks == [] then None
    else if Get(d, ks[0]).None? then Some(ks[0])
    else FirstMissing(d, ks[1..])
  }

  /**
    The field for strength H: h = amp_tot * H, the in-plane components
    scaled by gab and the angles theta and phi (in units of pi), the
    out-of-plane one by gc and amp_z.
   */
  function FieldOf(h: real, dictMag: Dict<real>, py: Runtime): Result<Field> {
    match FirstMissing(dictMag, MagKeys)
    case Some(k) => Err(KeyError(k))
    case None =>
      assert MagKeys[0] == "amp_z" && MagKeys[1] == "amp_tot" && MagKeys[2] == "theta" && MagKeys[3] == "phi";
      assert MagKeys[4] == "gab" && MagKeys[5] == "gc" && MagKeys[6] == "bohr";
      var ampZ := Get(dictMag, "amp_z").value;
      var ampTot := Get(dictMag, "amp_tot").value;
      var theta := Get(dictMag, "theta").value;
      var phi := Get(dictMag, "phi").value;
      var gab := Get(dictMag, "gab").value;
      var gc := Get(dictMag, "gc").value;
      var bohr := Get(dictMag, "bohr").value;
      var hTot := ampTot * h;
      Ok(Field(gab * bohr * hTot * py.sinPi(theta) * py.cosPi(phi),
               gab * bohr * hTot * py.sinPi(theta) * py.sinPi(phi),
               gc * bohr * hTot * ampZ * py.cosPi(theta)))
  }

  /** One one-body term on a site: spin indices and the real and imaginary parts of its coefficient. */
  datatype Term = Term(spin1: nat, spin2: nat, re: real, im: real)

  /** The four terms written for every site. */
  function Patterns(f: Field): (ps: seq<Term>)
    ensures |ps| == 4
  {
    [Term(0, 1, -0.5 * f.hx, 0.5 * f.hy),
     Term(1, 0, -0.5 * f.hx, -0.5 * f.hy),
     Term(0, 0, -0.5 * f.hz, 0.0),
     Term(1, 1, 0.5 * f.hz, 0.0)]
  }

  /** The one-body coefficients form a Hermitian matrix: each term has its conjugate transpose among them. */
  lemma PatternsHermitian(f: Field)
    ensures forall t :: t in Patterns(f) ==> Term(t.spin2, t.spin1, t.re, -t.im) in Patterns(f)
    ensures forall t :: t in Patterns(f) ==> t.spin1 < 2 && t.spin2 < 2
  {
    var ps := Patterns(f);
    assert Term(1, 0, -0.5 * f.hx, -0.5 * f.hy) == ps[1];
    assert Term(0, 1, -0.5 * f.hx, 0.5 * f.hy) == ps[0];
    assert Term(0, 0, -0.5 * f.hz, -0.0) == ps[2];
    assert Term(1, 1, 0.5 * f.hz, -0.0) == ps[3];
  }

  /** The Zeeman term: the up and down diagonal entries are -hz/2 and +hz/2, the off-diagonal ones carry hx and hy. */
  lemma PatternsZeeman(f: Field)
    ensures Patterns(f)[2].re + Patterns(f)[3].re == 0.0
    ensures Patterns(f)[3].re - Patterns(f)[2].re == f.hz
    ensures Patterns(f)[0].re + Patterns(f)[1].re == -f.hx
    ensures Patterns(f)[0].im - Patterns(f)[1].im == f.hy
  {
  }

  /** f"{n:8d}" */
  function Pad8(n: int): string {
    RightAlign(IntToDecimal(n), 8)
  }

  const RuleLine := "===================\n"

  /** f"num {4 * Nsites:8d}\n" */
  function NumLine(nSites: int): string {
    "num " + Pad8(4 * nSites) + "\n"
  }

  /** The header of trans.def, as lines. */
  function HeaderLines(nSites: int): seq<string> {
    [RuleLine, NumLine(nSites), RuleLine, RuleLine, RuleLine]
  }

  /**
    The cells of the line of one term on one site: the site, the first
    spin, the site again and the second spin, each right-aligned in eight
    columns, then the real and imaginary parts in "{:8f}" format; the
    gaps before them are one, two, then three blanks.
   */
  function TermCells(site: int, t: Term, py: Runtime): seq<(string, string)> {
    var s := IntToDecimal(site);
    var a := IntToDecimal(t.spin1);
    var b := IntToDecimal(t.spin2);
    [(" " + Spaces(8 - |s|), s), ("  " + Spaces(8 - |a|), a), ("   " + Spaces(8 - |s|), s),
     ("   " + Spaces(8 - |b|), b), ("   ", py.fmt8f(t.re)), ("   ", py.fmt8f(t.im))]
  }

  /** The line of one term on one site. */
  function TermLine(site: int, t: Term, py: Runtime): string {
    Cells(TermCells(site, t, py)) + "\n"
  }

  /** The (site, term) rows of the first n sites, site by site, each with its terms in order. */
  function Rows(n: nat, ps: seq<Term>): (rows: seq<(int, Term)>)
    ensures |rows| == n * |ps|
  {
    if n == 0 then [] else Rows(n - 1, ps) + SiteRows(n - 1, ps, |ps|)
  }

  /** The rows of the first k terms on one site. */
  function SiteRows(site: int, ps: seq<Term>, k: nat): (rows: seq<(int, Term)>)
    requires k <= |ps|
    ensures |rows| == k
  {
    seq(k, j requires 0 <= j < k => (site, ps[j]))
  }

  /** The text lines of a list of rows. */
  function LinesOf(rows: seq<(int, Term)>, py: Runtime): (ls: seq<string>)
    ensures |ls| == |rows|
  {
    seq(|rows|, i requires 0 <= i < |rows| => TermLine(rows[i].0, rows[i].1, py))
  }

  /** trans.def, as lines: range(Nsites) is empty for a negative count. */
  function TransLines(nSites: int, f: Field, py: Runtime): seq<string> {
    HeaderLines(nSites) + LinesOf(Rows(if nSites < 0 then 0 else nSites, Patterns(f)), py)
  }

  /** The text mod_trans writes to trans.def, or the KeyError of a missing entry of dict_mag. */
  function TransText(h: real, nSites: int, dictMag: Dict<real>, py: Runtime): Result<string> {
    match FieldOf(h, dictMag, py)
    case Err(e) => Err(e)
    case Ok(f) => Ok(Concat(TransLines(nSites, f, py)))
  }

  /** Row |ps| * s + k is term k on site s. */
  lemma {:induction false} RowsAt(n: nat, ps: seq<Term>, s: nat, k: nat)
    requires s < n && k < |ps|
    ensures |ps| * s + k < |Rows(n, ps)| && Rows(n, ps)[|ps| * s + k] == (s, ps[k])
  {
    if s < n - 1 {
      RowsAt(n - 1, ps, s, k);
    } else {
      assert |ps| * s + k == |ps| * (n - 1) + k;
    }
  }

  /** trans.def has five header lines and four lines per site. */
  lemma TransLinesLength(nSites: int, f: Field, py: Runtime)
    ensures |TransLines(nSites, f, py)| == 5 + 4 * (if nSites < 0 then 0 else nSites)
  {
  }

  /** Term k of site s is on line 5 + 4s + k. */
  lemma TransLineAt(nSites: int, f: Field, py: Runtime, s: nat, k: nat)
    requires s < nSites && k < 4
    ensures 5 + 4 * s + k < |TransLines(nSites, f, py)|
    ensures TransLines(nSites, f, py)[5 + 4 * s + k] == TermLine(s, Patterns(f)[k], py)
  {
    var ps := Patterns(f);
    var rows := Rows(nSites, ps);
    RowsAt(nSites, ps, s, k);
    assert LinesOf(rows, py)[4 * s + k] == TermLine(s, ps[k], py);
    assert TransLines(nSites, f, py) == HeaderLines(nSites) + LinesOf(rows, py);
  }

  /** The count on the second line of the header, read back with int(line.split()[1]), is four per site. */
  lemma NumLineCount(nSites: int)
    ensures |SplitWs(NumLine(nSites))| >= 2 && ParseInt(SplitWs(NumLine(nSites))[1]) == Some(4 * nSites)
  {
    var pad := NumLinePad(nSites);
    SecondTokenParses("num", pad, 4 * nSites, "\n");
  }

  /** The blanks between "num" and the count: one, then the padding up to eight characters. */
  lemma NumLinePad(nSites: int) returns (pad: string)
    ensures pad != [] && forall i :: 0 <= i < |pad| ==> IsSpace(pad[i])
    ensures NumLine(nSites) == "num" + pad + IntToDecimal(4 * nSites) + "\n"
  {
    var d := IntToDecimal(4 * nSites);
    pad := " " + Spaces(8 - |d|);
    assert Pad8(4 * nSites) == Spaces(8 - |d|) + d;
    assert "num " + Pad8(4 * nSites) == "num" + pad + d;
  }

  /** For a non-negative site count, the declared count is the number of term lines that follow the header. */
  lemma DeclaredCount(nSites: nat, f: Field, py: Runtime)
    ensures var ls := TransLines(nSites, f, py);
      |SplitWs(ls[1])| >= 2 && ParseInt(SplitWs(ls[1])[1]) == Some(|ls| - 5)
  {
    TransLinesSecond(nSites, f, py);
    NumLineCount(nSites);
  }

  lemma TransLinesSecond(nSites: nat, f: Field, py: Runtime)
    ensures |TransLines(nSites, f, py)| == 5 + 4 * nSites && TransLines(nSites, f, py)[1] == NumLine(nSites)
  {
    TransLinesLength(nSites, f, py);
  }

  /**
    A term line reads back, with str.split(), as site, spin, site, spin
    and the two formatted parts of the coefficient, provided the float
    format yields no blanks (true of finite values, which "{:8f}" never pads).
   */
  lemma TermLineFields(site: int, t: Term, py: Runtime)
    requires py.fmt8f(t.re) != [] && NoSpace(py.fmt8f(t.re))
    requires py.fmt8f(t.im) != [] && NoSpace(py.fmt8f(t.im))
    ensures SplitWs(TermLine(site, t, py)) ==
      [IntToDecimal(site), IntToDecimal(t.spin1), IntToDecimal(site), IntToDecimal(t.spin2), py.fmt8f(t.re), py.fmt8f(t.im)]
  {
    var cs := TermCells(site, t, py);
    TermCellsRow(site, t, py);
    SplitWsCells(cs, "\n");
    assert SplitWs("\n") == [] by {
      assert "\n"[1..] == [];
    }
  }

  lemma TermCellsRow(site: int, t: Term, py: Runtime)
    requires py.fmt8f(t.re) != [] && NoSpace(py.fmt8f(t.re))
    requires py.fmt8f(t.im) != [] && NoSpace(py.fmt8f(t.im))
    ensures Row(TermCells(site, t, py))
    ensures Words(TermCells(site, t, py)) ==
      [IntToDecimal(site), IntToDecimal(t.spin1), IntToDecimal(site), IntToDecimal(t.spin2), py.fmt8f(t.re), py.fmt8f(t.im)]
  {
    var s := IntToDecimal(site);
    var a := IntToDecimal(t.spin1);
    var b := IntToDecimal(t.spin2);
    GapBlank(" ", 8 - |s|);
    GapBlank("  ", 8 - |a|);
    GapBlank("   ", 8 - |s|);
    GapBlank("   ", 8 - |b|);
    GapBlank("   ", 0);
    assert "   " + Spaces(0) == "   ";
  }

  /** A gap of blanks followed by padding is blank, and non-empty when the gap is. */
  lemma GapBlank(g: string, m: int)
    requires Blank(g)
    ensures Blank(g + Spaces(m)) && |g + Spaces(m)| >= |g|
  {
    var r := g + Spaces(m);
    forall i | 0 <= i < |r| ensures IsSpace(r[i]) {
      if i >= |g| {
        assert r[i] == Spaces(m)[i - |g|];
      }
    }
  }

  /** mod_trans(H, Nsites, dict_mag): the text written to trans.def. */
  method ModTrans(h: real, nSites: int, dictMag: Dict<real>, py: Runtime) returns (r: Result<string>)
    ensures r == TransText(h, nSites, dictMag, py)
  {
    var field := FieldOf(h, dictMag, py);
    if field.Err? {
      return Err(field.error);
    }
    var patterns := Patterns(field.value);
    var text := WriteHeader(nSites);
    text := WriteSites(text, HeaderLines(nSites), nSites, patterns, py);
    r := Ok(text);
  }

  /** The outer loop of mod_trans: the lines of every site, after the header. */
  method WriteSites(text0: string, ghost header: seq<string>, nSites: int, patterns: seq<Term>, py: Runtime)
    returns (text: string)
    requires text0 == Concat(header)
    ensures text == Concat(header + LinesOf(Rows(if nSites < 0 then 0 else nSites, patterns), py))
  {
    text := text0;
    var n: nat := if nSites < 0 then 0 else nSites;
    assert header + LinesOf(Rows(0, patterns), py) == header;
    for site := 0 to n
      invariant text == Concat(header + LinesOf(Rows(site, patterns), py))
    {
      text := WriteSite(text, header, Rows(site, patterns), site, patterns, py);
    }
  }

  /** The five header lines of trans.def. */
  method WriteHeader(nSites: int) returns (text: string)
    ensures text == Concat(HeaderLines(nSites))
  {
    text := RuleLine;
    text := text + NumLine(nSites);
    text := text + RuleLine + RuleLine + RuleLine;
    ConcatHeader(nSites);
  }

  /** The inner loop of mod_trans: the lines of every term on one site. */
  method WriteSite(text0: string, ghost header: seq<string>, ghost done: seq<(int, Term)>, site: int, ps: seq<Term>, py: Runtime)
    returns (text: string)
    requires text0 == Concat(header + LinesOf(done, py))
    ensures text == Concat(header + LinesOf(done + SiteRows(site, ps, |ps|), py))
  {
    text := text0;
    assert done + SiteRows(site, ps, 0) == done;
    var k := 0;
    while k < |ps|
      invariant 0 <= k <= |ps|
      invariant text == Concat(header + LinesOf(done + SiteRows(site, ps, k), py))
    {
      text := text + TermLine(site, ps[k], py);
      WriteRow(header, done, site, ps, k, py);
      k := k + 1;
    }
  }

  /** Writing term k of a site appends its line to the text. */
  lemma WriteRow(header: seq<string>, done: seq<(int, Term)>, site: int, ps: seq<Term>, k: nat, py: Runtime)
    requires k < |ps|
    ensures Concat(header + LinesOf(done + SiteRows(site, ps, k + 1), py)) ==
      Concat(header + LinesOf(done + SiteRows(site, ps, k), py)) + TermLine(site, ps[k], py)
  {
    var rows := done + SiteRows(site, ps, k);
    var before := header + LinesOf(rows, py);
    assert done + SiteRows(site, ps, k + 1) == rows + [(site, ps[k])];
    LinesOfSnoc(rows, (site, ps[k]), py);
    assert header + (LinesOf(rows, py) + [TermLine(site, ps[k], py)]) == before + [TermLine(site, ps[k], py)];
    ConcatSnoc(before, TermLine(site, ps[k], py));
  }

  lemma LinesOfSnoc(rows: seq<(int, Term)>, r: (int, Term), py: Runtime)
    ensures LinesOf(rows + [r], py) == LinesOf(rows, py) + [TermLine(r.0, r.1, py)]
  {
    assert forall i :: 0 <= i < |rows| ==> (rows + [r])[i] == rows[i];
  }

  lemma ConcatSnoc(ls: seq<string>, l: string)
    ensures Concat(ls + [l]) == Concat(ls) + l
  {
    assert (ls + [l])[..|ls|] == ls;
  }

  lemma ConcatHeader(nSites: int)
    ensures Concat(HeaderLines(nSites)) == RuleLine + NumLine(nSites) + RuleLine + RuleLine + RuleLine
  {
    var hs := HeaderLines(nSites);
    var h4 := [RuleLine, NumLine(nSites), RuleLine, RuleLine];
    var h3 := [RuleLine, NumLine(nSites), RuleLine];
    var h2 := [RuleLine, NumLine(nSites)];
    var h1 := [RuleLine];
    assert hs[..4] == h4 && h4[..3] == h3 && h3[..2] == h2 && h2[..1] == h1 && h1[..0] == [];
    assert Concat(h1) == RuleLine;
    assert Concat(h2) == RuleLine + NumLine(nSites);
    assert Concat(h3) == RuleLine + NumLine(nSites) + RuleLine;
    assert Concat(h4) == RuleLine + NumLine(nSites) + RuleLine + RuleLine;
  }
}
