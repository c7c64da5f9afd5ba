/**
  Python's insertion-ordered `dict` with string keys: assigning to a present
  key keeps its position, assigning to a new key appends it, `del` removes it.
 */
module OrderedDict {
  import opened Wrappers

  type Dict<V> = seq<(string, V)>

  function Keys<V>(d: Dict<V>): (ks: seq<string>)
    ensures |ks| == |d| && forall i :: 0 <= i < |d| ==> ks[i] == d[i].0
  {
    seq(|d|, i requires 0 <= i < |d| => d[i].0)
  }

  /** No key occurs twice, as in every Python dict. */
  ghost predicate UniqueKeys<V>(d: Dict<V>) {
    forall i, j :: 0 <= i < j < |d| ==> d[i].0 != d[j].0
  }

  /** The position of `k`, if present. */
  function Find<V>(d: Dict<V>, k: string): (r: Option<nat>)
    ensures r.Some? ==> r.value < |d| && d[r.value].0 == k
    ensures r.None? <==> k !in Keys(d)
    ensures r.Some? ==> forall j :: 0 <= j < r.value ==> d[j].0 != k
  {
    if d == [] then None
    else if d[0].0 == k then Some(0)
    else match Find(d[1..], k)
      case None => None
      case Some(i) => Some(i + 1)
  }

  /** d.get(k): the value under `k`, if present. */
  function Get<V>(d: Dict<V>, k: string): Option<V> {
    match Find(d, k)
    case None => None
    case Some(i) => Some(d[i].1)
  }

  /** d[k] = v. */
  function Set<V>(d: Dict<V>, k: string, v: V): Dict<V> {
    match Find(d, k)
    case None => d + [(k, v)]
    case Some(i) => d[i := (k, v)]
  }

  /** del d[k] (nothing happens when `k` is absent). */
  function Remove<V>(d: Dict<V>, k: string): Dict<V> {
    match Find(d, k)
    case None => d
    case Some(i) => d[..i] + d[i + 1..]
  }

  /** for k, v in e.items(): d[k] = v */
  function Update<V>(d: Dict<V>, e: Dict<V>): Dict<V>
    decreases |e|
  {
    if e == [] then d else Update(Set(d, e[0].0, e[0].1), e[1..])
  }

  /** for k in ks: if k in d: del d[k] */
  function RemoveKeys<V>(d: Dict<V>, ks: seq<string>): Dict<V>
    decreases |ks|
  {
    if ks == [] then d else RemoveKeys(Remove(d, ks[0]), ks[1..])
  }

  // ---------------------------------------------------------------------
  // Facts about single operations
  // ---------------------------------------------------------------------

  lemma GetUnique<V>(d: Dict<V>, i: nat)
    requires UniqueKeys(d) && i < |d|
    ensures Get(d, d[i].0) == Some(d[i].1)
  {
  }

  lemma SetFacts<V>(d: Dict<V>, k: string, v: V)
    requires UniqueKeys(d)
    ensures UniqueKeys(Set(d, k, v))
    ensures Get(Set(d, k, v), k) == Some(v)
    ensures forall k' :: k' != k ==> Get(Set(d, k, v), k') == Get(d, k')
    ensures Keys(Set(d, k, v)) == if k in Keys(d) then Keys(d) else Keys(d) + [k]
  {
    SetKeys(d, k, v);
    SetGetOther(d, k, v);
  }

  /** An assignment changes no key but the assigned one, which it adds when new. */
  lemma SetKeys<V>(d: Dict<V>, k: string, v: V)
    requires UniqueKeys(d)
    ensures Keys(Set(d, k, v)) == if k in Keys(d) then Keys(d) else Keys(d) + [k]
    ensures UniqueKeys(Set(d, k, v))
    ensures Get(Set(d, k, v), k) == Some(v)
  {
    var r := Set(d, k, v);
    assert Keys(r) == if k in Keys(d) then Keys(d) else Keys(d) + [k];
  }

  /** An assignment leaves every other key's value alone. */
  lemma SetGetOther<V>(d: Dict<V>, k: string, v: V)
    ensures forall k' :: k' != k ==> Get(Set(d, k, v), k') == Get(d, k')
  {
    forall k' | k' != k ensures Get(Set(d, k, v), k') == Get(d, k') {
      SetFindOther(d, k, v, k');
    }
  }

  lemma SetFindOther<V>(d: Dict<V>, k: string, v: V, k': string)
    requires k' != k
    ensures Find(Set(d, k, v), k') == Find(d, k')
  {
    var r := Set(d, k, v);
    assert |r| >= |d| && forall m :: 0 <= m < |d| && d[m].0 != k ==> r[m] == d[m];
    assert forall m :: 0 <= m < |r| ==> r[m] == (k, v) || (m < |d| && r[m] == d[m]);
    match Find(d, k')
    case None =>
      assert forall m :: 0 <= m < |r| ==> Keys(r)[m] != k';
    case Some(j) =>
      FindIs(r, k', j);
  }

  /** The first position holding `k` is what Find reports. */
  lemma FindIs<V>(d: Dict<V>, k: string, j: nat)
    requires j < |d| && d[j].0 == k && forall m :: 0 <= m < j ==> d[m].0 != k
    ensures Find(d, k) == Some(j)
  {
    assert Keys(d)[j] == k;
  }

  /** Assigning the same key twice leaves only the second value, in the first one's place. */
  lemma SetTwice<V>(d: Dict<V>, k: string, a: V, b: V)
    ensures Set(Set(d, k, a), k, b) == Set(d, k, b)
  {
    match Find(d, k)
    case None => FindAppended(d, k, a);
    case Some(i) => FindReplaced(d, i, k, a);
  }

  lemma FindAppended<V>(d: Dict<V>, k: string, v: V)
    requires k !in Keys(d)
    ensures Find(d + [(k, v)], k) == Some(|d|)
  {
    var e := d + [(k, v)];
    assert Keys(e)[|d|] == k;
    assert Find(e, k).value == |d|;
  }

  lemma FindReplaced<V>(d: Dict<V>, i: nat, k: string, v: V)
    requires Find(d, k) == Some(i)
    ensures Find(d[i := (k, v)], k) == Some(i)
  {
    var e := d[i := (k, v)];
    assert Keys(e)[i] == k;
    assert Find(e, k).value <= i;
  }

  /** Dropping the entry at `i` leaves the others, shifted down by one past `i`. */
  lemma DropAt<V>(d: Dict<V>, i: nat)
    requires UniqueKeys(d) && i < |d|
    ensures var r := d[..i] + d[i + 1..];
      |r| == |d| - 1 && UniqueKeys(r) &&
      (forall m :: 0 <= m < |r| ==> r[m] == if m < i then d[m] else d[m + 1])
  {
    var r := d[..i] + d[i + 1..];
    assert forall m :: 0 <= m < |r| ==> r[m] == if m < i then d[m] else d[m + 1];
  }

  lemma RemoveMembers<V>(d: Dict<V>, i: nat, k': string)
    requires UniqueKeys(d) && i < |d|
    ensures k' in Keys(d[..i] + d[i + 1..]) <==> k' in Keys(d) && k' != d[i].0
  {
    var r := d[..i] + d[i + 1..];
    DropAt(d, i);
    if k' in Keys(r) {
      var m :| 0 <= m < |r| && r[m].0 == k';
      assert k' == (if m < i then d[m] else d[m + 1]).0;
    }
    if k' in Keys(d) && k' != d[i].0 {
      var j :| 0 <= j < |d| && d[j].0 == k';
      if j < i { assert r[j].0 == k'; } else { assert r[j - 1].0 == k'; }
    }
  }

  lemma RemoveGetOther<V>(d: Dict<V>, i: nat, k': string)
    requires UniqueKeys(d) && i < |d| && k' != d[i].0
    ensures Get(d[..i] + d[i + 1..], k') == Get(d, k')
  {
    var r := d[..i] + d[i + 1..];
    DropAt(d, i);
    RemoveMembers(d, i, k');
    if k' in Keys(d) {
      var j :| 0 <= j < |d| && d[j].0 == k';
      GetUnique(d, j);
      var m := if j < i then j else j - 1;
      assert r[m] == d[j];
      GetUnique(r, m);
    }
  }

  lemma RemoveFacts<V>(d: Dict<V>, k: string)
    requires UniqueKeys(d)
    ensures UniqueKeys(Remove(d, k))
    ensures Get(Remove(d, k), k) == None
    ensures forall k' :: k' != k ==> Get(Remove(d, k), k') == Get(d, k')
    ensures forall k' :: k' in Keys(Remove(d, k)) <==> k' in Keys(d) && k' != k
  {
    match Find(d, k)
    case None =>
    case Some(i) =>
      DropAt(d, i);
      forall k' ensures k' in Keys(Remove(d, k)) <==> k' in Keys(d) && k' != k {
        RemoveMembers(d, i, k');
      }
      forall k' | k' != k ensures Get(Remove(d, k), k') == Get(d, k') {
        RemoveGetOther(d, i, k');
      }
  }

  // ---------------------------------------------------------------------
  // Facts about Update (the dict.update / _change_input loop)
  // ---------------------------------------------------------------------

  /** After the update, a key has the new value if the update names it, else the old one. */
  lemma {:induction false} UpdateGet<V>(d: Dict<V>, e: Dict<V>, k: string)
    requires UniqueKeys(d) && UniqueKeys(e)
    ensures UniqueKeys(Update(d, e))
    ensures Get(Update(d, e), k) == if k in Keys(e) then Get(e, k) else Get(d, k)
    decreases |e|
  {
    if e != [] {
      var d1 := Set(d, e[0].0, e[0].1);
      var t := e[1..];
      SetKeys(d, e[0].0, e[0].1);
      SetGetOther(d, e[0].0, e[0].1);
      assert UniqueKeys(t);
      UpdateGet(d1, t, k);
      assert Update(d, e) == Update(d1, t);
      GetHead(e, k);
    }
  }

  /** The first entry answers for its own key; the rest answer for every other key. */
  lemma GetHead<V>(e: Dict<V>, k: string)
    requires UniqueKeys(e) && e != []
    ensures k in Keys(e) <==> k == e[0].0 || k in Keys(e[1..])
    ensures k == e[0].0 ==> Get(e, k) == Some(e[0].1) && k !in Keys(e[1..])
    ensures k != e[0].0 ==> Get(e, k) == Get(e[1..], k)
  {
    var t := e[1..];
    assert Keys(e) == [e[0].0] + Keys(t);
    if k == e[0].0 {
      forall j | 0 <= j < |t| ensures t[j].0 != k {
        assert t[j] == e[j + 1];
      }
    } else {
      assert Find(e, k) == match Find(t, k) case None => None case Some(i) => Some(i + 1);
    }
  }

  /** One assignment keeps the existing keys in place and adds at most the assigned one. */
  lemma SetOrder<V>(d: Dict<V>, k: string, v: V)
    ensures |Set(d, k, v)| >= |d|
    ensures Keys(Set(d, k, v))[..|d|] == Keys(d)
    ensures forall k' :: k' in Keys(Set(d, k, v)) <==> k' in Keys(d) || k' == k
  {
    var r := Set(d, k, v);
    assert Keys(r)[..|d|] == Keys(d);
    match Find(d, k)
    case None => assert Keys(r)[|d|] == k;
    case Some(i) => assert Keys(r)[i] == k;
  }

  /** Keys already present keep their positions; new keys are appended in the update's order. */
  lemma {:induction false} UpdateOrder<V>(d: Dict<V>, e: Dict<V>)
    ensures |Update(d, e)| >= |d|
    ensures Keys(Update(d, e))[..|d|] == Keys(d)
    ensures forall k :: k in Keys(Update(d, e)) <==> k in Keys(d) || k in Keys(e)
    decreases |e|
  {
    if e != [] {
      var d1 := Set(d, e[0].0, e[0].1);
      SetOrder(d, e[0].0, e[0].1);
      UpdateOrder(d1, e[1..]);
      var u := Update(d1, e[1..]);
      assert Keys(u)[..|d|] == Keys(u)[..|d1|][..|d|];
      assert Keys(e) == [e[0].0] + Keys(e[1..]);
    }
  }

  /** The value of the last entry under `k` in a list of assignments, if any. */
  function LastGet<V>(e: Dict<V>, k: string): (r: Option<V>)
    ensures r.Some? <==> k in Keys(e)
  {
    if e == [] then None
    else match LastGet(e[1..], k)
      case Some(v) => Some(v)
      case None =>
        assert Keys(e) == [e[0].0] + Keys(e[1..]);
        if e[0].0 == k then Some(e[0].1) else None
  }

  /** After an update, a key holds the last value the update assigns it, or its old value. */
  lemma {:induction false} UpdateLast<V>(d: Dict<V>, e: Dict<V>, k: string)
    requires UniqueKeys(d)
    ensures UniqueKeys(Update(d, e))
    ensures Get(Update(d, e), k) == if LastGet(e, k).Some? then LastGet(e, k) else Get(d, k)
    decreases |e|
  {
    if e != [] {
      SetFacts(d, e[0].0, e[0].1);
      UpdateLast(Set(d, e[0].0, e[0].1), e[1..], k);
    }
  }

  /** An update with two assignments is the two assignments in order. */
  lemma UpdatePair<V>(d: Dict<V>, e: Dict<V>)
    requires |e| == 2
    ensures Update(d, e) == Set(Set(d, e[0].0, e[0].1), e[1].0, e[1].1)
  {
    var d1 := Set(d, e[0].0, e[0].1);
    var d2 := Set(d1, e[1].0, e[1].1);
    assert e[1..][0] == e[1] && e[1..][1..] == [];
    assert Update(d, e) == Update(d1, e[1..]);
    assert Update(d1, e[1..]) == Update(d2, []);
  }

  /** An update with three assignments is the three assignments in order. */
  lemma UpdateTriple<V>(d: Dict<V>, e: Dict<V>)
    requires |e| == 3
    ensures Update(d, e) == Set(Set(Set(d, e[0].0, e[0].1), e[1].0, e[1].1), e[2].0, e[2].1)
  {
    var d1 := Set(d, e[0].0, e[0].1);
    assert Update(d, e) == Update(d1, e[1..]);
    UpdatePair(d1, e[1..]);
  }

  /** Two updates in a row are one update with the assignments of both. */
  lemma {:induction false} UpdateAppend<V>(d: Dict<V>, e1: Dict<V>, e2: Dict<V>)
    ensures Update(d, e1 + e2) == Update(Update(d, e1), e2)
    decreases |e1|
  {
    if e1 == [] {
      assert e1 + e2 == e2;
    } else {
      assert (e1 + e2)[0] == e1[0] && (e1 + e2)[1..] == e1[1..] + e2;
      UpdateAppend(Set(d, e1[0].0, e1[0].1), e1[1..], e2);
    }
  }

  // ---------------------------------------------------------------------
  // Facts about RemoveKeys (the delete_input loop)
  // ---------------------------------------------------------------------

  lemma {:induction false} RemoveKeysGet<V>(d: Dict<V>, ks: seq<string>, k: string)
    requires UniqueKeys(d)
    ensures UniqueKeys(RemoveKeys(d, ks))
    ensures Get(RemoveKeys(d, ks), k) == if k in ks then None else Get(d, k)
    decreases |ks|
  {
    if ks != [] {
      RemoveFacts(d, ks[0]);
      RemoveKeysGet(Remove(d, ks[0]), ks[1..], k);
      assert ks == [ks[0]] + ks[1..];
    }
  }

  /** Removing one more key at the end of the list. */
  lemma {:induction false} RemoveKeysSnoc<V>(d: Dict<V>, ks: seq<string>, k: string)
    ensures RemoveKeys(d, ks + [k]) == Remove(RemoveKeys(d, ks), k)
    decreases |ks|
  {
    if ks == [] {
      assert RemoveKeys(d, [k]) == RemoveKeys(Remove(d, k), []);
    } else {
      assert (ks + [k])[1..] == ks[1..] + [k];
      RemoveKeysSnoc(Remove(d, ks[0]), ks[1..], k);
    }
  }

  /** Removing a key keeps only entries that were there, and none under that key. */
  lemma RemoveSubset<V>(d: Dict<V>, k: string)
    requires UniqueKeys(d)
    ensures forall x :: x in Remove(d, k) ==> x in d && x.0 != k
  {
    match Find(d, k)
    case None =>
      assert forall x :: x in d ==> x.0 in Keys(d);
    case Some(i) =>
      DropAt(d, i);
      RemoveFacts(d, k);
      forall x | x in Remove(d, k) ensures x in d && x.0 != k {
        var r := Remove(d, k);
        var m :| 0 <= m < |r| && r[m] == x;
        assert x == if m < i then d[m] else d[m + 1];
        assert x.0 in Keys(r);
      }
  }

  /** Removing keys keeps only entries that were there, and none under a removed key. */
  lemma {:induction false} RemoveKeysOrder<V>(d: Dict<V>, ks: seq<string>)
    requires UniqueKeys(d)
    ensures forall x :: x in RemoveKeys(d, ks) ==> x in d && x.0 !in ks
    decreases |ks|
  {
    if ks != [] {
      RemoveSubset(d, ks[0]);
      RemoveFacts(d, ks[0]);
      RemoveKeysOrder(Remove(d, ks[0]), ks[1..]);
      assert ks == [ks[0]] + ks[1..];
    }
  }
}
