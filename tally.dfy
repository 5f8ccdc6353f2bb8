/** An insertion-ordered record of sums, the shape of the
    `grouped[key] = (grouped[key] || 0) + amount` loops in the analytics
    reports followed by `Object.entries(grouped)`. */
module Tally {

  /** `keys` lists each key once, in the order it was first added; `sums`
      holds the running sum of each key. */
  datatype Tally = Tally(keys: seq<string>, sums: map<string, int>)

  predicate DistinctKeys(keys: seq<string>)
  {
    forall i, j :: 0 <= i < j < |keys| ==> keys[i] != keys[j]
  }

  predicate WellFormed(t: Tally)
  {
    DistinctKeys(t.keys) && (forall k :: k in t.keys ==> k in t.sums) && (forall k :: k in t.sums ==> k in t.keys)
  }

  /** `grouped[k] = (grouped[k] || 0) + v`: a falsy 0 and a missing key both
      start from 0, and a new key goes to the end of the entry order. */
  function Add(t: Tally, k: string, v: int): (r: Tally)
    requires WellFormed(t)
    ensures WellFormed(r)
    ensures r.sums.Keys == t.sums.Keys + {k}
    ensures r.sums[k] == (if k in t.sums then t.sums[k] else 0) + v
    ensures forall k' :: k' in t.sums && k' != k ==> r.sums[k'] == t.sums[k']
    ensures k in t.sums ==> r.keys == t.keys
    ensures k !in t.sums ==> r.keys == t.keys + [k]
  {
    if k in t.sums then Tally(t.keys, t.sums[k := t.sums[k] + v])
    else Tally(t.keys + [k], t.sums[k := v])
  }

  /** The keys of a list of (key, amount) pairs. */
  function KeysOf(pairs: seq<(string, int)>): (s: set<string>)
    ensures forall i :: 0 <= i < |pairs| ==> pairs[i].0 in s
  {
    if |pairs| == 0 then {} else KeysOf(pairs[..|pairs| - 1]) + {pairs[|pairs| - 1].0}
  }

  /** The sum of the amounts paired with `k`. */
  function SumFor(pairs: seq<(string, int)>, k: string): int
  {
    if |pairs| == 0 then 0
    else SumFor(pairs[..|pairs| - 1], k) + (if pairs[|pairs| - 1].0 == k then pairs[|pairs| - 1].1 else 0)
  }

  /** The sum of all amounts. */
  function SumAll(pairs: seq<(string, int)>): int
  {
    if |pairs| == 0 then 0 else SumAll(pairs[..|pairs| - 1]) + pairs[|pairs| - 1].1
  }

  /** The tally the loop builds from the pairs, one `Add` per pair in order. */
  function TallyOf(pairs: seq<(string, int)>): (t: Tally)
    ensures WellFormed(t)
    ensures t.sums.Keys == KeysOf(pairs)
  {
    if |pairs| == 0 then Tally([], map[])
    else
      var last := pairs[|pairs| - 1];
      Add(TallyOf(pairs[..|pairs| - 1]), last.0, last.1)
  }

  /** The index of the first pair carrying `k`. */
  function FirstIndex(pairs: seq<(string, int)>, k: string): (n: nat)
    requires k in KeysOf(pairs)
    ensures n < |pairs| && pairs[n].0 == k
    ensures forall m :: 0 <= m < n ==> pairs[m].0 != k
  {
    var init := pairs[..|pairs| - 1];
    if k in KeysOf(init) then FirstIndex(init, k)
    else
      assert forall m :: 0 <= m < |init| ==> init[m] == pairs[m];
      |pairs| - 1
  }

  /** The tally lists its keys in the order of their first pair: a key
      first seen earlier comes earlier. */
  lemma {:induction false} KeysFirstSeen(pairs: seq<(string, int)>)
    ensures forall k :: k in TallyOf(pairs).keys ==> k in KeysOf(pairs)
    ensures forall i, j :: 0 <= i < j < |TallyOf(pairs).keys| ==>
      FirstIndex(pairs, TallyOf(pairs).keys[i]) < FirstIndex(pairs, TallyOf(pairs).keys[j])
  {
    if |pairs| > 0 {
      var init := pairs[..|pairs| - 1];
      var p := pairs[|pairs| - 1];
      KeysFirstSeen(init);
      var t0 := TallyOf(init);
      var t := TallyOf(pairs);
      assert t == Add(t0, p.0, p.1);
      forall k | k in t0.keys
        ensures k in KeysOf(init) && FirstIndex(pairs, k) == FirstIndex(init, k) < |init|
      {
      }
      if p.0 !in t0.sums {
        assert t.keys == t0.keys + [p.0];
        assert FirstIndex(pairs, p.0) == |init|;
      }
    }
  }

  /** Extending the pairs by one is one more `Add`. */
  lemma TallyOfSnoc(pairs: seq<(string, int)>, p: (string, int))
    ensures TallyOf(pairs + [p]) == Add(TallyOf(pairs), p.0, p.1)
    ensures KeysOf(pairs + [p]) == KeysOf(pairs) + {p.0}
    ensures SumFor(pairs + [p], p.0) == SumFor(pairs, p.0) + p.1
    ensures SumAll(pairs + [p]) == SumAll(pairs) + p.1
  {
    assert (pairs + [p])[..|pairs|] == pairs;
  }

  /** The sum kept for each key is the sum of that key's amounts. */
  lemma {:induction false} TallySums(pairs: seq<(string, int)>, k: string)
    requires k in KeysOf(pairs)
    ensures TallyOf(pairs).sums[k] == SumFor(pairs, k)
  {
    var n := |pairs| - 1;
    var init := pairs[..n];
    if k in KeysOf(init) {
      TallySums(init, k);
    } else {
      SumForAbsent(init, k);
    }
  }

  lemma {:induction false} SumForAbsent(pairs: seq<(string, int)>, k: string)
    requires k !in KeysOf(pairs)
    ensures SumFor(pairs, k) == 0
  {
    if |pairs| > 0 {
      SumForAbsent(pairs[..|pairs| - 1], k);
    }
  }

  /** A key that is paired only with positive amounts has a positive sum,
      so no entry of a count is 0. */
  lemma {:induction false} SumForPositive(pairs: seq<(string, int)>, k: string)
    requires k in KeysOf(pairs)
    requires forall i :: 0 <= i < |pairs| ==> pairs[i].1 >= 1
    ensures SumFor(pairs, k) >= 1
  {
    var init := pairs[..|pairs| - 1];
    if k in KeysOf(init) {
      SumForPositive(init, k);
    } else {
      SumForNonNegative(init, k);
    }
  }

  lemma {:induction false} SumForNonNegative(pairs: seq<(string, int)>, k: string)
    requires forall i :: 0 <= i < |pairs| ==> pairs[i].1 >= 0
    ensures SumFor(pairs, k) >= 0
  {
    if |pairs| > 0 {
      SumForNonNegative(pairs[..|pairs| - 1], k);
    }
  }

  /** The sum of the sums of the listed keys. */
  function SumOver(keys: seq<string>, sums: map<string, int>): int
    requires forall i :: 0 <= i < |keys| ==> keys[i] in sums
  {
    if |keys| == 0 then 0 else SumOver(keys[..|keys| - 1], sums) + sums[keys[|keys| - 1]]
  }

  /** Raising one listed key's sum raises the total by the same amount. */
  lemma {:induction false} SumOverBump(keys: seq<string>, sums: map<string, int>, k: string, v: int)
    requires DistinctKeys(keys) && k in keys
    requires forall i :: 0 <= i < |keys| ==> keys[i] in sums
    ensures forall i :: 0 <= i < |keys| ==> keys[i] in sums[k := sums[k] + v]
    ensures SumOver(keys, sums[k := sums[k] + v]) == SumOver(keys, sums) + v
  {
    var n := |keys| - 1;
    var init := keys[..n];
    if keys[n] == k {
      assert k !in init;
      SumOverUnchanged(init, sums, k, sums[k] + v);
    } else {
      assert k in init;
      SumOverBump(init, sums, k, v);
    }
  }

  /** Changing the sum of an unlisted key leaves the total alone. */
  lemma {:induction false} SumOverUnchanged(keys: seq<string>, sums: map<string, int>, k: string, v: int)
    requires k !in keys
    requires forall i :: 0 <= i < |keys| ==> keys[i] in sums
    ensures forall i :: 0 <= i < |keys| ==> keys[i] in sums[k := v]
    ensures SumOver(keys, sums[k := v]) == SumOver(keys, sums)
  {
    if |keys| > 0 {
      SumOverUnchanged(keys[..|keys| - 1], sums, k, v);
    }
  }

  /** One `Add` raises the total of the entry sums by its amount. */
  lemma {:induction false} AddTotal(t: Tally, k: string, v: int)
    requires WellFormed(t)
    ensures SumOver(Add(t, k, v).keys, Add(t, k, v).sums) == SumOver(t.keys, t.sums) + v
  {
    var r := Add(t, k, v);
    if k in t.sums {
      AddOldTotal(t, k, v);
    } else {
      assert r == Tally(t.keys + [k], t.sums[k := v]);
      AddNewTotal(t.keys, t.sums, k, v);
    }
  }

  lemma AddOldTotal(t: Tally, k: string, v: int)
    requires WellFormed(t) && k in t.sums
    ensures SumOver(Add(t, k, v).keys, Add(t, k, v).sums) == SumOver(t.keys, t.sums) + v
  {
    assert Add(t, k, v) == Tally(t.keys, t.sums[k := t.sums[k] + v]);
    SumOverBump(t.keys, t.sums, k, v);
  }

  lemma AddNewTotal(keys: seq<string>, sums: map<string, int>, k: string, v: int)
    requires k !in keys
    requires forall i :: 0 <= i < |keys| ==> keys[i] in sums
    ensures forall i :: 0 <= i < |keys + [k]| ==> (keys + [k])[i] in sums[k := v]
    ensures SumOver(keys + [k], sums[k := v]) == SumOver(keys, sums) + v
  {
    SumOverUnchanged(keys, sums, k, v);
    assert (keys + [k])[..|keys|] == keys;
  }

  /** The entry sums add up to the sum of all amounts: grouping loses and
      invents nothing. */
  lemma {:induction false} TallyTotal(pairs: seq<(string, int)>)
    ensures SumOver(TallyOf(pairs).keys, TallyOf(pairs).sums) == SumAll(pairs)
  {
    if |pairs| > 0 {
      var init := pairs[..|pairs| - 1];
      var p := pairs[|pairs| - 1];
      TallyTotal(init);
      AddTotal(TallyOf(init), p.0, p.1);
    }
  }

  /** The (key, sum) pairs of the listed keys, in order. */
  function EntriesOf(keys: seq<string>, sums: map<string, int>): (r: seq<(string, int)>)
    requires forall i :: 0 <= i < |keys| ==> keys[i] in sums
    ensures |r| == |keys|
    ensures forall i :: 0 <= i < |r| ==> r[i] == (keys[i], sums[keys[i]])
    ensures SumAll(r) == SumOver(keys, sums)
  {
    if |keys| == 0 then []
    else
      var init := EntriesOf(keys[..|keys| - 1], sums);
      var r := init + [(keys[|keys| - 1], sums[keys[|keys| - 1]])];
      assert r[..|r| - 1] == init;
      r
  }

  /** `Object.entries(grouped)`: the (key, sum) pairs in key order. */
  function Entries(t: Tally): (r: seq<(string, int)>)
    requires WellFormed(t)
  {
    EntriesOf(t.keys, t.sums)
  }

  /** A key has an entry exactly when some pair carries it. */
  lemma EntriesCover(pairs: seq<(string, int)>, k: string)
    ensures k in KeysOf(pairs) ==> exists i :: 0 <= i < |Entries(TallyOf(pairs))| && Entries(TallyOf(pairs))[i].0 == k
    ensures (exists i :: 0 <= i < |Entries(TallyOf(pairs))| && Entries(TallyOf(pairs))[i].0 == k) ==> k in KeysOf(pairs)
  {
    var t := TallyOf(pairs);
    var e := Entries(t);
    assert k in KeysOf(pairs) <==> k in t.keys;
    forall i | 0 <= i < |e| ensures e[i].0 == t.keys[i] {
    }
    if k in t.keys {
      var i :| 0 <= i < |t.keys| && t.keys[i] == k;
      assert e[i].0 == k;
    }
  }

  /** One entry per distinct key. */
  lemma EntriesDistinct(pairs: seq<(string, int)>)
    ensures forall i, j :: 0 <= i < j < |Entries(TallyOf(pairs))| ==> Entries(TallyOf(pairs))[i].0 != Entries(TallyOf(pairs))[j].0
  {
    var t := TallyOf(pairs);
    var e := Entries(t);
    forall i, j | 0 <= i < j < |e| ensures e[i].0 != e[j].0 {
      assert e[i].0 == t.keys[i] && e[j].0 == t.keys[j];
    }
  }

  /** `Object.entries` lists the keys in the order they were first seen:
      an earlier entry's key first occurs earlier in the pairs. */
  lemma EntriesFirstSeen(pairs: seq<(string, int)>)
    ensures forall i, j :: 0 <= i < j < |Entries(TallyOf(pairs))| ==>
      && Entries(TallyOf(pairs))[i].0 in KeysOf(pairs)
      && Entries(TallyOf(pairs))[j].0 in KeysOf(pairs)
      && FirstIndex(pairs, Entries(TallyOf(pairs))[i].0) < FirstIndex(pairs, Entries(TallyOf(pairs))[j].0)
  {
    var t := TallyOf(pairs);
    var e := Entries(t);
    KeysFirstSeen(pairs);
    forall i, j | 0 <= i < j < |e|
      ensures e[i].0 in KeysOf(pairs) && e[j].0 in KeysOf(pairs)
      ensures FirstIndex(pairs, e[i].0) < FirstIndex(pairs, e[j].0)
    {
      assert e[i].0 == t.keys[i] && e[j].0 == t.keys[j];
    }
  }

  /** Each entry holds the sum of its key's amounts. */
  lemma EntriesSums(pairs: seq<(string, int)>)
    ensures forall i :: 0 <= i < |Entries(TallyOf(pairs))| ==> Entries(TallyOf(pairs))[i].1 == SumFor(pairs, Entries(TallyOf(pairs))[i].0)
  {
    var t := TallyOf(pairs);
    var e := Entries(t);
    forall i | 0 <= i < |e| ensures e[i].1 == SumFor(pairs, e[i].0) {
      assert e[i] == (t.keys[i], t.sums[t.keys[i]]);
      TallySums(pairs, t.keys[i]);
    }
  }

  /** The entry sums add up to the sum of all amounts. */
  lemma EntriesTotal(pairs: seq<(string, int)>)
    ensures SumAll(Entries(TallyOf(pairs))) == SumAll(pairs)
  {
    TallyTotal(pairs);
  }
}
