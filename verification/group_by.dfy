/** The group-by-and-sum fold that every allocation breakdown performs: walk a
    list of (key, amount) entries, and for each one create the key's bucket in a
    dictionary if it is missing (or falsy) and add the amount to it. The
    dictionary is a JavaScript object, so its keys come back from `Object.keys`
    in the order they were first inserted. */
module GroupBy {

  /** Dictionary keys: JavaScript object keys are strings. */
  type Key = string

  predicate Distinct(ks: seq<Key>)
  {
    forall i, j :: 0 <= i < j < |ks| ==> ks[i] != ks[j]
  }

  /** The keys of the entries, in entry order (with repetitions). */
  function Keys(es: seq<(Key, real)>): (ks: seq<Key>)
    ensures |ks| == |es|
    ensures forall i :: 0 <= i < |es| ==> ks[i] == es[i].0
  {
    seq(|es|, i requires 0 <= i < |es| => es[i].0)
  }

  /** Each key once, in order of first occurrence. */
  function FirstOccurrences(ks: seq<Key>): (r: seq<Key>)
    ensures forall k :: k in r <==> k in ks
    ensures Distinct(r)
    ensures |r| <= |ks|
  {
    if ks == [] then []
    else
      var last := ks[|ks| - 1];
      var r0 := FirstOccurrences(ks[..|ks| - 1]);
      assert ks == ks[..|ks| - 1] + [last];
      if last in r0 then r0 else r0 + [last]
  }

  /** The amount accumulated under key `k`. */
  function KeyTotal(es: seq<(Key, real)>, k: Key): real
  {
    if es == [] then 0.0
    else KeyTotal(es[..|es| - 1], k) + (if es[|es| - 1].0 == k then es[|es| - 1].1 else 0.0)
  }

  /** The amount of all entries together. */
  function Total(es: seq<(Key, real)>): real
  {
    if es == [] then 0.0 else Total(es[..|es| - 1]) + es[|es| - 1].1
  }

  /** The sum of the buckets named by `keys`. */
  function TotalsOver(keys: seq<Key>, es: seq<(Key, real)>): real
  {
    if keys == [] then 0.0 else TotalsOver(keys[..|keys| - 1], es) + KeyTotal(es, keys[|keys| - 1])
  }

  /** `keys` and `totals` are the dictionary after the entries `es`: its keys
      in insertion order and its contents. */
  ghost predicate Filled(es: seq<(Key, real)>, keys: seq<Key>, totals: map<Key, real>)
  {
    && keys == FirstOccurrences(Keys(es))
    && (forall k :: k in totals <==> k in keys)
    && (forall k :: k in totals ==> totals[k] == KeyTotal(es, k))
  }

  /** The forEach loop that fills the dictionary. `keys` is the dictionary's key
      order and `totals` its contents. */
  method Accumulate(es: seq<(Key, real)>) returns (keys: seq<Key>, totals: map<Key, real>)
    ensures keys == FirstOccurrences(Keys(es))
    ensures forall k :: k in totals <==> k in keys
    ensures forall k :: k in totals ==> totals[k] == KeyTotal(es, k)
  {
    keys, totals := [], map[];
    for i := 0 to |es|
      invariant Filled(es[..i], keys, totals)
    {
      var k, amount := es[i].0, es[i].1;
      ghost var keys0, totals0 := keys, totals;
      if k !in totals {
        keys := keys + [k];
      }
      if k !in totals || totals[k] == 0.0 {
        totals := totals[k := 0.0];
      }
      totals := totals[k := totals[k] + amount];
      AddEntry(es, i, keys0, totals0, keys, totals);
    }
    assert es[..|es|] == es;
  }

  /** One iteration of the loop: the new key goes to the end of the key order
      and the entry's amount to its bucket, which starts at 0. */
  lemma AddEntry(es: seq<(Key, real)>, i: nat, keys: seq<Key>, totals: map<Key, real>,
                 keys': seq<Key>, totals': map<Key, real>)
    requires i < |es| && Filled(es[..i], keys, totals)
    requires keys' == if es[i].0 in totals then keys else keys + [es[i].0]
    requires totals' == totals[es[i].0 := (if es[i].0 in totals then totals[es[i].0] else 0.0) + es[i].1]
    ensures Filled(es[..i + 1], keys', totals')
  {
    PrefixKeys(es, i);
    AddEntryBuckets(es, i, keys, totals, totals');
  }

  lemma AddEntryBuckets(es: seq<(Key, real)>, i: nat, keys: seq<Key>, totals: map<Key, real>, totals': map<Key, real>)
    requires i < |es| && Filled(es[..i], keys, totals)
    requires totals' == totals[es[i].0 := (if es[i].0 in totals then totals[es[i].0] else 0.0) + es[i].1]
    ensures forall k' :: k' in totals' ==> totals'[k'] == KeyTotal(es[..i + 1], k')
  {
    var k := es[i].0;
    PrefixTotals(es, i);
    forall k' | k' in totals' ensures totals'[k'] == KeyTotal(es[..i + 1], k') {
      if k' == k {
        if k !in totals {
          KeyTotalOfAbsentKey(es[..i], k);
        }
      } else {
        assert totals'[k'] == totals[k'];
      }
    }
  }

  /** What one more entry does to the key order. */
  lemma PrefixKeys(es: seq<(Key, real)>, i: nat)
    requires i < |es|
    ensures FirstOccurrences(Keys(es[..i + 1])) ==
      var d := FirstOccurrences(Keys(es[..i])); if es[i].0 in d then d else d + [es[i].0]
  {
    assert Keys(es[..i + 1])[..i] == Keys(es[..i]);
  }

  /** What one more entry does to every bucket. */
  lemma PrefixTotals(es: seq<(Key, real)>, i: nat)
    requires i < |es|
    ensures forall k :: KeyTotal(es[..i + 1], k) == KeyTotal(es[..i], k) + (if es[i].0 == k then es[i].1 else 0.0)
  {
    assert es[..i + 1][..i] == es[..i];
  }

  lemma {:induction false} KeyTotalOfAbsentKey(es: seq<(Key, real)>, k: Key)
    requires k !in Keys(es)
    ensures KeyTotal(es, k) == 0.0
  {
    if es != [] {
      var p := es[..|es| - 1];
      assert Keys(p) == Keys(es)[..|es| - 1];
      KeyTotalOfAbsentKey(p, k);
    }
  }

  /** Adding one entry adds its amount to the buckets named by `keys` exactly
      when its key is one of them (each key named once). */
  lemma {:induction false} TotalsOverSnoc(keys: seq<Key>, p: seq<(Key, real)>, e: (Key, real))
    requires Distinct(keys)
    ensures TotalsOver(keys, p + [e]) == TotalsOver(keys, p) + (if e.0 in keys then e.1 else 0.0)
  {
    if keys != [] {
      var init := keys[..|keys| - 1];
      var last := keys[|keys| - 1];
      assert keys == init + [last];
      TotalsOverSnoc(init, p, e);
      assert (p + [e])[..|p + [e]| - 1] == p;
      assert KeyTotal(p + [e], last) == KeyTotal(p, last) + (if e.0 == last then e.1 else 0.0);
      assert e.0 in keys <==> e.0 in init || e.0 == last;
      assert e.0 in init ==> e.0 != last;
    }
  }

  /** The buckets partition the entries: summing every bucket once gives the
      total of all entries. */
  lemma {:induction false} BucketsPartitionTotal(es: seq<(Key, real)>)
    ensures TotalsOver(FirstOccurrences(Keys(es)), es) == Total(es)
  {
    if es != [] {
      var p := es[..|es| - 1];
      var e := es[|es| - 1];
      assert es == p + [e];
      var ks := Keys(es);
      assert ks[..|ks| - 1] == Keys(p);
      var dp := FirstOccurrences(Keys(p));
      assert FirstOccurrences(ks) == if e.0 in dp then dp else dp + [e.0];
      assert Total(es) == Total(p) + e.1;
      BucketsPartitionTotal(p);
      TotalsOverSnoc(dp, p, e);
      if e.0 !in dp {
        AbsentKeyStep(dp, p, e);
      }
    }
  }

  /** A key met for the first time opens a bucket holding just its amount. */
  lemma AbsentKeyStep(dp: seq<Key>, p: seq<(Key, real)>, e: (Key, real))
    requires e.0 !in Keys(p)
    ensures TotalsOver(dp + [e.0], p + [e]) == TotalsOver(dp, p + [e]) + e.1
  {
    var d := dp + [e.0];
    assert d[..|d| - 1] == dp;
    KeyTotalOfAbsentKey(p, e.0);
    var q := p + [e];
    assert q[..|q| - 1] == p;
  }
}
