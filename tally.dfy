/**
 * The counting dictionaries the pages and cloud functions build with
 * `counts[k] = (counts[k] || 0) + 1`: the keys in the order they were
 * first seen, the count of each, and the scan that picks the key with the
 * largest count.
 */
module Tally {
  import opened Wrappers

  /** The keys of the counting dictionary in insertion (first-seen) order. */
  function Distinct(ks: seq<string>): seq<string> {
    if ks == [] then []
    else
      var d := Distinct(ks[..|ks| - 1]);
      var last := ks[|ks| - 1];
      if last in d then d else d + [last]
  }

  /** The keys are exactly the keys seen, each once. */
  lemma {:induction false} DistinctFacts(ks: seq<string>)
    ensures forall x :: x in Distinct(ks) <==> x in ks
    ensures forall i, j :: 0 <= i < j < |Distinct(ks)| ==> Distinct(ks)[i] != Distinct(ks)[j]
  {
    if ks != [] {
      var init, last := ks[..|ks| - 1], ks[|ks| - 1];
      DistinctFacts(init);
      assert ks == init + [last];
    }
  }

  /** The dictionary after counting `ks`, one `(count || 0) + 1` per key. */
  function CountMap(ks: seq<string>): map<string, nat> {
    if ks == [] then map[]
    else
      var m := CountMap(ks[..|ks| - 1]);
      var last := ks[|ks| - 1];
      m[last := (if last in m then m[last] else 0) + 1]
  }

  /** The dictionary holds exactly the keys seen, each with its number of
      occurrences. */
  lemma {:induction false} CountMapFacts(ks: seq<string>)
    ensures forall x :: x in CountMap(ks) <==> x in ks
    ensures forall x :: x in CountMap(ks) ==> CountMap(ks)[x] == multiset(ks)[x]
  {
    if ks != [] {
      var init, last := ks[..|ks| - 1], ks[|ks| - 1];
      CountMapFacts(init);
      assert ks == init + [last];
    }
  }

  lemma Snoc(ks: seq<string>, kw: string)
    ensures Distinct(ks + [kw]) == if kw in Distinct(ks) then Distinct(ks) else Distinct(ks) + [kw]
    ensures CountMap(ks + [kw])
            == CountMap(ks)[kw := (if kw in CountMap(ks) then CountMap(ks)[kw] else 0) + 1]
  {
    assert (ks + [kw])[..|ks|] == ks;
  }

  /** One more key on a running tally: appended to the keys when new,
      its count raised by one. */
  lemma CountStep(keys: seq<string>, counts: map<string, nat>, ks: seq<string>, k: string)
    requires keys == Distinct(ks) && counts == CountMap(ks)
    ensures (if k in counts then keys else keys + [k]) == Distinct(ks + [k])
    ensures counts[k := (if k in counts then counts[k] else 0) + 1] == CountMap(ks + [k])
  {
    Snoc(ks, k);
    KeyCounted(ks, k);
  }

  lemma KeysAreCounted(ks: seq<string>)
    ensures forall x :: x in CountMap(ks) <==> x in Distinct(ks)
  {
    CountMapFacts(ks);
    DistinctFacts(ks);
  }

  function CountOf(counts: map<string, nat>, k: string): nat {
    if k in counts then counts[k] else 0
  }

  /** The running choice of the maximum scan: the index of the chosen key
      (-1 while none) and its count. */
  datatype Best = Best(index: int, count: nat)

  /** `for (const k of keys) if (counts[k] > max && k !== skip) { max = counts[k]; best = k }`,
      starting from no key and a maximum of 0. */
  function Dominant(keys: seq<string>, counts: map<string, nat>, skip: Option<string>): Best {
    if keys == [] then Best(-1, 0)
    else
      var b := Dominant(keys[..|keys| - 1], counts, skip);
      var k := keys[|keys| - 1];
      if CountOf(counts, k) > b.count && skip != Some(k) then Best(|keys| - 1, CountOf(counts, k)) else b
  }

  /** The scan picks a key of maximal count among those not skipped, the
      first such key on ties, and none exactly when every key it may pick
      has count 0. */
  lemma {:induction false} DominantFacts(keys: seq<string>, counts: map<string, nat>, skip: Option<string>)
    ensures var b := Dominant(keys, counts, skip);
            -1 <= b.index < |keys|
            && (b.index == -1 <==> b.count == 0)
            && (b.index >= 0 ==> skip != Some(keys[b.index]) && b.count == CountOf(counts, keys[b.index]))
            && (forall i :: 0 <= i < |keys| && skip != Some(keys[i]) ==> CountOf(counts, keys[i]) <= b.count)
            && (forall i :: 0 <= i < b.index && skip != Some(keys[i]) ==> CountOf(counts, keys[i]) < b.count)
  {
    if keys != [] {
      var init := keys[..|keys| - 1];
      DominantFacts(init, counts, skip);
      assert forall i :: 0 <= i < |init| ==> init[i] == keys[i];
    }
  }

  /** The sum of the counts of `keys`. */
  function SumCounts(keys: seq<string>, counts: map<string, nat>): nat {
    if keys == [] then 0 else SumCounts(keys[..|keys| - 1], counts) + CountOf(counts, keys[|keys| - 1])
  }

  /** Counts of keys outside `keys` do not enter the sum. */
  lemma {:induction false} SumIgnores(keys: seq<string>, counts: map<string, nat>, k: string, n: nat)
    requires k !in keys
    ensures SumCounts(keys, counts[k := n]) == SumCounts(keys, counts)
  {
    if keys != [] {
      SumIgnores(keys[..|keys| - 1], counts, k, n);
    }
  }

  /** One more for a key that occurs once in `keys` adds one to the sum. */
  lemma {:induction false} SumBump(keys: seq<string>, counts: map<string, nat>, k: string)
    requires k in keys
    requires forall i, j :: 0 <= i < j < |keys| ==> keys[i] != keys[j]
    ensures SumCounts(keys, counts[k := CountOf(counts, k) + 1]) == SumCounts(keys, counts) + 1
  {
    var init, last := keys[..|keys| - 1], keys[|keys| - 1];
    if last == k {
      assert k !in init;
      SumIgnores(init, counts, k, CountOf(counts, k) + 1);
    } else {
      assert k in init by {
        var i :| 0 <= i < |keys| && keys[i] == k;
        assert init[i] == k;
      }
      SumBump(init, counts, k);
    }
  }

  /** Every key seen is counted once per occurrence: the counts add up to
      the number of keys. */
  lemma {:induction false} CountsSum(ks: seq<string>)
    ensures SumCounts(Distinct(ks), CountMap(ks)) == |ks|
  {
    if ks != [] {
      var init, last := ks[..|ks| - 1], ks[|ks| - 1];
      CountsSum(init);
      DistinctFacts(init);
      KeysAreCounted(init);
      var d, m := Distinct(init), CountMap(init);
      assert CountMap(ks) == m[last := CountOf(m, last) + 1];
      if last in d {
        assert Distinct(ks) == d;
        SumBump(d, m, last);
      } else {
        assert Distinct(ks) == d + [last];
        assert (d + [last])[..|d|] == d;
        SumIgnores(d, m, last, 1);
      }
    }
  }

  /** The chosen key, `-` when there is none. */
  function DominantKey(keys: seq<string>, counts: map<string, nat>, skip: Option<string>): string {
    var b := Dominant(keys, counts, skip);
    if 0 <= b.index < |keys| then keys[b.index] else "-"
  }

  /** A key is in the dictionary exactly when it is among its keys. */
  lemma KeyCounted(ks: seq<string>, k: string)
    ensures k in CountMap(ks) <==> k in Distinct(ks)
    ensures k in CountMap(ks) ==> CountMap(ks)[k] >= 1
  {
    CountMapFacts(ks);
    DistinctFacts(ks);
  }

  /** The scan over a counting dictionary: `-` when every key is skipped,
      otherwise a key that is not skipped, of maximal count, with every
      earlier key that is not skipped strictly smaller. */
  lemma DominantKeyFacts(ks: seq<string>, skip: Option<string>)
    ensures var keys, counts := Distinct(ks), CountMap(ks);
            var d := DominantKey(keys, counts, skip);
            ((forall k :: k in keys ==> Some(k) == skip) ==> d == "-")
            && ((exists k :: k in keys && Some(k) != skip) ==>
                  exists j :: 0 <= j < |keys| && keys[j] == d && Some(d) != skip
                    && (forall i :: 0 <= i < |keys| && Some(keys[i]) != skip ==> CountOf(counts, keys[i]) <= CountOf(counts, d))
                    && (forall i :: 0 <= i < j && Some(keys[i]) != skip ==> CountOf(counts, keys[i]) < CountOf(counts, d)))
  {
    var keys, counts := Distinct(ks), CountMap(ks);
    DominantFacts(keys, counts, skip);
    var b := Dominant(keys, counts, skip);
    if exists k :: k in keys && Some(k) != skip {
      var k :| k in keys && Some(k) != skip;
      KeyCounted(ks, k);
      assert CountOf(counts, k) >= 1;
      assert b.index >= 0;
    } else if b.index >= 0 {
      assert keys[b.index] in keys;
    }
  }

  /** The loop over the dictionary that keeps the largest count seen so far
      (`count > max`, so the first of equal counts stays) among keys other
      than `skip`, starting from `'-'` and 0. */
  method PickDominant(keys: seq<string>, counts: map<string, nat>, skip: Option<string>) returns (best: string)
    ensures best == DominantKey(keys, counts, skip)
  {
    best := "-";
    var max := 0;
    var i := 0;
    while i < |keys|
      invariant 0 <= i <= |keys|
      invariant var b := Dominant(keys[..i], counts, skip);
                max == b.count && -1 <= b.index < i
                && best == if b.index < 0 then "-" else keys[b.index]
    {
      assert keys[..i + 1][..i] == keys[..i];
      DominantFacts(keys[..i], counts, skip);
      var count := CountOf(counts, keys[i]);
      if count > max && skip != Some(keys[i]) {
        max := count;
        best := keys[i];
      }
      i := i + 1;
    }
    assert keys[..i] == keys;
  }
}
