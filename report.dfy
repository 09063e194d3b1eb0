/**
 * The report page's `calculateStats`: the dream total, the clarity average,
 * the mood histogram and its dominant mood, the mood-to-archetype tally
 * over the 12 Jungian archetypes normalised for the radar chart, and the
 * count of negative moods.
 *
 * The page's `archetypes` values are an array of 12 reals updated in place
 * (the tally's `[...this.data.archetypes]` copies the array but shares its
 * entries, so `archetypeScores[idx].value += 1` writes into the page). The
 * query result is the `dreams` input; reals are exact where the program
 * uses doubles.
 */
module Report {
  import opened Wrappers
  import opened Tally
  import opened UserStats

  const ArchetypeNames: seq<string> :=
    ["天真者", "孤儿", "英雄", "照顾者", "探索者", "反叛者", "情人", "创造者", "小丑", "智者", "魔术师", "统治者"]

  /** The archetype slots each mood raises. */
  function Mapping(mood: string): (r: seq<nat>)
    ensures forall i :: 0 <= i < |r| ==> r[i] < 12 && r[i] != 7 && r[i] != 8 && r[i] != 10
    ensures forall i, j :: 0 <= i < j < |r| ==> r[i] != r[j]
  {
    if mood == "焦虑" then [1, 5]
    else if mood == "恐惧" then [1]
    else if mood == "喜悦" then [0, 6]
    else if mood == "愤怒" then [2, 5]
    else if mood == "平静" then [9]
    else if mood == "困惑" then [4]
    else if mood == "悲伤" then [3]
    else if mood == "羞耻" then [11]
    else []
  }

  const NegativeMoods: seq<string> := ["恐惧", "焦虑", "愤怒", "羞耻", "悲伤"]

  const Zeros: seq<real> := seq(12, _ => 0.0)

  /** The number of dreams whose mood raises `slot`. */
  function Hits(ds: seq<Dream>, slot: nat): (n: nat)
    ensures n <= |ds|
  {
    if ds == [] then 0
    else Hits(ds[..|ds| - 1], slot) + (if slot in Mapping(MoodOf(ds[|ds| - 1])) then 1 else 0)
  }

  /** The archetype values after the tally loop, starting from `start`. */
  function Tallied(start: seq<real>, ds: seq<Dream>): (r: seq<real>)
    requires |start| == 12
    ensures |r| == 12
  {
    seq(12, s requires 0 <= s < 12 => start[s] + Hits(ds, s) as real)
  }

  /** `Math.max(...values)`. */
  function MaxOf(s: seq<real>): (m: real)
    requires |s| > 0
    ensures forall i :: 0 <= i < |s| ==> s[i] <= m
    ensures exists i :: 0 <= i < |s| && s[i] == m
  {
    if |s| == 1 then s[0]
    else
      var m := MaxOf(s[..|s| - 1]);
      assert forall i :: 0 <= i < |s| - 1 ==> s[..|s| - 1][i] == s[i];
      if s[|s| - 1] > m then s[|s| - 1] else m
  }

  /** `Math.max(...values) || 1`. */
  function Scale(s: seq<real>): real
    requires |s| > 0
  {
    if MaxOf(s) == 0.0 then 1.0 else MaxOf(s)
  }

  /** `value / maxScore * 80 + 20` for every slot. */
  function Normalised(s: seq<real>): (r: seq<real>)
    requires |s| > 0
    ensures |r| == |s|
  {
    seq(|s|, i requires 0 <= i < |s| => s[i] / Scale(s) * 80.0 + 20.0)
  }

  /** `negativeMoods.includes(d.mood)` counted over the dreams. */
  function NegCount(ds: seq<Dream>): (n: nat)
    ensures n <= |ds|
  {
    if ds == [] then 0
    else NegCount(ds[..|ds| - 1]) + (if ds[|ds| - 1].mood in NegativeMoods then 1 else 0)
  }

  class ReportPage {
    var totalDreams: nat
    /** `avgClarity` before `toFixed(1)`. */
    var avgClarity: real
    var dominantMood: string
    const archetypes: array<real>

    constructor ()
      ensures totalDreams == 0 && avgClarity == 0.0 && dominantMood == "-"
      ensures fresh(archetypes) && archetypes[..] == Zeros
    {
      totalDreams, avgClarity, dominantMood := 0, 0.0, "-";
      archetypes := new real[12](_ => 0.0);
    }

    /** `calculateStats` as written: the tally starts from the values the
        page already shows. */
    method CalculateStats(dreams: seq<Dream>) returns (negCount: nat)
      requires archetypes.Length == 12
      modifies this, archetypes
      ensures dreams == [] ==> totalDreams == old(totalDreams) && avgClarity == old(avgClarity)
                               && dominantMood == old(dominantMood) && archetypes[..] == old(archetypes[..])
                               && negCount == 0
      ensures dreams != [] ==> Shows(dreams, old(archetypes[..]), negCount)
    {
      if dreams == [] {
        return 0;
      }
      negCount := Compute(dreams);
    }

    /** `calculateStats` with the tally starting from zero, as the radar's
        base value of 20 for an archetype without hits intends. */
    method CalculateStatsFromZero(dreams: seq<Dream>) returns (negCount: nat)
      requires archetypes.Length == 12
      modifies this, archetypes
      ensures dreams == [] ==> totalDreams == old(totalDreams) && avgClarity == old(avgClarity)
                               && dominantMood == old(dominantMood) && archetypes[..] == old(archetypes[..])
                               && negCount == 0
      ensures dreams != [] ==> Shows(dreams, Zeros, negCount)
    {
      if dreams == [] {
        return 0;
      }
      forall s | 0 <= s < 12 {
        archetypes[s] := 0.0;
      }
      assert archetypes[..] == Zeros;
      negCount := Compute(dreams);
    }

    /** The page shows the statistics of `dreams` with the tally started
        from `start`. */
    ghost predicate Shows(dreams: seq<Dream>, start: seq<real>, negCount: nat)
      requires |start| == 12
      reads this, archetypes
    {
      var moods := Moods(dreams);
      |dreams| > 0
      && totalDreams == |dreams|
      && avgClarity == ClaritySum(dreams) as real / |dreams| as real
      && dominantMood == DominantKey(Distinct(moods), CountMap(moods), None)
      && archetypes[..] == Normalised(Tallied(start, dreams))
      && negCount == NegCount(dreams)
    }

    /** The non-empty path: the histogram and tally loop, normalisation,
        the dominant mood, the negative count and `setData`. */
    method Compute(dreams: seq<Dream>) returns (negCount: nat)
      requires archetypes.Length == 12 && dreams != []
      modifies this, archetypes
      ensures Shows(dreams, old(archetypes[..]), negCount)
    {
      var total := |dreams|;
      var totalClarity := ClaritySum(dreams);
      var keys, counts := TallyMoods(dreams);
      var maxScore := if MaxOf(archetypes[..]) == 0.0 then 1.0 else MaxOf(archetypes[..]);
      ghost var tallied := archetypes[..];
      forall s | 0 <= s < 12 {
        archetypes[s] := archetypes[s] / maxScore * 80.0 + 20.0;
      }
      assert maxScore == Scale(tallied);
      assert forall s :: 0 <= s < 12 ==> archetypes[s] == Normalised(tallied)[s];
      assert archetypes[..] == Normalised(tallied);
      var domMood := PickDominant(keys, counts, None);
      negCount := CountNegative(dreams);
      totalDreams, avgClarity, dominantMood := total, totalClarity as real / total as real, domMood;
    }

    /** The `forEach` over the dreams: the mood dictionary, and one more
        on every archetype slot the dream's mood raises. */
    method TallyMoods(dreams: seq<Dream>) returns (keys: seq<string>, counts: map<string, nat>)
      requires archetypes.Length == 12
      modifies archetypes
      ensures keys == Distinct(Moods(dreams)) && counts == CountMap(Moods(dreams))
      ensures archetypes[..] == Tallied(old(archetypes[..]), dreams)
    {
      ghost var start := archetypes[..];
      keys, counts := [], map[];
      var i := 0;
      TallyNone(start, dreams);
      while i < |dreams|
        invariant 0 <= i <= |dreams|
        invariant keys == Distinct(Moods(dreams[..i])) && counts == CountMap(Moods(dreams[..i]))
        invariant archetypes[..] == Tallied(start, dreams[..i])
      {
        var m := MoodOf(dreams[i]);
        TallyStep(start, dreams, i);
        CountStep(keys, counts, Moods(dreams[..i]), m);
        if m !in counts {
          keys := keys + [m];
        }
        counts := counts[m := (if m in counts then counts[m] else 0) + 1];
        ghost var before := archetypes[..];
        Raise(Mapping(m));
        TallyAdvance(start, dreams, i, before, archetypes[..]);
        i := i + 1;
      }
      assert dreams[..i] == dreams;
    }

    /** `mapping[m].forEach(idx => archetypeScores[idx].value += 1)`. */
    method Raise(idxs: seq<nat>)
      requires archetypes.Length == 12
      requires forall i :: 0 <= i < |idxs| ==> idxs[i] < 12
      requires forall i, j :: 0 <= i < j < |idxs| ==> idxs[i] != idxs[j]
      modifies archetypes
      ensures forall s :: 0 <= s < 12 ==> archetypes[s] == old(archetypes[s]) + (if s in idxs then 1.0 else 0.0)
    {
      var j := 0;
      while j < |idxs|
        invariant 0 <= j <= |idxs|
        invariant forall s :: 0 <= s < 12 ==> archetypes[s] == old(archetypes[s]) + (if s in idxs[..j] then 1.0 else 0.0)
      {
        assert idxs[..j + 1] == idxs[..j] + [idxs[j]];
        archetypes[idxs[j]] := archetypes[idxs[j]] + 1.0;
        j := j + 1;
      }
      assert idxs[..j] == idxs;
    }
  }

  /** The second `forEach`, counting negative moods. */
  method CountNegative(dreams: seq<Dream>) returns (negCount: nat)
    ensures negCount == NegCount(dreams)
  {
    negCount := 0;
    var i := 0;
    while i < |dreams|
      invariant 0 <= i <= |dreams|
      invariant negCount == NegCount(dreams[..i])
    {
      assert dreams[..i + 1][..i] == dreams[..i];
      if dreams[i].mood in NegativeMoods {
        negCount := negCount + 1;
      }
      i := i + 1;
    }
    assert dreams[..i] == dreams;
  }

  /** One dream adds exactly 1 to each slot its mood maps to and nothing
      elsewhere. */
  lemma TallyStep(start: seq<real>, ds: seq<Dream>, i: int)
    requires |start| == 12 && 0 <= i < |ds|
    ensures Moods(ds[..i + 1]) == Moods(ds[..i]) + [MoodOf(ds[i])]
    ensures forall s :: 0 <= s < 12 ==>
              Tallied(start, ds[..i + 1])[s] == Tallied(start, ds[..i])[s] + (if s in Mapping(MoodOf(ds[i])) then 1.0 else 0.0)
  {
    assert ds[..i + 1][..i] == ds[..i];
  }

  lemma TallyNone(start: seq<real>, ds: seq<Dream>)
    requires |start| == 12
    ensures Tallied(start, ds[..0]) == start
  {
    assert ds[..0] == [];
  }

  lemma TallyAdvance(start: seq<real>, ds: seq<Dream>, i: int, before: seq<real>, after: seq<real>)
    requires |start| == 12 && 0 <= i < |ds|
    requires before == Tallied(start, ds[..i]) && |after| == 12
    requires forall s :: 0 <= s < 12 ==> after[s] == before[s] + (if s in Mapping(MoodOf(ds[i])) then 1.0 else 0.0)
    ensures after == Tallied(start, ds[..i + 1])
  {
    TallyStep(start, ds, i);
  }

  /** `喜悦` raises the innocent and the lover, by one each, and only them. */
  lemma JoyRaises(start: seq<real>, ds: seq<Dream>, d: Dream)
    requires |start| == 12 && d.mood == "喜悦"
    ensures forall s :: 0 <= s < 12 ==>
              Tallied(start, ds + [d])[s] == Tallied(start, ds)[s] + (if s == 0 || s == 6 then 1.0 else 0.0)
  {
    TallyStep(start, ds + [d], |ds|);
    assert (ds + [d])[..|ds|] == ds && (ds + [d])[..|ds| + 1] == ds + [d];
  }

  /** A mood outside the mapping, a missing one included, raises nothing. */
  lemma UnmappedRaisesNothing(start: seq<real>, ds: seq<Dream>, d: Dream)
    requires |start| == 12 && Mapping(MoodOf(d)) == []
    ensures Tallied(start, ds + [d]) == Tallied(start, ds)
  {
    TallyStep(start, ds + [d], |ds|);
    assert (ds + [d])[..|ds|] == ds && (ds + [d])[..|ds| + 1] == ds + [d];
  }

  /** The creator, the jester and the magician are in no mood's mapping,
      so the tally never raises them. */
  lemma {:induction false} UnusedSlots(ds: seq<Dream>)
    ensures Hits(ds, 7) == 0 && Hits(ds, 8) == 0 && Hits(ds, 10) == 0
  {
    if ds != [] {
      UnusedSlots(ds[..|ds| - 1]);
    }
  }

  /** The mood histogram counts every dream once, a missing mood under
      `unknown`; the dominant mood has maximal count, the first key wins a
      tie, and it may be `unknown`. */
  lemma MoodFacts(dreams: seq<Dream>)
    requires dreams != []
    ensures var moods := Moods(dreams);
            var keys, counts := Distinct(moods), CountMap(moods);
            var d := DominantKey(keys, counts, None);
            SumCounts(keys, counts) == |dreams|
            && exists j :: 0 <= j < |keys| && keys[j] == d
                 && (forall i :: 0 <= i < |keys| ==> CountOf(counts, keys[i]) <= CountOf(counts, d))
                 && (forall i :: 0 <= i < j ==> CountOf(counts, keys[i]) < CountOf(counts, d))
  {
    var moods := Moods(dreams);
    CountsSum(moods);
    DominantKeyFacts(moods, None);
    DistinctFacts(moods);
    assert moods[0] in Distinct(moods);
  }

  /** One slot of the normalisation: with `0 <= x <= m`, the value lies
      in `[20, 100]`, and it is 20 for 0 and 100 for `m`. */
  lemma NormaliseOne(x: real, m: real)
    requires 0.0 <= x <= m && m > 0.0
    ensures 20.0 <= x / m * 80.0 + 20.0 <= 100.0
    ensures x == 0.0 ==> x / m * 80.0 + 20.0 == 20.0
    ensures x == m ==> x / m * 80.0 + 20.0 == 100.0
  {
    assert x / m <= 1.0 by {
      assert x / m * m == x;
    }
    if x == m {
      assert x / m == 1.0;
    }
  }

  /** A value that bounds every entry and is one of them is the maximum. */
  lemma MaxOfIs(s: seq<real>, k: int)
    requires 0 <= k < |s| && forall i :: 0 <= i < |s| ==> s[i] <= s[k]
    ensures MaxOf(s) == s[k]
  {
    var i :| 0 <= i < |s| && s[i] == MaxOf(s);
  }

  /** The radar's ends: with values that are not negative, a slot at 0
      shows 20, a slot at the (positive) maximum shows 100, everything lies
      between, and all show 20 when all are 0. */
  lemma RadarEnds(s: seq<real>)
    requires |s| > 0 && forall i :: 0 <= i < |s| ==> s[i] >= 0.0
    ensures forall i :: 0 <= i < |s| && s[i] == 0.0 ==> Normalised(s)[i] == 20.0
    ensures forall i :: 0 <= i < |s| && s[i] == MaxOf(s) && MaxOf(s) > 0.0 ==> Normalised(s)[i] == 100.0
    ensures forall i :: 0 <= i < |s| ==> 20.0 <= Normalised(s)[i] <= 100.0
    ensures MaxOf(s) == 0.0 ==> forall i :: 0 <= i < |s| ==> Normalised(s)[i] == 20.0
  {
    var m := Scale(s);
    forall i | 0 <= i < |s|
      ensures 20.0 <= Normalised(s)[i] <= 100.0
      ensures s[i] == 0.0 ==> Normalised(s)[i] == 20.0
      ensures s[i] == MaxOf(s) && MaxOf(s) > 0.0 ==> Normalised(s)[i] == 100.0
    {
      if MaxOf(s) == 0.0 {
        NormaliseOne(0.0, 1.0);
      } else {
        NormaliseOne(s[i], m);
      }
    }
  }

  /** With the tally started from zero, an archetype no dream raises shows
      20 and the most raised one shows 100. */
  lemma FromZeroEnds(ds: seq<Dream>, slot: nat)
    requires slot < 12
    ensures Hits(ds, slot) == 0 ==> Normalised(Tallied(Zeros, ds))[slot] == 20.0
    ensures Hits(ds, slot) > 0 && (forall s :: 0 <= s < 12 ==> Hits(ds, s) <= Hits(ds, slot)) ==>
              Normalised(Tallied(Zeros, ds))[slot] == 100.0
  {
    var t := Tallied(Zeros, ds);
    assert forall s :: 0 <= s < 12 ==> t[s] == Hits(ds, s) as real;
    RadarEnds(t);
    if Hits(ds, slot) > 0 && (forall s :: 0 <= s < 12 ==> Hits(ds, s) <= Hits(ds, slot)) {
      var k :| 0 <= k < 12 && t[k] == MaxOf(t);
      assert t[slot] >= MaxOf(t);
    }
  }

  /** The single dream of the finding below. */
  const Calm: seq<Dream> := [Dream("", "平静", 3, "", 0)]

  lemma CalmHits()
    ensures forall s :: 0 <= s < 12 ==> Hits(Calm, s) == if s == 9 then 1 else 0
  {
    assert Calm[..0] == [];
    assert Mapping(MoodOf(Calm[0])) == [9];
  }

  /** Normalising values between 0 and 1 with 1 at the wise man. */
  lemma FirstShow(t: seq<real>)
    requires |t| == 12 && forall s :: 0 <= s < 12 ==> t[s] == if s == 9 then 1.0 else 0.0
    ensures forall s :: 0 <= s < 12 ==> Normalised(t)[s] == if s == 9 then 100.0 else 20.0
  {
    MaxOfIs(t, 9);
    assert Scale(t) == 1.0;
  }

  lemma SecondShow(t: seq<real>)
    requires |t| == 12 && forall s :: 0 <= s < 12 ==> t[s] == if s == 9 then 101.0 else 20.0
    ensures Normalised(t)[0] == 3620.0 / 101.0
  {
    MaxOfIs(t, 9);
    assert Scale(t) == 101.0;
  }

  /** As written, a second show of the same single `平静` dream leaves the
      innocent, which no dream raises, at 3620/101 (about 35.8) instead of
      20: the first show's normalised 100 and 20s are tallied again. */
  lemma SecondShowFinding()
    ensures var first := Normalised(Tallied(Zeros, Calm));
            var second := Normalised(Tallied(first, Calm));
            Hits(Calm, 0) == 0 && first[0] == 20.0 && second[0] == 3620.0 / 101.0 && second[0] != 20.0
  {
    CalmHits();
    var t := Tallied(Zeros, Calm);
    assert forall s :: 0 <= s < 12 ==> t[s] == if s == 9 then 1.0 else 0.0;
    FirstShow(t);
    var first := Normalised(t);
    var t2 := Tallied(first, Calm);
    assert forall s :: 0 <= s < 12 ==> t2[s] == if s == 9 then 101.0 else 20.0;
    SecondShow(t2);
  }
}
