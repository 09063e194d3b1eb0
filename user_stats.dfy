/**
 * The `getUserStats` cloud function: the caller's profile, dream counts,
 * clarity average, mood histogram, dominant mood, streak and the five
 * newest dreams with shortened content.
 *
 * The `dreams` collection is a sequence of records carrying their owner,
 * the `users` collection the map of `UpdateUser`. The two `count()`
 * queries are computed over the caller's dreams in the collection. The two
 * `get()` queries return pages whose size and order the database decides,
 * so they are inputs: `moodData` is what the plain `get()` returned, and
 * `latest` what the newest-first query (`orderBy('createTime', 'desc')`)
 * returned. The clock is `now` in milliseconds, and a failing database
 * call is `dbError`.
 */
module UserStats {
  import opened Wrappers
  import opened Text
  import opened Tally
  import UpdateUser

  /** A stored dream; a missing mood is `""` and a missing clarity `0`. */
  datatype Dream = Dream(owner: string, mood: string, clarity: int, content: string, createTime: int)

  const NoOpenid := "未获取到用户信息"
  const Unknown := "unknown"
  /** Seven days in milliseconds. */
  const Week := 7 * 24 * 60 * 60 * 1000

  /** `dream.mood || 'unknown'`. */
  function MoodOf(d: Dream): string {
    if d.mood != "" then d.mood else Unknown
  }

  function Moods(ds: seq<Dream>): (r: seq<string>)
    ensures |r| == |ds|
  {
    if ds == [] then [] else Moods(ds[..|ds| - 1]) + [MoodOf(ds[|ds| - 1])]
  }

  /** The sum of the truthy (non-zero) clarities. */
  function ClaritySum(ds: seq<Dream>): int {
    if ds == [] then 0
    else ClaritySum(ds[..|ds| - 1]) + (if ds[|ds| - 1].clarity != 0 then ds[|ds| - 1].clarity else 0)
  }

  /** The number of dreams with a truthy clarity. */
  function ClarityCount(ds: seq<Dream>): (n: nat)
    ensures n <= |ds|
  {
    if ds == [] then 0
    else ClarityCount(ds[..|ds| - 1]) + (if ds[|ds| - 1].clarity != 0 then 1 else 0)
  }

  /** The dreams of one owner, in store order. */
  function Mine(dreams: seq<Dream>, openid: string): (r: seq<Dream>)
    ensures |r| <= |dreams|
  {
    if dreams == [] then []
    else
      var init := Mine(dreams[..|dreams| - 1], openid);
      if dreams[|dreams| - 1].owner == openid then init + [dreams[|dreams| - 1]] else init
  }

  /** The number of dreams created at or after `since`. */
  function CountSince(ds: seq<Dream>, since: int): (n: nat)
    ensures n <= |ds|
  {
    if ds == [] then 0
    else CountSince(ds[..|ds| - 1], since) + (if ds[|ds| - 1].createTime >= since then 1 else 0)
  }

  /** `avgClarity` before `toFixed(1)`: `'0.0'` when no clarity was given,
      otherwise the quotient `total / count`. */
  datatype Average = Unrated | Mean(total: int, count: nat)

  /** `d.content.length > 25 ? d.content.substring(0, 25) + '...' : d.content`. */
  function ShortContent(s: string): string {
    if |s| > 25 then s[..25] + "..." else s
  }

  /** The recent list: the first five records of the newest-first query,
      each with its content shortened. */
  function Recent(latest: seq<Dream>): seq<Dream> {
    seq(Min(5, |latest|), i requires 0 <= i < Min(5, |latest|) => latest[i].(content := ShortContent(latest[i].content)))
  }

  datatype Stats = Stats(
    profile: Option<UpdateUser.Profile>,
    totalDreams: nat,
    recentDreams: nat,
    avgClarity: Average,
    moodKeys: seq<string>,
    moodDistribution: map<string, nat>,
    dominantMood: string,
    streakDays: int,
    recentDreamsList: seq<Dream>)

  /** The statistics the function returns on success: the totals count
      the caller's dreams in the collection, while the histogram and the
      clarity come from the fetched `moodData`. */
  function StatsOf(openid: string, users: map<string, UpdateUser.Profile>, dreams: seq<Dream>,
                   moodData: seq<Dream>, latest: seq<Dream>, now: int): Stats
  {
    var mine := Mine(dreams, openid);
    var profile := if openid in users then Some(users[openid]) else None;
    var moods := Moods(moodData);
    Stats(profile, |mine|, CountSince(mine, now - Week),
          if ClarityCount(moodData) > 0 then Mean(ClaritySum(moodData), ClarityCount(moodData)) else Unrated,
          Distinct(moods), CountMap(moods), DominantKey(Distinct(moods), CountMap(moods), Some(Unknown)),
          if profile.Some? then profile.value.streakDays else 0,
          Recent(latest))
  }

  /** The `forEach` over the fetched dreams: the mood dictionary (its keys in
      insertion order, and the counts) and the clarity total and count. */
  method CollectMoods(ds: seq<Dream>) returns (keys: seq<string>, dist: map<string, nat>, totalClarity: int, clarityCount: nat)
    ensures keys == Distinct(Moods(ds)) && dist == CountMap(Moods(ds))
    ensures totalClarity == ClaritySum(ds) && clarityCount == ClarityCount(ds)
  {
    keys, dist, totalClarity, clarityCount := [], map[], 0, 0;
    var i := 0;
    while i < |ds|
      invariant 0 <= i <= |ds|
      invariant keys == Distinct(Moods(ds[..i])) && dist == CountMap(Moods(ds[..i]))
      invariant totalClarity == ClaritySum(ds[..i]) && clarityCount == ClarityCount(ds[..i])
    {
      var mood := MoodOf(ds[i]);
      CollectStep(ds, i);
      CountStep(keys, dist, Moods(ds[..i]), mood);
      if mood !in dist {
        keys := keys + [mood];
      }
      dist := dist[mood := (if mood in dist then dist[mood] else 0) + 1];
      if ds[i].clarity != 0 {
        totalClarity := totalClarity + ds[i].clarity;
        clarityCount := clarityCount + 1;
      }
      i := i + 1;
    }
    assert ds[..i] == ds;
  }

  lemma CollectStep(ds: seq<Dream>, i: int)
    requires 0 <= i < |ds|
    ensures Moods(ds[..i + 1]) == Moods(ds[..i]) + [MoodOf(ds[i])]
    ensures ClaritySum(ds[..i + 1]) == ClaritySum(ds[..i]) + (if ds[i].clarity != 0 then ds[i].clarity else 0)
    ensures ClarityCount(ds[..i + 1]) == ClarityCount(ds[..i]) + (if ds[i].clarity != 0 then 1 else 0)
  {
    assert ds[..i + 1][..i] == ds[..i];
  }

  /** One call of the cloud function. */
  method GetUserStats(openid: string, users: map<string, UpdateUser.Profile>, dreams: seq<Dream>,
                      moodData: seq<Dream>, latest: seq<Dream>, now: int, dbError: Option<string>)
    returns (r: Result<Stats>)
    ensures openid == "" ==> r == Failure(NoOpenid)
    ensures openid != "" && dbError.Some? ==> r == Failure(dbError.value)
    ensures openid != "" && dbError.None? ==> r == Success(StatsOf(openid, users, dreams, moodData, latest, now))
  {
    if openid == "" {
      return Failure(NoOpenid);
    }
    if dbError.Some? {
      return Failure(dbError.value);
    }
    var profile := if openid in users then Some(users[openid]) else None;
    var mine := Mine(dreams, openid);
    var keys, dist, totalClarity, clarityCount := CollectMoods(moodData);
    var dominantMood := PickDominant(keys, dist, Some(Unknown));
    var avg := if clarityCount > 0 then Mean(totalClarity, clarityCount) else Unrated;
    r := Success(Stats(profile, |mine|, CountSince(mine, now - Week), avg, keys, dist, dominantMood,
                       if profile.Some? then profile.value.streakDays else 0, Recent(latest)));
  }

  lemma {:induction false} MoodsAt(ds: seq<Dream>, i: int)
    requires 0 <= i < |ds|
    ensures Moods(ds)[i] == MoodOf(ds[i])
  {
    if i < |ds| - 1 {
      MoodsAt(ds[..|ds| - 1], i);
    }
  }

  /** Every fetched dream is counted under its mood, a missing mood under
      `unknown`: the keys are the moods that occur, each once. */
  lemma MoodDistributionKeys(openid: string, users: map<string, UpdateUser.Profile>, dreams: seq<Dream>,
                             moodData: seq<Dream>, latest: seq<Dream>, now: int)
    ensures var s := StatsOf(openid, users, dreams, moodData, latest, now);
            (forall k :: k in s.moodDistribution <==> k in s.moodKeys)
            && (forall i, j :: 0 <= i < j < |s.moodKeys| ==> s.moodKeys[i] != s.moodKeys[j])
            && (forall k :: k in s.moodDistribution <==> exists i :: 0 <= i < |moodData| && MoodOf(moodData[i]) == k)
  {
    StatsFields(openid, users, dreams, moodData, latest, now);
    MoodKeys(moodData);
  }

  /** Each count is the number of fetched dreams with that mood, and the
      counts add up to the number of fetched dreams. They add up to
      `totalDreams`, the `count()` result, only when the page holds every
      dream of the caller. */
  lemma MoodDistributionCounts(openid: string, users: map<string, UpdateUser.Profile>, dreams: seq<Dream>,
                               moodData: seq<Dream>, latest: seq<Dream>, now: int)
    ensures var s := StatsOf(openid, users, dreams, moodData, latest, now);
            (forall k :: k in s.moodDistribution ==> s.moodDistribution[k] == multiset(Moods(moodData))[k])
            && SumCounts(s.moodKeys, s.moodDistribution) == |moodData|
            && (SumCounts(s.moodKeys, s.moodDistribution) == s.totalDreams <==> |moodData| == |Mine(dreams, openid)|)
  {
    StatsFields(openid, users, dreams, moodData, latest, now);
    MoodTotals(moodData);
  }

  /** The fields of the statistics the mood and clarity lemmas speak about. */
  lemma StatsFields(openid: string, users: map<string, UpdateUser.Profile>, dreams: seq<Dream>,
                    moodData: seq<Dream>, latest: seq<Dream>, now: int)
    ensures var s, moods := StatsOf(openid, users, dreams, moodData, latest, now), Moods(moodData);
            s.moodKeys == Distinct(moods) && s.moodDistribution == CountMap(moods)
            && s.totalDreams == |Mine(dreams, openid)|
            && s.avgClarity == if ClarityCount(moodData) > 0 then Mean(ClaritySum(moodData), ClarityCount(moodData)) else Unrated
  {
  }

  lemma MoodKeys(ds: seq<Dream>)
    ensures var keys, dist := Distinct(Moods(ds)), CountMap(Moods(ds));
            (forall k :: k in dist <==> k in keys)
            && (forall i, j :: 0 <= i < j < |keys| ==> keys[i] != keys[j])
            && (forall k :: k in dist <==> exists i :: 0 <= i < |ds| && MoodOf(ds[i]) == k)
  {
    var moods := Moods(ds);
    KeysAreCounted(moods);
    DistinctFacts(moods);
    CountMapFacts(moods);
    forall i | 0 <= i < |ds| {
      MoodsAt(ds, i);
    }
  }

  lemma MoodTotals(ds: seq<Dream>)
    ensures var moods := Moods(ds);
            (forall k :: k in CountMap(moods) ==> CountMap(moods)[k] == multiset(moods)[k])
            && SumCounts(Distinct(moods), CountMap(moods)) == |ds|
  {
    CountMapFacts(Moods(ds));
    CountsSum(Moods(ds));
  }

  /** The dominant mood is never `unknown`; it is `-` when `unknown` is the
      only mood; otherwise it is a mood of maximal count, and every mood
      before it in the dictionary has a strictly smaller count. */
  lemma DominantMoodFacts(openid: string, users: map<string, UpdateUser.Profile>, dreams: seq<Dream>,
                          moodData: seq<Dream>, latest: seq<Dream>, now: int)
    ensures var s := StatsOf(openid, users, dreams, moodData, latest, now);
            var keys, dist := s.moodKeys, s.moodDistribution;
            s.dominantMood != Unknown
            && ((forall k :: k in keys ==> k == Unknown) ==> s.dominantMood == "-")
            && ((exists k :: k in keys && k != Unknown) ==>
                  exists j :: 0 <= j < |keys| && keys[j] == s.dominantMood
                    && (forall i :: 0 <= i < |keys| && keys[i] != Unknown ==> CountOf(dist, keys[i]) <= CountOf(dist, keys[j]))
                    && (forall i :: 0 <= i < j && keys[i] != Unknown ==> CountOf(dist, keys[i]) < CountOf(dist, keys[j])))
  {
    DominantKeyFacts(Moods(moodData), Some(Unknown));
  }

  /** The clarity average is `'0.0'` exactly when no fetched dream has a
      truthy clarity, and otherwise averages over at most all of them. */
  lemma ClarityFacts(openid: string, users: map<string, UpdateUser.Profile>, dreams: seq<Dream>,
                     moodData: seq<Dream>, latest: seq<Dream>, now: int)
    ensures var s := StatsOf(openid, users, dreams, moodData, latest, now);
            (s.avgClarity == Unrated <==> forall i :: 0 <= i < |moodData| ==> moodData[i].clarity == 0)
            && (s.avgClarity.Mean? ==> 0 < s.avgClarity.count <= |moodData|)
  {
    StatsFields(openid, users, dreams, moodData, latest, now);
    ClarityCountZero(moodData);
  }

  lemma {:induction false} ClarityCountZero(ds: seq<Dream>)
    ensures ClarityCount(ds) == 0 <==> forall i :: 0 <= i < |ds| ==> ds[i].clarity == 0
  {
    if ds != [] {
      var init := ds[..|ds| - 1];
      ClarityCountZero(init);
      assert forall i :: 0 <= i < |init| ==> init[i] == ds[i];
    }
  }

  /** The recent list holds the first five records of the query, in order,
      each unchanged except that content over 25 characters is cut to its
      first 25 followed by `...`. */
  lemma RecentFacts(latest: seq<Dream>)
    ensures |Recent(latest)| == if |latest| < 5 then |latest| else 5
    ensures forall i :: 0 <= i < |Recent(latest)| ==>
              var d, c := Recent(latest)[i], latest[i].content;
              d == latest[i].(content := d.content)
              && (|c| <= 25 ==> d.content == c)
              && (|c| > 25 ==> |d.content| == 28 && d.content[..25] == c[..25] && d.content[25..] == "...")
  {
  }

  /** The counts and the streak: the seven-day count never exceeds the
      total, and a caller without a profile has streak 0. */
  lemma CountsFacts(openid: string, users: map<string, UpdateUser.Profile>, dreams: seq<Dream>,
                    moodData: seq<Dream>, latest: seq<Dream>, now: int)
    ensures var s := StatsOf(openid, users, dreams, moodData, latest, now);
            s.recentDreams <= s.totalDreams
            && (openid !in users ==> s.profile == None && s.streakDays == 0)
            && (openid in users ==> s.profile == Some(users[openid]) && s.streakDays == users[openid].streakDays)
  {
  }
}
