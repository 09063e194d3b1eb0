/**
 * Long-term memory for the chat: recent dreams fetched from the store are
 * scored against the new dream text, the best two (or the two most recent)
 * are kept, keywords that recur across the fetched dreams are counted, and
 * a short memory text is rendered for the system prompt.
 *
 * Scores are kept in integer tenths: a keyword hit is 4, a token hit 1, the
 * cap 10. The floating-point test `score > 0.3` holds exactly when the
 * tenths are at least 3, because 0.1 + 0.1 + 0.1 exceeds 0.3 in binary
 * floating point.
 */
module Memory {
  import opened Text
  import opened Wrappers
  import opened Tally

  /** The fields of a stored dream the memory uses; a missing keyword list
      is the empty sequence. */
  datatype Dream = Dream(id: string, content: string, summary: string, mood: string,
                         keywords: seq<string>)

  datatype MemoryContext = MemoryContext(text: string, relatedDreams: seq<Dream>,
                                         recurrentSymbols: seq<string>, emotionTrend: string)

  const MaxMemoryItems: nat := 2
  /** `SIMILARITY_THRESHOLD = 0.3` in tenths: a score passes when it is at least this. */
  const PassTenths: nat := 3
  const NoMemory := MemoryContext("", [], [], "")

  // ---------------------------------------------------------------------
  // Stable descending sort (`sort((a, b) => b.score - a.score)`)

  datatype Ranked<T> = Ranked(item: T, score: nat)

  predicate Desc<T>(s: seq<Ranked<T>>) {
    forall i, j :: 0 <= i < j < |s| ==> s[i].score >= s[j].score
  }

  /** Puts `x` in front of the first element that does not score higher, so
      it stays ahead of equal scores that came after it in the input. */
  function Insert<T(==)>(x: Ranked<T>, t: seq<Ranked<T>>): (r: seq<Ranked<T>>)
    ensures |r| == |t| + 1
    ensures multiset(r) == multiset(t) + multiset{x}
  {
    if t == [] || t[0].score <= x.score then [x] + t
    else
      assert t == [t[0]] + t[1..];
      [t[0]] + Insert(x, t[1..])
  }

  predicate Bounded<T>(s: seq<Ranked<T>>, b: nat) {
    forall k :: 0 <= k < |s| ==> s[k].score <= b
  }

  lemma ConsDesc<T>(a: Ranked<T>, s: seq<Ranked<T>>)
    requires Desc(s) && Bounded(s, a.score)
    ensures Desc([a] + s)
  {
    var r := [a] + s;
    forall i, j | 0 <= i < j < |r| ensures r[i].score >= r[j].score {
      assert r[j] == s[j - 1];
      if i > 0 {
        assert r[i] == s[i - 1];
      }
    }
  }

  lemma {:induction false} InsertBounded<T>(x: Ranked<T>, t: seq<Ranked<T>>, b: nat)
    requires Bounded(t, b) && x.score <= b
    ensures Bounded(Insert(x, t), b)
  {
    if t != [] && t[0].score > x.score {
      InsertBounded(x, t[1..], b);
      var r' := Insert(x, t[1..]);
      assert forall k :: 0 < k < |r'| + 1 ==> ([t[0]] + r')[k] == r'[k - 1];
    }
  }

  lemma {:induction false} InsertKeepsOrder<T>(x: Ranked<T>, t: seq<Ranked<T>>)
    requires Desc(t)
    ensures Desc(Insert(x, t))
  {
    if t == [] || t[0].score <= x.score {
      ConsDesc(x, t);
    } else {
      InsertKeepsOrder(x, t[1..]);
      InsertBounded(x, t[1..], t[0].score);
      ConsDesc(t[0], Insert(x, t[1..]));
    }
  }

  /** A permutation of the input in non-increasing score order. */
  function SortDesc<T(==)>(s: seq<Ranked<T>>): (r: seq<Ranked<T>>)
    ensures |r| == |s| && multiset(r) == multiset(s) && Desc(r)
  {
    if s == [] then []
    else
      assert s == [s[0]] + s[1..];
      var rest := SortDesc(s[1..]);
      InsertKeepsOrder(s[0], rest);
      Insert(s[0], rest)
  }

  /** `filter(item => item.score > threshold)`. */
  function Passing<T>(s: seq<Ranked<T>>, min: nat): seq<Ranked<T>> {
    if s == [] then []
    else if s[0].score >= min then [s[0]] + Passing(s[1..], min)
    else Passing(s[1..], min)
  }

  lemma {:induction false} PassingBounded<T>(s: seq<Ranked<T>>, min: nat, b: nat)
    requires Bounded(s, b)
    ensures Bounded(Passing(s, min), b)
  {
    if s != [] {
      assert Bounded(s[1..], b) by {
        forall k | 0 <= k < |s[1..]| ensures s[1..][k].score <= b {
          assert s[1..][k] == s[k + 1];
        }
      }
      PassingBounded(s[1..], min, b);
      var rest := Passing(s[1..], min);
      if s[0].score >= min {
        assert forall k :: 0 < k < |rest| + 1 ==> ([s[0]] + rest)[k] == rest[k - 1];
      }
    }
  }

  /** The filter keeps exactly the entries scoring at least `min`, and a
      descending list stays descending. */
  lemma {:induction false} PassingFacts<T>(s: seq<Ranked<T>>, min: nat)
    ensures forall y :: y in Passing(s, min) <==> y in s && y.score >= min
    ensures Desc(s) ==> Desc(Passing(s, min))
  {
    if s != [] {
      PassingFacts(s[1..], min);
      assert s == [s[0]] + s[1..];
      if Desc(s) && s[0].score >= min {
        assert Bounded(s[1..], s[0].score) by {
          forall k | 0 <= k < |s[1..]| ensures s[1..][k].score <= s[0].score {
            assert s[1..][k] == s[k + 1];
          }
        }
        PassingBounded(s[1..], min, s[0].score);
        ConsDesc(s[0], Passing(s[1..], min));
      }
    }
  }

  /** The filter distributes over concatenation, so the entries it keeps
      stay in their input order. */
  lemma {:induction false} PassingAppend<T>(a: seq<Ranked<T>>, b: seq<Ranked<T>>, min: nat)
    ensures Passing(a + b, min) == Passing(a, min) + Passing(b, min)
  {
    if a == [] {
      assert a + b == b;
    } else {
      assert (a + b)[1..] == a[1..] + b;
      PassingAppend(a[1..], b, min);
    }
  }

  /** `map(item => item.dream)`. */
  function Items<T>(s: seq<Ranked<T>>): (r: seq<T>)
    ensures |r| == |s| && forall i :: 0 <= i < |s| ==> r[i] == s[i].item
  {
    seq(|s|, i requires 0 <= i < |s| => s[i].item)
  }

  // ---------------------------------------------------------------------
  // Similarity (calculateSimilarity)

  /** Number of stored keywords that occur in the lower-cased input. */
  function KeywordHits(currentLower: string, keywords: seq<string>): nat {
    if keywords == [] then 0
    else
      var last := keywords[|keywords| - 1];
      KeywordHits(currentLower, keywords[..|keywords| - 1])
      + (if Contains(currentLower, Lower(last)) then 1 else 0)
  }

  /** Number of input tokens longer than one character that occur in the
      lower-cased dream content. */
  function TokenHits(words: seq<string>, contentLower: string): nat {
    if words == [] then 0
    else
      var last := words[|words| - 1];
      TokenHits(words[..|words| - 1], contentLower)
      + (if |last| > 1 && Contains(contentLower, last) then 1 else 0)
  }

  /** The score in tenths: 4 per keyword hit plus 1 per token hit, capped at
      10. It passes the threshold exactly when some keyword hits or at least
      three tokens do. */
  function Similarity(current: string, d: Dream): (r: nat)
    ensures r <= 10
    ensures r >= PassTenths <==>
              KeywordHits(Lower(current), d.keywords) >= 1
              || TokenHits(Tokens(Lower(current)), Lower(d.content)) >= 3
  {
    var cur := Lower(current);
    Min(4 * KeywordHits(cur, d.keywords) + TokenHits(Tokens(cur), Lower(d.content)), 10)
  }

  /** calculateSimilarity: two counting loops, then the cap. */
  method CalculateSimilarity(current: string, d: Dream) returns (score: nat)
    ensures score == Similarity(current, d)
  {
    score := 0;
    var currentLower := Lower(current);
    for i := 0 to |d.keywords|
      invariant score == 4 * KeywordHits(currentLower, d.keywords[..i])
    {
      assert d.keywords[..i + 1][..i] == d.keywords[..i];
      if Contains(currentLower, Lower(d.keywords[i])) {
        score := score + 4;
      }
    }
    assert d.keywords[..|d.keywords|] == d.keywords;
    var contentLower := Lower(d.content);
    var words := Tokens(currentLower);
    ghost var base := score;
    for i := 0 to |words|
      invariant score == base + TokenHits(words[..i], contentLower)
    {
      assert words[..i + 1][..i] == words[..i];
      if |words[i]| > 1 && Contains(contentLower, words[i]) {
        score := score + 1;
      }
    }
    assert words[..|words|] == words;
    score := Min(score, 10);
  }

  // ---------------------------------------------------------------------
  // Choosing the related dreams (loadMemoryContext)

  function Scored(current: string, dreams: seq<Dream>): (r: seq<Ranked<Dream>>)
    ensures |r| == |dreams|
    ensures forall i :: 0 <= i < |dreams| ==> r[i] == Ranked(dreams[i], Similarity(current, dreams[i]))
  {
    seq(|dreams|, i requires 0 <= i < |dreams| => Ranked(dreams[i], Similarity(current, dreams[i])))
  }

  function Recent(dreams: seq<Dream>): seq<Dream> {
    dreams[..Min(MaxMemoryItems, |dreams|)]
  }

  /** The passing dreams, best first, before the cut to two. */
  function Candidates(current: string, dreams: seq<Dream>): seq<Ranked<Dream>> {
    Passing(SortDesc(Scored(current, dreams)), PassTenths)
  }

  function Related(current: string, dreams: seq<Dream>): seq<Dream> {
    if current == "" then Recent(dreams)
    else
      var top := Candidates(current, dreams);
      var selected := Items(top[..Min(MaxMemoryItems, |top|)]);
      if selected == [] then Recent(dreams) else selected
  }

  /** With no input text the related dreams are the first two fetched
      (the store returns them newest first). */
  lemma RelatedWithoutInput(dreams: seq<Dream>)
    ensures Related("", dreams) == dreams[..Min(2, |dreams|)]
  {
  }

  /** The candidates are the passing dreams, each with its own score, best
      first; every passing dream is among them. */
  lemma CandidatesFacts(current: string, dreams: seq<Dream>)
    ensures var top := Candidates(current, dreams);
            Desc(top)
            && (forall y :: y in top ==>
                  y.item in dreams && y.score == Similarity(current, y.item) && y.score >= PassTenths)
            && (forall d :: d in dreams && Similarity(current, d) >= PassTenths ==>
                  Ranked(d, Similarity(current, d)) in top)
  {
    var scored := Scored(current, dreams);
    var sorted := SortDesc(scored);
    PassingFacts(sorted, PassTenths);
    forall y | y in sorted
      ensures y.item in dreams && y.score == Similarity(current, y.item)
    {
      assert y in multiset(sorted);
      var i :| 0 <= i < |scored| && scored[i] == y;
    }
    forall d | d in dreams && Similarity(current, d) >= PassTenths
      ensures Ranked(d, Similarity(current, d)) in sorted
    {
      var i :| 0 <= i < |dreams| && dreams[i] == d;
      assert scored[i] in multiset(sorted);
    }
  }

  /** At least one and at most two related dreams whenever any was fetched.
      If no dream passes the threshold they are the two most recent;
      otherwise they are the first two candidates (both when two pass), each
      passes, they come best first, and every passing dream left out scores
      no higher than any chosen one. */
  lemma RelatedChoice(current: string, dreams: seq<Dream>)
    requires current != ""
    ensures |dreams| > 0 ==> 1 <= |Related(current, dreams)| <= 2
    ensures (forall d :: d in dreams ==> Similarity(current, d) < PassTenths) ==>
              Related(current, dreams) == Recent(dreams)
    ensures (exists d :: d in dreams && Similarity(current, d) >= PassTenths) ==>
              var rel := Related(current, dreams);
              |rel| == Min(MaxMemoryItems, |Candidates(current, dreams)|)
              && (forall k :: 0 <= k < |rel| ==>
                 rel[k] in dreams && Similarity(current, rel[k]) >= PassTenths)
              && (forall k, l :: 0 <= k < l < |rel| ==>
                    Similarity(current, rel[k]) >= Similarity(current, rel[l]))
              && (forall d, k ::
                    (d in dreams && d !in rel && 0 <= k < |rel| && Similarity(current, d) >= PassTenths) ==>
                    Similarity(current, d) <= Similarity(current, rel[k]))
  {
    var top := Candidates(current, dreams);
    CandidatesFacts(current, dreams);
    var n := Min(MaxMemoryItems, |top|);
    var selected := Items(top[..n]);
    assert Related(current, dreams) == if selected == [] then Recent(dreams) else selected;
    if exists d :: d in dreams && Similarity(current, d) >= PassTenths {
      var d :| d in dreams && Similarity(current, d) >= PassTenths;
      assert Ranked(d, Similarity(current, d)) in top;
      assert |selected| == n > 0;
      assert Related(current, dreams) == selected;
      SelectedAreTop(current, dreams, top, n, selected);
    } else {
      NothingPasses(current, dreams, top);
    }
  }

  lemma NothingPasses(current: string, dreams: seq<Dream>, top: seq<Ranked<Dream>>)
    requires forall y :: y in top ==> y.item in dreams && Similarity(current, y.item) >= PassTenths
    requires forall d :: d in dreams ==> Similarity(current, d) < PassTenths
    ensures top == []
  {
    if top != [] {
      HeadIsMember(top);
      assert false;
    }
  }

  lemma HeadIsMember<T>(s: seq<T>)
    requires s != []
    ensures s[0] in s
  {
  }

  lemma SelectedAreTop(current: string, dreams: seq<Dream>, top: seq<Ranked<Dream>>, n: nat,
                       selected: seq<Dream>)
    requires Desc(top) && n <= |top| && selected == Items(top[..n])
    requires forall y :: y in top ==>
               y.item in dreams && y.score == Similarity(current, y.item) && y.score >= PassTenths
    requires forall d :: d in dreams && Similarity(current, d) >= PassTenths ==>
               Ranked(d, Similarity(current, d)) in top
    ensures forall k :: 0 <= k < |selected| ==>
              selected[k] in dreams && Similarity(current, selected[k]) >= PassTenths
    ensures forall k, l :: 0 <= k < l < |selected| ==>
              Similarity(current, selected[k]) >= Similarity(current, selected[l])
    ensures forall d, k ::
              (d in dreams && d !in selected && 0 <= k < |selected| && Similarity(current, d) >= PassTenths) ==>
              Similarity(current, d) <= Similarity(current, selected[k])
  {
    forall k | 0 <= k < |selected|
      ensures selected[k] in dreams && Similarity(current, selected[k]) == top[k].score >= PassTenths
    {
      assert top[k] in top;
    }
    forall e, k | e in dreams && e !in selected && 0 <= k < |selected|
                  && Similarity(current, e) >= PassTenths
      ensures Similarity(current, e) <= Similarity(current, selected[k])
    {
      var m :| 0 <= m < |top| && top[m] == Ranked(e, Similarity(current, e));
      assert m >= n;
    }
  }

  // ---------------------------------------------------------------------
  // Recurring keywords (buildMemoryContext)

  /** Every keyword of every dream, in order. */
  function Flat(dreams: seq<Dream>): seq<string> {
    if dreams == [] then [] else Flat(dreams[..|dreams| - 1]) + dreams[|dreams| - 1].keywords
  }

  /** `Object.entries(keywordCounts)`. */
  function Entries(ks: seq<string>): (r: seq<Ranked<string>>)
    ensures |r| == |Distinct(ks)|
    ensures forall i :: 0 <= i < |r| ==> r[i] == Ranked(Distinct(ks)[i], multiset(ks)[Distinct(ks)[i]])
  {
    var d := Distinct(ks);
    seq(|d|, i requires 0 <= i < |d| => Ranked(d[i], multiset(ks)[d[i]]))
  }

  function Take3(s: seq<Ranked<string>>): seq<Ranked<string>> {
    s[..Min(3, |s|)]
  }

  /** Keywords seen more than once, most frequent first, at most three. */
  function Recurrent(all: seq<Dream>): seq<string> {
    Items(Take3(SortDesc(Passing(Entries(Flat(all)), 2))))
  }

  /** Each ranked recurring entry carries its keyword's total count, which
      is at least two. */
  lemma RankedCounts(ks: seq<string>, sorted: seq<Ranked<string>>)
    requires sorted == SortDesc(Passing(Entries(ks), 2))
    ensures forall k :: 0 <= k < |sorted| ==>
              sorted[k].score == multiset(ks)[sorted[k].item] && sorted[k].score >= 2
  {
    var e := Entries(ks);
    var p := Passing(e, 2);
    PassingFacts(e, 2);
    forall k | 0 <= k < |sorted|
      ensures sorted[k].score == multiset(ks)[sorted[k].item] && sorted[k].score >= 2
    {
      var y := sorted[k];
      assert y in multiset(sorted);
      assert y in p;
      var i :| 0 <= i < |e| && e[i] == y;
    }
  }

  /** The three most frequent recurring keywords: as many as recur, up to
      three, each seen more than once over all fetched dreams, most frequent
      first; a recurring keyword left out is seen no more often than any
      kept one, and none is left out when at most three recur. */
  lemma RecurrentFacts(all: seq<Dream>)
    ensures var rec, ks := Recurrent(all), Flat(all);
            |rec| == Min(3, |Passing(Entries(ks), 2)|)
            && (forall k :: 0 <= k < |rec| ==> multiset(ks)[rec[k]] > 1)
            && (forall k, l :: 0 <= k < l < |rec| ==> multiset(ks)[rec[k]] >= multiset(ks)[rec[l]])
            && (forall w, j :: 0 <= j < |rec| && multiset(ks)[w] > 1 && w !in rec ==>
                  multiset(ks)[w] <= multiset(ks)[rec[j]])
            && (|Passing(Entries(ks), 2)| <= 3 ==> forall w :: multiset(ks)[w] > 1 ==> w in rec)
  {
    var ks := Flat(all);
    var sorted := SortDesc(Passing(Entries(ks), 2));
    var rec := Items(Take3(sorted));
    RankedCounts(ks, sorted);
    TopThree(ks, sorted);
    forall w | multiset(ks)[w] > 1
      ensures w !in rec ==> forall j :: 0 <= j < |rec| ==> multiset(ks)[w] <= multiset(ks)[rec[j]]
      ensures |sorted| <= 3 ==> w in rec
    {
      var m := RecurringRanked(ks, sorted, w);
      if m < |rec| {
        assert rec[m] == w;
      } else {
        forall j | 0 <= j < |rec| ensures multiset(ks)[w] <= multiset(ks)[rec[j]] {
          assert rec[j] == sorted[j].item;
        }
      }
    }
  }

  /** A keyword seen more than once has its entry among the ranked ones. */
  lemma RecurringRanked(ks: seq<string>, sorted: seq<Ranked<string>>, w: string) returns (m: nat)
    requires sorted == SortDesc(Passing(Entries(ks), 2))
    requires multiset(ks)[w] > 1
    ensures m < |sorted| && sorted[m] == Ranked(w, multiset(ks)[w])
  {
    var e := Entries(ks);
    DistinctFacts(ks);
    PassingFacts(e, 2);
    assert w in multiset(ks);
    assert w in ks;
    assert w in Distinct(ks);
    var i :| 0 <= i < |Distinct(ks)| && Distinct(ks)[i] == w;
    assert e[i] == Ranked(w, multiset(ks)[w]);
    assert e[i] in Passing(e, 2);
    assert e[i] in multiset(sorted);
    m :| 0 <= m < |sorted| && sorted[m] == e[i];
  }

  lemma TopThree(ks: seq<string>, sorted: seq<Ranked<string>>)
    requires Desc(sorted)
    requires forall k :: 0 <= k < |sorted| ==>
               sorted[k].score == multiset(ks)[sorted[k].item] && sorted[k].score >= 2
    ensures var rec := Items(Take3(sorted));
            |rec| <= 3
            && (forall k :: 0 <= k < |rec| ==> multiset(ks)[rec[k]] > 1)
            && (forall k, l :: 0 <= k < l < |rec| ==> multiset(ks)[rec[k]] >= multiset(ks)[rec[l]])
  {
    var rec := Items(Take3(sorted));
    assert forall k :: 0 <= k < |rec| ==> rec[k] == sorted[k].item;
  }

  // ---------------------------------------------------------------------
  // The memory text

  function Header(n: nat): string {
    "历史梦境" + NatToString(n) + "次。"
  }

  function RecurrentClause(rec: seq<string>): string {
    "反复：" + Join(rec, "、") + "。"
  }

  /** `dream.summary || dream.content.substring(0, 20)`. */
  function SummaryOf(d: Dream): string {
    if d.summary != "" then d.summary else Take(d.content, 20)
  }

  /** One `summary.substring(0, 15) + "... "` per dream, in order. */
  function Recents(rs: seq<Dream>): string {
    if rs == [] then ""
    else Recents(rs[..|rs| - 1]) + (Take(SummaryOf(rs[|rs| - 1]), 15) + "... ")
  }

  /** The count, then the recurring keywords when there are any. */
  function Opening(n: nat, rec: seq<string>): string {
    if rec == [] then Header(n) else Header(n) + RecurrentClause(rec)
  }

  function MemoryText(n: nat, rec: seq<string>, related: seq<Dream>): string {
    if related == [] then Opening(n, rec)
    else Opening(n, rec) + "近期：" + Recents(related[..Min(2, |related|)])
  }

  /** The text opens with the number of dreams fetched, and the clause right
      after that opening is the recurring-keyword clause exactly when there
      are recurring keywords. With related dreams the text ends with the
      last one's `... `. */
  lemma MemoryTextShape(n: nat, rec: seq<string>, related: seq<Dream>)
    ensures var t := MemoryText(n, rec, related);
            |Header(n)| <= |t| && t[..|Header(n)|] == Header(n)
            && (OccursAt(t, "反复：", |Header(n)|) <==> rec != [])
            && (related != [] ==> |t| >= 4 && t[|t| - 4..] == "... ")
  {
    var h := Header(n);
    var o := Opening(n, rec);
    var p := "反复：";
    OpeningShape(n, rec);
    if related != [] {
      var rs := related[..Min(2, |related|)];
      var x := "近期：";
      PrefixExtend(o, x, |h|);
      PrefixExtend(o + x, Recents(rs), |h|);
      if rec == [] {
        OccursAfter(h, x, p);
        assert x[..3] != p by { assert x[0] != p[0]; }
        OccursAfter(h + x, Recents(rs), p);
      } else {
        OccursAtExtend(o, x, p, |h|);
        OccursAtExtend(o + x, Recents(rs), p, |h|);
      }
      RecentsEnd(rs);
      SuffixExtend(o + x, Recents(rs), 4);
    }
  }

  /** The opening starts with the header, and the recurring-keyword clause
      follows it exactly when there are recurring keywords. */
  lemma OpeningShape(n: nat, rec: seq<string>)
    ensures var h, o := Header(n), Opening(n, rec);
            |h| <= |o| && o[..|h|] == h && (OccursAt(o, "反复：", |h|) <==> rec != [])
  {
    var h := Header(n);
    var p := "反复：";
    if rec == [] {
      OccursAfter(h, [], p);
      assert h + [] == h;
    } else {
      var c := RecurrentClause(rec);
      OccursAfter(h, c, p);
      assert c[..3] == p;
    }
  }

  /** The listing of at least one dream ends with `... `. */
  lemma RecentsEnd(rs: seq<Dream>)
    requires rs != []
    ensures |Recents(rs)| >= 4 && Recents(rs)[|Recents(rs)| - 4..] == "... "
  {
    var last := Take(SummaryOf(rs[|rs| - 1]), 15) + "... ";
    SuffixExtend(Take(SummaryOf(rs[|rs| - 1]), 15), "... ", 4);
    SuffixExtend(Recents(rs[..|rs| - 1]), last, 4);
  }

  function Build(related: seq<Dream>, all: seq<Dream>): MemoryContext {
    var rec := Recurrent(all);
    MemoryContext(MemoryText(|all|, rec, related), related, rec, "")
  }

  /** The counting pass of buildMemoryContext: `keywordCounts[kw] =
      (keywordCounts[kw] || 0) + 1` for every keyword of every dream; `keys`
      is the dictionary's key order. */
  method CountKeywords(all: seq<Dream>) returns (keys: seq<string>, counts: map<string, nat>)
    ensures keys == Distinct(Flat(all)) && counts == CountMap(Flat(all))
  {
    keys, counts := [], map[];
    for i := 0 to |all|
      invariant keys == Distinct(Flat(all[..i])) && counts == CountMap(Flat(all[..i]))
    {
      keys, counts := CountInto(keys, counts, Flat(all[..i]), all[i].keywords);
      FlatStep(all, i);
    }
    assert all[..|all|] == all;
  }

  /** The inner loop of the counting pass: one dream's keywords added to
      the tally of the keywords `seen` before them. */
  method CountInto(keys0: seq<string>, counts0: map<string, nat>, ghost seen: seq<string>, kws: seq<string>)
    returns (keys: seq<string>, counts: map<string, nat>)
    requires keys0 == Distinct(seen) && counts0 == CountMap(seen)
    ensures keys == Distinct(seen + kws) && counts == CountMap(seen + kws)
  {
    keys, counts := keys0, counts0;
    ghost var cur := seen;
    for j := 0 to |kws|
      invariant cur == seen + kws[..j]
      invariant keys == Distinct(cur) && counts == CountMap(cur)
    {
      var kw := kws[j];
      CountStep(keys, counts, cur, kw);
      if kw in counts {
        counts := counts[kw := counts[kw] + 1];
      } else {
        keys := keys + [kw];
        counts := counts[kw := 1];
      }
      SliceSnoc(seen, kws, j);
      cur := cur + [kw];
    }
    assert kws[..|kws|] == kws;
  }

  lemma SliceSnoc(seen: seq<string>, kws: seq<string>, j: nat)
    requires j < |kws|
    ensures seen + kws[..j + 1] == (seen + kws[..j]) + [kws[j]]
  {
    assert kws[..j + 1] == kws[..j] + [kws[j]];
  }

  lemma FlatStep(all: seq<Dream>, i: nat)
    requires i < |all|
    ensures Flat(all[..i + 1]) == Flat(all[..i]) + all[i].keywords
  {
    assert all[..i + 1][..i] == all[..i];
  }

  /** The text-building part of buildMemoryContext, appended piece by piece. */
  method RenderMemoryText(n: nat, rec: seq<string>, related: seq<Dream>) returns (text: string)
    ensures text == MemoryText(n, rec, related)
  {
    text := "历史梦境" + NatToString(n) + "次。";
    if |rec| > 0 {
      text := text + ("反复：" + Join(rec, "、") + "。");
    }
    if |related| > 0 {
      text := text + "近期：";
      ghost var lead := text;
      var rs := related[..Min(2, |related|)];
      for k := 0 to |rs|
        invariant text == lead + Recents(rs[..k])
      {
        var piece := Take(SummaryOf(rs[k]), 15) + "... ";
        assert rs[..k + 1][..k] == rs[..k];
        Assoc(lead, Recents(rs[..k]), piece);
        text := text + piece;
      }
      assert rs[..|rs|] == rs;
    }
  }

  /** buildMemoryContext: count, pick the recurring keywords, render. */
  method BuildMemoryContext(related: seq<Dream>, all: seq<Dream>) returns (ctx: MemoryContext)
    ensures ctx == Build(related, all)
  {
    var keys, counts := CountKeywords(all);
    KeysAreCounted(Flat(all));
    CountMapFacts(Flat(all));
    var entries := seq(|keys|, k requires 0 <= k < |keys| => Ranked(keys[k], counts[keys[k]]));
    assert entries == Entries(Flat(all));
    var rec := Items(Take3(SortDesc(Passing(entries, 2))));
    var text := RenderMemoryText(|all|, rec, related);
    ctx := MemoryContext(text, related, rec, "");
  }

  function Context(current: string, fetched: Option<seq<Dream>>): MemoryContext {
    match fetched
    case None => NoMemory
    case Some(dreams) => if dreams == [] then NoMemory else Build(Related(current, dreams), dreams)
  }

  /** Whatever happens the emotion trend is empty, and a failed or empty
      fetch gives the empty memory. */
  lemma ContextFacts(current: string, fetched: Option<seq<Dream>>)
    ensures Context(current, fetched).emotionTrend == ""
    ensures fetched.None? || fetched.value == [] ==>
              Context(current, fetched) == MemoryContext("", [], [], "")
    ensures fetched.Some? && fetched.value != [] ==>
              Context(current, fetched).relatedDreams == Related(current, fetched.value)
              && Context(current, fetched).recurrentSymbols == Recurrent(fetched.value)
  {
  }

  /** loadMemoryContext, given the result of the newest-first query (`None`
      when the query failed): score each dream, rank, cut, fall back, build. */
  method LoadMemoryContext(current: string, fetched: Option<seq<Dream>>) returns (ctx: MemoryContext)
    ensures ctx == Context(current, fetched)
  {
    if fetched.None? || fetched.value == [] {
      return NoMemory;
    }
    var dreams := fetched.value;
    if current == "" {
      ctx := BuildMemoryContext(Recent(dreams), dreams);
      return;
    }
    var scored: seq<Ranked<Dream>> := [];
    for i := 0 to |dreams|
      invariant |scored| == i
      invariant forall k :: 0 <= k < i ==> scored[k] == Ranked(dreams[k], Similarity(current, dreams[k]))
    {
      var s := CalculateSimilarity(current, dreams[i]);
      scored := scored + [Ranked(dreams[i], s)];
    }
    assert scored == Scored(current, dreams);
    var top := Passing(SortDesc(scored), PassTenths);
    var related := Items(top[..Min(MaxMemoryItems, |top|)]);
    if |related| == 0 {
      related := Recent(dreams);
    }
    ctx := BuildMemoryContext(related, dreams);
  }
}
