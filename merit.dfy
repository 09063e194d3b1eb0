/**
 * The incense app's `MeritManager`: merit per day and in total, the log of
 * burns with its random break, and the seven-day merit history, all kept
 * in the local key-value storage.
 *
 * The storage is a `MeritStore` object: the per-day records (keyed by day
 * number where the program keys by `toDateString()`), the stored total
 * (0 when missing, as `|| 0` reads it) and the burn log. The clock, the
 * day and `Math.random()` are inputs, and a storage call that throws is a
 * fault input naming which call it is.
 */
module Merit {
  import opened Wrappers

  datatype PrayerType = Career | Love | Health | Enemy

  datatype Offering = Offering(kind: PrayerType, time: int, amount: int)

  datatype MeritRecord = MeritRecord(count: int, types: seq<Offering>)

  datatype Burn = Burn(broken: bool, time: int)

  /** Which storage call of `addMerit` throws, if any. The read inside
      `getTotalMerit` is caught there and reads as 0. */
  datatype AddFault = AddOk | TodayReadThrows | TodayWriteThrows | TotalReadThrows | TotalWriteThrows

  /** Which storage call of `checkRandomBreak` throws, if any. The read
      inside `getBurnHistory` is caught there and reads as `[]`. */
  datatype BurnFault = BurnOk | HistoryReadThrows | HistoryWriteThrows

  const Cap := 1000
  const Window := 100
  const EmptyRecord := MeritRecord(0, [])

  /** `getStorageSync(key) || { count: 0, types: [] }`. */
  function RecordOf(days: map<int, MeritRecord>, day: int): MeritRecord {
    if day in days then days[day] else EmptyRecord
  }

  /** The record after `count += amount` and `types.push(...)`. */
  function Added(r: MeritRecord, kind: PrayerType, now: int, amount: int): MeritRecord {
    MeritRecord(r.count + amount, r.types + [Offering(kind, now, amount)])
  }

  function SumAmounts(os: seq<Offering>): int {
    if os == [] then 0 else SumAmounts(os[..|os| - 1]) + os[|os| - 1].amount
  }

  /** A record whose count is the sum of its offerings. */
  predicate Balanced(r: MeritRecord) {
    r.count == SumAmounts(r.types)
  }

  /** Adding an offering keeps a record balanced. */
  lemma AddedBalanced(r: MeritRecord, kind: PrayerType, now: int, amount: int)
    requires Balanced(r)
    ensures Balanced(Added(r, kind, now, amount))
  {
    var ts := r.types + [Offering(kind, now, amount)];
    assert ts[..|ts| - 1] == r.types;
  }

  /** `history.slice(-n)`: the last `n` entries, or all of them. */
  function Last(h: seq<Burn>, n: nat): (r: seq<Burn>)
    ensures |r| <= n && |r| <= |h|
  {
    if |h| <= n then h else h[|h| - n..]
  }

  function CountBroken(h: seq<Burn>): (n: nat)
    ensures n <= |h|
  {
    if h == [] then 0 else CountBroken(h[..|h| - 1]) + (if h[|h| - 1].broken then 1 else 0)
  }

  lemma {:induction false} CountBrokenZero(h: seq<Burn>)
    ensures CountBroken(h) == 0 <==> forall i :: 0 <= i < |h| ==> !h[i].broken
  {
    if h != [] {
      var init := h[..|h| - 1];
      CountBrokenZero(init);
      assert forall i :: 0 <= i < |init| ==> init[i] == h[i];
    }
  }

  /** The break probability: 5% when none of the last 100 burns broke,
      otherwise the base 1%. */
  function BreakRate(h: seq<Burn>): real {
    if CountBroken(Last(h, Window)) < 1 then 0.05 else 0.01
  }

  lemma BreakRateFacts(h: seq<Burn>)
    ensures BreakRate(h) == 0.05 <==> forall i :: 0 <= i < |Last(h, Window)| ==> !Last(h, Window)[i].broken
    ensures BreakRate(h) == 0.05 || BreakRate(h) == 0.01
  {
    CountBrokenZero(Last(h, Window));
  }

  /** The log after `push` and, past 1000 entries, one `shift`. */
  function Logged(h: seq<Burn>, b: Burn): (r: seq<Burn>)
    ensures |h| < Cap ==> r == h + [b]
    ensures |h| >= Cap ==> r == (h + [b])[1..]
  {
    var h' := h + [b];
    if |h'| > Cap then h'[1..] else h'
  }

  /** Logging keeps the log within 1000 entries, drops at most the oldest,
      and always ends with the new burn. */
  lemma LoggedFacts(h: seq<Burn>, b: Burn)
    requires |h| <= Cap
    ensures |Logged(h, b)| <= Cap
    ensures Logged(h, b)[|Logged(h, b)| - 1] == b
    ensures Logged(h, b) == h + [b] || Logged(h, b) == h[1..] + [b]
  {
    if |h| == Cap {
      assert (h + [b])[1..] == h[1..] + [b];
    }
  }

  /** The days of the seven-day walk, `today` back to `today - (n - 1)`,
      that hold a record with a positive count, newest first. */
  function ShownDays(days: map<int, MeritRecord>, today: int, n: nat): (r: seq<int>)
    ensures forall j :: 0 <= j < |r| ==> r[j] in days && days[r[j]].count > 0
    ensures |r| <= n
  {
    if n == 0 then []
    else
      var init := ShownDays(days, today, n - 1);
      var day := today - (n - 1);
      if day in days && days[day].count > 0 then init + [day] else init
  }

  lemma {:induction false} ShownDaysInWindow(days: map<int, MeritRecord>, today: int, n: nat)
    ensures forall j :: 0 <= j < |ShownDays(days, today, n)| ==> today - n < ShownDays(days, today, n)[j] <= today
  {
    if n > 0 {
      ShownDaysInWindow(days, today, n - 1);
    }
  }

  lemma {:induction false} ShownDaysDescending(days: map<int, MeritRecord>, today: int, n: nat)
    ensures forall i, j :: 0 <= i < j < |ShownDays(days, today, n)| ==> ShownDays(days, today, n)[i] > ShownDays(days, today, n)[j]
  {
    if n > 0 {
      ShownDaysDescending(days, today, n - 1);
      ShownDaysInWindow(days, today, n - 1);
    }
  }

  lemma {:induction false} ShownDaysComplete(days: map<int, MeritRecord>, today: int, n: nat)
    ensures forall d :: today - n < d <= today && d in days && days[d].count > 0 ==> d in ShownDays(days, today, n)
  {
    if n > 0 {
      ShownDaysComplete(days, today, n - 1);
    }
  }

  /** The records of the shown days. */
  function HistoryOf(days: map<int, MeritRecord>, today: int, n: nat): (r: seq<MeritRecord>)
    ensures |r| <= n
  {
    var ds := ShownDays(days, today, n);
    seq(|ds|, j requires 0 <= j < |ds| => days[ds[j]])
  }

  /** The seven-day history holds at most 7 records, each with a positive
      count, the record of a day of the last week, newest day first, and
      every such day with a positive record is there. */
  lemma HistoryFacts(days: map<int, MeritRecord>, today: int)
    ensures var h, ds := HistoryOf(days, today, 7), ShownDays(days, today, 7);
            |h| <= 7 && |h| == |ds|
            && (forall j :: 0 <= j < |h| ==> h[j].count > 0 && h[j] == days[ds[j]] && today - 7 < ds[j] <= today)
            && (forall i, j :: 0 <= i < j < |ds| ==> ds[i] > ds[j])
            && (forall d :: today - 7 < d <= today && d in days && days[d].count > 0 ==> d in ds)
  {
    ShownDaysInWindow(days, today, 7);
    ShownDaysDescending(days, today, 7);
    ShownDaysComplete(days, today, 7);
  }

  class MeritStore {
    var days: map<int, MeritRecord>
    /** The stored total; 0 stands for a missing key, as `|| 0` reads it. */
    var total: int
    var burns: seq<Burn>

    /** What the program keeps true of the storage: every day record's
        count is the sum of its offerings, and the log has at most 1000
        entries. */
    ghost predicate Valid()
      reads this
    {
      (forall d :: d in days ==> Balanced(days[d])) && |burns| <= Cap
    }

    constructor ()
      ensures days == map[] && total == 0 && burns == []
      ensures Valid()
    {
      days, total, burns := map[], 0, [];
    }

    /** `getTodayMerit`: today's count, 0 when nothing is stored or the
        read throws. */
    function TodayMerit(today: int, throws: bool): (n: int)
      reads this
      ensures throws || today !in days ==> n == 0
      ensures Valid() && !throws && today in days ==> n == SumAmounts(days[today].types)
    {
      if throws || today !in days then 0 else days[today].count
    }

    /** `getTotalMerit`: the stored total, 0 when the read throws. */
    function TotalMerit(throws: bool): (n: int)
      reads this
      ensures throws ==> n == 0
      ensures !throws ==> n == total
    {
      if throws then 0 else total
    }

    /** `getBurnHistory`: the stored log, empty when the read throws. */
    function BurnHistory(throws: bool): (h: seq<Burn>)
      reads this
      ensures throws ==> h == []
      ensures !throws ==> h == burns
      ensures Valid() ==> |h| <= Cap
    {
      if throws then [] else burns
    }

    /** `addMerit`: one more offering on today's record and `amount` more
        on the total; the result is today's new count, or 0 when a storage
        call throws. */
    method AddMerit(amount: int, kind: PrayerType, today: int, now: int, fault: AddFault) returns (count: int)
      requires Valid()
      modifies this
      ensures Valid()
      ensures burns == old(burns)
      ensures fault in {TodayReadThrows, TodayWriteThrows} ==> count == 0 && days == old(days) && total == old(total)
      ensures fault !in {TodayReadThrows, TodayWriteThrows} ==>
                days == old(days)[today := Added(RecordOf(old(days), today), kind, now, amount)]
      ensures fault == AddOk ==> total == old(total) + amount && count == days[today].count
      ensures fault == TotalReadThrows ==> total == amount && count == days[today].count
      ensures fault == TotalWriteThrows ==> total == old(total) && count == 0
    {
      if fault == TodayReadThrows {
        return 0;
      }
      var record := RecordOf(days, today);
      AddedBalanced(record, kind, now, amount);
      record := MeritRecord(record.count + amount, record.types + [Offering(kind, now, amount)]);
      if fault == TodayWriteThrows {
        return 0;
      }
      days := days[today := record];
      var t := TotalMerit(fault == TotalReadThrows) + amount;
      if fault == TotalWriteThrows {
        return 0;
      }
      total := t;
      count := record.count;
    }

    /** `checkRandomBreak`: the burn breaks when the draw falls under the
        rate the last 100 burns set; the burn is logged, and the answer is
        `false` when a storage write throws. */
    method CheckRandomBreak(draw: real, now: int, fault: BurnFault) returns (broken: bool)
      requires Valid()
      modifies this
      ensures Valid()
      ensures days == old(days) && total == old(total)
      ensures var h := old(BurnHistory(fault == HistoryReadThrows));
              var b := Burn(draw < BreakRate(h), now);
              if fault == HistoryWriteThrows then !broken && burns == old(burns)
              else broken == b.broken && burns == Logged(h, b)
    {
      var history := BurnHistory(fault == HistoryReadThrows);
      var recentBreaks := CountBroken(Last(history, Window));
      var adjustedRate := if recentBreaks < 1 then 0.05 else 0.01;
      var shouldBreak := draw < adjustedRate;
      history := history + [Burn(shouldBreak, now)];
      if |history| > Cap {
        history := history[1..];
      }
      if fault == HistoryWriteThrows {
        return false;
      }
      burns := history;
      broken := shouldBreak;
    }

    /** `getMeritHistory`: the walk over today and the six days before it,
        keeping the records with a positive count; `[]` when a read
        throws. */
    method MeritHistory(today: int, throws: bool) returns (history: seq<MeritRecord>)
      ensures history == if throws then [] else HistoryOf(days, today, 7)
    {
      if throws {
        return [];
      }
      history := [];
      ghost var shown: seq<int> := [];
      var i := 0;
      while i < 7
        invariant 0 <= i <= 7
        invariant shown == ShownDays(days, today, i)
        invariant history == HistoryOf(days, today, i)
      {
        var day := today - i;
        if day in days && days[day].count > 0 {
          history := history + [days[day]];
          shown := shown + [day];
        }
        i := i + 1;
      }
    }

    /** `clearAllData`. */
    method ClearAllData()
      modifies this
      ensures days == map[] && total == 0 && burns == []
      ensures Valid()
    {
      days, total, burns := map[], 0, [];
    }
  }

  /** The logged burn records the answer: after a successful check the
      log ends with a burn whose `broken` is what was returned, and a log
      of at most 1000 entries stays so. */
  lemma CheckLogsAnswer(h: seq<Burn>, draw: real, now: int)
    requires |h| <= Cap
    ensures var b := Burn(draw < BreakRate(h), now);
            |Logged(h, b)| <= Cap && Logged(h, b)[|Logged(h, b)| - 1].broken == (draw < BreakRate(h))
  {
    LoggedFacts(h, Burn(draw < BreakRate(h), now));
  }
}
