/**
 * Session-history analytics: per-day buckets, today's and the last seven
 * days' totals, the week strip, and the best and current streaks.
 *
 * A timestamp is read through `localDay`, which maps a `completedAt` string to
 * its local day number, or `None` when `new Date` cannot parse it. Day keys
 * are those day numbers, so consecutive days differ by exactly 1. The week
 * strip's keys are built in UTC while buckets use local days; `weekShift` is
 * the number of days the UTC key lies behind the local day at local midnight
 * (1 in time zones ahead of UTC, 0 otherwise).
 */
module Analytics {
  import opened Wrappers
  import opened JsValues

  /** A history entry as `build` reads it. */
  datatype RawSession = RawSession(completedAt: string, focusMinutes: Json)

  datatype Stat = Stat(sessions: int, focusMinutes: int)
  datatype WeekDay = WeekDay(day: int, stat: Stat)
  datatype Streak = Streak(current: int, best: int)
  datatype Analytics = Analytics(today: Stat, last7: Stat, streak: Streak, week: seq<WeekDay>)

  function Plus(a: Stat, b: Stat): Stat
  {
    Stat(a.sessions + b.sessions, a.focusMinutes + b.focusMinutes)
  }

  /** `Number(entry.focusMinutes) || 0`. */
  function SessionMinutes(e: RawSession): int
  {
    OrDefault(NumberOfValue(e.focusMinutes), 0)
  }

  /** The bucket of day `d`: the entries whose local day is `d`, counted and their minutes summed. */
  function DayTotal(h: seq<RawSession>, localDay: string -> Option<int>, d: int): (r: Stat)
    ensures r.sessions >= 0
    ensures r.sessions == 0 ==> r.focusMinutes == 0
  {
    if |h| == 0 then Stat(0, 0)
    else
      var rest := DayTotal(h[..|h| - 1], localDay, d);
      if localDay(h[|h| - 1].completedAt) == Some(d) then Plus(rest, Stat(1, SessionMinutes(h[|h| - 1]))) else rest
  }

  /** The days that hold at least one parsable entry. */
  function ActiveDays(h: seq<RawSession>, localDay: string -> Option<int>): (r: set<int>)
    ensures forall d :: d in r <==> DayTotal(h, localDay, d).sessions > 0
  {
    if |h| == 0 then {}
    else
      var rest := ActiveDays(h[..|h| - 1], localDay);
      match localDay(h[|h| - 1].completedAt)
      case None => rest
      case Some(d) => rest + {d}
  }

  /** One more entry at the end adds to its own day's bucket only. */
  lemma DayTotalSnoc(h: seq<RawSession>, e: RawSession, localDay: string -> Option<int>, d: int)
    ensures DayTotal(h + [e], localDay, d)
         == if localDay(e.completedAt) == Some(d) then Plus(DayTotal(h, localDay, d), Stat(1, SessionMinutes(e)))
            else DayTotal(h, localDay, d)
  {
    assert (h + [e])[..|h|] == h;
  }

  /** One more entry at the end adds its day, if it has one, to the active days. */
  lemma ActiveDaysSnoc(h: seq<RawSession>, e: RawSession, localDay: string -> Option<int>)
    ensures localDay(e.completedAt).None? ==> ActiveDays(h + [e], localDay) == ActiveDays(h, localDay)
    ensures localDay(e.completedAt).Some? ==>
      ActiveDays(h + [e], localDay) == ActiveDays(h, localDay) + {localDay(e.completedAt).value}
  {
    assert (h + [e])[..|h|] == h;
  }

  lemma {:induction false} DayTotalAppend(a: seq<RawSession>, b: seq<RawSession>, localDay: string -> Option<int>, d: int)
    ensures DayTotal(a + b, localDay, d) == Plus(DayTotal(a, localDay, d), DayTotal(b, localDay, d))
    decreases |b|
  {
    if |b| == 0 {
      assert a + b == a;
    } else {
      var init, last := b[..|b| - 1], b[|b| - 1];
      assert b == init + [last];
      assert a + b == (a + init) + [last];
      DayTotalAppend(a, init, localDay, d);
      DayTotalSnoc(a + init, last, localDay, d);
      DayTotalSnoc(init, last, localDay, d);
    }
  }

  /** Moving one entry to the end of the history leaves every bucket unchanged. */
  lemma MoveToEnd(b: seq<RawSession>, k: int, localDay: string -> Option<int>, d: int)
    requires 0 <= k < |b|
    ensures DayTotal(b, localDay, d) == DayTotal(b[..k] + b[k + 1..] + [b[k]], localDay, d)
  {
    assert b == b[..k] + [b[k]] + b[k + 1..];
    DayTotalAppend(b[..k], [b[k]], localDay, d);
    DayTotalAppend(b[..k] + [b[k]], b[k + 1..], localDay, d);
    DayTotalAppend(b[..k], b[k + 1..], localDay, d);
    DayTotalAppend(b[..k] + b[k + 1..], [b[k]], localDay, d);
  }

  lemma RemoveMatching(a: seq<RawSession>, b: seq<RawSession>, k: int)
    requires multiset(a) == multiset(b) && |a| > 0 && 0 <= k < |b| && b[k] == a[|a| - 1]
    ensures multiset(a[..|a| - 1]) == multiset(b[..k] + b[k + 1..])
  {
    var x := b[k];
    assert a == a[..|a| - 1] + [x];
    assert b == b[..k] + [x] + b[k + 1..];
    assert multiset(a[..|a| - 1]) == multiset(a) - multiset{x};
    assert multiset(b[..k] + b[k + 1..]) == multiset(b) - multiset{x};
  }

  /** A bucket depends only on which entries the history holds, not on their order. */
  lemma {:induction false} DayTotalPermutation(a: seq<RawSession>, b: seq<RawSession>, localDay: string -> Option<int>, d: int)
    requires multiset(a) == multiset(b)
    ensures DayTotal(a, localDay, d) == DayTotal(b, localDay, d)
    decreases |a|
  {
    if |a| == 0 {
      assert b == [];
    } else {
      var x := a[|a| - 1];
      assert x in multiset(b);
      var k :| 0 <= k < |b| && b[k] == x;
      var rest := b[..k] + b[k + 1..];
      RemoveMatching(a, b, k);
      DayTotalPermutation(a[..|a| - 1], rest, localDay, d);
      MoveToEnd(b, k, localDay, d);
      assert (rest + [x])[..|rest|] == rest;
    }
  }

  /**
   * The seven week-strip days, oldest first: the local day of `now` less
   * `weekShift`, and the six days before it.
   */
  function WeekDays(today: int, weekShift: int): (r: seq<int>)
    ensures |r| == 7 && r[6] == today - weekShift
    ensures forall i :: 0 < i < 7 ==> r[i] == r[i - 1] + 1
  {
    seq(7, i => today - weekShift - 6 + i)
  }

  /** With local keys the strip is seven consecutive days ending today. */
  lemma LocalWeekEndsToday(today: int)
    ensures |WeekDays(today, 0)| == 7 && WeekDays(today, 0)[6] == today
    ensures forall i :: 0 < i < 7 ==> WeekDays(today, 0)[i] == WeekDays(today, 0)[i - 1] + 1
  {
  }

  /** With UTC keys one day behind, the strip ends yesterday and never shows today. */
  lemma ShiftedWeekMissesToday(today: int)
    ensures WeekDays(today, 1)[6] == today - 1
    ensures today !in WeekDays(today, 1)
  {
  }

  /**
   * `week.reduce(...)`: component-wise sum, folded from the oldest day. Days
   * with session counts that are never negative sum to at least the count of
   * any one of them.
   */
  function SumStats(week: seq<WeekDay>): (r: Stat)
    ensures (forall i :: 0 <= i < |week| ==> week[i].stat.sessions >= 0) ==>
      forall i :: 0 <= i < |week| ==> week[i].stat.sessions <= r.sessions
  {
    if |week| == 0 then Stat(0, 0) else Plus(SumStats(week[..|week| - 1]), week[|week| - 1].stat)
  }

  /** Every `n`-day stretch from `lo` is active. */
  ghost predicate IsRun(active: set<int>, lo: int, n: int)
  {
    forall d :: lo <= d < lo + n ==> d in active
  }

  /** `best` is the length of the longest stretch of consecutive active days, 0 when none. */
  ghost predicate IsLongestRun(active: set<int>, best: int)
  {
    && (active == {} ==> best == 0)
    && (active != {} ==> best >= 1 && (exists lo :: IsRun(active, lo, best)) && NoRun(active, best + 1))
  }

  /** No stretch of `n` consecutive days is active. */
  ghost predicate NoRun(active: set<int>, n: int)
  {
    forall lo :: !IsRun(active, lo, n)
  }

  /** `current` active days run back from `today` and the day before them is inactive. */
  ghost predicate IsCurrentStreak(active: set<int>, today: int, current: int)
  {
    current >= 0 && IsRun(active, today - current + 1, current) && today - current !in active
  }

  /** What `build` returns for a history, a local `today` and a week-key shift. */
  ghost predicate Describes(h: seq<RawSession>, localDay: string -> Option<int>, today: int, weekShift: int, r: Analytics)
  {
    && r.today == DayTotal(h, localDay, today)
    && |r.week| == 7
    && (forall i :: 0 <= i < 7 ==>
          r.week[i] == WeekDay(WeekDays(today, weekShift)[i], DayTotal(h, localDay, WeekDays(today, weekShift)[i])))
    && r.last7 == SumStats(r.week)
    && IsLongestRun(ActiveDays(h, localDay), r.streak.best)
    && IsCurrentStreak(ActiveDays(h, localDay), today, r.streak.current)
  }

  lemma ActiveDaysPermutation(a: seq<RawSession>, b: seq<RawSession>, localDay: string -> Option<int>)
    requires multiset(a) == multiset(b)
    ensures ActiveDays(a, localDay) == ActiveDays(b, localDay)
  {
    forall d
      ensures d in ActiveDays(a, localDay) <==> d in ActiveDays(b, localDay)
    {
      DayTotalPermutation(a, b, localDay, d);
    }
  }

  /** The analytics of a history do not depend on the order of its entries. */
  lemma DescribesIgnoresOrder(a: seq<RawSession>, b: seq<RawSession>, localDay: string -> Option<int>, today: int, weekShift: int, r: Analytics)
    requires multiset(a) == multiset(b)
    ensures Describes(a, localDay, today, weekShift, r) <==> Describes(b, localDay, today, weekShift, r)
  {
    ActiveDaysPermutation(a, b, localDay);
    forall d
      ensures DayTotal(a, localDay, d) == DayTotal(b, localDay, d)
    {
      DayTotalPermutation(a, b, localDay, d);
    }
  }

  /** The best streak is determined by the active days. */
  lemma LongestRunUnique(active: set<int>, b1: int, b2: int)
    requires IsLongestRun(active, b1) && IsLongestRun(active, b2)
    ensures b1 == b2
  {
    if active != {} && b1 != b2 {
      var lo1 :| IsRun(active, lo1, b1);
      var lo2 :| IsRun(active, lo2, b2);
      if b1 < b2 {
        assert IsRun(active, lo2, b1 + 1);
      } else {
        assert IsRun(active, lo1, b2 + 1);
      }
    }
  }

  /** The current streak is determined by the active days and today. */
  lemma CurrentStreakUnique(active: set<int>, today: int, c1: int, c2: int)
    requires IsCurrentStreak(active, today, c1) && IsCurrentStreak(active, today, c2)
    ensures c1 == c2
  {
  }

  /** The current streak never exceeds the best one, and is 0 when today is inactive. */
  lemma CurrentAtMostBest(active: set<int>, today: int, current: int, best: int)
    requires IsLongestRun(active, best) && IsCurrentStreak(active, today, current)
    ensures current <= best
    ensures today !in active ==> current == 0
  {
    if current > 0 {
      assert today in active;
      if best < current {
        RunShrinks(active, today - current + 1, current, best + 1);
      }
    }
  }

  lemma RunShrinks(active: set<int>, lo: int, n: int, m: int)
    requires IsRun(active, lo, n) && m <= n
    ensures IsRun(active, lo, m)
  {
  }

  function KeySet(keys: seq<int>): set<int>
  {
    set k | k in keys
  }

  predicate StrictlyIncreasing(keys: seq<int>)
  {
    forall a, b :: 0 <= a < b < |keys| ==> keys[a] < keys[b]
  }

  predicate Distinct(keys: seq<int>)
  {
    forall a, b :: 0 <= a < b < |keys| ==> keys[a] != keys[b]
  }

  function InsertKey(x: int, s: seq<int>): (r: seq<int>)
    requires StrictlyIncreasing(s) && x !in s
    ensures StrictlyIncreasing(r) && KeySet(r) == KeySet(s) + {x} && |r| == |s| + 1
  {
    if |s| == 0 then [x]
    else if x < s[0] then [x] + s
    else
      var tail := InsertKey(x, s[1..]);
      assert KeySet(s) == {s[0]} + KeySet(s[1..]) by {
        assert s == [s[0]] + s[1..];
      }
      forall k | 0 <= k < |tail|
        ensures s[0] < tail[k]
      {
        assert tail[k] in KeySet(tail);
      }
      [s[0]] + tail
  }

  /** `[...byDay.keys()].sort()` on distinct day keys: ascending, nothing gained or lost. */
  function SortKeys(s: seq<int>): (r: seq<int>)
    requires Distinct(s)
    ensures StrictlyIncreasing(r) && KeySet(r) == KeySet(s) && |r| == |s|
  {
    if |s| == 0 then []
    else
      var init := s[..|s| - 1];
      assert s == init + [s[|s| - 1]];
      assert KeySet(s) == KeySet(init) + {s[|s| - 1]};
      InsertKey(s[|s| - 1], SortKeys(init))
  }

  /** No `n` adjacent positions among the first `limit` keys hold consecutive days. */
  predicate NoConsecutive(keys: seq<int>, limit: int, n: int)
    requires limit <= |keys|
  {
    forall j :: 0 <= j && j + n <= limit ==> !Consecutive(keys, j, n)
  }

  /** Indices `j .. j+n-1` of `keys` hold `n` consecutive days. */
  predicate Consecutive(keys: seq<int>, j: int, n: int)
    requires 0 <= j && j + n <= |keys|
  {
    forall k :: j <= k < j + n ==> keys[k] == keys[j] + (k - j)
  }

  lemma ConsecutiveIsRun(keys: seq<int>, j: int, n: int)
    requires 0 <= j && j + n <= |keys| && n >= 1 && Consecutive(keys, j, n)
    ensures IsRun(KeySet(keys), keys[j], n)
  {
    forall d | keys[j] <= d < keys[j] + n
      ensures d in KeySet(keys)
    {
      assert keys[j + (d - keys[j])] == d;
    }
  }

  /** In ascending keys a stretch of `n` active days occupies `n` adjacent positions. */
  lemma {:induction false} RunIsConsecutive(keys: seq<int>, lo: int, n: int) returns (j: int)
    requires StrictlyIncreasing(keys) && n >= 1 && IsRun(KeySet(keys), lo, n)
    ensures 0 <= j && j + n <= |keys| && keys[j] == lo && Consecutive(keys, j, n)
    decreases n
  {
    if n == 1 {
      assert lo in KeySet(keys);
      j :| 0 <= j < |keys| && keys[j] == lo;
    } else {
      j := RunIsConsecutive(keys, lo, n - 1);
      var top := lo + n - 1;
      assert top in KeySet(keys);
      var p :| 0 <= p < |keys| && keys[p] == top;
      assert keys[j + n - 2] == top - 1;
      assert keys[j + n - 1] <= keys[p];
      assert keys[j + n - 1] > keys[j + n - 2];
    }
  }

  /**
   * What the forward scan knows after the first `i` keys: `run` is the length
   * of the stretch ending at key `i - 1`, which cannot be extended backwards,
   * and `best` is the longest stretch among those keys.
   */
  ghost predicate ScanState(keys: seq<int>, i: int, run: int, best: int)
  {
    && 0 <= i <= |keys|
    && (i == 0 ==> best == 0 && run == 0)
    && (i > 0 ==>
          && 1 <= run <= i && Consecutive(keys, i - run, run)
          && (i - run > 0 ==> keys[i - run] != keys[i - run - 1] + 1)
          && 1 <= best <= i && exists j :: 0 <= j <= i - best && Consecutive(keys, j, best))
    && best + 1 >= 0 && NoConsecutive(keys, i, best + 1)
  }

  /** Before the scan nothing is known and nothing is claimed. */
  lemma ScanStart(keys: seq<int>)
    ensures ScanState(keys, 0, 0, 0)
  {
  }

  lemma ScanStep(keys: seq<int>, i: int, run: int, best: int, run': int, best': int)
    requires ScanState(keys, i, run, best) && i < |keys|
    requires run' == (if i > 0 && keys[i] - keys[i - 1] == 1 then run + 1 else 1)
    requires best' == (if run' > best then run' else best)
    ensures ScanState(keys, i + 1, run', best')
  {
    if i > 0 {
      if run' > best {
        assert Consecutive(keys, i + 1 - run', best');
      } else {
        var j :| 0 <= j <= i - best && Consecutive(keys, j, best);
        assert j <= i + 1 - best';
      }
    } else {
      assert Consecutive(keys, 0, 1);
    }
    ScanNoLonger(keys, i, run, best, run', best');
  }

  /** No stretch longer than the new best ends at or before key `i`. */
  lemma ScanNoLonger(keys: seq<int>, i: int, run: int, best: int, run': int, best': int)
    requires ScanState(keys, i, run, best) && i < |keys|
    requires run' == (if i > 0 && keys[i] - keys[i - 1] == 1 then run + 1 else 1)
    requires best' == (if run' > best then run' else best)
    ensures NoConsecutive(keys, i + 1, best' + 1)
  {
    var longer := best' + 1;
    var s := i + 1 - run';
    assert s > 0 ==> keys[s] != keys[s - 1] + 1;
    forall j | 0 <= j && j + longer <= i + 1
      ensures !Consecutive(keys, j, longer)
    {
      if j + longer <= i {
        assert !Consecutive(keys, j, best + 1);
      } else {
        assert 0 <= j < s;
        assert keys[s - 1] != keys[j] + (s - 1 - j) || keys[s] != keys[j] + (s - j);
      }
    }
  }

  /** After the whole scan, `best` is the longest stretch of consecutive active days. */
  lemma ScanGivesLongestRun(keys: seq<int>, run: int, best: int)
    requires StrictlyIncreasing(keys) && |keys| > 0 && ScanState(keys, |keys|, run, best)
    ensures IsLongestRun(KeySet(keys), best)
  {
    var active := KeySet(keys);
    assert keys[0] in active;
    var lo :| 0 <= lo <= |keys| - best && Consecutive(keys, lo, best);
    ConsecutiveIsRun(keys, lo, best);
    var longer := best + 1;
    forall start
      ensures !IsRun(active, start, longer)
    {
      if IsRun(active, start, longer) {
        var j := RunIsConsecutive(keys, start, longer);
      }
    }
  }

  /** The forward scan of `computeStreak`: the longest run among ascending distinct keys. */
  method BestStreak(keys: seq<int>) returns (best: int)
    requires StrictlyIncreasing(keys)
    ensures IsLongestRun(KeySet(keys), best)
  {
    if |keys| == 0 {
      assert KeySet(keys) == {};
      return 0;
    }
    var run := 0;
    best := 0;
    var previous: Option<int> := None;
    ScanStart(keys);
    for i := 0 to |keys|
      invariant previous == (if i == 0 then None else Some(keys[i - 1]))
      invariant ScanState(keys, i, run, best)
    {
      var current := keys[i];
      var run' := if previous.Some? && current - previous.value == 1 then run + 1 else 1;
      var best' := if run' > best then run' else best;
      ScanStep(keys, i, run, best, run', best');
      run, best, previous := run', best', Some(current);
    }
    ScanGivesLongestRun(keys, run, best);
  }

  /** The backward walk of `computeStreak`: active days counted back from today. */
  method CurrentStreak(keys: seq<int>, today: int) returns (current: int)
    requires StrictlyIncreasing(keys)
    ensures IsCurrentStreak(KeySet(keys), today, current)
  {
    var active := KeySet(keys);
    current := 0;
    if |keys| == 0 {
      assert today !in active;
      return;
    }
    var cursor := today;
    while cursor in active
      invariant current == today - cursor && current >= 0
      invariant IsRun(active, cursor + 1, current)
      decreases cursor - keys[0]
    {
      ghost var k :| 0 <= k < |keys| && keys[k] == cursor;
      assert k == 0 || keys[0] < keys[k];
      current := current + 1;
      cursor := cursor - 1;
    }
  }

  /**
   * `computeStreak` on ascending distinct day keys: the forward scan for the
   * best run, then the backward walk from today.
   */
  method ComputeStreak(keys: seq<int>, today: int) returns (streak: Streak)
    requires StrictlyIncreasing(keys)
    ensures IsLongestRun(KeySet(keys), streak.best)
    ensures IsCurrentStreak(KeySet(keys), today, streak.current)
  {
    if |keys| == 0 {
      return Streak(0, 0);
    }
    var best := BestStreak(keys);
    var current := CurrentStreak(keys, today);
    streak := Streak(current, best);
  }

  /** The buckets of `h`: one total per active day, and the active days without repeats. */
  ghost predicate Buckets(h: seq<RawSession>, localDay: string -> Option<int>, byDay: map<int, Stat>, order: seq<int>)
  {
    && (forall d :: d in byDay ==> byDay[d] == DayTotal(h, localDay, d))
    && byDay.Keys == ActiveDays(h, localDay)
    && KeySet(order) == byDay.Keys && Distinct(order)
  }

  /** Appending a new key to a list without repeats adds it to the set and keeps it without repeats. */
  lemma AppendKey(keys: seq<int>, key: int)
    requires Distinct(keys) && key !in keys
    ensures KeySet(keys + [key]) == KeySet(keys) + {key}
    ensures Distinct(keys + [key])
  {
    forall k
      ensures k in KeySet(keys + [key]) <==> k in KeySet(keys) + {key}
    {
      assert k in keys + [key] <==> k in keys || k == key;
    }
  }

  /** One pass of the bucketing loop keeps the buckets exact. */
  lemma BucketStep(h: seq<RawSession>, e: RawSession, localDay: string -> Option<int>,
                   byDay: map<int, Stat>, order: seq<int>, byDay': map<int, Stat>, order': seq<int>)
    requires Buckets(h, localDay, byDay, order)
    requires localDay(e.completedAt).None? ==> byDay' == byDay && order' == order
    requires localDay(e.completedAt).Some? ==>
      var key := localDay(e.completedAt).value;
      && byDay' == byDay[key := Plus(if key in byDay then byDay[key] else Stat(0, 0), Stat(1, SessionMinutes(e)))]
      && order' == (if key in byDay then order else order + [key])
    ensures Buckets(h + [e], localDay, byDay', order')
  {
    BucketTotals(h, e, localDay, byDay, byDay');
    if localDay(e.completedAt).Some? {
      var key := localDay(e.completedAt).value;
      if key !in byDay {
        assert key !in KeySet(order);
        AppendKey(order, key);
      }
    }
  }

  /** The totals half of a bucketing pass: every bucket stays exact and the keys stay the active days. */
  lemma BucketTotals(h: seq<RawSession>, e: RawSession, localDay: string -> Option<int>,
                     byDay: map<int, Stat>, byDay': map<int, Stat>)
    requires forall d :: d in byDay ==> byDay[d] == DayTotal(h, localDay, d)
    requires byDay.Keys == ActiveDays(h, localDay)
    requires localDay(e.completedAt).None? ==> byDay' == byDay
    requires localDay(e.completedAt).Some? ==>
      var key := localDay(e.completedAt).value;
      byDay' == byDay[key := Plus(if key in byDay then byDay[key] else Stat(0, 0), Stat(1, SessionMinutes(e)))]
    ensures forall d :: d in byDay' ==> byDay'[d] == DayTotal(h + [e], localDay, d)
    ensures byDay'.Keys == ActiveDays(h + [e], localDay)
  {
    ActiveDaysSnoc(h, e, localDay);
    forall d | d in byDay'
      ensures byDay'[d] == DayTotal(h + [e], localDay, d)
    {
      DayTotalSnoc(h, e, localDay, d);
      if d !in byDay {
        assert d !in ActiveDays(h, localDay);
      }
    }
  }

  /**
   * The bucketing pass of `build`: one total per day that holds a parsable
   * entry, and those days in the order they were first seen.
   */
  method BucketByDay(history: seq<RawSession>, localDay: string -> Option<int>) returns (byDay: map<int, Stat>, order: seq<int>)
    ensures forall d :: d in byDay ==> byDay[d] == DayTotal(history, localDay, d)
    ensures byDay.Keys == ActiveDays(history, localDay)
    ensures KeySet(order) == byDay.Keys && Distinct(order)
  {
    byDay, order := map[], [];
    for i := 0 to |history|
      invariant Buckets(history[..i], localDay, byDay, order)
    {
      var entry := history[i];
      ghost var oldByDay, oldOrder := byDay, order;
      match localDay(entry.completedAt) {
        case None =>
        case Some(key) =>
          var stat := if key in byDay then byDay[key] else Stat(0, 0);
          if key !in byDay {
            order := order + [key];
          }
          byDay := byDay[key := Plus(stat, Stat(1, SessionMinutes(entry)))];
      }
      BucketStep(history[..i], entry, localDay, oldByDay, oldOrder, byDay, order);
      assert history[..i + 1] == history[..i] + [entry];
    }
    assert history[..|history|] == history;
  }

  /**
   * `build`: buckets the parsable entries by local day in one pass, then
   * reads today, the week strip, its sum and the streaks off the buckets.
   */
  method Build(history: seq<RawSession>, localDay: string -> Option<int>, today: int, weekShift: int) returns (r: Analytics)
    ensures Describes(history, localDay, today, weekShift, r)
  {
    var byDay, order := BucketByDay(history, localDay);
    var todayStat := if today in byDay then byDay[today] else Stat(0, 0);
    var days := WeekDays(today, weekShift);
    var week := seq(7, k requires 0 <= k < 7 => WeekDay(days[k], if days[k] in byDay then byDay[days[k]] else Stat(0, 0)));
    var last7 := SumStats(week);
    var keys := SortKeys(order);
    var streak := ComputeStreak(keys, today);
    r := Analytics(todayStat, last7, streak, week);
  }

  /** The day totals of `n` consecutive days from `lo`, summed oldest first. */
  function DaysTotal(h: seq<RawSession>, localDay: string -> Option<int>, lo: int, n: nat): Stat
  {
    if n == 0 then Stat(0, 0) else Plus(DaysTotal(h, localDay, lo, n - 1), DayTotal(h, localDay, lo + n - 1))
  }

  /** The entries whose local day lies in `[lo, lo + n)`, counted and their minutes summed. */
  function WindowTotal(h: seq<RawSession>, localDay: string -> Option<int>, lo: int, n: nat): Stat
  {
    if |h| == 0 then Stat(0, 0)
    else
      var e := h[|h| - 1];
      var inWindow := match localDay(e.completedAt) case Some(d) => lo <= d < lo + n case None => false;
      var rest := WindowTotal(h[..|h| - 1], localDay, lo, n);
      if inWindow then Plus(rest, Stat(1, SessionMinutes(e))) else rest
  }

  /** Widening a window of days by its last day adds that day's bucket. */
  lemma {:induction false} WindowGrows(h: seq<RawSession>, localDay: string -> Option<int>, lo: int, n: nat)
    requires n >= 1
    ensures WindowTotal(h, localDay, lo, n) == Plus(WindowTotal(h, localDay, lo, n - 1), DayTotal(h, localDay, lo + n - 1))
    decreases |h|
  {
    if |h| > 0 {
      WindowGrows(h[..|h| - 1], localDay, lo, n);
    }
  }

  lemma {:induction false} DaysTotalIsWindow(h: seq<RawSession>, localDay: string -> Option<int>, lo: int, n: nat)
    ensures DaysTotal(h, localDay, lo, n) == WindowTotal(h, localDay, lo, n)
    decreases n
  {
    if n == 0 {
      WindowEmpty(h, localDay, lo);
    } else {
      DaysTotalIsWindow(h, localDay, lo, n - 1);
      DaysTotalStep(h, localDay, lo, n);
    }
  }

  /** One more day on both sides: the last day's bucket is added to equal totals. */
  lemma DaysTotalStep(h: seq<RawSession>, localDay: string -> Option<int>, lo: int, n: nat)
    requires n >= 1
    requires DaysTotal(h, localDay, lo, n - 1) == WindowTotal(h, localDay, lo, n - 1)
    ensures DaysTotal(h, localDay, lo, n) == WindowTotal(h, localDay, lo, n)
  {
    WindowGrows(h, localDay, lo, n);
  }

  lemma {:induction false} WindowEmpty(h: seq<RawSession>, localDay: string -> Option<int>, lo: int)
    ensures WindowTotal(h, localDay, lo, 0) == Stat(0, 0)
    decreases |h|
  {
    if |h| > 0 {
      WindowEmpty(h[..|h| - 1], localDay, lo);
    }
  }

  lemma {:induction false} WeekPrefixTotal(h: seq<RawSession>, localDay: string -> Option<int>, lo: int, week: seq<WeekDay>, k: nat)
    requires k <= |week|
    requires forall i :: 0 <= i < |week| ==> week[i].stat == DayTotal(h, localDay, lo + i)
    ensures SumStats(week[..k]) == DaysTotal(h, localDay, lo, k)
    decreases k
  {
    if k > 0 {
      var m: nat := k - 1;
      assert week[..k][..m] == week[..m];
      assert SumStats(week[..k]) == Plus(SumStats(week[..m]), week[m].stat);
      WeekPrefixTotal(h, localDay, lo, week, m);
      assert week[m].stat == DayTotal(h, localDay, lo + m);
    }
  }

  /**
   * `last7` counts exactly the parsable entries whose local day falls inside
   * the week strip's seven days, and sums their minutes.
   */
  lemma Last7IsWindow(h: seq<RawSession>, localDay: string -> Option<int>, today: int, weekShift: int, r: Analytics)
    requires Describes(h, localDay, today, weekShift, r)
    ensures r.last7 == WindowTotal(h, localDay, today - weekShift - 6, 7)
  {
    var lo := today - weekShift - 6;
    var days := WeekDays(today, weekShift);
    forall i | 0 <= i < |r.week|
      ensures r.week[i].stat == DayTotal(h, localDay, lo + i)
    {
      assert r.week[i] == WeekDay(days[i], DayTotal(h, localDay, days[i]));
      assert days[i] == lo + i;
    }
    WeekPrefixTotal(h, localDay, lo, r.week, |r.week|);
    assert r.week[..|r.week|] == r.week;
    DaysTotalIsWindow(h, localDay, lo, 7);
  }

  /** An empty history gives zero activity everywhere and streaks `{0, 0}`. */
  lemma EmptyHistory(localDay: string -> Option<int>, today: int, weekShift: int, r: Analytics)
    requires Describes([], localDay, today, weekShift, r)
    ensures r.today == Stat(0, 0) && r.last7 == Stat(0, 0) && r.streak == Streak(0, 0)
    ensures forall i :: 0 <= i < 7 ==> r.week[i].stat == Stat(0, 0)
  {
    Last7IsWindow([], localDay, today, weekShift, r);
    CurrentAtMostBest({}, today, r.streak.current, r.streak.best);
  }

  /** The buckets of a four-entry history on days `today`, `today - 1`, `today - 2`, `today - 4`. */
  lemma SmokeBuckets(history: seq<RawSession>, localDay: string -> Option<int>, today: int)
    requires |history| == 4
    requires localDay(history[0].completedAt) == Some(today)
    requires localDay(history[1].completedAt) == Some(today - 1)
    requires localDay(history[2].completedAt) == Some(today - 2)
    requires localDay(history[3].completedAt) == Some(today - 4)
    requires history[0].focusMinutes == JNum(25)
    ensures ActiveDays(history, localDay) == {today, today - 1, today - 2, today - 4}
    ensures DayTotal(history, localDay, today) == Stat(1, 25)
  {
    var h1, h2, h3 := history[..1], history[..2], history[..3];
    assert h1[..0] == [] && h2[..1] == h1 && h3[..2] == h2 && history[..3] == h3;
    SmokeTodayTotal(h1, h2, h3, history, localDay, today);
    SmokeActiveDays(h1, h2, h3, history, localDay, today);
  }

  /** Only the first of the four entries falls on `today`. */
  lemma SmokeTodayTotal(h1: seq<RawSession>, h2: seq<RawSession>, h3: seq<RawSession>, h4: seq<RawSession>, localDay: string -> Option<int>, today: int)
    requires |h1| == 1 && |h2| == 2 && |h3| == 3 && |h4| == 4
    requires h1[..0] == [] && h2[..1] == h1 && h3[..2] == h2 && h4[..3] == h3
    requires localDay(h1[0].completedAt) == Some(today) && h1[0].focusMinutes == JNum(25)
    requires localDay(h2[1].completedAt) == Some(today - 1)
    requires localDay(h3[2].completedAt) == Some(today - 2)
    requires localDay(h4[3].completedAt) == Some(today - 4)
    ensures DayTotal(h4, localDay, today) == Stat(1, 25)
  {
    assert DayTotal(h1, localDay, today) == Stat(1, 25);
    assert DayTotal(h2, localDay, today) == Stat(1, 25);
    assert DayTotal(h3, localDay, today) == Stat(1, 25);
  }

  /** The four entries' days, collected one prefix at a time. */
  lemma SmokeActiveDays(h1: seq<RawSession>, h2: seq<RawSession>, h3: seq<RawSession>, h4: seq<RawSession>, localDay: string -> Option<int>, today: int)
    requires |h1| == 1 && |h2| == 2 && |h3| == 3 && |h4| == 4
    requires h1[..0] == [] && h2[..1] == h1 && h3[..2] == h2 && h4[..3] == h3
    requires localDay(h1[0].completedAt) == Some(today) && h1[0].focusMinutes == JNum(25)
    requires localDay(h2[1].completedAt) == Some(today - 1)
    requires localDay(h3[2].completedAt) == Some(today - 2)
    requires localDay(h4[3].completedAt) == Some(today - 4)
    ensures ActiveDays(h4, localDay) == {today, today - 1, today - 2, today - 4}
  {
    assert ActiveDays(h1, localDay) == {today};
    assert ActiveDays(h2, localDay) == {today, today - 1};
    assert ActiveDays(h3, localDay) == {today, today - 1, today - 2};
  }

  /** Active days `today`, `today - 1`, `today - 2`, `today - 4` give streaks of 3 and 3. */
  lemma SmokeStreaks(today: int, streak: Streak)
    requires IsCurrentStreak({today, today - 1, today - 2, today - 4}, today, streak.current)
    requires IsLongestRun({today, today - 1, today - 2, today - 4}, streak.best)
    ensures streak == Streak(3, 3)
  {
    var active := {today, today - 1, today - 2, today - 4};
    assert IsCurrentStreak(active, today, 3);
    CurrentStreakUnique(active, today, streak.current, 3);
    assert IsRun(active, today - 2, 3);
    forall lo
      ensures !IsRun(active, lo, 4)
    {
      if lo <= today - 3 && today - 3 < lo + 4 {
        assert today - 3 !in active;
      } else if lo > today - 3 {
        assert lo + 3 !in active;
      } else {
        assert lo !in active;
      }
    }
    LongestRunUnique(active, streak.best, 3);
  }

  /**
   * The smoke-test history: sessions today, one and two days ago, and four
   * days ago, under any time zone that puts the four timestamps on those
   * local days.
   */
  method SmokeCheck(localDay: string -> Option<int>, today: int, weekShift: int) returns (r: Analytics)
    requires localDay("2026-02-13T09:00:00+08:00") == Some(today)
    requires localDay("2026-02-12T11:00:00+08:00") == Some(today - 1)
    requires localDay("2026-02-11T11:00:00+08:00") == Some(today - 2)
    requires localDay("2026-02-09T11:00:00+08:00") == Some(today - 4)
    ensures r.today == Stat(1, 25)
    ensures r.streak == Streak(3, 3)
    ensures |r.week| == 7
  {
    var history := [
      RawSession("2026-02-13T09:00:00+08:00", JNum(25)),
      RawSession("2026-02-12T11:00:00+08:00", JNum(30)),
      RawSession("2026-02-11T11:00:00+08:00", JNum(25)),
      RawSession("2026-02-09T11:00:00+08:00", JNum(25))];
    r := Build(history, localDay, today, weekShift);
    SmokeBuckets(history, localDay, today);
    SmokeStreaks(today, r.streak);
  }
}
