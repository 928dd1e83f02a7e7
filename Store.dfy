/** The per-group message store: an in-memory cache from group id to
    {messages, last_load} in front of day partitions on disk.

    The `.json.gz` partition files are modelled as an abstract map from
    (group, day) to the records the file holds; a write replaces one
    entry. `dayOf` is the local calendar day of a timestamp (the
    `strftime("%Y-%m-%d")` of the source, numbered so that later days are
    larger) and `now` is passed in wherever the source reads the clock. */
module Store {
  import opened Records

  /** A local calendar day, numbered consecutively. */
  type Day = int

  type Partitions = map<(string, Day), seq<Record>>

  datatype CacheEntry = CacheEntry(messages: seq<Record>, lastLoad: real)

  const SecondsPerDay: real := 86400.0

  /** `_append_message` writes when the day's count is 1 or a multiple of this. */
  const WriteBatch: nat := 10

  // ---------------------------------------------------------------------
  // Retention

  /** `now - retention_days * 86400`. */
  function Cutoff(now: real, retentionDays: int): real {
    now - (retentionDays as real) * SecondsPerDay
  }

  /** `[m for m in messages if m["timestamp"] > cutoff]`. */
  function Retained(msgs: seq<Record>, cutoff: real): (r: seq<Record>)
    ensures |r| <= |msgs|
    ensures forall i :: 0 <= i < |r| ==> r[i].timestamp > cutoff
  {
    if msgs == [] then []
    else
      var n := |msgs|;
      Retained(msgs[..n - 1], cutoff) + (if msgs[n - 1].timestamp > cutoff then [msgs[n - 1]] else [])
  }

  lemma {:induction false} RetainedMembers(msgs: seq<Record>, cutoff: real, r: Record)
    ensures r in Retained(msgs, cutoff) <==> r in msgs && r.timestamp > cutoff
  {
    if msgs != [] {
      var n := |msgs|;
      RetainedMembers(msgs[..n - 1], cutoff, r);
      assert msgs == msgs[..n - 1] + [msgs[n - 1]];
    }
  }

  lemma {:induction false} RetainedAll(msgs: seq<Record>, cutoff: real)
    requires forall i :: 0 <= i < |msgs| ==> msgs[i].timestamp > cutoff
    ensures Retained(msgs, cutoff) == msgs
  {
    if msgs != [] {
      var n := |msgs|;
      RetainedAll(msgs[..n - 1], cutoff);
      assert msgs == msgs[..n - 1] + [msgs[n - 1]];
    }
  }

  /** `_cleanup_messages`: returns the list itself when its first record is
      still inside the horizon, otherwise the filtered list. */
  function CleanupMessages(msgs: seq<Record>, now: real, retentionDays: int): (r: seq<Record>)
    ensures forall i :: 0 <= i < |r| ==> r[i] in msgs
  {
    var cutoff := Cutoff(now, retentionDays);
    if msgs == [] then msgs
    else if msgs[0].timestamp > cutoff then msgs
    else
      var r := Retained(msgs, cutoff);
      assert forall i :: 0 <= i < |r| ==> r[i] in msgs by {
        forall i | 0 <= i < |r| ensures r[i] in msgs {
          RetainedMembers(msgs, cutoff, r[i]);
        }
      }
      r
  }

  /** On a list sorted by timestamp the fast path gives what the filter
      gives. */
  lemma {:induction false} CleanupIsRetainedWhenSorted(msgs: seq<Record>, now: real, retentionDays: int)
    requires SortedByTime(msgs)
    ensures CleanupMessages(msgs, now, retentionDays) == Retained(msgs, Cutoff(now, retentionDays))
  {
    var cutoff := Cutoff(now, retentionDays);
    if msgs != [] && msgs[0].timestamp > cutoff {
      assert forall i :: 0 <= i < |msgs| ==> msgs[0].timestamp <= msgs[i].timestamp;
      RetainedAll(msgs, cutoff);
    }
  }

  // ---------------------------------------------------------------------
  // Days

  /** The cached records whose local day is d, in cache order. */
  function SameDay(msgs: seq<Record>, dayOf: real -> Day, d: Day): (r: seq<Record>)
    ensures |r| <= |msgs|
    ensures forall i :: 0 <= i < |r| ==> dayOf(r[i].timestamp) == d
  {
    if msgs == [] then []
    else
      var n := |msgs|;
      SameDay(msgs[..n - 1], dayOf, d) + (if dayOf(msgs[n - 1].timestamp) == d then [msgs[n - 1]] else [])
  }

  /** The days the records fall on. */
  function Days(msgs: seq<Record>, dayOf: real -> Day): set<Day>
  {
    if msgs == [] then {} else Days(msgs[..|msgs| - 1], dayOf) + {dayOf(msgs[|msgs| - 1].timestamp)}
  }

  lemma {:induction false} SameDayEmpty(msgs: seq<Record>, dayOf: real -> Day, d: Day)
    requires d !in Days(msgs, dayOf)
    ensures SameDay(msgs, dayOf, d) == []
  {
    if msgs != [] {
      SameDayEmpty(msgs[..|msgs| - 1], dayOf, d);
    }
  }

  lemma {:induction false} SameDaySnoc(msgs: seq<Record>, m: Record, dayOf: real -> Day, d: Day)
    ensures SameDay(msgs + [m], dayOf, d) ==
      SameDay(msgs, dayOf, d) + (if dayOf(m.timestamp) == d then [m] else [])
  {
    assert (msgs + [m])[..|msgs|] == msgs;
  }

  /** The `grouped` dict `_flush_cache` builds, one record at a time:
      day -> that day's records. */
  function GroupByDay(msgs: seq<Record>, dayOf: real -> Day): (g: map<Day, seq<Record>>)
    ensures g.Keys == Days(msgs, dayOf)
  {
    if msgs == [] then map[]
    else
      var g, m := GroupByDay(msgs[..|msgs| - 1], dayOf), msgs[|msgs| - 1];
      var d := dayOf(m.timestamp);
      g[d := (if d in g then g[d] else []) + [m]]
  }

  /** Each bucket holds exactly the records of its day, in cache order. */
  lemma {:induction false} GroupByDaySameDay(msgs: seq<Record>, dayOf: real -> Day, d: Day)
    requires d in Days(msgs, dayOf)
    ensures GroupByDay(msgs, dayOf)[d] == SameDay(msgs, dayOf, d)
  {
    var n := |msgs|;
    var prefix, m := msgs[..n - 1], msgs[n - 1];
    if d in Days(prefix, dayOf) {
      GroupByDaySameDay(prefix, dayOf, d);
    } else {
      SameDayEmpty(prefix, dayOf, d);
    }
  }

  /** The keys of the `grouped` dict in insertion order: each day where
      its first record appears. */
  function DayOrder(msgs: seq<Record>, dayOf: real -> Day): (o: seq<Day>)
    ensures forall d :: d in o <==> d in Days(msgs, dayOf)
  {
    if msgs == [] then []
    else
      var o := DayOrder(msgs[..|msgs| - 1], dayOf);
      var d := dayOf(msgs[|msgs| - 1].timestamp);
      if d in o then o else o + [d]
  }

  /** The partitions after writing grouped[d] for each d of ds in turn. */
  function WriteDays(disk: Partitions, group: string, grouped: map<Day, seq<Record>>, ds: seq<Day>)
    : Partitions
    requires forall d :: d in ds ==> d in grouped
  {
    if ds == [] then disk
    else
      var n, d := |ds|, ds[|ds| - 1];
      assert d in ds;
      WriteDays(disk, group, grouped, ds[..n - 1])[(group, d) := grouped[d]]
  }

  /** After the writes, a partition of one of the written days holds that
      day's records; every other partition, of this group or another, is
      as it was. */
  lemma {:induction false} WriteDaysAt(disk: Partitions, group: string, grouped: map<Day, seq<Record>>,
                                       ds: seq<Day>, g: string, d: Day)
    requires forall e :: e in ds ==> e in grouped
    ensures PartitionOf(WriteDays(disk, group, grouped, ds), g, d) ==
      if g == group && d in ds then grouped[d] else PartitionOf(disk, g, d)
  {
    if ds != [] {
      var n := |ds|;
      WriteDaysAt(disk, group, grouped, ds[..n - 1], g, d);
      assert ds == ds[..n - 1] + [ds[n - 1]];
    }
  }

  /** The partitions after `_flush_cache` of a non-empty cached list. */
  function Flushed(disk: Partitions, group: string, msgs: seq<Record>, dayOf: real -> Day): Partitions
  {
    WriteDays(disk, group, GroupByDay(msgs, dayOf), DayOrder(msgs, dayOf))
  }

  // ---------------------------------------------------------------------
  // Cold load

  function PartitionOf(disk: Partitions, group: string, d: Day): seq<Record> {
    if (group, d) in disk then disk[(group, d)] else []
  }

  /** The partitions of days lo .. hi-1 concatenated in day order, as the
      sorted file listing reads them; a missing day contributes nothing. */
  function WindowRecords(disk: Partitions, group: string, lo: Day, hi: Day): seq<Record>
    decreases hi - lo
  {
    if hi <= lo then [] else WindowRecords(disk, group, lo, hi - 1) + PartitionOf(disk, group, hi - 1)
  }

  /** Stable insertion of x behind every record that is not later than it. */
  function InsertByTime(s: seq<Record>, x: Record): (r: seq<Record>)
    ensures |r| == |s| + 1
  {
    if s == [] || s[|s| - 1].timestamp <= x.timestamp then s + [x]
    else InsertByTime(s[..|s| - 1], x) + [s[|s| - 1]]
  }

  lemma {:induction false} InsertByTimePerm(s: seq<Record>, x: Record)
    ensures multiset(InsertByTime(s, x)) == multiset(s) + multiset{x}
  {
    if !(s == [] || s[|s| - 1].timestamp <= x.timestamp) {
      var n := |s|;
      InsertByTimePerm(s[..n - 1], x);
      assert s == s[..n - 1] + [s[n - 1]];
    }
  }

  /** Insertion brings in no timestamp above a bound that s and x respect. */
  lemma {:induction false} InsertByTimeBound(s: seq<Record>, x: Record, b: real)
    requires forall i :: 0 <= i < |s| ==> s[i].timestamp <= b
    requires x.timestamp <= b
    ensures forall i :: 0 <= i < |InsertByTime(s, x)| ==> InsertByTime(s, x)[i].timestamp <= b
  {
    if !(s == [] || s[|s| - 1].timestamp <= x.timestamp) {
      InsertByTimeBound(s[..|s| - 1], x, b);
    }
  }

  lemma {:induction false} InsertByTimeSorted(s: seq<Record>, x: Record)
    requires SortedByTime(s)
    ensures SortedByTime(InsertByTime(s, x))
  {
    if !(s == [] || s[|s| - 1].timestamp <= x.timestamp) {
      var n := |s|;
      InsertByTimeSorted(s[..n - 1], x);
      InsertByTimeBound(s[..n - 1], x, s[n - 1].timestamp);
    }
  }

  /** `all_messages.sort(key=timestamp)`: Python's sort is stable, and so is
      this insertion sort. */
  function SortByTime(s: seq<Record>): (r: seq<Record>)
    ensures |r| == |s|
  {
    if s == [] then [] else InsertByTime(SortByTime(s[..|s| - 1]), s[|s| - 1])
  }

  /** The sort is a permutation of its input. */
  lemma {:induction false} SortByTimePerm(s: seq<Record>)
    ensures multiset(SortByTime(s)) == multiset(s)
  {
    if s != [] {
      SortByTimePerm(s[..|s| - 1]);
      InsertByTimePerm(SortByTime(s[..|s| - 1]), s[|s| - 1]);
      assert s == s[..|s| - 1] + [s[|s| - 1]];
    }
  }

  /** The sort orders by timestamp. */
  lemma {:induction false} SortByTimeSorted(s: seq<Record>)
    ensures SortedByTime(SortByTime(s))
  {
    if s != [] {
      SortByTimeSorted(s[..|s| - 1]);
      InsertByTimeSorted(SortByTime(s[..|s| - 1]), s[|s| - 1]);
    }
  }

  /** Sorting a list already in time order leaves it as it is. */
  lemma {:induction false} SortByTimeOfSorted(s: seq<Record>)
    requires SortedByTime(s)
    ensures SortByTime(s) == s
  {
    if s != [] {
      SortByTimeOfSorted(s[..|s| - 1]);
      assert s == s[..|s| - 1] + [s[|s| - 1]];
    }
  }

  /** `_load_messages_from_disk`: the partitions of the last
      retention_days + 1 local days (today included), sorted by time. */
  function ColdLoad(disk: Partitions, group: string, today: Day, retentionDays: int): seq<Record>
  {
    SortByTime(WindowRecords(disk, group, today - retentionDays, today + 1))
  }

  /** A cold load is the window's records, in time order. */
  lemma ColdLoadSortedWindow(disk: Partitions, group: string, today: Day, retentionDays: int)
    ensures SortedByTime(ColdLoad(disk, group, today, retentionDays))
    ensures multiset(ColdLoad(disk, group, today, retentionDays)) ==
      multiset(WindowRecords(disk, group, today - retentionDays, today + 1))
  {
    SortByTimeSorted(WindowRecords(disk, group, today - retentionDays, today + 1));
    SortByTimePerm(WindowRecords(disk, group, today - retentionDays, today + 1));
  }

  lemma {:induction false} WindowMembers(disk: Partitions, group: string, lo: Day, hi: Day, r: Record)
    ensures r in WindowRecords(disk, group, lo, hi) <==>
      exists d :: lo <= d < hi && (group, d) in disk && r in disk[(group, d)]
    decreases hi - lo
  {
    if hi > lo {
      WindowMembers(disk, group, lo, hi - 1, r);
      if r in PartitionOf(disk, group, hi - 1) {
        assert (group, hi - 1) in disk && r in disk[(group, hi - 1)];
      }
    }
  }

  /** A cold load holds exactly the records of the partitions inside the
      window, and nothing else. */
  lemma {:induction false} ColdLoadMembers(disk: Partitions, group: string, today: Day, retentionDays: int, r: Record)
    ensures r in ColdLoad(disk, group, today, retentionDays) <==>
      exists d :: today - retentionDays <= d <= today && (group, d) in disk && r in disk[(group, d)]
  {
    var w := WindowRecords(disk, group, today - retentionDays, today + 1);
    ColdLoadSortedWindow(disk, group, today, retentionDays);
    assert r in ColdLoad(disk, group, today, retentionDays) <==> r in multiset(w);
    WindowMembers(disk, group, today - retentionDays, today + 1, r);
  }

  // ---------------------------------------------------------------------
  // Flush, then cold load: the round trip

  ghost predicate Monotone(dayOf: real -> Day) {
    forall a: real, b: real :: a <= b ==> dayOf(a) <= dayOf(b)
  }

  ghost predicate DaySorted(s: seq<Record>, dayOf: real -> Day) {
    forall i, j :: 0 <= i < j < |s| ==> dayOf(s[i].timestamp) <= dayOf(s[j].timestamp)
  }

  /** The records of days before h, in order. */
  function Before(s: seq<Record>, dayOf: real -> Day, h: Day): seq<Record> {
    if s == [] then []
    else
      var n := |s|;
      Before(s[..n - 1], dayOf, h) + (if dayOf(s[n - 1].timestamp) < h then [s[n - 1]] else [])
  }

  lemma {:induction false} DaysBound(s: seq<Record>, dayOf: real -> Day, top: Day)
    requires forall i :: 0 <= i < |s| ==> dayOf(s[i].timestamp) <= top
    ensures forall d :: d in Days(s, dayOf) ==> d <= top
  {
    if s != [] {
      DaysBound(s[..|s| - 1], dayOf, top);
    }
  }

  lemma {:induction false} BeforeStep(s: seq<Record>, dayOf: real -> Day, h: Day)
    requires DaySorted(s, dayOf)
    ensures Before(s, dayOf, h) + SameDay(s, dayOf, h) == Before(s, dayOf, h + 1)
  {
    if s != [] {
      var n := |s|;
      var s', x := s[..n - 1], s[n - 1];
      var dx := dayOf(x.timestamp);
      assert DaySorted(s', dayOf) by {
        forall i, j | 0 <= i < j < |s'|
          ensures dayOf(s'[i].timestamp) <= dayOf(s'[j].timestamp)
        {
          assert s'[i] == s[i] && s'[j] == s[j];
        }
      }
      BeforeStep(s', dayOf, h);
      if dx < h {
        assert SameDay(s', dayOf, h) == [] by {
          forall i | 0 <= i < |s'| ensures dayOf(s'[i].timestamp) <= dx {
            assert s'[i] == s[i];
          }
          DaysBound(s', dayOf, dx);
          SameDayEmpty(s', dayOf, h);
        }
      }
    }
  }

  lemma {:induction false} BeforeNone(s: seq<Record>, dayOf: real -> Day, h: Day)
    requires forall i :: 0 <= i < |s| ==> h <= dayOf(s[i].timestamp)
    ensures Before(s, dayOf, h) == []
  {
    if s != [] {
      BeforeNone(s[..|s| - 1], dayOf, h);
    }
  }

  lemma {:induction false} BeforeAll(s: seq<Record>, dayOf: real -> Day, h: Day)
    requires forall i :: 0 <= i < |s| ==> dayOf(s[i].timestamp) < h
    ensures Before(s, dayOf, h) == s
  {
    if s != [] {
      BeforeAll(s[..|s| - 1], dayOf, h);
      assert s == s[..|s| - 1] + [s[|s| - 1]];
    }
  }

  /** One partition after a flush: the cached records of that day if the
      partition is the group's and the cache has records for that day,
      otherwise whatever was there. */
  lemma FlushedPartition(disk: Partitions, group: string, msgs: seq<Record>, dayOf: real -> Day,
                         g: string, d: Day)
    ensures PartitionOf(Flushed(disk, group, msgs, dayOf), g, d) ==
      if g == group && d in Days(msgs, dayOf) then SameDay(msgs, dayOf, d) else PartitionOf(disk, g, d)
  {
    WriteDaysAt(disk, group, GroupByDay(msgs, dayOf), DayOrder(msgs, dayOf), g, d);
    if d in Days(msgs, dayOf) {
      GroupByDaySameDay(msgs, dayOf, d);
    }
  }

  /** A flushed day holds that day's cached records, provided the day had
      no partition before unless the cache has records for it. */
  lemma {:induction false} FlushedDay(disk: Partitions, group: string, msgs: seq<Record>, dayOf: real -> Day, d: Day)
    requires d !in Days(msgs, dayOf) ==> (group, d) !in disk
    ensures PartitionOf(Flushed(disk, group, msgs, dayOf), group, d) == SameDay(msgs, dayOf, d)
  {
    FlushedPartition(disk, group, msgs, dayOf, group, d);
    if d !in Days(msgs, dayOf) {
      SameDayEmpty(msgs, dayOf, d);
    }
  }

  /** FlushedDay for every day of a window. */
  lemma {:induction false} FlushedDays(disk: Partitions, group: string, msgs: seq<Record>, dayOf: real -> Day, lo: Day, hi: Day)
    requires forall d :: lo <= d < hi && d !in Days(msgs, dayOf) ==> (group, d) !in disk
    ensures forall d :: lo <= d < hi ==>
      PartitionOf(Flushed(disk, group, msgs, dayOf), group, d) == SameDay(msgs, dayOf, d)
  {
    forall d | lo <= d < hi
      ensures PartitionOf(Flushed(disk, group, msgs, dayOf), group, d) == SameDay(msgs, dayOf, d)
    {
      FlushedDay(disk, group, msgs, dayOf, d);
    }
  }

  /** A monotone day function keeps a time-sorted list sorted by day. */
  lemma {:induction false} MonotoneSorted(msgs: seq<Record>, dayOf: real -> Day)
    requires Monotone(dayOf)
    requires SortedByTime(msgs)
    ensures DaySorted(msgs, dayOf)
  {
    forall i, j | 0 <= i < j < |msgs|
      ensures dayOf(msgs[i].timestamp) <= dayOf(msgs[j].timestamp)
    {
      assert msgs[i].timestamp <= msgs[j].timestamp;
    }
  }

  /** Reading partitions that hold, day by day, the cached records of that
      day, for days lo .. hi-1 in day order, gives the records before day
      hi in cache order. */
  lemma {:induction false} DayByDayWindow(f: Partitions, group: string, msgs: seq<Record>,
                                          dayOf: real -> Day, lo: Day, hi: Day)
    requires DaySorted(msgs, dayOf)
    requires forall i :: 0 <= i < |msgs| ==> lo <= dayOf(msgs[i].timestamp)
    requires forall d :: lo <= d < hi ==> PartitionOf(f, group, d) == SameDay(msgs, dayOf, d)
    requires lo <= hi
    ensures WindowRecords(f, group, lo, hi) == Before(msgs, dayOf, hi)
    decreases hi - lo
  {
    if hi == lo {
      BeforeNone(msgs, dayOf, lo);
    } else {
      calc {
        WindowRecords(f, group, lo, hi);
        WindowRecords(f, group, lo, hi - 1) + PartitionOf(f, group, hi - 1);
        { DayByDayWindow(f, group, msgs, dayOf, lo, hi - 1); }
        Before(msgs, dayOf, hi - 1) + SameDay(msgs, dayOf, hi - 1);
        { BeforeStep(msgs, dayOf, hi - 1); }
        Before(msgs, dayOf, hi);
      }
    }
  }

  /** Partitions that hold, for every day of the window, the records of a
      day-sorted list that fall on that day, read back as that list. */
  lemma {:induction false} WindowDayByDay(f: Partitions, group: string, msgs: seq<Record>,
                       dayOf: real -> Day, lo: Day, hi: Day)
    requires DaySorted(msgs, dayOf)
    requires lo <= hi
    requires forall i :: 0 <= i < |msgs| ==> lo <= dayOf(msgs[i].timestamp) < hi
    requires forall d :: lo <= d < hi ==> PartitionOf(f, group, d) == SameDay(msgs, dayOf, d)
    ensures WindowRecords(f, group, lo, hi) == msgs
  {
    DayByDayWindow(f, group, msgs, dayOf, lo, hi);
    BeforeAll(msgs, dayOf, hi);
  }

  /** A cold load of partitions that hold, day by day, the records of a
      time-sorted list gives back that list. */
  lemma {:induction false} ColdLoadDayByDay(f: Partitions, group: string, msgs: seq<Record>,
                                            dayOf: real -> Day, today: Day, retentionDays: nat)
    requires DaySorted(msgs, dayOf)
    requires SortedByTime(msgs)
    requires forall i :: 0 <= i < |msgs| ==>
      today - retentionDays <= dayOf(msgs[i].timestamp) <= today
    requires forall d :: today - retentionDays <= d < today + 1 ==>
      PartitionOf(f, group, d) == SameDay(msgs, dayOf, d)
    ensures ColdLoad(f, group, today, retentionDays) == msgs
  {
    WindowDayByDay(f, group, msgs, dayOf, today - retentionDays, today + 1);
    SortByTimeOfSorted(msgs);
  }

  /** Flushing a time-sorted cached list whose records all fall inside the
      retention window, into a group with no other partitions in that
      window, and then loading cold gives back exactly that list. */
  lemma {:induction false} FlushThenColdLoad(disk: Partitions, group: string, msgs: seq<Record>,
                          dayOf: real -> Day, today: Day, retentionDays: nat)
    requires Monotone(dayOf)
    requires SortedByTime(msgs)
    requires forall i :: 0 <= i < |msgs| ==>
      today - retentionDays <= dayOf(msgs[i].timestamp) <= today
    requires forall d :: today - retentionDays <= d <= today && d !in Days(msgs, dayOf) ==>
      (group, d) !in disk
    ensures ColdLoad(Flushed(disk, group, msgs, dayOf), group, today, retentionDays) == msgs
  {
    MonotoneSorted(msgs, dayOf);
    FlushedDays(disk, group, msgs, dayOf, today - retentionDays, today + 1);
    ColdLoadDayByDay(Flushed(disk, group, msgs, dayOf), group, msgs, dayOf, today, retentionDays);
  }

  // ---------------------------------------------------------------------
  // The cache entry after a load, and after an append

  /** The entry `_load_messages` leaves behind: unchanged on the same day,
      evicted past the horizon with last_load := now after a day change,
      loaded from disk when absent. */
  function LoadedEntry(cache: map<string, CacheEntry>, disk: Partitions, group: string, now: real,
                       dayOf: real -> Day, retentionDays: int): CacheEntry
  {
    if group in cache then
      if dayOf(cache[group].lastLoad) == dayOf(now) then cache[group]
      else CacheEntry(Retained(cache[group].messages, Cutoff(now, retentionDays)), now)
    else CacheEntry(ColdLoad(disk, group, dayOf(now), retentionDays), now)
  }

  /** After a load on a later day, a record is kept iff it was cached and
      is newer than the cutoff. */
  lemma {:induction false} DayChangeEvicts(cache: map<string, CacheEntry>, disk: Partitions, group: string, now: real,
                        dayOf: real -> Day, retentionDays: int, r: Record)
    requires group in cache && dayOf(cache[group].lastLoad) != dayOf(now)
    ensures var e := LoadedEntry(cache, disk, group, now, dayOf, retentionDays);
      e.lastLoad == now &&
      (r in e.messages <==> r in cache[group].messages && r.timestamp > Cutoff(now, retentionDays))
  {
    RetainedMembers(cache[group].messages, Cutoff(now, retentionDays), r);
  }

  /** The entry after `_append_message`: the old list plus the message,
      a fresh entry stamped `now` when there was none. */
  function AppendedEntry(cache: map<string, CacheEntry>, group: string, msg: Record, now: real): CacheEntry
  {
    if group in cache then CacheEntry(cache[group].messages + [msg], cache[group].lastLoad)
    else CacheEntry([msg], now)
  }

  predicate NeedsWrite(dayCount: nat) {
    dayCount == 1 || dayCount % WriteBatch == 0
  }

  /** The first message of a day is always written, and the partition then
      holds just that message. */
  lemma {:induction false} FirstOfDayIsWritten(msgs: seq<Record>, msg: Record, dayOf: real -> Day)
    requires dayOf(msg.timestamp) !in Days(msgs, dayOf)
    ensures SameDay(msgs + [msg], dayOf, dayOf(msg.timestamp)) == [msg]
    ensures NeedsWrite(|SameDay(msgs + [msg], dayOf, dayOf(msg.timestamp))|)
  {
    SameDaySnoc(msgs, msg, dayOf, dayOf(msg.timestamp));
    SameDayEmpty(msgs, dayOf, dayOf(msg.timestamp));
  }

  /** An append on a day that already has records grows that day's list
      by exactly the new message. */
  lemma {:induction false} AppendGrowsDay(msgs: seq<Record>, msg: Record, dayOf: real -> Day)
    ensures SameDay(msgs + [msg], dayOf, dayOf(msg.timestamp)) ==
      SameDay(msgs, dayOf, dayOf(msg.timestamp)) + [msg]
  {
    SameDaySnoc(msgs, msg, dayOf, dayOf(msg.timestamp));
  }

  // ---------------------------------------------------------------------
  // The store

  /** The grouping loop of `_flush_cache`: bucket the cached records by
      local day, keeping their order within each day, and the days in the
      order the dict first sees them. */
  method GroupRecordsByDay(messages: seq<Record>, dayOf: real -> Day)
    returns (grouped: map<Day, seq<Record>>, order: seq<Day>)
    ensures grouped == GroupByDay(messages, dayOf)
    ensures order == DayOrder(messages, dayOf)
  {
    grouped, order := map[], [];
    var i := 0;
    while i < |messages|
      invariant i <= |messages|
      invariant grouped == GroupByDay(messages[..i], dayOf)
      invariant order == DayOrder(messages[..i], dayOf)
    {
      var d := dayOf(messages[i].timestamp);
      assert messages[..i + 1][..i] == messages[..i];
      if d !in grouped {
        grouped := grouped[d := []];
        order := order + [d];
      }
      grouped := grouped[d := grouped[d] + [messages[i]]];
      i := i + 1;
    }
    assert messages[..i] == messages;
  }

  class MessageStore {
    var cache: map<string, CacheEntry>
    var disk: Partitions
    const dayOf: real -> Day
    const retentionDays: int

    constructor (dayOf: real -> Day, retentionDays: int, disk: Partitions)
      ensures this.dayOf == dayOf && this.retentionDays == retentionDays
      ensures cache == map[] && this.disk == disk
    {
      this.dayOf := dayOf;
      this.retentionDays := retentionDays;
      this.cache := map[];
      this.disk := disk;
    }

    /** `_write_daily_messages`: replace one day's partition. */
    method WriteDay(group: string, d: Day, msgs: seq<Record>)
      modifies this`disk
      ensures disk == old(disk)[(group, d) := msgs]
    {
      disk := disk[(group, d) := msgs];
    }

    /** `_load_messages_from_disk`. */
    method LoadFromDisk(group: string, now: real) returns (msgs: seq<Record>)
      modifies this`cache
      ensures msgs == ColdLoad(disk, group, dayOf(now), retentionDays)
      ensures cache == old(cache)[group := CacheEntry(msgs, now)]
    {
      var today := dayOf(now);
      var all: seq<Record> := [];
      if retentionDays >= 0 {
        var d := today - retentionDays;
        while d <= today
          invariant today - retentionDays <= d <= today + 1
          invariant all == WindowRecords(disk, group, today - retentionDays, d)
        {
          if (group, d) in disk {
            all := all + disk[(group, d)];
          }
          d := d + 1;
        }
      }
      msgs := SortByTime(all);
      cache := cache[group := CacheEntry(msgs, now)];
    }

    /** `_load_messages`. */
    method Load(group: string, now: real) returns (msgs: seq<Record>)
      modifies this`cache
      ensures cache == old(cache)[group := LoadedEntry(old(cache), disk, group, now, dayOf, retentionDays)]
      ensures msgs == cache[group].messages
    {
      if group in cache {
        var entry := cache[group];
        if dayOf(entry.lastLoad) == dayOf(now) {
          return entry.messages;
        }
        var kept := Retained(entry.messages, Cutoff(now, retentionDays));
        cache := cache[group := CacheEntry(kept, now)];
        return kept;
      }
      msgs := LoadFromDisk(group, now);
    }

    /** `_append_message`. */
    method Append(group: string, msg: Record, now: real)
      modifies this
      ensures cache == old(cache)[group := AppendedEntry(old(cache), group, msg, now)]
      ensures var dayMsgs := SameDay(cache[group].messages, dayOf, dayOf(msg.timestamp));
        disk == if NeedsWrite(|dayMsgs|) then old(disk)[(group, dayOf(msg.timestamp)) := dayMsgs]
                else old(disk)
    {
      if group !in cache {
        cache := cache[group := CacheEntry([], now)];
      }
      var entry := cache[group];
      var messages := entry.messages + [msg];
      cache := cache[group := CacheEntry(messages, entry.lastLoad)];
      var today := dayOf(msg.timestamp);
      var todayMessages := SameDay(messages, dayOf, today);
      if |todayMessages| == 1 || |todayMessages| % WriteBatch == 0 {
        WriteDay(group, today, todayMessages);
      }
    }

    /** `_flush_cache`. */
    method Flush(group: string)
      modifies this`disk
      ensures disk == if group in cache && cache[group].messages != []
                      then Flushed(old(disk), group, cache[group].messages, dayOf)
                      else old(disk)
    {
      if group !in cache {
        return;
      }
      var messages := cache[group].messages;
      if messages == [] {
        return;
      }
      var grouped, order := GroupRecordsByDay(messages, dayOf);
      WriteGrouped(group, grouped, order);
    }

    /** The write loop of `_flush_cache`: one partition write per day, in
        the dict's order. */
    method WriteGrouped(group: string, grouped: map<Day, seq<Record>>, order: seq<Day>)
      requires forall d :: d in order ==> d in grouped
      modifies this`disk
      ensures disk == WriteDays(old(disk), group, grouped, order)
    {
      for i := 0 to |order|
        invariant disk == WriteDays(old(disk), group, grouped, order[..i])
      {
        assert order[..i + 1][..i] == order[..i];
        WriteDay(group, order[i], grouped[order[i]]);
      }
      assert order[..|order|] == order;
    }

    /** The erase in `clear_data`: drop the cache entry and the group's
      partitions. */
    method Erase(group: string)
      modifies this
      ensures cache == old(cache) - {group}
      ensures disk == map k | k in old(disk) && k.0 != group :: old(disk)[k]
    {
      if group in cache {
        cache := cache - {group};
      }
      disk := map k | k in disk && k.0 != group :: disk[k];
    }
  }

  /** After an erase, nothing of the group is left to load. */
  lemma {:induction false} ErasedWindowEmpty(disk: Partitions, group: string, lo: Day, hi: Day)
    requires forall k :: k in disk ==> k.0 != group
    ensures WindowRecords(disk, group, lo, hi) == []
    decreases hi - lo
  {
    if hi > lo {
      ErasedWindowEmpty(disk, group, lo, hi - 1);
    }
  }
}
