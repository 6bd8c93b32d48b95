/**
 * The weekly forecast strip: a flat list of 3-hour forecast entries and the
 * location's UTC offset (seconds) are grouped into calendar days of
 * `dt + offset` read as UTC; each day keeps its entries, the running minimum
 * and maximum temperature, and the entry nearest to local noon; the first
 * seven days, in first-seen order, become the summaries shown.
 *
 * Times, offsets and temperatures are integers.
 */
module Forecast {
  import opened Wrappers

  const SecondsPerDay := 86400
  const SecondsPerHour := 3600
  const Noon := 12
  /** At most one week of days is shown. */
  const MaxDays := 7
  /** An ECMAScript time value lies within 8.64e15 ms of the epoch (TimeClip, section 21.4.1.31 of
      ECMA-262); beyond it a `Date` is invalid. In seconds: */
  const MaxTimeSeconds := 8_640_000_000_000

  /** `weather[i]` of an entry: its icon code and description. */
  datatype Condition = Condition(icon: string, description: string)

  /** One forecast entry. `tempMin` / `tempMax` are `main.temp_min` / `main.temp_max`, which may be missing. */
  datatype Entry = Entry(dt: int, temp: int, tempMin: Option<int>, tempMax: Option<int>, weather: seq<Condition>)

  /** The bucket key of `dayKey`. A valid date is identified by its day number since the epoch
      (the `YYYY-MM-DD` text is a one-to-one rendering of it); every time outside the `Date`
      range gives the same key, the text "NaN-NaN-NaN". */
  datatype Key = Day(n: int) | InvalidDate

  function Min(a: int, b: int): int { if a <= b then a else b }
  function Max(a: int, b: int): int { if a >= b then a else b }
  function Abs(a: int): int { if a >= 0 then a else -a }

  /** `new Date((dt + tz) * 1000)` is a valid date. */
  predicate ValidTime(dt: int, tz: int) {
    -MaxTimeSeconds <= dt + tz <= MaxTimeSeconds
  }

  /** `dayKey(dt, tz)`: the UTC calendar day of `dt + tz`. */
  function DayKey(dt: int, tz: int): (k: Key)
    ensures k.Day? <==> ValidTime(dt, tz)
    ensures k.Day? ==> k.n * SecondsPerDay <= dt + tz < (k.n + 1) * SecondsPerDay
  {
    if ValidTime(dt, tz) then Day((dt + tz) / SecondsPerDay) else InvalidDate
  }

  /** `getUTCHours()` of `dt + tz`; `None` is the NaN of an invalid date. */
  function UtcHour(dt: int, tz: int): (h: Option<int>)
    ensures h.Some? <==> ValidTime(dt, tz)
    ensures h.Some? ==> 0 <= h.value < 24
    ensures h.Some? ==> DayKey(dt, tz).n * SecondsPerDay + h.value * SecondsPerHour <= dt + tz
                        < DayKey(dt, tz).n * SecondsPerDay + (h.value + 1) * SecondsPerHour
  {
    if ValidTime(dt, tz) then Some(((dt + tz) % SecondsPerDay) / SecondsPerHour) else None
  }

  /** `|hour - 12| < |curHour - 12|`; any comparison with NaN is false. */
  predicate Closer(e: Entry, cur: Entry, tz: int) {
    var h, c := UtcHour(e.dt, tz), UtcHour(cur.dt, tz);
    h.Some? && c.Some? && Abs(h.value - Noon) < Abs(c.value - Noon)
  }

  /** `temp_min ?? temp` */
  function Low(e: Entry): int { e.tempMin.GetOr(e.temp) }
  /** `temp_max ?? temp` */
  function High(e: Entry): int { e.tempMax.GetOr(e.temp) }

  /** The record kept per day: `items`, `min`, `max` and `iconAtNoon`. */
  datatype Bucket = Bucket(items: seq<Entry>, min: int, max: int, rep: Entry)

  /** The grouping dictionary: its keys in insertion order (the order `Object.entries` lists
      them, as none of them is an array index) and the record under each key. */
  datatype Table = Table(order: seq<Key>, buckets: map<Key, Bucket>)

  ghost predicate WellFormed(t: Table) {
    && (forall i, j :: 0 <= i < j < |t.order| ==> t.order[i] != t.order[j])
    && (forall k :: k in t.order <==> k in t.buckets)
  }

  /** The record a day's first entry creates: `+Infinity` and `-Infinity` give way to the
      entry's own low and high, and the entry is its own representative. */
  function NewBucket(e: Entry): Bucket {
    Bucket([e], Low(e), High(e), e)
  }

  /** One later entry of the day joins its record. */
  function AddEntry(b: Bucket, e: Entry, tz: int): Bucket {
    Bucket(b.items + [e], Min(b.min, Low(e)), Max(b.max, High(e)), if Closer(e, b.rep, tz) then e else b.rep)
  }

  /** One iteration of the `forEach` body. */
  function Step(t: Table, e: Entry, tz: int): (r: Table)
    requires WellFormed(t)
    ensures WellFormed(r)
  {
    var k := DayKey(e.dt, tz);
    if k in t.buckets then Table(t.order, t.buckets[k := AddEntry(t.buckets[k], e, tz)])
    else Table(t.order + [k], t.buckets[k := NewBucket(e)])
  }

  /** The dictionary after the whole `forEach`. */
  function Fold(list: seq<Entry>, tz: int): (t: Table)
    ensures WellFormed(t)
  {
    if list == [] then Table([], map[]) else Step(Fold(list[..|list| - 1], tz), list[|list| - 1], tz)
  }

  // ---------------------------------------------------------------- reference definitions

  /** The day key of every entry, in input order. */
  function KeysOf(list: seq<Entry>, tz: int): (ks: seq<Key>)
    ensures |ks| == |list| && forall i :: 0 <= i < |list| ==> ks[i] == DayKey(list[i].dt, tz)
  {
    if list == [] then [] else KeysOf(list[..|list| - 1], tz) + [DayKey(list[|list| - 1].dt, tz)]
  }

  /** The entries of day `k`, in input order. */
  function Filter(list: seq<Entry>, k: Key, tz: int): (r: seq<Entry>)
    ensures forall e :: e in r <==> e in list && DayKey(e.dt, tz) == k
  {
    if list == [] then []
    else
      var e := list[|list| - 1];
      Filter(list[..|list| - 1], k, tz) + (if DayKey(e.dt, tz) == k then [e] else [])
  }

  /** Where key `k` first occurs in `ks`. */
  function FirstIndex(ks: seq<Key>, k: Key): (i: nat)
    requires k in ks
    ensures i < |ks| && ks[i] == k
    ensures forall p :: 0 <= p < i ==> ks[p] != k
  {
    if ks[0] == k then 0 else 1 + FirstIndex(ks[1..], k)
  }

  /** Entry `items[r]` is strictly closer to noon than every earlier entry and no later entry
      is strictly closer than it: the first of the closest. */
  ghost predicate FirstClosest(items: seq<Entry>, r: int, tz: int) {
    && 0 <= r < |items|
    && (forall j :: 0 <= j < r ==> Closer(items[r], items[j], tz))
    && (forall j :: r < j < |items| ==> !Closer(items[j], items[r], tz))
  }

  /** What the running updates promise about a day's record: all its entries carry key `k`,
      `min` and `max` are attained lows and highs bounding all others, and `rep` is the first
      of the entries closest to noon. */
  ghost predicate BucketSound(b: Bucket, k: Key, tz: int) {
    && b.items != []
    && (forall e :: e in b.items ==> DayKey(e.dt, tz) == k)
    && (forall e :: e in b.items ==> b.min <= Low(e) && High(e) <= b.max)
    && (exists e :: e in b.items && b.min == Low(e))
    && (exists e :: e in b.items && b.max == High(e))
    && (exists r :: FirstClosest(b.items, r, tz) && b.items[r] == b.rep)
  }

  /** Sum of the record sizes, over the keys of `order`. */
  function TotalItems(order: seq<Key>, buckets: map<Key, Bucket>): nat
    requires forall k :: k in order ==> k in buckets
  {
    if order == [] then 0
    else TotalItems(order[..|order| - 1], buckets) + |buckets[order[|order| - 1]].items|
  }

  // ---------------------------------------------------------------- grouping

  /** Same bucket iff same UTC calendar day of `dt + tz`, or both beyond the `Date` range. */
  lemma SameBucketIff(dt1: int, dt2: int, tz: int)
    ensures DayKey(dt1, tz) == DayKey(dt2, tz) <==>
              || (ValidTime(dt1, tz) && ValidTime(dt2, tz) && (dt1 + tz) / SecondsPerDay == (dt2 + tz) / SecondsPerDay)
              || (!ValidTime(dt1, tz) && !ValidTime(dt2, tz))
  {
  }

  /** The key, and the hour, depend on a time and an offset only through their sum. */
  lemma KeyDependsOnSum(dt1: int, tz1: int, dt2: int, tz2: int)
    requires dt1 + tz1 == dt2 + tz2
    ensures DayKey(dt1, tz1) == DayKey(dt2, tz2) && UtcHour(dt1, tz1) == UtcHour(dt2, tz2)
  {
  }

  lemma {:induction false} FilterAbsent(list: seq<Entry>, k: Key, tz: int)
    requires k !in KeysOf(list, tz)
    ensures Filter(list, k, tz) == []
  {
    if list != [] {
      var p := list[..|list| - 1];
      assert KeysOf(list, tz) == KeysOf(p, tz) + [DayKey(list[|list| - 1].dt, tz)];
      FilterAbsent(p, k, tz);
    }
  }

  /** The records are keyed by exactly the days present, and day `k`'s record holds exactly the
      entries of day `k`, in input order. */
  lemma {:induction false} FoldItems(list: seq<Entry>, tz: int, t: Table)
    requires t == Fold(list, tz)
    ensures forall k :: k in t.buckets <==> k in KeysOf(list, tz)
    ensures forall k :: k in t.buckets ==> t.buckets[k].items == Filter(list, k, tz)
  {
    if list != [] {
      var p, e := list[..|list| - 1], list[|list| - 1];
      var t0 := Fold(p, tz);
      FoldItems(p, tz, t0);
      assert KeysOf(list, tz) == KeysOf(p, tz) + [DayKey(e.dt, tz)];
      var ke := DayKey(e.dt, tz);
      forall k | k in t.buckets ensures t.buckets[k].items == Filter(list, k, tz) {
        assert list[..|list| - 1] == p;
        assert Filter(list, k, tz) == Filter(p, k, tz) + (if ke == k then [e] else []);
        assert t == Step(t0, e, tz);
        if k != ke {
          assert t.buckets[k] == t0.buckets[k];
        } else if ke in t0.buckets {
          assert t.buckets[k].items == t0.buckets[k].items + [e];
        } else {
          assert t.buckets[k].items == [e];
          FilterAbsent(p, k, tz);
        }
      }
    }
  }

  lemma NewBucketSound(e: Entry, tz: int)
    ensures BucketSound(NewBucket(e), DayKey(e.dt, tz), tz)
  {
    assert FirstClosest([e], 0, tz);
  }

  lemma AddEntryTemperatures(b: Bucket, k: Key, e: Entry, tz: int)
    requires BucketSound(b, k, tz) && DayKey(e.dt, tz) == k
    ensures var b' := AddEntry(b, e, tz);
            && (forall x :: x in b'.items ==> DayKey(x.dt, tz) == k)
            && (forall x :: x in b'.items ==> b'.min <= Low(x) && High(x) <= b'.max)
            && (exists x :: x in b'.items && b'.min == Low(x))
            && (exists x :: x in b'.items && b'.max == High(x))
  {
    var b' := AddEntry(b, e, tz);
    assert forall x :: x in b'.items <==> x in b.items || x == e;
    var lo :| lo in b.items && b.min == Low(lo);
    var hi :| hi in b.items && b.max == High(hi);
    assert lo in b'.items && hi in b'.items && e in b'.items;
    assert b'.min == Low(lo) || b'.min == Low(e);
    assert b'.max == High(hi) || b'.max == High(e);
  }

  lemma AddEntryRepresentative(b: Bucket, k: Key, e: Entry, tz: int, r: int)
    requires forall x :: x in b.items ==> DayKey(x.dt, tz) == k
    requires DayKey(e.dt, tz) == k
    requires FirstClosest(b.items, r, tz) && b.items[r] == b.rep
    ensures var b' := AddEntry(b, e, tz);
            exists r' :: FirstClosest(b'.items, r', tz) && b'.items[r'] == b'.rep
  {
    var b' := AddEntry(b, e, tz);
    var n := |b.items|;
    if Closer(e, b.rep, tz) {
      forall j | 0 <= j < n ensures Closer(e, b'.items[j], tz) {
        assert b'.items[j] == b.items[j] && b.items[j] in b.items;
        if r < j {
          assert !Closer(b.items[j], b.rep, tz);
        } else if j < r {
          assert Closer(b.rep, b.items[j], tz);
        }
      }
      assert FirstClosest(b'.items, n, tz);
    } else {
      assert FirstClosest(b'.items, r, tz);
    }
  }

  lemma AddEntrySound(b: Bucket, k: Key, e: Entry, tz: int)
    requires BucketSound(b, k, tz) && DayKey(e.dt, tz) == k
    ensures BucketSound(AddEntry(b, e, tz), k, tz)
  {
    AddEntryTemperatures(b, k, e, tz);
    var r :| FirstClosest(b.items, r, tz) && b.items[r] == b.rep;
    AddEntryRepresentative(b, k, e, tz, r);
  }

  /** Every record is sound for its key. */
  ghost predicate TableSound(t: Table, tz: int) {
    forall k :: k in t.buckets ==> BucketSound(t.buckets[k], k, tz)
  }

  lemma StepSound(t: Table, e: Entry, tz: int)
    requires WellFormed(t) && TableSound(t, tz)
    ensures TableSound(Step(t, e, tz), tz)
  {
    var k := DayKey(e.dt, tz);
    var b := if k in t.buckets then AddEntry(t.buckets[k], e, tz) else NewBucket(e);
    if k in t.buckets {
      AddEntrySound(t.buckets[k], k, e, tz);
    } else {
      NewBucketSound(e, tz);
    }
    assert Step(t, e, tz).buckets == t.buckets[k := b];
  }

  /** Every record keeps the running-update promises of `BucketSound`. */
  lemma {:induction false} FoldSound(list: seq<Entry>, tz: int, t: Table)
    requires t == Fold(list, tz)
    ensures TableSound(t, tz)
  {
    if list != [] {
      var p := list[..|list| - 1];
      FoldSound(p, tz, Fold(p, tz));
      StepSound(Fold(p, tz), list[|list| - 1], tz);
    }
  }

  lemma {:induction false} TotalUnchanged(order: seq<Key>, m: map<Key, Bucket>, k: Key, b: Bucket)
    requires forall x :: x in order ==> x in m
    requires k !in order
    ensures TotalItems(order, m[k := b]) == TotalItems(order, m)
  {
    if order != [] {
      TotalUnchanged(order[..|order| - 1], m, k, b);
    }
  }

  lemma {:induction false} TotalGrows(order: seq<Key>, m: map<Key, Bucket>, k: Key, b: Bucket)
    requires forall x :: x in order ==> x in m
    requires forall i, j :: 0 <= i < j < |order| ==> order[i] != order[j]
    requires k in order
    ensures TotalItems(order, m[k := b]) == TotalItems(order, m) - |m[k].items| + |b.items|
  {
    var p, last := order[..|order| - 1], order[|order| - 1];
    if last == k {
      assert k !in p;
      TotalUnchanged(p, m, k, b);
    } else {
      TotalGrows(p, m, k, b);
    }
  }

  /** Every entry is counted once: the record sizes sum to the length of the input. */
  lemma {:induction false} FoldSizes(list: seq<Entry>, tz: int, t: Table)
    requires t == Fold(list, tz)
    ensures TotalItems(t.order, t.buckets) == |list|
  {
    if list != [] {
      var p, e := list[..|list| - 1], list[|list| - 1];
      var t0 := Fold(p, tz);
      FoldSizes(p, tz, t0);
      var k := DayKey(e.dt, tz);
      if k in t0.buckets {
        TotalGrows(t0.order, t0.buckets, k, AddEntry(t0.buckets[k], e, tz));
      } else {
        TotalUnchanged(t0.order, t0.buckets, k, NewBucket(e));
        assert (t0.order + [k])[..|t0.order|] == t0.order;
      }
    }
  }

  lemma {:induction false} FirstIndexAppend(ks: seq<Key>, x: Key, k: Key)
    requires k in ks
    ensures FirstIndex(ks + [x], k) == FirstIndex(ks, k)
  {
    if ks[0] != k {
      assert (ks + [x])[1..] == ks[1..] + [x];
      FirstIndexAppend(ks[1..], x, k);
    }
  }

  /** `order` lists the keys of `ks` in the order of their first occurrence. */
  ghost predicate FirstSeen(order: seq<Key>, ks: seq<Key>) {
    && (forall k :: k in order <==> k in ks)
    && (forall i, j :: 0 <= i < j < |order| ==> FirstIndex(ks, order[i]) < FirstIndex(ks, order[j]))
  }

  lemma FirstSeenSeenKey(order: seq<Key>, ks: seq<Key>, k: Key)
    requires FirstSeen(order, ks) && k in ks
    ensures FirstSeen(order, ks + [k])
  {
    forall x | x in order ensures FirstIndex(ks + [k], x) == FirstIndex(ks, x) {
      FirstIndexAppend(ks, k, x);
    }
  }

  lemma FirstSeenNewKey(order: seq<Key>, ks: seq<Key>, k: Key)
    requires FirstSeen(order, ks) && k !in ks
    ensures FirstSeen(order + [k], ks + [k])
  {
    var order', ks' := order + [k], ks + [k];
    forall x | x in order ensures FirstIndex(ks', x) == FirstIndex(ks, x) < |ks| {
      FirstIndexAppend(ks, k, x);
    }
    assert FirstIndex(ks', k) == |ks|;
    forall i, j | 0 <= i < j < |order'| ensures FirstIndex(ks', order'[i]) < FirstIndex(ks', order'[j]) {
      assert order'[i] == order[i] && order[i] in order;
      if j < |order| {
        assert order'[j] == order[j] && order[j] in order;
      }
    }
  }

  lemma StepFirstSeen(t: Table, e: Entry, tz: int, ks: seq<Key>)
    requires WellFormed(t) && FirstSeen(t.order, ks)
    ensures FirstSeen(Step(t, e, tz).order, ks + [DayKey(e.dt, tz)])
  {
    var k := DayKey(e.dt, tz);
    if k in t.buckets {
      FirstSeenSeenKey(t.order, ks, k);
    } else {
      FirstSeenNewKey(t.order, ks, k);
    }
  }

  /** The records come out in the order their day first occurs in the input. */
  lemma {:induction false} FoldFirstSeenOrder(list: seq<Entry>, tz: int, t: Table)
    requires t == Fold(list, tz)
    ensures FirstSeen(t.order, KeysOf(list, tz))
  {
    if list != [] {
      var p, e := list[..|list| - 1], list[|list| - 1];
      var t0 := Fold(p, tz);
      FoldFirstSeenOrder(p, tz, t0);
      assert KeysOf(list, tz) == KeysOf(p, tz) + [DayKey(e.dt, tz)];
      StepFirstSeen(t0, e, tz, KeysOf(p, tz));
    }
  }

  // ---------------------------------------------------------------- the summaries

  /** One day card: key, low, high, and the representative's icon, description and time. */
  datatype DaySummary = DaySummary(key: Key, min: int, max: int, icon: string, desc: string, dt: int)

  /** The first `n` records as summaries; `None` models the `TypeError` raised when a
      representative has no `weather[0]`. */
  function Project(t: Table, n: nat): (r: Option<seq<DaySummary>>)
    requires WellFormed(t) && n <= |t.order|
    ensures r.Some? <==> forall i :: 0 <= i < n ==> t.buckets[t.order[i]].rep.weather != []
    ensures r.Some? ==> |r.value| == n
    ensures r.Some? ==> forall i :: 0 <= i < n ==>
              var b := t.buckets[t.order[i]];
              r.value[i] == DaySummary(t.order[i], b.min, b.max, b.rep.weather[0].icon,
                                       b.rep.weather[0].description, b.rep.dt)
  {
    if n == 0 then Some([])
    else
      match Project(t, n - 1)
      case None => None
      case Some(ds) =>
        var b := t.buckets[t.order[n - 1]];
        if b.rep.weather == [] then None
        else Some(ds + [DaySummary(t.order[n - 1], b.min, b.max, b.rep.weather[0].icon,
                                   b.rep.weather[0].description, b.rep.dt)])
  }

  /** The `days` array of `ForecastWeek`. */
  function WeekForecast(list: seq<Entry>, tz: int): Option<seq<DaySummary>> {
    var t := Fold(list, tz);
    Project(t, Min(MaxDays, |t.order|))
  }

  /** The summaries follow the first seven records, in order. */
  lemma WeekKeys(list: seq<Entry>, tz: int, days: seq<DaySummary>)
    requires WeekForecast(list, tz) == Some(days)
    ensures |days| == Min(MaxDays, |Fold(list, tz).order|)
    ensures forall i :: 0 <= i < |days| ==> days[i].key == Fold(list, tz).order[i]
  {
  }

  /** At most seven days, no day twice, each a day of the input. */
  lemma WeekShape(list: seq<Entry>, tz: int, days: seq<DaySummary>)
    requires WeekForecast(list, tz) == Some(days)
    ensures |days| <= MaxDays
    ensures forall i, j :: 0 <= i < j < |days| ==> days[i].key != days[j].key
    ensures forall i :: 0 <= i < |days| ==> days[i].key in KeysOf(list, tz)
  {
    var t := Fold(list, tz);
    WeekKeys(list, tz, days);
    FoldItems(list, tz, t);
    forall i | 0 <= i < |days| ensures days[i].key in KeysOf(list, tz) {
      assert t.order[i] in t.order;
    }
  }

  /** The days come in the order in which they first occur in the input. */
  lemma WeekFirstSeenOrder(list: seq<Entry>, tz: int, days: seq<DaySummary>)
    requires WeekForecast(list, tz) == Some(days)
    ensures forall i :: 0 <= i < |days| ==> days[i].key in KeysOf(list, tz)
    ensures forall i, j :: 0 <= i < j < |days| ==>
              FirstIndex(KeysOf(list, tz), days[i].key) < FirstIndex(KeysOf(list, tz), days[j].key)
  {
    WeekShape(list, tz, days);
    WeekKeys(list, tz, days);
    FoldFirstSeenOrder(list, tz, Fold(list, tz));
  }

  /** Fewer than seven days are shown only when the input has no other day. */
  lemma WeekAllDaysWhenShort(list: seq<Entry>, tz: int, days: seq<DaySummary>)
    requires WeekForecast(list, tz) == Some(days)
    requires |days| < MaxDays
    ensures forall k :: k in KeysOf(list, tz) ==> exists i :: 0 <= i < |days| && days[i].key == k
  {
    var t := Fold(list, tz);
    WeekKeys(list, tz, days);
    FoldFirstSeenOrder(list, tz, t);
    forall k | k in KeysOf(list, tz) ensures exists i :: 0 <= i < |days| && days[i].key == k {
      var i :| 0 <= i < |t.order| && t.order[i] == k;
      assert days[i].key == k;
    }
  }

  /** A day's summary, its record and the entries of that day. */
  lemma DayFromRecord(list: seq<Entry>, tz: int, days: seq<DaySummary>, i: int)
    requires WeekForecast(list, tz) == Some(days) && 0 <= i < |days|
    ensures days[i].key in Fold(list, tz).buckets
    ensures var b := Fold(list, tz).buckets[days[i].key];
            && b.items == Filter(list, days[i].key, tz) && BucketSound(b, days[i].key, tz)
            && days[i].min == b.min && days[i].max == b.max && days[i].dt == b.rep.dt
            && b.rep.weather != [] && days[i].icon == b.rep.weather[0].icon
            && days[i].desc == b.rep.weather[0].description
  {
    var t := Fold(list, tz);
    FoldItems(list, tz, t);
    FoldSound(list, tz, t);
    assert days[i].key == t.order[i];
  }

  /** Each day's low is the least `temp_min ?? temp` of its entries and its high the greatest
      `temp_max ?? temp`. */
  lemma WeekTemperatures(list: seq<Entry>, tz: int, days: seq<DaySummary>, i: int)
    requires WeekForecast(list, tz) == Some(days) && 0 <= i < |days|
    ensures forall e :: e in list && DayKey(e.dt, tz) == days[i].key ==> days[i].min <= Low(e) && High(e) <= days[i].max
    ensures exists e :: e in list && DayKey(e.dt, tz) == days[i].key && days[i].min == Low(e)
    ensures exists e :: e in list && DayKey(e.dt, tz) == days[i].key && days[i].max == High(e)
  {
    DayFromRecord(list, tz, days, i);
  }

  /** When no entry's low exceeds its high, no day's low exceeds its high. */
  lemma WeekMinAtMostMax(list: seq<Entry>, tz: int, days: seq<DaySummary>)
    requires WeekForecast(list, tz) == Some(days)
    requires forall e :: e in list ==> Low(e) <= High(e)
    ensures forall i :: 0 <= i < |days| ==> days[i].min <= days[i].max
  {
    forall i | 0 <= i < |days| ensures days[i].min <= days[i].max {
      WeekTemperatures(list, tz, days, i);
      var e :| e in list && DayKey(e.dt, tz) == days[i].key && days[i].min == Low(e);
    }
  }

  /** Each day's time, icon and description are those of the first of its entries closest to noon. */
  lemma WeekRepresentative(list: seq<Entry>, tz: int, days: seq<DaySummary>, i: int)
    requires WeekForecast(list, tz) == Some(days) && 0 <= i < |days|
    ensures exists p :: && FirstClosest(Filter(list, days[i].key, tz), p, tz)
                        && var e := Filter(list, days[i].key, tz)[p];
                        && e.weather != [] && days[i].dt == e.dt
                        && days[i].icon == e.weather[0].icon && days[i].desc == e.weather[0].description
  {
    DayFromRecord(list, tz, days, i);
  }

  /** Within a valid day, the first-of-the-closest entry minimises `|hour - 12|`, strictly
      against every earlier entry; in the invalid-date bucket it is the first entry. */
  lemma FirstClosestIsNearest(items: seq<Entry>, k: Key, r: int, tz: int)
    requires FirstClosest(items, r, tz)
    requires forall e :: e in items ==> DayKey(e.dt, tz) == k
    ensures k == InvalidDate ==> r == 0
    ensures k.Day? ==> forall j :: 0 <= j < |items| ==> UtcHour(items[j].dt, tz).Some?
    ensures k.Day? ==> forall j :: 0 <= j < |items| ==>
              && Abs(UtcHour(items[r].dt, tz).value - Noon) <= Abs(UtcHour(items[j].dt, tz).value - Noon)
              && (j < r ==> Abs(UtcHour(items[r].dt, tz).value - Noon) < Abs(UtcHour(items[j].dt, tz).value - Noon))
  {
    assert items[0] in items && items[r] in items;
    forall j | 0 <= j < |items| ensures DayKey(items[j].dt, tz) == k {
      assert items[j] in items;
    }
  }

  // ---------------------------------------------------------------- the loop

  /** The `forEach` over `list`, updating the dictionary in place. */
  method Aggregate(list: seq<Entry>, tz: int) returns (t: Table)
    ensures t == Fold(list, tz)
  {
    var order: seq<Key> := [];
    var buckets: map<Key, Bucket> := map[];
    var i := 0;
    while i < |list|
      invariant 0 <= i <= |list|
      invariant Table(order, buckets) == Fold(list[..i], tz)
    {
      var it := list[i];
      var key := DayKey(it.dt, tz);
      if key !in buckets {
        buckets := buckets[key := NewBucket(it)];
        order := order + [key];
      } else {
        var b := buckets[key];
        b := b.(items := b.items + [it]);
        b := b.(min := Min(b.min, Low(it)));
        b := b.(max := Max(b.max, High(it)));
        if Closer(it, b.rep, tz) {
          b := b.(rep := it);
        }
        buckets := buckets[key := b];
      }
      assert list[..i + 1][..i] == list[..i];
      i := i + 1;
    }
    assert list[..i] == list;
    t := Table(order, buckets);
  }

  /** `ForecastWeek`'s `days`: group, then keep the first seven records as summaries. */
  method ForecastWeek(list: seq<Entry>, tz: int) returns (days: Option<seq<DaySummary>>)
    ensures days == WeekForecast(list, tz)
  {
    var t := Aggregate(list, tz);
    days := Project(t, Min(MaxDays, |t.order|));
  }
}
