/** The forecast side of the surf site's weather module: bucketing the
    3-hourly forecast list into one entry per weekday (`processForecastData`)
    and shaping the reverse-geocoding answer (`getLocationName`). */
module Weather {
  import opened Wrappers

  type Weekday = d: int | 0 <= d < 7
  type Hour = h: int | 0 <= h < 24

  const DaysOfWeek: seq<string> := ["SUN", "MON", "TUE", "WED", "THU", "FRI", "SAT"]
  const MaxDays := 6
  const MergedWeekend := "SAT/SUN"

  /** A `Date` as the bucketing reads it: its epoch time and its local weekday and hour. */
  datatype Moment = Moment(epochMs: int, weekday: Weekday, hour: Hour)

  /** One entry of the provider's forecast list: its time, `weather[0].main`,
      `weather[0].icon` and `main.temp` (degrees Fahrenheit). */
  datatype Sample = Sample(when: Moment, main: string, icon: string, temp: real)

  /** The parsed forecast response; its `list` may be missing. */
  datatype ForecastResponse = ForecastResponse(list: Option<seq<Sample>>)

  /** One day card: the kept sample's date, the day label, the condition, the
      formatted and the raw temperature, the icon and the sample's hour. */
  datatype DayForecast = DayForecast(
    date: Moment, day: string, weather: string, temp: string, tempF: real, icon: string, hour: Hour)

  /** The dictionary of day buckets: its keys in insertion order and its entries. */
  datatype Buckets = Buckets(order: seq<string>, daily: map<string, DayForecast>)

  function Abs(x: int): nat {
    if x < 0 then -x else x
  }

  /** `daysOfWeek[date.getDay()]`: a three-letter label; only Saturday is "SAT". */
  function DayName(w: Weekday): (name: string)
    ensures |name| == 3 && name != MergedWeekend
    ensures name == "SAT" <==> w == 6
  {
    DaysOfWeek[w]
  }

  lemma DayNameInjective(v: Weekday, w: Weekday)
    ensures DayName(v) == DayName(w) ==> v == w
  {
  }

  /** The bucket key of a sample. */
  function Key(x: Sample): string {
    DayName(x.when.weekday)
  }

  /** Distance of a sample's hour from noon. */
  function Dist(x: Sample): nat {
    Abs(x.when.hour - 12)
  }

  /** Samples of today's date taken before noon are dropped. */
  predicate Skipped(x: Sample, today: Weekday) {
    x.when.weekday == today && x.when.hour < 12
  }

  /** The dictionary entry made from a sample: its reading under its own weekday label. */
  function MakeEntry(x: Sample, formatTemp: real -> string): (e: DayForecast)
    ensures e.day == Key(x) && FromSample(e, x, formatTemp)
  {
    DayForecast(x.when, Key(x), x.main, formatTemp(x.temp), x.temp, x.icon, x.when.hour)
  }

  /** What every entry of the dictionary satisfies, for key `k`. */
  predicate EntryFor(e: DayForecast, k: string, today: Weekday, formatTemp: real -> string) {
    && e.day == k
    && DayName(e.date.weekday) == k
    && e.hour == e.date.hour
    && !(e.date.weekday == today && e.hour < 12)
    && e.temp == formatTemp(e.tempF)
  }

  /** One iteration of the `forEach` over the forecast list. */
  function Step(b: Buckets, x: Sample, today: Weekday, formatTemp: real -> string): Buckets
  {
    if Skipped(x, today) then b
    else
      var k := Key(x);
      if k !in b.daily then Buckets(b.order + [k], b.daily[k := MakeEntry(x, formatTemp)])
      else if Dist(x) < Abs(b.daily[k].hour - 12) then Buckets(b.order, b.daily[k := MakeEntry(x, formatTemp)])
      else b
  }

  /** One visit of the `forEach`: a sample from this morning changes nothing;
      a new weekday is appended with the sample's entry; a known weekday keeps
      its place and takes the sample's entry only when it is strictly nearer
      to noon. */
  lemma StepEffect(b: Buckets, x: Sample, today: Weekday, formatTemp: real -> string)
    ensures var r := Step(b, x, today, formatTemp);
      && (Skipped(x, today) ==> r == b)
      && (!Skipped(x, today) && Key(x) !in b.daily ==> r.order == b.order + [Key(x)] && r.daily == b.daily[Key(x) := MakeEntry(x, formatTemp)])
      && (!Skipped(x, today) && Key(x) in b.daily && Dist(x) < Abs(b.daily[Key(x)].hour - 12) ==> r.order == b.order && r.daily == b.daily[Key(x) := MakeEntry(x, formatTemp)])
      && (!Skipped(x, today) && Key(x) in b.daily && Dist(x) >= Abs(b.daily[Key(x)].hour - 12) ==> r == b)
  {
  }

  /** The dictionary after the `forEach` has visited all of `s`. */
  function Bucket(s: seq<Sample>, today: Weekday, formatTemp: real -> string): (b: Buckets)
    ensures forall k :: k in b.daily <==> k in b.order
    ensures forall i, j :: 0 <= i < j < |b.order| ==> b.order[i] != b.order[j]
    ensures forall k :: k in b.daily ==> EntryFor(b.daily[k], k, today, formatTemp)
  {
    if s == [] then Buckets([], map[])
    else Step(Bucket(s[..|s| - 1], today, formatTemp), s[|s| - 1], today, formatTemp)
  }

  /** `Object.values(dailyForecasts)`: the entries in key-insertion order. */
  function Values(b: Buckets): (v: seq<DayForecast>)
    requires forall k :: k in b.order ==> k in b.daily
  {
    seq(|b.order|, i requires 0 <= i < |b.order| => b.daily[b.order[i]])
  }

  /** A sixth "SAT" card is relabelled to cover the weekend. */
  function MergeWeekend(e: seq<DayForecast>): seq<DayForecast> {
    if |e| == MaxDays && e[MaxDays - 1].day == "SAT" then e[MaxDays - 1 := e[MaxDays - 1].(day := MergedWeekend)]
    else e
  }

  /** The first six entries in insertion order, with the weekend merge applied. */
  function Finish(b: Buckets, today: Weekday, formatTemp: real -> string): (r: seq<DayForecast>)
    requires forall k :: k in b.daily <==> k in b.order
    requires forall i, j :: 0 <= i < j < |b.order| ==> b.order[i] != b.order[j]
    requires forall k :: k in b.daily ==> EntryFor(b.daily[k], k, today, formatTemp)
    ensures |r| <= MaxDays
    ensures forall i, j :: 0 <= i < j < |r| ==> r[i].day != r[j].day
    ensures forall i :: 0 <= i < |r| ==>
      r[i].day == (if i == MaxDays - 1 && r[i].date.weekday == 6 then MergedWeekend else DayName(r[i].date.weekday))
    ensures forall i :: 0 <= i < |r| ==> !(r[i].date.weekday == today && r[i].hour < 12)
    ensures forall i :: 0 <= i < |r| ==> r[i].temp == formatTemp(r[i].tempF) && r[i].hour == r[i].date.hour
  {
    var v := Values(b);
    assert forall i :: 0 <= i < |v| ==> EntryFor(v[i], b.order[i], today, formatTemp);
    var n := if |v| < MaxDays then |v| else MaxDays;
    var r := MergeWeekend(v[..n]);
    forall i | 0 <= i < |r|
      ensures r[i].day != MergedWeekend ==> r[i].day == DayName(r[i].date.weekday)
      ensures r[i].day == MergedWeekend <==> i == MaxDays - 1 && r[i].date.weekday == 6
    {
      assert |DayName(v[i].date.weekday)| == 3;
    }
    r
  }

  /** The day cards `processForecastData` returns. */
  function ForecastSpec(data: Option<ForecastResponse>, today: Weekday, formatTemp: real -> string): (r: seq<DayForecast>)
    ensures data.None? || data.value.list.None? || data.value.list.value == [] ==> r == []
    ensures |r| <= MaxDays
    ensures forall i, j :: 0 <= i < j < |r| ==> r[i].day != r[j].day
    ensures forall i :: 0 <= i < |r| ==>
      r[i].day == (if i == MaxDays - 1 && r[i].date.weekday == 6 then MergedWeekend else DayName(r[i].date.weekday))
    ensures forall i :: 0 <= i < |r| ==> !(r[i].date.weekday == today && r[i].hour < 12)
    ensures forall i :: 0 <= i < |r| ==> r[i].temp == formatTemp(r[i].tempF) && r[i].hour == r[i].date.hour
  {
    if data.None? || data.value.list.None? || data.value.list.value == [] then []
    else Finish(Bucket(data.value.list.value, today, formatTemp), today, formatTemp)
  }

  /** `processForecastData`: a missing or empty list gives no cards; otherwise
      each sample is visited in order and its day's entry replaced when it is
      strictly nearer to noon. */
  method ProcessForecastData(data: Option<ForecastResponse>, today: Weekday, formatTemp: real -> string)
    returns (result: seq<DayForecast>)
    ensures result == ForecastSpec(data, today, formatTemp)
  {
    if data.None? || data.value.list.None? || |data.value.list.value| == 0 {
      return [];
    }
    var list := data.value.list.value;
    var order: seq<string> := [];
    var daily: map<string, DayForecast> := map[];
    for i := 0 to |list|
      invariant Buckets(order, daily) == Bucket(list[..i], today, formatTemp)
    {
      assert list[..i + 1][..i] == list[..i];
      var item := list[i];
      assert Bucket(list[..i + 1], today, formatTemp) == Step(Buckets(order, daily), item, today, formatTemp);
      StepEffect(Buckets(order, daily), item, today, formatTemp);
      var dayOfWeek := DaysOfWeek[item.when.weekday];
      if item.when.weekday == today && item.when.hour < 12 {
        continue;
      }
      var hour: int := item.when.hour;
      if dayOfWeek !in daily || Abs(hour - 12) < Abs(daily[dayOfWeek].hour - 12) {
        if dayOfWeek !in daily {
          order := order + [dayOfWeek];
        }
        daily := daily[dayOfWeek := DayForecast(item.when, dayOfWeek, item.main, formatTemp(item.temp), item.temp, item.icon, item.when.hour)];
      }
    }
    assert list[..|list|] == list;
    ghost var b := Buckets(order, daily);
    result := seq(|order|, j requires 0 <= j < |order| => daily[order[j]]);
    assert result == Values(b);
    if |result| > MaxDays {
      result := result[..MaxDays];
    }
    if |result| == MaxDays && result[MaxDays - 1].day == "SAT" {
      result := result[MaxDays - 1 := result[MaxDays - 1].(day := MergedWeekend)];
    }
  }

  // ------------------------------------------------------------------------
  // What the dictionary holds, stated over the input list

  /** Sample `q` of `s` takes part in the bucketing and carries label `k`. */
  ghost predicate Counts(s: seq<Sample>, today: Weekday, q: int, k: string) {
    0 <= q < |s| && !Skipped(s[q], today) && Key(s[q]) == k
  }

  /** Sample `p` is nearest to noon among the kept samples of its day, and
      every kept sample of that day seen before it is strictly farther. */
  ghost predicate IsNearest(s: seq<Sample>, today: Weekday, p: int) {
    && 0 <= p < |s|
    && !Skipped(s[p], today)
    && (forall q :: Counts(s, today, q, Key(s[p])) ==> Dist(s[p]) <= Dist(s[q]))
    && (forall q :: 0 <= q < p && Counts(s, today, q, Key(s[p])) ==> Dist(s[p]) < Dist(s[q]))
  }

  /** Every bucket comes from some kept sample carrying its label. */
  lemma {:induction false} KeyWitness(s: seq<Sample>, today: Weekday, formatTemp: real -> string, k: string)
    requires k in Bucket(s, today, formatTemp).daily
    ensures exists q :: Counts(s, today, q, k)
  {
    var n := |s| - 1;
    var s' := s[..n];
    assert Bucket(s, today, formatTemp) == Step(Bucket(s', today, formatTemp), s[n], today, formatTemp);
    if k in Bucket(s', today, formatTemp).daily {
      KeyWitness(s', today, formatTemp, k);
      var q :| Counts(s', today, q, k);
      assert Counts(s, today, q, k);
    } else {
      assert Counts(s, today, n, k);
    }
  }

  /** Every kept sample has a bucket for its label. */
  lemma {:induction false} KeyPresent(s: seq<Sample>, today: Weekday, formatTemp: real -> string, q: int)
    requires 0 <= q < |s| && !Skipped(s[q], today)
    ensures Key(s[q]) in Bucket(s, today, formatTemp).daily
  {
    var n := |s| - 1;
    var s' := s[..n];
    assert Bucket(s, today, formatTemp) == Step(Bucket(s', today, formatTemp), s[n], today, formatTemp);
    if q < n {
      KeyPresent(s', today, formatTemp, q);
    }
  }

  /** A day has a bucket exactly when some kept sample carries its label. */
  lemma BucketKeys(s: seq<Sample>, today: Weekday, formatTemp: real -> string)
    ensures forall k :: k in Bucket(s, today, formatTemp).daily <==> exists q :: Counts(s, today, q, k)
  {
    forall k ensures k in Bucket(s, today, formatTemp).daily <==> exists q :: Counts(s, today, q, k) {
      if k in Bucket(s, today, formatTemp).daily {
        KeyWitness(s, today, formatTemp, k);
      }
      if exists q :: Counts(s, today, q, k) {
        var q :| Counts(s, today, q, k);
        KeyPresent(s, today, formatTemp, q);
      }
    }
  }

  /** A nearest sample stays nearest when a sample that is not strictly
      nearer on its day is appended. */
  lemma NearestKept(s: seq<Sample>, x: Sample, today: Weekday, p: int)
    requires IsNearest(s, today, p)
    requires Skipped(x, today) || Key(x) != Key(s[p]) || Dist(s[p]) <= Dist(x)
    ensures IsNearest(s + [x], today, p)
  {
    var t := s + [x];
    forall q | Counts(t, today, q, Key(t[p])) ensures Dist(t[p]) <= Dist(t[q]) {
      if q < |s| {
        assert Counts(s, today, q, Key(s[p]));
      }
    }
    forall q | 0 <= q < p && Counts(t, today, q, Key(t[p])) ensures Dist(t[p]) < Dist(t[q]) {
      assert Counts(s, today, q, Key(s[p]));
    }
  }

  /** An appended kept sample strictly nearer than every earlier one of its day is nearest. */
  lemma NearestLast(s: seq<Sample>, x: Sample, today: Weekday)
    requires !Skipped(x, today)
    requires forall q :: Counts(s, today, q, Key(x)) ==> Dist(x) < Dist(s[q])
    ensures IsNearest(s + [x], today, |s|)
  {
    var t := s + [x];
    forall q | Counts(t, today, q, Key(x)) ensures Dist(x) <= Dist(t[q]) {
      if q < |s| {
        assert Counts(s, today, q, Key(x));
      }
    }
  }

  /** The bucket of day `k` holds the entry of the first kept sample of that
      day nearest to noon. */
  lemma {:induction false} BucketNearest(s: seq<Sample>, today: Weekday, formatTemp: real -> string, k: string)
    requires k in Bucket(s, today, formatTemp).daily
    ensures exists p :: && 0 <= p < |s| && Key(s[p]) == k && IsNearest(s, today, p)
                        && Bucket(s, today, formatTemp).daily[k] == MakeEntry(s[p], formatTemp)
  {
    var n := |s| - 1;
    var s', x := s[..n], s[n];
    assert s == s' + [x];
    var b', b := Bucket(s', today, formatTemp), Bucket(s, today, formatTemp);
    assert b == Step(b', x, today, formatTemp);
    if k !in b'.daily {
      // the last sample opened the bucket; no earlier sample is kept for that day
      forall q | 0 <= q < |s'| && !Skipped(s'[q], today) ensures Key(s'[q]) != k {
        KeyPresent(s', today, formatTemp, q);
      }
      NearestLast(s', x, today);
    } else {
      BucketNearest(s', today, formatTemp, k);
      var p :| && 0 <= p < |s'| && Key(s'[p]) == k && IsNearest(s', today, p)
               && b'.daily[k] == MakeEntry(s'[p], formatTemp);
      NearestStep(s', x, today, formatTemp, k, p);
    }
  }

  /** The inductive step of `BucketNearest` for a day that already had a bucket. */
  lemma NearestStep(s: seq<Sample>, x: Sample, today: Weekday, formatTemp: real -> string, k: string, p: int)
    requires 0 <= p < |s| && Key(s[p]) == k && IsNearest(s, today, p)
    requires k in Bucket(s, today, formatTemp).daily
    requires Bucket(s, today, formatTemp).daily[k] == MakeEntry(s[p], formatTemp)
    ensures var b := Step(Bucket(s, today, formatTemp), x, today, formatTemp);
      && k in b.daily
      && exists p' :: && 0 <= p' < |s + [x]| && Key((s + [x])[p']) == k && IsNearest(s + [x], today, p')
                      && b.daily[k] == MakeEntry((s + [x])[p'], formatTemp)
  {
    var t := s + [x];
    if !Skipped(x, today) && Key(x) == k && Dist(x) < Dist(s[p]) {
      // the last sample overwrites the bucket
      NearestLast(s, x, today);
      assert t[|s|] == x;
    } else {
      // the bucket is the one the earlier samples left
      NearestKept(s, x, today, p);
      assert t[p] == s[p];
    }
  }

  /** Keys are listed in the order of their first kept sample: before every
      kept sample of the `j`-th key stands a kept sample of the `i`-th key. */
  lemma {:induction false} BucketOrder(s: seq<Sample>, today: Weekday, formatTemp: real -> string, i: int, j: int, q: int)
    requires 0 <= i < j < |Bucket(s, today, formatTemp).order|
    requires Counts(s, today, q, Bucket(s, today, formatTemp).order[j])
    ensures exists p :: 0 <= p < q && Counts(s, today, p, Bucket(s, today, formatTemp).order[i])
  {
    var n := |s| - 1;
    var s', x := s[..n], s[n];
    var b', b := Bucket(s', today, formatTemp), Bucket(s, today, formatTemp);
    assert b == Step(b', x, today, formatTemp);
    if j < |b'.order| {
      assert b.order[i] == b'.order[i] && b.order[j] == b'.order[j];
      // some sample before the last one carries the later key
      var q' := q;
      if q == n {
        KeyWitness(s', today, formatTemp, b'.order[j]);
        q' :| Counts(s', today, q', b'.order[j]);
      } else {
        assert Counts(s', today, q, b'.order[j]);
      }
      BucketOrder(s', today, formatTemp, i, j, q');
      var p :| 0 <= p < q' && Counts(s', today, p, b'.order[i]);
      assert Counts(s, today, p, b.order[i]);
    } else {
      // the later key is the one the last sample introduced
      assert b.order[j] == Key(x) && b.order[j] !in b'.daily && b.order[i] == b'.order[i];
      if q < n {
        KeyPresent(s', today, formatTemp, q);
        assert false;
      }
      KeyWitness(s', today, formatTemp, b'.order[i]);
      var p :| Counts(s', today, p, b'.order[i]);
      assert Counts(s, today, p, b.order[i]);
    }
  }

  /** A dropped sample does not influence the dictionary, wherever it stands. */
  lemma {:induction false} SkippedSampleIgnored(s1: seq<Sample>, x: Sample, s2: seq<Sample>, today: Weekday, formatTemp: real -> string)
    requires Skipped(x, today)
    ensures Bucket(s1 + [x] + s2, today, formatTemp) == Bucket(s1 + s2, today, formatTemp)
    decreases |s2|
  {
    if s2 == [] {
      assert s1 + [x] + s2 == s1 + [x];
      assert (s1 + [x])[..|s1|] == s1;
      assert s1 + s2 == s1;
    } else {
      var t := s2[..|s2| - 1];
      var y := s2[|s2| - 1];
      SkippedSampleIgnored(s1, x, t, today, formatTemp);
      assert (s1 + [x] + s2)[..|s1 + [x] + s2| - 1] == s1 + [x] + t;
      assert (s1 + s2)[..|s1 + s2| - 1] == s1 + t;
    }
  }

  // ------------------------------------------------------------------------
  // The same facts, stated over the cards processForecastData returns

  /** Card `e` shows the reading of sample `x`: its time, condition, icon and temperature. */
  predicate FromSample(e: DayForecast, x: Sample, formatTemp: real -> string) {
    && e.date == x.when && e.weather == x.main && e.icon == x.icon
    && e.tempF == x.temp && e.temp == formatTemp(x.temp) && e.hour == x.when.hour
  }

  /** The cards are the first six buckets in insertion order. */
  lemma CardCount(s: seq<Sample>, today: Weekday, formatTemp: real -> string)
    requires s != []
    ensures var n := |Bucket(s, today, formatTemp).order|;
      |ForecastSpec(Some(ForecastResponse(Some(s))), today, formatTemp)| == if n < MaxDays then n else MaxDays
  {
    var b := Bucket(s, today, formatTemp);
    assert |Values(b)| == |b.order|;
  }

  /** Card `i` of `r` is the entry of the `i`-th bucket of `b`, up to the weekend label. */
  predicate CardOf(r: seq<DayForecast>, b: Buckets, i: int) {
    && 0 <= i < |r| && i < |b.order| && b.order[i] in b.daily
    && (r[i] == b.daily[b.order[i]] || r[i] == b.daily[b.order[i]].(day := MergedWeekend))
    && DayName(r[i].date.weekday) == b.order[i]
  }

  lemma CardOfBucket(s: seq<Sample>, today: Weekday, formatTemp: real -> string, i: int)
    requires s != []
    requires 0 <= i < |ForecastSpec(Some(ForecastResponse(Some(s))), today, formatTemp)|
    ensures CardOf(ForecastSpec(Some(ForecastResponse(Some(s))), today, formatTemp), Bucket(s, today, formatTemp), i)
  {
    var b := Bucket(s, today, formatTemp);
    CardCount(s, today, formatTemp);
    var v := Values(b);
    assert v[i] == b.daily[b.order[i]];
    assert EntryFor(v[i], b.order[i], today, formatTemp);
  }

  /** A bucket entry, relabelled or not, shows the reading of its sample. */
  lemma EntryShowsSample(c: DayForecast, x: Sample, formatTemp: real -> string)
    requires c == MakeEntry(x, formatTemp) || c == MakeEntry(x, formatTemp).(day := MergedWeekend)
    ensures FromSample(c, x, formatTemp)
  {
  }

  /** Every card is the first kept sample of its weekday nearest to noon; only
      its label may differ from that sample's. */
  ghost predicate CardsAreNearest(s: seq<Sample>, today: Weekday, formatTemp: real -> string, r: seq<DayForecast>) {
    forall i :: 0 <= i < |r| ==>
      exists p :: 0 <= p < |s| && IsNearest(s, today, p) && FromSample(r[i], s[p], formatTemp)
  }

  lemma ForecastNearest(s: seq<Sample>, today: Weekday, formatTemp: real -> string)
    ensures CardsAreNearest(s, today, formatTemp, ForecastSpec(Some(ForecastResponse(Some(s))), today, formatTemp))
  {
    var r := ForecastSpec(Some(ForecastResponse(Some(s))), today, formatTemp);
    if s == [] {
      assert r == [];
    } else {
      forall i | 0 <= i < |r|
        ensures exists p :: 0 <= p < |s| && IsNearest(s, today, p) && FromSample(r[i], s[p], formatTemp)
      {
        CardNearest(s, today, formatTemp, i);
      }
    }
  }

  /** Card `i` shows a sample of its day nearest to noon. */
  lemma CardNearest(s: seq<Sample>, today: Weekday, formatTemp: real -> string, i: int)
    requires s != []
    requires 0 <= i < |ForecastSpec(Some(ForecastResponse(Some(s))), today, formatTemp)|
    ensures var r := ForecastSpec(Some(ForecastResponse(Some(s))), today, formatTemp);
      exists p :: 0 <= p < |s| && IsNearest(s, today, p) && FromSample(r[i], s[p], formatTemp)
  {
    var r := ForecastSpec(Some(ForecastResponse(Some(s))), today, formatTemp);
    var b := Bucket(s, today, formatTemp);
    CardOfBucket(s, today, formatTemp, i);
    var k := b.order[i];
    BucketNearest(s, today, formatTemp, k);
    var p :| 0 <= p < |s| && Key(s[p]) == k && IsNearest(s, today, p) && b.daily[k] == MakeEntry(s[p], formatTemp);
    assert r[i] == b.daily[k] || r[i] == b.daily[k].(day := MergedWeekend);
    EntryShowsSample(r[i], s[p], formatTemp);
  }

  /** Every kept sample labelled `later` is preceded by a kept sample labelled `earlier`. */
  ghost predicate FirstBefore(s: seq<Sample>, today: Weekday, earlier: string, later: string) {
    forall q :: Counts(s, today, q, later) ==> exists p :: 0 <= p < q && Counts(s, today, p, earlier)
  }

  /** Cards follow the order in which their weekdays first appear among the kept samples. */
  ghost predicate CardsInFirstAppearanceOrder(s: seq<Sample>, today: Weekday, r: seq<DayForecast>) {
    forall i, j :: 0 <= i < j < |r| ==> FirstBefore(s, today, DayName(r[i].date.weekday), DayName(r[j].date.weekday))
  }

  lemma ForecastFirstAppearance(s: seq<Sample>, today: Weekday, formatTemp: real -> string)
    ensures CardsInFirstAppearanceOrder(s, today, ForecastSpec(Some(ForecastResponse(Some(s))), today, formatTemp))
  {
    var r := ForecastSpec(Some(ForecastResponse(Some(s))), today, formatTemp);
    if s != [] {
      forall i, j | 0 <= i < j < |r|
        ensures FirstBefore(s, today, DayName(r[i].date.weekday), DayName(r[j].date.weekday))
      {
        CardOfBucket(s, today, formatTemp, i);
        CardOfBucket(s, today, formatTemp, j);
        forall q | Counts(s, today, q, DayName(r[j].date.weekday))
          ensures exists p :: 0 <= p < q && Counts(s, today, p, DayName(r[i].date.weekday))
        {
          BucketOrder(s, today, formatTemp, i, j, q);
        }
      }
    }
    assert CardsInFirstAppearanceOrder(s, today, r);
  }

  /** Some card shows weekday `w`. */
  ghost predicate DayShown(r: seq<DayForecast>, w: Weekday) {
    exists i :: 0 <= i < |r| && r[i].date.weekday == w
  }

  /** Some kept sample before position `q` carries label `k`. */
  ghost predicate SeenBefore(s: seq<Sample>, today: Weekday, q: int, k: string) {
    exists p :: 0 <= p < q && Counts(s, today, p, k)
  }

  /** No weekday of the kept samples is lost except by the cut at six cards,
      and a weekday that is cut first appears after every shown weekday. */
  ghost predicate CardsKeepEarliestDays(s: seq<Sample>, today: Weekday, r: seq<DayForecast>) {
    forall q :: 0 <= q < |s| && !Skipped(s[q], today) ==>
      || DayShown(r, s[q].when.weekday)
      || (|r| == MaxDays && forall i :: 0 <= i < |r| ==> SeenBefore(s, today, q, DayName(r[i].date.weekday)))
  }

  lemma ForecastKeepsEarliestDays(s: seq<Sample>, today: Weekday, formatTemp: real -> string)
    ensures CardsKeepEarliestDays(s, today, ForecastSpec(Some(ForecastResponse(Some(s))), today, formatTemp))
  {
    var r := ForecastSpec(Some(ForecastResponse(Some(s))), today, formatTemp);
    var b := Bucket(s, today, formatTemp);
    forall q | 0 <= q < |s| && !Skipped(s[q], today)
      ensures || DayShown(r, s[q].when.weekday)
              || (|r| == MaxDays && forall i :: 0 <= i < |r| ==> SeenBefore(s, today, q, DayName(r[i].date.weekday)))
    {
      var k := Key(s[q]);
      KeyPresent(s, today, formatTemp, q);
      var m :| 0 <= m < |b.order| && b.order[m] == k;
      CardCount(s, today, formatTemp);
      if m < |r| {
        CardOfBucket(s, today, formatTemp, m);
        DayNameInjective(r[m].date.weekday, s[q].when.weekday);
        assert DayShown(r, s[q].when.weekday);
      } else {
        forall i | 0 <= i < |r| ensures SeenBefore(s, today, q, DayName(r[i].date.weekday)) {
          CardOfBucket(s, today, formatTemp, i);
          BucketOrder(s, today, formatTemp, i, m, q);
        }
      }
    }
    assert CardsKeepEarliestDays(s, today, r);
  }

  /** A sample from this morning can be removed without changing the cards. */
  lemma ForecastIgnoresThisMorning(s1: seq<Sample>, x: Sample, s2: seq<Sample>, today: Weekday, formatTemp: real -> string)
    requires Skipped(x, today)
    ensures ForecastSpec(Some(ForecastResponse(Some(s1 + [x] + s2))), today, formatTemp)
         == ForecastSpec(Some(ForecastResponse(Some(s1 + s2))), today, formatTemp)
  {
    SkippedSampleIgnored(s1, x, s2, today, formatTemp);
    if s1 + s2 == [] {
      assert Bucket([], today, formatTemp).order == [];
    }
  }

  /** A list made only of this morning's samples gives no cards. */
  lemma {:induction false} OnlyThisMorningGivesNothing(s: seq<Sample>, today: Weekday, formatTemp: real -> string)
    requires forall q :: 0 <= q < |s| ==> Skipped(s[q], today)
    ensures Bucket(s, today, formatTemp) == Buckets([], map[])
    ensures ForecastSpec(Some(ForecastResponse(Some(s))), today, formatTemp) == []
  {
    if s != [] {
      var s' := s[..|s| - 1];
      OnlyThisMorningGivesNothing(s', today, formatTemp);
      assert Bucket(s, today, formatTemp) == Step(Bucket(s', today, formatTemp), s[|s| - 1], today, formatTemp);
    }
  }

  // ------------------------------------------------------------------------
  // Reverse geocoding

  datatype Place = Place(name: string, country: string)

  const UnknownPlace := Place("Current Location", "")

  /** `getLocationName` once the response is parsed: None stands for a failed
      request or a thrown error. The first result wins; no result, or an error,
      gives the generic place with an empty country. */
  function GetLocationName(response: Option<seq<Place>>): (p: Place)
    ensures response.Some? && |response.value| > 0 ==> p == response.value[0]
    ensures response.None? || response.value == [] ==> p.name == "Current Location" && p.country == ""
  {
    if response.Some? && |response.value| > 0 then response.value[0] else UnknownPlace
  }
}
