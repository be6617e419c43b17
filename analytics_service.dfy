/** The analytics aggregator: one record of counters in the long-lived store,
    updated read-modify-write by three trackers. */
module AnalyticsService {
  import opened Types
  import opened Storage

  /** Floor that `trackSession` raises the unique-user count to. */
  const UniqueUsersFloor: nat := 124

  /** The record reported while nothing is stored yet. */
  function Seed(): AnalyticsData
  {
    AnalyticsData(
      totalVisits := 1450,
      liveUsers := 12,
      uniqueUsers := 342,
      totalSessions := 890,
      totalMessages := 4520,
      avgResponseTime := 1.2,
      dailyUsage := [
        DailyUsage("2023-10-01", 400),
        DailyUsage("2023-10-02", 300),
        DailyUsage("2023-10-03", 500),
        DailyUsage("2023-10-04", 800),
        DailyUsage("2023-10-05", 600),
        DailyUsage("2023-10-06", 900),
        DailyUsage("2023-10-07", 1100)])
  }

  /** What `getAnalytics` reports for a given long-lived store. */
  ghost function StoredAnalytics(local: map<Key, Value>): AnalyticsData
    requires LocalWellTyped(local)
  {
    if AnalyticsKey in local then local[AnalyticsKey].data else Seed()
  }

  /** The live-user figure `trackSession` draws from a random number. */
  function LiveUsersDraw(rnd: real): (n: int)
    requires 0.0 <= rnd < 1.0
    ensures 5 <= n <= 24
  {
    (rnd * 20.0).Floor + 5
  }

  /** The record after one visit: one more visit and nothing else changed. */
  function AfterVisit(d: AnalyticsData): (r: AnalyticsData)
    ensures r.totalVisits == d.totalVisits + 1
    ensures r.(totalVisits := d.totalVisits) == d
  {
    d.(totalVisits := d.totalVisits + 1)
  }

  /** The record after one session start: one more session, unique users
      raised to at least the floor, a drawn live-user figure in [5, 24], and
      nothing else changed. */
  function AfterSession(d: AnalyticsData, rnd: real): (r: AnalyticsData)
    requires 0.0 <= rnd < 1.0
    ensures r.totalSessions == d.totalSessions + 1
    ensures r.uniqueUsers >= d.uniqueUsers && r.uniqueUsers >= UniqueUsersFloor
    ensures r.uniqueUsers == d.uniqueUsers || r.uniqueUsers == UniqueUsersFloor
    ensures 5 <= r.liveUsers <= 24
    ensures r.(totalSessions := d.totalSessions, uniqueUsers := d.uniqueUsers, liveUsers := d.liveUsers) == d
  {
    d.(totalSessions := d.totalSessions + 1,
       uniqueUsers := if d.uniqueUsers < UniqueUsersFloor then UniqueUsersFloor else d.uniqueUsers,
       liveUsers := LiveUsersDraw(rnd))
  }

  /** The record after one answered message taking `responseTime` seconds:
      the count goes up by one, the average is recomputed, nothing else changes. */
  function AfterMessage(d: AnalyticsData, responseTime: real): (r: AnalyticsData)
    ensures r.totalMessages == d.totalMessages + 1
    ensures r.(totalMessages := d.totalMessages, avgResponseTime := d.avgResponseTime) == d
  {
    var n := d.totalMessages + 1;
    d.(totalMessages := n,
       avgResponseTime := (d.avgResponseTime * (n - 1) as real + responseTime) / n as real)
  }

  /** The recomputed average absorbs the new sample: average times count
      grows by exactly the sample. This holds because the count is raised
      before the average is recomputed with it. */
  lemma AfterMessageTotal(d: AnalyticsData, responseTime: real)
    ensures AfterMessage(d, responseTime).avgResponseTime * (d.totalMessages + 1) as real
            == d.avgResponseTime * d.totalMessages as real + responseTime
  {
    var n := (d.totalMessages + 1) as real;
    var total := d.avgResponseTime * d.totalMessages as real + responseTime;
    assert AfterMessage(d, responseTime).avgResponseTime == total / n;
  }

  /** Reads the record, falling back to the seed when nothing is stored.
      Nothing is written: the seed is not persisted by reading it. */
  method GetAnalytics(st: Stores) returns (data: AnalyticsData)
    requires st.Valid()
    ensures data == StoredAnalytics(st.local)
    ensures AnalyticsKey in st.local ==> data == st.local[AnalyticsKey].data
    ensures AnalyticsKey !in st.local ==>
      && data.totalVisits == 1450 && data.liveUsers == 12 && data.uniqueUsers == 342
      && data.totalSessions == 890 && data.totalMessages == 4520 && data.avgResponseTime == 1.2
      && |data.dailyUsage| == 7
      && (forall i :: 0 <= i < 7 ==> data.dailyUsage[i].date == "2023-10-0" + [('1' as int + i) as char])
      && [data.dailyUsage[0].count, data.dailyUsage[1].count, data.dailyUsage[2].count,
          data.dailyUsage[3].count, data.dailyUsage[4].count, data.dailyUsage[5].count,
          data.dailyUsage[6].count] == [400, 300, 500, 800, 600, 900, 1100]
  {
    if AnalyticsKey in st.local {
      data := st.local[AnalyticsKey].data;
    } else {
      data := Seed();
    }
  }

  /** Stores the record under the analytics key. */
  method SaveAnalytics(st: Stores, data: AnalyticsData)
    requires st.Valid()
    modifies st
    ensures st.Valid()
    ensures st.local == old(st.local)[AnalyticsKey := AnalyticsValue(data)]
    ensures st.session == old(st.session)
    ensures StoredAnalytics(st.local) == data
  {
    st.local := st.local[AnalyticsKey := AnalyticsValue(data)];
  }

  method TrackVisit(st: Stores)
    requires st.Valid()
    modifies st
    ensures st.Valid()
    ensures st.local == old(st.local)[AnalyticsKey := AnalyticsValue(AfterVisit(StoredAnalytics(old(st.local))))]
    ensures st.session == old(st.session)
  {
    var data := GetAnalytics(st);
    data := data.(totalVisits := data.totalVisits + 1);
    SaveAnalytics(st, data);
  }

  /** `userId` is accepted and not used; `rnd` is the random number drawn in [0, 1). */
  method TrackSession(st: Stores, userId: string, rnd: real)
    requires st.Valid()
    requires 0.0 <= rnd < 1.0
    modifies st
    ensures st.Valid()
    ensures st.local == old(st.local)[AnalyticsKey := AnalyticsValue(AfterSession(StoredAnalytics(old(st.local)), rnd))]
    ensures st.session == old(st.session)
  {
    var data := GetAnalytics(st);
    data := data.(totalSessions := data.totalSessions + 1);
    data := data.(uniqueUsers := if data.uniqueUsers < UniqueUsersFloor then UniqueUsersFloor else data.uniqueUsers);
    data := data.(liveUsers := LiveUsersDraw(rnd));
    SaveAnalytics(st, data);
  }

  /** The count is raised before the average is recomputed with it. */
  method TrackMessage(st: Stores, responseTime: real)
    requires st.Valid()
    modifies st
    ensures st.Valid()
    ensures st.local == old(st.local)[AnalyticsKey := AnalyticsValue(AfterMessage(StoredAnalytics(old(st.local)), responseTime))]
    ensures st.session == old(st.session)
  {
    var data := GetAnalytics(st);
    data := data.(totalMessages := data.totalMessages + 1);
    data := data.(avgResponseTime := (data.avgResponseTime * (data.totalMessages - 1) as real + responseTime) / data.totalMessages as real);
    assert data == AfterMessage(StoredAnalytics(old(st.local)), responseTime);
    SaveAnalytics(st, data);
  }

  /** The record after `trackMessage` has run once per sample, in order. */
  function AfterMessages(d: AnalyticsData, samples: seq<real>): AnalyticsData
    decreases |samples|
  {
    if samples == [] then d else AfterMessages(AfterMessage(d, samples[0]), samples[1..])
  }

  function Sum(samples: seq<real>): real
  {
    if samples == [] then 0.0 else samples[0] + Sum(samples[1..])
  }

  /** After k recorded messages the count has grown by k, average times
      count has grown by the sum of the k samples, and no other field changed. */
  lemma {:induction false} RunningTotal(d: AnalyticsData, samples: seq<real>)
    ensures AfterMessages(d, samples).totalMessages == d.totalMessages + |samples|
    ensures AfterMessages(d, samples).avgResponseTime * (d.totalMessages + |samples|) as real
            == d.avgResponseTime * d.totalMessages as real + Sum(samples)
    ensures AfterMessages(d, samples).(totalMessages := d.totalMessages, avgResponseTime := d.avgResponseTime) == d
    decreases |samples|
  {
    if samples != [] {
      var d1 := AfterMessage(d, samples[0]);
      AfterMessageTotal(d, samples[0]);
      RunningTotal(d1, samples[1..]);
      assert d1.totalMessages + |samples[1..]| == d.totalMessages + |samples|;
    }
  }

  /** So the average after k messages is the mean of the earlier average,
      weighted by the earlier count, and the k samples. */
  lemma {:induction false} RunningMean(d: AnalyticsData, samples: seq<real>)
    requires d.totalMessages + |samples| > 0
    ensures AfterMessages(d, samples).avgResponseTime
            == (d.avgResponseTime * d.totalMessages as real + Sum(samples)) / (d.totalMessages + |samples|) as real
  {
    var r := AfterMessages(d, samples);
    var n := (d.totalMessages + |samples|) as real;
    var total := d.avgResponseTime * d.totalMessages as real + Sum(samples);
    RunningTotal(d, samples);
    assert r.avgResponseTime * n == total;
    Quotient(r.avgResponseTime, n, total);
  }

  lemma Quotient(x: real, n: real, y: real)
    requires n > 0.0 && x * n == y
    ensures x == y / n
  {
  }

  /** From an empty count the running average is the plain mean of the samples. */
  lemma {:induction false} PlainMean(d: AnalyticsData, samples: seq<real>)
    requires d.totalMessages == 0 && samples != []
    ensures AfterMessages(d, samples).avgResponseTime == Sum(samples) / |samples| as real
  {
    RunningMean(d, samples);
  }
}
