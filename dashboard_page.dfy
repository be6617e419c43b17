/** The dashboard: a live-user figure that takes a clamped random step on
    every tick, and the six summary tiles built from the analytics record. */
module DashboardPage {
  import opened Types

  /** One tick of the live-user simulation. `rnd` is the random number drawn
      in [0, 1): above one half the figure goes up by one, otherwise down by
      one but never below one. No record means nothing to update. */
  function Tick(prev: Option<AnalyticsData>, rnd: real): (next: Option<AnalyticsData>)
    ensures prev.None? ==> next == None
    ensures prev.Some? ==>
      && next.Some?
      && next.value.(liveUsers := prev.value.liveUsers) == prev.value
      && 1 <= next.value.liveUsers <= prev.value.liveUsers + 1
      && (rnd > 0.5 ==> next.value.liveUsers == prev.value.liveUsers + 1)
      && (rnd <= 0.5 && prev.value.liveUsers >= 2 ==> next.value.liveUsers == prev.value.liveUsers - 1)
      && (rnd <= 0.5 && prev.value.liveUsers <= 1 ==> next.value.liveUsers == 1)
  {
    match prev
    case None => None
    case Some(d) =>
      var stepped := d.liveUsers + (if rnd > 0.5 then 1 else -1);
      Some(d.(liveUsers := if stepped > 1 then stepped else 1))
  }

  /** The record after one tick per random number, in order. */
  function Ticks(prev: Option<AnalyticsData>, rnds: seq<real>): Option<AnalyticsData>
    decreases |rnds|
  {
    if rnds == [] then prev else Ticks(Tick(prev, rnds[0]), rnds[1..])
  }

  /** However many ticks run, only the live-user figure moves, by at most
      one per tick, and after the first tick it is at least one. */
  lemma {:induction false} TicksWalk(prev: Option<AnalyticsData>, rnds: seq<real>)
    ensures prev.None? ==> Ticks(prev, rnds) == None
    ensures prev.Some? ==>
      && Ticks(prev, rnds).Some?
      && Ticks(prev, rnds).value.(liveUsers := prev.value.liveUsers) == prev.value
      && Ticks(prev, rnds).value.liveUsers <= prev.value.liveUsers + |rnds|
      && Ticks(prev, rnds).value.liveUsers >= prev.value.liveUsers - |rnds|
      && (rnds != [] ==> Ticks(prev, rnds).value.liveUsers >= 1)
    decreases |rnds|
  {
    if rnds != [] {
      TicksWalk(Tick(prev, rnds[0]), rnds[1..]);
    }
  }

  /** What a tile shows; number formatting is left to the view. */
  datatype StatValue = Count(n: nat) | Seconds(s: real) | Label(text: string)

  datatype Stat = Stat(name: string, value: StatValue)

  const StatNames: seq<string> :=
    ["Total Visits", "Live Users", "Unique Users", "Total Messages", "Avg Latency", "Growth Rate"]

  /** The six tiles, in this order, each showing its field of the record;
      the growth rate is a fixed label. */
  function Stats(d: AnalyticsData): (stats: seq<Stat>)
    ensures |stats| == |StatNames| && forall i :: 0 <= i < |stats| ==> stats[i].name == StatNames[i]
    ensures stats[0].value == Count(d.totalVisits) && stats[1].value == Count(d.liveUsers)
    ensures stats[2].value == Count(d.uniqueUsers) && stats[3].value == Count(d.totalMessages)
    ensures stats[4].value == Seconds(d.avgResponseTime) && stats[5].value == Label("+12.5%")
  {
    [ Stat("Total Visits", Count(d.totalVisits)),
      Stat("Live Users", Count(d.liveUsers)),
      Stat("Unique Users", Count(d.uniqueUsers)),
      Stat("Total Messages", Count(d.totalMessages)),
      Stat("Avg Latency", Seconds(d.avgResponseTime)),
      Stat("Growth Rate", Label("+12.5%")) ]
  }
}
