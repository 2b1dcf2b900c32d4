/**
 Per-container metric state: the `Metric` object with its saved counter
 baseline `Save` and sample time `Last`, the projection of a Docker stats
 reply onto counter keys, and the arguments handed to the metrics sink.
 */
module Metric {
  import opened Counters
  import opened RateEngine

  /** The remote sink client a `Metric` sends to; only its identity is modelled. */
  datatype Remote = Remote(name: string)

  /** The fields of a Docker stats reply that `UpdateStats` reads. */
  datatype ContainerStats = ContainerStats(
    usageInUsermode: U64, usageInKernelmode: U64, totalUsage: U64,
    memUsage: U64, memMaxUsage: U64, memRss: U64)

  /** How the race between the stats stream and the force timeout ends. */
  datatype FetchOutcome =
    | Delivered(stats: ContainerStats)  // a non-nil reply arrived first
    | NilStats                          // the stream yielded nil
    | ForceTimeout                      // the force timeout fired first

  /** What the network-counter reader (not part of this model) reports. */
  datatype NetOutcome = NetOk(counters: Info) | NetFailed

  datatype StatsError = GetStatsFailed | GetStatsTimeout | NetStatsFailed

  /** `UpdateStats` returns its map together with an error. */
  datatype StatsReply = StatsReply(info: Info, err: Option<StatsError>)

  /** How opening `/proc/<pid>/net/dev` ends. */
  datatype OpenOutcome = Opened | OpenNotExist | OpenFailed

  datatype InitError = OpenError(notExist: bool) | FetchError(cause: StatsError)

  /** One call of the sink client's `Send`. */
  datatype SinkCall = SinkCall(client: Remote, rate: Rates, endpoint: string, tag: string,
                               timestamp: int, step: int)

  const CpuKeys: set<string> := {"cpu_user", "cpu_system", "cpu_usage"}
  const MemKeys: set<string> := {"mem_usage", "mem_max_usage", "mem_rss"}

  /** The counters `UpdateStats` copies out of a stats reply, keyed by name. */
  function StatKeys(st: ContainerStats): (info: Info)
    ensures info.Keys == CpuKeys + MemKeys
    ensures info["cpu_user"] == st.usageInUsermode
    ensures info["cpu_system"] == st.usageInKernelmode
    ensures info["cpu_usage"] == st.totalUsage
    ensures info["mem_usage"] == st.memUsage
    ensures info["mem_max_usage"] == st.memMaxUsage
    ensures info["mem_rss"] == st.memRss
  {
    map["cpu_user" := st.usageInUsermode, "cpu_system" := st.usageInKernelmode,
        "cpu_usage" := st.totalUsage, "mem_usage" := st.memUsage,
        "mem_max_usage" := st.memMaxUsage, "mem_rss" := st.memRss]
  }

  /**
   Every projected key takes the branch meant for it: a CPU counter is rated
   per nanosecond (or skipped after a reset) whatever the setting, and a
   memory counter is passed through as a gauge as long as neither network
   prefix matches it.
   */
  lemma StatKeysClassify(st: ContainerStats, save: Info, s: Setting)
    requires forall k :: k in MemKeys ==> !HasPrefix(k, s.vlanPrefix) && !HasPrefix(k, s.defaultVlan)
    ensures forall k :: k in CpuKeys ==>
              Classify(k, StatKeys(st)[k], Prev(save, k), s) ==
                (if StatKeys(st)[k] >= Prev(save, k) then CpuRate else Dropped)
    ensures forall k :: k in MemKeys ==> Classify(k, StatKeys(st)[k], Prev(save, k), s) == Gauge
  {
    forall k | k in CpuKeys
      ensures Classify(k, StatKeys(st)[k], Prev(save, k), s) ==
                (if StatKeys(st)[k] >= Prev(save, k) then CpuRate else Dropped)
    {
      assert k[..4] == "cpu_" && k[0] == 'c' && "mem"[0] == 'm';
    }
    forall k | k in MemKeys ensures Classify(k, StatKeys(st)[k], Prev(save, k), s) == Gauge {
      assert k[..3] == "mem" && k[0] == 'm' && "cpu_"[0] == 'c';
    }
  }

  /**
   `UpdateStats` once the stats race is decided: a nil reply or a timeout is
   an error with an empty map; otherwise the six counters, then the network
   counters, whose failure is reported with the six counters already filled.
   */
  function UpdateStats(fetch: FetchOutcome, net: NetOutcome): (r: StatsReply)
    ensures r.err.None? <==> fetch.Delivered? && net.NetOk?
    ensures fetch.NilStats? ==> r.err == Some(GetStatsFailed) && r.info == map[]
    ensures fetch.ForceTimeout? ==> r.err == Some(GetStatsTimeout) && r.info == map[]
    ensures fetch.Delivered? ==> CpuKeys + MemKeys <= r.info.Keys
    ensures fetch.Delivered? && net.NetOk? ==>
              r.info.Keys == CpuKeys + MemKeys + net.counters.Keys
              && forall k :: k in r.info ==>
                   r.info[k] == if k in net.counters then net.counters[k] else StatKeys(fetch.stats)[k]
  {
    match fetch
    case NilStats => StatsReply(map[], Some(GetStatsFailed))
    case ForceTimeout => StatsReply(map[], Some(GetStatsTimeout))
    case Delivered(st) =>
      match net
      case NetFailed => StatsReply(StatKeys(st), Some(NetStatsFailed))
      case NetOk(counters) => StatsReply(StatKeys(st) + counters, None)
  }

  /** `t.Unix()`: whole seconds since the epoch, rounded down. */
  function UnixSeconds(t: int): (sec: int)
    ensures sec * NanosPerSecond <= t < (sec + 1) * NanosPerSecond
  {
    t / NanosPerSecond
  }

  /** `int64(d.Seconds())`: whole seconds of a duration, truncated toward zero. */
  function WholeSeconds(d: int): (sec: int)
    ensures d >= 0 ==> 0 <= sec * NanosPerSecond <= d < (sec + 1) * NanosPerSecond
    ensures d < 0 ==> (sec - 1) * NanosPerSecond < d <= sec * NanosPerSecond <= 0
  {
    if d >= 0 then d / NanosPerSecond else -((-d) / NanosPerSecond)
  }

  /**
   Before the first successful `InitMetric`, `Last` is the zero time, and the
   window of any `CalcRate` after 1970 saturates at the largest duration.
   */
  lemma WindowBeforeInit(now: int)
    requires now >= 0
    ensures Sub(now, ZeroTime) == MaxDuration
  {
  }

  class Metric {
    var Step: int          // a time.Duration, in nanoseconds
    var Client: Remote
    var Tag: string
    var Endpoint: string
    var Save: Info         // the counter baseline
    var Last: int          // the sample time, in nanoseconds since the epoch

    /** `CreateMetric`: the given settings, an empty baseline, the zero time. */
    constructor CreateMetric(step: int, client: Remote, tag: string, endpoint: string)
      ensures Step == step && Client == client && Tag == tag && Endpoint == endpoint
      ensures Save == map[] && Last == ZeroTime
    {
      Step := step;
      Client := client;
      Tag := tag;
      Endpoint := endpoint;
      Save := map[];
      Last := ZeroTime;
    }

    /** Replaces the baseline by a copy of `info`, key by key. */
    method SaveLast(info: Info)
      modifies this`Save
      ensures Save == info
    {
      Save := map[];
      var todo := info.Keys;
      while todo != {}
        invariant todo <= info.Keys
        invariant Save.Keys == info.Keys - todo
        invariant forall k :: k in Save ==> Save[k] == info[k]
        decreases todo
      {
        var k :| k in todo;
        Save := Save[k := info[k]];
        todo := todo - {k};
      }
    }

    /**
     Opens the network counter file and fetches a first snapshot; only when
     both succeed are `Last` and `Save` set, to `now` and the snapshot.
     */
    method InitMetric(open: OpenOutcome, fetch: FetchOutcome, net: NetOutcome, now: int)
      returns (err: Option<InitError>)
      modifies this`Save, this`Last
      ensures open != Opened ==>
                err == Some(OpenError(open == OpenNotExist)) && Save == old(Save) && Last == old(Last)
      ensures open == Opened && UpdateStats(fetch, net).err.Some? ==>
                err == Some(FetchError(UpdateStats(fetch, net).err.value))
                && Save == old(Save) && Last == old(Last)
      ensures open == Opened && UpdateStats(fetch, net).err.None? ==>
                err == None && Save == UpdateStats(fetch, net).info && Last == now
    {
      if open != Opened {
        return Some(OpenError(open == OpenNotExist));
      }
      var reply := UpdateStats(fetch, net);
      if reply.err.None? {
        Last := now;
        SaveLast(reply.info);
        err := None;
      } else {
        err := Some(FetchError(reply.err.value));
      }
    }

    /**
     Rates of `info` against the baseline over the window since `Last`;
     `Last` moves to `now` and the baseline stays as it was.
     */
    method CalcRate(info: Info, now: int, s: Setting) returns (rate: Rates)
      requires now > Last
      modifies this`Last
      ensures Last == now && Save == old(Save)
      ensures Sub(now, old(Last)) > 0
      ensures RatesSpec(info, Save, Sub(now, old(Last)), s, rate)
    {
      var delta := Sub(now, Last);
      rate := ComputeRates(info, Save, delta, s);
      Last := now;
    }

    /** The call `Send` makes on the sink client. */
    method Send(rate: Rates) returns (call: SinkCall)
      ensures call.client == Client && call.rate == rate
      ensures call.endpoint == Endpoint && call.tag == Tag
      ensures call.timestamp * NanosPerSecond <= Last < (call.timestamp + 1) * NanosPerSecond
      ensures call.step == WholeSeconds(Step)
    {
      var step := WholeSeconds(Step);
      var timestamp := UnixSeconds(Last);
      call := SinkCall(Client, rate, Endpoint, Tag, timestamp, step);
    }
  }

  /**
   Within metric.go only `InitMetric` calls `SaveLast`, while every
   `CalcRate` advances `Last`. Unless the caller refreshes the baseline
   itself, a CPU counter rising 0, 10, 20 at equal 1000 ns steps is reported
   at 0.01 per ns for the first window and 0.02 for the second: the total
   rise since the baseline divided by the second window alone.
   */
  method BaselineDrift() returns (first: Rates, second: Rates)
    ensures "cpu_usage_rate" in first && first["cpu_usage_rate"] == 0.01
    ensures "cpu_usage_rate" in second && second["cpu_usage_rate"] == 0.02
  {
    var m := new Metric.CreateMetric(NanosPerSecond, Remote("sink"), "", "host");
    var none := ContainerStats(0, 0, 0, 0, 0, 0);
    var err := m.InitMetric(Opened, Delivered(none), NetOk(map[]), 1000);
    var baseline := m.Save;
    assert UpdateStats(Delivered(none), NetOk(map[])).err.None?;
    assert "cpu_usage" in baseline && baseline["cpu_usage"] == StatKeys(none)["cpu_usage"];
    var s := Setting("eth", "vlan");
    var one: Info := map["cpu_usage" := 10];
    var two: Info := map["cpu_usage" := 20];
    assert HasPrefix("cpu_usage", "cpu_");
    assert Sub(2000, 1000) == 1000 && Sub(3000, 2000) == 1000;
    assert "cpu_usage" + "_rate" == "cpu_usage_rate";
    first := m.CalcRate(one, 2000, s);
    CpuRateAt(one, baseline, 1000, s, first, "cpu_usage");
    assert first["cpu_usage_rate"] == 10.0 / 1000.0;
    second := m.CalcRate(two, 3000, s);
    CpuRateAt(two, baseline, 1000, s, second, "cpu_usage");
    assert second["cpu_usage_rate"] == 20.0 / 1000.0;
  }
}
