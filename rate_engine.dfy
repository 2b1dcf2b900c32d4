/**
 The rate computation inside `Metric.CalcRate`: how one counter of a snapshot
 is classified against the saved baseline, what it contributes to the rate
 map, and the loop that fills that map from a whole snapshot.
 */
module RateEngine {
  import opened Counters

  /** The two fields of the process-wide setting that classification reads. */
  datatype Setting = Setting(vlanPrefix: string, defaultVlan: string)

  /** The arm of the `switch` in `CalcRate` that a key takes. */
  datatype Branch = CpuRate | NetRate | Gauge | Dropped

  /** One assignment into the rate map. */
  datatype Entry = Entry(key: string, value: real)

  /**
   The `switch`, arm by arm and in order: a `cpu_` counter that did not go
   backwards, then a counter under the VLAN or default-VLAN prefix that did
   not go backwards, then any `mem` key whatever its history; nothing else.
   */
  function Classify(k: string, d: U64, prev: U64, s: Setting): (b: Branch)
    ensures b == CpuRate <==> HasPrefix(k, "cpu_") && d >= prev
    ensures b == NetRate <==>
              !(HasPrefix(k, "cpu_") && d >= prev)
              && (HasPrefix(k, s.vlanPrefix) || HasPrefix(k, s.defaultVlan)) && d >= prev
    ensures b == Gauge <==>
              HasPrefix(k, "mem")
              && !(HasPrefix(k, "cpu_") && d >= prev)
              && !((HasPrefix(k, s.vlanPrefix) || HasPrefix(k, s.defaultVlan)) && d >= prev)
    ensures HasPrefix(k, "mem") ==> b != Dropped
  {
    if HasPrefix(k, "cpu_") && d >= prev then CpuRate
    else if (HasPrefix(k, s.vlanPrefix) || HasPrefix(k, s.defaultVlan)) && d >= prev then NetRate
    else if HasPrefix(k, "mem") then Gauge
    else Dropped
  }

  /** The output key of an emitting arm: `k_rate`, `k.rate`, or `k` itself. */
  function RateKey(k: string, b: Branch): string
  {
    match b
    case CpuRate => k + "_rate"
    case NetRate => k + ".rate"
    case _ => k
  }

  /**
   What key `k` with current value `d` and baseline `prev` writes into the
   rate map over a window of `window` nanoseconds, if anything.
   */
  function Emit(k: string, d: U64, prev: U64, window: int, s: Setting): (e: Option<Entry>)
    requires window > 0
    ensures e.None? <==> Classify(k, d, prev, s) == Dropped
    ensures e.Some? ==> e.value.key == RateKey(k, Classify(k, d, prev, s))
  {
    var b := Classify(k, d, prev, s);
    match b
    case CpuRate => Some(Entry(RateKey(k, b), (d - prev) as real / window as real))
    case NetRate => Some(Entry(RateKey(k, b), (d - prev) as real / Seconds(window)))
    case Gauge => Some(Entry(RateKey(k, b), d as real))
    case Dropped => None
  }

  /**
   The rate maps `CalcRate` can return for snapshot `info`, baseline `save`
   and window `window`: every key that emits has its output key present, and
   every entry present was written by some key of the snapshot. Go visits the
   keys of a map in no fixed order, so where two keys write the same output
   key either may be the last writer.
   */
  ghost predicate RatesSpec(info: Info, save: Info, window: int, s: Setting, rate: Rates)
    requires window > 0
  {
    (forall k :: k in info && Emit(k, info[k], Prev(save, k), window, s).Some? ==>
       Emit(k, info[k], Prev(save, k), window, s).value.key in rate)
    && (forall o :: o in rate ==>
          exists k :: k in info && Emit(k, info[k], Prev(save, k), window, s) == Some(Entry(o, rate[o])))
  }

  /** The loop of `CalcRate`: visits the snapshot's keys in an arbitrary order. */
  method ComputeRates(info: Info, save: Info, window: int, s: Setting) returns (rate: Rates)
    requires window > 0
    ensures RatesSpec(info, save, window, s, rate)
  {
    rate := map[];
    var todo := info.Keys;
    while todo != {}
      invariant todo <= info.Keys
      invariant forall k :: k in info && k !in todo && Emit(k, info[k], Prev(save, k), window, s).Some? ==>
                  Emit(k, info[k], Prev(save, k), window, s).value.key in rate
      invariant forall o :: o in rate ==>
                  exists k :: k in info && k !in todo && Emit(k, info[k], Prev(save, k), window, s) == Some(Entry(o, rate[o]))
      decreases todo
    {
      var k :| k in todo;
      var e := Emit(k, info[k], Prev(save, k), window, s);
      if e.Some? {
        rate := rate[e.value.key := e.value.value];
      }
      todo := todo - {k};
    }
  }

  // ---------------------------------------------------------------------
  // Output keys

  /**
   Two different keys can write the same output key only when one of them is
   a `mem` gauge named `x.rate` and the other is a network counter `x`: CPU
   keys end in `_rate` and start with `cpu_`, network keys end in `.rate`.
   */
  lemma RateKeyCollision(k1: string, b1: Branch, k2: string, b2: Branch)
    requires k1 != k2 && b1 != Dropped && b2 != Dropped
    requires b1 == CpuRate ==> HasPrefix(k1, "cpu_")
    requires b2 == CpuRate ==> HasPrefix(k2, "cpu_")
    requires b1 == Gauge ==> HasPrefix(k1, "mem")
    requires b2 == Gauge ==> HasPrefix(k2, "mem")
    requires RateKey(k1, b1) == RateKey(k2, b2)
    ensures (b1 == Gauge && b2 == NetRate && k1 == k2 + ".rate")
         || (b2 == Gauge && b1 == NetRate && k2 == k1 + ".rate")
  {
    if b1 != Gauge && b2 != Gauge {
      SuffixCancel(k1, k2, if b1 == CpuRate then "_rate" else ".rate", if b2 == CpuRate then "_rate" else ".rate");
      assert false;
    } else if b1 == CpuRate {
      CpuKeyNotMem(k1, "_rate");
      assert false;
    } else if b2 == CpuRate {
      CpuKeyNotMem(k2, "_rate");
      assert false;
    }
  }

  /** Two keys with suffixes of one length are equal only if keys and suffixes are. */
  lemma SuffixCancel(a: string, b: string, x: string, y: string)
    requires a + x == b + y && |x| == |y|
    ensures a == b && x == y
  {
    assert a == (a + x)[..|a|] && b == (b + y)[..|b|];
    assert x == (a + x)[|a|..] && y == (b + y)[|b|..];
  }

  /** A `cpu_` key with anything appended still does not start with `mem`. */
  lemma CpuKeyNotMem(k: string, t: string)
    requires HasPrefix(k, "cpu_")
    ensures !HasPrefix(k + t, "mem")
  {
    assert (k + t)[0] == k[0] == 'c';
  }

  /** Every key of the rate map has one of the three forms the `switch` writes. */
  lemma OutputKeyForms(info: Info, save: Info, window: int, s: Setting, rate: Rates)
    requires window > 0 && RatesSpec(info, save, window, s, rate)
    ensures forall o :: o in rate ==>
              exists k :: (k in info &&
                ((HasPrefix(k, "cpu_") && o == k + "_rate")
                 || ((HasPrefix(k, s.vlanPrefix) || HasPrefix(k, s.defaultVlan)) && o == k + ".rate")
                 || (HasPrefix(k, "mem") && o == k)))
  {
    forall o | o in rate
      ensures exists k :: (k in info &&
                ((HasPrefix(k, "cpu_") && o == k + "_rate")
                 || ((HasPrefix(k, s.vlanPrefix) || HasPrefix(k, s.defaultVlan)) && o == k + ".rate")
                 || (HasPrefix(k, "mem") && o == k)))
    {
      var k :| k in info && Emit(k, info[k], Prev(save, k), window, s) == Some(Entry(o, rate[o]));
      assert o == RateKey(k, Classify(k, info[k], Prev(save, k), s));
    }
  }

  // ---------------------------------------------------------------------
  // Values

  /** No entry of the rate map is negative: resets are skipped, not rated. */
  lemma RatesNonNegative(info: Info, save: Info, window: int, s: Setting, rate: Rates)
    requires window > 0 && RatesSpec(info, save, window, s, rate)
    ensures forall o :: o in rate ==> rate[o] >= 0.0
  {
    forall o | o in rate ensures rate[o] >= 0.0 {
      var k :| k in info && Emit(k, info[k], Prev(save, k), window, s) == Some(Entry(o, rate[o]));
      EmitNonNegative(k, info[k], Prev(save, k), window, s);
    }
  }

  lemma EmitNonNegative(k: string, d: U64, prev: U64, window: int, s: Setting)
    requires window > 0 && Emit(k, d, prev, window, s).Some?
    ensures Emit(k, d, prev, window, s).value.value >= 0.0
  {
    match Classify(k, d, prev, s)
    case CpuRate =>
      assert (d - prev) as real >= 0.0 && window as real > 0.0;
    case NetRate =>
      assert (d - prev) as real >= 0.0 && Seconds(window) > 0.0;
    case Gauge =>
    case Dropped =>
  }

  /**
   An entry that no other key of the snapshot writes to carries exactly the
   value of its own key.
   */
  lemma UncontestedEntry(info: Info, save: Info, window: int, s: Setting, rate: Rates, k: string)
    requires window > 0 && RatesSpec(info, save, window, s, rate)
    requires k in info && Emit(k, info[k], Prev(save, k), window, s).Some?
    requires forall k' :: k' in info && k' != k ==>
               Emit(k', info[k'], Prev(save, k'), window, s).None?
               || Emit(k', info[k'], Prev(save, k'), window, s).value.key != Emit(k, info[k], Prev(save, k), window, s).value.key
    ensures Emit(k, info[k], Prev(save, k), window, s) == Some(Entry(Emit(k, info[k], Prev(save, k), window, s).value.key, rate[Emit(k, info[k], Prev(save, k), window, s).value.key]))
  {
    var e := Emit(k, info[k], Prev(save, k), window, s).value;
    assert e.key in rate;
    var k' :| k' in info && Emit(k', info[k'], Prev(save, k'), window, s) == Some(Entry(e.key, rate[e.key]));
  }

  /**
   A `cpu_` counter that did not go backwards is reported under `k_rate` as
   its increase over the baseline (0 when the baseline lacks it) per
   nanosecond of the window.
   */
  lemma CpuRateAt(info: Info, save: Info, window: int, s: Setting, rate: Rates, k: string)
    requires window > 0 && RatesSpec(info, save, window, s, rate)
    requires k in info && HasPrefix(k, "cpu_") && info[k] >= Prev(save, k)
    ensures k + "_rate" in rate
    ensures rate[k + "_rate"] == (info[k] - Prev(save, k)) as real / window as real
    ensures rate[k + "_rate"] >= 0.0
  {
    forall k' | k' in info && k' != k && Emit(k', info[k'], Prev(save, k'), window, s).Some?
      ensures Emit(k', info[k'], Prev(save, k'), window, s).value.key != k + "_rate"
    {
      var b' := Classify(k', info[k'], Prev(save, k'), s);
      if RateKey(k', b') == k + "_rate" {
        RateKeyCollision(k, CpuRate, k', b');
      }
    }
    UncontestedEntry(info, save, window, s, rate, k);
    EmitNonNegative(k, info[k], Prev(save, k), window, s);
  }

  /**
   A non-`cpu_` counter under the VLAN or default-VLAN prefix that did not go
   backwards is reported under `k.rate` as its increase per second, unless a
   `mem` gauge literally named `k.rate` is passed through to the same key.
   */
  lemma NetRateAt(info: Info, save: Info, window: int, s: Setting, rate: Rates, k: string)
    requires window > 0 && RatesSpec(info, save, window, s, rate)
    requires k in info && !HasPrefix(k, "cpu_")
    requires HasPrefix(k, s.vlanPrefix) || HasPrefix(k, s.defaultVlan)
    requires info[k] >= Prev(save, k)
    requires k + ".rate" in info ==> Classify(k + ".rate", info[k + ".rate"], Prev(save, k + ".rate"), s) != Gauge
    ensures k + ".rate" in rate
    ensures rate[k + ".rate"] == (info[k] - Prev(save, k)) as real / Seconds(window)
  {
    forall k' | k' in info && k' != k && Emit(k', info[k'], Prev(save, k'), window, s).Some?
      ensures Emit(k', info[k'], Prev(save, k'), window, s).value.key != k + ".rate"
    {
      var b' := Classify(k', info[k'], Prev(save, k'), s);
      if RateKey(k', b') == k + ".rate" {
        RateKeyCollision(k, NetRate, k', b');
      }
    }
    UncontestedEntry(info, save, window, s, rate, k);
  }

  /**
   A `mem` key that takes none of the rate arms is passed through under its
   own name as its current value, whatever the baseline, unless a network
   counter `x` with `k == x.rate` writes the same key.
   */
  lemma GaugeAt(info: Info, save: Info, window: int, s: Setting, rate: Rates, k: string)
    requires window > 0 && RatesSpec(info, save, window, s, rate)
    requires k in info && Classify(k, info[k], Prev(save, k), s) == Gauge
    requires forall x :: x in info && k == x + ".rate" ==> Classify(x, info[x], Prev(save, x), s) != NetRate
    ensures k in rate && rate[k] == info[k] as real
  {
    forall k' | k' in info && k' != k && Emit(k', info[k'], Prev(save, k'), window, s).Some?
      ensures Emit(k', info[k'], Prev(save, k'), window, s).value.key != k
    {
      var b' := Classify(k', info[k'], Prev(save, k'), s);
      if RateKey(k', b') == k {
        RateKeyCollision(k, Gauge, k', b');
      }
    }
    UncontestedEntry(info, save, window, s, rate, k);
  }

  /**
   Reset protection: a counter below its baseline that is not a `mem` key
   writes nothing, so neither `k_rate` nor `k.rate` is in the map.
   */
  lemma ResetSkipped(info: Info, save: Info, window: int, s: Setting, rate: Rates, k: string)
    requires window > 0 && RatesSpec(info, save, window, s, rate)
    requires k in info && info[k] < Prev(save, k) && !HasPrefix(k, "mem")
    ensures Emit(k, info[k], Prev(save, k), window, s).None?
    ensures k + "_rate" !in rate
    ensures k + ".rate" !in rate
  {
    if k + "_rate" in rate {
      var k' :| k' in info && Emit(k', info[k'], Prev(save, k'), window, s) == Some(Entry(k + "_rate", rate[k + "_rate"]));
      RateKeyOwner(k, "_rate", k', Classify(k', info[k'], Prev(save, k'), s));
      assert false;
    }
    if k + ".rate" in rate {
      var k' :| k' in info && Emit(k', info[k'], Prev(save, k'), window, s) == Some(Entry(k + ".rate", rate[k + ".rate"]));
      RateKeyOwner(k, ".rate", k', Classify(k', info[k'], Prev(save, k'), s));
      assert false;
    }
  }

  /** Only `k` itself can write `k_rate` or `k.rate` when `k` does not start with `mem`. */
  lemma RateKeyOwner(k: string, t: string, k': string, b': Branch)
    requires t == "_rate" || t == ".rate"
    requires !HasPrefix(k, "mem") && b' != Dropped
    requires b' == Gauge ==> HasPrefix(k', "mem")
    requires RateKey(k', b') == k + t
    ensures k' == k
  {
    if b' == Gauge {
      MemPrefixOfRateKey(k, t);
      assert false;
    } else {
      SuffixCancel(k', k, if b' == CpuRate then "_rate" else ".rate", t);
    }
  }

  /** `k_rate` or `k.rate` starts with `mem` only if `k` does. */
  lemma MemPrefixOfRateKey(k: string, t: string)
    requires t == "_rate" || t == ".rate"
    requires HasPrefix(k + t, "mem")
    ensures HasPrefix(k, "mem")
  {
    if |k| < 3 {
      AppendAt(k, t, |k|);
      assert false;
    }
    assert (k + t)[..3] == k[..3];
  }

  lemma AppendAt(a: string, b: string, i: int)
    requires |a| <= i < |a| + |b|
    ensures (a + b)[i] == b[i - |a|]
  {
  }

  // ---------------------------------------------------------------------
  // Gauges

  /**
   A `mem` key that fails both rate guards, one below its baseline included,
   is passed through as its current value, which does not depend on the
   baseline.
   */
  lemma GaugeIgnoresBaseline(k: string, d: U64, prev: U64, other: U64, window: int, s: Setting)
    requires window > 0
    ensures Classify(k, d, prev, s) == Gauge ==> Emit(k, d, prev, window, s) == Some(Entry(k, d as real))
    ensures (HasPrefix(k, "mem") && !(HasPrefix(k, "cpu_") && d >= prev)
             && !((HasPrefix(k, s.vlanPrefix) || HasPrefix(k, s.defaultVlan)) && d >= prev))
              ==> Emit(k, d, prev, window, s) == Some(Entry(k, d as real))
    ensures Classify(k, d, prev, s) == Gauge && Classify(k, d, other, s) == Gauge ==>
              Emit(k, d, prev, window, s) == Emit(k, d, other, window, s)
  {
  }

  /**
   Every string starts with "": with an empty VLAN prefix or default VLAN,
   every key but a `cpu_` one that did not go backwards, `mem` keys
   included, is rated as network traffic when it did not go backwards.
   */
  lemma EmptyPrefixRatesEverything(k: string, d: U64, prev: U64, s: Setting)
    requires s.vlanPrefix == "" || s.defaultVlan == ""
    requires d >= prev && !HasPrefix(k, "cpu_")
    ensures Classify(k, d, prev, s) == NetRate
  {
    assert [] <= k;
  }

  // ---------------------------------------------------------------------
  // Determinism

  /**
   When no `mem` gauge `x.rate` shares its output key with a network counter
   `x`, the rate map is fully determined: any two maps `CalcRate` may return
   are equal.
   */
  lemma RatesDetermined(info: Info, save: Info, window: int, s: Setting, r1: Rates, r2: Rates)
    requires window > 0
    requires RatesSpec(info, save, window, s, r1) && RatesSpec(info, save, window, s, r2)
    requires forall x :: x in info && x + ".rate" in info ==>
               Classify(x, info[x], Prev(save, x), s) != NetRate
               || Classify(x + ".rate", info[x + ".rate"], Prev(save, x + ".rate"), s) != Gauge
    ensures r1 == r2
  {
    forall o | o in r1 ensures o in r2 && r2[o] == r1[o] {
      var k :| k in info && Emit(k, info[k], Prev(save, k), window, s) == Some(Entry(o, r1[o]));
      Unique(info, save, window, s, k);
      UncontestedEntry(info, save, window, s, r2, k);
    }
    forall o | o in r2 ensures o in r1 {
      var k :| k in info && Emit(k, info[k], Prev(save, k), window, s) == Some(Entry(o, r2[o]));
    }
  }

  lemma Unique(info: Info, save: Info, window: int, s: Setting, k: string)
    requires window > 0
    requires forall x :: x in info && x + ".rate" in info ==>
               Classify(x, info[x], Prev(save, x), s) != NetRate
               || Classify(x + ".rate", info[x + ".rate"], Prev(save, x + ".rate"), s) != Gauge
    requires k in info && Emit(k, info[k], Prev(save, k), window, s).Some?
    ensures forall k' :: k' in info && k' != k ==>
               Emit(k', info[k'], Prev(save, k'), window, s).None?
               || Emit(k', info[k'], Prev(save, k'), window, s).value.key != Emit(k, info[k], Prev(save, k), window, s).value.key
  {
    forall k' | k' in info && k' != k && Emit(k', info[k'], Prev(save, k'), window, s).Some?
      ensures Emit(k', info[k'], Prev(save, k'), window, s).value.key != Emit(k, info[k], Prev(save, k), window, s).value.key
    {
      var b := Classify(k, info[k], Prev(save, k), s);
      var b' := Classify(k', info[k'], Prev(save, k'), s);
      if RateKey(k', b') == RateKey(k, b) {
        RateKeyCollision(k, b, k', b');
      }
    }
  }

  // ---------------------------------------------------------------------
  // Worked examples

  /** A CPU counter rising from 1000 to 5000 over one second: 0.000004 per ns. */
  lemma CpuExample(rate: Rates)
    requires RatesSpec(map["cpu_usage" := 5000], map["cpu_usage" := 1000], NanosPerSecond, Setting("eth", "vlan"), rate)
    ensures rate == map["cpu_usage_rate" := 0.000004]
  {
    var info: Info := map["cpu_usage" := 5000];
    assert "cpu_usage" + "_rate" == "cpu_usage_rate";
    CpuRateAt(info, map["cpu_usage" := 1000], NanosPerSecond, Setting("eth", "vlan"), rate, "cpu_usage");
    forall o | o in rate ensures o == "cpu_usage_rate" {
      var k :| k in info && Emit(k, info[k], Prev(map["cpu_usage" := 1000], k), NanosPerSecond, Setting("eth", "vlan")) == Some(Entry(o, rate[o]));
    }
  }

  /** A network counter rising from 100 to 1100 over one second: 1000 per second. */
  lemma NetExample(rate: Rates)
    requires RatesSpec(map["eth0_rx" := 1100], map["eth0_rx" := 100], NanosPerSecond, Setting("eth", "vlan"), rate)
    ensures rate == map["eth0_rx.rate" := 1000.0]
  {
    var info: Info := map["eth0_rx" := 1100];
    assert "eth0_rx" + ".rate" == "eth0_rx.rate";
    var s := Setting("eth", "vlan");
    assert HasPrefix("eth0_rx", "eth") && "eth0_rx"[0] == 'e';
    NetRateAt(info, map["eth0_rx" := 100], NanosPerSecond, s, rate, "eth0_rx");
    forall o | o in rate ensures o == "eth0_rx.rate" {
      var k :| k in info && Emit(k, info[k], Prev(map["eth0_rx" := 100], k), NanosPerSecond, s) == Some(Entry(o, rate[o]));
    }
  }
}
