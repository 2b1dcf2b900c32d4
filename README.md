# docker-metrics: per-container counter bookkeeping

A Dafny model of `metric/metric.go` of docker-metrics, the part that keeps one
container's counter baseline and turns counter snapshots into rates.

- `Counters` (`counters.dfy`) holds the vocabulary: `uint64` counters, snapshots
  (`map[string]uint64`), rate maps (`map[string]float64`, as exact reals),
  `strings.HasPrefix`, the Go map zero value, and time. An instant is an
  integer count of nanoseconds since the Unix epoch. The zero `time.Time` is
  year 1. `Time.Sub` saturates at the `time.Duration` range.
- `RateEngine` (`rate_engine.dfy`) models the `switch` inside `CalcRate`.
  `Classify` picks the arm and `Emit` gives the entry a key writes.
  `RatesSpec` describes every map the loop can return. `ComputeRates` is the
  loop itself, proved against `RatesSpec`. The lemmas derive the promised
  properties from `RatesSpec`.
- `Metric` (`metric.dfy`) holds the `Metric` class with its fields `Save` (the
  baseline) and `Last` (the sample time). Its members are `CreateMetric`,
  `SaveLast`, `InitMetric`, `CalcRate` and `Send`. The module also holds the
  projection of a Docker stats reply onto counter keys (`StatKeys`) and
  `UpdateStats`, taken from the point where the fetch race has been decided.

The global setting's `vlanPrefix` and `defaultVlan` are a `Setting` parameter.
The clock (`time.Now()`), the outcome of opening `/proc/<pid>/net/dev`, the
outcome of the stats fetch and the network-counter reader's result are all
parameters.

Behaviour of the code that the model keeps as written:

- Within metric.go only `InitMetric` calls `SaveLast`, so only it refreshes
  the baseline `Save`, while every `CalcRate` advances `Last`. `SaveLast` is
  exported, and the loop that calls `CalcRate` is not in this file. Unless
  that caller refreshes the baseline itself, the window and the baseline drift
  apart. After the first call, each rate is then the total rise since the
  baseline divided by the latest window alone. `Metric.BaselineDrift` shows
  this: a counter going 0, 10, 20 at equal steps is reported at 0.01, then 0.02.
- A zero or negative window is not rejected by the code. The model requires
  `now > Last` of `CalcRate` instead of modelling the infinities or NaN it yields.
- A memory key that starts with the VLAN or default-VLAN prefix and did not go
  backwards is rated as `k.rate`. It is not passed through. An empty prefix
  therefore rates every non-CPU key that did not go backwards
  (`EmptyPrefixRatesEverything`).
- Go iterates maps in no fixed order. A `mem` gauge literally named `x.rate`
  and a network counter `x` write the same output key, and either may win.
  `RatesSpec` allows both outcomes. `RateKeyCollision` shows this is the only
  possible clash. `RatesDetermined` shows the output is unique when it does
  not occur.

## Model

| member | source | states |
|---|---|---|
| `Counters.Prev` | metric/metric.go:108-111 | a key missing from the baseline reads as 0, a present key as its saved value |
| `Counters.Sub` | metric/metric.go:103 | the window is the exact difference when it fits a Duration, always stays within the Duration range, and is positive exactly when `now` is after `Last` |
| `RateEngine.Classify` | metric/metric.go:107-114 | a key is a CPU rate exactly when it is a non-decreasing `cpu_` key; a network rate exactly when it fails that arm and is a non-decreasing key under a network prefix; a gauge exactly when it starts with `mem` and fails both rate arms, a `mem` key below its baseline included; every `mem` key emits something |
| `RateEngine.Emit` | metric/metric.go:104-113 | a key writes nothing exactly when no arm matches, and otherwise writes under the key its arm names |
| `RateEngine.ComputeRates` | metric/metric.go:102-115 | the loop in any key order returns a map where every emitting key's output key is present and every entry was written by some snapshot key |
| `RateEngine.RateKeyCollision` | metric/metric.go:108-113 | two different keys share an output key only if one is a `mem` gauge `x.rate` and the other a network counter `x` |
| `RateEngine.OutputKeyForms` | metric/metric.go:106-114 | every output key is `k_rate` for a `cpu_` key, `k.rate` for a key under a network prefix, or `k` for a `mem` key of the snapshot |
| `RateEngine.RatesNonNegative` | metric/metric.go:108-113 | no emitted value is negative |
| `RateEngine.CpuRateAt` | metric/metric.go:104-109 | a non-decreasing `cpu_` key yields `k_rate` = (d - baseline) / window in ns, never negative, with a missing baseline read as 0 |
| `RateEngine.NetRateAt` | metric/metric.go:105-111 | a non-CPU key under the VLAN or default-VLAN prefix that did not decrease yields `k.rate` = (d - baseline) / window in seconds, unless a `mem` gauge named `k.rate` competes |
| `RateEngine.GaugeAt` | metric/metric.go:112-113 | a `mem` key that no rate arm took is passed through as its current value, unless a network counter competes for its key |
| `RateEngine.ResetSkipped` | metric/metric.go:108-113 | a non-`mem` key below its baseline writes nothing: neither `k_rate` nor `k.rate` is in the map |
| `RateEngine.GaugeIgnoresBaseline` | metric/metric.go:112-113 | a `mem` key failing both rate guards, one below its baseline included, is emitted as its current value whatever the baseline |
| `RateEngine.EmptyPrefixRatesEverything` | metric/metric.go:110 | with an empty VLAN prefix or default VLAN, every non-CPU key that did not decrease is a network rate |
| `RateEngine.RatesDetermined` | metric/metric.go:106-114 | without a gauge/network clash, any two maps `CalcRate` may return are equal |
| `RateEngine.CpuExample` | metric/metric.go:108-109 | 1000 to 5000 over one second gives exactly `{cpu_usage_rate: 0.000004}` |
| `RateEngine.NetExample` | metric/metric.go:110-111 | 100 to 1100 over one second with prefix `eth` gives exactly `{eth0_rx.rate: 1000}` |
| `Metric.StatKeys` | metric/metric.go:80-86 | the projection has exactly the six keys, each from its stats field |
| `Metric.StatKeysClassify` | metric/metric.go:80-86 | each CPU key of the projection is a CPU rate or skipped, and each memory key is a gauge when no network prefix matches it |
| `Metric.UpdateStats` | metric/metric.go:69-91 | success exactly when a reply arrived and the network counters were read; nil and timeout give an empty map with their error; on success the map is the six counters overlaid by the network counters |
| `Metric.UnixSeconds` | metric/metric.go:122 | the timestamp is `Last` in whole seconds rounded down |
| `Metric.WholeSeconds` | metric/metric.go:121 | the step is the duration in whole seconds truncated toward zero |
| `Metric.WindowBeforeInit` | metric/metric.go:103 | before a successful `InitMetric`, `Last` is the zero time and the window saturates |
| `Metric.Metric.CreateMetric` | metric/metric.go:19-27 | step, client, tag and endpoint are as given, the baseline is empty and `Last` is the zero time |
| `Metric.Metric.SaveLast` | metric/metric.go:94-99 | the baseline becomes exactly the snapshot's keys and values |
| `Metric.Metric.InitMetric` | metric/metric.go:29-44 | an open failure or a fetch error is returned and leaves `Save` and `Last` unchanged; on success `Last` is `now` and `Save` the snapshot |
| `Metric.Metric.CalcRate` | metric/metric.go:101-118 | the result is a rate map for the window since the old `Last`; `Last` becomes `now` and `Save` is unchanged |
| `Metric.Metric.Send` | metric/metric.go:120-124 | the sink receives the rates, endpoint and tag, the timestamp `Last` in whole seconds and the step in whole seconds |
| `Metric.BaselineDrift` | metric/metric.go:39-42 | with the baseline never refreshed, a counter rising evenly is reported at 0.01 and then at 0.02 |

## Left out

- The stats goroutine and the `select` between `statsChan` and the force timeout (metric/metric.go:54-78) are concurrency. Their outcome is the `FetchOutcome` parameter. Abandoning the fetch through `doneChan` is not modelled.
- `Exit` (metric/metric.go:46-50) is channel and file-handle plumbing. So is the container-map removal that `InitMetric` and `UpdateStats` do when `/proc/<pid>/net/dev` is missing. The open outcome is a parameter, and the file handle `statFile` is not modelled.
- The existence check at metric/metric.go:57-60 is filesystem I/O and is not modelled. The code continues with the fetch after it anyway.
- `getNetStats` is not part of this model. Its success is taken as adding its counters to the snapshot, overwriting equal keys. On its failure the model assumes it left the six counters untouched, and returns them with the error; what it may have added before failing is not modelled.
- `SetGlobalSetting` and the global setting are process-wide configuration. Only `vlanPrefix` and `defaultVlan` enter the model, as a parameter. The timeouts and the Docker client live inside the fetch outcome.
- The sink client's `Send` and its error are foreign calls. `Metric.Send` returns the call it makes.
- `Metric.Metric.CalcRate`: requires a positive window (`now > Last`). The code would divide by zero or a negative window, which yields infinities, NaN or negative rates.
- Floating point: `float64` conversions and divisions are exact reals, so IEEE-754 rounding is not modelled. `WholeSeconds` truncates the exact quotient, not `d.Seconds()` as a float.
- `SaveLast` builds a fresh map in Go. Dafny maps are values, so later changes to the caller's snapshot cannot reach `Save` in the model. Aliasing is therefore not modelled.
