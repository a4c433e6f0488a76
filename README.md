# k8s-network-prober: the probing loop

This project models the probing engine of `k8s-network-prober`, a daemon that
runs on every node of a fleet and measures HTTP round-trip latency to its peers.
A `PingClient` holds the set of the node's own addresses. Its probing loop
repeats the same cycle forever:

1. sleep for the current polling period (ten seconds before any configuration
   has been read);
2. read and decode the configuration file, and give up on the cycle if either
   step fails;
3. adopt the decoded polling period for the next sleep;
4. send `GET http://<ip>:<port>/ping` to every configured endpoint whose IP is
   not local, and record `(name, ip, rtt)` in the latency histogram for every
   request that got a response.

The model has two files:

- `config.dfy` (module `ProberConfig`) holds Go's `time.Duration` as a signed
  64-bit nanosecond count, the `Endpoint` and `Config` records, and the outcome
  of loading the file (`ReadError`, `DecodeError` or `Loaded(config)`). It also
  holds the rule that picks the configuration path.
- `pingclient.dfy` (module `Prober`) holds the `PingClient` class and the latency
  sink, which is a `LatencySink` object whose `samples` sequence stands for the
  histogram.
  - `Cycle` is one iteration of the loop.
  - `ProbeEndpoints` is its loop over the endpoint map. `ProbeEndpoint` is that
    loop's body for one endpoint.
  - `Run` is a finite run of consecutive cycles.

The file read, the JSON decoding and the HTTP requests are passed in as inputs:
- a `LoadResult` per cycle;
- a function from endpoint name to `ProbeOutcome`, which is either
  `TransportError` or `Response(statusCode, rtt)`.

Go walks a map in no fixed order, so the loop takes keys in an arbitrary order
(`:|`). Its contracts are stated over multisets: the samples appended to the
sink, taken as a multiset, equal the set `CycleSamples`, and the requests sent
equal `CycleRequests`. Lemmas about those sets state the properties of a cycle:
- self-exclusion by IP only;
- failure isolation per peer;
- non-200 responses are still recorded;
- at most one sample per name.
`PeriodAfter` gives the polling period after a sequence of cycles. A lemma
proves it equals the period decoded by the last cycle whose load succeeded, or
the starting period if no load succeeded.

### Edge cases of the code that the model keeps

- A decoded polling period of zero or less is adopted as is
  (`pingclient.go:43`). `time.Sleep` then returns at once, and the next cycle
  starts without a pause. The model adopts such a period too (`Cycle`,
  `PeriodAfterIsLastLoaded`).
- A non-200 status is only logged (`pingclient.go:58-60`). The sample recorded
  is the plain `(name, ip, rtt)`, with no status flag.
- The `Config` type declared in `main.go:20-23` has a field `EndpointsList`.
  The probing loop reads `config.EndpointsMap`, a map from peer name to
  `Endpoint` (`pingclient.go:45`), and the model follows that usage.

## Model

| member | source | states |
|---|---|---|
| `ProberConfig.PathToConfigFile` | pingclient.go:68-74 | The path is the environment value exactly when that value is non-empty, and `/etc/netprober/config.json` otherwise. It is never empty. |
| `Prober.LatencySink.Observe` | pingclient.go:63 | One observation labelled `(name, ip)` with the RTT is appended to the sink, and nothing else changes. |
| `Prober.PingClient.constructor` | pingclient.go:20-27 | The client keeps the given local address set, and its first sleep is `10 * Second` (10,000,000,000 ns). |
| `Prober.PingClient.Cycle` | pingclient.go:29-64 | The cycle sleeps for the period it started with. A read or decode failure keeps the period, sends no request and records nothing. A successful load sets the period to the decoded value, whatever its sign. The samples appended (as a multiset) are exactly `CycleSamples`, the requests exactly `CycleRequests`, and earlier samples are kept. |
| `Prober.PingClient.ProbeEndpoints` | pingclient.go:45-64 | Walking the endpoint map in any order sends exactly one request per non-local endpoint and appends exactly the samples in `CycleSamples`, each once. |
| `Prober.PingClient.ProbeEndpoint` | pingclient.go:46-63 | A local IP gets no request and no sample. Otherwise one request goes to `http://ip:port/ping`. A transport error records nothing, and any response (200 or not) records `(name, ip, rtt)`. |
| `Prober.PingClient.Run` | pingclient.go:26-65 | Over consecutive cycles, sleep `i` equals `PeriodAfter(start, loads[..i])`, the final period is `PeriodAfter(start, loads)`, the sink gains exactly the multiset sum of the cycles' samples, and the requests sent are exactly the multiset sum of the cycles' requests. |
| `Prober.PeriodAfterSnoc` | pingclient.go:30-43 | One more cycle changes the period only through that cycle's own load result. |
| `Prober.PeriodAfterIsLastLoaded` | pingclient.go:27-43 | After any sequence of cycles, the period is the one decoded by the last cycle whose load succeeded, including zero or negative values. If no load succeeded, it is the starting period. |
| `Prober.DefaultPeriodUntilFirstLoad` | pingclient.go:27-30 | On a fresh client, every sleep before the first successful load lasts ten seconds. |
| `Prober.SampleIsSound` | pingclient.go:45-63 | Every sample names a configured endpoint that is not local and that got a response, and carries that endpoint's IP and measured RTT. |
| `Prober.ResponderIsSampled` | pingclient.go:52-63 | Every non-local endpoint that got a response is requested at its URL and sampled, whatever the status code. |
| `Prober.LocalEndpointSkipped` | pingclient.go:46-49 | An endpoint whose IP maps to `true` in the local address set gets neither a request nor a sample. |
| `Prober.ExclusionIgnoresPort` | pingclient.go:46 | Self-exclusion looks at IPs only. Two configurations with the same names and IPs, whatever their ports, give the same samples and request the same peer names. |
| `Prober.TransportErrorIsolated` | pingclient.go:53-56 | Turning one peer's outcome into a transport error removes that peer's sample and leaves every other sample in place. |
| `Prober.AtMostOneSamplePerName` | pingclient.go:45-63 | Two samples of one cycle with the same name are the same sample. |
| `Prober.SelfExclusionScenario` | pingclient.go:45-63 | With local address 10.0.0.5, of peerA (10.0.0.5:8080) and peerB (10.0.0.9:8080) only peerB is requested and sampled. |

## Left out

- Sleeping, reading the file, JSON decoding, `http.Get`, and the clock
  (`time.Now`/`time.Since`) are inputs of a cycle: a `LoadResult` and a
  name-to-`ProbeOutcome` function. The JSON format is not modelled. In
  particular, a document that omits `pollingPeriod` decodes to zero, and the
  model takes any decoded `Config` as given.
- The probe outcome is given per endpoint name. Each name is requested at most
  once per cycle, so one outcome per name is all a cycle can observe.
- The response body is never closed (`pingclient.go:52-63`), so connections
  and file descriptors stay open across cycles. The model treats every probe
  outcome as an independent input, so it does not capture any later effect of
  those leaked resources on the outcomes.
- Logging (`log.Println`/`log.Printf`) is not modelled. It has no effect on
  state. The non-200 branch logs the transport error value, which is nil at
  that point, so that log line carries no detail. Nothing else depends on it.
- Conversion of the RTT to floating-point seconds (`rtt.Seconds()`) and the
  histogram's buckets are not modelled. The `interPodLatency` metric is defined
  in a file that is not part of this model. The sink keeps the integer
  nanosecond RTT of each observation.
- The infinite `for {}` loop is modelled as `Cycle` (one iteration) and `Run`
  (any finite number of iterations). Non-termination is not modelled.
- `Prober.PingClient.pollingPeriod` is a local variable of `ProbingLoop` in the
  source. Here it is a field of the client, set to the ten-second default by
  the constructor.
- Prober.PingClient.Cycle: the order in which samples and requests are produced
  within a cycle is not stated. Go's map iteration order is unspecified, so only
  their multisets are.
- Building the local address set from the host's interfaces is not in
  `pingclient.go`. The set is a constructor argument.
- `main.go`, `pongserver.go` and `prometheus.go` are not part of this model:
  - the liveness server and the metrics server are HTTP plumbing;
  - `main.go` holds an older copy of the client without self-exclusion;
  - process start-up, signal handling and shutdown are lifecycle wiring.
