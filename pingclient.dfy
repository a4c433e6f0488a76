/** The probing engine: each cycle sleeps for the current polling period,
    reloads the configuration, adopts its polling period, and sends one
    HTTP GET to every configured endpoint whose IP is not local, recording the
    round-trip time of every request that got a response. */
module Prober {
  import opened ProberConfig

  /** What one `GET /ping` produced: no response at all (connection refused,
      name resolution, ...), or a response with its status and measured RTT. */
  datatype ProbeOutcome = TransportError | Response(statusCode: int, rtt: Duration)

  /** One latency observation, labelled by peer name and peer IP. */
  datatype Sample = Sample(name: string, ip: string, rtt: Duration)

  /** One request sent during a cycle: the peer's name and the URL fetched. */
  datatype Request = Request(name: string, url: string)

  function PingUrl(ep: Endpoint): string {
    "http://" + ep.ip + ":" + ep.port + "/ping"
  }

  /** A lookup in the local address set; as in Go, a missing key reads as false. */
  predicate IsLocal(addrSet: map<string, bool>, ip: string) {
    ip in addrSet && addrSet[ip]
  }

  /** The requests sent for the endpoints named in `keys`. */
  ghost function RequestsOver(keys: set<string>, cfg: Config, addrSet: map<string, bool>): set<Request> {
    set k | k in keys && k in cfg.endpointsMap && !IsLocal(addrSet, cfg.endpointsMap[k].ip)
      :: Request(k, PingUrl(cfg.endpointsMap[k]))
  }

  ghost function CycleRequests(cfg: Config, addrSet: map<string, bool>): set<Request> {
    RequestsOver(cfg.endpointsMap.Keys, cfg, addrSet)
  }

  /** The samples recorded for the endpoints named in `keys`. */
  ghost function SamplesOver(keys: set<string>, cfg: Config, addrSet: map<string, bool>,
                             probe: string -> ProbeOutcome): set<Sample> {
    set k | k in keys && k in cfg.endpointsMap && !IsLocal(addrSet, cfg.endpointsMap[k].ip)
                      && probe(k).Response?
      :: Sample(k, cfg.endpointsMap[k].ip, probe(k).rtt)
  }

  /** The samples one successful cycle records, whatever order the map is walked in. */
  ghost function CycleSamples(cfg: Config, addrSet: map<string, bool>,
                              probe: string -> ProbeOutcome): set<Sample> {
    SamplesOver(cfg.endpointsMap.Keys, cfg, addrSet, probe)
  }

  /** The polling period after one cycle that started with `current`. */
  function NextPeriod(current: Duration, load: LoadResult): Duration {
    if load.Loaded? then load.config.pollingPeriod else current
  }

  /** The polling period after the cycles whose load results are `loads`. */
  function PeriodAfter(start: Duration, loads: seq<LoadResult>): Duration
    decreases |loads|
  {
    if loads == [] then start else PeriodAfter(NextPeriod(start, loads[0]), loads[1..])
  }

  /** `i` is the last cycle among `loads` whose configuration loaded. */
  ghost predicate LastLoadedAt(loads: seq<LoadResult>, i: int) {
    0 <= i < |loads| && loads[i].Loaded?
    && forall j :: i < j < |loads| ==> !loads[j].Loaded?
  }

  /** The samples the cycles with these loads and probe outcomes record. */
  ghost function RunSamples(addrSet: map<string, bool>, loads: seq<LoadResult>,
                            probes: seq<string -> ProbeOutcome>): multiset<Sample>
    requires |probes| == |loads|
    decreases |loads|
  {
    if loads == [] then multiset{}
    else
      var n := |loads| - 1;
      RunSamples(addrSet, loads[..n], probes[..n]) + CycleContribution(addrSet, loads[n], probes[n])
  }

  /** The requests the cycles with these loads send. */
  ghost function RunRequests(addrSet: map<string, bool>, loads: seq<LoadResult>): multiset<Request>
    decreases |loads|
  {
    if loads == [] then multiset{}
    else
      var n := |loads| - 1;
      RunRequests(addrSet, loads[..n]) + CycleRequestsSent(addrSet, loads[n])
  }

  /** The latency histogram, as the sequence of observations made into it. */
  class LatencySink {
    var samples: seq<Sample>

    constructor ()
      ensures samples == []
    {
      samples := [];
    }

    method Observe(name: string, ip: string, rtt: Duration)
      modifies this
      ensures samples == old(samples) + [Sample(name, ip, rtt)]
    {
      samples := samples + [Sample(name, ip, rtt)];
    }
  }

  class PingClient {
    /** The local addresses to skip; never changed after construction. */
    const addrSet: map<string, bool>
    /** The period the next cycle sleeps for. */
    var pollingPeriod: Duration

    constructor (addrSet: map<string, bool>)
      ensures this.addrSet == addrSet
      ensures pollingPeriod == DefaultPollingPeriod
    {
      this.addrSet := addrSet;
      pollingPeriod := DefaultPollingPeriod;
    }

    /** One iteration of the probing loop. `load` is what reading and decoding
        the configuration file gave, `probe` what the GET to each peer name
        gives. Returns the period slept at the start of the cycle and the
        requests sent. */
    method Cycle(load: LoadResult, probe: string -> ProbeOutcome, sink: LatencySink)
      returns (slept: Duration, requests: seq<Request>)
      modifies this`pollingPeriod, sink
      ensures slept == old(pollingPeriod)
      ensures pollingPeriod == NextPeriod(old(pollingPeriod), load)
      ensures Appended(old(sink.samples), sink.samples, CycleContribution(addrSet, load, probe))
      ensures multiset(requests) == CycleRequestsSent(addrSet, load)
    {
      slept := pollingPeriod;
      requests := [];
      match load
      case ReadError =>
        assert sink.samples[|sink.samples|..] == [];
        return;
      case DecodeError =>
        assert sink.samples[|sink.samples|..] == [];
        return;
      case Loaded(cfg) =>
        pollingPeriod := cfg.pollingPeriod;
        requests := ProbeEndpoints(cfg, probe, sink);
    }

    /** The probing phase of a cycle: every endpoint of `cfg` whose IP is not
        local gets one request; every request that got a response, whatever
        its status, adds one sample to `sink`. Keys are visited in no
        particular order. */
    method ProbeEndpoints(cfg: Config, probe: string -> ProbeOutcome, sink: LatencySink)
      returns (requests: seq<Request>)
      modifies sink
      ensures Appended(old(sink.samples), sink.samples, multiset(CycleSamples(cfg, addrSet, probe)))
      ensures multiset(requests) == multiset(CycleRequests(cfg, addrSet))
    {
      requests := [];
      ghost var before := sink.samples;
      var remaining := cfg.endpointsMap.Keys;
      ghost var done: set<string> := {};
      assert sink.samples[|before|..] == [];
      while remaining != {}
        invariant remaining <= cfg.endpointsMap.Keys
        invariant done == cfg.endpointsMap.Keys - remaining
        invariant Appended(before, sink.samples, multiset(SamplesOver(done, cfg, addrSet, probe)))
        invariant multiset(requests) == multiset(RequestsOver(done, cfg, addrSet))
        decreases remaining
      {
        var name :| name in remaining;
        var endpoint := cfg.endpointsMap[name];
        ghost var prev := sink.samples;
        var sent := ProbeEndpoint(name, endpoint, probe, sink);
        VisitKeySamples(done, name, cfg, addrSet, probe, before, prev, sink.samples);
        VisitKeyRequests(done, name, cfg, addrSet, requests, sent);
        requests := requests + sent;
        remaining := remaining - {name};
        done := done + {name};
      }
    }

    /** The body of the probing phase for one endpoint: skip it when its IP is
        local; otherwise send one request and, when a response came back,
        record its RTT under the endpoint's name and IP. A status other than
        200 (OK) is only logged, so the sample is recorded all the same.
        Returns the requests sent (none or one). */
    method ProbeEndpoint(name: string, endpoint: Endpoint, probe: string -> ProbeOutcome, sink: LatencySink)
      returns (sent: seq<Request>)
      modifies sink
      ensures sent == RequestFor(addrSet, name, endpoint)
      ensures sink.samples == old(sink.samples) + SampleFor(addrSet, name, endpoint, probe)
    {
      if IsLocal(addrSet, endpoint.ip) {
        return [];
      }
      sent := [Request(name, PingUrl(endpoint))];
      var outcome := probe(name);
      if outcome.TransportError? {
        return;
      }
      sink.Observe(name, endpoint.ip, outcome.rtt);
    }

    /** A finite run of the probing loop: cycle `i` sees `loads[i]` and `probes[i]`.
        Returns the period slept before each cycle and every request sent. */
    method Run(loads: seq<LoadResult>, probes: seq<string -> ProbeOutcome>, sink: LatencySink)
      returns (sleeps: seq<Duration>, requests: seq<Request>)
      requires |probes| == |loads|
      modifies this`pollingPeriod, sink
      ensures |sleeps| == |loads|
      ensures forall i :: 0 <= i < |loads| ==> sleeps[i] == PeriodAfter(old(pollingPeriod), loads[..i])
      ensures pollingPeriod == PeriodAfter(old(pollingPeriod), loads)
      ensures Appended(old(sink.samples), sink.samples, RunSamples(addrSet, loads, probes))
      ensures multiset(requests) == RunRequests(addrSet, loads)
    {
      ghost var start := pollingPeriod;
      ghost var before := sink.samples;
      sleeps, requests := [], [];
      var i := 0;
      assert sink.samples[|before|..] == [];
      while i < |loads|
        invariant 0 <= i <= |loads|
        invariant |sleeps| == i
        invariant SleepsFollow(start, loads, sleeps)
        invariant pollingPeriod == PeriodAfter(start, loads[..i])
        invariant Appended(before, sink.samples, RunSamples(addrSet, loads[..i], probes[..i]))
        invariant multiset(requests) == RunRequests(addrSet, loads[..i])
      {
        ghost var prev := sink.samples;
        var slept, sent := Cycle(loads[i], probes[i], sink);
        RunStep(addrSet, start, loads, probes, i, before, prev, sink.samples);
        SleepsFollowStep(start, loads, sleeps, slept);
        sleeps, requests := sleeps + [slept], requests + sent;
        i := i + 1;
      }
      assert loads[..i] == loads;
      assert probes[..i] == probes;
    }
  }

  /** The request one endpoint gets: none when its IP is local. */
  function RequestFor(addrSet: map<string, bool>, name: string, endpoint: Endpoint): seq<Request> {
    if IsLocal(addrSet, endpoint.ip) then [] else [Request(name, PingUrl(endpoint))]
  }

  /** The sample one endpoint contributes: none when its IP is local or its
      request got no response. */
  function SampleFor(addrSet: map<string, bool>, name: string, endpoint: Endpoint,
                     probe: string -> ProbeOutcome): seq<Sample> {
    if IsLocal(addrSet, endpoint.ip) || probe(name).TransportError? then []
    else [Sample(name, endpoint.ip, probe(name).rtt)]
  }

  /** The requests a cycle with load result `load` sends. */
  ghost function CycleRequestsSent(addrSet: map<string, bool>, load: LoadResult): multiset<Request> {
    if load.Loaded? then multiset(CycleRequests(load.config, addrSet)) else multiset{}
  }

  /** The sample half of the probing loop's invariant survives a visit to key `k`. */
  lemma VisitKeySamples(done: set<string>, k: string, cfg: Config, addrSet: map<string, bool>,
                        probe: string -> ProbeOutcome, before: seq<Sample>, prev: seq<Sample>,
                        after: seq<Sample>)
    requires k !in done && k in cfg.endpointsMap
    requires Appended(before, prev, multiset(SamplesOver(done, cfg, addrSet, probe)))
    requires after == prev + SampleFor(addrSet, k, cfg.endpointsMap[k], probe)
    ensures Appended(before, after, multiset(SamplesOver(done + {k}, cfg, addrSet, probe)))
  {
    var ep := cfg.endpointsMap[k];
    SamplesOverStep(done, k, cfg, addrSet, probe);
    if !IsLocal(addrSet, ep.ip) && probe(k).Response? {
      AppendFresh(before, prev, Sample(k, ep.ip, probe(k).rtt), SamplesOver(done, cfg, addrSet, probe));
    } else {
      assert after == prev;
    }
  }

  /** The request half of the probing loop's invariant survives a visit to key `k`. */
  lemma VisitKeyRequests(done: set<string>, k: string, cfg: Config, addrSet: map<string, bool>,
                         requests: seq<Request>, sent: seq<Request>)
    requires k !in done && k in cfg.endpointsMap
    requires multiset(requests) == multiset(RequestsOver(done, cfg, addrSet))
    requires sent == RequestFor(addrSet, k, cfg.endpointsMap[k])
    ensures multiset(requests + sent) == multiset(RequestsOver(done + {k}, cfg, addrSet))
  {
    var ep := cfg.endpointsMap[k];
    RequestsOverStep(done, k, cfg, addrSet);
    if !IsLocal(addrSet, ep.ip) {
      var r := Request(k, PingUrl(ep));
      assert multiset(RequestsOver(done, cfg, addrSet) + {r})
             == multiset(RequestsOver(done, cfg, addrSet)) + multiset{r};
    } else {
      assert requests + sent == requests;
    }
  }

  /** Sleep `j` of `sleeps` lasted the period left by the first `j` cycles. */
  ghost predicate SleepsFollow(start: Duration, loads: seq<LoadResult>, sleeps: seq<Duration>) {
    |sleeps| <= |loads| && forall j :: 0 <= j < |sleeps| ==> sleeps[j] == PeriodAfter(start, loads[..j])
  }

  lemma SleepsFollowStep(start: Duration, loads: seq<LoadResult>, sleeps: seq<Duration>, slept: Duration)
    requires SleepsFollow(start, loads, sleeps) && |sleeps| < |loads|
    requires slept == PeriodAfter(start, loads[..|sleeps|])
    ensures SleepsFollow(start, loads, sleeps + [slept])
  {
    forall j | 0 <= j < |sleeps| + 1
      ensures (sleeps + [slept])[j] == PeriodAfter(start, loads[..j])
    {
      if j < |sleeps| {
        assert (sleeps + [slept])[j] == sleeps[j];
      }
    }
  }

  /** The loop of a run keeps its invariant across cycle `i`. */
  lemma RunStep(addrSet: map<string, bool>, start: Duration, loads: seq<LoadResult>,
                probes: seq<string -> ProbeOutcome>, i: nat,
                before: seq<Sample>, prev: seq<Sample>, after: seq<Sample>)
    requires |probes| == |loads| && i < |loads|
    requires Appended(before, prev, RunSamples(addrSet, loads[..i], probes[..i]))
    requires Appended(prev, after, CycleContribution(addrSet, loads[i], probes[i]))
    ensures Appended(before, after, RunSamples(addrSet, loads[..i + 1], probes[..i + 1]))
    ensures PeriodAfter(start, loads[..i + 1]) == NextPeriod(PeriodAfter(start, loads[..i]), loads[i])
    ensures RunRequests(addrSet, loads[..i + 1])
            == RunRequests(addrSet, loads[..i]) + CycleRequestsSent(addrSet, loads[i])
  {
    assert loads[..i + 1][..i] == loads[..i];
    assert probes[..i + 1][..i] == probes[..i];
    AppendedTrans(before, prev, after, RunSamples(addrSet, loads[..i], probes[..i]),
                  CycleContribution(addrSet, loads[i], probes[i]));
    assert loads[..i + 1] == loads[..i] + [loads[i]];
    PeriodAfterSnoc(start, loads[..i], loads[i]);
  }

  /** `after` is `before` followed by elements that, taken together, are `added`. */
  ghost predicate Appended<T>(before: seq<T>, after: seq<T>, added: multiset<T>) {
    |before| <= |after| && after[..|before|] == before && multiset(after[|before|..]) == added
  }

  lemma AppendedTrans<T>(a: seq<T>, b: seq<T>, c: seq<T>, m1: multiset<T>, m2: multiset<T>)
    requires Appended(a, b, m1) && Appended(b, c, m2)
    ensures Appended(a, c, m1 + m2)
  {
    assert c[..|b|][..|a|] == c[..|a|];
    assert c[|a|..] == b[|a|..] + c[|b|..];
  }

  /** Appending an element that is not yet in `s` to a sequence whose tail
      past `before` holds exactly `s` gives a tail holding `s + {x}`. */
  lemma AppendFresh<T>(before: seq<T>, prev: seq<T>, x: T, s: set<T>)
    requires Appended(before, prev, multiset(s)) && x !in s
    ensures Appended(before, prev + [x], multiset(s + {x}))
  {
    assert (prev + [x])[..|before|] == prev[..|before|];
    assert (prev + [x])[|before|..] == prev[|before|..] + [x];
    assert multiset(s + {x}) == multiset(s) + multiset{x};
  }

  /** What cycle with load result `load` and probe outcomes `probe` records. */
  ghost function CycleContribution(addrSet: map<string, bool>, load: LoadResult,
                                   probe: string -> ProbeOutcome): multiset<Sample> {
    if load.Loaded? then multiset(CycleSamples(load.config, addrSet, probe)) else multiset{}
  }

  /** How the requests grow when one more key is visited. */
  lemma RequestsOverStep(done: set<string>, k: string, cfg: Config, addrSet: map<string, bool>)
    requires k !in done && k in cfg.endpointsMap
    ensures RequestsOver(done + {k}, cfg, addrSet)
            == RequestsOver(done, cfg, addrSet)
               + (if IsLocal(addrSet, cfg.endpointsMap[k].ip) then {}
                  else {Request(k, PingUrl(cfg.endpointsMap[k]))})
    ensures !IsLocal(addrSet, cfg.endpointsMap[k].ip)
            ==> Request(k, PingUrl(cfg.endpointsMap[k])) !in RequestsOver(done, cfg, addrSet)
  {
  }

  /** How the samples grow when one more key is visited. */
  lemma SamplesOverStep(done: set<string>, k: string, cfg: Config, addrSet: map<string, bool>,
                        probe: string -> ProbeOutcome)
    requires k !in done && k in cfg.endpointsMap
    ensures SamplesOver(done + {k}, cfg, addrSet, probe)
            == SamplesOver(done, cfg, addrSet, probe)
               + (if IsLocal(addrSet, cfg.endpointsMap[k].ip) || probe(k).TransportError? then {}
                  else {Sample(k, cfg.endpointsMap[k].ip, probe(k).rtt)})
    ensures !IsLocal(addrSet, cfg.endpointsMap[k].ip) && probe(k).Response?
            ==> Sample(k, cfg.endpointsMap[k].ip, probe(k).rtt) !in SamplesOver(done, cfg, addrSet, probe)
  {
  }

  lemma {:induction false} PeriodAfterSnoc(start: Duration, loads: seq<LoadResult>, load: LoadResult)
    ensures PeriodAfter(start, loads + [load]) == NextPeriod(PeriodAfter(start, loads), load)
    decreases |loads|
  {
    if loads != [] {
      assert (loads + [load])[1..] == loads[1..] + [load];
      PeriodAfterSnoc(NextPeriod(start, loads[0]), loads[1..], load);
    }
  }

  /** After a run, the polling period is the one decoded by the last cycle
      whose configuration loaded, whatever its sign, or the starting period
      when no cycle loaded one. */
  lemma {:induction false} PeriodAfterIsLastLoaded(start: Duration, loads: seq<LoadResult>)
    ensures (forall j :: 0 <= j < |loads| ==> !loads[j].Loaded?) ==> PeriodAfter(start, loads) == start
    ensures forall i :: LastLoadedAt(loads, i) ==> PeriodAfter(start, loads) == loads[i].config.pollingPeriod
    decreases |loads|
  {
    if loads != [] {
      var next := NextPeriod(start, loads[0]);
      PeriodAfterIsLastLoaded(next, loads[1..]);
      forall i | LastLoadedAt(loads, i)
        ensures PeriodAfter(start, loads) == loads[i].config.pollingPeriod
      {
        if i > 0 {
          assert LastLoadedAt(loads[1..], i - 1);
        } else {
          assert forall j :: 0 <= j < |loads[1..]| ==> !loads[1..][j].Loaded? by {
            forall j | 0 <= j < |loads[1..]| ensures !loads[1..][j].Loaded? {
              assert loads[1..][j] == loads[j + 1];
            }
          }
        }
      }
      if forall j :: 0 <= j < |loads| ==> !loads[j].Loaded? {
        assert !loads[0].Loaded?;
        assert forall j :: 0 <= j < |loads[1..]| ==> !loads[1..][j].Loaded? by {
          forall j | 0 <= j < |loads[1..]| ensures !loads[1..][j].Loaded? {
            assert loads[1..][j] == loads[j + 1];
          }
        }
      }
    }
  }

  /** Until some cycle has loaded a configuration, every cycle of a fresh
      client sleeps for the ten-second default. */
  lemma DefaultPeriodUntilFirstLoad(loads: seq<LoadResult>, i: nat)
    requires i <= |loads|
    requires forall j :: 0 <= j < i ==> !loads[j].Loaded?
    ensures PeriodAfter(DefaultPollingPeriod, loads[..i]) == 10 * Second
  {
    PeriodAfterIsLastLoaded(DefaultPollingPeriod, loads[..i]);
  }

  /** Every recorded sample comes from an endpoint of the configuration whose
      IP is not local and whose request got a response, and carries that
      endpoint's name, IP and measured RTT. */
  lemma SampleIsSound(cfg: Config, addrSet: map<string, bool>, probe: string -> ProbeOutcome, s: Sample)
    requires s in CycleSamples(cfg, addrSet, probe)
    ensures s.name in cfg.endpointsMap
    ensures !IsLocal(addrSet, cfg.endpointsMap[s.name].ip)
    ensures s.ip == cfg.endpointsMap[s.name].ip
    ensures probe(s.name).Response? && s.rtt == probe(s.name).rtt
  {
  }

  /** Every non-local endpoint that answered is recorded, with any status code. */
  lemma ResponderIsSampled(cfg: Config, addrSet: map<string, bool>, probe: string -> ProbeOutcome, k: string)
    requires k in cfg.endpointsMap && !IsLocal(addrSet, cfg.endpointsMap[k].ip)
    requires probe(k).Response?
    ensures Sample(k, cfg.endpointsMap[k].ip, probe(k).rtt) in CycleSamples(cfg, addrSet, probe)
    ensures Request(k, PingUrl(cfg.endpointsMap[k])) in CycleRequests(cfg, addrSet)
  {
  }

  /** An endpoint whose IP is marked local gets neither a request nor a sample. */
  lemma LocalEndpointSkipped(cfg: Config, addrSet: map<string, bool>, probe: string -> ProbeOutcome, k: string)
    requires k in cfg.endpointsMap && IsLocal(addrSet, cfg.endpointsMap[k].ip)
    ensures forall s :: s in CycleSamples(cfg, addrSet, probe) ==> s.name != k
    ensures forall r :: r in CycleRequests(cfg, addrSet) ==> r.name != k
  {
  }

  /** Self-exclusion looks only at the IP: changing ports changes no target. */
  lemma ExclusionIgnoresPort(cfg: Config, cfg': Config, addrSet: map<string, bool>,
                             probe: string -> ProbeOutcome)
    requires cfg.endpointsMap.Keys == cfg'.endpointsMap.Keys
    requires forall k :: k in cfg.endpointsMap ==> cfg.endpointsMap[k].ip == cfg'.endpointsMap[k].ip
    ensures CycleSamples(cfg, addrSet, probe) == CycleSamples(cfg', addrSet, probe)
    ensures (set r | r in CycleRequests(cfg, addrSet) :: r.name)
            == (set r | r in CycleRequests(cfg', addrSet) :: r.name)
  {
  }

  /** A transport error on one peer removes that peer's sample and nothing else. */
  lemma TransportErrorIsolated(cfg: Config, addrSet: map<string, bool>,
                               probe: string -> ProbeOutcome, probe': string -> ProbeOutcome, k: string)
    requires probe'(k).TransportError?
    requires forall j :: j != k ==> probe'(j) == probe(j)
    ensures CycleSamples(cfg, addrSet, probe') == set s | s in CycleSamples(cfg, addrSet, probe) && s.name != k
  {
  }

  /** A cycle records at most one sample per endpoint name. */
  lemma AtMostOneSamplePerName(cfg: Config, addrSet: map<string, bool>, probe: string -> ProbeOutcome,
                               s: Sample, t: Sample)
    requires s in CycleSamples(cfg, addrSet, probe) && t in CycleSamples(cfg, addrSet, probe)
    requires s.name == t.name
    ensures s == t
  {
  }

  /** With local address 10.0.0.5, of the peers peerA at 10.0.0.5 and peerB
      at 10.0.0.9 (both on port 8080) only peerB is requested and sampled. */
  lemma SelfExclusionScenario(probe: string -> ProbeOutcome)
    requires probe("peerB").Response?
    ensures CycleRequests(Config(map["peerA" := Endpoint("10.0.0.5", "8080"),
                                     "peerB" := Endpoint("10.0.0.9", "8080")], 10 * Second),
                          map["10.0.0.5" := true])
            == {Request("peerB", "http://10.0.0.9:8080/ping")}
    ensures CycleSamples(Config(map["peerA" := Endpoint("10.0.0.5", "8080"),
                                    "peerB" := Endpoint("10.0.0.9", "8080")], 10 * Second),
                         map["10.0.0.5" := true], probe)
            == {Sample("peerB", "10.0.0.9", probe("peerB").rtt)}
  {
    var cfg := Config(map["peerA" := Endpoint("10.0.0.5", "8080"),
                          "peerB" := Endpoint("10.0.0.9", "8080")], 10 * Second);
    var local := map["10.0.0.5" := true];
    assert IsLocal(local, cfg.endpointsMap["peerA"].ip);
    assert !IsLocal(local, cfg.endpointsMap["peerB"].ip);
    assert cfg.endpointsMap.Keys == {"peerA", "peerB"};
    assert PingUrl(cfg.endpointsMap["peerB"]) == "http://10.0.0.9:8080/ping";
    ResponderIsSampled(cfg, local, probe, "peerB");
    LocalEndpointSkipped(cfg, local, probe, "peerA");
  }
}
