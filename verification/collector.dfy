/** The Prometheus collector: `Describe` and `Collect`. A channel send is an
    append to the scrape's sample list; a panic or `log.Fatal` ends the
    scrape with a fault, after which nothing more is sent (the process
    terminates, so what was sent is never served). */
module Collector {
  import opened Wrappers
  import opened Config
  import opened Upstream

  /** A metric descriptor: fully-qualified name, help text and the names of
      its variable labels. */
  datatype Desc = Desc(fqName: string, help: string, variableLabels: seq<string>)

  /** The single variable label, whose value is the upstream address. */
  const PoolLabel: string := "Pool"

  const TotalPaymentsDesc: Desc := Desc("TotalPayments", "Total Payments made by pool", [PoolLabel])
  const HashrateDesc: Desc := Desc("hashrate", "Total hashrate", [PoolLabel])
  const RoundHashesDesc: Desc := Desc("roundhashes", "Amount of hashes submitted", [PoolLabel])
  const LastBlockFoundDesc: Desc := Desc("lastblockfound", "Timestamp when last block found", [PoolLabel])
  const DifficultyDesc: Desc := Desc("difficulty", "Network Difficulty", [PoolLabel])

  /** The five gauges the exporter publishes. */
  datatype Metric = TotalPayments | Hashrate | RoundHashes | LastBlockFound | Difficulty

  /** The order in which both `Describe` and `Collect` go through the metrics. */
  const MetricOrder: seq<Metric> := [TotalPayments, Hashrate, RoundHashes, LastBlockFound, Difficulty]

  /** Samples sent per address by one loop iteration of `Collect`. */
  const SamplesPerAddr: nat := 5

  /** The descriptor of each metric. */
  function DescOf(m: Metric): Desc
  {
    match m
    case TotalPayments => TotalPaymentsDesc
    case Hashrate => HashrateDesc
    case RoundHashes => RoundHashesDesc
    case LastBlockFound => LastBlockFoundDesc
    case Difficulty => DifficultyDesc
  }

  /** A gauge value, kept symbolic: an integer field converted to float64, a
      float64 field as is, or a decimal text parsed by `strconv.ParseFloat`
      at 32-bit precision with its error dropped (a syntax error gives 0, an
      out-of-range value gives +Inf or -Inf). */
  datatype Value = FromInt(n: int) | FromFloat(bits: Float64) | FromDecimal(text: string)

  /** One constant gauge metric: descriptor, value and label values. */
  datatype Sample = Sample(desc: Desc, value: Value, labelValues: seq<string>)

  /** Why a scrape for one address stopped. */
  datatype AddrCause = FetchFailed(error: FetchError) | NilPool | NilNetwork

  /** What ends a scrape early: the configuration panic, or a failure for one
      address. */
  datatype Fault = ConfigFault(error: ConfigError) | AddrFault(addr: string, cause: AddrCause)

  /** The samples sent during one `Collect`, and the fault that ended it, if
      any. */
  datatype Scrape = Scrape(samples: seq<Sample>, fault: Option<Fault>)

  /** Which field of the decoded record each metric reports, and how it is
      converted; None when that field sits behind a nil pointer. */
  function Reading(m: Metric, stats: CpoolStats): Option<Value>
  {
    match m
    case TotalPayments => if stats.pool.Some? then Some(FromInt(stats.pool.value.totalPayments)) else None
    case Hashrate => if stats.pool.Some? then Some(FromFloat(stats.pool.value.hashrate)) else None
    case RoundHashes => if stats.pool.Some? then Some(FromInt(stats.pool.value.roundHashes)) else None
    case LastBlockFound => if stats.pool.Some? then Some(FromDecimal(stats.pool.value.lastBlockFound)) else None
    case Difficulty => if stats.network.Some? then Some(FromInt(stats.network.value.difficulty)) else None
  }

  /** `Describe`: the five descriptors, in metric order, with distinct names
      and the one `Pool` label each. */
  function Describe(): (ds: seq<Desc>)
    ensures |ds| == |MetricOrder| == SamplesPerAddr
    ensures forall k :: 0 <= k < |ds| ==> ds[k] == DescOf(MetricOrder[k])
    ensures forall k :: 0 <= k < |ds| ==> ds[k].variableLabels == [PoolLabel]
    ensures forall j, k :: 0 <= j < k < |ds| ==> ds[j].fqName != ds[k].fqName
  {
    [TotalPaymentsDesc, HashrateDesc, RoundHashesDesc, LastBlockFoundDesc, DifficultyDesc]
  }

  /** The sends of one loop iteration of `Collect` for `addr`. A nil `Pool`
      panics before anything is sent; a nil `Network` panics after the four
      `Pool` samples have been sent. */
  function Emit(addr: string, stats: CpoolStats): (s: Scrape)
    ensures s.fault.None? <==> stats.pool.Some? && stats.network.Some?
    ensures s.fault.None? ==> |s.samples| == SamplesPerAddr
    ensures stats.pool.None? ==> s == Scrape([], Some(AddrFault(addr, NilPool)))
    ensures stats.pool.Some? && stats.network.None? ==>
      |s.samples| == SamplesPerAddr - 1 && s.fault == Some(AddrFault(addr, NilNetwork))
    ensures forall k :: 0 <= k < |s.samples| ==>
      k < |MetricOrder|
      && Reading(MetricOrder[k], stats).Some?
      && s.samples[k] == Sample(DescOf(MetricOrder[k]), Reading(MetricOrder[k], stats).value, [addr])
  {
    match stats.pool
    case None => Scrape([], Some(AddrFault(addr, NilPool)))
    case Some(pool) =>
      var sent := [
        Sample(TotalPaymentsDesc, FromInt(pool.totalPayments), [addr]),
        Sample(HashrateDesc, FromFloat(pool.hashrate), [addr]),
        Sample(RoundHashesDesc, FromInt(pool.roundHashes), [addr]),
        Sample(LastBlockFoundDesc, FromDecimal(pool.lastBlockFound), [addr])
      ];
      match stats.network
      case None => Scrape(sent, Some(AddrFault(addr, NilNetwork)))
      case Some(net) => Scrape(sent + [Sample(DifficultyDesc, FromInt(net.difficulty), [addr])], None)
  }

  /** An upstream answer from which all five samples can be sent. */
  predicate Healthy(r: Result<CpoolStats, FetchError>)
  {
    r.Success? && r.value.pool.Some? && r.value.network.Some?
  }

  /** The fault cause an unhealthy answer leads to: the fetch error, or
      the nil pointer that `Collect` dereferences first. */
  function CauseOf(r: Result<CpoolStats, FetchError>): AddrCause
    requires !Healthy(r)
  {
    if r.Failure? then FetchFailed(r.error)
    else if r.value.pool.None? then NilPool
    else NilNetwork
  }

  /** Sample `k` of a scrape is metric `k % 5` of address `k / 5`, read from
      what the request for that address (the `k / 5`-th of the scrape)
      returned, labelled with the address. */
  predicate Placed(samples: seq<Sample>, k: nat, conf: ExpConf, network: Network)
    requires k < |samples|
  {
    var i := k / SamplesPerAddr;
    var m := MetricOrder[k % SamplesPerAddr];
    && i < |conf.dialAddr|
    && var r := CallCpool(conf.dialAddr[i], conf, network, i);
    && r.Success?
    && Reading(m, r.value).Some?
    && samples[k] == Sample(Describe()[k % SamplesPerAddr], Reading(m, r.value).value, [conf.dialAddr[i]])
  }

  /** Position `5 * i + d` of a scrape lies in block `i` at offset `d`. */
  lemma BlockPosition(i: nat, d: nat)
    requires d < SamplesPerAddr
    ensures (SamplesPerAddr * i + d) / SamplesPerAddr == i
    ensures (SamplesPerAddr * i + d) % SamplesPerAddr == d
  {
  }

  /** Appending the samples one healthy-so-far address sends keeps every
      sample in its place. */
  lemma PlacedExtend(before: seq<Sample>, sent: seq<Sample>, i: nat, conf: ExpConf, network: Network, stats: CpoolStats)
    requires |before| == SamplesPerAddr * i
    requires forall k :: 0 <= k < |before| ==> Placed(before, k, conf, network)
    requires i < |conf.dialAddr|
    requires CallCpool(conf.dialAddr[i], conf, network, i) == Success(stats)
    requires sent == Emit(conf.dialAddr[i], stats).samples
    ensures forall k :: 0 <= k < |before + sent| ==> Placed(before + sent, k, conf, network)
  {
    var all := before + sent;
    forall k | 0 <= k < |all|
      ensures Placed(all, k, conf, network)
    {
      if k < |before| {
        assert Placed(before, k, conf, network);
        assert all[k] == before[k];
      } else {
        var d := k - |before|;
        BlockPosition(i, d);
        assert all[k] == sent[d];
      }
    }
  }

  /** A scrape that ended in a fault stopped at the first unhealthy address
      `j`, named in the fault with the cause its answer gives, after five
      samples for each earlier address plus the four `Pool` samples when it
      was `Network` that was nil. */
  predicate FaultPlaced(s: Scrape, conf: ExpConf, network: Network)
    requires s.fault.Some?
  {
    var j := |s.samples| / SamplesPerAddr;
    && j < |conf.dialAddr|
    && (forall i :: 0 <= i < j ==> Healthy(CallCpool(conf.dialAddr[i], conf, network, i)))
    && !Healthy(CallCpool(conf.dialAddr[j], conf, network, j))
    && s.fault.value.AddrFault?
    && s.fault.value.addr == conf.dialAddr[j]
    && (|s.samples| % SamplesPerAddr == if s.fault.value.cause.NilNetwork? then SamplesPerAddr - 1 else 0)
    && s.fault.value.cause == CauseOf(CallCpool(conf.dialAddr[j], conf, network, j))
  }

  /** The loop of `Collect` over an already resolved configuration: for each
      address in order, fetch its stats and send its five samples. */
  method CollectFrom(conf: ExpConf, network: Network) returns (s: Scrape)
    ensures forall k :: 0 <= k < |s.samples| ==> Placed(s.samples, k, conf, network)
    ensures s.fault.None? <==> forall i :: 0 <= i < |conf.dialAddr| ==> Healthy(CallCpool(conf.dialAddr[i], conf, network, i))
    ensures s.fault.None? ==> |s.samples| == SamplesPerAddr * |conf.dialAddr|
    ensures s.fault.Some? ==> FaultPlaced(s, conf, network)
  {
    var samples: seq<Sample> := [];
    var i := 0;
    while i < |conf.dialAddr|
      invariant 0 <= i <= |conf.dialAddr|
      invariant |samples| == SamplesPerAddr * i
      invariant forall k :: 0 <= k < |samples| ==> Placed(samples, k, conf, network)
      invariant forall j :: 0 <= j < i ==> Healthy(CallCpool(conf.dialAddr[j], conf, network, j))
    {
      var addr := conf.dialAddr[i];
      var r := CallCpool(addr, conf, network, i);
      if r.Failure? {
        BlockPosition(i, 0);
        return Scrape(samples, Some(AddrFault(addr, FetchFailed(r.error))));
      }
      var emitted := Emit(addr, r.value);
      PlacedExtend(samples, emitted.samples, i, conf, network, r.value);
      samples := samples + emitted.samples;
      BlockPosition(i, |emitted.samples| % SamplesPerAddr);
      if emitted.fault.Some? {
        return Scrape(samples, emitted.fault);
      }
      i := i + 1;
    }
    return Scrape(samples, None);
  }

  /** `Collect`: resolve the configuration (a panic when the address list is
      missing), then run the loop over its addresses. */
  method Collect(env: Env, network: Network) returns (s: Scrape)
    ensures ReadConf(env).Failure? ==> s == Scrape([], Some(ConfigFault(DialAddrNotSet)))
    ensures ReadConf(env).Success? ==>
      var conf := ReadConf(env).value;
      && (forall k :: 0 <= k < |s.samples| ==> Placed(s.samples, k, conf, network))
      && (s.fault.None? <==> forall i :: 0 <= i < |conf.dialAddr| ==> Healthy(CallCpool(conf.dialAddr[i], conf, network, i)))
      && (s.fault.None? ==> |s.samples| == SamplesPerAddr * |conf.dialAddr|)
    ensures ReadConf(env).Success? && s.fault.Some? ==> FaultPlaced(s, ReadConf(env).value, network)
  {
    match ReadConf(env) {
      case Failure(e) =>
        return Scrape([], Some(ConfigFault(e)));
      case Success(conf) =>
        s := CollectFrom(conf, network);
    }
  }
}
