/** One upstream pool daemon: the decoded statistics record and `callCpool`.
    The HTTP round trip, DEFLATE decompression and JSON decoding are one
    function parameter from request URL to decoded record or failure. */
module Upstream {
  import opened Wrappers
  import opened Config

  /** An IEEE-754 float64 kept as its bit pattern; the model never computes
      with it. */
  type Float64 = bv64

  /** `PoolStats`. Go's `int` fields are kept unbounded. */
  datatype PoolStats = PoolStats(totalPayments: int, hashrate: Float64, roundHashes: int, lastBlockFound: string)

  /** `NetworkStats`. */
  datatype NetworkStats = NetworkStats(difficulty: int)

  /** `CpoolStats`: both parts are pointers that may be nil after decoding.
      A `null` body leaves the whole record nil; that faults at the same
      line as a nil `Pool`, so it is `CpoolStats(None, None)` here. */
  datatype CpoolStats = CpoolStats(pool: Option<PoolStats>, network: Option<NetworkStats>)

  /** Why a fetch did not produce a decoded record; each is fatal. The error
      of reading the decompressed body is overwritten unchecked, so a corrupt
      DEFLATE stream only shows up as whatever `json.Unmarshal` makes of the
      bytes read before it. */
  datatype FetchError = Transport | MalformedPayload

  /** The network seen from the exporter: what the GET issued as the
      `call`-th request of a scrape, to a URL, decodes to. Each request is a
      fresh round trip, so two requests to one URL may be answered
      differently. A request that never returns is not representable:
      `http.Client{}` has no timeout, so in the code `client.Do` or
      `ioutil.ReadAll` can block a scrape indefinitely, whereas `Network`
      always answers and every modelled scrape ends. */
  type Network = (nat, string) -> Result<CpoolStats, FetchError>

  const Scheme: string := "http://"
  const PortSeparator: char := ':'
  const StatsPath: string := "/stats"

  /** The request URL `http://<addr>:<port>/stats`; the path is fixed, so the
      configured proto and stats method play no part. */
  function StatsUrl(addr: string, conf: ExpConf): (url: string)
    ensures |url| == |Scheme| + |addr| + 1 + |conf.port| + |StatsPath|
    ensures url[..|Scheme|] == Scheme && url[|url| - |StatsPath|..] == StatsPath
    ensures url[|Scheme|..|Scheme| + |addr|] == addr
    ensures url[|Scheme| + |addr|] == PortSeparator
    ensures url[|Scheme| + |addr| + 1..|url| - |StatsPath|] == conf.port
  {
    Scheme + addr + [PortSeparator] + conf.port + StatsPath
  }

  /** The position of the last `c` in `s`. */
  function LastIndexOf(s: string, c: char): (r: Option<nat>)
    ensures r.None? <==> c !in s
    ensures r.Some? ==> r.value < |s| && s[r.value] == c && c !in s[r.value + 1..]
  {
    if |s| == 0 then None
    else if s[|s| - 1] == c then Some(|s| - 1)
    else
      match LastIndexOf(s[..|s| - 1], c)
      case None => None
      case Some(i) =>
        assert s[i + 1..] == s[..|s| - 1][i + 1..] + [s[|s| - 1]];
        Some(i)
  }

  /** Reads the address and port back out of a stats URL: the port starts
      after the last ':' before the path, so the address may itself hold
      ':' (an IPv6 literal such as `[::1]`). */
  function ParseStatsUrl(url: string): Option<(string, string)>
  {
    if |url| < |Scheme| + |StatsPath| || url[..|Scheme|] != Scheme || url[|url| - |StatsPath|..] != StatsPath then None
    else
      var authority := url[|Scheme|..|url| - |StatsPath|];
      match LastIndexOf(authority, PortSeparator)
      case None => None
      case Some(i) => Some((authority[..i], authority[i + 1..]))
  }

  /** For any address and a port without ':' (the default `8117` among
      them), the URL carries exactly the address and the configured port,
      and they can be read back from it. */
  lemma StatsUrlRoundTrip(addr: string, conf: ExpConf)
    requires PortSeparator !in conf.port
    ensures ParseStatsUrl(StatsUrl(addr, conf)) == Some((addr, conf.port))
  {
    var url := StatsUrl(addr, conf);
    var authority := url[|Scheme|..|url| - |StatsPath|];
    assert authority == addr + [PortSeparator] + conf.port;
    var i := LastIndexOf(authority, PortSeparator);
    assert authority[|addr|] == PortSeparator;
    assert authority[|addr| + 1..] == conf.port;
    assert i.Some? && i.value == |addr|;
    assert authority[..|addr|] == addr;
    assert authority[|addr| + 1..] == conf.port;
  }

  /** Two requests go to the same URL exactly when address and port agree
      (for ports without ':'); proto and stats method never matter. */
  lemma StatsUrlDeterminedByAddrAndPort(a1: string, c1: ExpConf, a2: string, c2: ExpConf)
    requires PortSeparator !in c1.port && PortSeparator !in c2.port
    ensures StatsUrl(a1, c1) == StatsUrl(a2, c2) <==> a1 == a2 && c1.port == c2.port
  {
    if StatsUrl(a1, c1) == StatsUrl(a2, c2) {
      StatsUrlRoundTrip(a1, c1);
      StatsUrlRoundTrip(a2, c2);
    }
  }

  /** Whatever the address, the URL depends on the configuration only
      through its port: proto and stats method never reach the wire. */
  lemma StatsUrlIgnoresProtoAndMethod(addr: string, c1: ExpConf, c2: ExpConf)
    requires c1.port == c2.port
    ensures StatsUrl(addr, c1) == StatsUrl(addr, c2)
  {
  }

  /** `callCpool`: the `call`-th GET of a scrape, to the stats URL of `addr`,
      decompressed and decoded. */
  function CallCpool(addr: string, conf: ExpConf, network: Network, call: nat): Result<CpoolStats, FetchError>
  {
    network(call, StatsUrl(addr, conf))
  }
}
