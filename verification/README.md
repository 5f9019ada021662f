# Cryptonight pool exporter — a Dafny model

This project models the decision logic of a single-file Prometheus exporter.
The exporter polls cryptonight mining-pool daemons and republishes five of
their statistics as gauges labelled with the pool address. Three pieces are
modelled:

- **Configuration resolution** (`fillDefaults`, `readConf`). The process
  environment is a `map<string, string>`. Resolution fails when
  `CPOOL_DIAL_ADDR` is unset or empty. Otherwise the address list is that
  value split on `;` with Go's `strings.Split` semantics: empty pieces are
  kept and nothing is trimmed. `CPOOL_PORT`, `CPOOL_PROTO` and `CPOOL_STATS`
  override the defaults `8117`, `tcp` and `stats` when they are non-empty.
- **The upstream request URL** built in `callCpool`:
  `http://<addr>:<port>/stats`. The fetch itself (HTTP, DEFLATE, JSON) is a
  function parameter `Network`. It maps the position of the request within
  the scrape and the URL to a decoded `CpoolStats` or a `FetchError`. Every
  request is a fresh round trip, so an address listed twice may get two
  different answers.
- **The shape of a scrape** (`Describe`, `Collect`). A channel send appends
  a `Sample` (descriptor, symbolic value, label values) to the scrape. A
  `panic` or `log.Fatal` ends the scrape with a `Fault`.

Modules: `Wrappers` (Option, Result), `GoStrings` (Count, Split, Join and the
lemmas relating them), `Config`, `Upstream` and `Collector`.

Three behaviours of the code are easy to miss:

- A decoded response whose `Network` object is missing is not a decoding
  error. `json.Unmarshal` succeeds and leaves the pointer nil. `Collect` then
  sends the four `Pool` samples of that address and only then panics on the
  nil dereference at `cpool.go:202`. So a partial set of samples is sent
  before the process dies (`Collector.Emit`).
- A response missing `Pool` panics at `cpool.go:177`, before any sample of
  that address is sent. Samples of earlier addresses have already been sent.
  A `null` body leaves the whole decoded record nil and faults at the same
  line, so it is modelled as a record with both parts missing.
- The `lastBlockFound` text goes through `strconv.ParseFloat` at 32-bit
  precision (`bitSize` 32), not at float64 precision.

## Model

| member | source | states |
|---|---|---|
| GoStrings.Split | cpool.go:60 | `strings.Split` on one separator yields at least one piece, and no piece contains the separator |
| GoStrings.JoinSplit | cpool.go:60 | joining the split pieces with the separator reproduces the input string exactly |
| GoStrings.SplitLength | cpool.go:60 | the number of pieces is the number of separators plus one |
| GoStrings.SplitJoin | cpool.go:60 | Split inverts Join on separator-free pieces, so Split is the only separator-free cut that joins back to the input |
| GoStrings.SplitKeepsEmptyPieces | cpool.go:60-61 | empty pieces are kept: `"a;"`, `"a;;b"` and `";"` give `["a",""]`, `["a","","b"]` and `["",""]` |
| Config.ReadConf | cpool.go:52-79 | fails, with the missing-address error, exactly when `CPOOL_DIAL_ADDR` is unset or empty; on success the address list has one more entry than the value has `;`, joins back to the value and has no `;` in any entry; port, proto and method take their variable's value when non-empty and `8117`, `tcp`, `stats` otherwise |
| Config.DialAddrIsSplitOfEnv | cpool.go:42-61 | on success the address list is exactly the split of `CPOOL_DIAL_ADDR`; it is non-empty; and the `127.0.0.1` default can reappear only when the variable itself is `127.0.0.1` |
| Config.ReadConfFieldsIndependent | cpool.go:55-76 | the address list determines `CPOOL_DIAL_ADDR` and is determined by it; port, proto and method each depend only on their own variable |
| Upstream.StatsUrl | cpool.go:86 | for every address, the URL is `http://`, then the address, then `:`, then the configured port, then `/stats`, each at its stated position |
| Upstream.StatsUrlIgnoresProtoAndMethod | cpool.go:86 | for every address, configurations with the same port give the same URL: proto and stats method never reach the wire |
| Upstream.StatsUrlRoundTrip | cpool.go:86 | for any address, IPv6 literals included, and a port without `:` (the default `8117` among them), the address and the configured port can be read back from the URL |
| Upstream.StatsUrlDeterminedByAddrAndPort | cpool.go:86 | for ports without `:`, two URLs are equal exactly when address and port are equal; proto and stats method play no part |
| Collector.Describe | cpool.go:128-166 | five descriptors in the order TotalPayments, hashrate, roundhashes, lastblockfound, difficulty; names are pairwise distinct; each has the single variable label `Pool` |
| Collector.Emit | cpool.go:173-207 | per address: nil `Pool` sends nothing and faults; nil `Network` sends exactly the four Pool samples and faults; otherwise sends five samples; sample k is metric k in the fixed order, read from its field, labelled with the address |
| Collector.CollectFrom | cpool.go:171-208 | addresses are visited in configured order, the i-th address by the i-th request; sample k is metric k mod 5 of address k div 5, with the descriptor `Describe` gives for that position; no fault iff every address answers with both objects present, and then there are exactly 5 samples per address; a fault names the first failing address and the cause its answer gives (fetch error, nil `Pool`, nil `Network`), after 5 samples per earlier address plus 4 when `Network` was nil |
| Collector.Collect | cpool.go:168-210 | a missing address list faults before any sample is sent; otherwise every sample is in its place, there is no fault iff every address is healthy, a clean scrape has 5·(number of addresses) samples, and a fault names the first unhealthy address with the cause its answer gives, after the samples already sent for it and the addresses before it |

## Left out

- HTTP client construction, the request, the `Accept-Encoding` header and
  the deletion of `Content-Length` (`cpool.go:84-100`). These are network
  I/O; the `Network` function parameter stands for their answers.
- A request that never returns. `http.Client{}` has no timeout
  (`cpool.go:84`), so `client.Do` (`cpool.go:95`) or `ioutil.ReadAll`
  (`cpool.go:112`) can block a scrape indefinitely, leaving the samples
  already sent unserved. `Network` always answers, so every modelled scrape
  ends.
- Raw DEFLATE decompression and `ioutil.ReadAll` (`cpool.go:101-112`), and
  JSON decoding into `CpoolStats` (`cpool.go:114`). These are library calls.
  The error of `ioutil.ReadAll` is overwritten at `cpool.go:114` without
  being checked, and the checks at `cpool.go:104-110` test the earlier
  `http.NewRequest` error, so they never fire there. A corrupt DEFLATE body
  therefore has no failure of its own. Whatever bytes were read go to
  `json.Unmarshal`, whose error is the `FetchError` case `MalformedPayload`
  (or the bytes happen to decode). A failed `client.Do` is `Transport`. The
  unquoted struct tags make the field mapping library-dependent, so the
  decoded record is an input.
- A failing `http.NewRequest` (`cpool.go:86-91`). URL parsing is library
  code. In the code the nil request is dereferenced at `cpool.go:87`, a
  panic before the `log.Fatal` at `cpool.go:90`. Here an upstream that
  rejects a URL answers with a `Transport` failure, which is fatal just the
  same.
- Upstream.CallCpool: it has no contract of its own, because it is the
  network parameter applied to the request position and `StatsUrl`.
- Config.FillDefaults: no contract of its own. Its four defaults appear in
  the ensures of `Config.ReadConf` (port, proto, method) and
  `Config.DialAddrIsSplitOfEnv` (the `127.0.0.1` address list, which never
  survives).
- Sample values are symbolic (`FromInt`, `FromFloat` bits, `FromDecimal`
  text). The int-to-float64 casts, the float64 hashrate and
  `strconv.ParseFloat` with its dropped error (a syntax error gives 0, an
  out-of-range value such as `"1e39"` gives +Inf or -Inf) are
  floating-point numerics and are not computed.
- Go's platform-sized `int` range (64 bits on 64-bit targets) for the decoded integer fields. Integers are
  unbounded here, because overflow would be a JSON decoding error, which is
  outside the model.
- Prometheus descriptor and metric construction internals, channel
  mechanics, `MustRegister`, `main`'s flags, the HTTP server and the landing
  page (`cpool.go:122-158`, `212-236`). This is library and UI plumbing. Only
  the descriptors' names, help texts and label names are kept.
- Process termination. A `panic` or `log.Fatal` is a `Fault` that ends the
  scrape; what happens to the process afterwards is not modelled.
- The debug `fmt.Printf` (`cpool.go:175`). It is output only.
- Strings are sequences of characters, whereas Go splits bytes. For the
  ASCII separator `;` both give the same pieces on UTF-8 text.
- Upstream.StatsUrlRoundTrip: holds only for ports without `:`. A port
  holding `:` makes the URL's authority ambiguous (address `x:1` with port
  `2` and address `x` with port `1:2` give the same URL).
