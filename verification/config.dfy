/** Configuration resolution: `expConf`, `fillDefaults` and `readConf`. The
    process environment is a map from variable names to values; Go's
    `os.Getenv` cannot tell a missing variable from an empty one. */
module Config {
  import opened Wrappers
  import opened GoStrings

  type Env = map<string, string>

  const DialAddrVar: string := "CPOOL_DIAL_ADDR"
  const PortVar: string := "CPOOL_PORT"
  const ProtoVar: string := "CPOOL_PROTO"
  const MethodVar: string := "CPOOL_STATS"

  /** The separator of the address list in `CPOOL_DIAL_ADDR`. */
  const AddrSeparator: char := ';'

  const DefaultDialAddr: seq<string> := ["127.0.0.1"]
  const DefaultPort: string := "8117"
  const DefaultProto: string := "tcp"
  const DefaultMethod: string := "stats"

  /** The exporter's configuration (`expConf`). `proto` and `statsMethod` are
      carried but never used to reach an upstream. */
  datatype ExpConf = ExpConf(dialAddr: seq<string>, port: string, proto: string, statsMethod: string)

  /** The one way resolution fails: the address list is unset or empty. */
  datatype ConfigError = DialAddrNotSet

  /** `os.Getenv`: the value of `key`, or "" when it is not set. */
  function Getenv(env: Env, key: string): string
  {
    if key in env then env[key] else ""
  }

  /** True when `key` is set to a non-empty value. */
  predicate IsSet(env: Env, key: string)
  {
    key in env && env[key] != ""
  }

  /** `fillDefaults`: the configuration before the environment is consulted. */
  function FillDefaults(): ExpConf
  {
    ExpConf(DefaultDialAddr, DefaultPort, DefaultProto, DefaultMethod)
  }

  /** An optional setting keeps `current` unless the environment supplies a
      non-empty value. */
  function Override(current: string, value: string): string
  {
    if |value| != 0 then value else current
  }

  /** `readConf`: the configuration the environment describes, or the panic
      raised when `CPOOL_DIAL_ADDR` is unset or empty. */
  function ReadConf(env: Env): (r: Result<ExpConf, ConfigError>)
    ensures r.Failure? <==> !IsSet(env, DialAddrVar)
    ensures r.Failure? ==> r.error == DialAddrNotSet
    ensures r.Success? ==>
      && |r.value.dialAddr| == Count(env[DialAddrVar], AddrSeparator) + 1
      && Join(r.value.dialAddr, AddrSeparator) == env[DialAddrVar]
      && forall i :: 0 <= i < |r.value.dialAddr| ==> AddrSeparator !in r.value.dialAddr[i]
    ensures r.Success? ==> r.value.port == (if IsSet(env, PortVar) then env[PortVar] else DefaultPort)
    ensures r.Success? ==> r.value.proto == (if IsSet(env, ProtoVar) then env[ProtoVar] else DefaultProto)
    ensures r.Success? ==> r.value.statsMethod == (if IsSet(env, MethodVar) then env[MethodVar] else DefaultMethod)
  {
    var conf := FillDefaults();
    var dialAddr := Getenv(env, DialAddrVar);
    if |dialAddr| == 0 then Failure(DialAddrNotSet)
    else
      SplitLength(dialAddr, AddrSeparator);
      JoinSplit(dialAddr, AddrSeparator);
      var conf := conf.(dialAddr := Split(dialAddr, AddrSeparator));
      var conf := conf.(port := Override(conf.port, Getenv(env, PortVar)));
      var conf := conf.(proto := Override(conf.proto, Getenv(env, ProtoVar)));
      var conf := conf.(statsMethod := Override(conf.statsMethod, Getenv(env, MethodVar)));
      Success(conf)
  }

  /** The address list is exactly `strings.Split` of `CPOOL_DIAL_ADDR` on ";":
      it is never empty, and the default `["127.0.0.1"]` never survives,
      since it can only come back when the variable itself says so. */
  lemma DialAddrIsSplitOfEnv(env: Env)
    requires ReadConf(env).Success?
    ensures ReadConf(env).value.dialAddr == Split(env[DialAddrVar], AddrSeparator)
    ensures |ReadConf(env).value.dialAddr| >= 1
    ensures ReadConf(env).value.dialAddr == DefaultDialAddr ==> env[DialAddrVar] == "127.0.0.1"
  {
    var addrs := ReadConf(env).value.dialAddr;
    SplitJoin(addrs, AddrSeparator);
  }

  /** Each field of a resolved configuration depends on its own variable only;
      the address list determines `CPOOL_DIAL_ADDR` and is determined by it. */
  lemma ReadConfFieldsIndependent(e1: Env, e2: Env)
    requires ReadConf(e1).Success? && ReadConf(e2).Success?
    ensures ReadConf(e1).value.dialAddr == ReadConf(e2).value.dialAddr
            <==> Getenv(e1, DialAddrVar) == Getenv(e2, DialAddrVar)
    ensures Getenv(e1, PortVar) == Getenv(e2, PortVar) ==> ReadConf(e1).value.port == ReadConf(e2).value.port
    ensures Getenv(e1, ProtoVar) == Getenv(e2, ProtoVar) ==> ReadConf(e1).value.proto == ReadConf(e2).value.proto
    ensures Getenv(e1, MethodVar) == Getenv(e2, MethodVar) ==> ReadConf(e1).value.statsMethod == ReadConf(e2).value.statsMethod
  {
    DialAddrIsSplitOfEnv(e1);
    DialAddrIsSplitOfEnv(e2);
  }
}
