/** The gRPC listener bootstrap: a `GrpcConfig` read from the process
    environment, its zero-value check, and the gate in front of the TCP bind.
    The bind itself (`net.Listen`) is external: its failure is a parameter. */
module GrpcListener {
  import opened MultiErr
  import opened Decimal
  import opened ProcessEnv

  const EnvGrpcHost: string := "GRPC_HOST"
  const EnvGrpcPort: string := "GRPC_PORT"
  const EnvGrpcTimeout: string := "CONTEXT_TIMEOUT"
  const DefGrpcTimeout: int := 30000
  const EnvMaxGrpcReceive: string := "MAX_GRPC_RECEIVE"
  const DefMaxGrpcReceive: int := 1024 * 1024 * 1024 * 1
  const EnvMaxGrpcSend: string := "MAX_GRPC_SEND"
  const DefMaxGrpcSend: int := 1024 * 1024 * 1024 * 1

  datatype GrpcConfig = GrpcConfig(
    Host: string,
    Port: string,
    Timeout: int,
    MaxReceiveSize: int,
    MaxSendSize: int)

  function FieldNotDefined(name: string): string {
    "field ('" + name + "') is not defined"
  }

  /** `NewStandardGrpcConfig`. A missing host fails at once, alone. The port
      must be set and parse as an `int`. Each numeric field takes its default
      when its variable is unset; when the variable is set its value is never
      read, and the field keeps the zero value. */
  method NewStandardGrpcConfig(env: Env) returns (r: Result<GrpcConfig>)
    ensures EnvGrpcHost !in env ==> r == Err([FieldNotDefined(EnvGrpcHost)])
    ensures EnvGrpcHost in env ==>
              (r.Ok? <==> EnvGrpcPort in env && Atoi(env[EnvGrpcPort]).Parsed?)
    ensures EnvGrpcHost in env && EnvGrpcPort !in env ==>
              r == Err([FieldNotDefined(EnvGrpcPort)])
    ensures EnvGrpcHost in env && EnvGrpcPort in env && Atoi(env[EnvGrpcPort]).Failed? ==>
              r == Err([Atoi(env[EnvGrpcPort]).message])
    ensures r.Ok? ==> r.value.Host == env[EnvGrpcHost] && r.value.Port == env[EnvGrpcPort]
    ensures r.Ok? ==> r.value.Timeout == (if EnvGrpcTimeout in env then 0 else DefGrpcTimeout)
    ensures r.Ok? ==> r.value.MaxReceiveSize == (if EnvMaxGrpcReceive in env then 0 else DefMaxGrpcReceive)
    ensures r.Ok? ==> r.value.MaxSendSize == (if EnvMaxGrpcSend in env then 0 else DefMaxGrpcReceive)
    ensures r.Ok? ==> (GrpcConfigErrors(r.value) == [] <==>
                       EnvGrpcTimeout !in env && EnvMaxGrpcReceive !in env && EnvMaxGrpcSend !in env)
  {
    var multiErr: seq<string> := [];

    if EnvGrpcHost !in env {
      return Err([FieldNotDefined(EnvGrpcHost)]);
    }
    var grpcHost := env[EnvGrpcHost];

    var grpcPort := "";
    if EnvGrpcPort !in env {
      multiErr := multiErr + [FieldNotDefined(EnvGrpcPort)];
    } else {
      grpcPort := env[EnvGrpcPort];
      var parsed := Atoi(grpcPort);
      if parsed.Failed? {
        multiErr := multiErr + [parsed.message];
      }
    }

    var grpcTimeoutInt := 0;
    if EnvGrpcTimeout !in env {
      grpcTimeoutInt := DefGrpcTimeout;
    }

    var maxGrpcReceiveInt := 0;
    if EnvMaxGrpcReceive !in env {
      maxGrpcReceiveInt := DefMaxGrpcReceive;
    }

    var maxGrpcSendInt := 0;
    if EnvMaxGrpcSend !in env {
      maxGrpcSendInt := DefMaxGrpcReceive;
    }

    if multiErr != [] {
      return Err(multiErr);
    }

    var c := GrpcConfig(grpcHost, grpcPort, grpcTimeoutInt, maxGrpcReceiveInt, maxGrpcSendInt);
    ParsedPortIsNotEmpty(grpcPort);
    GrpcConfigErrorsEmptyIff(c);
    return Ok(c);
  }

  /** A port that `strconv.Atoi` accepts is never the empty string. */
  lemma ParsedPortIsNotEmpty(port: string)
    requires Atoi(port).Parsed?
    ensures port != ""
  {
  }

  function Check(failed: bool, name: string): Option<string> {
    if failed then Some(FieldNotDefined(name)) else None
  }

  /** What `checkEmptyFields` reports: one entry per zero-valued field, in
      the order port, timeout, maxReceiveSize, maxSendSize. The host is not
      checked. */
  function GrpcConfigErrors(c: GrpcConfig): seq<string> {
    Combine([Check(c.Port == "", "port"), Check(c.Timeout == 0, "timeout"),
             Check(c.MaxReceiveSize == 0, "maxReceiveSize"), Check(c.MaxSendSize == 0, "maxSendSize")])
  }

  /** `GrpcConfig.checkEmptyFields`. */
  method CheckEmptyFields(c: GrpcConfig) returns (err: seq<string>)
    ensures err == GrpcConfigErrors(c)
  {
    err := [];
    if c.Port == "" {
      err := err + [FieldNotDefined("port")];
    }
    if c.Timeout == 0 {
      err := err + [FieldNotDefined("timeout")];
    }
    if c.MaxReceiveSize == 0 {
      err := err + [FieldNotDefined("maxReceiveSize")];
    }
    if c.MaxSendSize == 0 {
      err := err + [FieldNotDefined("maxSendSize")];
    }
    GrpcConfigErrorsSteps(c);
  }

  /** `GrpcConfigErrors` unfolded check by check. */
  lemma GrpcConfigErrorsSteps(c: GrpcConfig)
    ensures GrpcConfigErrors(c)
            == Entries(Check(c.Port == "", "port")) + Entries(Check(c.Timeout == 0, "timeout"))
               + Entries(Check(c.MaxReceiveSize == 0, "maxReceiveSize"))
               + Entries(Check(c.MaxSendSize == 0, "maxSendSize"))
  {
    var a, b := Check(c.Port == "", "port"), Check(c.Timeout == 0, "timeout");
    var d, e := Check(c.MaxReceiveSize == 0, "maxReceiveSize"), Check(c.MaxSendSize == 0, "maxSendSize");
    assert [a, b, d, e] == [a, b] + [d] + [e];
    CombinePair(a, b);
    CombineSingle(d);
    CombineSingle(e);
    CombineConcat([a, b], [d]);
    CombineConcat([a, b] + [d], [e]);
  }

  /** The check passes exactly when no field has its zero value. */
  lemma GrpcConfigErrorsEmptyIff(c: GrpcConfig)
    ensures GrpcConfigErrors(c) == [] <==>
              c.Port != "" && c.Timeout != 0 && c.MaxReceiveSize != 0 && c.MaxSendSize != 0
  {
    GrpcConfigErrorsSteps(c);
  }

  /** Every zero-valued field is reported: the aggregate has one entry per
      failing check. */
  lemma GrpcConfigErrorsCount(c: GrpcConfig)
    ensures |GrpcConfigErrors(c)| ==
              (if c.Port == "" then 1 else 0) + (if c.Timeout == 0 then 1 else 0)
              + (if c.MaxReceiveSize == 0 then 1 else 0) + (if c.MaxSendSize == 0 then 1 else 0)
  {
    GrpcConfigErrorsSteps(c);
  }

  /** The host takes no part in the check. */
  lemma HostNotChecked(c: GrpcConfig, host: string)
    ensures GrpcConfigErrors(c.(Host := host)) == GrpcConfigErrors(c)
  {
  }

  /** The listener on success: the address it was bound to. */
  datatype Listener = Listener(address: string)

  /** `NewGrpcListener`, up to the bind. `bindError` is what `net.Listen`
      would fail with (None when it succeeds). `attempted` is the address
      handed to `net.Listen`, or None when no bind was attempted. */
  method NewGrpcListener(c: GrpcConfig, bindError: Option<string>)
    returns (r: Result<Listener>, attempted: Option<string>)
    ensures GrpcConfigErrors(c) != [] ==> r == Err(GrpcConfigErrors(c)) && attempted == None
    ensures GrpcConfigErrors(c) == [] ==> attempted == Some(c.Host + ":" + c.Port)
    ensures GrpcConfigErrors(c) == [] && bindError.None? ==> r == Ok(Listener(c.Host + ":" + c.Port))
    ensures GrpcConfigErrors(c) == [] && bindError.Some? ==>
              r == Err(["failed to strat listener: " + bindError.value])
  {
    var err := CheckEmptyFields(c);
    if err != [] {
      return Err(err), None;
    }
    var address := c.Host + ":" + c.Port;
    attempted := Some(address);
    if bindError.Some? {
      return Err(["failed to strat listener: " + bindError.value]), attempted;
    }
    r := Ok(Listener(address));
  }

  /** With every default in place the check passes; a zero timeout is
      reported alone. */
  lemma DefaultsPassCheck(host: string, port: string)
    requires port != ""
    ensures GrpcConfigErrors(GrpcConfig(host, port, DefGrpcTimeout, DefMaxGrpcReceive, DefMaxGrpcSend)) == []
    ensures GrpcConfigErrors(GrpcConfig(host, port, 0, DefMaxGrpcReceive, DefMaxGrpcSend))
            == [FieldNotDefined("timeout")]
  {
    GrpcConfigErrorsSteps(GrpcConfig(host, port, DefGrpcTimeout, DefMaxGrpcReceive, DefMaxGrpcSend));
    GrpcConfigErrorsSteps(GrpcConfig(host, port, 0, DefMaxGrpcReceive, DefMaxGrpcSend));
  }

  /** Ports that are not numbers are rejected by the parse. */
  lemma NonNumericPortsRejected()
    ensures Atoi("").Failed? && Atoi("abc").Failed?
  {
    AtoiRejectsNonNumbers();
  }
}
