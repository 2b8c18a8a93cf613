/** The probes as the two runners see them, and `run_diagnostics` of
    `tests.py`: one result per enabled configuration flag, in the fixed
    order of its flag table.  What a probe returns is left to an oracle
    `run`, a function from the call (probe and arguments) to its result. */
module Runner {
  import opened Values

  /** The 22 probes of `tests.py`. */
  datatype ProbeId =
    | PublicAccess | CertValidation | Redirect | HeadersContent | ImageValidity
    | LumaJsonRequest | RateLimit | HttpHead | LatencyTimeout | DnsRecords
    | SniMismatch | Traceroute | CorsCheck | FirewallIpBlocklist | Hsts
    | UserAgentVariation | ImageMetadata | ContentEncoding | ApiAuth
    | ProxyDetection | AdvancedImageAnalysis | EnhancedNetworkDiagnostics

  /** A probe called with its arguments. */
  datatype Call = Call(probe: ProbeId, args: seq<Value>)

  /** The arguments a probe is called with, from the image URL, the API URL
      and the bearer token: the three generation probes take the API URL
      and the token (and the image URL; the rate-limit probe five attempts),
      the others the image URL alone. */
  function Arguments(p: ProbeId, url: Value, apiUrl: Value, token: Value): seq<Value> {
    match p
    case LumaJsonRequest => [apiUrl, token, url]
    case RateLimit => [apiUrl, token, url, Int(5)]
    case ApiAuth => [apiUrl, token]
    case _ => [url]
  }

  /** An entry of the flag table: the configuration key, whether it is read
      with `CONFIG[key]` (required) or `CONFIG.get(key, False)`, and the
      probe it enables. */
  datatype Flag = Flag(key: string, required: bool, probe: ProbeId)

  const Flags: seq<Flag> := [
    Flag("TEST_PUBLIC_ACCESS", true, PublicAccess),
    Flag("TEST_CERT_VALIDATION", true, CertValidation),
    Flag("TEST_REDIRECT", true, Redirect),
    Flag("TEST_HEADERS_CONTENT", true, HeadersContent),
    Flag("TEST_IMAGE_VALIDITY", true, ImageValidity),
    Flag("TEST_LUMA_JSON_REQUEST", true, LumaJsonRequest),
    Flag("TEST_RATE_LIMIT", true, RateLimit),
    Flag("TEST_HTTP_HEAD", true, HttpHead),
    Flag("TEST_LATENCY_TIMEOUT", true, LatencyTimeout),
    Flag("TEST_DNS_RECORDS", true, DnsRecords),
    Flag("TEST_SNI_MISMATCH", true, SniMismatch),
    Flag("TEST_TRACEROUTE", true, Traceroute),
    Flag("TEST_CORS_CHECK", true, CorsCheck),
    Flag("TEST_FIREWALL_IP_BLOCKLIST", true, FirewallIpBlocklist),
    Flag("TEST_HSTS", true, Hsts),
    Flag("TEST_USER_AGENT_VARIATION", true, UserAgentVariation),
    Flag("TEST_IMAGE_METADATA", false, ImageMetadata),
    Flag("TEST_CONTENT_ENCODING", false, ContentEncoding),
    Flag("TEST_API_AUTH", false, ApiAuth),
    Flag("TEST_PROXY_DETECTION", false, ProxyDetection),
    Flag("TEST_ADVANCED_IMAGE_ANALYSIS", false, AdvancedImageAnalysis),
    Flag("TEST_ENHANCED_NETWORK_DIAGNOSTICS", false, EnhancedNetworkDiagnostics)
  ]

  /** The three values read before any flag. */
  const Inputs: seq<string> := ["TEST_IMAGE_URL", "LUMA_API_URL", "LUMA_BEARER_TOKEN"]

  /** The flag's probe runs: its key is set to a true value. */
  predicate Enabled(config: map<string, Value>, f: Flag) {
    f.key in config && Truthy(config[f.key])
  }

  /** The probes the flags `fs` enable, in order, or the KeyError of the
      first required flag that is missing. */
  function PlanOf(fs: seq<Flag>, config: map<string, Value>): Result<seq<ProbeId>, Failure>
    decreases |fs|
  {
    if fs == [] then Ok([])
    else
      var f := fs[|fs| - 1];
      match PlanOf(fs[..|fs| - 1], config)
      case Err(e) => Err(e)
      case Ok(earlier) =>
        if f.required && f.key !in config then Err(KeyError(f.key))
        else if Enabled(config, f) then Ok(earlier + [f.probe])
        else Ok(earlier)
  }

  /** The probes `run_diagnostics` runs, or the KeyError it raises. */
  function Plan(config: map<string, Value>): Result<seq<ProbeId>, Failure> {
    if Inputs[0] !in config then Err(KeyError(Inputs[0]))
    else if Inputs[1] !in config then Err(KeyError(Inputs[1]))
    else if Inputs[2] !in config then Err(KeyError(Inputs[2]))
    else PlanOf(Flags, config)
  }

  /** The results of running the probes `ps` in order. */
  function Outcomes(ps: seq<ProbeId>, config: map<string, Value>, run: Call -> Value): (rs: seq<Value>)
    requires forall k :: k in Inputs ==> k in config
    ensures |rs| == |ps|
    ensures forall i :: 0 <= i < |ps| ==>
      rs[i] == run(Call(ps[i], Arguments(ps[i], config[Inputs[0]], config[Inputs[1]], config[Inputs[2]])))
  {
    seq(|ps|, i requires 0 <= i < |ps| =>
      run(Call(ps[i], Arguments(ps[i], config[Inputs[0]], config[Inputs[1]], config[Inputs[2]]))))
  }

  /** `run_diagnostics`, with the configuration as a parameter. */
  method RunDiagnostics(config: map<string, Value>, run: Call -> Value) returns (r: Result<seq<Value>, Failure>)
    ensures Plan(config).Err? ==> r == Err(Plan(config).error)
    ensures Plan(config).Ok? ==> forall k :: k in Inputs ==> k in config
    ensures Plan(config).Ok? ==> r == Ok(Outcomes(Plan(config).value, config, run))
  {
    if "TEST_IMAGE_URL" !in config {
      return Err(KeyError("TEST_IMAGE_URL"));
    }
    if "LUMA_API_URL" !in config {
      return Err(KeyError("LUMA_API_URL"));
    }
    if "LUMA_BEARER_TOKEN" !in config {
      return Err(KeyError("LUMA_BEARER_TOKEN"));
    }
    r := RunFlags(Flags, config, run);
  }

  /** The chain of `if CONFIG[...]` tests over the flags `fs`, appending one
      result per enabled flag. */
  method RunFlags(fs: seq<Flag>, config: map<string, Value>, run: Call -> Value) returns (r: Result<seq<Value>, Failure>)
    requires forall k :: k in Inputs ==> k in config
    ensures PlanOf(fs, config).Err? ==> r == Err(PlanOf(fs, config).error)
    ensures PlanOf(fs, config).Ok? ==> r == Ok(Outcomes(PlanOf(fs, config).value, config, run))
  {
    var url, apiUrl, token := config["TEST_IMAGE_URL"], config["LUMA_API_URL"], config["LUMA_BEARER_TOKEN"];
    var results: seq<Value> := [];
    ghost var planned: seq<ProbeId> := [];
    for i := 0 to |fs|
      invariant PlanOf(fs[..i], config) == Ok(planned)
      invariant results == Outcomes(planned, config, run)
    {
      var f := fs[i];
      assert fs[..i + 1][..i] == fs[..i];
      var enabled: bool;
      if f.key in config {
        enabled := Truthy(config[f.key]);
      } else if f.required {
        PlanStaysErr(fs, config, i + 1);
        return Err(KeyError(f.key));
      } else {
        enabled := false;
      }
      if enabled {
        results := results + [run(Call(f.probe, Arguments(f.probe, url, apiUrl, token)))];
        planned := planned + [f.probe];
      }
    }
    assert fs[..|fs|] == fs;
    r := Ok(results);
  }

  /** A missing required flag ends the whole plan in its KeyError, unless
      an earlier one already did. */
  lemma {:induction false} PlanStaysErr(fs: seq<Flag>, config: map<string, Value>, n: nat)
    requires n <= |fs| && PlanOf(fs[..n], config).Err?
    ensures PlanOf(fs, config) == PlanOf(fs[..n], config)
    decreases |fs| - n
  {
    if n < |fs| {
      var m := |fs| - 1;
      if n < m {
        assert fs[..m][..n] == fs[..n];
        PlanStaysErr(fs[..m], config, n);
      } else {
        assert fs[..m] == fs[..n];
      }
    } else {
      assert fs[..n] == fs;
    }
  }

  /** The plan fails exactly when a value read with `CONFIG[key]` is
      missing. */
  lemma {:induction false} PlanOfErrIff(fs: seq<Flag>, config: map<string, Value>)
    ensures PlanOf(fs, config).Err? <==> exists i :: 0 <= i < |fs| && fs[i].required && fs[i].key !in config
    decreases |fs|
  {
    if fs != [] {
      var init := fs[..|fs| - 1];
      PlanOfErrIff(init, config);
      if exists i :: 0 <= i < |init| && init[i].required && init[i].key !in config {
        var i :| 0 <= i < |init| && init[i].required && init[i].key !in config;
        assert fs[i] == init[i];
      }
      if exists i :: 0 <= i < |fs| && fs[i].required && fs[i].key !in config {
        var i :| 0 <= i < |fs| && fs[i].required && fs[i].key !in config;
        if i < |init| {
          assert init[i] == fs[i];
        }
      }
    }
  }

  /** A probe is planned exactly when its flag is enabled; a missing
      optional flag counts as disabled. */
  lemma {:induction false} PlanOfEnabled(fs: seq<Flag>, config: map<string, Value>)
    requires PlanOf(fs, config).Ok?
    ensures forall p :: p in PlanOf(fs, config).value <==>
      exists i :: 0 <= i < |fs| && fs[i].probe == p && Enabled(config, fs[i])
    decreases |fs|
  {
    if fs != [] {
      var init := fs[..|fs| - 1];
      PlanOfEnabled(init, config);
      forall p ensures p in PlanOf(fs, config).value <==>
        exists i :: 0 <= i < |fs| && fs[i].probe == p && Enabled(config, fs[i])
      {
        if exists i :: 0 <= i < |init| && init[i].probe == p && Enabled(config, init[i]) {
          var i :| 0 <= i < |init| && init[i].probe == p && Enabled(config, init[i]);
          assert fs[i] == init[i];
        }
        if exists i :: 0 <= i < |fs| && fs[i].probe == p && Enabled(config, fs[i]) {
          var i :| 0 <= i < |fs| && fs[i].probe == p && Enabled(config, fs[i]);
          if i < |init| {
            assert init[i] == fs[i];
          }
        }
      }
    }
  }

  /** Position of a probe's flag in the table. */
  function Position(p: ProbeId): (n: nat)
    ensures n < |Flags| && Flags[n].probe == p
  {
    match p
    case PublicAccess => 0
    case CertValidation => 1
    case Redirect => 2
    case HeadersContent => 3
    case ImageValidity => 4
    case LumaJsonRequest => 5
    case RateLimit => 6
    case HttpHead => 7
    case LatencyTimeout => 8
    case DnsRecords => 9
    case SniMismatch => 10
    case Traceroute => 11
    case CorsCheck => 12
    case FirewallIpBlocklist => 13
    case Hsts => 14
    case UserAgentVariation => 15
    case ImageMetadata => 16
    case ContentEncoding => 17
    case ApiAuth => 18
    case ProxyDetection => 19
    case AdvancedImageAnalysis => 20
    case EnhancedNetworkDiagnostics => 21
  }

  /** Each probe has one flag: the flag at position `i` is the probe's. */
  lemma PositionOfFlag(i: nat)
    requires i < |Flags|
    ensures Position(Flags[i].probe) == i
  {
  }

  /** Every flag of the table sits at its probe's position. */
  lemma FlagsAtPositions()
    ensures forall i :: 0 <= i < |Flags| ==> Position(Flags[i].probe) == i
  {
    forall i | 0 <= i < |Flags| ensures Position(Flags[i].probe) == i {
      PositionOfFlag(i);
    }
  }

  /** The results come in the order of the flags: a probe planned earlier
      has an earlier flag, so no probe runs twice.  Stated for any flags
      that sit at their probes' positions, as those of the table do. */
  lemma {:induction false} PlanOfOrdered(fs: seq<Flag>, config: map<string, Value>)
    requires PlanOf(fs, config).Ok?
    requires forall i :: 0 <= i < |fs| ==> Position(fs[i].probe) == i
    ensures var ps := PlanOf(fs, config).value;
      (forall i :: 0 <= i < |ps| ==> Position(ps[i]) < |fs|) &&
      (forall i, j :: 0 <= i < j < |ps| ==> Position(ps[i]) < Position(ps[j]))
    decreases |fs|
  {
    if fs != [] {
      var init := fs[..|fs| - 1];
      assert forall i :: 0 <= i < |init| ==> init[i] == fs[i];
      PlanOfOrdered(init, config);
    }
  }

  /** `run_diagnostics`, summed up: it raises KeyError exactly when a value
      it reads with `CONFIG[key]` is missing; otherwise every result comes
      from an enabled flag, every enabled flag gives one result, and the
      results follow the flag table's order. */
  lemma DiagnosticsPlan(config: map<string, Value>)
    ensures Plan(config).Err? <==>
      (exists k :: k in Inputs && k !in config) ||
      (exists i :: 0 <= i < |Flags| && Flags[i].required && Flags[i].key !in config)
    ensures Plan(config).Ok? ==>
      var ps := Plan(config).value;
      |ps| <= |Flags| &&
      (forall p :: p in ps <==> Enabled(config, Flags[Position(p)])) &&
      (forall i, j :: 0 <= i < j < |ps| ==> Position(ps[i]) < Position(ps[j]))
  {
    PlanOfErrIff(Flags, config);
    if Plan(config).Ok? {
      PlannedIffEnabled(config);
      FlagsAtPositions();
      PlanOfOrdered(Flags, config);
      PlanOfLength(Flags, config);
    }
  }

  /** A probe is planned exactly when the flag at its position is enabled. */
  lemma PlannedIffEnabled(config: map<string, Value>)
    requires PlanOf(Flags, config).Ok?
    ensures forall p :: p in PlanOf(Flags, config).value <==> Enabled(config, Flags[Position(p)])
  {
    PlanOfEnabled(Flags, config);
    forall p | p in PlanOf(Flags, config).value ensures Enabled(config, Flags[Position(p)]) {
      var i :| 0 <= i < |Flags| && Flags[i].probe == p && Enabled(config, Flags[i]);
      PositionOfFlag(i);
    }
  }

  /** The flags `fs` plan at most one probe each. */
  lemma {:induction false} PlanOfLength(fs: seq<Flag>, config: map<string, Value>)
    requires PlanOf(fs, config).Ok?
    ensures |PlanOf(fs, config).value| <= |fs|
    decreases |fs|
  {
    if fs != [] {
      PlanOfLength(fs[..|fs| - 1], config);
    }
  }
}
