/** `diagnostics.py`: `run_all_tests`, which runs the 19 image-URL probes
    and, given API credentials, the 3 API probes; and `run_with_config`,
    which picks the output directory and file names, puts a case record in
    front of the results and writes the text report.  The environment is
    the map `env`; the clock's reading is the parameter `timestamp`. */
module Diagnostics {
  import opened Values
  import opened Runner
  import TextReport
  import Utils
  import Strings

  /** The image-URL probes in the order `run_all_tests` runs them. */
  const UrlProbes: seq<ProbeId> := [
    PublicAccess, CertValidation, Redirect, HeadersContent, ImageValidity,
    HttpHead, LatencyTimeout, DnsRecords, SniMismatch, Traceroute,
    CorsCheck, FirewallIpBlocklist, Hsts, UserAgentVariation, ImageMetadata,
    ContentEncoding, ProxyDetection, AdvancedImageAnalysis, EnhancedNetworkDiagnostics
  ]

  /** The probes that need the API URL and key. */
  const ApiProbes: seq<ProbeId> := [LumaJsonRequest, RateLimit, ApiAuth]

  /** `os.environ.get(k)` is a non-empty string. */
  predicate IsSet(env: map<string, string>, k: string) {
    k in env && env[k] != ""
  }

  /** `os.environ.get(k)` as a Python value. */
  function EnvValue(env: map<string, string>, k: string): Value {
    if k in env then Str(env[k]) else Null
  }

  const UrlRequired := "TEST_IMAGE_URL environment variable is required"

  /** The results of calling the probes `ps`, in order. */
  function Runs(ps: seq<ProbeId>, env: map<string, string>, run: Call -> Value): (rs: seq<Value>)
    ensures |rs| == |ps|
    ensures forall i :: 0 <= i < |ps| ==>
      rs[i] == run(Call(ps[i], Arguments(ps[i], EnvValue(env, "TEST_IMAGE_URL"), EnvValue(env, "LUMA_API_URL"),
                                         EnvValue(env, "LUMA_API_KEY"))))
  {
    seq(|ps|, i requires 0 <= i < |ps| =>
      run(Call(ps[i], Arguments(ps[i], EnvValue(env, "TEST_IMAGE_URL"), EnvValue(env, "LUMA_API_URL"),
                                EnvValue(env, "LUMA_API_KEY")))))
  }

  /** What `run_all_tests` returns, or the text of the ValueError it raises. */
  function AllTests(env: map<string, string>, run: Call -> Value): Result<seq<Value>, string> {
    if !IsSet(env, "TEST_IMAGE_URL") then Err(UrlRequired)
    else if IsSet(env, "LUMA_API_URL") && IsSet(env, "LUMA_API_KEY") then Ok(Runs(UrlProbes, env, run) + Runs(ApiProbes, env, run))
    else Ok(Runs(UrlProbes, env, run))
  }

  /** `run_all_tests`: the two `results.extend` calls. */
  method RunAllTests(env: map<string, string>, run: Call -> Value) returns (r: Result<seq<Value>, string>)
    ensures r == AllTests(env, run)
  {
    var results: seq<Value> := [];
    if !("TEST_IMAGE_URL" in env && env["TEST_IMAGE_URL"] != "") {
      return Err(UrlRequired);
    }
    results := results + Runs(UrlProbes, env, run);
    assert results == Runs(UrlProbes, env, run);
    if "LUMA_API_URL" in env && env["LUMA_API_URL"] != "" && "LUMA_API_KEY" in env && env["LUMA_API_KEY"] != "" {
      results := results + Runs(ApiProbes, env, run);
    }
    r := Ok(results);
  }

  /** A missing or empty image URL raises before any probe runs; otherwise
      the 19 URL probes come first, in order, each called with the URL, and
      the 3 API probes follow exactly when both the API URL and the key are
      set, so there are 19 or 22 results. */
  lemma AllTestsShape(env: map<string, string>, run: Call -> Value)
    ensures AllTests(env, run).Err? <==> !IsSet(env, "TEST_IMAGE_URL")
    ensures AllTests(env, run).Ok? ==>
      var rs := AllTests(env, run).value;
      var url := Str(env["TEST_IMAGE_URL"]);
      && |rs| == (if IsSet(env, "LUMA_API_URL") && IsSet(env, "LUMA_API_KEY") then 22 else 19)
      && (forall i :: 0 <= i < 19 ==> rs[i] == run(Call(UrlProbes[i], [url])))
      && (|rs| == 22 ==>
            var api, key := Str(env["LUMA_API_URL"]), Str(env["LUMA_API_KEY"]);
            rs[19] == run(Call(LumaJsonRequest, [api, key, url])) &&
            rs[20] == run(Call(RateLimit, [api, key, url, Int(5)])) &&
            rs[21] == run(Call(ApiAuth, [api, key])))
  {
    if IsSet(env, "TEST_IMAGE_URL") {
      var rs := AllTests(env, run).value;
      var url := Str(env["TEST_IMAGE_URL"]);
      UrlProbesTakeUrl();
      forall i | 0 <= i < 19 ensures rs[i] == run(Call(UrlProbes[i], [url])) {
        assert rs[i] == Runs(UrlProbes, env, run)[i];
      }
      if |rs| == 22 {
        assert rs[19..] == Runs(ApiProbes, env, run);
      }
    }
  }

  /** The probes `run_all_tests` calls with the image URL take nothing else. */
  lemma UrlProbesTakeUrl()
    ensures forall i, u, a, t :: 0 <= i < |UrlProbes| ==> Arguments(UrlProbes[i], u, a, t) == [u]
  {
  }

  /** Both runners call every probe of `tests.py` exactly once when all of
      `run_diagnostics`'s flags are on and the credentials are set: the
      two lists hold the same probes, in different orders. */
  lemma SameProbes()
    ensures forall p :: p in UrlProbes + ApiProbes <==> exists i :: 0 <= i < |Flags| && Flags[i].probe == p
    ensures |UrlProbes + ApiProbes| == |Flags|
  {
    forall p ensures p in UrlProbes + ApiProbes <==> exists i :: 0 <= i < |Flags| && Flags[i].probe == p {
      var n := Position(p);
      assert Flags[n].probe == p;
    }
  }

  // ---------------------------------------------------------------------
  // run_with_config

  /** Where the program runs: the platform, the environment and the home
      directory. */
  datatype Host = Host(windows: bool, env: map<string, string>, home: string)

  /** The exceptions `run_with_config` lets through. */
  datatype RunError =
    | FileNotFoundError(message: string)
    | TypeError(message: string)
    | ValueError(message: string)
    | ReportFailed(failure: Failure, written: string)   // writing the text file raised; what it held by then

  /** The files `run_with_config` names and what it wrote: the list saved as
      JSON (the JSON text itself is not modelled) and the text report. */
  datatype Outputs = Outputs(jsonFile: string, textFile: string, results: seq<Value>, text: string)

  function Separator(windows: bool): char {
    if windows then '\\' else '/'
  }

  /** `str(path)` */
  function PathText(p: Utils.Path, windows: bool): string {
    Strings.Join(p, Separator(windows))
  }

  /** The `output_dir` argument: None, a `str` (what the command line
      passes), or a `Path`, given by its text. */
  datatype DirArg = NoDir | StrDir(text: string) | PathDir(text: string)

  /** `output_dir / name` on a `str` raises this. */
  const StrSlashStr := "unsupported operand type(s) for /: 'str' and 'str'"

  /** The default results directory, inside a directory named after the
      case when there is one. */
  function DefaultDir(caseId: string, host: Host): string {
    var base := Utils.DefaultOutputDir(host.windows, host.env, host.home);
    PathText(if caseId != "" then base + [caseId] else base, host.windows)
  }

  /** The directory the files go to, as written: a falsy argument gives the
      default directory; a `Path` is used as it is; a non-empty `str` is
      kept as a `str`, and naming the files in it raises TypeError. */
  function OutputDir(caseId: string, outputDir: DirArg, host: Host): Result<string, RunError> {
    match outputDir
    case NoDir => Ok(DefaultDir(caseId, host))
    case StrDir(t) => if t == "" then Ok(DefaultDir(caseId, host)) else Err(RunError.TypeError(StrSlashStr))
    case PathDir(t) => Ok(t)
  }

  /** The directory the files go to, corrected: an explicit argument is
      wrapped in `Path` first, so a `str` is used like the same `Path`. */
  function OutputDirFixed(caseId: string, outputDir: DirArg, host: Host): string {
    match outputDir
    case NoDir => DefaultDir(caseId, host)
    case StrDir(t) => if t == "" then DefaultDir(caseId, host) else t
    case PathDir(t) => t
  }

  /** As written, every directory given on the command line, which is a
      non-empty `str`, makes `run_with_config` raise TypeError. */
  lemma StrOutputDirRaises(caseId: string, text: string, host: Host)
    requires text != ""
    ensures OutputDir(caseId, StrDir(text), host) == Err(RunError.TypeError(StrSlashStr))
    ensures OutputDir(caseId, PathDir(text), host) == Ok(text)
  {
  }

  /** The corrected choice never fails, agrees with the code wherever the
      code succeeds, and treats a `str` like the same `Path`. */
  lemma OutputDirFixedAgrees(caseId: string, outputDir: DirArg, host: Host)
    ensures OutputDir(caseId, outputDir, host).Ok? ==>
      OutputDirFixed(caseId, outputDir, host) == OutputDir(caseId, outputDir, host).value
    ensures outputDir.StrDir? && outputDir.text != "" ==>
      OutputDirFixed(caseId, outputDir, host) == OutputDirFixed(caseId, PathDir(outputDir.text), host)
  {
  }

  /** `output_dir / f"{timestamp}-diagnostic.{extension}"` */
  function OutputFile(dir: string, timestamp: string, extension: string, windows: bool): string {
    dir + [Separator(windows)] + timestamp + "-diagnostic." + extension
  }

  /** The case record put at the front of the results. */
  function CaseInfo(caseId: string, timestamp: string, platform: Value): Value {
    Dict([Entry("test_name", Str("Case Information")), Entry("case_id", Str(caseId)),
          Entry("timestamp", Str(timestamp)), Entry("platform", platform)])
  }

  /** The environment once the configuration path is recorded in it. */
  function ConfiguredEnv(env: map<string, string>, configPath: string): map<string, string> {
    if configPath != "" then env["LUMA_CONFIG_FILE" := configPath] else env
  }

  /** `run_with_config`.  `configExists` says whether `configPath` names an
      existing file; `platform` stands for the platform description, whose
      producer is not part of this model. */
  method RunWithConfig(caseId: string, configPath: string, configExists: bool, outputDir: DirArg,
                       timestamp: string, platform: Value, host: Host, run: Call -> Value)
    returns (r: Result<Outputs, RunError>)
    ensures configPath != "" && !configExists ==>
      r == Err(FileNotFoundError("Configuration file not found: " + configPath))
    ensures !(configPath != "" && !configExists) && OutputDir(caseId, outputDir, host).Err? ==>
      r == Err(OutputDir(caseId, outputDir, host).error)
    ensures !(configPath != "" && !configExists) && OutputDir(caseId, outputDir, host).Ok? ==>
      var tests := AllTests(ConfiguredEnv(host.env, configPath), run);
      && (tests.Err? ==> r == Err(ValueError(tests.error)))
      && (tests.Ok? ==>
            var results := (if caseId != "" then [CaseInfo(caseId, timestamp, platform)] else []) + tests.value;
            var file := TextReport.Render(results);
            && (file.failure.Some? ==> r == Err(ReportFailed(file.failure.value, file.text)))
            && (file.failure.None? ==>
                  var dir := OutputDir(caseId, outputDir, host).value;
                  r == Ok(Outputs(OutputFile(dir, timestamp, "json", host.windows),
                                  OutputFile(dir, timestamp, "txt", host.windows), results, file.text))))
  {
    var env := host.env;
    if configPath != "" {
      if !configExists {
        return Err(FileNotFoundError("Configuration file not found: " + configPath));
      }
      env := env["LUMA_CONFIG_FILE" := configPath];
    }
    var dir: string;
    if outputDir.PathDir? {
      dir := outputDir.text;
    } else if outputDir.StrDir? && outputDir.text != "" {
      // the `str` stays a `str`: `output_dir / name` raises
      return Err(RunError.TypeError(StrSlashStr));
    } else {
      var path := Utils.DefaultOutputDir(host.windows, host.env, host.home);
      if caseId != "" {
        path := path + [caseId];
      }
      dir := PathText(path, host.windows);
    }
    assert Ok(dir) == OutputDir(caseId, outputDir, host);
    assert env == ConfiguredEnv(host.env, configPath);
    var jsonFile := OutputFile(dir, timestamp, "json", host.windows);
    var textFile := OutputFile(dir, timestamp, "txt", host.windows);
    var tests := RunAllTests(env, run);
    if tests.Err? {
      return Err(ValueError(tests.error));
    }
    var results := tests.value;
    if caseId != "" {
      results := [CaseInfo(caseId, timestamp, platform)] + results;
    }
    assert results == (if caseId != "" then [CaseInfo(caseId, timestamp, platform)] else []) + tests.value;
    var file := TextReport.SaveText(results);
    if file.failure.Some? {
      return Err(ReportFailed(file.failure.value, file.text));
    }
    r := Ok(Outputs(jsonFile, textFile, results, file.text));
  }

  /** The two output files share their directory and timestamp and differ
      only in the extension. */
  lemma OutputFilesPair(dir: string, timestamp: string, windows: bool)
    ensures var prefix := dir + [Separator(windows)] + timestamp + "-diagnostic.";
      OutputFile(dir, timestamp, "json", windows) == prefix + "json" &&
      OutputFile(dir, timestamp, "txt", windows) == prefix + "txt" &&
      OutputFile(dir, timestamp, "json", windows) != OutputFile(dir, timestamp, "txt", windows)
  {
    var prefix := dir + [Separator(windows)] + timestamp + "-diagnostic.";
    assert |prefix + "json"| != |prefix + "txt"|;
  }

  /** Without an explicit directory, the files go to the default results
      directory, in a sub-directory named after the case if there is one. */
  lemma OutputDirDefault(caseId: string, host: Host)
    ensures var base := PathText(Utils.DefaultOutputDir(host.windows, host.env, host.home), host.windows);
      OutputDir(caseId, NoDir, host) == Ok(if caseId != "" then base + [Separator(host.windows)] + caseId else base)
  {
    var p := Utils.DefaultOutputDir(host.windows, host.env, host.home);
    if caseId != "" {
      JoinAppend(p, caseId, Separator(host.windows));
    }
  }

  lemma {:induction false} JoinAppend(p: seq<string>, last: string, sep: char)
    requires p != []
    ensures Strings.Join(p + [last], sep) == Strings.Join(p, sep) + [sep] + last
    decreases |p|
  {
    if |p| > 1 {
      assert (p + [last])[1..] == p[1..] + [last];
      JoinAppend(p[1..], last, sep);
    }
  }

  /** With a case, the case record is first and every probe result follows
      in its original order; the case record always has a name, so the
      report starts with its section. */
  lemma CaseInfoFirst(caseId: string, timestamp: string, platform: Value, tests: seq<Value>)
    requires caseId != ""
    ensures var results := [CaseInfo(caseId, timestamp, platform)] + tests;
      && results[0] == CaseInfo(caseId, timestamp, platform)
      && results[1..] == tests
      && TextReport.TestNameOf(results[0]) == Ok(Str("Case Information"))
  {
    var results := [CaseInfo(caseId, timestamp, platform)] + tests;
    assert results[1..] == tests;
  }
}
