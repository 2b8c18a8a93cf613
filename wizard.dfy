/** The interactive wizard's decision rules: the test types it offers, how
    it checks the answers, when it asks for generation parameters and merges
    them into the configuration, where it finds the output files, and the
    summary it shows once the tests have run.  The summary is a sequence of
    lines rather than a console. */
module Wizard {
  import opened Values
  import opened Strings

  const BasicTest := "Basic Image Test"
  const TextToImage := "Text-to-Image Generation"
  const ImageToImage := "Image-to-Image Generation"
  const ImageToVideo := "Image-to-Video Generation"
  const FullSuite := "Full Test Suite"

  /** The test types offered only to a user with an API key, in menu order. */
  const KeyedChoices := [TextToImage, ImageToImage, ImageToVideo, FullSuite]

  /** `if api_key:` holds: a key was entered and it is not empty. */
  predicate KeyGiven(apiKey: Option<string>) {
    apiKey.Some? && apiKey.value != ""
  }

  /** The menu of `get_test_type`: the basic test, extended by the keyed
      test types when there is a key. */
  method TestTypeChoices(apiKey: Option<string>) returns (choices: seq<string>)
    ensures |choices| == (if KeyGiven(apiKey) then 5 else 1)
    ensures choices[0] == BasicTest
    ensures forall i :: 1 <= i < |choices| ==> choices[i] == KeyedChoices[i - 1]
  {
    choices := [BasicTest];
    if KeyGiven(apiKey) {
      choices := choices + KeyedChoices;
    }
  }

  // ---------------------------------------------------------------------
  // Answer validators: `True` accepts, a string is the message shown.

  const UrlMessage := "Please enter a valid HTTP(S) URL"

  function ValidateUrl(url: string): (verdict: Value)
    ensures verdict == Bool(true) || verdict == Str(UrlMessage)
  {
    if StartsWith(url, "http://") || StartsWith(url, "https://") then Bool(true)
    else Str(UrlMessage)
  }

  /** The URL check accepts exactly the text that begins with `http`, an
      optional `s`, and then `://`. */
  lemma UrlAcceptedIff(url: string)
    ensures ValidateUrl(url) == Bool(true) <==>
      |url| >= 7 && url[..4] == "http" &&
      (url[4..7] == "://" || (|url| >= 8 && url[4..8] == "s://"))
  {
    if |url| >= 7 {
      assert url[..7] == url[..4] + url[4..7];
      if |url| >= 8 {
        assert url[..8] == url[..4] + url[4..8];
      }
    }
  }

  const DurationMessage := "Please enter a valid number"

  function ValidateDuration(x: string): (verdict: Value)
    ensures verdict == Bool(true) || verdict == Str(DurationMessage)
  {
    if IsDigits(Remove(x, '.')) then Bool(true) else Str(DurationMessage)
  }

  /** The duration check accepts exactly the text made of digits and dots
      that holds at least one digit: any number of dots, anywhere. */
  lemma DurationAcceptedIff(x: string)
    ensures ValidateDuration(x) == Bool(true) <==>
      (exists i :: 0 <= i < |x| && IsDigit(x[i])) &&
      (forall i :: 0 <= i < |x| ==> x[i] == '.' || IsDigit(x[i]))
  {
    var r := Remove(x, '.');
    if IsDigits(r) {
      assert r[0] in r;
      var i :| 0 <= i < |x| && x[i] == r[0];
      assert IsDigit(x[i]);
      forall i | 0 <= i < |x| && x[i] != '.'
        ensures IsDigit(x[i])
      {
        assert x[i] in r;
        var j :| 0 <= j < |r| && r[j] == x[i];
      }
    }
    if (exists i :: 0 <= i < |x| && IsDigit(x[i])) &&
       (forall i :: 0 <= i < |x| ==> x[i] == '.' || IsDigit(x[i]))
    {
      var i :| 0 <= i < |x| && IsDigit(x[i]);
      assert x[i] in r;
      forall j | 0 <= j < |r|
        ensures IsDigit(r[j])
      {
        assert r[j] in r;
        var k :| 0 <= k < |x| && x[k] == r[j];
      }
    }
  }

  /** "1.2.3", "..5" and "3." pass as numbers; "", "." and "-1" do not.
      `float()` raises ValueError on "1.2.3" and "..5" after the prompt, and
      the wizard catches only KeyboardInterrupt, so such an answer ends the
      program with that exception. */
  lemma DurationExamples()
    ensures ValidateDuration("1.2.3") == Bool(true)
    ensures ValidateDuration("..5") == Bool(true)
    ensures ValidateDuration("3.") == Bool(true)
    ensures ValidateDuration("") == Str(DurationMessage)
    ensures ValidateDuration(".") == Str(DurationMessage)
    ensures ValidateDuration("-1") == Str(DurationMessage)
  {
    DurationAcceptedIff("1.2.3");
    assert IsDigit("1.2.3"[0]);
    DurationAcceptedIff("..5");
    assert IsDigit("..5"[2]);
    DurationAcceptedIff("3.");
    assert IsDigit("3."[0]);
    DurationAcceptedIff(".");
    DurationAcceptedIff("-1");
    assert !IsDigit("-1"[0]);
  }

  // ---------------------------------------------------------------------
  // Generation parameters and the configuration.

  /** `main` asks for parameters unless the test type is the basic test or
      the full suite. */
  predicate CollectsParams(testType: string) {
    testType !in [BasicTest, FullSuite]
  }

  /** The names of the answers `get_generation_params` asks for. */
  function ParamQuestions(testType: string): seq<string> {
    if testType == TextToImage then ["prompt", "aspect_ratio"]
    else if testType == ImageToImage then ["prompt"]
    else if testType == ImageToVideo then ["camera_motion", "duration"]
    else []
  }

  /** The `params` that `main` hands to `run_tests`; `answer` stands for
      what the user types at each question. */
  function Params(testType: string, answer: string -> Value): (params: Record)
    ensures Keys(params) == if CollectsParams(testType) then ParamQuestions(testType) else []
  {
    if CollectsParams(testType) then
      var qs := ParamQuestions(testType);
      seq(|qs|, i requires 0 <= i < |qs| => Entry(qs[i], answer(qs[i])))
    else []
  }

  /** Of the test types on the menu, exactly the three generation tests ask
      for parameters, and each of them asks at least one question. */
  lemma MenuParams(testType: string)
    requires testType == BasicTest || testType in KeyedChoices
    ensures CollectsParams(testType) <==> testType in [TextToImage, ImageToImage, ImageToVideo]
    ensures CollectsParams(testType) <==> ParamQuestions(testType) != []
  {
  }

  /** `config.update(params)`: the parameters set one after the other. */
  function Updated(config: Record, params: Record): Record
    decreases |params|
  {
    if params == [] then config
    else
      var n := |params| - 1;
      Set(Updated(config, params[..n]), params[n].key, params[n].value)
  }

  function BaseConfig(imageUrl: string, apiKey: Option<string>): Record {
    [Entry("TEST_IMAGE_URL", Str(imageUrl)), Entry("LUMA_API_KEY", OptStr(apiKey))]
  }

  /** The configuration `run_tests` builds: the parameters are merged in
      for every test type but the basic test. */
  function Config(imageUrl: string, apiKey: Option<string>, testType: string, params: Record): Record {
    if testType != BasicTest then Updated(BaseConfig(imageUrl, apiKey), params)
    else BaseConfig(imageUrl, apiKey)
  }

  method BuildConfig(imageUrl: string, apiKey: Option<string>, testType: string, params: Record)
    returns (config: Record)
    ensures config == Config(imageUrl, apiKey, testType, params)
  {
    config := BaseConfig(imageUrl, apiKey);
    if testType != BasicTest {
      for i := 0 to |params|
        invariant config == Updated(BaseConfig(imageUrl, apiKey), params[..i])
      {
        assert params[..i + 1][..i] == params[..i];
        config := Set(config, params[i].key, params[i].value);
      }
      assert params[..|params|] == params;
    }
  }

  /** `d.get(k)` of a dictionary without duplicate keys, when `k` is not
      the key of its last entry, reads the same without that entry. */
  lemma {:induction false} GetButLast(r: Record, k: string)
    requires r != [] && r[|r| - 1].key != k
    ensures Get(r, k) == Get(r[..|r| - 1], k)
    ensures HasKey(r, k) <==> HasKey(r[..|r| - 1], k)
    decreases |r|
  {
    var n := |r| - 1;
    if n > 0 && r[0].key != k {
      GetButLast(r[1..], k);
      assert r[1..][..n - 1] == r[..n][1..];
      HasKeyTail(r, k);
      HasKeyTail(r[..n], k);
    } else if n > 0 {
      assert r[..n][0] == r[0];
    }
  }

  /** After the update a key reads as in the parameters when they hold it,
      and as before otherwise: later values win. */
  lemma {:induction false} UpdatedGet(config: Record, params: Record, k: string)
    requires DistinctKeys(params)
    ensures Get(Updated(config, params), k) == if HasKey(params, k) then Get(params, k) else Get(config, k)
    decreases |params|
  {
    if params != [] {
      var n := |params| - 1;
      var last := params[n];
      SetGet(Updated(config, params[..n]), last.key, last.value, k);
      if k == last.key {
        GetAt(params, n);
      } else {
        GetButLast(params, k);
        UpdatedGet(config, params[..n], k);
      }
    }
  }

  /** The update keeps the existing keys where they were, in order. */
  lemma {:induction false} UpdatedKeys(config: Record, params: Record)
    ensures |Updated(config, params)| >= |config|
    ensures Keys(Updated(config, params))[..|config|] == Keys(config)
    decreases |params|
  {
    if params != [] {
      var n := |params| - 1;
      var before := Updated(config, params[..n]);
      UpdatedKeys(config, params[..n]);
      SetKeys(before, params[n].key, params[n].value);
      if !HasKey(before, params[n].key) {
        assert (Keys(before) + [params[n].key])[..|config|] == Keys(before)[..|config|];
      }
    }
  }

  /** Parameters under keys the configuration does not have are appended
      after it, in order. */
  lemma {:induction false} UpdatedFresh(config: Record, params: Record)
    requires DistinctKeys(params)
    requires forall i, j :: 0 <= i < |config| && 0 <= j < |params| ==> config[i].key != params[j].key
    ensures Updated(config, params) == config + params
    decreases |params|
  {
    if params != [] {
      var n := |params| - 1;
      UpdatedFresh(config, params[..n]);
      var before := config + params[..n];
      forall j | 0 <= j < |before|
        ensures before[j].key != params[n].key
      {
        if j >= |config| {
          assert before[j] == params[j - |config|];
        }
      }
      SetNew(before, params[n].key, params[n].value);
      assert before + [Entry(params[n].key, params[n].value)] == config + params;
    }
  }

  /** The answer names differ from each other and from the two keys the
      configuration starts with. */
  lemma QuestionsFresh(testType: string)
    ensures var qs := ParamQuestions(testType);
      (forall i, j :: 0 <= i < j < |qs| ==> qs[i] != qs[j]) &&
      forall i :: 0 <= i < |qs| ==> qs[i] != "TEST_IMAGE_URL" && qs[i] != "LUMA_API_KEY"
  {
  }

  /** The collected answers are appended to the configuration, after the
      image URL and the key. */
  lemma ConfigAppends(imageUrl: string, apiKey: Option<string>, testType: string, answer: string -> Value)
    ensures Config(imageUrl, apiKey, testType, Params(testType, answer)) ==
      BaseConfig(imageUrl, apiKey) + Params(testType, answer)
  {
    var base := BaseConfig(imageUrl, apiKey);
    var params := Params(testType, answer);
    var qs := Keys(params);
    QuestionsFresh(testType);
    if testType != BasicTest {
      forall i, j | 0 <= i < j < |params|
        ensures params[i].key != params[j].key
      {
        assert params[i].key == qs[i] && params[j].key == qs[j];
      }
      forall i, j | 0 <= i < |base| && 0 <= j < |params|
        ensures base[i].key != params[j].key
      {
        assert params[j].key == qs[j];
      }
      UpdatedFresh(base, params);
    }
  }

  /** The configuration the wizard runs with: the image URL and the key
      first, then the generation answers for a generation test, and
      nothing more for the basic test or the full suite. */
  lemma ConfigOfChoice(imageUrl: string, apiKey: Option<string>, testType: string, answer: string -> Value)
    ensures var config := Config(imageUrl, apiKey, testType, Params(testType, answer));
      Keys(config) == ["TEST_IMAGE_URL", "LUMA_API_KEY"] + (if CollectsParams(testType) then ParamQuestions(testType) else []) &&
      Get(config, "TEST_IMAGE_URL") == Some(Str(imageUrl)) &&
      Get(config, "LUMA_API_KEY") == Some(OptStr(apiKey))
  {
    var base := BaseConfig(imageUrl, apiKey);
    var params := Params(testType, answer);
    ConfigAppends(imageUrl, apiKey, testType, answer);
    var config := base + params;
    KeysAppend(base, params);
    GetFirst(config, 0);
    GetFirst(config, 1);
  }

  // ---------------------------------------------------------------------
  // The output files.

  const OutputFilesName := "Output Files"

  /** `output_files` after the search loop: the files listed by the first
      result named "Output Files", an empty list when no result is, or the
      exception a subscript raises on the way. */
  function OutputFilesOf(results: seq<Value>): Result<Value, Failure>
    decreases |results|
  {
    if results == [] then Ok(List([]))
    else
      match Lookup(results[0], "test_name")
      case Err(e) => Err(e)
      case Ok(name) =>
        if name == Str(OutputFilesName) then
          match Lookup(results[0], "details")
          case Err(e) => Err(e)
          case Ok(details) => Lookup(details, "output_files")
        else OutputFilesOf(results[1..])
  }

  method FindOutputFiles(results: seq<Value>) returns (files: Result<Value, Failure>)
    ensures files == OutputFilesOf(results)
  {
    files := Ok(List([]));
    var i := 0;
    while i < |results|
      invariant 0 <= i <= |results|
      invariant OutputFilesOf(results) == OutputFilesOf(results[i..])
    {
      assert results[i..][0] == results[i];
      assert results[i..][1..] == results[i + 1..];
      var name := Lookup(results[i], "test_name");
      if name.Err? {
        return Err(name.error);
      }
      if name.value == Str(OutputFilesName) {
        var details := Lookup(results[i], "details");
        if details.Err? {
          return Err(details.error);
        }
        files := Lookup(details.value, "output_files");
        break;
      }
      i := i + 1;
    }
  }

  predicate NamedOtherwise(result: Value) {
    Lookup(result, "test_name").Ok? && Lookup(result, "test_name") != Ok(Str(OutputFilesName))
  }

  /** The files are those of the first result named "Output Files" when
      every result before it has another name. */
  lemma {:induction false} OutputFilesFirst(results: seq<Value>, i: nat)
    requires i < |results| && Lookup(results[i], "test_name") == Ok(Str(OutputFilesName))
    requires forall j :: 0 <= j < i ==> NamedOtherwise(results[j])
    ensures OutputFilesOf(results) ==
      match Lookup(results[i], "details")
      case Err(e) => Err(e)
      case Ok(details) => Lookup(details, "output_files")
    decreases i
  {
    if i > 0 {
      assert NamedOtherwise(results[0]);
      OutputFilesFirst(results[1..], i - 1);
    }
  }

  /** With no result named "Output Files" the files are an empty list. */
  lemma {:induction false} OutputFilesNone(results: seq<Value>)
    requires forall j :: 0 <= j < |results| ==> NamedOtherwise(results[j])
    ensures OutputFilesOf(results) == Ok(List([]))
    decreases |results|
  {
    if results != [] {
      assert NamedOtherwise(results[0]);
      OutputFilesNone(results[1..]);
    }
  }

  // ---------------------------------------------------------------------
  // The summary.

  /** The lines shown when the summary ends or is stopped by an exception:
      everything shown so far, and that exception. */
  datatype Screen = Screen(lines: seq<string>, failure: Option<Failure>)

  function Prepend(ls: seq<string>, s: Screen): Screen {
    Screen(ls + s.lines, s.failure)
  }

  const Rule := Repeat('=', 40)
  const Dashes := Repeat('-', 40)

  /** `for f in v`: the items of a list, the keys of a dictionary, the
      characters of a string; other values are not iterable. */
  function Iterate(v: Value): Result<seq<Value>, Failure> {
    match v
    case List(items) => Ok(items)
    case Dict(entries) => Ok(seq(|entries|, i requires 0 <= i < |entries| => Str(entries[i].key)))
    case Str(s) => Ok(seq(|s|, i requires 0 <= i < |s| => Str([s[i]])))
    case _ => Err(TypeError(v))
  }

  /** One line per output file, indented. */
  function FileLines(files: Value): Screen {
    match Iterate(files)
    case Err(e) => Screen([], Some(e))
    case Ok(items) => Screen(seq(|items|, i requires 0 <= i < |items| => "  " + Show(items[i])), None)
  }

  function SubLine(e: Entry): string {
    "  " + e.key + ": " + Show(e.value)
  }

  /** The lines for one detail of a completed result: `k: v`, or `k:`
      followed by one indented line per entry when the value is a
      dictionary. */
  function DetailLines(e: Entry): seq<string> {
    if e.value.Dict? then
      [e.key + ":"] + seq(|e.value.entries|, i requires 0 <= i < |e.value.entries| => SubLine(e.value.entries[i]))
    else [e.key + ": " + Show(e.value)]
  }

  /** The lines for all the details of a completed result, in order. */
  function CompletedLines(details: Record): seq<string>
    decreases |details|
  {
    if details == [] then [] else DetailLines(details[0]) + CompletedLines(details[1..])
  }

  /** The lines under a result's heading, given its entries: its details
      when it completed, otherwise its error or its status. */
  function Outcome(fields: Record): Screen {
    match Get(fields, "status")
    case None => Screen([], Some(KeyError("status")))
    case Some(status) =>
      if status == Str("completed") then
        match Get(fields, "details")
        case None => Screen([], None)
        case Some(details) =>
          if details.Dict? then Screen(CompletedLines(details.entries), None)
          else Screen([], Some(AttributeError(details, "items")))
      else
        match Get(fields, "details")
        case None => Screen(["Status: " + Show(status)], None)
        case Some(details) =>
          match Member("error", details)
          case Err(e) => Screen([], Some(e))
          case Ok(hasError) =>
            if !hasError then Screen(["Status: " + Show(status)], None)
            else
              match Lookup(details, "error")
              case Err(e) => Screen([], Some(e))
              case Ok(error) => Screen(["Error: " + Show(error)], None)
  }

  /** The lines for one result: nothing for "Output Files", otherwise a
      blank line, the name, a dashed rule and the outcome. */
  function Block(result: Value): Screen {
    match Lookup(result, "test_name")
    case Err(e) => Screen([], Some(e))
    case Ok(name) =>
      if name == Str(OutputFilesName) then Screen([], None)
      else Prepend(["", Show(name), Dashes], Outcome(result.entries))
  }

  /** The blocks of all results, up to the first exception. */
  function Blocks(results: seq<Value>): Screen
    decreases |results|
  {
    if results == [] then Screen([], None)
    else
      var b := Block(results[0]);
      if b.failure.Some? then b else Prepend(b.lines, Blocks(results[1..]))
  }

  /** The output-file notice: a caption and the files, when there are any. */
  function Saved(files: Value): Screen {
    if Truthy(files) then Prepend(["Results saved to:"], FileLines(files)) else Screen([], None)
  }

  const Completed := ["", "Tests completed!", ""]
  const SummaryHead := ["", "Summary of results:", Rule]

  /** What `run_tests` shows after the tests: the completion notice, the
      output files when there are any, and the summary of every result. */
  function Summary(results: seq<Value>): Screen {
    match OutputFilesOf(results)
    case Err(e) => Screen([], Some(e))
    case Ok(files) =>
      var saved := Saved(files);
      if saved.failure.Some? then Prepend(Completed, saved)
      else Prepend(Completed + saved.lines + SummaryHead, Blocks(results))
  }

  /** The loop over the details of a completed result. */
  method ShowDetails(details: Record) returns (shown: seq<string>)
    ensures shown == CompletedLines(details)
  {
    shown := [];
    for i := 0 to |details|
      invariant CompletedLines(details) == shown + CompletedLines(details[i..])
    {
      CompletedLinesAt(details, i);
      ConcatAssoc(shown, DetailLines(details[i]), CompletedLines(details[i + 1..]));
      var lines := ShowDetail(details[i]);
      shown := shown + lines;
    }
  }

  lemma CompletedLinesAt(details: Record, i: nat)
    requires i < |details|
    ensures CompletedLines(details[i..]) == DetailLines(details[i]) + CompletedLines(details[i + 1..])
  {
    assert details[i..][1..] == details[i + 1..];
  }

  /** The lines for one detail, with the inner loop over a dictionary. */
  method ShowDetail(e: Entry) returns (lines: seq<string>)
    ensures lines == DetailLines(e)
  {
    if !e.value.Dict? {
      return [e.key + ": " + Show(e.value)];
    }
    var sub := e.value.entries;
    lines := [e.key + ":"];
    for j := 0 to |sub|
      invariant |lines| == j + 1 && lines[0] == e.key + ":"
      invariant forall m :: 0 <= m < j ==> lines[m + 1] == SubLine(sub[m])
    {
      lines := lines + ["  " + sub[j].key + ": " + Show(sub[j].value)];
    }
  }

  /** The block printed for one result. */
  method ShowResult(result: Value) returns (block: Screen)
    ensures block == Block(result)
  {
    var name := Lookup(result, "test_name");
    if name.Err? {
      return Screen([], Some(name.error));
    }
    if name.value == Str(OutputFilesName) {
      return Screen([], None);
    }
    var head := ["", Show(name.value), Dashes];
    var fields := result.entries;
    var status := Get(fields, "status");
    if status.None? {
      return Screen(head, Some(KeyError("status")));
    }
    var details := Get(fields, "details");
    if status.value == Str("completed") {
      if details.None? {
        return Screen(head, None);
      }
      if !details.value.Dict? {
        return Screen(head, Some(AttributeError(details.value, "items")));
      }
      var shown := ShowDetails(details.value.entries);
      return Screen(head + shown, None);
    }
    if details.None? {
      return Screen(head + ["Status: " + Show(status.value)], None);
    }
    var hasError := Member("error", details.value);
    if hasError.Err? {
      return Screen(head, Some(hasError.error));
    }
    if !hasError.value {
      return Screen(head + ["Status: " + Show(status.value)], None);
    }
    var error := Lookup(details.value, "error");
    if error.Err? {
      return Screen(head, Some(error.error));
    }
    return Screen(head + ["Error: " + Show(error.value)], None);
  }

  /** The loop that lists the output files. */
  method ShowSaved(files: Value) returns (saved: Screen)
    ensures saved == Saved(files)
  {
    if !Truthy(files) {
      return Screen([], None);
    }
    var items := Iterate(files);
    if items.Err? {
      return Screen(["Results saved to:"], Some(items.error));
    }
    var listed: seq<string> := [];
    for i := 0 to |items.value|
      invariant |listed| == i
      invariant forall j :: 0 <= j < i ==> listed[j] == "  " + Show(items.value[j])
    {
      listed := listed + ["  " + Show(items.value[i])];
    }
    return Screen(["Results saved to:"] + listed, None);
  }

  /** The screen `run_tests` shows once the tests have run. */
  method ShowSummary(results: seq<Value>) returns (screen: Screen)
    ensures screen == Summary(results)
  {
    var files := FindOutputFiles(results);
    if files.Err? {
      return Screen([], Some(files.error));
    }
    var saved := ShowSaved(files.value);
    if saved.failure.Some? {
      return Prepend(Completed, saved);
    }
    var lines := Completed + saved.lines + SummaryHead;
    var i := 0;
    while i < |results|
      invariant 0 <= i <= |results|
      invariant Summary(results) == Prepend(lines, Blocks(results[i..]))
    {
      var block := ShowResult(results[i]);
      BlocksAt(results, i, lines);
      if block.failure.Some? {
        return Prepend(lines, block);
      }
      lines := lines + block.lines;
      i := i + 1;
    }
    return Screen(lines, None);
  }

  /** One step of the loop over the results. */
  lemma BlocksAt(results: seq<Value>, i: nat, lines: seq<string>)
    requires i < |results|
    ensures var block := Block(results[i]);
      Prepend(lines, Blocks(results[i..])) ==
        if block.failure.Some? then Prepend(lines, block)
        else Prepend(lines + block.lines, Blocks(results[i + 1..]))
  {
    assert results[i..][0] == results[i];
    assert results[i..][1..] == results[i + 1..];
    var block := Block(results[i]);
    ConcatAssoc(lines, block.lines, Blocks(results[i + 1..]).lines);
  }

  // ---------------------------------------------------------------------
  // Properties of the summary.

  /** The results without those named "Output Files". */
  function WithoutOutputFiles(results: seq<Value>): seq<Value>
    decreases |results|
  {
    if results == [] then []
    else if Lookup(results[0], "test_name") == Ok(Str(OutputFilesName)) then WithoutOutputFiles(results[1..])
    else [results[0]] + WithoutOutputFiles(results[1..])
  }

  /** The blocks never show a result named "Output Files": dropping those
      results leaves the blocks as they are. */
  lemma {:induction false} BlocksSkipOutputFiles(results: seq<Value>)
    ensures Blocks(WithoutOutputFiles(results)) == Blocks(results)
    decreases |results|
  {
    if results != [] {
      BlocksSkipOutputFiles(results[1..]);
      var rest := WithoutOutputFiles(results[1..]);
      if Lookup(results[0], "test_name") != Ok(Str(OutputFilesName)) {
        assert ([results[0]] + rest)[0] == results[0];
        assert ([results[0]] + rest)[1..] == rest;
      } else {
        assert Block(results[0]) == Screen([], None);
        assert Prepend([], Blocks(results[1..])) == Blocks(results[1..]);
      }
    }
  }

  /** A completed result whose details hold no dictionary shows exactly one
      `k: v` line per detail, in order. */
  lemma {:induction false} FlatDetailsOneLineEach(details: Record)
    requires forall i :: 0 <= i < |details| ==> !details[i].value.Dict?
    ensures |CompletedLines(details)| == |details|
    ensures forall i :: 0 <= i < |details| ==>
      CompletedLines(details)[i] == details[i].key + ": " + Show(details[i].value)
    decreases |details|
  {
    if details != [] {
      FlatDetailsOneLineEach(details[1..]);
    }
  }

  /** A detail whose value is a dictionary shows one more line than that
      dictionary has entries; every line after the first is indented. */
  lemma NestedDetailIndented(e: Entry)
    requires e.value.Dict?
    ensures |DetailLines(e)| == |e.value.entries| + 1
    ensures DetailLines(e)[0] == e.key + ":"
    ensures forall i :: 1 <= i < |DetailLines(e)| ==> StartsWith(DetailLines(e)[i], "  ")
  {
    forall i | 1 <= i < |DetailLines(e)|
      ensures StartsWith(DetailLines(e)[i], "  ")
    {
      var sub := e.value.entries[i - 1];
      assert DetailLines(e)[i] == "  " + (sub.key + ": " + Show(sub.value));
    }
  }

  /** A result that did not complete shows a single line: its error when
      its details hold one, its status otherwise. */
  lemma OtherOutcome(fields: Record, status: Value)
    requires Get(fields, "status") == Some(status) && status != Str("completed")
    requires Get(fields, "details").None? || Get(fields, "details").value.Dict?
    ensures Outcome(fields).failure == None && |Outcome(fields).lines| == 1
    ensures StartsWith(Outcome(fields).lines[0], "Error: ") <==>
      Get(fields, "details").Some? && HasKey(Get(fields, "details").value.entries, "error")
  {
    var st := "Status: " + Show(status);
    assert st[..7] == "Status:";
    match Get(fields, "details")
    case None =>
      assert Outcome(fields).lines == [st];
    case Some(details) =>
      if HasKey(details.entries, "error") {
        GetSome(details.entries, "error");
        var line := "Error: " + Show(Get(details.entries, "error").value);
        assert Outcome(fields).lines == [line];
        assert line[..7] == "Error: ";
      } else {
        assert Outcome(fields).lines == [st];
      }
  }
}
