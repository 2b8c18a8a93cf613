/** The platform-dependent helpers of `utils.py` that decide something:
    file-name sanitising, the two DNS-server line parsers, the configuration
    and output directories, and the traceroute command line.  The platform
    is the parameter `windows` (what `platform.system() == "Windows"` says);
    environment variables and the home directory are parameters too. */
module Utils {
  import opened Values
  import opened Strings

  // ---------------------------------------------------------------------
  // sanitize_filename

  /** The characters a file name may not hold, in the order they are
      replaced. */
  const InvalidChars: string := "<>:\"/\\|?*"

  /** Names Windows reserves for devices. */
  const ReservedNames: set<string> :=
    {"CON", "PRN", "AUX", "NUL", "COM1", "COM2", "COM3", "COM4", "LPT1", "LPT2", "LPT3", "LPT4"}

  /** Every invalid character replaced by an underscore, the result of the
      replacement loop as a whole. */
  function Replaced(s: string): (r: string)
    ensures |r| == |s|
    ensures forall i :: 0 <= i < |s| ==> r[i] == if s[i] in InvalidChars then '_' else s[i]
  {
    seq(|s|, i requires 0 <= i < |s| => if s[i] in InvalidChars then '_' else s[i])
  }

  /** The text before the first '.', upper-cased: `name.split('.')[0].upper()`. */
  function Stem(s: string): string {
    Upper(Split(s, '.')[0])
  }

  /** The replacement loop: each invalid character in turn is replaced. */
  method ReplaceInvalid(filename: string) returns (r: string)
    ensures r == Replaced(filename)
  {
    r := filename;
    for k := 0 to |InvalidChars|
      invariant |r| == |filename|
      invariant forall i :: 0 <= i < |r| ==>
        r[i] == if filename[i] in InvalidChars[..k] then '_' else filename[i]
    {
      r := ReplaceChar(r, InvalidChars[k], '_');
      assert forall c :: c in InvalidChars[..k + 1] <==> c in InvalidChars[..k] || c == InvalidChars[k];
    }
    assert InvalidChars[..|InvalidChars|] == InvalidChars;
  }

  /** `sanitize_filename`: invalid characters become '_', and on Windows a
      name whose stem is a reserved device name gets a leading '_'. */
  method SanitizeFilename(filename: string, windows: bool) returns (r: string)
    ensures r == Sanitized(filename, windows)
  {
    r := ReplaceInvalid(filename);
    if windows {
      var stem := Upper(Split(r, '.')[0]);
      if stem in ReservedNames {
        r := "_" + r;
      }
    }
  }

  /** What `sanitize_filename` returns. */
  function Sanitized(filename: string, windows: bool): string {
    var replaced := Replaced(filename);
    if windows && Stem(replaced) in ReservedNames then "_" + replaced else replaced
  }

  /** No result holds an invalid character, on either platform. */
  lemma SanitizedIsValid(filename: string, windows: bool)
    ensures forall i :: 0 <= i < |Sanitized(filename, windows)| ==> Sanitized(filename, windows)[i] !in InvalidChars
  {
    var replaced := Replaced(filename);
    forall i | 0 <= i < |replaced| ensures replaced[i] !in InvalidChars {
    }
    if windows && Stem(replaced) in ReservedNames {
      var r := "_" + replaced;
      forall i | 0 <= i < |r| ensures r[i] !in InvalidChars {
        if i > 0 {
          assert r[i] == replaced[i - 1];
        }
      }
    }
  }

  /** Elsewhere than on Windows the name keeps its length and every valid
      character its position. */
  lemma SanitizedElsewhere(filename: string)
    ensures |Sanitized(filename, false)| == |filename|
    ensures forall i :: 0 <= i < |filename| && filename[i] !in InvalidChars ==>
      Sanitized(filename, false)[i] == filename[i]
    ensures forall i :: 0 <= i < |filename| && filename[i] in InvalidChars ==>
      Sanitized(filename, false)[i] == '_'
  {
  }

  /** On Windows, the underscore is prefixed exactly when the stem of the
      replaced name is reserved. */
  lemma SanitizedOnWindows(filename: string)
    ensures var replaced := Replaced(filename);
      (Stem(replaced) in ReservedNames <==> Sanitized(filename, true) == "_" + replaced) &&
      (Stem(replaced) !in ReservedNames <==> Sanitized(filename, true) == replaced)
  {
    var replaced := Replaced(filename);
    assert |"_" + replaced| != |replaced|;
  }

  /** A name that starts with '_' has a stem that starts with '_', which no
      reserved name does. */
  lemma UnderscoreStemNotReserved(s: string)
    requires |s| > 0 && s[0] == '_'
    ensures Stem(s) !in ReservedNames
  {
    StemStarts(s, '.');
    assert Stem(s)[0] == '_';
  }

  /** The first piece of a split starts with the first character of the
      text, unless that character is the separator. */
  lemma StemStarts(s: string, sep: char)
    requires |s| > 0 && s[0] != sep
    ensures |Split(s, sep)[0]| > 0 && Split(s, sep)[0][0] == s[0]
  {
  }

  /** Replacing is idempotent. */
  lemma ReplacedIdempotent(s: string)
    ensures Replaced(Replaced(s)) == Replaced(s)
  {
    var r := Replaced(s);
    assert '_' !in InvalidChars;
    assert forall i :: 0 <= i < |r| ==> r[i] !in InvalidChars;
  }

  /** Sanitising twice gives what sanitising once gives, on both platforms. */
  lemma SanitizedIdempotent(filename: string, windows: bool)
    ensures Sanitized(Sanitized(filename, windows), windows) == Sanitized(filename, windows)
  {
    var replaced := Replaced(filename);
    ReplacedIdempotent(filename);
    if windows && Stem(replaced) in ReservedNames {
      var once := "_" + replaced;
      assert '_' !in InvalidChars;
      forall i | 0 <= i < |once| ensures once[i] !in InvalidChars {
        if i > 0 {
          assert once[i] == replaced[i - 1];
        }
      }
      assert Replaced(once) == once;
      UnderscoreStemNotReserved(once);
    }
  }

  // ---------------------------------------------------------------------
  // get_dns_servers

  /** The resolv.conf half of `get_dns_servers`: the lines of the file (or the
      failure to open or read it).  The second whitespace-separated token of
      every line starting with "nameserver" is kept; a line that has no
      second token raises IndexError, and any failure yields []. */
  method ResolvConfServers(file: Attempt<seq<string>>) returns (servers: seq<string>)
    ensures servers == ResolvConf(file)
  {
    if file.Raised? {
      return [];
    }
    var lines := file.value;
    servers := [];
    for i := 0 to |lines|
      invariant NameserverOk(lines[..i]) == Ok(servers)
    {
      NameserverAt(lines, i);
      if StartsWith(lines[i], "nameserver") {
        var tokens := Words(lines[i]);
        if |tokens| < 2 {
          NameserverStuck(lines, i);
          return [];
        }
        servers := servers + [Strip(tokens[1])];
      }
    }
    assert lines[..|lines|] == lines;
  }

  /** Whether a resolv.conf line names a server, and then which. */
  function LineServer(line: string): (r: Result<Option<string>, string>)
    ensures r.Ok? && r.value.Some? ==> |Words(line)| >= 2 && r.value.value == Words(line)[1]
    ensures r.Err? ==> |Words(line)| < 2
  {
    if !StartsWith(line, "nameserver") then Ok(None)
    else if |Words(line)| < 2 then Err("list index out of range")
    else
      var token := Words(line)[1];
      StripUnpadded(token);
      Ok(Some(Strip(token)))
  }

  /** The servers of the lines, or the IndexError of the first line that
      names none. */
  function NameserverOk(lines: seq<string>): Result<seq<string>, string>
    decreases |lines|
  {
    if lines == [] then Ok([])
    else
      match NameserverOk(lines[..|lines| - 1])
      case Err(e) => Err(e)
      case Ok(earlier) =>
        match LineServer(lines[|lines| - 1])
        case Err(e) => Err(e)
        case Ok(None) => Ok(earlier)
        case Ok(Some(s)) => Ok(earlier + [s])
  }

  lemma NameserverAppend(lines: seq<string>, line: string)
    ensures NameserverOk(lines + [line]) ==
      match NameserverOk(lines)
      case Err(e) => Err(e)
      case Ok(earlier) =>
        match LineServer(line)
        case Err(e) => Err(e)
        case Ok(None) => Ok(earlier)
        case Ok(Some(s)) => Ok(earlier + [s])
  {
    assert (lines + [line])[..|lines + [line]| - 1] == lines;
  }

  lemma {:induction false} NameserverStuck(lines: seq<string>, i: nat)
    requires i < |lines| && LineServer(lines[i]).Err?
    ensures NameserverOk(lines).Err?
    decreases |lines|
  {
    if i < |lines| - 1 {
      NameserverStuck(lines[..|lines| - 1], i);
    }
  }

  lemma NameserverAt(lines: seq<string>, i: nat)
    requires i < |lines|
    ensures NameserverOk(lines[..i + 1]) ==
      match NameserverOk(lines[..i])
      case Err(e) => Err(e)
      case Ok(earlier) =>
        match LineServer(lines[i])
        case Err(e) => Err(e)
        case Ok(None) => Ok(earlier)
        case Ok(Some(s)) => Ok(earlier + [s])
  {
    assert lines[..i + 1] == lines[..i] + [lines[i]];
    NameserverAppend(lines[..i], lines[i]);
  }

  /** What the resolv.conf branch returns. */
  function ResolvConf(file: Attempt<seq<string>>): seq<string> {
    if file.Raised? then []
    else
      match NameserverOk(file.value)
      case Err(_) => []
      case Ok(servers) => servers
  }

  /** The parser keeps, in order, the second token of each "nameserver"
      line, and a file with a bare "nameserver" line yields nothing at
      all rather than the servers before it. */
  lemma {:induction false} ResolvConfStates(lines: seq<string>) returns (idx: seq<nat>)
    ensures NameserverOk(lines).Ok? <==>
      forall i :: 0 <= i < |lines| && StartsWith(lines[i], "nameserver") ==> |Words(lines[i])| >= 2
    ensures NameserverOk(lines).Ok? ==>
      forall s :: s in NameserverOk(lines).value ==>
        exists i :: 0 <= i < |lines| && StartsWith(lines[i], "nameserver") && s == Strip(Words(lines[i])[1])
    ensures NameserverOk(lines).Ok? ==>
      NameserverIndex(lines, NameserverOk(lines).value, idx)
    decreases |lines|
  {
    if lines != [] {
      var init := lines[..|lines| - 1];
      var _ := ResolvConfStates(init);
      forall i | 0 <= i < |init| ensures init[i] == lines[i] { }
    }
    idx := NameserverLines(lines);
  }

  /** A line the resolv.conf loop takes a server from. */
  predicate IsNameserverLine(line: string) {
    StartsWith(line, "nameserver")
  }

  /** `servers` are the stripped second tokens of the "nameserver" lines,
      in order: `idx` lists those lines' positions, increasing, one per
      server, and misses none of them. */
  predicate NameserverIndex(lines: seq<string>, servers: seq<string>, idx: seq<nat>) {
    && |idx| == |servers| && Increasing(idx)
    && (forall k :: 0 <= k < |idx| ==>
          (idx[k] < |lines| && IsNameserverLine(lines[idx[k]]) &&
           |Words(lines[idx[k]])| >= 2 && servers[k] == Strip(Words(lines[idx[k]])[1])))
    && (forall i :: 0 <= i < |lines| && IsNameserverLine(lines[i]) ==> i in idx)
  }

  /** When the parse succeeds, the servers are, in file order, the stripped
      second tokens of exactly the "nameserver" lines: `idx` lists those
      lines' positions, increasing, one per server. */
  lemma {:induction false} NameserverLines(lines: seq<string>) returns (idx: seq<nat>)
    ensures NameserverOk(lines).Ok? ==>
      NameserverIndex(lines, NameserverOk(lines).value, idx)
    decreases |lines|
  {
    if lines == [] {
      idx := [];
    } else {
      var earlier := NameserverLines(lines[..|lines| - 1]);
      idx := NameserverLastIndex(lines, earlier);
    }
  }

  /** The positions for `lines`, from those for all but its last line. */
  lemma NameserverLastIndex(lines: seq<string>, earlier: seq<nat>) returns (idx: seq<nat>)
    requires lines != []
    requires var init := lines[..|lines| - 1];
      NameserverOk(init).Ok? ==>
      NameserverIndex(init, NameserverOk(init).value, earlier)
    ensures NameserverOk(lines).Ok? ==>
      NameserverIndex(lines, NameserverOk(lines).value, idx)
  {
    var n := |lines| - 1;
    var init := lines[..n];
    idx := if IsNameserverLine(lines[n]) then earlier + [n] else earlier;
    if NameserverOk(lines).Ok? {
      assert lines[..n + 1] == lines;
      NameserverAt(lines, n);
      var before := NameserverOk(init).value;
      match LineServer(lines[n])
      case Ok(None) =>
        NameserverIndexAppend(lines, before, [], earlier, idx);
      case Ok(Some(server)) =>
        NameserverIndexAppend(lines, before, [server], earlier, idx);
    }
  }

  /** One more line extends the index by its position exactly when it is
      a "nameserver" line. */
  lemma NameserverIndexAppend(lines: seq<string>, before: seq<string>, last: seq<string>,
                              earlier: seq<nat>, idx: seq<nat>)
    requires lines != []
    requires NameserverIndex(lines[..|lines| - 1], before, earlier)
    requires IsNameserverLine(lines[|lines| - 1]) ==>
      |Words(lines[|lines| - 1])| >= 2 && last == [Strip(Words(lines[|lines| - 1])[1])] && idx == earlier + [|lines| - 1]
    requires !IsNameserverLine(lines[|lines| - 1]) ==> last == [] && idx == earlier
    ensures NameserverIndex(lines, before + last, idx)
  {
    var n := |lines| - 1;
    var init := lines[..n];
    var servers := before + last;
    if idx != earlier {
      AppendIncreasing(earlier, n);
    }
    forall k | 0 <= k < |idx|
      ensures idx[k] < |lines| && IsNameserverLine(lines[idx[k]]) &&
              |Words(lines[idx[k]])| >= 2 && servers[k] == Strip(Words(lines[idx[k]])[1])
    {
      if k < |earlier| {
        assert init[earlier[k]] == lines[idx[k]];
      }
    }
    forall i | 0 <= i < |lines| && IsNameserverLine(lines[i]) ensures i in idx {
      if i < n {
        assert init[i] == lines[i];
      }
    }
  }

  /** A line of `ipconfig /all` output with a DNS server on it. */
  predicate IsDnsServersLine(line: string) {
    Contains(line, "DNS Servers")
  }

  /** The text after the last ':' of a line, stripped: `line.split(":")[-1].strip()`. */
  function AfterLastColon(line: string): string {
    var parts := Split(line, ':');
    Strip(parts[|parts| - 1])
  }

  /** The Windows half of `get_dns_servers`: the exit code and output of
      `ipconfig /all`, and the way an address is cut out of a "DNS Servers"
      line (`AfterLastColon` as written, `AfterFirstColon` corrected). */
  method IpconfigServers(code: int, out: string, extract: string -> string) returns (servers: seq<string>)
    ensures servers == Ipconfig(code, out, extract)
  {
    servers := [];
    if code != 0 {
      return;
    }
    var lines := Split(out, '\n');
    for i := 0 to |lines|
      invariant servers == Pick(lines[..i], extract)
    {
      PickAt(lines, i, extract);
      if IsDnsServersLine(lines[i]) {
        var server := extract(lines[i]);
        if server != "" {
          servers := servers + [server];
        }
      }
    }
    assert lines[..|lines|] == lines;
  }

  /** The non-empty servers `extract` takes from the DNS-server lines, in
      order. */
  function Pick(lines: seq<string>, extract: string -> string): (servers: seq<string>)
    ensures forall s :: s in servers ==> s != ""
    decreases |lines|
  {
    if lines == [] then []
    else
      var earlier := Pick(lines[..|lines| - 1], extract);
      var line := lines[|lines| - 1];
      if IsDnsServersLine(line) && extract(line) != "" then earlier + [extract(line)] else earlier
  }

  lemma PickAppend(lines: seq<string>, line: string, extract: string -> string)
    ensures Pick(lines + [line], extract) ==
      if IsDnsServersLine(line) && extract(line) != "" then Pick(lines, extract) + [extract(line)]
      else Pick(lines, extract)
  {
    assert (lines + [line])[..|lines + [line]| - 1] == lines;
  }

  lemma PickAt(lines: seq<string>, i: nat, extract: string -> string)
    requires i < |lines|
    ensures Pick(lines[..i + 1], extract) ==
      if IsDnsServersLine(lines[i]) && extract(lines[i]) != "" then Pick(lines[..i], extract) + [extract(lines[i])]
      else Pick(lines[..i], extract)
  {
    assert lines[..i + 1] == lines[..i] + [lines[i]];
    PickAppend(lines[..i], lines[i], extract);
  }

  function Ipconfig(code: int, out: string, extract: string -> string): seq<string> {
    if code != 0 then [] else Pick(Split(out, '\n'), extract)
  }

  /** Every server reported comes from a "DNS Servers" line, and a failed
      command reports none. */
  lemma {:induction false} IpconfigStates(code: int, out: string, extract: string -> string) returns (idx: seq<nat>)
    ensures code != 0 ==> Ipconfig(code, out, extract) == []
    ensures forall s :: s in Ipconfig(code, out, extract) ==>
      exists line :: line in Split(out, '\n') && IsDnsServersLine(line) && s == extract(line)
    ensures code == 0 ==> PickIndex(Split(out, '\n'), extract, Ipconfig(code, out, extract), idx)
  {
    idx := [];
    if code == 0 {
      PickFrom(Split(out, '\n'), extract);
      idx := PickLines(Split(out, '\n'), extract);
    }
  }

  /** `servers` are the extractions of the "DNS Servers" lines whose
      extraction is not empty, in order: `idx` lists those lines'
      positions, increasing, one per server, and misses none of them. */
  predicate PickIndex(lines: seq<string>, extract: string -> string, servers: seq<string>, idx: seq<nat>) {
    && |idx| == |servers| && Increasing(idx)
    && (forall k :: 0 <= k < |idx| ==>
          (idx[k] < |lines| && IsDnsServersLine(lines[idx[k]]) && servers[k] == extract(lines[idx[k]])))
    && (forall i :: 0 <= i < |lines| && IsDnsServersLine(lines[i]) && extract(lines[i]) != "" ==> i in idx)
  }

  /** The servers are, in output order, the extractions of exactly the
      "DNS Servers" lines whose extraction is not empty. */
  lemma {:induction false} PickLines(lines: seq<string>, extract: string -> string) returns (idx: seq<nat>)
    ensures PickIndex(lines, extract, Pick(lines, extract), idx)
    decreases |lines|
  {
    if lines == [] {
      idx := [];
    } else {
      var n := |lines| - 1;
      var earlier := PickLines(lines[..n], extract);
      idx := if IsDnsServersLine(lines[n]) && extract(lines[n]) != "" then earlier + [n] else earlier;
      PickAt(lines, n, extract);
      assert lines[..n + 1] == lines;
      PickIndexAppend(lines, extract, Pick(lines[..n], extract), earlier, idx);
    }
  }

  /** One more line extends the index by its position exactly when it
      yields a server. */
  lemma PickIndexAppend(lines: seq<string>, extract: string -> string, before: seq<string>,
                        earlier: seq<nat>, idx: seq<nat>)
    requires lines != []
    requires PickIndex(lines[..|lines| - 1], extract, before, earlier)
    requires var line := lines[|lines| - 1];
      idx == if IsDnsServersLine(line) && extract(line) != "" then earlier + [|lines| - 1] else earlier
    ensures var line := lines[|lines| - 1];
      PickIndex(lines, extract, if IsDnsServersLine(line) && extract(line) != "" then before + [extract(line)] else before, idx)
  {
    var n := |lines| - 1;
    var init := lines[..n];
    var servers := if IsDnsServersLine(lines[n]) && extract(lines[n]) != "" then before + [extract(lines[n])] else before;
    if idx != earlier {
      AppendIncreasing(earlier, n);
    }
    forall k | 0 <= k < |idx|
      ensures idx[k] < |lines| && IsDnsServersLine(lines[idx[k]]) && servers[k] == extract(lines[idx[k]])
    {
      if k < |earlier| {
        assert init[earlier[k]] == lines[idx[k]];
      }
    }
    forall i | 0 <= i < |lines| && IsDnsServersLine(lines[i]) && extract(lines[i]) != "" ensures i in idx {
      if i < n {
        assert init[i] == lines[i];
      }
    }
  }

  lemma {:induction false} PickFrom(lines: seq<string>, extract: string -> string)
    ensures forall s :: s in Pick(lines, extract) ==>
      exists line :: line in lines && IsDnsServersLine(line) && s == extract(line)
    decreases |lines|
  {
    if lines != [] {
      var init := lines[..|lines| - 1];
      PickFrom(init, extract);
      assert forall line :: line in init ==> line in lines;
      assert lines[|lines| - 1] in lines;
    }
  }

  /** A line whose address holds a colon yields only the text after the
      address's last colon. */
  lemma AfterLastColonCutsAddress(caption: string, head: string, tail: string)
    requires ':' !in tail
    ensures AfterLastColon(caption + ":" + head + ":" + tail) == Strip(tail)
  {
    var pre := caption + ":" + head + ":";
    assert caption + ":" + head + ":" + tail == pre + tail;
    assert (pre + tail)[|pre| - 1] == ':';
    assert (pre + tail)[|pre|..] == tail;
    AfterLastColonAt(pre + tail, |pre| - 1, tail);
  }

  /** A line whose last colon is at `k` yields the text after `k`. */
  lemma AfterLastColonAt(line: string, k: nat, tail: string)
    requires k < |line| && line[k] == ':' && line[k + 1..] == tail && ':' !in tail
    ensures AfterLastColon(line) == Strip(tail)
  {
    SplitEnds(line, ':', k, tail);
  }

  /** An `ipconfig` line naming an IPv6 server. */
  const Ipv6Line := "DNS Servers : fec0::1"

  lemma AfterLastColonOnIpv6()
    ensures AfterLastColon(Ipv6Line) == "1"
  {
    Ipv6LineEnd();
    AfterLastColonAt(Ipv6Line, 19, "1");
    StripOne();
  }

  /** The IPv6 line's last colon sits before its final "1". */
  lemma Ipv6LineEnd()
    ensures |Ipv6Line| == 21 && Ipv6Line[19] == ':' && Ipv6Line[20..] == "1" && ':' !in "1"
  {
  }

  lemma StripOne()
    ensures Strip("1") == "1"
  {
    StripUnpadded("1");
  }

  /** The last piece of a split is the text after the last separator. */
  lemma {:induction false} SplitEnds(s: string, sep: char, k: nat, tail: string)
    requires k < |s| && s[k] == sep && s[k + 1..] == tail && sep !in tail
    ensures var parts := Split(s, sep); parts[|parts| - 1] == tail
    decreases k
  {
    if k > 0 {
      SplitEnds(s[1..], sep, k - 1, tail);
      JoinSplit(s[1..], sep);
    } else {
      assert s[1..] == tail;
      SplitNoSep(tail, sep);
    }
  }

  /** The text after the first ':', stripped: the whole address, colons and
      all. */
  function AfterFirstColon(line: string): string {
    var parts := Split(line, ':');
    if |parts| == 1 then Strip(parts[0]) else Strip(Join(parts[1..], ':'))
  }

  /** With the address taken after the first colon, a "caption : address"
      line yields the address whole. */
  lemma AfterFirstColonKeepsAddress(caption: string, address: string)
    requires ':' !in caption
    ensures AfterFirstColon(caption + ":" + address) == Strip(address)
  {
    SplitPrefix(caption, address, ':');
    assert caption + ":" + address == caption + [':'] + address;
    assert ([caption] + Split(address, ':'))[1..] == Split(address, ':');
    JoinSplit(address, ':');
  }

  lemma AfterFirstColonOnIpv6()
    ensures AfterFirstColon(Ipv6Line) == "fec0::1"
  {
    assert Ipv6Line == "DNS Servers " + ":" + " fec0::1";
    AfterFirstColonKeepsAddress("DNS Servers ", " fec0::1");
    StripIpv6Address();
  }

  lemma StripIpv6Address()
    ensures Strip(" fec0::1") == "fec0::1"
  {
    var address, bare := " fec0::1", "fec0::1";
    assert TrimEnd(address) == address by {
      assert address[|address| - 1] == '1';
    }
    assert TrimStart(address) == TrimStart(bare) by {
      assert IsSpace(address[0]);
      assert address[1..] == bare;
    }
    assert TrimStart(bare) == bare by {
      assert bare[0] == 'f';
    }
  }

  // ---------------------------------------------------------------------
  // Directories and commands

  /** A path, as its components; `Path(a) / "b"` appends one. */
  type Path = seq<string>

  /** `get_config_dir`.  `env` holds the environment variables and `home`
      the user's home directory. */
  function ConfigDir(windows: bool, env: map<string, string>, home: string): (p: Path)
    ensures |p| >= 2
    ensures p[|p| - 1] == if windows then "LumaDiagnostics" else "luma-diagnostics"
  {
    if windows then
      [if "APPDATA" in env && env["APPDATA"] != "" then env["APPDATA"] else home, "LumaDiagnostics"]
    else if "XDG_CONFIG_HOME" in env && env["XDG_CONFIG_HOME"] != "" then
      [env["XDG_CONFIG_HOME"], "luma-diagnostics"]
    else
      [home, ".config", "luma-diagnostics"]
  }

  /** The base directory `get_config_dir` picks, in order of priority. */
  lemma ConfigDirBase(windows: bool, env: map<string, string>, home: string)
    ensures var p := ConfigDir(windows, env, home);
      (windows ==> p[0] == (if "APPDATA" in env && env["APPDATA"] != "" then env["APPDATA"] else home)) &&
      (!windows && "XDG_CONFIG_HOME" in env && env["XDG_CONFIG_HOME"] != "" ==> p[..|p| - 1] == [env["XDG_CONFIG_HOME"]]) &&
      (!windows && !("XDG_CONFIG_HOME" in env && env["XDG_CONFIG_HOME"] != "") ==> p[..|p| - 1] == [home, ".config"])
  {
  }

  /** `get_default_output_dir`: the "results" directory inside the
      configuration directory. */
  function DefaultOutputDir(windows: bool, env: map<string, string>, home: string): (p: Path)
    ensures |p| >= 3 && p[..|p| - 1] == ConfigDir(windows, env, home) && p[|p| - 1] == "results"
  {
    ConfigDir(windows, env, home) + ["results"]
  }

  /** `get_traceroute_command`: at most 30 hops, numeric output, the host
      last. */
  function TracerouteCommand(windows: bool, host: string): (cmd: seq<string>)
    ensures |cmd| == 5 && cmd[4] == host && cmd[3] == "30"
    ensures cmd[0] == if windows then "tracert" else "traceroute"
  {
    if windows then ["tracert", "-d", "-h", "30", host] else ["traceroute", "-n", "-m", "30", host]
  }
}
