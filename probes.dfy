/** The deterministic part of the individual probes in `tests.py`.  Every
    network call a probe makes is an `Attempt` parameter (what the call
    returned, or the text of the exception it raised), so each probe here is
    what the code does with those outcomes. */
module Probes {
  import opened Values
  import Strings
  import Jpeg

  // ---------------------------------------------------------------------
  // Public Access

  function PublicAccessRecord(url: string, dns: bool, reachable: bool, info: string): Record {
    [Entry("test_name", Str("Public Access")), Entry("url", Str(url)),
     Entry("dns_resolved", Bool(dns)), Entry("reachable", Bool(reachable)),
     Entry("info", Str(info))]
  }

  /** `test_public_access`.  `resolve` is the outcome of resolving the URL's
      host name (a failure to parse the URL raises there too); `get` is the
      status code of the GET request or its exception.  `requested` says
      whether the GET request was issued at all. */
  method PublicAccess(url: string, resolve: Attempt<string>, get: Attempt<int>)
    returns (r: Record, requested: bool)
    ensures requested <==> resolve.Returned?
    ensures resolve.Raised? ==>
      r == PublicAccessRecord(url, false, false, "DNS resolution failed: " + resolve.message)
    ensures resolve.Returned? && get == Returned(200) ==> r == PublicAccessRecord(url, true, true, "")
    ensures resolve.Returned? && get.Returned? && get.value != 200 ==>
      r == PublicAccessRecord(url, true, false, "Received status " + Strings.IntToString(get.value) + ".")
    ensures resolve.Returned? && get.Raised? ==>
      r == PublicAccessRecord(url, true, false, "HTTP GET failed: " + get.message)
  {
    r := PublicAccessRecord(url, false, false, "");
    requested := false;
    if resolve.Raised? {
      var info := "DNS resolution failed: " + resolve.message;
      PutPublicInfo(url, false, false, "", info);
      r := Set(r, "info", Str(info));
      return;
    }
    PutDnsResolved(url, false, false, "", true);
    r := Set(r, "dns_resolved", Bool(true));
    requested := true;
    match get
    case Returned(status) =>
      if status == 200 {
        PutReachable(url, true, false, "", true);
        r := Set(r, "reachable", Bool(true));
      } else {
        var info := "Received status " + Strings.IntToString(status) + ".";
        PutPublicInfo(url, true, false, "", info);
        r := Set(r, "info", Str(info));
      }
    case Raised(e) =>
      var info := "HTTP GET failed: " + e;
      PutPublicInfo(url, true, false, "", info);
      r := Set(r, "info", Str(info));
  }

  /** Assigning `dns_resolved` of a Public Access record. */
  lemma PutDnsResolved(url: string, dns: bool, reachable: bool, info: string, b: bool)
    ensures Set(PublicAccessRecord(url, dns, reachable, info), "dns_resolved", Bool(b)) ==
      PublicAccessRecord(url, b, reachable, info)
  {
    SetExisting(PublicAccessRecord(url, dns, reachable, info), 2, Bool(b));
  }

  /** Assigning `reachable` of a Public Access record. */
  lemma PutReachable(url: string, dns: bool, reachable: bool, info: string, b: bool)
    ensures Set(PublicAccessRecord(url, dns, reachable, info), "reachable", Bool(b)) ==
      PublicAccessRecord(url, dns, b, info)
  {
    SetExisting(PublicAccessRecord(url, dns, reachable, info), 3, Bool(b));
  }

  /** Assigning `info` of a Public Access record. */
  lemma PutPublicInfo(url: string, dns: bool, reachable: bool, info: string, s: string)
    ensures Set(PublicAccessRecord(url, dns, reachable, info), "info", Str(s)) ==
      PublicAccessRecord(url, dns, reachable, s)
  {
    SetExisting(PublicAccessRecord(url, dns, reachable, info), 4, Str(s));
  }

  /** The Public Access record says the host is reachable exactly when the
      name resolved and the GET request answered with status 200, and a
      failed resolution reports nothing reachable whatever the GET would have
      returned. */
  lemma PublicAccessReachable(url: string, dns: bool, reachable: bool, info: string)
    ensures Get(PublicAccessRecord(url, dns, reachable, info), "dns_resolved") == Some(Bool(dns))
    ensures Get(PublicAccessRecord(url, dns, reachable, info), "reachable") == Some(Bool(reachable))
    ensures Keys(PublicAccessRecord(url, dns, reachable, info)) ==
      ["test_name", "url", "dns_resolved", "reachable", "info"]
  {
    var r := PublicAccessRecord(url, dns, reachable, info);
    GetFirst(r, 2);
    GetFirst(r, 3);
  }

  // ---------------------------------------------------------------------
  // Image Validity

  function ImageValidityRecord(url: string, signature: bool, info: string): Record {
    [Entry("test_name", Str("Image Validity")), Entry("url", Str(url)),
     Entry("is_jpeg_signature", Bool(signature)), Entry("info", Str(info))]
  }

  const NotJpeg := "Does not match JPEG signature. Possibly another format or corrupted."

  /** `test_image_validity`.  `fetch` is the body of the GET response. */
  method ImageValidity(url: string, fetch: Attempt<seq<byte>>) returns (r: Record)
    ensures fetch.Raised? ==>
      r == ImageValidityRecord(url, false, "Could not retrieve or parse image: " + fetch.message)
    ensures fetch.Returned? && Jpeg.IsJpegSignature(fetch.value) ==> r == ImageValidityRecord(url, true, "")
    ensures fetch.Returned? && !Jpeg.IsJpegSignature(fetch.value) ==> r == ImageValidityRecord(url, false, NotJpeg)
  {
    r := ImageValidityRecord(url, false, "");
    match fetch
    case Raised(e) =>
      var info := "Could not retrieve or parse image: " + e;
      PutImageInfo(url, false, "", info);
      r := Set(r, "info", Str(info));
    case Returned(data) =>
      if |data| > 4 && data[0] == 0xFF && data[1] == 0xD8 && data[|data| - 2] == 0xFF && data[|data| - 1] == 0xD9 {
        PutSignature(url, false, "", true);
        r := Set(r, "is_jpeg_signature", Bool(true));
      } else {
        PutImageInfo(url, false, "", NotJpeg);
        r := Set(r, "info", Str(NotJpeg));
      }
  }

  /** Assigning `is_jpeg_signature` of an Image Validity record. */
  lemma PutSignature(url: string, signature: bool, info: string, b: bool)
    ensures Set(ImageValidityRecord(url, signature, info), "is_jpeg_signature", Bool(b)) ==
      ImageValidityRecord(url, b, info)
  {
    SetExisting(ImageValidityRecord(url, signature, info), 2, Bool(b));
  }

  /** Assigning `info` of an Image Validity record. */
  lemma PutImageInfo(url: string, signature: bool, info: string, s: string)
    ensures Set(ImageValidityRecord(url, signature, info), "info", Str(s)) ==
      ImageValidityRecord(url, signature, s)
  {
    SetExisting(ImageValidityRecord(url, signature, info), 3, Str(s));
  }

  /** A body too short to hold SOI, one byte and EOI never passes. */
  lemma ShortBodyIsNotJpeg(data: seq<byte>)
    requires |data| <= 4
    ensures !Jpeg.IsJpegSignature(data)
  {
  }

  // ---------------------------------------------------------------------
  // Rate Limit

  /** A response that arrived: its status code and its body (the decoded
      JSON, or the raw text when the body is not JSON). */
  datatype Reply = Reply(status: int, body: Value)

  /** The record kept for attempt number `n`. */
  function AttemptRecord(n: int, outcome: Attempt<Reply>): Value {
    match outcome
    case Returned(reply) =>
      Dict([Entry("attempt", Int(n)), Entry("status_code", Int(reply.status)), Entry("body", reply.body)])
    case Raised(e) =>
      Dict([Entry("attempt", Int(n)), Entry("status_code", Null),
            Entry("body", Str("Connection/Request Error: " + e))])
  }

  function RateLimitRecord(apiUrl: string, attempts: int, responses: seq<Value>): Record {
    [Entry("test_name", Str("Rate Limit Test")), Entry("endpoint", Str(apiUrl)),
     Entry("num_attempts", Int(attempts)), Entry("responses", List(responses)), Entry("info", Str(""))]
  }

  /** `range(attempts)` has no element when `attempts` is not positive. */
  function Count(attempts: int): nat {
    if attempts > 0 then attempts else 0
  }

  /** `test_rate_limit`.  `post(i)` is the outcome of the `i`-th POST request
      (counting from 0); the pause between requests is not modelled. */
  method RateLimit(apiUrl: string, attempts: int, post: nat -> Attempt<Reply>) returns (r: Record)
    ensures |r| == 5 && r[3].value.List? && r == RateLimitRecord(apiUrl, attempts, r[3].value.items)
    ensures |r[3].value.items| == Count(attempts)
    ensures forall i :: 0 <= i < Count(attempts) ==> r[3].value.items[i] == AttemptRecord(i + 1, post(i))
  {
    var responses: seq<Value> := [];
    for i := 0 to Count(attempts)
      invariant |responses| == i
      invariant forall j :: 0 <= j < i ==> responses[j] == AttemptRecord(j + 1, post(j))
    {
      var info := AttemptRecord(i + 1, post(i));
      responses := responses + [info];
    }
    r := RateLimitRecord(apiUrl, attempts, responses);
  }

  /** Each attempt record carries its number, the status code when a
      response arrived and None otherwise, and the error text as its body
      when the request failed. */
  lemma AttemptRecordFields(n: int, outcome: Attempt<Reply>)
    ensures var d := AttemptRecord(n, outcome).entries;
      && Keys(d) == ["attempt", "status_code", "body"]
      && Get(d, "attempt") == Some(Int(n))
      && (outcome.Raised? ==>
            Get(d, "status_code") == Some(Null) &&
            Get(d, "body") == Some(Str("Connection/Request Error: " + outcome.message)))
      && (outcome.Returned? ==>
            Get(d, "status_code") == Some(Int(outcome.value.status)) &&
            Get(d, "body") == Some(outcome.value.body))
  {
    var d := AttemptRecord(n, outcome).entries;
    GetFirst(d, 1);
    GetFirst(d, 2);
  }

  // ---------------------------------------------------------------------
  // API Authentication

  /** The record a probe returns when the code around its request raised. */
  function ErrorRecord(name: string, url: string, error: string, info: string): Record {
    [Entry("test_name", Str(name)), Entry("url", Str(url)), Entry("error", Str(error)), Entry("info", Str(info))]
  }

  /** `test_api_auth`.  `get` is the status code of the authenticated GET
      request, or its exception. */
  function ApiAuth(apiUrl: string, token: Value, get: Attempt<int>): (r: Record)
    ensures |r| >= 3 && r[0] == Entry("test_name", Str("API Authentication")) && r[1] == Entry("url", Str(apiUrl))
    ensures r[|r| - 1].key == "info"
  {
    if !Truthy(token) then
      [Entry("test_name", Str("API Authentication")), Entry("url", Str(apiUrl)),
       Entry("info", Str("No bearer token provided"))]
    else
      match get
      case Returned(status) =>
        [Entry("test_name", Str("API Authentication")), Entry("url", Str(apiUrl)),
         Entry("status_code", Int(status)), Entry("authenticated", Bool(status != 401)),
         Entry("info", Str("Authentication " + (if status != 401 then "successful" else "failed")))]
      case Raised(e) =>
        ErrorRecord("API Authentication", apiUrl, e, "Failed to verify authentication")
  }

  /** Without a token no request is made and the record has neither
      `status_code` nor `authenticated`; with one, `authenticated` holds
      exactly when the status is not 401, and the info text agrees. */
  lemma ApiAuthShape(apiUrl: string, token: Value, get: Attempt<int>)
    ensures var r := ApiAuth(apiUrl, token, get);
      && (!Truthy(token) ==>
            Keys(r) == ["test_name", "url", "info"] &&
            Get(r, "info") == Some(Str("No bearer token provided")))
      && (Truthy(token) && get.Returned? ==>
            && Keys(r) == ["test_name", "url", "status_code", "authenticated", "info"]
            && Get(r, "status_code") == Some(Int(get.value))
            && Get(r, "authenticated") == Some(Bool(get.value != 401))
            && Get(r, "info") == Some(Str(if get.value != 401 then "Authentication successful"
                                          else "Authentication failed")))
      && (Truthy(token) && get.Raised? ==>
            && Keys(r) == ["test_name", "url", "error", "info"]
            && Get(r, "error") == Some(Str(get.message)))
  {
    if !Truthy(token) {
      ApiAuthWithoutToken(apiUrl, token, get);
    } else if get.Returned? {
      ApiAuthAnswered(apiUrl, token, get.value);
    } else {
      var r := ApiAuth(apiUrl, token, get);
      assert forall i :: 0 <= i < 4 ==> Keys(r)[i] == r[i].key;
      GetFirst(r, 2);
    }
  }

  lemma ApiAuthWithoutToken(apiUrl: string, token: Value, get: Attempt<int>)
    requires !Truthy(token)
    ensures Keys(ApiAuth(apiUrl, token, get)) == ["test_name", "url", "info"]
    ensures Get(ApiAuth(apiUrl, token, get), "info") == Some(Str("No bearer token provided"))
  {
    var r := ApiAuth(apiUrl, token, get);
    assert forall i :: 0 <= i < 3 ==> Keys(r)[i] == r[i].key;
    GetFirst(r, 2);
  }

  lemma ApiAuthAnswered(apiUrl: string, token: Value, status: int)
    requires Truthy(token)
    ensures var r := ApiAuth(apiUrl, token, Returned(status));
      && Keys(r) == ["test_name", "url", "status_code", "authenticated", "info"]
      && Get(r, "status_code") == Some(Int(status))
      && Get(r, "authenticated") == Some(Bool(status != 401))
      && Get(r, "info") == Some(Str(if status != 401 then "Authentication successful" else "Authentication failed"))
  {
    var r := ApiAuth(apiUrl, token, Returned(status));
    assert forall i :: 0 <= i < 5 ==> Keys(r)[i] == r[i].key;
    GetFirst(r, 2);
    GetFirst(r, 3);
    GetFirst(r, 4);
    AuthenticationInfo();
  }

  lemma AuthenticationInfo()
    ensures "Authentication " + "successful" == "Authentication successful"
    ensures "Authentication " + "failed" == "Authentication failed"
  {
  }

  /** Only a falsy token suppresses the request. */
  lemma ApiAuthStatusIffToken(apiUrl: string, token: Value, get: Attempt<int>)
    ensures HasKey(ApiAuth(apiUrl, token, get), "status_code") <==> Truthy(token) && get.Returned?
  {
    var r := ApiAuth(apiUrl, token, get);
    ApiAuthShape(apiUrl, token, get);
    GetSome(r, "status_code");
  }

  // ---------------------------------------------------------------------
  // Proxy Detection

  /** The six headers the probe looks at, in the order it looks. */
  const ProbedHeaders: seq<string> := ["x-forwarded-for", "x-real-ip", "cf-ray", "x-cache", "via", "server"]

  /** `headers.get(h)`: the header's value, or None. */
  function HeaderValue(headers: Record, h: string): Value {
    match Get(headers, h)
    case None => Null
    case Some(v) => v
  }

  /** The dictionary of the six probed headers and what `get` returned. */
  function ProbedValues(headers: Record): (probed: Record)
    ensures |probed| == |ProbedHeaders|
    ensures forall i :: 0 <= i < |probed| ==> probed[i] == Entry(ProbedHeaders[i], HeaderValue(headers, ProbedHeaders[i]))
  {
    seq(|ProbedHeaders|, i requires 0 <= i < |ProbedHeaders| => Entry(ProbedHeaders[i], HeaderValue(headers, ProbedHeaders[i])))
  }

  /** `{k: v for k, v in d.items() if v is not None}` */
  function Present(d: Record): (kept: Record)
    ensures |kept| <= |d|
    ensures forall e :: e in kept <==> e in d && e.value != Null
    decreases |d|
  {
    if d == [] then []
    else if d[0].value == Null then Present(d[1..])
    else [d[0]] + Present(d[1..])
  }

  /** `kept` are the entries of `d` whose value is not None, in order:
      `idx` lists their positions in `d`, increasing, and misses none. */
  predicate PresentIndex(d: Record, kept: Record, idx: seq<nat>) {
    && |idx| == |kept| && Strings.Increasing(idx)
    && (forall k :: 0 <= k < |idx| ==> (idx[k] < |d| && kept[k] == d[idx[k]]))
    && (forall i :: 0 <= i < |d| && d[i].value != Null ==> i in idx)
  }

  /** The comprehension keeps its entries in the dictionary's order: the
      kept entries sit at increasing positions of `d`, and every entry that
      is not None is among them. */
  lemma {:induction false} PresentInOrder(d: Record) returns (idx: seq<nat>)
    ensures PresentIndex(d, Present(d), idx)
    decreases |d|
  {
    if d == [] {
      idx := [];
    } else {
      var rest := PresentInOrder(d[1..]);
      var head: seq<nat> := if d[0].value == Null then [] else [0];
      var kept: Record := if d[0].value == Null then [] else [d[0]];
      assert Present(d) == kept + Present(d[1..]);
      idx := head + Shift(rest);
      PresentConsIndices(d, kept, Present(d[1..]), rest, head);
    }
  }

  /** The positions kept from `d`, from those kept from its tail. */
  lemma PresentConsIndices(d: Record, kept: Record, later: Record, rest: seq<nat>, head: seq<nat>)
    requires d != [] && PresentIndex(d[1..], later, rest)
    requires d[0].value == Null ==> kept == [] && head == []
    requires d[0].value != Null ==> kept == [d[0]] && head == [0]
    ensures PresentIndex(d, kept + later, head + Shift(rest))
  {
    var tail := d[1..];
    var shifted := Shift(rest);
    var idx := head + shifted;
    PrependIncreasing(head, shifted);
    forall k | 0 <= k < |idx| ensures idx[k] < |d| && (kept + later)[k] == d[idx[k]] {
      if k >= |head| {
        assert idx[k] == rest[k - |head|] + 1;
        assert tail[rest[k - |head|]] == d[idx[k]];
      }
    }
    forall i | 0 <= i < |d| && d[i].value != Null ensures i in idx {
      if i > 0 {
        assert tail[i - 1] == d[i];
        var k :| 0 <= k < |rest| && rest[k] == i - 1;
        assert idx[|head| + k] == i;
      }
    }
  }

  lemma PrependIncreasing(head: seq<nat>, idx: seq<nat>)
    requires head == [] || head == [0]
    requires Strings.Increasing(idx) && forall k :: 0 <= k < |idx| ==> idx[k] > 0
    ensures Strings.Increasing(head + idx)
  {
    var r := head + idx;
    forall j, k | 0 <= j < k < |r| ensures r[j] < r[k] {
      if |head| == 1 && j == 0 {
        assert r[k] == idx[k - 1];
      } else {
        assert r[j] == idx[j - |head|] && r[k] == idx[k - |head|];
      }
    }
  }

  /** Every position one further on. */
  function Shift(idx: seq<nat>): (r: seq<nat>)
    ensures |r| == |idx| && forall k :: 0 <= k < |idx| ==> r[k] == idx[k] + 1
    ensures Strings.Increasing(idx) ==> Strings.Increasing(r) && forall k :: 0 <= k < |r| ==> r[k] > 0
  {
    seq(|idx|, k requires 0 <= k < |idx| => idx[k] + 1)
  }

  /** `any(d.values())` */
  predicate AnyTruthy(d: Record) {
    exists i :: 0 <= i < |d| && Truthy(d[i].value)
  }

  /** `test_proxy_detection`.  `fetch` holds the response headers of the GET
      request, or its exception. */
  function ProxyDetection(url: string, fetch: Attempt<Record>): (r: Record)
    ensures |r| == 4 && r[0] == Entry("test_name", Str("Proxy Detection")) && r[1] == Entry("url", Str(url))
    ensures r[3].key == "info"
    ensures fetch.Returned? <==> r[2].key == "proxy_headers"
  {
    match fetch
    case Raised(e) => ErrorRecord("Proxy Detection", url, e, "Failed to check for proxies")
    case Returned(headers) =>
      var probed := ProbedValues(headers);
      [Entry("test_name", Str("Proxy Detection")), Entry("url", Str(url)),
       Entry("proxy_headers", Dict(Present(probed))),
       Entry("info", Str(if AnyTruthy(probed) then "Found proxy/CDN headers" else "No proxy/CDN headers detected"))]
  }

  /** `proxy_headers` holds a probed header exactly when the response has
      it, with the response's value. */
  lemma ProxyHeadersExact(headers: Record, h: string, v: Value)
    requires v != Null
    ensures Entry(h, v) in Present(ProbedValues(headers)) <==> h in ProbedHeaders && Get(headers, h) == Some(v)
  {
    var probed := ProbedValues(headers);
    if Entry(h, v) in probed {
      var i :| 0 <= i < |probed| && probed[i] == Entry(h, v);
      assert ProbedHeaders[i] == h;
    }
    if h in ProbedHeaders && Get(headers, h) == Some(v) {
      var i :| 0 <= i < |ProbedHeaders| && ProbedHeaders[i] == h;
      assert probed[i] == Entry(h, v);
    }
  }

  /** "Found" is reported exactly when one of the six headers has a
      non-empty value. */
  lemma ProxyFoundIff(headers: Record)
    ensures AnyTruthy(ProbedValues(headers)) <==>
      exists k :: k in ProbedHeaders && Get(headers, k).Some? && Truthy(Get(headers, k).value)
  {
    var probed := ProbedValues(headers);
    if AnyTruthy(probed) {
      var i :| 0 <= i < |probed| && Truthy(probed[i].value);
      assert ProbedHeaders[i] in ProbedHeaders;
    }
    if exists k :: k in ProbedHeaders && Get(headers, k).Some? && Truthy(Get(headers, k).value) {
      var k :| k in ProbedHeaders && Get(headers, k).Some? && Truthy(Get(headers, k).value);
      var i :| 0 <= i < |ProbedHeaders| && ProbedHeaders[i] == k;
      assert Truthy(probed[i].value);
    }
  }

  // ---------------------------------------------------------------------
  // IP reputation (inside Enhanced Network Diagnostics)

  /** The DNS blacklists queried, in order. */
  const Blacklists: seq<string> := ["zen.spamhaus.org", "bl.spamcop.net"]

  /** `'.'.join(reversed(ip.split('.')))` */
  function ReversedOctets(ip: string): string {
    Strings.Join(Strings.Reverse(Strings.Split(ip, '.')), '.')
  }

  /** The name looked up to ask blacklist `bl` about `ip`. */
  function DnsblName(ip: string, bl: string): string {
    ReversedOctets(ip) + "." + bl
  }

  /** Reversing the octets twice gives the address back, so the query name
      determines the address it asks about. */
  lemma {:induction false} ReversedOctetsInvolutive(ip: string)
    ensures ReversedOctets(ReversedOctets(ip)) == ip
  {
    var parts := Strings.Split(ip, '.');
    var rev := Strings.Reverse(parts);
    forall i | 0 <= i < |rev| ensures '.' !in rev[i] {
      assert rev[i] == parts[|parts| - 1 - i];
    }
    Strings.SplitJoin(rev, '.');
    assert Strings.Reverse(rev) == parts;
    Strings.JoinSplit(ip, '.');
  }

  /** The labels of the query name are the octets of the address
      last-first, then the labels of the blacklist's own name. */
  lemma DnsblNameOctets(ip: string, bl: string)
    ensures Strings.Split(DnsblName(ip, bl), '.') ==
      Strings.Reverse(Strings.Split(ip, '.')) + Strings.Split(bl, '.')
  {
    var parts := Strings.Split(ip, '.');
    var rev := Strings.Reverse(parts);
    forall i | 0 <= i < |rev| ensures '.' !in rev[i] {
      assert rev[i] == parts[|parts| - 1 - i];
    }
    Strings.SplitJoin(rev, '.');
    Strings.SplitAppend(ReversedOctets(ip), bl, '.');
  }

  function Verdict(listed: bool): Value {
    Str(if listed then "Listed" else "Not listed")
  }

  /** `check_ip_reputation`.  `resolves(name)` says whether looking `name` up
      succeeded, which is how a DNS blacklist reports a listed address. */
  method CheckIpReputation(ip: string, resolves: string -> bool) returns (r: Record)
    ensures Keys(r) == Blacklists
    ensures forall i :: 0 <= i < |r| ==> r[i].value == Verdict(resolves(DnsblName(ip, Blacklists[i])))
  {
    r := [];
    for i := 0 to |Blacklists|
      invariant |r| == i
      invariant forall j :: 0 <= j < i ==> r[j] == Entry(Blacklists[j], Verdict(resolves(DnsblName(ip, Blacklists[j]))))
    {
      var bl := Blacklists[i];
      var verdict := Verdict(resolves(DnsblName(ip, bl)));
      assert forall j :: 0 <= j < |r| ==> r[j].key != bl;
      SetNew(r, bl, verdict);
      r := Set(r, bl, verdict);
    }
  }

  // ---------------------------------------------------------------------
  // Advanced Image Analysis

  /** A GET response: status code and body. */
  datatype Response = Response(status: int, content: seq<byte>)

  /** What the imaging library reports about a decoded picture: its format
      name, size, `info` dictionary and the colour space of its ICC profile
      (or the exception raised while reading the profile). */
  datatype Image = Image(format: string, width: nat, height: nat, info: Record, iccSpace: Attempt<string>)

  const AnalysisName := "Advanced Image Analysis"
  const AnalysisFailed := "Failed to perform advanced image analysis"

  /** `{k: v for k, v in img.info.items() if isinstance(v, (str, int, float))}`;
      a Python bool is an int. */
  function Scalars(info: Record): (kept: Record)
    ensures |kept| <= |info|
    ensures forall e :: e in kept <==> e in info && (e.value.Str? || e.value.Int? || e.value.Bool?)
    decreases |info|
  {
    if info == [] then []
    else if info[0].value.Str? || info[0].value.Int? || info[0].value.Bool? then [info[0]] + Scalars(info[1..])
    else Scalars(info[1..])
  }

  function QualityName(q: Jpeg.Quality): string {
    match q
    case Low => "Low"
    case Medium => "Medium"
    case High => "High"
  }

  function AnalysisRecord(url: string, progressive: bool, colorSpace: string, quality: string, metadata: Record): (r: Record)
    ensures |r| == 7 && r[2] == Entry("progressive_jpeg", Bool(progressive))
  {
    [Entry("test_name", Str(AnalysisName)), Entry("url", Str(url)),
     Entry("progressive_jpeg", Bool(progressive)), Entry("color_space", Str(colorSpace)),
     Entry("compression_quality", Str(quality)), Entry("embedded_metadata", Dict(metadata)),
     Entry("info", Str("Progressive: " + Show(Bool(progressive)) + ", Quality: " + quality))]
  }

  /** How a probe call ends: with what it returns, or never (a loop that
      does not stop). */
  datatype Ending<+T> = Returns(value: T) | NeverReturns

  /** What the probe ends with once the image with body `content` is
      decoded, given how the marker scan over the body ends.  The scan and
      the quality apply to JPEG only; a marker cut off after its FF byte
      raises IndexError and a body of no bytes divides by zero, and both
      end in the error record; a scan that never stops keeps the probe from
      returning at all. */
  function Analysis(url: string, content: seq<byte>, img: Image, scan: Jpeg.ScanResult): Ending<Option<Record>> {
    var colorSpace := if img.iccSpace.Returned? then img.iccSpace.value else "No ICC profile found";
    if img.format != "JPEG" then
      Returns(Some(AnalysisRecord(url, false, colorSpace, "Unknown", Scalars(img.info))))
    else
      match scan
      case Loops => NeverReturns
      case Truncated => Returns(Some(ErrorRecord(AnalysisName, url, "index out of range", AnalysisFailed)))
      case Found(progressive) =>
        match Jpeg.CompressionQuality(img.width, img.height, |content|)
        case Err(e) => Returns(Some(ErrorRecord(AnalysisName, url, e, AnalysisFailed)))
        case Ok(q) =>
          Returns(Some(AnalysisRecord(url, progressive, colorSpace, QualityName(q), Scalars(img.info))))
  }

  /** `test_advanced_image_analysis`, running the marker loop as the code
      writes it.  `fetch` is the GET response and `decode` what opening its
      body as an image gives.  A status other than 200 makes the probe
      return None. */
  method AdvancedImageAnalysis(url: string, fetch: Attempt<Response>, decode: Attempt<Image>)
    returns (r: Ending<Option<Record>>)
    ensures fetch.Raised? ==> r == Returns(Some(ErrorRecord(AnalysisName, url, fetch.message, AnalysisFailed)))
    ensures fetch.Returned? && fetch.value.status != 200 ==> r == Returns(None)
    ensures fetch.Returned? && fetch.value.status == 200 && decode.Raised? ==>
      r == Returns(Some(ErrorRecord(AnalysisName, url, decode.message, AnalysisFailed)))
    ensures fetch.Returned? && fetch.value.status == 200 && decode.Returned? ==>
      r == Analysis(url, fetch.value.content, decode.value, Jpeg.AsWrittenScan(fetch.value.content, 0))
  {
    if fetch.Raised? {
      return Returns(Some(ErrorRecord(AnalysisName, url, fetch.message, AnalysisFailed)));
    }
    var response := fetch.value;
    if response.status != 200 {
      return Returns(None);
    }
    if decode.Raised? {
      return Returns(Some(ErrorRecord(AnalysisName, url, decode.message, AnalysisFailed)));
    }
    var img := decode.value;
    var progressive := false;
    if img.format == "JPEG" {
      var scan := Jpeg.ScanAsWritten(response.content);
      if scan.Loops? {
        return NeverReturns;
      }
      if scan.Truncated? {
        return Returns(Some(ErrorRecord(AnalysisName, url, "index out of range", AnalysisFailed)));
      }
      progressive := scan.progressive;
    }
    var colorSpace := "No ICC profile found";
    if img.iccSpace.Returned? {
      colorSpace := img.iccSpace.value;
    }
    var quality := "Unknown";
    if img.format == "JPEG" {
      match Jpeg.CompressionQuality(img.width, img.height, |response.content|)
      case Err(e) =>
        return Returns(Some(ErrorRecord(AnalysisName, url, e, AnalysisFailed)));
      case Ok(q) =>
        quality := QualityName(q);
    }
    r := Returns(Some(AnalysisRecord(url, progressive, colorSpace, quality, Scalars(img.info))));
  }

  /** The record reports a progressive JPEG. */
  predicate ReportsProgressive(e: Ending<Option<Record>>) {
    e.Returns? && e.value.Some? && |e.value.value| > 2 && e.value.value[2] == Entry("progressive_jpeg", Bool(true))
  }

  /** Only a JPEG whose scan found SOF2 is reported progressive. */
  lemma ProgressiveVerdict(url: string, content: seq<byte>, img: Image, scan: Jpeg.ScanResult)
    requires ReportsProgressive(Analysis(url, content, img, scan))
    ensures img.format == "JPEG" && scan == Jpeg.Found(true)
  {
    if img.format == "JPEG" && scan.Found? {
      match Jpeg.CompressionQuality(img.width, img.height, |content|)
      case Err(_) =>
      case Ok(_) =>
    }
  }

  /** With either scan, the code's own or the corrected one, a record that
      reports a progressive JPEG comes from a JPEG whose body holds the
      bytes FF C2. */
  lemma AnalysisProgressiveMeansSof2(url: string, content: seq<byte>, img: Image, corrected: bool)
    requires ReportsProgressive(Analysis(url, content, img,
      if corrected then Jpeg.ScanFrom(content, 0) else Jpeg.AsWrittenScan(content, 0)))
    ensures img.format == "JPEG"
    ensures exists q :: 0 <= q < |content| - 1 && content[q] == 0xFF && content[q + 1] == 0xC2
  {
    ProgressiveVerdict(url, content, img, if corrected then Jpeg.ScanFrom(content, 0) else Jpeg.AsWrittenScan(content, 0));
    var q;
    if corrected {
      q := Jpeg.ScanFoundMeansSof2(content, 0);
    } else {
      q := Jpeg.AsWrittenFoundMeansSof2(content, 0);
    }
  }

  /** As the code is written, a decoded JFIF body of at most 65506 bytes is
      never reported progressive, even when it holds SOF2; and a 65508-byte
      JFIF body ending in EOI keeps the probe from returning. */
  lemma AnalysisOfJfif(url: string, content: seq<byte>, img: Image)
    requires img.format == "JPEG" && Jpeg.StartsJfif(content)
    ensures |content| <= 65506 ==> !ReportsProgressive(Analysis(url, content, img, Jpeg.AsWrittenScan(content, 0)))
    ensures |content| == 65508 && content[65506] == 0xFF && content[65507] == 0xD9 ==>
      Analysis(url, content, img, Jpeg.AsWrittenScan(content, 0)) == NeverReturns
  {
    if |content| <= 65506 {
      Jpeg.JfifShortNeverProgressive(content);
      if ReportsProgressive(Analysis(url, content, img, Jpeg.AsWrittenScan(content, 0))) {
        ProgressiveVerdict(url, content, img, Jpeg.AsWrittenScan(content, 0));
      }
    }
    if |content| == 65508 && content[65506] == 0xFF && content[65507] == 0xD9 {
      Jpeg.JfifOf65508Loops(content);
    }
  }

  /** With the corrected scan the probe always returns, and a decoded
      progressive JFIF body is reported progressive. */
  lemma AnalysisCorrectedReturns(url: string, content: seq<byte>, img: Image)
    ensures Analysis(url, content, img, Jpeg.ScanFrom(content, 0)).Returns?
    ensures Jpeg.ProgressiveJfif(content) && img.format == "JPEG" ==>
      ReportsProgressive(Analysis(url, content, img, Jpeg.ScanFrom(content, 0)))
  {
    if Jpeg.ProgressiveJfif(content) && img.format == "JPEG" {
      Jpeg.JfifProgressiveFound(content);
      FoundReported(url, content, img);
    }
  }

  /** A JPEG body of some bytes whose scan found SOF2 is reported
      progressive. */
  lemma FoundReported(url: string, content: seq<byte>, img: Image)
    requires img.format == "JPEG" && |content| > 0
    ensures ReportsProgressive(Analysis(url, content, img, Jpeg.Found(true)))
  {
    var quality := Jpeg.CompressionQuality(img.width, img.height, |content|);
    assert quality.Ok?;
  }

  /** An image in any other format is never scanned nor rated, and is always
      reported, never turned into an error. */
  lemma AnalysisOfOtherFormats(url: string, content: seq<byte>, img: Image, scan: Jpeg.ScanResult)
    requires img.format != "JPEG"
    ensures var e := Analysis(url, content, img, scan);
      e.Returns? && e.value.Some? &&
      var r := e.value.value;
      Keys(r) == ["test_name", "url", "progressive_jpeg", "color_space", "compression_quality",
                  "embedded_metadata", "info"] &&
      r[2].value == Bool(false) && r[4].value == Str("Unknown") &&
      r[6].value == Str("Progressive: False, Quality: Unknown")
  {
    var colorSpace := if img.iccSpace.Returned? then img.iccSpace.value else "No ICC profile found";
    var r := AnalysisRecord(url, false, colorSpace, "Unknown", Scalars(img.info));
    assert Analysis(url, content, img, scan) == Returns(Some(r));
    AnalysisRecordKeys(url, false, colorSpace, "Unknown", Scalars(img.info));
    UnknownQualityInfo();
  }

  lemma AnalysisRecordKeys(url: string, progressive: bool, colorSpace: string, quality: string, metadata: Record)
    ensures Keys(AnalysisRecord(url, progressive, colorSpace, quality, metadata)) ==
      ["test_name", "url", "progressive_jpeg", "color_space", "compression_quality", "embedded_metadata", "info"]
  {
    var r := AnalysisRecord(url, progressive, colorSpace, quality, metadata);
    assert forall i :: 0 <= i < 7 ==> Keys(r)[i] == r[i].key;
  }

  lemma UnknownQualityInfo()
    ensures "Progressive: " + Show(Bool(false)) + ", Quality: " + "Unknown" == "Progressive: False, Quality: Unknown"
  {
    assert Show(Bool(false)) == "False";
  }
}
