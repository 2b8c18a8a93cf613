# luma-diagnostics, modelled in Dafny

luma-diagnostics is a command-line tool that checks whether an image URL can
be reached and used by the LUMA generation API. It runs a fixed set of network
probes (DNS, TLS, redirects, headers, image signature, API authentication, rate
limiting, proxy headers, image analysis and so on). Each probe gives a
dictionary of results. The tool gathers them into a result list and writes that
list as JSON and as a plain-text report. An interactive wizard asks for the URL,
a key and a test type, then prints a summary of the results.

This project models the deterministic logic around the probes. The outcome of
each network call is an input: an `Attempt` that either returned a value or
raised an exception with a message. Python values are `Values.Value`, with
dictionaries as key/value sequences in insertion order. The modules are:

- `Strings`: the str operations the code uses, such as split, join, strip and upper.
- `Values`: Python values, ordered dictionaries and their update rules, `str()` of a value, and the subscripts that raise.
- `Jpeg`: the JPEG signature predicate, the progressive-marker scan and the compression-quality tiers.
- `Probes`: the result records of the Public Access, Image Validity, Rate Limit, API Authentication, Proxy Detection and Advanced Image Analysis probes, plus the DNS blacklist check.
- `Runner`: `run_diagnostics` in `tests.py`, which builds the probe plan from configuration flags.
- `Diagnostics`: `run_all_tests` and `run_with_config` in `diagnostics.py`.
- `TextReport`: the text half of `save_results`, which `tests.py` and `diagnostics.py` write identically.
- `Utils`: `sanitize_filename`, the two DNS server parsers, the configuration and output directories, and the traceroute command line.
- `Wizard`: the wizard's choice list, validators, parameter gating, configuration merge, output-file lookup and results summary, rendered as a sequence of lines.

Where the code changes state step by step, the model is a method with a loop.
Each such method is proved equal to a specification function, and the
properties are lemmas about that function. This covers the filename
replacement loop, both DNS parsers, the rate-limit loop, the blacklist loop,
the marker scan, the report writer, the plan builder, the configuration merge,
the output-file search and the summary printer.

## Model

| member | source | states |
|---|---|---|
| Jpeg.IsJpegSignature | luma_diagnostics/tests.py:190 | Defines the signature test: more than four bytes, starting FF D8 and ending FF D9. `SignatureFraming` states what it accepts. |
| Jpeg.SignatureFraming | luma_diagnostics/tests.py:190 | The signature check holds exactly when the body is FF D8, at least one more byte, then FF D9. |
| Jpeg.SignatureOfFramed | luma_diagnostics/tests.py:190 | Every body made of SOI, a non-empty middle and EOI passes the signature check. |
| Probes.ShortBodyIsNotJpeg | luma_diagnostics/tests.py:190 | A body of four bytes or fewer never passes the signature check. |
| Probes.ImageValidity | luma_diagnostics/tests.py:176-196 | A failed fetch gives the "Could not retrieve or parse image" record with the error text. A body that passes the signature sets `is_jpeg_signature` with empty info. Any other body leaves it false and gives the "Does not match JPEG signature" info. |
| Probes.PutSignature | luma_diagnostics/tests.py:191 | Assigning `is_jpeg_signature` changes that field only and keeps the key order. |
| Probes.PutImageInfo | luma_diagnostics/tests.py:193-195 | Assigning `info` changes that field only and keeps the key order. |
| Jpeg.Read | luma_diagnostics/tests.py:713 | A `read(n)` on the byte stream yields at most n bytes. It yields exactly the next n when they exist, and nothing once the cursor is at or past the end. |
| Jpeg.AsWrittenAdvances | luma_diagnostics/tests.py:712-724 | In the loop as written, a turn that reads a whole length field either moves the cursor forward by at least 4, or lands on a byte where the next turn stops. |
| Jpeg.AsWrittenStuckAtTrailingMarker | luma_diagnostics/tests.py:712-724 | As written, when the last two bytes are a marker other than C2 or DA, the empty length read gives length 0, and the seek by -2 puts the cursor back on that marker. |
| Jpeg.AsWrittenNeverStops | luma_diagnostics/tests.py:712-724 | As written, a turn that returns to its own position makes the loop run forever, whatever the step budget. |
| Jpeg.AsWrittenDivergesOnBareSoi | luma_diagnostics/tests.py:712-724 | As written, the two-byte body FF D8 makes the loop run forever. This input exercises the step function only, because an image decoder refuses it before the probe scans it. |
| Jpeg.AsWrittenMissesSof2 | luma_diagnostics/tests.py:712-724 | As written, SOI is read as if a length field followed it, so an SOF2 right after SOI is jumped over. This input exercises the step function only, because a decoder refuses its two-byte SOF2 segment. |
| Jpeg.AsWrittenNeverBack | luma_diagnostics/tests.py:723-724 | A turn of the loop as written never moves the cursor back: it stays put or moves on. |
| Jpeg.AsWrittenScan | luma_diagnostics/tests.py:712-724 | Defines the verdict of the loop as written, by following `AsWrittenStep` from the start. A progressive or baseline verdict, or the IndexError of a marker cut short, ends it. A step that does not move the cursor forward gives `Loops`. |
| Jpeg.ScanAsWritten | luma_diagnostics/tests.py:712-724 | The loop as written returns the verdict `AsWrittenScan` defines: progressive or not, the IndexError of a one-byte marker, or `Loops` where a seek puts the cursor back on the marker it just read. |
| Jpeg.AsWrittenScanLoops | luma_diagnostics/tests.py:712-724 | A `Loops` verdict means the turn-by-turn run never stops, whatever the step budget. |
| Jpeg.AsWrittenScanEnds | luma_diagnostics/tests.py:712-724 | Any other verdict is exactly how the turn-by-turn run stops, once it gets more turns than there are bytes left. |
| Jpeg.AsWrittenFoundMeansSof2 | luma_diagnostics/tests.py:716-720 | A "progressive" verdict of the loop as written means it read the bytes FF C2 at or after the start. |
| Jpeg.JfifFirstJump | luma_diagnostics/tests.py:713-724 | As written, a JFIF body (FF D8 FF E0 …) has SOI read as if a length followed it. The APP0 marker bytes give 65504, so the first jump lands at offset 65506. |
| Jpeg.JfifShortNeverProgressive | luma_diagnostics/tests.py:712-724 | As written, every JFIF body of at most 65506 bytes is reported not progressive, whatever markers it holds. |
| Jpeg.JfifOf65508Loops | luma_diagnostics/tests.py:712-724 | As written, a JFIF body of exactly 65508 bytes ending in EOI makes the loop run forever. |
| Jpeg.ScanFrom | luma_diagnostics/tests.py:712-724 | Defines the corrected walk along the marker chain: standalone markers move 2 bytes, the others 2 plus their length. It never gives `Loops`. |
| Jpeg.ScanProgressive | luma_diagnostics/tests.py:712-724 | The corrected loop ends on every input and returns what the marker-chain walk `ScanFrom` defines. The loop variant is the number of bytes left. |
| Jpeg.ScanFoundMeansSof2 | luma_diagnostics/tests.py:716-720 | A "progressive" verdict means the bytes FF C2 occur at or after the starting position. |
| Jpeg.SameStepWithLengthField | luma_diagnostics/tests.py:723-724 | On a marker with a length field of at least 2, the corrected walk jumps by 2 + length, exactly as the code as written does. |
| Jpeg.ScanFindsSof2 | luma_diagnostics/tests.py:712-724 | The corrected walk reports the progressive JPEG that the code as written misses. |
| Jpeg.JfifProgressiveFound | luma_diagnostics/tests.py:712-724 | Take a JFIF body with a 16-byte APP0 segment followed by SOF2. The corrected walk reports it progressive, and the loop as written reports it not progressive whenever it has at most 65506 bytes. |
| Jpeg.CompressionQuality | luma_diagnostics/tests.py:734-745 | Defines the Low/Medium/High tiers by integer cross-multiplication. It fails (division by zero) exactly when the body is empty. |
| Jpeg.QualityMatchesRatio | luma_diagnostics/tests.py:734-746 | The integer tiers give the same answer as the ratio of pixels times 3 to the body size: above 12 is Low, above 8 is Medium, otherwise High. |
| Jpeg.QualityMonotone | luma_diagnostics/tests.py:737-745 | For the same body size, more pixels never give a better quality tier. |
| Probes.Analysis | luma_diagnostics/tests.py:697-762 | Defines the analysis probe's outcome for a decoded image and a scan verdict. Other formats skip the scan and quality. A JPEG gets the scan's verdict and the quality tier, and a `Loops` verdict means the probe never returns. |
| Probes.AdvancedImageAnalysis | luma_diagnostics/tests.py:697-762 | A failed fetch or image decode gives the error record, and a status other than 200 makes the probe return None. A decoded image gives what `Analysis` defines with the marker loop as written: the scan and the quality apply only to JPEG; a truncated marker or an empty body gives the error record; and a scan that never stops means the probe never returns. |
| Probes.AnalysisProgressiveMeansSof2 | luma_diagnostics/tests.py:708-750 | Whether the scan is the one as written or the corrected one, `progressive_jpeg` is true only for a JPEG whose body holds the bytes FF C2. |
| Probes.ProgressiveVerdict | luma_diagnostics/tests.py:708-750 | A record reports a progressive JPEG only when the image is a JPEG and the scan found SOF2. |
| Probes.AnalysisOfJfif | luma_diagnostics/tests.py:708-755 | As written, a decoded JFIF of at most 65506 bytes is never reported progressive, and a decoded 65508-byte JFIF ending in EOI keeps the probe from returning. |
| Probes.AnalysisCorrectedReturns | luma_diagnostics/tests.py:708-755 | With the corrected scan, the probe always returns, and a decoded progressive JFIF is reported progressive. |
| Probes.AnalysisOfOtherFormats | luma_diagnostics/tests.py:733-755 | For formats other than JPEG, whatever the scan, the probe returns a record with the seven keys in order, `progressive_jpeg` false, quality "Unknown", and info "Progressive: False, Quality: Unknown". |
| Probes.AnalysisRecordKeys | luma_diagnostics/tests.py:747-755 | The analysis record has the keys test_name, url, progressive_jpeg, color_space, compression_quality, embedded_metadata and info, in that order. |
| Probes.Scalars | luma_diagnostics/tests.py:753 | `embedded_metadata` keeps exactly the image-info entries whose values are strings, integers or booleans. |
| Probes.PublicAccess | luma_diagnostics/tests.py:64-95 | A failed DNS lookup makes no GET, leaves both flags false and reports the DNS error. After a lookup succeeds, `reachable` is set only by status 200. Any other status or a GET failure gets its own info text. |
| Probes.PutDnsResolved | luma_diagnostics/tests.py:80 | Assigning `dns_resolved` changes that field only and keeps the key order. |
| Probes.PutReachable | luma_diagnostics/tests.py:89 | Assigning `reachable` changes that field only and keeps the key order. |
| Probes.PutPublicInfo | luma_diagnostics/tests.py:82-93 | Assigning `info` changes that field only and keeps the key order. |
| Probes.PublicAccessReachable | luma_diagnostics/tests.py:70-76 | The Public Access record reports the two flags it was built with, under its five keys in order. |
| Probes.RateLimit | luma_diagnostics/tests.py:248-288 | The record has its five keys. `responses` has one entry per attempt, in order. Entry i is the record of attempt i+1 built from that attempt's outcome, and no failure stops the loop. |
| Probes.AttemptRecordFields | luma_diagnostics/tests.py:276-285 | Each attempt entry holds attempt, status_code and body, with attempt equal to its number. A failed request leaves status_code None and puts "Connection/Request Error: " plus the error text in body. A reply gives its status and body. |
| Probes.ApiAuth | luma_diagnostics/tests.py:616-650 | `test_api_auth`. Every record starts with the test name "API Authentication" and the URL, and ends with `info`. |
| Probes.ApiAuthShape | luma_diagnostics/tests.py:616-650 | With no token, the record has no status_code and no authenticated. With an answer, `authenticated` holds iff the status is not 401. A failed request gives the error record. Each case has its exact keys and info. |
| Probes.ApiAuthWithoutToken | luma_diagnostics/tests.py:623-628 | A falsy token gives the three-key record with "No bearer token provided". |
| Probes.ApiAuthAnswered | luma_diagnostics/tests.py:637-643 | An answered request gives the five-key record with the status, the 401 test and the matching info. |
| Probes.ApiAuthStatusIffToken | luma_diagnostics/tests.py:623-650 | The record holds a status_code iff a token was given and the request returned. |
| Probes.ProbedValues | luma_diagnostics/tests.py:665-672 | The six probed headers are looked up in their fixed order, with None for a missing header. |
| Probes.Present | luma_diagnostics/tests.py:677 | An entry is kept iff it is in the dictionary and its value is not None. |
| Probes.PresentInOrder | luma_diagnostics/tests.py:677 | The kept entries are the non-None entries in dictionary order. They sit at increasing positions of the dictionary, one each, and none is missed. |
| Probes.ProxyDetection | luma_diagnostics/tests.py:653-686 | `test_proxy_detection`. Every record is the test name "Proxy Detection", the URL, a third entry and `info`. The third entry is `proxy_headers` iff the request returned, and `error` otherwise. |
| Probes.ProxyHeadersExact | luma_diagnostics/tests.py:665-677 | A header/value pair is in `proxy_headers` iff the header is one of the six probed and the response holds that value for it. |
| Probes.ProxyFoundIff | luma_diagnostics/tests.py:678 | The "Found proxy/CDN headers" info is given iff some probed header has a truthy value. |
| Probes.ReversedOctets | luma_diagnostics/tests.py:792 | Defines `'.'.join(reversed(ip.split('.')))`. `ReversedOctetsInvolutive` states its property. |
| Probes.ReversedOctetsInvolutive | luma_diagnostics/tests.py:792 | Reversing the dot-separated octets twice gives back the address. |
| Probes.DnsblName | luma_diagnostics/tests.py:792 | Defines the name looked up for one blacklist: the reversed octets, a dot, then the blacklist's domain. `DnsblNameOctets` states its labels. |
| Probes.DnsblNameOctets | luma_diagnostics/tests.py:792 | The query name's labels are the address's octets in reverse order, then the labels of the blacklist's name. |
| Probes.CheckIpReputation | luma_diagnostics/tests.py:785-796 | There is one verdict per blacklist, in list order. Each is "Listed" iff the reversed-octet name under that list resolves. |
| TextReport.SaveText | luma_diagnostics/tests.py:919-925 | The nested write loops, written alike in diagnostics.py:124-130, produce exactly the report `Render` defines. An item without a test name raises, and the text written before it is kept. |
| TextReport.WriteDetails | luma_diagnostics/tests.py:922-924 | The inner loop writes one detail line per key other than test_name. |
| TextReport.Render | luma_diagnostics/tests.py:919-925 | Defines what the report file holds after the write loop: each item's section in order, stopping at the first item without a test name, together with that failure. |
| TextReport.RenderIsReportLines | luma_diagnostics/tests.py:919-925 | When every item has a test name, the file is its report lines joined with line breaks, section after section in item order. |
| TextReport.SectionShape | luma_diagnostics/tests.py:921-925 | Each section starts with "Test: " and the name, has one line per other key, and ends with a blank line. |
| TextReport.SectionText | luma_diagnostics/tests.py:921-925 | A section's text is its lines, each followed by a line break. |
| TextReport.DetailLinesMatchKeys | luma_diagnostics/tests.py:922-924 | The detail lines are "  key: value" for the entries other than test_name, in key order, and their keys are those entries' keys. |
| TextReport.Detailed | luma_diagnostics/tests.py:923 | The detailed entries are exactly the entries whose key is not test_name. |
| TextReport.DetailKeys | luma_diagnostics/tests.py:923 | test_name is never among the detail keys. |
| TextReport.DetailKeysAreOtherKeys | luma_diagnostics/tests.py:922-924 | The detail keys are the item's keys with test_name removed, in order. |
| TextReport.DetailTextLines | luma_diagnostics/tests.py:922-924 | The detail text is the detail lines, each followed by a line break. |
| TextReport.UnlinesAppend | luma_diagnostics/tests.py:920-925 | The text of two runs of lines is the text of the first followed by the text of the second. |
| TextReport.RenderAppend | luma_diagnostics/tests.py:920-925 | Rendering a concatenation renders the first list, then the second, unless the first already failed. |
| TextReport.RenderCons | luma_diagnostics/tests.py:920-925 | A named first item contributes its section in front of the rest of the report. |
| TextReport.RenderErr | luma_diagnostics/tests.py:921 | An unnamed first item fails the report before anything is written. |
| TextReport.RenderAllNamed | luma_diagnostics/tests.py:920-925 | A list whose items all have test names renders without failure. |
| TextReport.NamedPrefix | luma_diagnostics/tests.py:920-925 | A prefix of named items renders without failure. |
| TextReport.StopsAt | luma_diagnostics/tests.py:921 | The report stops at an unnamed item, with the text of the items before it and that item's error. |
| TextReport.StopsAtFirstUnnamed | luma_diagnostics/tests.py:920-921 | The file written before the first item without a test name is the whole report of the items before it. |
| Runner.Outcomes | luma_diagnostics/tests.py:845-909 | There is one result per planned probe, in plan order. Each is the probe's outcome on its configured arguments. |
| Runner.RunDiagnostics | luma_diagnostics/tests.py:835-911 | A missing input key raises KeyError. Otherwise the result list is the outcomes of the planned probes, or the KeyError of the first required flag that is missing. |
| Runner.RunFlags | luma_diagnostics/tests.py:845-909 | The flag loop appends outcomes exactly as `PlanOf` selects them, and stops at the first missing required key. |
| Runner.PlanStaysErr | luma_diagnostics/tests.py:845-909 | Once a required key is missing, later flags do not change the outcome. |
| Runner.PlanOfErrIff | luma_diagnostics/tests.py:845-909 | The flag loop raises iff some required flag key is absent from the configuration. |
| Runner.PlanOf | luma_diagnostics/tests.py:845-909 | Defines the probes `run_diagnostics` runs: one per enabled flag, in flag order, or the KeyError of the first missing required key. |
| Runner.PlanOfEnabled | luma_diagnostics/tests.py:845-909 | A probe is in the plan iff its flag is enabled. A missing optional flag counts as disabled. |
| Runner.Position | luma_diagnostics/tests.py:845-909 | Every probe has a position in the fixed flag order. |
| Runner.PositionOfFlag | luma_diagnostics/tests.py:845-909 | The flag at index i is the one at position i, so no probe appears under two flags. |
| Runner.PlanOfOrdered | luma_diagnostics/tests.py:845-909 | The plan lists its probes in strictly increasing flag order. |
| Runner.DiagnosticsPlan | luma_diagnostics/tests.py:835-909 | `run_diagnostics` fails iff an input or a required flag key is missing. Otherwise it runs exactly the enabled probes, in flag order, at most one per flag. |
| Runner.PlanOfLength | luma_diagnostics/tests.py:845-909 | The plan has no more entries than there are flags. |
| Diagnostics.Runs | luma_diagnostics/diagnostics.py:83-113 | There is one result per probe, in order. Each takes only the arguments that probe is given. |
| Diagnostics.AllTests | luma_diagnostics/diagnostics.py:49-115 | Defines `run_all_tests`' result: a ValueError without TEST_IMAGE_URL. Otherwise the URL probes, followed by the API probes when both the API URL and key are set. |
| Diagnostics.RunAllTests | luma_diagnostics/diagnostics.py:49-115 | The method builds exactly the list that `AllTests` defines. |
| Diagnostics.AllTestsShape | luma_diagnostics/diagnostics.py:78-113 | A missing or empty image URL raises ValueError. Otherwise the list is the 19 URL probes in order, then the API probes only when the API URL and key are both set, giving 19 or 22 results. |
| Diagnostics.UrlProbesTakeUrl | luma_diagnostics/diagnostics.py:83-103 | Each of the 19 URL probes is called with the image URL alone. |
| Diagnostics.SameProbes | luma_diagnostics/diagnostics.py:83-113 | `run_all_tests` covers the same probes as the flags of `run_diagnostics` in tests.py, one per flag. |
| Diagnostics.RunWithConfig | luma_diagnostics/diagnostics.py:9-47 | A missing config file raises FileNotFoundError before anything else. A non-empty `str` output directory then raises TypeError before any probe runs. A probe-list error becomes ValueError. Otherwise the case information goes first, the text report is written, and the outputs are named in the chosen directory. |
| Diagnostics.OutputFilesPair | luma_diagnostics/diagnostics.py:27-29 | The JSON and text file names share one directory and timestamp prefix, differ only in the extension, and so never name the same file. |
| Diagnostics.OutputDir | luma_diagnostics/diagnostics.py:18-28 | Defines the directory the files go to as written. No argument gives the default directory, a Path is used as given, and a non-empty str raises TypeError. |
| Diagnostics.OutputDirDefault | luma_diagnostics/diagnostics.py:18-24 | With no output directory given, the default results directory is used, with the case id appended when there is one. |
| Diagnostics.StrOutputDirRaises | luma_diagnostics/diagnostics.py:18-28 | As written, a non-empty `str` output directory raises TypeError when the file names are built, while a `Path` with the same text is used as given. |
| Diagnostics.OutputDirFixedAgrees | luma_diagnostics/diagnostics.py:18-28 | The corrected choice, which wraps the argument in `Path`, never fails. It agrees with the code wherever the code succeeds, and treats a `str` like the same `Path`. |
| Diagnostics.JoinAppend | luma_diagnostics/diagnostics.py:22-24 | Appending a path component adds one separator and the component. |
| Diagnostics.CaseInfo | luma_diagnostics/diagnostics.py:36-41 | Defines the Case Information record: its test name, the case id, the timestamp and the platform value, in that order. |
| Diagnostics.CaseInfoFirst | luma_diagnostics/diagnostics.py:35-42 | With a case id, "Case Information" is at index 0 and the probe results follow in their order. |
| Utils.Replaced | luma_diagnostics/utils.py:116-118 | Each invalid character becomes '_'. Every other character stays where it is. |
| Utils.ReplaceInvalid | luma_diagnostics/utils.py:116-118 | The loop over the invalid characters computes `Replaced`. |
| Utils.Sanitized | luma_diagnostics/utils.py:113-131 | Defines the sanitized name: every invalid character becomes '_', and on Windows a reserved stem gets a '_' prefix. |
| Utils.SanitizeFilename | luma_diagnostics/utils.py:113-131 | The method gives `Sanitized` on both platforms. |
| Utils.SanitizedIsValid | luma_diagnostics/utils.py:113-131 | No result contains any of the characters `<>:"/\|?*`. |
| Utils.SanitizedElsewhere | luma_diagnostics/utils.py:116-118 | Off Windows, the length is kept, valid characters are unchanged at their positions, and invalid ones become '_'. |
| Utils.SanitizedOnWindows | luma_diagnostics/utils.py:121-129 | On Windows, the result is "_" plus the replaced name iff the upper-cased part before the first '.' is a reserved device name. Otherwise it is the replaced name. |
| Utils.UnderscoreStemNotReserved | luma_diagnostics/utils.py:121-129 | A name that starts with '_' is never reserved. |
| Utils.StemStarts | luma_diagnostics/utils.py:126 | The part before the first separator starts with the name's first character. |
| Utils.ReplacedIdempotent | luma_diagnostics/utils.py:116-118 | Replacing twice is the same as replacing once. |
| Utils.SanitizedIdempotent | luma_diagnostics/utils.py:113-131 | Sanitizing twice is the same as sanitizing once, on both platforms. |
| Utils.ResolvConf | luma_diagnostics/utils.py:99-111 | Defines the servers read from resolv.conf. An unreadable file, or a bare "nameserver" line (IndexError), gives []. |
| Utils.ResolvConfServers | luma_diagnostics/utils.py:99-111 | The loop over lines computes `ResolvConf`. An unreadable file gives []. |
| Utils.LineServer | luma_diagnostics/utils.py:104-106 | One line's contribution. A line not starting with "nameserver" gives none. One with a second word gives exactly that word, which strip leaves as it is. One without a second word raises IndexError. |
| Utils.NameserverAppend | luma_diagnostics/utils.py:101-107 | One more line keeps the earlier servers, adds its own second token, or raises. |
| Utils.NameserverAt | luma_diagnostics/utils.py:101-107 | This is `NameserverAppend` for the prefix ending at line i. |
| Utils.NameserverStuck | luma_diagnostics/utils.py:104-111 | A bare "nameserver" line makes the whole parse fail. |
| Utils.ResolvConfStates | luma_diagnostics/utils.py:99-111 | The parse succeeds iff every "nameserver" line has a second token. Then the servers are, in file order, the stripped second tokens of exactly the "nameserver" lines, one per line, with none missed. |
| Utils.NameserverLines | luma_diagnostics/utils.py:101-107 | A successful parse lists the stripped second token of every "nameserver" line, in file order, and nothing else. |
| Utils.NameserverLastIndex | luma_diagnostics/utils.py:103-106 | One more line extends the positions of the servers by its own exactly when it is a "nameserver" line. |
| Utils.Ipconfig | luma_diagnostics/utils.py:87-97 | Defines the servers taken from `ipconfig /all`: none after a nonzero exit code, otherwise the non-empty extractions of the "DNS Servers" lines. |
| Utils.IpconfigServers | luma_diagnostics/utils.py:87-97 | The loop over the ipconfig output computes `Ipconfig` for a given way of cutting the address out of a line: `AfterLastColon` is the code as written, `AfterFirstColon` the correction. |
| Utils.Pick | luma_diagnostics/utils.py:92-96 | No server reported is empty. |
| Utils.PickAppend | luma_diagnostics/utils.py:92-96 | One more line adds its extracted address iff it is a "DNS Servers" line with a non-empty address. |
| Utils.PickAt | luma_diagnostics/utils.py:92-96 | This is `PickAppend` for the prefix ending at line i. |
| Utils.IpconfigStates | luma_diagnostics/utils.py:87-97 | A nonzero exit code gives []. Otherwise the servers are, in output order, the extractions of exactly the "DNS Servers" lines whose extraction is not empty, one per line, with none missed. |
| Utils.PickLines | luma_diagnostics/utils.py:92-96 | The loop keeps, in order, the non-empty extraction of every "DNS Servers" line and nothing else. |
| Utils.PickIndexAppend | luma_diagnostics/utils.py:92-96 | One more line extends the positions of the servers by its own exactly when it yields a server. |
| Utils.PickFrom | luma_diagnostics/utils.py:92-96 | Every server picked is the extraction of one of the lines. |
| Utils.AfterLastColonCutsAddress | luma_diagnostics/utils.py:94 | As written, an address that contains ':' is cut to what follows its last colon. |
| Utils.AfterLastColonOnIpv6 | luma_diagnostics/utils.py:94 | As written, "DNS Servers : fec0::1" gives the server "1". |
| Utils.SplitEnds | luma_diagnostics/utils.py:94 | The last piece of a split is the text after the last separator. |
| Utils.AfterFirstColonKeepsAddress | luma_diagnostics/utils.py:94 | Taking the text after the first colon keeps the whole address of a "caption : address" line. |
| Utils.AfterFirstColonOnIpv6 | luma_diagnostics/utils.py:94 | The corrected extraction gives "fec0::1" for the IPv6 line. |
| Utils.ConfigDir | luma_diagnostics/utils.py:9-21 | The configuration directory ends in "LumaDiagnostics" on Windows and "luma-diagnostics" elsewhere. |
| Utils.ConfigDirBase | luma_diagnostics/utils.py:9-21 | The base is APPDATA, else home, on Windows. Elsewhere it is XDG_CONFIG_HOME, else home/.config. |
| Utils.DefaultOutputDir | luma_diagnostics/utils.py:60-63 | The default output directory is the configuration directory plus "results". |
| Utils.TracerouteCommand | luma_diagnostics/utils.py:49-54 | The command is tracert on Windows and traceroute elsewhere, with a 30-hop limit and the host last. |
| Wizard.TestTypeChoices | luma_diagnostics/wizard.py:67-76 | The menu starts with "Basic Image Test". It has the four keyed choices after it when a non-empty key was given, and nothing else otherwise. |
| Wizard.ValidateUrl | luma_diagnostics/wizard.py:42 | The URL validator answers True or the "Please enter a valid HTTP(S) URL" message. |
| Wizard.UrlAcceptedIff | luma_diagnostics/wizard.py:42 | A URL is accepted iff it starts with "http://" or "https://". |
| Wizard.ValidateDuration | luma_diagnostics/wizard.py:140 | The duration validator answers True or the "Please enter a valid number" message. |
| Wizard.DurationAcceptedIff | luma_diagnostics/wizard.py:140 | A duration is accepted iff it has a digit and every character is a digit or '.'. |
| Wizard.DurationExamples | luma_diagnostics/wizard.py:140 | "1.2.3", "..5" and "3." are accepted. "", "." and "-1" are rejected. The first two later make `float()` raise ValueError. |
| Wizard.Params | luma_diagnostics/wizard.py:89-146 | Parameters (gated in `main`, lines 240-242) are asked for only for types other than Basic and Full Suite, and then exactly that type's questions. |
| Wizard.MenuParams | luma_diagnostics/wizard.py:240-242 | Among the menu choices, parameters are collected iff the type is one of the three generation tests, iff that type has questions. |
| Wizard.Config | luma_diagnostics/wizard.py:151-157 | Defines the configuration: the URL and key, updated with the parameters unless the test type is Basic. |
| Wizard.BuildConfig | luma_diagnostics/wizard.py:151-157 | The method builds the configuration `Config` defines: the URL and key, updated with the parameters unless the type is Basic. |
| Wizard.GetButLast | luma_diagnostics/wizard.py:157 | A lookup ignores a last entry with a different key. |
| Wizard.UpdatedGet | luma_diagnostics/wizard.py:157 | After `update`, a key takes the parameter's value if it has one, and the old value otherwise. |
| Wizard.UpdatedKeys | luma_diagnostics/wizard.py:157 | `update` keeps the existing keys first, in their order. |
| Wizard.UpdatedFresh | luma_diagnostics/wizard.py:157 | Updating with distinct new keys appends them in order. |
| Wizard.QuestionsFresh | luma_diagnostics/wizard.py:89-143 | Each type's answers have distinct keys, none of them TEST_IMAGE_URL or LUMA_API_KEY. |
| Wizard.ConfigAppends | luma_diagnostics/wizard.py:151-157 | The configuration is the two base entries followed by the collected parameters. |
| Wizard.ConfigOfChoice | luma_diagnostics/wizard.py:151-157 | The configuration keys are TEST_IMAGE_URL, LUMA_API_KEY, then the type's questions, with the URL and key as given. |
| Wizard.OutputFilesOf | luma_diagnostics/wizard.py:176-181 | Defines the saved-file list. It is the `details["output_files"]` of the first "Output Files" result, or [] when there is none, or the error of a failed subscript. |
| Wizard.FindOutputFiles | luma_diagnostics/wizard.py:176-181 | The loop with break computes `OutputFilesOf`, and a failed subscript raises. |
| Wizard.OutputFilesFirst | luma_diagnostics/wizard.py:176-181 | The files are those of the first result named "Output Files". |
| Wizard.OutputFilesNone | luma_diagnostics/wizard.py:176-181 | With no result named "Output Files", the list is empty. |
| Wizard.ShowDetails | luma_diagnostics/wizard.py:200-207 | The loop prints exactly the lines `CompletedLines` defines. |
| Wizard.ShowDetail | luma_diagnostics/wizard.py:202-207 | A dictionary value prints "k:" and one indented line per sub-entry. Any other value prints "k: v". |
| Wizard.Block | luma_diagnostics/wizard.py:195-212 | Defines the lines printed for one result. An "Output Files" result prints none. Any other prints a blank line, its name, a dashed rule and its outcome. A failed lookup of `test_name` prints nothing and gives the error. |
| Wizard.ShowResult | luma_diagnostics/wizard.py:195-212 | One result prints the block `Block` defines, or raises. |
| Wizard.ShowSaved | luma_diagnostics/wizard.py:184-189 | After "Tests completed!", a non-empty file list prints "Results saved to:" and one indented line per file. |
| Wizard.Summary | luma_diagnostics/wizard.py:184-212 | Defines the screen after the tests, in order: the completion notice, the saved files when there are any, the summary heading, then each result's block, stopping at the first error. |
| Wizard.ShowSummary | luma_diagnostics/wizard.py:184-212 | The printed screen is exactly `Summary`: the header, then each block in order, stopping at the first exception. |
| Wizard.BlocksAt | luma_diagnostics/wizard.py:194-212 | One more result adds its block, or ends the summary with that block's exception. |
| Wizard.BlocksSkipOutputFiles | luma_diagnostics/wizard.py:195 | "Output Files" results contribute nothing: removing them leaves the summary unchanged. |
| Wizard.FlatDetailsOneLineEach | luma_diagnostics/wizard.py:201-207 | Details without dictionary values print one "k: v" line each, in order. |
| Wizard.NestedDetailIndented | luma_diagnostics/wizard.py:202-205 | A dictionary detail prints "k:" and then one line per sub-entry, each indented by two spaces. |
| Wizard.OtherOutcome | luma_diagnostics/wizard.py:208-212 | A result that is not completed prints one line, which is "Error: …" iff its details hold an error and "Status: …" otherwise. |

## Left out

- The network, TLS, DNS resolution, `requests`, `subprocess` and the clock are not modelled. Each call's outcome is an input (`Attempt`), and timestamps are parameters.
- Probes other than the six above are not modelled. (Image Metadata and Advanced Image Analysis return None on a status other than 200, and the text report then raises a TypeError; the renderer models that.) They are treated as opaque results of the oracle `run`, which the two runners call. Uncaught exceptions inside probes are not modelled either: the oracle always returns a value.
- PIL and ImageCms decoding are not modelled. The decoded image's format, size, info and colour space are an input.
- JSON output (`json.dump`) and file writes are not modelled. Only the text layout of the report is a string function.
- Floats are not modelled. The quality ratio uses integer cross-multiplication, and latency and `round` are left out. `float(duration)` is also left out: wizard answers are abstract Values, so the duration's type after conversion is not modelled. The validator accepts answers such as "1.2.3" and "..5" (`Wizard.DurationExamples`). On those, `float()` at wizard.py:144 raises ValueError, and nothing catches it, since `main` catches only KeyboardInterrupt (wizard.py:248-251).
- `str()` of a string inside a list or dict is shown with single quotes and without escaping.
- Header lookups in Proxy Detection are case-sensitive in the model. `requests` makes them case-insensitive.
- `isdigit`, `isspace` and `upper` cover ASCII only.
- Reading a file by lines assumes '\n' line ends. Universal newlines are not modelled.
- Paths are sequences of components joined with the platform separator. There is no normalisation.
- A value printed in the wizard summary stays on one line even when it contains a line break. The leading "\n" of a print is modelled as a blank line.
- `ensure_dir_exists`, `get_temp_dir`, `run_command`, `is_admin`, `get_network_info` and `get_program_files` are left out: they are OS process and filesystem calls.
- The Case Information record's platform field is a parameter. `utils.get_platform_info` is not part of this model. utils.py defines no such function, so as written every run with a case id raises AttributeError at diagnostics.py:40. That happens after the probes run and before `save_results` writes anything. The case-information path of `Diagnostics.RunWithConfig` and `CaseInfoFirst` models the intended call, with the platform value as a parameter.
- The configuration of `run_diagnostics` is a parameter, not the module-level CONFIG.
- The wizard calls `run_with_config` with an `image_url` argument it does not accept, and treats the returned path tuple as a result list. The summary is therefore modelled over an abstract list of results.
- The wizard's prompts (questionary), console markup (rich), progress spinner and `clear_screen` are left out. So is the recursive `main()` re-entry. The error print in `run_tests`' except clause is left out too: the failure comes back as the screen's exception instead.
- The traceroute and GeoIP parts of the enhanced network diagnostics are left out, and so is the outer except of `check_ip_reputation`.
- `cli.py`, its argument parsing and directory creation, and the CLI tests are left out.
- Probes.AdvancedImageAnalysis: where the marker loop as written would turn forever, the probe's outcome is `NeverReturns` rather than a hang. The runners take probe results from the oracle `run`, so they do not see a probe that never returns.
- Diagnostics.RunWithConfig: models the directory choice as written, so a `str` output directory raises TypeError. The corrected choice, `OutputDirFixed`, is stated beside it and is not used by the method.
- Probes.RateLimit: the responses are gathered locally and stored in the record at the end. The source appends to the record's list in place; the observable record is the same.

## Findings

| source | as written | input that shows it | evidently intended | confidence | as-written member | corrected member |
|---|---|---|---|---|---|---|
| luma_diagnostics/tests.py:712-724 | A marker other than C2 or DA in the last two bytes reads an empty length field (0). Then `seek(-2, 1)` moves the cursor back to the same marker, so the loop never ends. | a baseline JFIF body (FF D8 FF E0 …) of exactly 65508 bytes ending in FF D9: SOI is misread as a segment of length 65504, the jump lands on EOI at 65506, and the empty length read keeps the cursor there | The scan stops at the end of the data. | high, not executed | Jpeg.JfifOf65508Loops, Probes.AnalysisOfJfif, Jpeg.AsWrittenStuckAtTrailingMarker, Jpeg.AsWrittenScanLoops | Jpeg.ScanProgressive, Probes.AnalysisCorrectedReturns |
| luma_diagnostics/tests.py:712-724 | SOI (FF D8) is handled as a segment with a length field. Its next two bytes, the following marker, are taken as a length, so the walk jumps far past the markers that follow. | any progressive JFIF body of at most 65506 bytes, such as FF D8 FF E0 00 10, 14 more APP0 bytes, then FF C2 …: the APP0 marker is read as length 65504 and the body is reported not progressive | Standalone markers (SOI, RSTn, TEM) have no length field and are stepped over by 2, so SOF2 is found. | high, not executed | Jpeg.JfifShortNeverProgressive, Jpeg.JfifFirstJump, Probes.AnalysisOfJfif | Jpeg.JfifProgressiveFound, Probes.AnalysisCorrectedReturns, Jpeg.SameStepWithLengthField |
| luma_diagnostics/diagnostics.py:18-28 | An explicit `output_dir` is passed on unchanged. The command line (cli.py:37-41) passes it as a `str`, and `ensure_dir_exists` wraps only a copy in `Path`, so `output_dir / f"{timestamp}-diagnostic.json"` raises TypeError before any probe runs. | `--output-dir results` | The explicit directory is used like a `Path`, and the two files are written into it. | high, not executed | Diagnostics.RunWithConfig, Diagnostics.StrOutputDirRaises | Diagnostics.OutputDirFixed, Diagnostics.OutputDirFixedAgrees |
| luma_diagnostics/utils.py:94 | Taking the text after the last ':' of a "DNS Servers" line cuts an IPv6 server address. | "DNS Servers : fec0::1" gives "1" | The address after the caption's colon, "fec0::1". | medium, not executed | Utils.AfterLastColonOnIpv6, Utils.AfterLastColonCutsAddress | Utils.AfterFirstColonKeepsAddress, Utils.AfterFirstColonOnIpv6 |
