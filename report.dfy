/** The human-readable report that `save_results` writes next to the JSON
    file: for every result, a `Test:` header, one indented `key: value`
    line per other key, and a blank line. */
module TextReport {
  import opened Values

  /** What the text file holds when `save_results` returns or raises:
      everything written so far, and the exception, if one ended it. */
  datatype TextFile = TextFile(text: string, failure: Option<Failure>)

  const TestName := "test_name"

  /** The value `item['test_name']` evaluates to, or the exception it
      raises: a TypeError for an item that is not a dictionary (a probe
      that returned None), a KeyError for one without the key. */
  function TestNameOf(item: Value): Result<Value, Failure> {
    Lookup(item, TestName)
  }

  /** The detail line for one entry, without its line break. */
  function DetailRow(e: Entry): string {
    "  " + e.key + ": " + Show(e.value)
  }

  function DetailLine(e: Entry): string {
    DetailRow(e) + "\n"
  }

  /** The detail lines of one result: every entry but `test_name`, in order. */
  function DetailText(fields: Record): string
    decreases |fields|
  {
    if fields == [] then ""
    else DetailPart(fields[0]) + DetailText(fields[1..])
  }

  function Section(name: Value, fields: Record): string {
    "Test: " + Show(name) + "\n" + DetailText(fields) + "\n"
  }

  function Prepend(t: string, f: TextFile): TextFile {
    TextFile(t + f.text, f.failure)
  }

  /** The text file written for `results`, as a function of the list. */
  function Render(results: seq<Value>): TextFile
    decreases |results|
  {
    if results == [] then TextFile("", None)
    else
      match TestNameOf(results[0])
      case Err(e) => TextFile("", Some(e))
      case Ok(name) => Prepend(Section(name, results[0].entries), Render(results[1..]))
  }

  /** The text-file half of `save_results`: the nested write loops. */
  method SaveText(results: seq<Value>) returns (file: TextFile)
    ensures file == Render(results)
  {
    var text := "";
    var i := 0;
    while i < |results|
      invariant 0 <= i <= |results|
      invariant Render(results) == Prepend(text, Render(results[i..]))
    {
      var item := results[i];
      assert results[i..][0] == item;
      assert results[i..][1..] == results[i + 1..];
      if !item.Dict? {
        return TextFile(text, Some(TypeError(item)));
      }
      var name := Get(item.entries, TestName);
      if name.None? {
        return TextFile(text, Some(KeyError(TestName)));
      }
      RenderCons(results[i..]);
      var details := WriteDetails(item.entries);
      ghost var rest := Render(results[i + 1..]);
      var section := "Test: " + Show(name.value) + "\n" + details + "\n";
      assert section == Section(name.value, item.entries);
      assert text + (section + rest.text) == (text + section) + rest.text;
      text := text + section;
      i := i + 1;
    }
    return TextFile(text, None);
  }

  /** The inner write loop: one line per key other than `test_name`. */
  method WriteDetails(fields: Record) returns (text: string)
    ensures text == DetailText(fields)
  {
    text := "";
    var j := 0;
    while j < |fields|
      invariant 0 <= j <= |fields|
      invariant DetailText(fields) == text + DetailText(fields[j..])
    {
      DetailTextAt(fields, j);
      Strings.ConcatAssoc(text, DetailPart(fields[j]), DetailText(fields[j + 1..]));
      text := WriteDetail(text, fields[j]);
      j := j + 1;
    }
  }

  /** The body of the inner loop: the line for one key, unless it is
      `test_name`. */
  method WriteDetail(text: string, e: Entry) returns (written: string)
    ensures written == text + DetailPart(e)
  {
    written := text;
    if e.key != TestName {
      written := written + DetailLine(e);
    }
  }

  lemma DetailTextAt(fields: Record, j: nat)
    requires j < |fields|
    ensures DetailText(fields[j..]) == DetailPart(fields[j]) + DetailText(fields[j + 1..])
  {
    assert fields[j..][1..] == fields[j + 1..];
  }

  function DetailPart(e: Entry): string {
    if e.key != TestName then DetailLine(e) else ""
  }

  lemma RenderCons(results: seq<Value>)
    requires results != [] && TestNameOf(results[0]).Ok?
    ensures Render(results) == Prepend(Section(TestNameOf(results[0]).value, results[0].entries), Render(results[1..]))
  {
  }

  // ---------------------------------------------------------------------
  // The same report, line by line.

  /** The keys that get a detail line: all keys but `test_name`, in order. */
  function DetailKeys(fields: Record): (ks: seq<string>)
    ensures TestName !in ks
    decreases |fields|
  {
    if fields == [] then []
    else (if fields[0].key != TestName then [fields[0].key] else []) + DetailKeys(fields[1..])
  }

  function DetailLines(fields: Record): seq<string>
    decreases |fields|
  {
    if fields == [] then []
    else
      var head := if fields[0].key != TestName then [DetailRow(fields[0])] else [];
      head + DetailLines(fields[1..])
  }

  /** Lines, each followed by a line break. */
  function Unlines(lines: seq<string>): string
    decreases |lines|
  {
    if lines == [] then "" else lines[0] + "\n" + Unlines(lines[1..])
  }

  lemma {:induction false} UnlinesAppend(a: seq<string>, b: seq<string>)
    ensures Unlines(a + b) == Unlines(a) + Unlines(b)
    decreases |a|
  {
    if a != [] {
      assert (a + b)[0] == a[0];
      assert (a + b)[1..] == a[1..] + b;
      UnlinesAppend(a[1..], b);
      calc {
        Unlines(a + b);
        a[0] + "\n" + Unlines(a[1..] + b);
        a[0] + "\n" + (Unlines(a[1..]) + Unlines(b));
        (a[0] + "\n" + Unlines(a[1..])) + Unlines(b);
      }
    } else {
      assert a + b == b;
    }
  }

  /** The lines of a result's section: header, details, blank line. */
  function SectionLines(name: Value, fields: Record): seq<string> {
    ["Test: " + Show(name)] + DetailLines(fields) + [""]
  }

  /** The lines of a report whose every result has a `test_name`. */
  function ReportLines(results: seq<Value>): seq<string>
    requires forall i :: 0 <= i < |results| ==> TestNameOf(results[i]).Ok?
    decreases |results|
  {
    if results == [] then []
    else SectionLines(TestNameOf(results[0]).value, results[0].entries) + ReportLines(results[1..])
  }

  lemma {:induction false} DetailTextLines(fields: Record)
    ensures DetailText(fields) == Unlines(DetailLines(fields))
    decreases |fields|
  {
    if fields != [] {
      DetailTextLines(fields[1..]);
      var head := if fields[0].key != TestName then [DetailRow(fields[0])] else [];
      UnlinesAppend(head, DetailLines(fields[1..]));
    }
  }

  /** The entries that get a detail line: all but `test_name`, in order. */
  function Detailed(fields: Record): (d: Record)
    ensures forall e :: e in d <==> e in fields && e.key != TestName
    decreases |fields|
  {
    if fields == [] then []
    else (if fields[0].key != TestName then [fields[0]] else []) + Detailed(fields[1..])
  }

  function Rows(d: Record): seq<string> {
    seq(|d|, j requires 0 <= j < |d| => DetailRow(d[j]))
  }

  /** The detail lines are one row per entry other than `test_name`, in
      order, and their keys are the detail keys. */
  lemma {:induction false} DetailLinesMatchKeys(fields: Record)
    ensures DetailLines(fields) == Rows(Detailed(fields))
    ensures DetailKeys(fields) == Keys(Detailed(fields))
    decreases |fields|
  {
    if fields != [] {
      DetailLinesMatchKeys(fields[1..]);
      var rest := Detailed(fields[1..]);
      if fields[0].key != TestName {
        RowsCons(fields[0], rest);
        assert ([fields[0]] + rest)[1..] == rest;
      }
    }
  }

  lemma RowsCons(e: Entry, d: Record)
    ensures Rows([e] + d) == [DetailRow(e)] + Rows(d)
  {
    assert forall j :: 0 <= j < |d| ==> ([e] + d)[j + 1] == d[j];
  }

  /** The detail keys are the dictionary's keys in order with `test_name`
      taken out, so the name is never repeated as a detail line. */
  lemma {:induction false} DetailKeysAreOtherKeys(fields: Record)
    ensures DetailKeys(fields) == Without(Keys(fields), TestName)
    decreases |fields|
  {
    if fields != [] {
      DetailKeysAreOtherKeys(fields[1..]);
      assert Keys(fields)[1..] == Keys(fields[1..]);
    }
  }

  function Without(ks: seq<string>, k: string): seq<string>
    decreases |ks|
  {
    if ks == [] then [] else (if ks[0] != k then [ks[0]] else []) + Without(ks[1..], k)
  }

  /** A report whose every result has a name is written in full, and its
      text is the report's lines, each ended by a line break. */
  lemma {:induction false} RenderIsReportLines(results: seq<Value>)
    requires forall i :: 0 <= i < |results| ==> TestNameOf(results[i]).Ok?
    ensures Render(results).failure == None
    ensures Render(results).text == Unlines(ReportLines(results))
    decreases |results|
  {
    if results != [] {
      assert forall i :: 0 <= i < |results[1..]| ==> TestNameOf(results[1..][i]).Ok? by {
        forall i | 0 <= i < |results[1..]| ensures TestNameOf(results[1..][i]).Ok? {
          assert results[1..][i] == results[i + 1];
        }
      }
      RenderIsReportLines(results[1..]);
      var name := TestNameOf(results[0]).value;
      var fields := results[0].entries;
      SectionText(name, fields);
      UnlinesAppend(SectionLines(name, fields), ReportLines(results[1..]));
    }
  }

  lemma SectionText(name: Value, fields: Record)
    ensures Section(name, fields) == Unlines(SectionLines(name, fields))
  {
    DetailTextLines(fields);
    var header := ["Test: " + Show(name)];
    UnlinesAppend(header, DetailLines(fields));
    UnlinesAppend(header + DetailLines(fields), [""]);
    assert Unlines([""]) == "\n";
    assert Unlines(header) == "Test: " + Show(name) + "\n";
  }

  /** Each result's section has the header, exactly one line per key other
      than `test_name`, and the closing blank line. */
  lemma SectionShape(name: Value, fields: Record)
    ensures |SectionLines(name, fields)| == |Without(Keys(fields), TestName)| + 2
    ensures SectionLines(name, fields)[0] == "Test: " + Show(name)
    ensures SectionLines(name, fields)[|SectionLines(name, fields)| - 1] == ""
  {
    DetailLinesMatchKeys(fields);
    DetailKeysAreOtherKeys(fields);
    assert |DetailLines(fields)| == |Detailed(fields)| == |Keys(Detailed(fields))|;
  }

  /** Writing a list is writing its first part and then, if that part went
      through, the rest. */
  lemma {:induction false} RenderAppend(a: seq<Value>, b: seq<Value>)
    ensures Render(a).failure == None ==> Render(a + b) == Prepend(Render(a).text, Render(b))
    ensures Render(a).failure != None ==> Render(a + b) == Render(a)
    decreases |a|
  {
    if a == [] {
      assert a + b == b;
    } else {
      var ab := a + b;
      assert ab[0] == a[0];
      assert ab[1..] == a[1..] + b;
      RenderAppend(a[1..], b);
      if TestNameOf(a[0]).Err? {
        RenderErr(a);
        RenderErr(ab);
      } else {
        var sec := Section(TestNameOf(a[0]).value, a[0].entries);
        RenderCons(a);
        RenderCons(ab);
        var ra, rb, rab := Render(a[1..]), Render(b), Render(a[1..] + b);
        if ra.failure == None {
          PrependPrepend(sec, ra.text, rb);
        }
      }
    }
  }

  lemma PrependPrepend(s: string, t: string, f: TextFile)
    ensures Prepend(s, Prepend(t, f)) == Prepend(s + t, f)
  {
    assert s + (t + f.text) == (s + t) + f.text;
  }

  lemma RenderErr(results: seq<Value>)
    requires results != [] && TestNameOf(results[0]).Err?
    ensures Render(results) == TextFile("", Some(TestNameOf(results[0]).error))
  {
  }

  /** A list whose every result has a name is written without failure. */
  lemma {:induction false} RenderAllNamed(results: seq<Value>)
    requires forall i :: 0 <= i < |results| ==> TestNameOf(results[i]).Ok?
    ensures Render(results).failure == None
    decreases |results|
  {
    if results != [] {
      assert forall i :: 0 <= i < |results[1..]| ==> results[1..][i] == results[i + 1];
      RenderAllNamed(results[1..]);
      RenderCons(results);
    }
  }

  /** The file stops at the first result without a name: everything before
      it is written in full, nothing of it or after it. */
  lemma StopsAtFirstUnnamed(results: seq<Value>, i: nat)
    requires i < |results| && TestNameOf(results[i]).Err?
    requires forall j :: 0 <= j < i ==> TestNameOf(results[j]).Ok?
    ensures Render(results) == TextFile(Render(results[..i]).text, Some(TestNameOf(results[i]).error))
  {
    NamedPrefix(results, i);
    StopsAt(results, i);
  }

  lemma StopsAt(results: seq<Value>, i: nat)
    requires i < |results| && TestNameOf(results[i]).Err?
    requires Render(results[..i]).failure == None
    ensures Render(results) == TextFile(Render(results[..i]).text, Some(TestNameOf(results[i]).error))
  {
    var pre, post := results[..i], results[i..];
    assert pre + post == results;
    RenderAppend(pre, post);
    assert post[0] == results[i];
    RenderErr(post);
    assert Render(pre).text + "" == Render(pre).text;
  }

  lemma NamedPrefix(results: seq<Value>, i: nat)
    requires i <= |results|
    requires forall j :: 0 <= j < i ==> TestNameOf(results[j]).Ok?
    ensures Render(results[..i]).failure == None
  {
    var pre := results[..i];
    forall j | 0 <= j < |pre| ensures TestNameOf(pre[j]).Ok? {
      assert pre[j] == results[j];
    }
    RenderAllNamed(pre);
  }
}
