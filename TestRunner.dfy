/**
 * Reading a test run's output. If the output contains an XML declaration, the
 * JUnit report from there on is parsed and each `testcase` element becomes a
 * record; if there is none, or the XML does not parse, every output line that
 * mentions PASSED or FAILED becomes a record. The report counts the records
 * by status and picks line and branch coverage percentages out of the text.
 * The XML parser itself is not modelled: it is a function from the XML text
 * to the `testcase` nodes it finds, or to nothing when it throws.
 */
module TestRunner {
  import opened Base
  import opened Strings
  import opened Models

  // ---------------------------------------------------------------------------
  // Scanning helpers

  /** The length of the run of characters satisfying `p` that starts at `i`. */
  function Span(s: string, i: nat, p: char -> bool): (n: nat)
    requires i <= |s|
    ensures i + n <= |s|
    ensures forall k :: i <= k < i + n ==> p(s[k])
    ensures i + n == |s| || !p(s[i + n])
    decreases |s| - i
  {
    if i < |s| && p(s[i]) then 1 + Span(s, i + 1, p) else 0
  }

  /** A run is measured exactly: `Span` is the unique maximal length. */
  lemma SpanExact(s: string, i: nat, p: char -> bool, n: nat)
    requires i + n <= |s|
    requires forall k :: i <= k < i + n ==> p(s[k])
    requires i + n == |s| || !p(s[i + n])
    ensures Span(s, i, p) == n
  {
  }

  /** `\s` in a Java regular expression: the six ASCII white-space characters. */
  predicate RegexSpace(c: char)
  {
    c == ' ' || c == '\t' || c == '\n' || c == '\U{000B}' || c == '\U{000C}' || c == '\r'
  }

  /** `[A-Za-z0-9_.$]`. */
  predicate NameChar(c: char)
  {
    ('A' <= c <= 'Z') || ('a' <= c <= 'z') || ('0' <= c <= '9') || c == '_' || c == '.' || c == '$'
  }

  // ---------------------------------------------------------------------------
  // Test names

  const UnknownTest: string := "UnknownTest"

  /** `Test\s+([A-Za-z0-9_.$]+)` matched at position `i`: the captured name. */
  function TestNameAt(line: string, i: nat): (r: Option<string>)
    requires i <= |line|
    ensures r.Some? ==> |r.value| > 0 && forall k :: 0 <= k < |r.value| ==> NameChar(r.value[k])
  {
    if !OccursAt(line, "Test", i) then None
    else
      var ws := Span(line, i + 4, RegexSpace);
      var start := i + 4 + ws;
      var len := Span(line, start, NameChar);
      if ws > 0 && len > 0 then Some(line[start..start + len]) else None
  }

  /** The leftmost match at or after `i`. */
  function FindTestName(line: string, i: nat): (r: Option<string>)
    requires i <= |line|
    ensures r.Some? ==> |r.value| > 0 && forall k :: 0 <= k < |r.value| ==> NameChar(r.value[k])
    decreases |line| - i
  {
    var here := TestNameAt(line, i);
    if here.Some? then here else if i == |line| then None else FindTestName(line, i + 1)
  }

  /** `extractTestName`: the first captured name, or "UnknownTest". */
  function ExtractTestName(line: string): (r: string)
    ensures r == UnknownTest || (|r| > 0 && forall k :: 0 <= k < |r| ==> NameChar(r[k]))
  {
    match FindTestName(line, 0)
    case Some(name) => name
    case None => UnknownTest
  }

  /**
   * A line that starts with "Test", white space and a name gives back that
   * name, whatever follows it, as long as the name is not run on.
   */
  lemma TestNameRoundTrip(ws: string, name: string, rest: string)
    requires |ws| > 0 && forall k :: 0 <= k < |ws| ==> RegexSpace(ws[k])
    requires |name| > 0 && forall k :: 0 <= k < |name| ==> NameChar(name[k])
    requires rest == [] || !NameChar(rest[0])
    ensures ExtractTestName("Test" + ws + name + rest) == name
  {
    var line := "Test" + ws + name + rest;
    assert OccursAt(line, "Test", 0) by {
      assert line[..4] == "Test";
    }
    SpaceSpan(line, ws, name, rest);
    NameSpan(line, ws, name, rest);
    assert line[4 + |ws|..4 + |ws| + |name|] == name;
    assert TestNameAt(line, 0) == Some(name);
  }

  lemma SpaceSpan(line: string, ws: string, name: string, rest: string)
    requires line == "Test" + ws + name + rest
    requires forall k :: 0 <= k < |ws| ==> RegexSpace(ws[k])
    requires |name| > 0 && NameChar(name[0])
    ensures Span(line, 4, RegexSpace) == |ws|
  {
    forall k | 4 <= k < 4 + |ws| ensures RegexSpace(line[k]) {
      assert line[k] == ws[k - 4];
    }
    assert line[4 + |ws|] == name[0];
    SpanExact(line, 4, RegexSpace, |ws|);
  }

  lemma NameSpan(line: string, ws: string, name: string, rest: string)
    requires line == "Test" + ws + name + rest
    requires forall k :: 0 <= k < |name| ==> NameChar(name[k])
    requires rest == [] || !NameChar(rest[0])
    ensures Span(line, 4 + |ws|, NameChar) == |name|
  {
    var start := 4 + |ws|;
    forall k | start <= k < start + |name| ensures NameChar(line[k]) {
      assert line[k] == name[k - start];
    }
    if rest != [] {
      assert line[start + |name|] == rest[0];
    }
    SpanExact(line, start, NameChar, |name|);
  }


  /** A line with no "Test" in it has no test name. */
  lemma NoTestNameWithoutTest(line: string)
    requires !Contains(line, "Test")
    ensures ExtractTestName(line) == UnknownTest
  {
    NoTestNameFrom(line, 0);
  }

  lemma {:induction false} NoTestNameFrom(line: string, i: nat)
    requires i <= |line| && !Contains(line, "Test")
    ensures FindTestName(line, i) == None
    decreases |line| - i
  {
    assert !OccursAt(line, "Test", i);
    if i < |line| {
      NoTestNameFrom(line, i + 1);
    }
  }

  // ---------------------------------------------------------------------------
  // Coverage

  const MaxInt: int := 0x7FFF_FFFF

  /** `String.toIntOrNull()` on a run of decimal digits. */
  function ToIntOrNull(digits: string): (r: Option<int>)
    requires forall k :: 0 <= k < |digits| ==> IsDigit(digits[k])
    ensures r.Some? ==> 0 <= r.value <= MaxInt && r.value == DigitsValue(digits)
    ensures r.None? <==> DigitsValue(digits) > MaxInt
  {
    var v := DigitsValue(digits);
    if v <= MaxInt then Some(v) else None
  }

  /** `<marker>\s*(\d+)%` matched at position `i`: the captured digits. */
  function PercentAt(s: string, marker: string, i: nat): (r: Option<string>)
    requires i <= |s|
    ensures r.Some? ==> |r.value| > 0 && forall k :: 0 <= k < |r.value| ==> IsDigit(r.value[k])
  {
    if !OccursAt(s, marker, i) then None
    else
      var start := i + |marker| + Span(s, i + |marker|, RegexSpace);
      var len := Span(s, start, IsDigit);
      if len > 0 && start + len < |s| && s[start + len] == '%' then Some(s[start..start + len]) else None
  }

  /** The leftmost match at or after `i`. */
  function FindPercent(s: string, marker: string, i: nat): (r: Option<string>)
    requires i <= |s|
    ensures r.Some? ==> |r.value| > 0 && forall k :: 0 <= k < |r.value| ==> IsDigit(r.value[k])
    decreases |s| - i
  {
    var here := PercentAt(s, marker, i);
    if here.Some? then here else if i == |s| then None else FindPercent(s, marker, i + 1)
  }

  /** The percentage after `marker`, 0 when there is none or it does not fit an `Int`. */
  function Percentage(s: string, marker: string): (r: int)
    ensures 0 <= r <= MaxInt
  {
    match FindPercent(s, marker, 0)
    case None => 0
    case Some(digits) =>
      match ToIntOrNull(digits)
      case Some(v) => v
      case None => 0
  }

  const LineLabel: string := "Line coverage:"
  const BranchLabel: string := "Branch coverage:"

  /** `extractCoverage`: uncovered lines are never reported. */
  function ExtractCoverage(output: string): (r: CoverageReport)
    ensures 0 <= r.line <= MaxInt && 0 <= r.branch <= MaxInt && r.uncoveredLines == []
  {
    CoverageReport(Percentage(output, LineLabel), Percentage(output, BranchLabel), [])
  }

  /** Output that opens with "<marker> <n>%" reports n, or 0 when n does not fit an `Int`. */
  lemma PercentageRoundTrip(marker: string, ws: string, n: nat, rest: string)
    requires forall k :: 0 <= k < |ws| ==> RegexSpace(ws[k])
    ensures Percentage(marker + ws + NatToString(n) + "%" + rest, marker) == if n <= MaxInt then n else 0
  {
    var digits := NatToString(n);
    var s := marker + ws + digits + "%" + rest;
    PercentAtStart(marker, ws, digits, rest);
    assert FindPercent(s, marker, 0) == Some(digits);
    DigitsValueOfNatToString(n);
  }

  lemma PercentAtStart(marker: string, ws: string, digits: string, rest: string)
    requires forall k :: 0 <= k < |ws| ==> RegexSpace(ws[k])
    requires |digits| > 0 && forall k :: 0 <= k < |digits| ==> IsDigit(digits[k])
    ensures PercentAt(marker + ws + digits + "%" + rest, marker, 0) == Some(digits)
  {
    var s := marker + ws + digits + "%" + rest;
    assert s[..|marker|] == marker;
    var start := |marker| + |ws|;
    forall k | |marker| <= k < start ensures RegexSpace(s[k]) {
      assert s[k] == ws[k - |marker|];
    }
    assert s[start] == digits[0];
    SpanExact(s, |marker|, RegexSpace, |ws|);
    forall k | start <= k < start + |digits| ensures IsDigit(s[k]) {
      assert s[k] == digits[k - start];
    }
    assert s[start + |digits|] == '%';
    SpanExact(s, start, IsDigit, |digits|);
    assert s[start..start + |digits|] == digits;
  }

  // ---------------------------------------------------------------------------
  // The line-scan fallback

  const FailedText: string := "Test failed. See logs for detail."

  /** The record a log line yields, numbered `id`: PASSED wins over FAILED. */
  function LogRecord(line: string, id: nat): Option<TestResult>
  {
    if ContainsIgnoreCase(line, "PASSED") then
      Some(TestResult(NatToString(id), ExtractTestName(line), PASSED, None, 0))
    else if ContainsIgnoreCase(line, "FAILED") then
      Some(TestResult(NatToString(id), ExtractTestName(line), TestStatus.FAILED, Some(FailedText), 0))
    else None
  }

  /** The records of the lines, numbered from 0 in line order. */
  function LogRecords(lines: seq<string>): seq<TestResult>
  {
    if |lines| == 0 then []
    else
      var prev := LogRecords(lines[..|lines| - 1]);
      match LogRecord(lines[|lines| - 1], |prev|)
      case Some(record) => prev + [record]
      case None => prev
  }

  /** `parseFromLogs`: a counter numbers the lines that yield a record. */
  method ParseFromLogs(output: string) returns (records: seq<TestResult>)
    ensures records == LogRecords(Lines(output))
  {
    var lines := Lines(output);
    var counter := 0;
    records := [];
    for i := 0 to |lines|
      invariant records == LogRecords(lines[..i]) && counter == |records|
    {
      assert lines[..i + 1][..i] == lines[..i];
      var line := lines[i];
      if ContainsIgnoreCase(line, "PASSED") {
        records := records + [TestResult(NatToString(counter), ExtractTestName(line), PASSED, None, 0)];
        counter := counter + 1;
      } else if ContainsIgnoreCase(line, "FAILED") {
        records := records + [TestResult(NatToString(counter), ExtractTestName(line), TestStatus.FAILED, Some(FailedText), 0)];
        counter := counter + 1;
      }
    }
    assert lines[..|lines|] == lines;
  }

  predicate MentionsPassed(line: string)
  {
    ContainsIgnoreCase(line, "PASSED")
  }

  predicate MentionsOnlyFailed(line: string)
  {
    !ContainsIgnoreCase(line, "PASSED") && ContainsIgnoreCase(line, "FAILED")
  }

  function CountLines(lines: seq<string>, p: string -> bool): nat
  {
    if |lines| == 0 then 0 else CountLines(lines[..|lines| - 1], p) + (if p(lines[|lines| - 1]) then 1 else 0)
  }

  function Count(records: seq<TestResult>, status: TestStatus): nat
  {
    if |records| == 0 then 0
    else Count(records[..|records| - 1], status) + (if records[|records| - 1].status == status then 1 else 0)
  }

  /** Every record of a statusless report is PASSED or FAILED. */
  ghost predicate PassOrFail(records: seq<TestResult>)
  {
    forall k :: 0 <= k < |records| ==> records[k].status == PASSED || records[k].status == TestStatus.FAILED
  }

  /** Records numbered "0", "1", … in order. */
  ghost predicate Numbered(records: seq<TestResult>)
  {
    forall k :: 0 <= k < |records| ==> records[k].testId == NatToString(k)
  }

  /**
   * The fallback yields one record per line mentioning PASSED (as PASSED) or
   * else FAILED (as FAILED, with the fixed error text), numbered in order and
   * with no duration.
   */
  lemma {:induction false} LogRecordsShape(lines: seq<string>)
    ensures var r := LogRecords(lines);
      |r| == CountLines(lines, MentionsPassed) + CountLines(lines, MentionsOnlyFailed)
      && Count(r, PASSED) == CountLines(lines, MentionsPassed)
      && Count(r, TestStatus.FAILED) == CountLines(lines, MentionsOnlyFailed)
      && PassOrFail(r) && Numbered(r)
      && (forall k :: 0 <= k < |r| ==>
            r[k].duration == 0 && (r[k].status == TestStatus.FAILED ==> r[k].error == Some(FailedText)))
  {
    if |lines| > 0 {
      var init := lines[..|lines| - 1];
      LogRecordsShape(init);
      var prev := LogRecords(init);
      var r := LogRecords(lines);
      if LogRecord(lines[|lines| - 1], |prev|).Some? {
        assert r[..|r| - 1] == prev;
      }
    }
  }

  /** No line that mentions neither word yields a record. */
  lemma {:induction false} QuietLinesYieldNothing(lines: seq<string>)
    requires forall k :: 0 <= k < |lines| ==> !ContainsIgnoreCase(lines[k], "PASSED") && !ContainsIgnoreCase(lines[k], "FAILED")
    ensures LogRecords(lines) == []
  {
    if |lines| > 0 {
      QuietLinesYieldNothing(lines[..|lines| - 1]);
    }
  }

  // ---------------------------------------------------------------------------
  // The JUnit branch

  /** A child node of a `testcase` element. */
  datatype ChildNode = ChildNode(isElement: bool, nodeName: string, textContent: string)

  /**
   * A `testcase` element: its `name` attribute, its `time` attribute already
   * converted to milliseconds (absent or unparsable: none), and its children.
   */
  datatype TestCaseNode = TestCaseNode(name: Option<string>, timeMs: Option<int>, children: seq<ChildNode>)

  /** The XML parser: the `testcase` elements of a document, or nothing when parsing throws. */
  type XmlParser = string -> Option<seq<TestCaseNode>>

  predicate IsFailureChild(child: ChildNode)
  {
    child.isElement && (child.nodeName == "failure" || child.nodeName == "error")
  }

  /** The position of the first `failure` or `error` element at or after `j`. */
  function FirstFailureFrom(children: seq<ChildNode>, j: nat): (r: Option<nat>)
    requires j <= |children|
    ensures r.None? <==> forall m :: j <= m < |children| ==> !IsFailureChild(children[m])
    ensures r.Some? ==>
      j <= r.value < |children| && IsFailureChild(children[r.value])
      && forall m :: j <= m < r.value ==> !IsFailureChild(children[m])
    decreases |children| - j
  {
    if j == |children| then None
    else if IsFailureChild(children[j]) then Some(j)
    else FirstFailureFrom(children, j + 1)
  }

  /** The record of the `i`-th test case: FAILED exactly when it has a failure or error element. */
  function JUnitRecord(i: nat, node: TestCaseNode): TestResult
  {
    var name := if node.name.Some? then node.name.value else "Unknown";
    var time := if node.timeMs.Some? then node.timeMs.value else 0;
    match FirstFailureFrom(node.children, 0)
    case None => TestResult(NatToString(i), name, PASSED, None, time)
    case Some(j) => TestResult(NatToString(i), name, TestStatus.FAILED, Some(node.children[j].textContent), time)
  }

  function JUnitRecords(nodes: seq<TestCaseNode>): seq<TestResult>
  {
    seq(|nodes|, i requires 0 <= i < |nodes| => JUnitRecord(i, nodes[i]))
  }

  /** The loop over test cases, and over each one's children until the first failure. */
  method ParseTestCases(nodes: seq<TestCaseNode>) returns (records: seq<TestResult>)
    ensures records == JUnitRecords(nodes)
  {
    records := [];
    for i := 0 to |nodes|
      invariant |records| == i
      invariant forall k :: 0 <= k < i ==> records[k] == JUnitRecord(k, nodes[k])
    {
      var node := nodes[i];
      var name := if node.name.Some? then node.name.value else "Unknown";
      var time := if node.timeMs.Some? then node.timeMs.value else 0;
      var status := PASSED;
      var error: Option<string> := None;
      var j := 0;
      while j < |node.children|
        invariant 0 <= j <= |node.children|
        invariant forall m :: 0 <= m < j ==> !IsFailureChild(node.children[m])
        invariant status == PASSED && error == None
      {
        var child := node.children[j];
        if child.isElement && (child.nodeName == "failure" || child.nodeName == "error") {
          status := TestStatus.FAILED;
          error := Some(child.textContent);
          break;
        }
        j := j + 1;
      }
      assert status == PASSED ==> FirstFailureFrom(node.children, 0) == None;
      assert status != PASSED ==> FirstFailureFrom(node.children, 0) == Some(j);
      records := records + [TestResult(NatToString(i), name, status, error, time)];
    }
  }

  /** Test cases are numbered by position; a test case fails exactly when it has a failure or error element. */
  lemma JUnitRecordsShape(nodes: seq<TestCaseNode>)
    ensures var r := JUnitRecords(nodes);
      |r| == |nodes| && PassOrFail(r) && Numbered(r)
      && forall k :: 0 <= k < |r| ==>
           (r[k].status == TestStatus.FAILED <==> exists m :: 0 <= m < |nodes[k].children| && IsFailureChild(nodes[k].children[m]))
           && (r[k].status == PASSED ==> r[k].error == None)
           && (nodes[k].name.Some? ==> r[k].name == nodes[k].name.value)
           && (nodes[k].name.None? ==> r[k].name == "Unknown")
  {
    var r := JUnitRecords(nodes);
    forall k | 0 <= k < |r|
      ensures r[k].status == TestStatus.FAILED <==> exists m :: 0 <= m < |nodes[k].children| && IsFailureChild(nodes[k].children[m])
    {
      var f := FirstFailureFrom(nodes[k].children, 0);
      if f.Some? {
        assert IsFailureChild(nodes[k].children[f.value]);
      }
    }
  }

  // ---------------------------------------------------------------------------
  // The report

  /** The records: JUnit if the output has an XML declaration that parses, log lines otherwise. */
  function Records(output: string, parse: XmlParser): seq<TestResult>
  {
    var xmlStart := IndexOf(output, "<?xml");
    if xmlStart == -1 then LogRecords(Lines(output))
    else
      match parse(output[xmlStart..])
      case Some(nodes) => JUnitRecords(nodes)
      case None => LogRecords(Lines(output))
  }

  /** `parseJUnitXml`. */
  method ParseJUnitXml(output: string, parse: XmlParser) returns (records: seq<TestResult>)
    ensures records == Records(output, parse)
  {
    var xmlStart := IndexOf(output, "<?xml");
    if xmlStart == -1 {
      records := ParseFromLogs(output);
      return;
    }
    var xmlContent := output[xmlStart..];
    match parse(xmlContent) {
      case Some(nodes) => records := ParseTestCases(nodes);
      case None => records := ParseFromLogs(output);
    }
  }

  function Report(output: string, parse: XmlParser): TestResults
  {
    var records := Records(output, parse);
    TestResults(Count(records, PASSED), Count(records, TestStatus.FAILED), |records|, records, ExtractCoverage(output))
  }

  /** `parseTestResults`: counts the records of the execution's output and reads its coverage. */
  method ParseTestResults(result: ExecutionResult, parse: XmlParser) returns (report: TestResults)
    ensures report == Report(result.output, parse)
  {
    var records := ParseJUnitXml(result.output, parse);
    report := TestResults(Count(records, PASSED), Count(records, TestStatus.FAILED), |records|, records,
                          ExtractCoverage(result.output));
  }

  /** Records that are all PASSED or FAILED split into the two tallies. */
  lemma {:induction false} TallyPassOrFail(records: seq<TestResult>)
    requires PassOrFail(records)
    ensures Count(records, PASSED) + Count(records, TestStatus.FAILED) == |records|
  {
    if |records| > 0 {
      TallyPassOrFail(records[..|records| - 1]);
    }
  }

  /**
   * The report's total is the number of records (no header count is read),
   * which are numbered in order, and every record is counted as passed or
   * failed, so the two tallies add up to the total.
   */
  lemma ReportTally(output: string, parse: XmlParser)
    ensures var r := Report(output, parse);
      r.total == |r.details| && r.passed + r.failed == r.total && Numbered(r.details)
      && r.coverage == ExtractCoverage(output)
  {
    RecordsPassOrFail(output, parse);
    TallyPassOrFail(Records(output, parse));
  }

  lemma RecordsPassOrFail(output: string, parse: XmlParser)
    ensures PassOrFail(Records(output, parse)) && Numbered(Records(output, parse))
  {
    var xmlStart := IndexOf(output, "<?xml");
    if xmlStart != -1 && parse(output[xmlStart..]).Some? {
      JUnitPassOrFail(parse(output[xmlStart..]).value);
    } else {
      LogPassOrFail(Lines(output));
    }
  }

  lemma JUnitPassOrFail(nodes: seq<TestCaseNode>)
    ensures PassOrFail(JUnitRecords(nodes)) && Numbered(JUnitRecords(nodes))
  {
    JUnitRecordsShape(nodes);
  }

  lemma LogPassOrFail(lines: seq<string>)
    ensures PassOrFail(LogRecords(lines)) && Numbered(LogRecords(lines))
  {
    LogRecordsShape(lines);
  }

  /** Output without an XML declaration, or whose XML does not parse, is read line by line. */
  lemma FallbackRouting(output: string, parse: XmlParser)
    ensures !Contains(output, "<?xml") ==> Records(output, parse) == LogRecords(Lines(output))
    ensures Contains(output, "<?xml") ==>
      (parse(output[IndexOf(output, "<?xml")..]).None? ==> Records(output, parse) == LogRecords(Lines(output)))
      && (parse(output[IndexOf(output, "<?xml")..]).Some? ==>
            Records(output, parse) == JUnitRecords(parse(output[IndexOf(output, "<?xml")..]).value))
  {
  }
}
