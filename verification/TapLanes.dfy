/**
 Reading one test lane's output and turning it into certification rows (certification/certify.ts).

 Lines arrive classified: the regular expressions are not part of this model. A line that is blank,
 a version or subtest header, a comment, a detail marker or any other detail counts as Ignored.
 */
module TapLanes {
  import opened Wrappers

  // ----- Rows -----

  datatype Verdict = Pass | Fail | NotTested

  datatype Row = Row(testId: string, category: string, requirement: string, result: Verdict,
                     reasonCode: Option<string>, sourceFile: string)

  const FIELD_MAX: nat := 256
  const REASON_CODE_MAX: nat := 128
  const SOURCE_FILE_MAX: nat := 200

  function Cap(s: string, max: nat): string {
    if |s| > max then s[..max] else s
  }

  // ----- Parsing -----

  datatype Directive = NoDirective | Skip | Todo

  datatype CountKey = Tests | Passed | Failed | Cancelled | Skipped | ToDo

  datatype Line =
    | Ignored
    | Plan(n: nat)
    | Counter(key: CountKey, n: nat)
    | Test(ok: bool, directive: Directive, name: string)
    | FailureType(failureType: string)
    | ExitCode
    | Unrecognized

  /** A stream of nothing but white space is told apart before it is split into lines. */
  datatype Tap = BlankText | Text(lines: seq<Line>)

  datatype Outcome = Outcome(directive: Directive, ok: bool, name: string, failureType: Option<string>,
                             fileLevel: bool)

  datatype Problem =
    | PlanDuplicate | NameEmpty | LineUnrecognized | CountersMissing | CountersInconsistent | PlanMissing
    | OutputEmpty | MalformedOutput | CountMismatch | Uncollectable | LaneEmpty

  datatype Summary = Summary(tests: nat, pass: nat, fail: nat, cancelled: nat, skipped: nat, todo: nat)

  datatype ParsedTap = ParsedTap(outcomes: seq<Outcome>, summary: Summary, wellFormed: bool,
                                 problems: seq<Problem>)

  /** The parser's variables; `plan` is None until a plan line was seen. */
  datatype Reading = Reading(outcomes: seq<Outcome>, problems: seq<Problem>, counters: map<CountKey, nat>,
                             plan: Option<nat>)

  const NOTHING_READ := Reading([], [], map[], None)

  function OnLast(outcomes: seq<Outcome>, line: Line): seq<Outcome> {
    if outcomes == [] then []
    else
      var last := outcomes[|outcomes| - 1];
      outcomes[..|outcomes| - 1]
      + [if line.FailureType? then last.(failureType := Some(line.failureType))
         else if line.ExitCode? then last.(fileLevel := true) else last]
  }

  function ReadLine(r: Reading, line: Line): Reading {
    match line
    case Ignored => r
    case Plan(n) => r.(problems := if r.plan.Some? then r.problems + [PlanDuplicate] else r.problems, plan := Some(n))
    case Counter(key, n) => r.(counters := r.counters[key := n])
    case Test(ok, directive, name) =>
      r.(problems := if name == "" then r.problems + [NameEmpty] else r.problems,
         outcomes := r.outcomes + [Outcome(directive, ok, name, None, false)])
    case FailureType(_) => r.(outcomes := OnLast(r.outcomes, line))
    case ExitCode => r.(outcomes := OnLast(r.outcomes, line))
    case Unrecognized => r.(problems := r.problems + [LineUnrecognized])
  }

  function Read(lines: seq<Line>): Reading {
    if lines == [] then NOTHING_READ else ReadLine(Read(lines[..|lines| - 1]), lines[|lines| - 1])
  }

  function Count(counters: map<CountKey, nat>, key: CountKey): nat {
    if key in counters then counters[key] else 0
  }

  function SummaryOf(counters: map<CountKey, nat>): Summary {
    Summary(Count(counters, Tests), Count(counters, Passed), Count(counters, Failed),
            Count(counters, Cancelled), Count(counters, Skipped), Count(counters, ToDo))
  }

  predicate CountsConsistent(s: Summary, parsed: nat) {
    s.tests == parsed && s.pass + s.fail + s.cancelled + s.skipped + s.todo == s.tests
  }

  function Finish(r: Reading): ParsedTap {
    var summary := SummaryOf(r.counters);
    var consistent := CountsConsistent(summary, |r.outcomes|);
    ParsedTap(r.outcomes, summary, Tests in r.counters && consistent && r.plan == Some(|r.outcomes|),
              AllProblems(r.problems, Tests in r.counters, consistent, r.plan.Some?))
  }

  /** What the parser found in the lines, and what its three last checks add. */
  function AllProblems(found: seq<Problem>, counted: bool, consistent: bool, planned: bool): seq<Problem> {
    Unless(Unless(Unless(found, counted, CountersMissing), consistent, CountersInconsistent), planned, PlanMissing)
  }

  function Unless(problems: seq<Problem>, fine: bool, p: Problem): seq<Problem> {
    if fine then problems else problems + [p]
  }

  function Parsed(tap: Tap): ParsedTap {
    match tap
    case BlankText => ParsedTap([], Summary(0, 0, 0, 0, 0, 0), false, [OutputEmpty])
    case Text(lines) => Finish(Read(lines))
  }

  /** The branches of the parser's loop body. */
  method ParseLine(line: Line, outcomes0: seq<Outcome>, problems0: seq<Problem>, counters0: map<CountKey, nat>,
                   plan0: int, sawPlan0: bool)
    returns (outcomes: seq<Outcome>, problems: seq<Problem>, counters: map<CountKey, nat>, plan: int, sawPlan: bool)
    requires sawPlan0 ==> plan0 >= 0
    ensures sawPlan ==> plan >= 0
    ensures Reading(outcomes, problems, counters, if sawPlan then Some(plan) else None)
            == ReadLine(Reading(outcomes0, problems0, counters0, if sawPlan0 then Some(plan0) else None), line)
  {
    outcomes, problems, counters, plan, sawPlan := outcomes0, problems0, counters0, plan0, sawPlan0;
    match line {
      case Ignored =>
      case Plan(n) =>
        if sawPlan { problems := problems + [PlanDuplicate]; }
        plan, sawPlan := n, true;
      case Counter(key, n) => counters := counters[key := n];
      case Test(ok, directive, name) =>
        if name == "" { problems := problems + [NameEmpty]; }
        outcomes := outcomes + [Outcome(directive, ok, name, None, false)];
      case FailureType(failureType) =>
        if |outcomes| > 0 {
          outcomes := outcomes[..|outcomes| - 1] + [outcomes[|outcomes| - 1].(failureType := Some(failureType))];
        }
      case ExitCode =>
        if |outcomes| > 0 {
          outcomes := outcomes[..|outcomes| - 1] + [outcomes[|outcomes| - 1].(fileLevel := true)];
        }
      case Unrecognized => problems := problems + [LineUnrecognized];
    }
  }

  /** The structural verdict, after the last line. */
  method ConcludeParse(outcomes: seq<Outcome>, found: seq<Problem>, counters: map<CountKey, nat>, plan: int,
                       sawPlan: bool)
    returns (parsed: ParsedTap)
    requires sawPlan ==> plan >= 0
    ensures parsed == Finish(Reading(outcomes, found, counters, if sawPlan then Some(plan) else None))
  {
    var problems := found;
    var summary := SummaryOf(counters);
    var consistent := CountsConsistent(summary, |outcomes|);
    var planConsistent := if !sawPlan then false else plan == |outcomes|;
    if Tests !in counters { problems := problems + [CountersMissing]; }
    if !consistent { problems := problems + [CountersInconsistent]; }
    if !sawPlan { problems := problems + [PlanMissing]; }
    assert planConsistent <==> (if sawPlan then Some(plan) else None) == Some(|outcomes|);
    parsed := ParsedTap(outcomes, summary, Tests in counters && consistent && planConsistent, problems);
  }

  method ParseTapStream(tap: Tap) returns (parsed: ParsedTap)
    ensures parsed == Parsed(tap)
  {
    if tap.BlankText? { return ParsedTap([], Summary(0, 0, 0, 0, 0, 0), false, [OutputEmpty]); }
    var outcomes: seq<Outcome> := [];
    var problems: seq<Problem> := [];
    var counters: map<CountKey, nat> := map[];
    var plan: int := -1;
    var sawPlan := false;
    for i := 0 to |tap.lines|
      invariant sawPlan ==> plan >= 0
      invariant Reading(outcomes, problems, counters, if sawPlan then Some(plan) else None) == Read(tap.lines[..i])
    {
      assert tap.lines[..i + 1][..i] == tap.lines[..i];
      outcomes, problems, counters, plan, sawPlan :=
        ParseLine(tap.lines[i], outcomes, problems, counters, plan, sawPlan);
    }
    assert tap.lines[..|tap.lines|] == tap.lines;
    parsed := ConcludeParse(outcomes, problems, counters, plan, sawPlan);
  }

  // ----- What the parser makes of a stream -----

  /** The number of test lines. */
  function TestLines(lines: seq<Line>): nat {
    if lines == [] then 0
    else TestLines(lines[..|lines| - 1]) + (if lines[|lines| - 1].Test? then 1 else 0)
  }

  function PlanLines(lines: seq<Line>): nat {
    if lines == [] then 0
    else PlanLines(lines[..|lines| - 1]) + (if lines[|lines| - 1].Plan? then 1 else 0)
  }

  /** The value of the last counter line for a key. */
  function LastCount(lines: seq<Line>, key: CountKey): Option<nat> {
    if lines == [] then None
    else
      var last := lines[|lines| - 1];
      if last.Counter? && last.key == key then Some(last.n) else LastCount(lines[..|lines| - 1], key)
  }

  function LastPlan(lines: seq<Line>): Option<nat> {
    if lines == [] then None
    else if lines[|lines| - 1].Plan? then Some(lines[|lines| - 1].n)
    else LastPlan(lines[..|lines| - 1])
  }

  lemma {:induction false} ReadCounts(lines: seq<Line>)
    ensures var r := Read(lines);
            && |r.outcomes| == TestLines(lines)
            && r.plan == LastPlan(lines) && (r.plan.Some? <==> PlanLines(lines) > 0)
            && (forall key :: LastCount(lines, key) == if key in r.counters then Some(r.counters[key]) else None)
  {
    if lines != [] { ReadCounts(lines[..|lines| - 1]); }
  }

  lemma {:induction false} ReadProblems(lines: seq<Line>)
    ensures var r := Read(lines);
            && (LineUnrecognized in r.problems <==> Unrecognized in lines)
            && (NameEmpty in r.problems <==> exists l :: l in lines && l.Test? && l.name == "")
            && (PlanDuplicate in r.problems <==> PlanLines(lines) > 1)
            && (forall p :: p in r.problems ==> p in {LineUnrecognized, NameEmpty, PlanDuplicate})
  {
    if lines != [] {
      var before := lines[..|lines| - 1];
      ReadProblems(before);
      ReadCounts(before);
      assert lines == before + [lines[|lines| - 1]];
    }
  }

  /**
   What the parser keeps of a stream: one outcome for each test line, the last plan and the last
   counters, and a problem for every line it did not understand, empty name and repeated plan.
   */
  lemma {:induction false} ReadCollects(lines: seq<Line>)
    ensures var r := Read(lines);
            && |r.outcomes| == TestLines(lines)
            && r.plan == LastPlan(lines)
            && (forall key :: LastCount(lines, key) == if key in r.counters then Some(r.counters[key]) else None)
            && (LineUnrecognized in r.problems <==> Unrecognized in lines)
            && (NameEmpty in r.problems <==> exists l :: l in lines && l.Test? && l.name == "")
            && (PlanDuplicate in r.problems <==> PlanLines(lines) > 1)
            && (r.plan.Some? <==> PlanLines(lines) > 0)
            && (forall p :: p in r.problems ==> p in {LineUnrecognized, NameEmpty, PlanDuplicate})
  {
    ReadCounts(lines);
    ReadProblems(lines);
  }

  /** The place of the k-th test line, or the end of the stream. */
  function PlaceOf(lines: seq<Line>, k: nat): (place: nat)
    ensures place <= |lines|
    ensures place < |lines| <==> k < TestLines(lines)
    ensures place < |lines| ==> lines[place].Test?
  {
    if lines == [] then 0
    else
      var before := lines[..|lines| - 1];
      if k < TestLines(before) then PlaceOf(before, k)
      else if lines[|lines| - 1].Test? && k == TestLines(before) then |lines| - 1
      else |lines|
  }

  /** The last failure type in a stretch of lines. */
  function LastFailureType(lines: seq<Line>): Option<string> {
    if lines == [] then None
    else if lines[|lines| - 1].FailureType? then Some(lines[|lines| - 1].failureType)
    else LastFailureType(lines[..|lines| - 1])
  }

  /** The lines after the k-th test line, up to the next one. */
  function Details(lines: seq<Line>, k: nat): seq<Line>
    requires k < TestLines(lines)
  {
    PlacesAscend(lines, k);
    lines[PlaceOf(lines, k) + 1..PlaceOf(lines, k + 1)]
  }

  lemma {:induction false} PlacesAscend(lines: seq<Line>, k: nat)
    requires k < TestLines(lines)
    ensures PlaceOf(lines, k) < PlaceOf(lines, k + 1)
  {
    var before := lines[..|lines| - 1];
    if k < TestLines(before) { PlacesAscend(before, k); }
  }

  /** One more line joins the details of the test it follows, and of no other. */
  lemma DetailsGrow(lines: seq<Line>, k: nat)
    requires lines != [] && k < TestLines(lines[..|lines| - 1])
    ensures var before, last := lines[..|lines| - 1], lines[|lines| - 1];
            Details(lines, k) == if k + 1 < TestLines(before) || last.Test? then Details(before, k)
                                 else Details(before, k) + [last]
  {
    var before := lines[..|lines| - 1];
    PlacesAscend(before, k);
    PlacesAscend(lines, k);
    assert PlaceOf(lines, k) == PlaceOf(before, k);
  }

  predicate ReadsAs(o: Outcome, line: Line, details: seq<Line>)
    requires line.Test?
  {
    && o.ok == line.ok && o.directive == line.directive && o.name == line.name
    && o.failureType == LastFailureType(details)
    && (o.fileLevel <==> ExitCode in details)
  }

  lemma OneMoreDetail(o: Outcome, line: Line, details: seq<Line>, last: Line)
    requires line.Test? && !last.Test? && ReadsAs(o, line, details)
    ensures ReadsAs(OnLast([o], last)[0], line, details + [last])
  {
  }

  /** Reading a line that is no test changes at most the last outcome, as a detail of it. */
  lemma ReadLineOn(r: Reading, last: Line, k: nat)
    requires k < |r.outcomes|
    ensures var r' := ReadLine(r, last);
            && k < |r'.outcomes|
            && r'.outcomes[k] == if k + 1 < |r.outcomes| || last.Test? then r.outcomes[k]
                                 else OnLast([r.outcomes[k]], last)[0]
  {
  }

  /**
   Details attach to their own test only: the k-th outcome is the k-th test line, with the last
   failure type between it and the next test line, and counts as a file-level failure exactly
   when an exit code stands there.
   */
  lemma {:induction false} OutcomeReadsItsBlock(lines: seq<Line>, k: nat)
    requires k < TestLines(lines)
    ensures k < |Read(lines).outcomes|
    ensures ReadsAs(Read(lines).outcomes[k], lines[PlaceOf(lines, k)], Details(lines, k))
  {
    ReadCollects(lines);
    var before := lines[..|lines| - 1];
    var last := lines[|lines| - 1];
    ReadCollects(before);
    if k == TestLines(before) {
      assert Details(lines, k) == [];
    } else {
      OutcomeReadsItsBlock(before, k);
      ReadLineOn(Read(before), last, k);
      DetailsGrow(lines, k);
      if k + 1 == TestLines(before) && !last.Test? {
        OneMoreDetail(Read(before).outcomes[k], before[PlaceOf(before, k)], Details(before, k), last);
      }
    }
  }

  // ----- Rows from outcomes -----

  function RowForOutcome(o: Outcome, category: string, sourceFile: string): Row {
    var testId := Cap(sourceFile + "::" + o.name, FIELD_MAX);
    var requirement := Cap(o.name, FIELD_MAX);
    var file := Cap(sourceFile, SOURCE_FILE_MAX);
    if o.directive.Skip? then Row(testId, category, requirement, NotTested, Some("SKIP"), file)
    else if o.directive.Todo? then Row(testId, category, requirement, NotTested, Some("TODO"), file)
    else if o.fileLevel then Row(testId, category, requirement, NotTested, Some("LANE_MALFORMED_OUTPUT"), file)
    else if o.failureType == Some("testTimeoutFailure") then
      Row(testId, category, requirement, NotTested, Some("ROW_CANCELLED"), file)
    else if !o.ok then Row(testId, category, requirement, Fail, Some("TEST_FAILED"), file)
    else Row(testId, category, requirement, Pass, Some("TEST_PASSED"), file)
  }

  // ----- Lanes -----

  datatype Declaration = Declaration(laneId: string, category: string, tap: Tap, declaredTests: nat,
                                     sourceFiles: seq<string>, runnerExit: Option<int>)

  datatype LaneResult = LaneResult(laneId: string, rows: seq<Row>, problems: seq<Problem>,
                                   collapsed: bool, collapseCode: Option<string>)

  predicate IsTapProblem(p: Problem) {
    || p.PlanDuplicate? || p.NameEmpty? || p.LineUnrecognized?
    || p.CountersMissing? || p.CountersInconsistent? || p.PlanMissing?
  }

  predicate AnyTapProblem(problems: seq<Problem>) {
    exists p :: p in problems && IsTapProblem(p)
  }

  predicate AnyFileLevel(outcomes: seq<Outcome>) {
    exists o :: o in outcomes && o.fileLevel
  }

  predicate RunnerDied(d: Declaration, s: Summary) {
    d.runnerExit.Some? && d.runnerExit.value != 0 && s.fail + s.cancelled == 0
  }

  function LaneProblems(d: Declaration, parsed: ParsedTap): seq<Problem> {
    var problems :=
      parsed.problems
      + (if AnyTapProblem(parsed.problems) || !parsed.wellFormed then [MalformedOutput] else [])
      + (if parsed.summary.tests != d.declaredTests then [CountMismatch] else [])
      + (if AnyFileLevel(parsed.outcomes) then [MalformedOutput] else [])
      + (if RunnerDied(d, parsed.summary) then [Uncollectable] else []);
    if problems == [] && parsed.outcomes == [] then [LaneEmpty] else problems
  }

  /** The root cause, by priority. */
  function CollapseCode(problems: seq<Problem>): string {
    if OutputEmpty in problems then "LANE_OUTPUT_EMPTY"
    else if MalformedOutput in problems then "LANE_MALFORMED_OUTPUT"
    else if CountMismatch in problems then "LANE_COUNT_MISMATCH"
    else if Uncollectable in problems then "LANE_UNCOLLECTABLE"
    else if LaneEmpty in problems then "LANE_EMPTY"
    else "LANE_MALFORMED_OUTPUT"
  }

  function SourceOf(d: Declaration): string {
    if d.sourceFiles == [] then d.laneId else d.sourceFiles[0]
  }

  /** No PASS leaves a collapsed lane; failures stay visible. */
  function Withheld(row: Row): Row {
    if row.result.Pass? then row.(result := NotTested, reasonCode := Some("LANE_COLLAPSE_PASS_WITHHELD")) else row
  }

  function RowsOf(outcomes: seq<Outcome>, category: string, sourceFile: string, collapsed: bool): (rows: seq<Row>)
    ensures |rows| == |outcomes|
    ensures forall i :: 0 <= i < |rows| ==>
              var row := RowForOutcome(outcomes[i], category, sourceFile);
              rows[i] == if collapsed then Withheld(row) else row
  {
    seq(|outcomes|, i requires 0 <= i < |outcomes| =>
      var row := RowForOutcome(outcomes[i], category, sourceFile);
      if collapsed then Withheld(row) else row)
  }

  function LaneRow(laneId: string, category: string, sourceFile: string, reasonCode: string): Row {
    Row(Cap(laneId + ":lane", FIELD_MAX), category, Cap("lane " + laneId + " could not be certified", FIELD_MAX),
        NotTested, Some(reasonCode), Cap(sourceFile, SOURCE_FILE_MAX))
  }

  function Collected(d: Declaration): LaneResult {
    var parsed := Parsed(d.tap);
    var problems := LaneProblems(d, parsed);
    if problems == [] then
      LaneResult(d.laneId, RowsOf(parsed.outcomes, d.category, SourceOf(d), false), [], false, None)
    else
      var code := CollapseCode(problems);
      LaneResult(d.laneId,
                 if parsed.outcomes != [] then RowsOf(parsed.outcomes, d.category, SourceOf(d), true)
                 else [LaneRow(d.laneId, d.category, SourceOf(d), code)],
                 problems, true, Some(code))
  }

  method CheckLane(d: Declaration, parsed: ParsedTap) returns (problems: seq<Problem>)
    ensures problems == LaneProblems(d, parsed)
  {
    problems := parsed.problems;
    if AnyTapProblem(parsed.problems) || !parsed.wellFormed { problems := problems + [MalformedOutput]; }
    if parsed.summary.tests != d.declaredTests { problems := problems + [CountMismatch]; }
    if AnyFileLevel(parsed.outcomes) { problems := problems + [MalformedOutput]; }
    if RunnerDied(d, parsed.summary) { problems := problems + [Uncollectable]; }
    if |problems| == 0 && |parsed.outcomes| == 0 { problems := problems + [LaneEmpty]; }
  }

  method CollectLane(d: Declaration) returns (lane: LaneResult)
    ensures lane == Collected(d)
  {
    var parsed := ParseTapStream(d.tap);
    var problems := CheckLane(d, parsed);
    if |problems| > 0 {
      var code := CollapseCode(problems);
      if |parsed.outcomes| > 0 {
        return LaneResult(d.laneId, RowsOf(parsed.outcomes, d.category, SourceOf(d), true), problems, true, Some(code));
      }
      return LaneResult(d.laneId, [LaneRow(d.laneId, d.category, SourceOf(d), code)], problems, true, Some(code));
    }
    lane := LaneResult(d.laneId, RowsOf(parsed.outcomes, d.category, SourceOf(d), false), [], false, None);
  }

  // ----- Soundness of a lane -----

  /** The value a counter line gives, zero where there is none. */
  function CountFrom(lines: seq<Line>, key: CountKey): nat {
    if LastCount(lines, key).Some? then LastCount(lines, key).value else 0
  }

  /** An exit code stands after some test line: a file-level failure of that test or a later one. */
  predicate ExitCodeAfterTest(lines: seq<Line>) {
    exists i, j :: 0 <= i < j < |lines| && lines[i].Test? && lines[j].ExitCode?
  }

  /** What a lane must show before any of its tests may pass. */
  predicate Certifiable(d: Declaration) {
    && d.tap.Text?
    && var lines := d.tap.lines;
       && PlanLines(lines) == 1 && LastPlan(lines) == Some(TestLines(lines))
       && LastCount(lines, Tests) == Some(TestLines(lines)) && d.declaredTests == TestLines(lines)
       && CountFrom(lines, Passed) + CountFrom(lines, Failed) + CountFrom(lines, Cancelled)
          + CountFrom(lines, Skipped) + CountFrom(lines, ToDo) == TestLines(lines)
       && Unrecognized !in lines && !ExitCodeAfterTest(lines)
       && !(d.runnerExit.Some? && d.runnerExit.value != 0 && CountFrom(lines, Failed) + CountFrom(lines, Cancelled) == 0)
  }

  lemma {:induction false} SomeTest(lines: seq<Line>)
    ensures TestLines(lines) > 0 <==> exists i :: 0 <= i < |lines| && lines[i].Test?
  {
    if lines != [] { SomeTest(lines[..|lines| - 1]); }
  }

  /** Some outcome is a file-level failure exactly when an exit code comes after some test. */
  lemma {:induction false} FileLevelIff(lines: seq<Line>)
    ensures AnyFileLevel(Read(lines).outcomes) <==> ExitCodeAfterTest(lines)
  {
    if lines != [] {
      var n := |lines| - 1;
      FileLevelIff(lines[..n]);
      SomeTest(lines[..n]);
      ReadCollects(lines[..n]);
      FileLevelStep(Read(lines[..n]), lines[n]);
      ExitCodeStep(lines);
    }
  }

  lemma {:induction false} FileLevelStep(r: Reading, line: Line)
    ensures AnyFileLevel(ReadLine(r, line).outcomes)
            <==> AnyFileLevel(r.outcomes) || (line.ExitCode? && r.outcomes != [])
  {
    var before, after := r.outcomes, ReadLine(r, line).outcomes;
    if line.Test? {
      assert after == before + [after[|after| - 1]];
    } else if (line.ExitCode? || line.FailureType?) && before != [] {
      var last := |before| - 1;
      assert before == before[..last] + [before[last]] && after == before[..last] + [after[last]];
    }
  }

  lemma {:induction false} ExitCodeStep(lines: seq<Line>)
    requires lines != []
    ensures var before, last := lines[..|lines| - 1], lines[|lines| - 1];
            ExitCodeAfterTest(lines)
            <==> ExitCodeAfterTest(before) || (last.ExitCode? && exists i :: 0 <= i < |before| && before[i].Test?)
  {
  }

  /** What the parser sums up is what the last counter lines say. */
  lemma {:induction false} SummaryIsLast(lines: seq<Line>)
    ensures Parsed(Text(lines)).summary
            == Summary(CountFrom(lines, Tests), CountFrom(lines, Passed), CountFrom(lines, Failed),
                       CountFrom(lines, Cancelled), CountFrom(lines, Skipped), CountFrom(lines, ToDo))
  {
    ReadCollects(lines);
  }

  /** A lane stands exactly when its plan, counters, test lines and declaration all agree. */
  lemma LaneStandsIff(d: Declaration)
    ensures !Collected(d).collapsed <==>
              && Certifiable(d) && TestLines(d.tap.lines) > 0
              && (forall l :: l in d.tap.lines && l.Test? ==> l.name != "")
  {
    if d.tap.Text? {
      var lines := d.tap.lines;
      ReadCollects(lines);
      FileLevelIff(lines);
      SummaryIsLast(lines);
      var r := Read(lines);
      var parsed := Parsed(d.tap);
      assert forall p :: p in r.problems ==> p in parsed.problems;
      if r.problems != [] { assert r.problems[0] in r.problems; assert IsTapProblem(r.problems[0]); }
      if parsed.problems != [] { assert parsed.problems[0] in parsed.problems; }
    }
  }

  /** Test `k` of the lane, as its own line and details tell it, was executed and succeeded. */
  predicate Succeeded(lines: seq<Line>, k: nat)
    requires k < TestLines(lines)
  {
    var line := lines[PlaceOf(lines, k)];
    && line.ok && line.directive.NoDirective?
    && LastFailureType(Details(lines, k)) != Some("testTimeoutFailure")
    && ExitCode !in Details(lines, k)
  }

  /** An outcome passes exactly when it is ok and nothing speaks against it. */
  lemma OutcomePassIff(o: Outcome, category: string, sourceFile: string)
    ensures RowForOutcome(o, category, sourceFile).result.Pass? <==>
              && o.ok && o.directive.NoDirective? && !o.fileLevel && o.failureType != Some("testTimeoutFailure")
    ensures RowForOutcome(o, category, sourceFile).result.Fail? <==>
              && !o.ok && o.directive.NoDirective? && !o.fileLevel && o.failureType != Some("testTimeoutFailure")
  {
  }

  lemma CollectedRow(d: Declaration, i: nat)
    requires i < |Collected(d).rows|
    ensures var outcomes := Parsed(d.tap).outcomes;
            if outcomes == [] then Collected(d).collapsed && Collected(d).rows[i].result.NotTested?
            else
              && i < |outcomes|
              && var row := RowForOutcome(outcomes[i], d.category, SourceOf(d));
                 Collected(d).rows[i] == if Collected(d).collapsed then Withheld(row) else row
  {
  }

  /** A row of a lane passes exactly when its lane stands and its own test succeeded. */
  lemma LanePassIff(d: Declaration, i: nat)
    requires i < |Collected(d).rows|
    ensures Collected(d).rows[i].result.Pass? <==>
              && !Collected(d).collapsed && d.tap.Text? && i < TestLines(d.tap.lines)
              && Succeeded(d.tap.lines, i)
  {
    CollectedRow(d, i);
    if d.tap.Text? && Parsed(d.tap).outcomes != [] {
      ReadCollects(d.tap.lines);
      OutcomeReadsItsBlock(d.tap.lines, i);
      OutcomePassIff(Parsed(d.tap).outcomes[i], d.category, SourceOf(d));
    }
  }

  /** A failed test is reported as failed even from a lane that collapsed. */
  lemma FailuresAreNeverBuried(d: Declaration, k: nat)
    requires d.tap.Text? && k < TestLines(d.tap.lines)
    requires var line, details := d.tap.lines[PlaceOf(d.tap.lines, k)], Details(d.tap.lines, k);
             && !line.ok && line.directive.NoDirective?
             && LastFailureType(details) != Some("testTimeoutFailure") && ExitCode !in details
    ensures k < |Collected(d).rows| && Collected(d).rows[k].result.Fail?
  {
    ReadCollects(d.tap.lines);
    OutcomeReadsItsBlock(d.tap.lines, k);
    CollectedRow(d, k);
    OutcomePassIff(Parsed(d.tap).outcomes[k], d.category, SourceOf(d));
  }
}
