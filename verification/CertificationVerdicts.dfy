/**
 What each verdict in a report rests on, told by the rows of the lanes and by the lines of their
 test output.
 */
module CertificationVerdicts {
  import opened Wrappers
  import opened Ordering
  import opened TapLanes
  import opened CertificationReport
  import opened CertificationVerifier
  import opened CertificationResults
  import opened CertificationEvidence

  /** Two places hold rows with this test id that differ in some field. */
  predicate Disputed(inputs: seq<LaneInput>, id: string) {
    exists l, k, m, n ::
      && 0 <= l < |inputs| && 0 <= k < |inputs[l].lane.rows| && 0 <= m < |inputs| && 0 <= n < |inputs[m].lane.rows|
      && inputs[l].lane.rows[k].testId == id && inputs[m].lane.rows[n].testId == id
      && inputs[l].lane.rows[k] != inputs[m].lane.rows[n]
  }

  lemma DisputedIff(inputs: seq<LaneInput>, id: string)
    requires Of(Entries(inputs), id) != []
    ensures Disputed(inputs, id) <==> !Alike(Of(Entries(inputs), id))
  {
    var group := Of(Entries(inputs), id);
    OfMembers(Entries(inputs), id);
    if !Alike(group) {
      var e :| e in group && e.row != group[0].row;
      var l, k := EvidenceHasPlace(inputs, e);
      var m, n := EvidenceHasPlace(inputs, group[0]);
      assert inputs[l].lane.rows[k] == e.row && inputs[m].lane.rows[n] == group[0].row;
    }
    if Disputed(inputs, id) {
      var l, k, m, n :|
        && 0 <= l < |inputs| && 0 <= k < |inputs[l].lane.rows| && 0 <= m < |inputs| && 0 <= n < |inputs[m].lane.rows|
        && inputs[l].lane.rows[k].testId == id && inputs[m].lane.rows[n].testId == id
        && inputs[l].lane.rows[k] != inputs[m].lane.rows[n];
      PlaceIsEvidence(inputs, l, k);
      PlaceIsEvidence(inputs, m, n);
    }
  }

  /** The report row for a test id is what its evidence settles to. */
  lemma ReportedRow(inputs: seq<LaneInput>, row: Row)
    requires row in Assembled(inputs).rows
    ensures var group := Of(Entries(inputs), row.testId); group != [] && row == Settle(group).row
  {
    var entries := Entries(inputs);
    var i :| 0 <= i < |Canonical(entries)| && Canonical(entries)[i].row == row;
    CanonicalHas(entries, i);
  }

  /** Every row of the report goes back to a place with its test id. */
  lemma ReportedFrom(inputs: seq<LaneInput>, row: Row) returns (l: nat, k: nat)
    requires row in Assembled(inputs).rows
    ensures IsPlace(inputs, l, k) && RowAt(inputs, l, k).testId == row.testId
  {
    ReportedRow(inputs, row);
    var first := Of(Entries(inputs), row.testId)[0];
    OfMembers(Entries(inputs), row.testId);
    assert first in Of(Entries(inputs), row.testId);
    l, k := EvidenceHasPlace(inputs, first);
  }

  lemma OneRowPerId(inputs: seq<LaneInput>, row: Row, other: Row)
    requires row in Assembled(inputs).rows && other in Assembled(inputs).rows && row.testId == other.testId
    ensures row == other
  {
    ReportedRow(inputs, row);
    ReportedRow(inputs, other);
  }

  /** Every place is reported: a row of the report has its test id. */
  lemma EveryPlaceIsReported(inputs: seq<LaneInput>, l: nat, k: nat) returns (row: Row)
    requires IsPlace(inputs, l, k)
    ensures row in Assembled(inputs).rows && row.testId == RowAt(inputs, l, k).testId
  {
    var id := RowAt(inputs, l, k).testId;
    PlaceIsEvidence(inputs, l, k);
    CanonicalCovers(Entries(inputs), id);
    OfMembers(Entries(inputs), id);
    assert Of(Entries(inputs), id)[0] in Of(Entries(inputs), id);
    row := CanonicalRow(Entries(inputs), Settle(Of(Entries(inputs), id)));
  }

  /**
   What one place says of the report's row with its test id: a row whose id stands nowhere else is
   reported as it is; one that differs from another row with its id makes a FAIL; one that is only
   repeated proves nothing.
   */
  lemma PlaceDecides(inputs: seq<LaneInput>, row: Row, l: nat, k: nat)
    requires row in Assembled(inputs).rows && IsPlace(inputs, l, k) && RowAt(inputs, l, k).testId == row.testId
    ensures !Recurs(inputs, l, k) ==> row == RowAt(inputs, l, k) && !Disputed(inputs, row.testId)
    ensures Disputed(inputs, row.testId) ==>
              row.result.Fail? && row.reasonCode == Some("ROW_CONFLICTING_EVIDENCE")
    ensures Recurs(inputs, l, k) && !Disputed(inputs, row.testId) ==>
              row == RowAt(inputs, l, k).(result := NotTested, reasonCode := Some("ROW_DUPLICATE_IDENTICAL"))
  {
    var group := Of(Entries(inputs), row.testId);
    ReportedRow(inputs, row);
    RecursIsMore(inputs, l, k);
    DisputedIff(inputs, row.testId);
    PlaceIsEvidence(inputs, l, k);
    assert |group| == 1 ==> group[0].row == RowAt(inputs, l, k);
  }

  /** The only row of all lanes with its test id stands here, with this result. */
  predicate Sole(inputs: seq<LaneInput>, id: string, v: Verdict) {
    exists l, k :: 0 <= l < |inputs| && 0 <= k < |inputs[l].lane.rows| && inputs[l].lane.rows[k].testId == id
                   && inputs[l].lane.rows[k].result == v && !Recurs(inputs, l, k)
  }

  /**
   The verdicts of a report, on the rows of its lanes. FAIL: the only row with the id is FAIL, or
   rows with the id differ. PASS: the only row with the id is PASS. NOT-TESTED: everything else.
   */
  lemma VerdictsRestOnRows(inputs: seq<LaneInput>, row: Row)
    requires row in Assembled(inputs).rows
    ensures row.result.Fail? <==> Sole(inputs, row.testId, Fail) || Disputed(inputs, row.testId)
    ensures row.result.Pass? <==> Sole(inputs, row.testId, Pass)
  {
    var l, k := ReportedFrom(inputs, row);
    PlaceDecides(inputs, row, l, k);
    if v: Verdict :| Sole(inputs, row.testId, v) && v != row.result {
      var m, n :| 0 <= m < |inputs| && 0 <= n < |inputs[m].lane.rows| && inputs[m].lane.rows[n].testId == row.testId
                  && inputs[m].lane.rows[n].result == v && !Recurs(inputs, m, n);
      PlaceDecides(inputs, row, m, n);
    }
    assert !Recurs(inputs, l, k) ==> inputs[l].lane.rows[k].result == row.result;
  }

  // ----- The numbers of the report -----

  /** The test ids of all lanes. */
  ghost function TestIds(inputs: seq<LaneInput>): set<string> {
    set l: nat, k: nat | l < |inputs| && k < |inputs[l].lane.rows| :: inputs[l].lane.rows[k].testId
  }

  predicate Fails(inputs: seq<LaneInput>, id: string) {
    Sole(inputs, id, Fail) || Disputed(inputs, id)
  }

  predicate Passes(inputs: seq<LaneInput>, id: string) {
    Sole(inputs, id, Pass)
  }

  ghost function IdsOf(rows: seq<Row>): set<string> {
    set row | row in rows :: row.testId
  }

  ghost function IdsWith(rows: seq<Row>, v: Verdict): set<string> {
    set row | row in rows && row.result == v :: row.testId
  }

  predicate IdsDiffer(rows: seq<Row>) {
    forall i, j :: 0 <= i < j < |rows| ==> rows[i].testId != rows[j].testId
  }

  lemma IdsGrow(before: seq<Row>, last: Row, v: Verdict)
    requires forall row :: row in before ==> row.testId != last.testId
    ensures last.testId !in IdsOf(before) && last.testId !in IdsWith(before, v)
    ensures IdsOf(before + [last]) == IdsOf(before) + {last.testId}
    ensures IdsWith(before + [last], v) == IdsWith(before, v) + (if last.result == v then {last.testId} else {})
  {
    assert forall row :: row in before + [last] <==> row in before || row == last;
  }

  lemma CountGrows(before: seq<Row>, last: Row, v: Verdict)
    ensures CountOf(before + [last], v) == CountOf(before, v) + (if last.result == v then 1 else 0)
  {
    assert (before + [last])[..|before|] == before;
  }

  lemma {:induction false} CountIsSize(rows: seq<Row>, v: Verdict)
    requires IdsDiffer(rows)
    ensures |rows| == |IdsOf(rows)| && CountOf(rows, v) == |IdsWith(rows, v)|
  {
    if rows != [] {
      var before, last := rows[..|rows| - 1], rows[|rows| - 1];
      assert rows == before + [last];
      CountIsSize(before, v);
      IdsGrow(before, last, v);
      CountGrows(before, last, v);
    }
  }

  /** The ids of the report's rows are those of the lanes. */
  lemma ReportedIds(inputs: seq<LaneInput>)
    ensures IdsOf(Assembled(inputs).rows) == TestIds(inputs)
  {
    forall row | row in Assembled(inputs).rows ensures row.testId in TestIds(inputs) {
      var l, k := ReportedFrom(inputs, row);
    }
    forall l: nat, k: nat | l < |inputs| && k < |inputs[l].lane.rows|
      ensures inputs[l].lane.rows[k].testId in IdsOf(Assembled(inputs).rows)
    {
      var row := EveryPlaceIsReported(inputs, l, k);
    }
  }

  lemma ReportedVerdicts(inputs: seq<LaneInput>)
    ensures IdsWith(Assembled(inputs).rows, Fail) == set id | id in TestIds(inputs) && Fails(inputs, id)
    ensures IdsWith(Assembled(inputs).rows, Pass) == set id | id in TestIds(inputs) && Passes(inputs, id)
  {
    var rows := Assembled(inputs).rows;
    ReportedIds(inputs);
    forall row | row in rows
      ensures row.testId in TestIds(inputs)
      ensures row.result == Fail <==> Fails(inputs, row.testId)
      ensures row.result == Pass <==> Passes(inputs, row.testId)
    {
      VerdictsRestOnRows(inputs, row);
      assert row.testId in IdsOf(rows);
    }
  }

  /**
   The totals count tests, not rows: all test ids of the lanes, those that fail and those that pass,
   each once however often it was reported; the rest is NOT-TESTED.
   */
  lemma TotalsCountTests(inputs: seq<LaneInput>)
    ensures var t := Assembled(inputs).totals;
            && t.total == |TestIds(inputs)|
            && t.fail == |set id | id in TestIds(inputs) && Fails(inputs, id)|
            && t.pass == |set id | id in TestIds(inputs) && Passes(inputs, id)|
            && t.notTested == t.total - t.pass - t.fail
  {
    var rows := Assembled(inputs).rows;
    CanonicalIsStrict(Entries(inputs));
    assert IdsDiffer(rows);
    ReportedIds(inputs);
    ReportedVerdicts(inputs);
    CountIsSize(rows, Fail);
    CountIsSize(rows, Pass);
    CountsAddUp(rows);
  }

  // ----- From the lines of a lane -----

  /** Test `k`, as its own line and details tell it, was executed and failed. */
  predicate FailedTest(lines: seq<Line>, k: nat)
    requires k < TestLines(lines)
  {
    var line := lines[PlaceOf(lines, k)];
    && !line.ok && line.directive.NoDirective?
    && LastFailureType(Details(lines, k)) != Some("testTimeoutFailure")
    && ExitCode !in Details(lines, k)
  }

  /** What a row says of a test with this line and these details, and why. */
  predicate Says(row: Row, d: Declaration, line: Line, details: seq<Line>, collapsed: bool)
    requires line.Test?
  {
    var plain := line.directive.NoDirective? && ExitCode !in details;
    var timedOut := LastFailureType(details) == Some("testTimeoutFailure");
    && row.category == d.category && row.requirement == Cap(line.name, 256)
    && row.testId == Cap(SourceOf(d) + "::" + line.name, 256) && row.sourceFile == Cap(SourceOf(d), 200)
    && (row.result.Fail? <==> plain && !timedOut && !line.ok)
    && (row.result.Pass? <==> plain && !timedOut && line.ok && !collapsed)
    && (row.reasonCode == Some("SKIP") <==> line.directive.Skip?)
    && (row.reasonCode == Some("TODO") <==> line.directive.Todo?)
    && (row.reasonCode == Some("LANE_MALFORMED_OUTPUT") <==> line.directive.NoDirective? && ExitCode in details)
    && (row.reasonCode == Some("ROW_CANCELLED") <==> plain && timedOut)
    && (row.reasonCode == Some("TEST_FAILED") <==> plain && !timedOut && !line.ok)
    && (row.reasonCode == Some("TEST_PASSED") <==> plain && !timedOut && line.ok && !collapsed)
    && (row.reasonCode == Some("LANE_COLLAPSE_PASS_WITHHELD") <==> plain && !timedOut && line.ok && collapsed)
  }

  lemma OutcomeSays(o: Outcome, d: Declaration, line: Line, details: seq<Line>, collapsed: bool)
    requires line.Test? && ReadsAs(o, line, details)
    ensures var row := RowForOutcome(o, d.category, SourceOf(d));
            Says(if collapsed then Withheld(row) else row, d, line, details, collapsed)
  {
  }

  /** The row of a test says what its own line and details say, whatever stands elsewhere in the lane. */
  lemma TestRowSays(d: Declaration, k: nat)
    requires d.tap.Text? && k < TestLines(d.tap.lines)
    ensures k < |Collected(d).rows|
    ensures Says(Collected(d).rows[k], d, d.tap.lines[PlaceOf(d.tap.lines, k)], Details(d.tap.lines, k),
                 Collected(d).collapsed)
    ensures Collected(d).rows[k].result.Fail? <==> FailedTest(d.tap.lines, k)
  {
    var lines := d.tap.lines;
    ReadCollects(lines);
    OutcomeReadsItsBlock(lines, k);
    CollectedRow(d, k);
    OutcomeSays(Parsed(d.tap).outcomes[k], d, lines[PlaceOf(lines, k)], Details(lines, k), Collected(d).collapsed);
  }

  /**
   A lane has one row for each of its tests, in their order, and none besides; a lane without tests has
   one row under its own id, NOT-TESTED for the reason it collapsed.
   */
  lemma RowsPerLane(d: Declaration)
    ensures var lane := Collected(d);
            if d.tap.Text? && TestLines(d.tap.lines) > 0 then |lane.rows| == TestLines(d.tap.lines)
            else
              && |lane.rows| == 1 && lane.collapsed && lane.collapseCode.Some?
              && lane.rows[0].testId == Cap(d.laneId + ":lane", 256) && lane.rows[0].category == d.category
              && lane.rows[0].result.NotTested? && lane.rows[0].reasonCode == lane.collapseCode
              && lane.rows[0].sourceFile == Cap(SourceOf(d), 200)
  {
    if d.tap.Text? { ReadCollects(d.tap.lines); }
  }

  /** The output is one the parser can account for, line by line and in its own counts. */
  predicate Readable(lines: seq<Line>) {
    && PlanLines(lines) == 1 && LastPlan(lines) == Some(TestLines(lines))
    && LastCount(lines, Tests) == Some(TestLines(lines))
    && CountFrom(lines, Passed) + CountFrom(lines, Failed) + CountFrom(lines, Cancelled)
       + CountFrom(lines, Skipped) + CountFrom(lines, ToDo) == TestLines(lines)
    && Unrecognized !in lines && !ExitCodeAfterTest(lines)
    && (forall l :: l in lines && l.Test? ==> l.name != "")
  }

  lemma ReadProblemsIff(lines: seq<Line>)
    ensures Read(lines).problems == []
            <==> PlanLines(lines) <= 1 && Unrecognized !in lines && forall l :: l in lines && l.Test? ==> l.name != ""
  {
    ReadCollects(lines);
    if Read(lines).problems != [] { assert Read(lines).problems[0] in Read(lines).problems; }
  }

  predicate OnlyTapProblems(problems: seq<Problem>) {
    forall p :: p in problems ==> IsTapProblem(p)
  }

  lemma UnlessFinds(problems: seq<Problem>, fine: bool, added: Problem)
    requires OnlyTapProblems(problems) && IsTapProblem(added)
    ensures OnlyTapProblems(Unless(problems, fine, added))
  {
  }

  lemma AllAreTapProblems(found: seq<Problem>, counted: bool, consistent: bool, planned: bool)
    requires OnlyTapProblems(found)
    ensures OnlyTapProblems(AllProblems(found, counted, consistent, planned))
  {
    var first := Unless(found, counted, CountersMissing);
    UnlessFinds(found, counted, CountersMissing);
    var second := Unless(first, consistent, CountersInconsistent);
    UnlessFinds(first, consistent, CountersInconsistent);
    UnlessFinds(second, planned, PlanMissing);
  }

  lemma NoProblemsIff(found: seq<Problem>, counted: bool, consistent: bool, planned: bool)
    ensures AllProblems(found, counted, consistent, planned) == [] <==> found == [] && counted && consistent && planned
  {
  }

  lemma ParsedTapProblems(lines: seq<Line>)
    ensures OnlyTapProblems(Parsed(Text(lines)).problems)
  {
    var r := Read(lines);
    ReadCollects(lines);
    AllAreTapProblems(r.problems, Tests in r.counters, CountsConsistent(SummaryOf(r.counters), |r.outcomes|),
                      r.plan.Some?);
  }

  /** The parser finds nothing against the output exactly when it is readable, exit codes aside. */
  lemma ParsedProblemsIff(lines: seq<Line>)
    ensures var parsed := Parsed(Text(lines));
            Readable(lines) <==> parsed.problems == [] && parsed.wellFormed && !ExitCodeAfterTest(lines)
  {
    var r := Read(lines);
    ReadProblemsIff(lines);
    ReadCollects(lines);
    SummaryIsLast(lines);
    NoProblemsIff(r.problems, Tests in r.counters, CountsConsistent(SummaryOf(r.counters), |r.outcomes|), r.plan.Some?);
  }

  lemma MalformedIff(d: Declaration, parsed: ParsedTap)
    requires OnlyTapProblems(parsed.problems)
    ensures MalformedOutput !in LaneProblems(d, parsed)
            <==> parsed.problems == [] && parsed.wellFormed && !AnyFileLevel(parsed.outcomes)
    ensures OutputEmpty !in LaneProblems(d, parsed)
  {
    if parsed.problems != [] { assert parsed.problems[0] in parsed.problems; }
  }

  lemma UnreadableIsMalformed(d: Declaration)
    requires d.tap.Text?
    ensures Readable(d.tap.lines) <==> MalformedOutput !in LaneProblems(d, Parsed(d.tap))
    ensures OutputEmpty !in LaneProblems(d, Parsed(d.tap))
    ensures Readable(d.tap.lines) ==> Parsed(d.tap).problems == []
  {
    ParsedTapProblems(d.tap.lines);
    ParsedProblemsIff(d.tap.lines);
    FileLevelIff(d.tap.lines);
    MalformedIff(d, Parsed(d.tap));
  }

  lemma WellReadCollapses(d: Declaration, parsed: ParsedTap)
    requires parsed.problems == [] && MalformedOutput !in LaneProblems(d, parsed)
    ensures var problems := LaneProblems(d, parsed);
            (if problems == [] then None else Some(CollapseCode(problems)))
            == if parsed.summary.tests != d.declaredTests then Some("LANE_COUNT_MISMATCH")
               else if RunnerDied(d, parsed.summary) then Some("LANE_UNCOLLECTABLE")
               else if parsed.outcomes == [] then Some("LANE_EMPTY")
               else None
  {
  }

  /** Why a lane is collapsed, told by its output and its declaration. */
  lemma CollapseSays(d: Declaration)
    ensures Collected(d).collapseCode
            == if d.tap.BlankText? then Some("LANE_OUTPUT_EMPTY")
               else if !Readable(d.tap.lines) then Some("LANE_MALFORMED_OUTPUT")
               else if d.declaredTests != TestLines(d.tap.lines) then Some("LANE_COUNT_MISMATCH")
               else if d.runnerExit.Some? && d.runnerExit.value != 0
                       && CountFrom(d.tap.lines, Failed) + CountFrom(d.tap.lines, Cancelled) == 0
               then Some("LANE_UNCOLLECTABLE")
               else if TestLines(d.tap.lines) == 0 then Some("LANE_EMPTY")
               else None
  {
    if d.tap.Text? {
      UnreadableIsMalformed(d);
      if Readable(d.tap.lines) {
        ReadCollects(d.tap.lines);
        SummaryIsLast(d.tap.lines);
        WellReadCollapses(d, Parsed(d.tap));
      }
    }
  }

  /** A failed test whose id stands nowhere else, or beside different evidence, is FAIL in the report. */
  lemma FailedTestIsReported(lanes: seq<Declaration>, l: nat, k: nat) returns (row: Row)
    requires l < |lanes| && lanes[l].tap.Text? && k < TestLines(lanes[l].tap.lines)
    requires FailedTest(lanes[l].tap.lines, k)
    ensures var inputs := InputsOf(lanes);
            && IsPlace(inputs, l, k) && row in Assembled(inputs).rows
            && row.testId
               == Cap(SourceOf(lanes[l]) + "::" + lanes[l].tap.lines[PlaceOf(lanes[l].tap.lines, k)].name, 256)
            && (row.result.Fail? <==> !Recurs(inputs, l, k) || Disputed(inputs, row.testId))
  {
    TestRowSays(lanes[l], k);
    row := EveryPlaceIsReported(InputsOf(lanes), l, k);
    PlaceDecides(InputsOf(lanes), row, l, k);
  }

  // ----- The order of the rows -----

  /** The strings agree up to here, where `a` ends or has the smaller unit. */
  predicate SmallerFrom(a: string, b: string, i: nat) {
    i <= |a| && i < |b| && a[..i] == b[..i] && (i == |a| || a[i] < b[i])
  }

  ghost predicate ComesFirst(a: string, b: string) {
    exists i: nat :: SmallerFrom(a, b, i)
  }

  lemma {:induction false} FirstDifference(a: string, b: string) returns (i: nat)
    requires Less(a, b)
    ensures SmallerFrom(a, b, i)
  {
    i := 0;
    if a != "" && a[0] == b[0] {
      var k := FirstDifference(a[1..], b[1..]);
      i := k + 1;
      assert a[..i] == [a[0]] + a[1..][..k] && b[..i] == [b[0]] + b[1..][..k];
    }
  }

  /** The rows of a report ascend by category and, within one, by test id. */
  lemma RowsAscend(inputs: seq<LaneInput>, i: nat, j: nat)
    requires i < j < |Assembled(inputs).rows|
    ensures var a, b := Assembled(inputs).rows[i], Assembled(inputs).rows[j];
            ComesFirst(a.category, b.category) || (a.category == b.category && ComesFirst(a.testId, b.testId))
  {
    CanonicalIsStrict(Entries(inputs));
    var a, b := Canonical(Entries(inputs))[i], Canonical(Entries(inputs))[j];
    assert Before(a, b);
    if a.row.category != b.row.category { var _ := FirstDifference(a.row.category, b.row.category); }
    else { var _ := FirstDifference(a.row.testId, b.row.testId); }
  }
}
