/**
 From the test lanes to the report: what stands behind a PASS, and what the order of lanes and
 rows can change.
 */
module CertificationEvidence {
  import opened Wrappers
  import opened Ordering
  import opened Sequences
  import opened TapLanes
  import opened CertificationReport
  import opened CertificationVerifier
  import opened CertificationResults

  // ----- A PASS has exactly one witness -----

  lemma EvidenceHasPlace(inputs: seq<LaneInput>, e: Entry) returns (l: nat, k: nat)
    requires e in Entries(inputs)
    ensures IsPlace(inputs, l, k) && RowAt(inputs, l, k) == e.row
  {
    EntriesCome(inputs, e);
    l :| l < |inputs| && e.laneId == inputs[l].lane.laneId && e.row in inputs[l].lane.rows;
    k :| k < |inputs[l].lane.rows| && inputs[l].lane.rows[k] == e.row;
  }

  lemma SettledPass(group: seq<Entry>)
    requires group != []
    ensures Settle(group).row.result.Pass? <==> |group| == 1 && group[0].row.result.Pass?
    ensures |group| == 1 ==> Settle(group) == group[0]
  {
  }

  /**
   A PASS in the report is one lane's own PASS row, and no other row of any lane has its test id.
   */
  lemma PassHasOneWitness(inputs: seq<LaneInput>, row: Row) returns (l: nat, k: nat)
    requires row in Assembled(inputs).rows && row.result.Pass?
    ensures IsPlace(inputs, l, k) && RowAt(inputs, l, k) == row
    ensures forall m: nat, n: nat :: IsPlace(inputs, m, n) && RowAt(inputs, m, n).testId == row.testId ==>
              m == l && n == k
  {
    var entries := Entries(inputs);
    var i :| 0 <= i < |Canonical(entries)| && Canonical(entries)[i].row == row;
    CanonicalHas(entries, i);
    var group := Of(entries, row.testId);
    SettledPass(group);
    l, k := EvidenceHasPlace(inputs, group[0]);
    forall m: nat, n: nat | IsPlace(inputs, m, n) && RowAt(inputs, m, n).testId == row.testId
      ensures m == l && n == k
    {
      if l < m || (l == m && k < n) { PlacesAddUp(inputs, l, k, m, n); }
      if m < l || (l == m && n < k) { PlacesAddUp(inputs, m, n, l, k); }
    }
  }

  // ----- From TAP lanes -----

  function InputsOf(lanes: seq<Declaration>): (inputs: seq<LaneInput>)
    ensures |inputs| == |lanes|
    ensures forall i :: 0 <= i < |lanes| ==> inputs[i] == LaneInput(Collected(lanes[i]), lanes[i].declaredTests)
  {
    seq(|lanes|, i requires 0 <= i < |lanes| => LaneInput(Collected(lanes[i]), lanes[i].declaredTests))
  }

  /**
   PASS soundness through the whole pipeline. Behind a PASS stands exactly one test line among all
   lanes; it is ok, with no directive, timeout or file-level failure, and in its lane the one
   plan, the test counter, the test lines and the declared count all agree.
   */
  lemma PassIsSound(lanes: seq<Declaration>, row: Row) returns (l: nat, k: nat)
    requires row in Assembled(InputsOf(lanes)).rows && row.result.Pass?
    ensures l < |lanes| && Certifiable(lanes[l]) && k < TestLines(lanes[l].tap.lines)
    ensures Succeeded(lanes[l].tap.lines, k)
    ensures IsPlace(InputsOf(lanes), l, k) && RowAt(InputsOf(lanes), l, k) == row
    ensures forall m: nat, n: nat ::
              IsPlace(InputsOf(lanes), m, n) && RowAt(InputsOf(lanes), m, n).testId == row.testId ==>
                m == l && n == k
  {
    l, k := PassHasOneWitness(InputsOf(lanes), row);
    LanePassIff(lanes[l], k);
    LaneStandsIff(lanes[l]);
  }

  /** A test id with any outcome that is not ok is never PASS, even when capping made ids collide. */
  lemma NotOkIsNeverPass(lanes: seq<Declaration>, row: Row, m: nat, n: nat)
    requires row in Assembled(InputsOf(lanes)).rows
    requires m < |lanes| && lanes[m].tap.Text? && n < TestLines(lanes[m].tap.lines)
    requires !lanes[m].tap.lines[PlaceOf(lanes[m].tap.lines, n)].ok
    requires IsPlace(InputsOf(lanes), m, n) && RowAt(InputsOf(lanes), m, n).testId == row.testId
    ensures !row.result.Pass?
  {
    if row.result.Pass? {
      var _, _ := PassIsSound(lanes, row);
    }
  }

  // ----- Which TAP lanes make a report that verifies -----

  lemma LaneCodesAreSafe()
    ensures SafeCode("LANE_MALFORMED_OUTPUT") && SafeCode("LANE_COLLAPSE_PASS_WITHHELD")
  {
  }

  /** Every reason code an outcome can get is one the verifier takes. */
  lemma OutcomeCodeFine(o: Outcome, category: string, sourceFile: string)
    ensures var code := RowForOutcome(o, category, sourceFile).reasonCode;
            code.Some? && SafeCode(code.value) && |code.value| <= REASON_CODE_MAX
  {
  }

  /** An outcome's row is well formed exactly when the test has a name. */
  lemma OutcomeRowFineIff(o: Outcome, category: string, sourceFile: string, collapsed: bool)
    requires category != "" && sourceFile != ""
    ensures var row := RowForOutcome(o, category, sourceFile);
            RowFine(if collapsed then Withheld(row) else row) <==> o.name != ""
  {
    OutcomeCodeFine(o, category, sourceFile);
    LaneCodesAreSafe();
    var row := RowForOutcome(o, category, sourceFile);
    assert row.testId == Cap(sourceFile + "::" + o.name, FIELD_MAX) && row.requirement == Cap(o.name, FIELD_MAX);
    assert row.category == category && row.sourceFile == Cap(sourceFile, SOURCE_FILE_MAX);
  }

  lemma CollapseCodeFine(problems: seq<Problem>)
    ensures SafeCode(CollapseCode(problems)) && |CollapseCode(problems)| <= REASON_CODE_MAX
  {
  }

  lemma LaneRowFine(d: Declaration, code: string)
    requires d.laneId != "" && d.category != "" && SourceOf(d) != ""
    requires SafeCode(code) && |code| <= REASON_CODE_MAX
    ensures RowFine(LaneRow(d.laneId, d.category, SourceOf(d), code))
  {
  }

  /** What the runner must say of a lane for its rows to be attributable. */
  predicate Declared(d: Declaration) {
    d.laneId != "" && d.category != "" && SourceOf(d) != ""
  }

  /** Test `k` of the lane has a name. A lane without tests has one row, which is always named. */
  predicate Named(d: Declaration, k: nat) {
    d.tap.Text? && k < TestLines(d.tap.lines) ==> d.tap.lines[PlaceOf(d.tap.lines, k)].name != ""
  }

  predicate CodeFine(row: Row) {
    row.reasonCode.Some? && SafeCode(row.reasonCode.value) && |row.reasonCode.value| <= REASON_CODE_MAX
  }

  lemma CollectedSound(d: Declaration)
    requires Declared(d)
    ensures LaneSound(Collected(d)) && Collected(d).laneId == d.laneId
  {
    CollapseCodeFine(LaneProblems(d, Parsed(d.tap)));
  }

  lemma OutcomesAreTests(tap: Tap)
    ensures |Parsed(tap).outcomes| == if tap.Text? then TestLines(tap.lines) else 0
  {
    if tap.Text? { ReadCollects(tap.lines); }
  }

  /** A row of a properly declared lane is one the verifier takes exactly when its test has a name. */
  lemma CollectedRowFineIff(d: Declaration, k: nat)
    requires Declared(d) && k < |Collected(d).rows|
    ensures CodeFine(Collected(d).rows[k])
    ensures RowFine(Collected(d).rows[k]) <==> Named(d, k)
  {
    var parsed := Parsed(d.tap);
    OutcomesAreTests(d.tap);
    CollectedRow(d, k);
    if parsed.outcomes == [] {
      CollapseCodeFine(LaneProblems(d, parsed));
      LaneRowFine(d, CollapseCode(LaneProblems(d, parsed)));
      assert Collected(d).rows == [LaneRow(d.laneId, d.category, SourceOf(d), CollapseCode(LaneProblems(d, parsed)))];
    } else {
      OutcomeReadsItsBlock(d.tap.lines, k);
      OutcomeCodeFine(parsed.outcomes[k], d.category, SourceOf(d));
      LaneCodesAreSafe();
      OutcomeRowFineIff(parsed.outcomes[k], d.category, SourceOf(d), Collected(d).collapsed);
    }
  }

  /** Its reason code is in order whatever it is, so recurring mends nothing. */
  lemma FirstIsFineIff(lanes: seq<Declaration>, l: nat, k: nat)
    requires l < |lanes| && Declared(lanes[l]) && IsFirst(InputsOf(lanes), l, k)
    ensures FirstFine(InputsOf(lanes), l, k) <==> Named(lanes[l], k)
  {
    CollectedRowFineIff(lanes[l], k);
  }

  /** A properly declared lane yields rows the verifier takes exactly when no test is without a name. */
  lemma CollectedInOrderIff(d: Declaration)
    requires Declared(d)
    ensures LaneInOrder(Collected(d)) <==> forall k: nat :: Named(d, k)
  {
    CollectedSound(d);
    OutcomesAreTests(d.tap);
    var rows := RowsAreTests(d);
    if k: nat :| !Named(d, k) {
      CollectedRowFineIff(d, k);
      assert rows[k] in rows;
    } else {
      forall row | row in rows ensures RowFine(row) {
        var i :| 0 <= i < |rows| && rows[i] == row;
        CollectedRowFineIff(d, i);
      }
    }
  }

  lemma RowsAreTests(d: Declaration) returns (rows: seq<Row>)
    ensures rows == Collected(d).rows
    ensures d.tap.Text? && TestLines(d.tap.lines) > 0 ==> |rows| == TestLines(d.tap.lines)
  {
    rows := Collected(d).rows;
    OutcomesAreTests(d.tap);
    if Parsed(d.tap).outcomes != [] { RowTestId(d, 0); }
  }

  predicate LanesDeclared(lanes: seq<Declaration>) {
    && (forall l :: 0 <= l < |lanes| ==> Declared(lanes[l]))
    && (forall l, m :: 0 <= l < m < |lanes| ==> lanes[l].laneId != lanes[m].laneId)
  }

  lemma LanesAreSound(lanes: seq<Declaration>)
    requires LanesDeclared(lanes)
    ensures AllSound(InputsOf(lanes)) && forall l :: 0 <= l < |lanes| ==> OnlyLane(InputsOf(lanes), l)
  {
    var inputs := InputsOf(lanes);
    forall i | 0 <= i < |inputs| ensures LaneSound(inputs[i].lane) && inputs[i].lane.laneId == lanes[i].laneId {
      CollectedSound(lanes[i]);
    }
  }

  /** The test that got its id first, if it stands at this place, has a name. */
  ghost predicate FirstNamed(lanes: seq<Declaration>, l: nat, k: nat) {
    l < |lanes| && IsFirst(InputsOf(lanes), l, k) ==> Named(lanes[l], k)
  }

  lemma FirstStandsIff(lanes: seq<Declaration>, l: nat, k: nat)
    requires LanesDeclared(lanes)
    ensures FirstStands(InputsOf(lanes), l, k) <==> FirstNamed(lanes, l, k)
  {
    if IsFirst(InputsOf(lanes), l, k) {
      LanesAreSound(lanes);
      FirstIsFineIff(lanes, l, k);
    }
  }

  /**
   When the whole pipeline ends in a report that verifies. For properly declared lanes with distinct
   ids: exactly when, for each test id, the first test that got it has a name. Later tests with the
   same id, which a missing name or capping can give them, are folded into the first one's row.
   */
  lemma PipelineHoldsIff(lanes: seq<Declaration>)
    requires LanesDeclared(lanes)
    ensures Holds(Assembled(InputsOf(lanes))) <==> forall l: nat, k: nat :: FirstNamed(lanes, l, k)
  {
    LanesAreSound(lanes);
    AssembledHoldsIff(InputsOf(lanes));
    FirstsAgree(lanes);
  }

  lemma FirstsAgree(lanes: seq<Declaration>)
    requires LanesDeclared(lanes)
    ensures (forall l: nat, k: nat :: FirstStands(InputsOf(lanes), l, k))
            <==> (forall l: nat, k: nat :: FirstNamed(lanes, l, k))
  {
    if l: nat, k: nat :| !FirstStands(InputsOf(lanes), l, k) { FirstStandsIff(lanes, l, k); }
    if l: nat, k: nat :| !FirstNamed(lanes, l, k) { FirstStandsIff(lanes, l, k); }
  }

  /** A nameless test whose id an earlier, named test got too does not spoil the report. */
  lemma NamelessCanHide(lanes: seq<Declaration>, inputs: seq<LaneInput>)
    requires |lanes| == 2 && LanesDeclared(lanes) && inputs == InputsOf(lanes) && Named(lanes[0], 0)
    requires |inputs[0].lane.rows| == 1 && |inputs[1].lane.rows| == 1
    requires inputs[0].lane.rows[0].testId == inputs[1].lane.rows[0].testId
    ensures Holds(Assembled(inputs))
  {
    forall l: nat, k: nat
      ensures FirstNamed(lanes, l, k)
    {
      FrontIsNamed(lanes, inputs, l, k);
    }
    PipelineHoldsIff(lanes);
  }

  lemma FrontIsNamed(lanes: seq<Declaration>, inputs: seq<LaneInput>, l: nat, k: nat)
    requires |lanes| == 2 && inputs == InputsOf(lanes) && Named(lanes[0], 0)
    requires |inputs[0].lane.rows| == 1 && |inputs[1].lane.rows| == 1
    requires inputs[0].lane.rows[0].testId == inputs[1].lane.rows[0].testId
    ensures FirstNamed(lanes, l, k)
  {
    OnlyFrontIsFirst(inputs, l, k);
  }

  lemma OnlyFrontIsFirst(inputs: seq<LaneInput>, l: nat, k: nat)
    requires |inputs| == 2 && |inputs[0].lane.rows| == 1 && |inputs[1].lane.rows| == 1
    requires inputs[0].lane.rows[0].testId == inputs[1].lane.rows[0].testId
    ensures IsFirst(inputs, l, k) ==> l == 0 && k == 0
  {
    assert IsPlace(inputs, 0, 0);
    if l == 1 && k == 0 { assert Earlier(0, 0, l, k); }
  }

  lemma TwoDeclared(lanes: seq<Declaration>)
    requires |lanes| == 2 && Declared(lanes[0]) && Declared(lanes[1]) && lanes[0].laneId != lanes[1].laneId
    ensures LanesDeclared(lanes)
  {
  }

  lemma LaneAt(lanes: seq<Declaration>, l: nat) returns (rows: seq<Row>)
    requires l < |lanes|
    ensures rows == InputsOf(lanes)[l].lane.rows == Collected(lanes[l]).rows
  {
    rows := InputsOf(lanes)[l].lane.rows;
  }

  lemma SecondCanBeNameless(x: Declaration, y: Declaration)
    requires Declared(x) && Declared(y) && x.laneId != y.laneId && Named(x, 0)
    requires |Collected(x).rows| == 1 && |Collected(y).rows| == 1
    requires Collected(x).rows[0].testId == Collected(y).rows[0].testId
    ensures LanesDeclared([x, y]) && Holds(Assembled(InputsOf([x, y])))
  {
    var lanes := [x, y];
    TwoDeclared(lanes);
    var first := LaneAt(lanes, 0);
    var second := LaneAt(lanes, 1);
    NamelessCanHide(lanes, InputsOf(lanes));
  }

  /** It happens: file "a" with a test "b::", then file "a::b" with a test that has no name. */
  lemma NamelessHides() returns (x: Declaration, y: Declaration)
    ensures LanesDeclared([x, y]) && !Named(y, 0) && Holds(Assembled(InputsOf([x, y])))
  {
    var file, other, name := "a", "a::b", "b::";
    assert file + "::" + name == other + "::" + "";
    x := OneTest("first", file, name);
    y := OneTest("second", other, "");
    SecondCanBeNameless(x, y);
  }

  /** A lane with one successful test of this name in this file. */
  lemma OneTest(laneId: string, file: string, name: string) returns (d: Declaration)
    requires laneId != "" && file != ""
    ensures Declared(d) && d.laneId == laneId && (Named(d, 0) <==> name != "")
    ensures |Collected(d).rows| == 1 && Collected(d).rows[0].testId == Cap(file + "::" + name, FIELD_MAX)
  {
    d := Declaration(laneId, "category", Text([Test(true, NoDirective, name)]), 1, [file], None);
    OneTestLine(d.tap.lines, name);
    RowTestId(d, 0);
  }

  lemma OneTestLine(lines: seq<Line>, name: string)
    requires lines == [Test(true, NoDirective, name)]
    ensures TestLines(lines) == 1 && PlaceOf(lines, 0) == 0
    ensures Parsed(Text(lines)).outcomes == [Outcome(NoDirective, true, name, None, false)]
  {
    assert lines[..0] == [] && Read([]) == NOTHING_READ && TestLines([]) == 0;
    assert Read(lines).outcomes == [Outcome(NoDirective, true, name, None, false)];
  }

  lemma RowTestId(d: Declaration, k: nat)
    requires k < |Parsed(d.tap).outcomes|
    ensures |Collected(d).rows| == |Parsed(d.tap).outcomes|
    ensures Collected(d).rows[k].testId == Cap(SourceOf(d) + "::" + Parsed(d.tap).outcomes[k].name, FIELD_MAX)
  {
    CollectedRow(d, k);
  }

  // ----- Order does not matter -----

  lemma OfPermutes(a: seq<Entry>, b: seq<Entry>, id: string)
    requires multiset(a) == multiset(b)
    ensures multiset(Of(a, id)) == multiset(Of(b, id)) && |Of(a, id)| == |Of(b, id)|
  {
    OfHolds(a, id);
    OfHolds(b, id);
    assert forall e :: multiset(Of(a, id))[e] == multiset(Of(b, id))[e];
    assert |multiset(Of(a, id))| == |Of(a, id)| && |multiset(Of(b, id))| == |Of(b, id)|;
  }

  predicate FrameOf(a: Row, b: Row) {
    a.category == b.category && a.requirement == b.requirement && a.sourceFile == b.sourceFile
  }

  /** The evidence may disagree on results, but not on what was tested where. */
  predicate SameFrame(group: seq<Entry>)
    requires group != []
  {
    forall e :: e in group ==> FrameOf(e.row, group[0].row)
  }

  /** What evidence settles to depends on what it says, not on the order in which it came. */
  lemma SettlePermutes(a: seq<Entry>, b: seq<Entry>, id: string)
    requires a != [] && multiset(a) == multiset(b) && |a| == |b|
    requires forall e :: e in a ==> e.row.testId == id
    ensures Alike(a) <==> Alike(b)
    ensures var r, q := Settle(a).row, Settle(b).row;
            r.testId == q.testId && r.result == q.result && r.reasonCode == q.reasonCode
    ensures (SameFrame(a) <==> SameFrame(b)) && (SameFrame(a) ==> Settle(a).row == Settle(b).row)
  {
    assert forall e :: e in a <==> e in b by {
      assert forall e :: e in a <==> e in multiset(a);
      assert forall e :: e in b <==> e in multiset(b);
    }
    assert a[0] in b && b[0] in a;
    if |a| == 1 { assert a[0] == b[0]; }
  }

  /** Which evidence is on the table, in any order. */
  predicate SameEvidence(a: seq<LaneInput>, b: seq<LaneInput>) {
    multiset(Entries(a)) == multiset(Entries(b))
  }

  lemma ReportHasRow(inputs: seq<LaneInput>, row: Row)
    requires row in Assembled(inputs).rows
    ensures Of(Entries(inputs), row.testId) != [] && row == Settle(Of(Entries(inputs), row.testId)).row
  {
    var entries := Entries(inputs);
    var i :| 0 <= i < |Canonical(entries)| && Canonical(entries)[i].row == row;
    CanonicalHas(entries, i);
  }

  lemma ReportCovers(inputs: seq<LaneInput>, id: string)
    requires Of(Entries(inputs), id) != []
    ensures Settle(Of(Entries(inputs), id)).row in Assembled(inputs).rows
  {
    var entries := Entries(inputs);
    CanonicalCovers(entries, id);
    var i :| 0 <= i < |Canonical(entries)| && Canonical(entries)[i] == Settle(Of(entries, id));
    assert RowsIn(Canonical(entries))[i] == Settle(Of(entries, id)).row;
  }

  /**
   Order independence. The same evidence in any order gives each test id the same result for the
   same reason.
   */
  lemma ResultsIgnoreOrder(a: seq<LaneInput>, b: seq<LaneInput>, row: Row) returns (other: Row)
    requires SameEvidence(a, b) && row in Assembled(a).rows
    ensures other in Assembled(b).rows && other.testId == row.testId
    ensures other.result == row.result && other.reasonCode == row.reasonCode
  {
    ReportHasRow(a, row);
    var id := row.testId;
    OfPermutes(Entries(a), Entries(b), id);
    OfMembers(Entries(a), id);
    SettlePermutes(Of(Entries(a), id), Of(Entries(b), id), id);
    ReportCovers(b, id);
    other := Settle(Of(Entries(b), id)).row;
  }

  /** For every test id all evidence agrees on category, requirement and source file. */
  ghost predicate Framed(inputs: seq<LaneInput>) {
    forall id :: Of(Entries(inputs), id) != [] ==> SameFrame(Of(Entries(inputs), id))
  }

  lemma SameRowThere(a: seq<LaneInput>, b: seq<LaneInput>, row: Row)
    requires SameEvidence(a, b) && Framed(a) && row in Assembled(a).rows
    ensures row in Assembled(b).rows
  {
    ReportHasRow(a, row);
    var id := row.testId;
    OfPermutes(Entries(a), Entries(b), id);
    OfMembers(Entries(a), id);
    SettlePermutes(Of(Entries(a), id), Of(Entries(b), id), id);
    ReportCovers(b, id);
  }

  lemma FramedPermutes(a: seq<LaneInput>, b: seq<LaneInput>)
    requires SameEvidence(a, b) && Framed(a)
    ensures Framed(b)
  {
    forall id | Of(Entries(b), id) != []
      ensures SameFrame(Of(Entries(b), id))
    {
      OfPermutes(Entries(a), Entries(b), id);
      OfMembers(Entries(a), id);
      SettlePermutes(Of(Entries(a), id), Of(Entries(b), id), id);
    }
  }

  lemma RowsAscend(inputs: seq<LaneInput>)
    ensures StrictlyAscending(RowBefore, Assembled(inputs).rows)
  {
    CanonicalIsStrict(Entries(inputs));
    var sorted := Canonical(Entries(inputs));
    assert forall i, j :: 0 <= i < j < |sorted| ==> Before(sorted[i], sorted[j]);
  }

  /**
   Where evidence diverges in nothing but results and reason codes, the whole sorted row sequence,
   the totals and the tallies are the same for every order.
   */
  lemma ReportIgnoresOrder(a: seq<LaneInput>, b: seq<LaneInput>)
    requires SameEvidence(a, b) && Framed(a)
    ensures Assembled(a).rows == Assembled(b).rows
    ensures Assembled(a).totals == Assembled(b).totals && Assembled(a).categories == Assembled(b).categories
  {
    OrdersAreOrders();
    RowsAscend(a);
    RowsAscend(b);
    FramedPermutes(a, b);
    forall row
      ensures row in Assembled(a).rows <==> row in Assembled(b).rows
    {
      if row in Assembled(a).rows { SameRowThere(a, b, row); }
      if row in Assembled(b).rows { SameRowThere(b, a, row); }
    }
    AscendingIsUnique(RowBefore, Assembled(a).rows, Assembled(b).rows);
  }

  // ----- Which reorderings keep the evidence -----

  lemma OneMoreLane(inputs: seq<LaneInput>, last: LaneInput)
    ensures Entries(inputs + [last]) == Entries(inputs) + LaneEntries(last.lane.rows, last.lane.laneId)
  {
    assert (inputs + [last])[..|inputs|] == inputs;
  }

  lemma {:induction false} EntriesConcat(a: seq<LaneInput>, b: seq<LaneInput>)
    ensures Entries(a + b) == Entries(a) + Entries(b)
  {
    if b == [] {
      assert a + b == a;
    } else {
      var before, last := b[..|b| - 1], b[|b| - 1];
      assert b == before + [last];
      EntriesConcat(a, before);
      OneMoreLane(a + before, last);
      OneMoreLane(before, last);
      Associates(a, before, [last]);
      Associates(Entries(a), Entries(before), LaneEntries(last.lane.rows, last.lane.laneId));
    }
  }

  /** A lane may be moved to the front. */
  lemma MoveToFront(x: LaneInput, t: seq<LaneInput>, p: seq<LaneInput>, q: seq<LaneInput>)
    requires SameEvidence(t, p + q)
    ensures SameEvidence([x] + t, p + [x] + q)
  {
    EntriesConcat([x], t);
    EntriesConcat(p + [x], q);
    EntriesConcat(p, [x]);
    EntriesConcat(p, q);
  }

  lemma OthersMatch(x: LaneInput, t: seq<LaneInput>, p: seq<LaneInput>, q: seq<LaneInput>)
    requires multiset([x] + t) == multiset(p + [x] + q)
    ensures multiset(t) == multiset(p + q)
  {
    assert multiset([x] + t) == multiset{x} + multiset(t);
    assert multiset(p + [x] + q) == multiset{x} + multiset(p + q);
    assert multiset(t) == multiset([x] + t) - multiset{x} == multiset(p + [x] + q) - multiset{x} == multiset(p + q);
  }

  lemma FindLane(x: LaneInput, b: seq<LaneInput>) returns (p: seq<LaneInput>, q: seq<LaneInput>)
    requires x in multiset(b)
    ensures b == p + [x] + q
  {
    var k :| 0 <= k < |b| && b[k] == x;
    p, q := b[..k], b[k + 1..];
  }

  /** Reordering whole lanes. */
  lemma {:induction false} LanesReorder(a: seq<LaneInput>, b: seq<LaneInput>)
    requires multiset(a) == multiset(b)
    ensures SameEvidence(a, b)
    decreases |a|
  {
    if a == [] {
      assert |multiset(b)| == |b|;
    } else {
      var x, t := a[0], a[1..];
      assert a == [x] + t;
      assert x in multiset(a);
      var p, q := FindLane(x, b);
      OthersMatch(x, t, p, q);
      LanesReorder(t, p + q);
      MoveToFront(x, t, p, q);
    }
  }

  lemma {:induction false} LaneEntriesHold(rows: seq<Row>, laneId: string)
    ensures forall e :: multiset(LaneEntries(rows, laneId))[e] == if e.laneId == laneId then multiset(rows)[e.row] else 0
  {
    if rows != [] {
      LaneEntriesHold(rows[..|rows| - 1], laneId);
      assert rows == rows[..|rows| - 1] + [rows[|rows| - 1]];
    }
  }

  /** Reordering the rows inside lanes. */
  lemma {:induction false} RowsReorder(a: seq<LaneInput>, b: seq<LaneInput>)
    requires |a| == |b|
    requires forall i :: 0 <= i < |a| ==>
               a[i].lane.laneId == b[i].lane.laneId && multiset(a[i].lane.rows) == multiset(b[i].lane.rows)
    ensures SameEvidence(a, b)
  {
    if a != [] {
      var n := |a| - 1;
      RowsReorder(a[..n], b[..n]);
      LaneEntriesHold(a[n].lane.rows, a[n].lane.laneId);
      LaneEntriesHold(b[n].lane.rows, b[n].lane.laneId);
      assert multiset(LaneEntries(a[n].lane.rows, a[n].lane.laneId))
          == multiset(LaneEntries(b[n].lane.rows, b[n].lane.laneId));
    }
  }

  // ----- Where the order matters -----

  /** The same lane with its rows in another order. */
  predicate SameLane(x: LaneInput, y: LaneInput) {
    y == x.(lane := x.lane.(rows := y.lane.rows)) && multiset(y.lane.rows) == multiset(x.lane.rows)
  }

  predicate SameLanes(a: seq<LaneInput>, b: seq<LaneInput>) {
    |a| == |b| && forall i :: 0 <= i < |a| ==> SameLane(a[i], b[i])
  }

  /** Lanes in another order, each with its rows in another order. */
  ghost predicate Reordered(a: seq<LaneInput>, b: seq<LaneInput>) {
    exists between :: SameLanes(a, between) && multiset(between) == multiset(b)
  }

  lemma ReorderedIsSameEvidence(a: seq<LaneInput>, b: seq<LaneInput>)
    requires Reordered(a, b)
    ensures SameEvidence(a, b)
  {
    var between :| SameLanes(a, between) && multiset(between) == multiset(b);
    RowsReorder(a, between);
    LanesReorder(between, b);
  }

  function RowInFront(x: LaneInput, n: nat): LaneInput
    requires n < |x.lane.rows|
  {
    var rows := x.lane.rows;
    x.(lane := x.lane.(rows := [rows[n]] + rows[..n] + rows[n + 1..]))
  }

  /** The lanes with one row brought to the front of all. */
  function InFront(a: seq<LaneInput>, m: nat, n: nat): seq<LaneInput>
    requires IsPlace(a, m, n)
  {
    [RowInFront(a[m], n)] + a[..m] + a[m + 1..]
  }

  lemma InFrontIsSameLane(x: LaneInput, n: nat)
    requires n < |x.lane.rows|
    ensures SameLane(x, RowInFront(x, n))
  {
    var rows := x.lane.rows;
    assert rows == rows[..n] + [rows[n]] + rows[n + 1..];
  }

  lemma FrontPermutes<T>(before: seq<T>, x: T, after: seq<T>)
    ensures multiset(before + [x] + after) == multiset([x] + before + after)
  {
  }

  lemma InFrontReorders(a: seq<LaneInput>, m: nat, n: nat)
    requires IsPlace(a, m, n)
    ensures Reordered(a, InFront(a, m, n))
  {
    var x := RowInFront(a[m], n);
    InFrontIsSameLane(a[m], n);
    var between := a[m := x];
    assert SameLanes(a, between);
    FrontPermutes(a[..m], x, a[m + 1..]);
    assert between == a[..m] + [x] + a[m + 1..];
  }

  /** Evidence that frames its test otherwise than the first does, once in front, changes the report. */
  lemma OtherFrameShows(a: seq<LaneInput>, m: nat, n: nat)
    requires IsPlace(a, m, n)
    requires var group := Of(Entries(a), RowAt(a, m, n).testId); group != [] && !FrameOf(RowAt(a, m, n), group[0].row)
    ensures Assembled(InFront(a, m, n)).rows != Assembled(a).rows
  {
    var b, id := InFront(a, m, n), RowAt(a, m, n).testId;
    assert IsPlace(b, 0, 0) && RowAt(b, 0, 0) == RowAt(a, m, n);
    assert IsFirst(b, 0, 0);
    FirstIsFirst(b, 0, 0);
    ReportCovers(a, id);
    var row := Settle(Of(Entries(a), id)).row;
    SettleKeepsFrame(Of(Entries(a), id));
    SettleKeepsFrame(Of(Entries(b), id));
    OfMembers(Entries(a), id);
    assert Of(Entries(a), id)[0] in Of(Entries(a), id);
    if row in Assembled(b).rows { ReportHasRow(b, row); }
  }

  lemma SettleKeepsFrame(group: seq<Entry>)
    requires group != []
    ensures FrameOf(Settle(group).row, group[0].row) && Settle(group).row.testId == group[0].row.testId
  {
  }

  /**
   Where the promised order independence of the rows ends. No reordering of lanes and rows changes
   the report's rows exactly when the evidence for each test id agrees on category, requirement
   and source file: where it does not, the row keeps those of whoever came first.
   */
  lemma OrderMattersIff(a: seq<LaneInput>)
    ensures (forall b :: Reordered(a, b) ==> Assembled(b).rows == Assembled(a).rows) <==> Framed(a)
  {
    if Framed(a) {
      forall b | Reordered(a, b)
        ensures Assembled(b).rows == Assembled(a).rows
      {
        ReorderedIsSameEvidence(a, b);
        ReportIgnoresOrder(a, b);
      }
    } else {
      var id :| Of(Entries(a), id) != [] && !SameFrame(Of(Entries(a), id));
      var group := Of(Entries(a), id);
      var e :| e in group && !FrameOf(e.row, group[0].row);
      OfMembers(Entries(a), id);
      var m, n := EvidenceHasPlace(a, e);
      InFrontReorders(a, m, n);
      OtherFrameShows(a, m, n);
    }
  }
}
