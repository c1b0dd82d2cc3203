/**
 Assembling the certification report and verifying a finished one (certification/certify.ts).

 A report is a typed value here. Checks of its JSON shape are not part of this model: keys no
 interface knows, values of the wrong type.
 */
module CertificationReport {
  import opened Wrappers
  import opened Ordering
  import opened TapLanes

  // ----- Duplicates -----

  /** A row and the lane it came from. */
  datatype Entry = Entry(row: Row, laneId: string)

  /** All evidence for one test id, in order of arrival. */
  function Of(entries: seq<Entry>, id: string): seq<Entry> {
    if entries == [] then []
    else
      var last := entries[|entries| - 1];
      Of(entries[..|entries| - 1], id) + (if last.row.testId == id then [last] else [])
  }

  /** The test ids, each where it occurs first. */
  function Ids(entries: seq<Entry>): seq<string> {
    if entries == [] then []
    else
      var before := Ids(entries[..|entries| - 1]);
      var id := entries[|entries| - 1].row.testId;
      if id in before then before else before + [id]
  }

  /** Whether all evidence of a group says the same in every field. */
  predicate Alike(group: seq<Entry>)
    requires group != []
  {
    forall e :: e in group ==> e.row == group[0].row
  }

  /** One piece of evidence stands; repeated evidence proves nothing; conflicting evidence fails. */
  function Settle(group: seq<Entry>): Entry
    requires group != []
  {
    if |group| == 1 then group[0]
    else if Alike(group) then
      Entry(group[0].row.(result := NotTested, reasonCode := Some("ROW_DUPLICATE_IDENTICAL")), group[0].laneId)
    else
      Entry(group[0].row.(result := Fail, reasonCode := Some("ROW_CONFLICTING_EVIDENCE")), group[0].laneId)
  }

  lemma {:induction false} IdsAreFound(entries: seq<Entry>)
    ensures forall id :: id in Ids(entries) <==> Of(entries, id) != []
    ensures forall i, j :: 0 <= i < j < |Ids(entries)| ==> Ids(entries)[i] != Ids(entries)[j]
  {
    if entries != [] { IdsAreFound(entries[..|entries| - 1]); }
  }

  function SettledAll(entries: seq<Entry>, ids: seq<string>): (settled: seq<Entry>)
    requires forall id :: id in ids ==> Of(entries, id) != []
    ensures |settled| == |ids|
    ensures forall i :: 0 <= i < |ids| ==> settled[i] == Settle(Of(entries, ids[i]))
  {
    if ids == [] then []
    else SettledAll(entries, ids[..|ids| - 1]) + [Settle(Of(entries, ids[|ids| - 1]))]
  }

  function Resolved(entries: seq<Entry>): seq<Entry> {
    IdsAreFound(entries);
    SettledAll(entries, Ids(entries))
  }

  /** How many groups had more than one piece of evidence, all alike or in conflict. */
  function Repeated(entries: seq<Entry>, ids: seq<string>, alike: bool): nat
    requires forall id :: id in ids ==> Of(entries, id) != []
  {
    if ids == [] then 0
    else
      var group := Of(entries, ids[|ids| - 1]);
      Repeated(entries, ids[..|ids| - 1], alike) + (if |group| > 1 && Alike(group) == alike then 1 else 0)
  }

  /** Groups the evidence by test id, in order of first occurrence. */
  method GroupById(entries: seq<Entry>) returns (byId: map<string, seq<Entry>>, order: seq<string>)
    ensures order == Ids(entries)
    ensures forall id :: id in order <==> id in byId
    ensures forall id :: id in byId ==> byId[id] == Of(entries, id)
  {
    byId, order := map[], [];
    for i := 0 to |entries|
      invariant order == Ids(entries[..i])
      invariant forall id :: id in order <==> id in byId
      invariant forall id :: id !in byId ==> Of(entries[..i], id) == []
      invariant forall id :: id in byId ==> byId[id] == Of(entries[..i], id)
    {
      assert entries[..i + 1][..i] == entries[..i];
      var id := entries[i].row.testId;
      var list := if id in byId then byId[id] else [];
      if id !in byId { order := order + [id]; }
      byId := byId[id := list + [entries[i]]];
    }
    assert entries[..|entries|] == entries;
  }

  /** The branches of the loop body: what one group of evidence comes to, and how it is counted. */
  method ResolveGroup(list: seq<Entry>) returns (settled: Entry, duplicate: bool, conflict: bool)
    requires list != []
    ensures settled == Settle(list)
    ensures duplicate <==> |list| > 1 && Alike(list)
    ensures conflict <==> |list| > 1 && !Alike(list)
  {
    if |list| == 1 { return list[0], false, false; }
    var first := list[0].row;
    if forall e | e in list :: e.row == first {
      return Entry(Row(first.testId, first.category, first.requirement, NotTested,
                       Some("ROW_DUPLICATE_IDENTICAL"), first.sourceFile), list[0].laneId), true, false;
    }
    return Entry(Row(first.testId, first.category, first.requirement, Fail,
                     Some("ROW_CONFLICTING_EVIDENCE"), first.sourceFile), list[0].laneId), false, true;
  }

  /** One more id: its settled group at the end, counted if it had more than one piece. */
  lemma OneMoreGroup(entries: seq<Entry>, ids: seq<string>, k: nat)
    requires k < |ids| && forall id :: id in ids ==> Of(entries, id) != []
    ensures SettledAll(entries, ids[..k + 1]) == SettledAll(entries, ids[..k]) + [Settle(Of(entries, ids[k]))]
    ensures forall alike :: Repeated(entries, ids[..k + 1], alike)
              == Repeated(entries, ids[..k], alike)
                 + (if |Of(entries, ids[k])| > 1 && Alike(Of(entries, ids[k])) == alike then 1 else 0)
  {
    assert ids[..k + 1][..k] == ids[..k];
  }

  method ResolveDuplicateEntries(entries: seq<Entry>)
    returns (resolved: seq<Entry>, duplicateCount: nat, conflictCount: nat)
    ensures resolved == Resolved(entries)
    ensures (forall id :: id in Ids(entries) ==> Of(entries, id) != [])
            && duplicateCount == Repeated(entries, Ids(entries), true)
            && conflictCount == Repeated(entries, Ids(entries), false)
  {
    IdsAreFound(entries);
    var byId, order := GroupById(entries);
    resolved, duplicateCount, conflictCount := [], 0, 0;
    for k := 0 to |order|
      invariant resolved == SettledAll(entries, order[..k])
      invariant duplicateCount == Repeated(entries, order[..k], true)
      invariant conflictCount == Repeated(entries, order[..k], false)
    {
      OneMoreGroup(entries, order, k);
      var settled, duplicate, conflict := ResolveGroup(byId[order[k]]);
      if duplicate { duplicateCount := duplicateCount + 1; }
      if conflict { conflictCount := conflictCount + 1; }
      resolved := resolved + [settled];
    }
    assert order[..|order|] == order;
  }

  // ----- The report -----

  datatype Totals = Totals(total: int, pass: int, fail: int, notTested: int)

  datatype LaneSummary = LaneSummary(laneId: string, rowCount: int, pass: int, fail: int, notTested: int,
                                     collapsed: bool, collapseCode: Option<string>, declaredTests: int)

  datatype CategoryTally = CategoryTally(category: string, tally: Totals)

  datatype Report = Report(schemaVersion: string, generator: string, rows: seq<Row>, totals: Totals,
                           lanes: seq<LaneSummary>, categories: seq<CategoryTally>)

  datatype LaneInput = LaneInput(lane: LaneResult, declaredTests: nat)

  function LaneEntries(rows: seq<Row>, laneId: string): (entries: seq<Entry>)
    ensures |entries| == |rows|
    ensures forall i :: 0 <= i < |rows| ==> entries[i] == Entry(rows[i], laneId)
  {
    if rows == [] then [] else LaneEntries(rows[..|rows| - 1], laneId) + [Entry(rows[|rows| - 1], laneId)]
  }

  /** Every row of every lane. */
  function Entries(inputs: seq<LaneInput>): seq<Entry> {
    if inputs == [] then []
    else
      var last := inputs[|inputs| - 1].lane;
      Entries(inputs[..|inputs| - 1]) + LaneEntries(last.rows, last.laneId)
  }

  predicate RowBefore(a: Row, b: Row) {
    if a.category != b.category then Less(a.category, b.category) else Less(a.testId, b.testId)
  }

  /** The canonical order of rows: by category, then by test id. */
  predicate Before(a: Entry, b: Entry) {
    RowBefore(a.row, b.row)
  }

  predicate CategoryBefore(a: CategoryTally, b: CategoryTally) {
    Less(a.category, b.category)
  }

  function RowsIn(entries: seq<Entry>): (rows: seq<Row>)
    ensures |rows| == |entries|
    ensures forall i :: 0 <= i < |rows| ==> rows[i] == entries[i].row
  {
    seq(|entries|, i requires 0 <= i < |entries| => entries[i].row)
  }

  function CountOf(rows: seq<Row>, v: Verdict): nat {
    if rows == [] then 0
    else CountOf(rows[..|rows| - 1], v) + (if rows[|rows| - 1].result == v then 1 else 0)
  }

  function TotalsOf(rows: seq<Row>): Totals {
    Totals(|rows|, CountOf(rows, Pass), CountOf(rows, Fail), CountOf(rows, NotTested))
  }

  function FromLane(entries: seq<Entry>, laneId: string): seq<Row> {
    if entries == [] then []
    else
      var last := entries[|entries| - 1];
      FromLane(entries[..|entries| - 1], laneId) + (if last.laneId == laneId then [last.row] else [])
  }

  function InCategory(rows: seq<Row>, category: string): seq<Row> {
    if rows == [] then []
    else
      var last := rows[|rows| - 1];
      InCategory(rows[..|rows| - 1], category) + (if last.category == category then [last] else [])
  }

  /** The categories that occur, each where it occurs first. */
  function CategoriesOf(rows: seq<Row>): seq<string> {
    if rows == [] then []
    else
      var before := CategoriesOf(rows[..|rows| - 1]);
      var category := rows[|rows| - 1].category;
      if category in before then before else before + [category]
  }

  function SummaryFor(sorted: seq<Entry>, input: LaneInput): LaneSummary {
    var t := TotalsOf(FromLane(sorted, input.lane.laneId));
    LaneSummary(input.lane.laneId, t.total, t.pass, t.fail, t.notTested, input.lane.collapsed,
                input.lane.collapseCode, input.declaredTests)
  }

  function Summaries(sorted: seq<Entry>, inputs: seq<LaneInput>): (lanes: seq<LaneSummary>)
    ensures |lanes| == |inputs|
    ensures forall i :: 0 <= i < |inputs| ==> lanes[i] == SummaryFor(sorted, inputs[i])
  {
    if inputs == [] then []
    else Summaries(sorted, inputs[..|inputs| - 1]) + [SummaryFor(sorted, inputs[|inputs| - 1])]
  }

  function Tallies(rows: seq<Row>, categories: seq<string>): (tallies: seq<CategoryTally>)
    ensures |tallies| == |categories|
    ensures forall i :: 0 <= i < |categories| ==>
              tallies[i] == CategoryTally(categories[i], TotalsOf(InCategory(rows, categories[i])))
  {
    seq(|categories|, i requires 0 <= i < |categories| =>
      CategoryTally(categories[i], TotalsOf(InCategory(rows, categories[i]))))
  }

  function Canonical(entries: seq<Entry>): seq<Entry> {
    Sorted(Before, Resolved(entries))
  }

  function Generator(): string {
    "certification-reporter/1 (Stop Point 10)"
  }

  function Assembled(inputs: seq<LaneInput>): Report {
    var sorted := Canonical(Entries(inputs));
    var rows := RowsIn(sorted);
    Report("1", Generator(), rows, TotalsOf(rows), Summaries(sorted, inputs),
           Sorted(CategoryBefore, Tallies(rows, CategoriesOf(rows))))
  }

  method GatherEntries(inputs: seq<LaneInput>) returns (entries: seq<Entry>)
    ensures entries == Entries(inputs)
  {
    entries := [];
    for i := 0 to |inputs|
      invariant entries == Entries(inputs[..i])
    {
      assert inputs[..i + 1][..i] == inputs[..i];
      var lane := inputs[i].lane;
      ghost var before := entries;
      for j := 0 to |lane.rows|
        invariant entries == before + LaneEntries(lane.rows[..j], lane.laneId)
      {
        assert lane.rows[..j + 1][..j] == lane.rows[..j];
        entries := entries + [Entry(lane.rows[j], lane.laneId)];
      }
      assert lane.rows[..|lane.rows|] == lane.rows;
    }
    assert inputs[..|inputs|] == inputs;
  }

  method SummarizeLane(sorted: seq<Entry>, input: LaneInput) returns (summary: LaneSummary)
    ensures summary == SummaryFor(sorted, input)
  {
    var rowsOfLane: seq<Row> := [];
    var pass, fail, notTested := 0, 0, 0;
    for k := 0 to |sorted|
      invariant rowsOfLane == FromLane(sorted[..k], input.lane.laneId)
      invariant Totals(|rowsOfLane|, pass, fail, notTested) == TotalsOf(rowsOfLane)
    {
      assert sorted[..k + 1][..k] == sorted[..k];
      if sorted[k].laneId == input.lane.laneId {
        ghost var before := rowsOfLane;
        rowsOfLane := rowsOfLane + [sorted[k].row];
        assert rowsOfLane[..|before|] == before;
        match sorted[k].row.result {
          case Pass => pass := pass + 1;
          case Fail => fail := fail + 1;
          case NotTested => notTested := notTested + 1;
        }
      }
    }
    assert sorted[..|sorted|] == sorted;
    summary := LaneSummary(input.lane.laneId, |rowsOfLane|, pass, fail, notTested, input.lane.collapsed,
                           input.lane.collapseCode, input.declaredTests);
  }

  function Bumped(t: Totals, v: Verdict): Totals {
    match v
    case Pass => t.(total := t.total + 1, pass := t.pass + 1)
    case Fail => t.(total := t.total + 1, fail := t.fail + 1)
    case NotTested => t.(total := t.total + 1, notTested := t.notTested + 1)
  }

  lemma OneMoreRow(rows: seq<Row>, row: Row)
    ensures TotalsOf(rows + [row]) == Bumped(TotalsOf(rows), row.result)
  {
  }

  /** One more row changes the tally of its own category and of no other. */
  lemma OneMoreTally(rows: seq<Row>, row: Row)
    ensures forall c :: TotalsOf(InCategory(rows + [row], c)) ==
              if c == row.category then Bumped(TotalsOf(InCategory(rows, c)), row.result)
              else TotalsOf(InCategory(rows, c))
    ensures forall c :: InCategory(rows + [row], c) == [] <==> InCategory(rows, c) == [] && c != row.category
  {
    assert (rows + [row])[..|rows|] == rows;
    OneMoreRow(InCategory(rows, row.category), row);
    assert forall c :: c != row.category ==> InCategory(rows + [row], c) == InCategory(rows, c);
  }

  method TallyRows(rows: seq<Row>) returns (totals: Totals, order: seq<string>, tallies: map<string, Totals>)
    ensures totals == TotalsOf(rows) && order == CategoriesOf(rows)
    ensures forall c :: c in order <==> c in tallies
    ensures forall c :: c in tallies ==> tallies[c] == TotalsOf(InCategory(rows, c))
  {
    totals, order, tallies := Totals(0, 0, 0, 0), [], map[];
    for k := 0 to |rows|
      invariant totals == TotalsOf(rows[..k]) && order == CategoriesOf(rows[..k])
      invariant forall c :: c in order <==> c in tallies
      invariant forall c :: c !in tallies ==> InCategory(rows[..k], c) == []
      invariant forall c :: c in tallies ==> tallies[c] == TotalsOf(InCategory(rows[..k], c))
    {
      ghost var done := rows[..k];
      var row := rows[k];
      assert rows[..k + 1] == done + [row] && (done + [row])[..k] == done;
      var tally := if row.category in tallies then tallies[row.category] else Totals(0, 0, 0, 0);
      if row.category !in tallies { order := order + [row.category]; }
      OneMoreRow(done, row);
      OneMoreTally(done, row);
      tallies := tallies[row.category := Bumped(tally, row.result)];
      totals := Bumped(totals, row.result);
    }
    assert rows[..|rows|] == rows;
  }

  method TallyCategories(rows: seq<Row>) returns (totals: Totals, categories: seq<CategoryTally>)
    ensures totals == TotalsOf(rows) && categories == Sorted(CategoryBefore, Tallies(rows, CategoriesOf(rows)))
  {
    var order: seq<string>;
    var tallies: map<string, Totals>;
    totals, order, tallies := TallyRows(rows);
    categories := seq(|order|, i requires 0 <= i < |order| && order[i] in tallies =>
                        CategoryTally(order[i], tallies[order[i]]));
    assert categories == Tallies(rows, CategoriesOf(rows));
    categories := Sorted(CategoryBefore, categories);
  }

  method AssembleReport(inputs: seq<LaneInput>) returns (report: Report)
    ensures report == Assembled(inputs)
  {
    var entries := GatherEntries(inputs);
    var resolved, _, _ := ResolveDuplicateEntries(entries);
    var sorted := Sorted(Before, resolved);
    var lanes: seq<LaneSummary> := [];
    for i := 0 to |inputs|
      invariant lanes == Summaries(sorted, inputs[..i])
    {
      assert inputs[..i + 1][..i] == inputs[..i];
      var summary := SummarizeLane(sorted, inputs[i]);
      lanes := lanes + [summary];
    }
    assert inputs[..|inputs|] == inputs;
    var rows := RowsIn(sorted);
    var totals, categories := TallyCategories(rows);
    report := Report("1", Generator(), rows, totals, lanes, categories);
  }
}
