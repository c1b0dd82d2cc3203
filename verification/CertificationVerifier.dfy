/** The independent check of a finished report (certification/certify.ts, verifyReport). */
module CertificationVerifier {
  import opened Wrappers
  import opened Ordering
  import opened TapLanes
  import opened CertificationReport

  datatype Violation =
    | SchemaVersionInvalid | GeneratorInvalid
    | RowTestIdInvalid | RowTestIdDuplicate | RowCategoryInvalid | RowRequirementInvalid
    | RowPassWithoutReasonCode | RowReasonCodeUnsafe | RowReasonCodeTooLong | RowSourceFileInvalid
    | RowTestIdTooLong | RowRequirementTooLong | RowsNotCanonicallySorted
    | TotalsTotalMismatch | TotalsPassMismatch | TotalsFailMismatch | TotalsNotTestedMismatch
    | LaneIdInvalid | LaneRowCountInvalid | LaneArithmeticMismatch | LaneCollapseCodeInvalid
    | LaneCollapseCodePresent | LaneDeclaredTestsInvalid | LanesVsRowsMismatch
    | LanesVsTotalsPassMismatch | LanesVsTotalsFailMismatch | LanesVsTotalsNotTestedMismatch
    | CategoryNameInvalid | CategoryDuplicate | CategoryArithmeticMismatch | CategoriesVsRowsMismatch
    | CategoryOrderInvalid

  // ----- What a report must be -----

  predicate SafeCode(s: string) {
    s != "" && 'A' <= s[0] <= 'Z'
    && forall i :: 0 <= i < |s| ==> 'A' <= s[i] <= 'Z' || '0' <= s[i] <= '9' || s[i] == '_'
  }

  predicate RowFine(row: Row) {
    && row.testId != "" && |row.testId| <= FIELD_MAX
    && row.category != ""
    && row.requirement != "" && |row.requirement| <= FIELD_MAX
    && (row.result.Pass? ==> row.reasonCode.Some?)
    && (row.reasonCode.Some? ==> SafeCode(row.reasonCode.value) && |row.reasonCode.value| <= REASON_CODE_MAX)
    && row.sourceFile != ""
  }

  predicate RowsFine(rows: seq<Row>) {
    && (forall row :: row in rows ==> RowFine(row))
    && (forall i, j :: 0 <= i < j < |rows| ==> rows[i].testId != rows[j].testId)
  }

  predicate StrictlyOrdered(rows: seq<Row>) {
    forall i :: 0 < i < |rows| ==> RowBefore(rows[i - 1], rows[i])
  }

  predicate LaneFine(lane: LaneSummary) {
    && lane.laneId != "" && lane.rowCount >= 0
    && lane.rowCount == lane.pass + lane.fail + lane.notTested
    && (if lane.collapsed then lane.collapseCode.Some? && lane.collapseCode.value != "" else lane.collapseCode.None?)
    && lane.declaredTests >= 0
  }

  function Plus(a: Totals, b: Totals): Totals {
    Totals(a.total + b.total, a.pass + b.pass, a.fail + b.fail, a.notTested + b.notTested)
  }

  function CountsOf(lane: LaneSummary): Totals {
    Totals(lane.rowCount, lane.pass, lane.fail, lane.notTested)
  }

  function LaneSum(lanes: seq<LaneSummary>): Totals {
    if lanes == [] then Totals(0, 0, 0, 0)
    else Plus(LaneSum(lanes[..|lanes| - 1]), CountsOf(lanes[|lanes| - 1]))
  }

  predicate CategoryFine(c: CategoryTally) {
    c.category != "" && c.tally.total == c.tally.pass + c.tally.fail + c.tally.notTested
  }

  function CategorySum(categories: seq<CategoryTally>): int {
    if categories == [] then 0
    else CategorySum(categories[..|categories| - 1]) + categories[|categories| - 1].tally.total
  }

  predicate CategoriesFine(categories: seq<CategoryTally>, rows: nat) {
    && (forall c :: c in categories ==> CategoryFine(c))
    && (forall i, j :: 0 <= i < j < |categories| ==> categories[i].category != categories[j].category)
    && (forall i :: 0 < i < |categories| ==> CategoryBefore(categories[i - 1], categories[i]))
    && CategorySum(categories) == rows
  }

  predicate LanesFine(lanes: seq<LaneSummary>, totals: Totals) {
    (forall lane :: lane in lanes ==> LaneFine(lane)) && LaneSum(lanes) == totals
  }

  predicate KnownGenerator(generator: string) {
    "certification-reporter/1" <= generator
  }

  /** Everything the verifier stands for. */
  predicate Holds(r: Report) {
    && r.schemaVersion == "1" && KnownGenerator(r.generator)
    && RowsFine(r.rows) && StrictlyOrdered(r.rows)
    && r.totals == TotalsOf(r.rows)
    && LanesFine(r.lanes, TotalsOf(r.rows))
    && CategoriesFine(r.categories, |r.rows|)
  }

  // ----- How it is checked -----

  method CheckRow(row: Row) returns (violations: seq<Violation>)
    requires row.testId != ""
    ensures violations == [] <==> RowFine(row)
  {
    violations := [];
    if row.category == "" { violations := violations + [RowCategoryInvalid]; }
    if row.requirement == "" { violations := violations + [RowRequirementInvalid]; }
    if row.result.Pass? && row.reasonCode.None? { violations := violations + [RowPassWithoutReasonCode]; }
    if row.reasonCode.Some? {
      if !SafeCode(row.reasonCode.value) { violations := violations + [RowReasonCodeUnsafe]; }
      if |row.reasonCode.value| > REASON_CODE_MAX { violations := violations + [RowReasonCodeTooLong]; }
    }
    if row.sourceFile == "" { violations := violations + [RowSourceFileInvalid]; }
    if |row.testId| > FIELD_MAX { violations := violations + [RowTestIdTooLong]; }
    if |row.requirement| > FIELD_MAX { violations := violations + [RowRequirementTooLong]; }
  }

  lemma {:induction false} OneMoreFine(rows: seq<Row>, row: Row)
    ensures RowsFine(rows + [row]) <==>
              RowsFine(rows) && RowFine(row) && forall j :: 0 <= j < |rows| ==> rows[j].testId != row.testId
  {
    assert (rows + [row])[|rows|] == row;
    assert forall j :: 0 <= j < |rows| ==> (rows + [row])[j] == rows[j];
  }

  method CheckRows(rows: seq<Row>) returns (violations: seq<Violation>, pass: nat, fail: nat, notTested: nat)
    ensures violations == [] <==> RowsFine(rows)
    ensures violations == [] ==> Totals(|rows|, pass, fail, notTested) == TotalsOf(rows)
  {
    violations, pass, fail, notTested := [], 0, 0, 0;
    var seenIds: set<string> := {};
    for i := 0 to |rows|
      invariant violations == [] <==> RowsFine(rows[..i])
      invariant violations == [] ==>
                  && Totals(i, pass, fail, notTested) == TotalsOf(rows[..i])
                  && (forall id :: id in seenIds <==> exists j :: 0 <= j < i && rows[j].testId == id)
    {
      var row := rows[i];
      ghost var done := rows[..i];
      assert rows[..i + 1] == done + [row];
      OneMoreRow(done, row);
      OneMoreFine(done, row);
      if row.testId == "" {
        violations := violations + [RowTestIdInvalid];
        continue;
      }
      if row.testId in seenIds { violations := violations + [RowTestIdDuplicate]; }
      seenIds := seenIds + {row.testId};
      var found := CheckRow(row);
      violations := violations + found;
      match row.result {
        case Pass => pass := pass + 1;
        case Fail => fail := fail + 1;
        case NotTested => notTested := notTested + 1;
      }
    }
    assert rows[..|rows|] == rows;
  }

  method CheckTotals(t: Totals, actual: Totals) returns (violations: seq<Violation>)
    ensures violations == [] <==> t == actual
  {
    violations := [];
    if t.total != actual.total { violations := violations + [TotalsTotalMismatch]; }
    if t.pass != actual.pass { violations := violations + [TotalsPassMismatch]; }
    if t.fail != actual.fail { violations := violations + [TotalsFailMismatch]; }
    if t.notTested != actual.notTested { violations := violations + [TotalsNotTestedMismatch]; }
  }

  method CheckLane(lane: LaneSummary) returns (violations: seq<Violation>)
    requires lane.laneId != ""
    ensures violations == [] <==> LaneFine(lane)
  {
    violations := [];
    if lane.rowCount < 0 { violations := violations + [LaneRowCountInvalid]; }
    if lane.rowCount != lane.pass + lane.fail + lane.notTested { violations := violations + [LaneArithmeticMismatch]; }
    if lane.collapsed && (lane.collapseCode.None? || lane.collapseCode.value == "") {
      violations := violations + [LaneCollapseCodeInvalid];
    }
    if !lane.collapsed && lane.collapseCode.Some? { violations := violations + [LaneCollapseCodePresent]; }
    if lane.declaredTests < 0 { violations := violations + [LaneDeclaredTestsInvalid]; }
  }

  method CheckLanes(lanes: seq<LaneSummary>, actual: Totals) returns (violations: seq<Violation>)
    ensures violations == [] <==> LanesFine(lanes, actual)
  {
    violations := [];
    var sum := Totals(0, 0, 0, 0);
    for i := 0 to |lanes|
      invariant violations == [] <==> forall lane :: lane in lanes[..i] ==> LaneFine(lane)
      invariant violations == [] ==> sum == LaneSum(lanes[..i])
    {
      var lane := lanes[i];
      assert lanes[..i + 1] == lanes[..i] + [lane] && lanes[..i + 1][..i] == lanes[..i];
      assert lane in lanes[..i + 1];
      if lane.laneId == "" {
        violations := violations + [LaneIdInvalid];
        continue;
      }
      var found := CheckLane(lane);
      violations := violations + found;
      sum := Plus(sum, CountsOf(lane));
    }
    assert lanes[..|lanes|] == lanes;
    if sum.total != actual.total { violations := violations + [LanesVsRowsMismatch]; }
    if sum.pass != actual.pass { violations := violations + [LanesVsTotalsPassMismatch]; }
    if sum.fail != actual.fail { violations := violations + [LanesVsTotalsFailMismatch]; }
    if sum.notTested != actual.notTested { violations := violations + [LanesVsTotalsNotTestedMismatch]; }
  }

  predicate CategoriesNamed(categories: seq<CategoryTally>) {
    && (forall c :: c in categories ==> CategoryFine(c))
    && (forall i, j :: 0 <= i < j < |categories| ==> categories[i].category != categories[j].category)
  }

  lemma {:induction false} OneMoreNamed(categories: seq<CategoryTally>, c: CategoryTally)
    ensures CategoriesNamed(categories + [c]) <==>
              CategoriesNamed(categories) && CategoryFine(c)
              && forall j :: 0 <= j < |categories| ==> categories[j].category != c.category
  {
    assert (categories + [c])[|categories|] == c;
    assert forall j :: 0 <= j < |categories| ==> (categories + [c])[j] == categories[j];
    assert forall x :: x in categories + [c] <==> x in categories || x == c;
  }

  method CheckCategoryShapes(categories: seq<CategoryTally>) returns (violations: seq<Violation>, sum: int)
    ensures violations == [] <==> CategoriesNamed(categories)
    ensures violations == [] ==> sum == CategorySum(categories)
  {
    violations, sum := [], 0;
    var seen: set<string> := {};
    for i := 0 to |categories|
      invariant violations == [] <==> CategoriesNamed(categories[..i])
      invariant violations == [] ==>
                  && sum == CategorySum(categories[..i])
                  && (forall name :: name in seen <==> exists j :: 0 <= j < i && categories[j].category == name)
    {
      var c := categories[i];
      assert categories[..i + 1] == categories[..i] + [c] && categories[..i + 1][..i] == categories[..i];
      OneMoreNamed(categories[..i], c);
      if c.category == "" {
        violations := violations + [CategoryNameInvalid];
        continue;
      }
      if c.category in seen { violations := violations + [CategoryDuplicate]; }
      seen := seen + {c.category};
      if c.tally.total != c.tally.pass + c.tally.fail + c.tally.notTested {
        violations := violations + [CategoryArithmeticMismatch];
      }
      sum := sum + c.tally.total;
    }
    assert categories[..|categories|] == categories;
  }

  method CheckCategories(categories: seq<CategoryTally>, rows: nat) returns (violations: seq<Violation>)
    ensures violations == [] <==> CategoriesFine(categories, rows)
  {
    var sum;
    violations, sum := CheckCategoryShapes(categories);
    if sum != rows { violations := violations + [CategoriesVsRowsMismatch]; }
    ghost var before := violations;
    if |categories| > 1 {
      for i := 1 to |categories|
        invariant violations == before
        invariant forall j :: 0 < j < i ==> CategoryBefore(categories[j - 1], categories[j])
      {
        if !Less(categories[i - 1].category, categories[i].category) {
          violations := violations + [CategoryOrderInvalid];
          break;
        }
      }
    }
  }

  method CheckOrder(rows: seq<Row>) returns (violations: seq<Violation>)
    ensures violations == [] <==> StrictlyOrdered(rows)
  {
    violations := [];
    if |rows| > 1 {
      for i := 1 to |rows|
        invariant violations == []
        invariant forall j :: 0 < j < i ==> RowBefore(rows[j - 1], rows[j])
      {
        var prev, row := rows[i - 1], rows[i];
        LessIsTotal(prev.category, row.category);
        LessIsTotal(prev.testId, row.testId);
        if Less(row.category, prev.category)
           || (prev.category == row.category && (Less(row.testId, prev.testId) || row.testId == prev.testId)) {
          violations := violations + [RowsNotCanonicallySorted];
          break;
        }
      }
    }
  }

  /** The verifier finds nothing exactly when the report holds. */
  method VerifyReport(r: Report) returns (violations: seq<Violation>)
    ensures violations == [] <==> Holds(r)
  {
    violations := [];
    if r.schemaVersion != "1" { violations := violations + [SchemaVersionInvalid]; }
    if !KnownGenerator(r.generator) { violations := violations + [GeneratorInvalid]; }
    var inRows, pass, fail, notTested := CheckRows(r.rows);
    var actual := Totals(|r.rows|, pass, fail, notTested);
    var inTotals := CheckTotals(r.totals, actual);
    var inLanes := CheckLanes(r.lanes, actual);
    var inCategories := CheckCategories(r.categories, |r.rows|);
    var inOrder := CheckOrder(r.rows);
    violations := violations + inRows + inTotals + inLanes + inCategories + inOrder;
  }
}
