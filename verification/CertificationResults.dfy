/**
 What the certification report is worth: it verifies, it certifies nothing on bad evidence, and
 it does not depend on the order in which the evidence came in.
 */
module CertificationResults {
  import opened Wrappers
  import opened Ordering
  import opened TapLanes
  import opened CertificationReport
  import opened CertificationVerifier

  // ----- The evidence for one test id -----

  lemma {:induction false} OfHolds(entries: seq<Entry>, id: string)
    ensures forall e :: multiset(Of(entries, id))[e] == if e.row.testId == id then multiset(entries)[e] else 0
  {
    if entries != [] {
      var before, last := entries[..|entries| - 1], entries[|entries| - 1];
      OfHolds(before, id);
      assert entries == before + [last];
    }
  }

  /** The group of an id holds exactly the entries with that id. */
  lemma OfMembers(entries: seq<Entry>, id: string)
    ensures forall e :: e in Of(entries, id) <==> e in entries && e.row.testId == id
  {
    OfHolds(entries, id);
    forall e ensures e in Of(entries, id) <==> e in entries && e.row.testId == id {
      assert e in Of(entries, id) <==> multiset(Of(entries, id))[e] > 0;
      assert e in entries <==> multiset(entries)[e] > 0;
    }
  }

  lemma {:induction false} OfConcat(a: seq<Entry>, b: seq<Entry>, id: string)
    ensures Of(a + b, id) == Of(a, id) + Of(b, id)
  {
    if b == [] {
      assert a + b == a;
    } else {
      assert (a + b)[..|a + b| - 1] == a + b[..|b| - 1];
      OfConcat(a, b[..|b| - 1], id);
    }
  }

  /** What is resolved for an id comes from the first evidence for it. */
  lemma ResolvedHas(entries: seq<Entry>, i: nat)
    requires i < |Resolved(entries)|
    ensures i < |Ids(entries)|
    ensures var id, e := Ids(entries)[i], Resolved(entries)[i];
            && Of(entries, id) != [] && e == Settle(Of(entries, id))
            && e.row.testId == id && Of(entries, id)[0] in entries
  {
    IdsAreFound(entries);
    OfMembers(entries, Ids(entries)[i]);
    assert Of(entries, Ids(entries)[i])[0] in Of(entries, Ids(entries)[i]);
  }

  lemma ResolvedIdsDiffer(entries: seq<Entry>)
    ensures forall i, j :: 0 <= i < j < |Resolved(entries)| ==>
              Resolved(entries)[i].row.testId != Resolved(entries)[j].row.testId
  {
    IdsAreFound(entries);
    forall i, j | 0 <= i < j < |Resolved(entries)|
      ensures Resolved(entries)[i].row.testId != Resolved(entries)[j].row.testId
    {
      ResolvedHas(entries, i);
      ResolvedHas(entries, j);
    }
  }

  // ----- The canonical order -----

  lemma RowOrderIsOrder(a: Row, b: Row, c: Row)
    ensures RowBefore(a, b) ==> !RowBefore(b, a)
    ensures RowBefore(a, b) && RowBefore(b, c) ==> RowBefore(a, c)
    ensures !RowBefore(a, b) && !RowBefore(b, c) ==> !RowBefore(a, c)
    ensures a.testId != b.testId ==> RowBefore(a, b) || RowBefore(b, a)
  {
    KeyOrder(a.category, b.category, c.category);
    KeyOrder(a.testId, b.testId, c.testId);
  }

  lemma KeyOrder(a: string, b: string, c: string)
    ensures Less(a, b) ==> !Less(b, a) && a != b
    ensures Less(a, b) && Less(b, c) ==> Less(a, c)
    ensures !Less(a, b) && !Less(b, c) ==> !Less(a, c)
    ensures a == b || Less(a, b) || Less(b, a)
  {
    LessIsTotal(a, b);
    LessIsTotal(b, c);
    LessIsTotal(a, c);
    if Less(a, b) && Less(b, c) { LessIsTransitive(a, b, c); }
    if Less(c, b) && Less(b, a) { LessIsTransitive(c, b, a); }
  }

  lemma OrdersAreOrders()
    ensures IsOrder(Before) && IsOrder(RowBefore) && IsOrder(CategoryBefore)
  {
    forall a: Row, b: Row, c: Row
      ensures RowBefore(a, b) ==> !RowBefore(b, a)
      ensures RowBefore(a, b) && RowBefore(b, c) ==> RowBefore(a, c)
      ensures !RowBefore(a, b) && !RowBefore(b, c) ==> !RowBefore(a, c)
    {
      RowOrderIsOrder(a, b, c);
    }
    forall a: CategoryTally, b: CategoryTally, c: CategoryTally
      ensures CategoryBefore(a, b) ==> !CategoryBefore(b, a)
      ensures CategoryBefore(a, b) && CategoryBefore(b, c) ==> CategoryBefore(a, c)
      ensures !CategoryBefore(a, b) && !CategoryBefore(b, c) ==> !CategoryBefore(a, c)
    {
      KeyOrder(a.category, b.category, c.category);
    }
  }

  predicate DistinctIds(entries: seq<Entry>) {
    forall i, j :: 0 <= i < j < |entries| ==> entries[i].row.testId != entries[j].row.testId
  }

  lemma {:induction false} DistinctMeansOnce(entries: seq<Entry>, e: Entry)
    requires DistinctIds(entries)
    ensures multiset(entries)[e] <= 1
  {
    if entries != [] {
      var before, last := entries[..|entries| - 1], entries[|entries| - 1];
      DistinctMeansOnce(before, e);
      assert entries == before + [last];
      if e == last { assert e !in before; }
    }
  }

  lemma TwiceMeansTwo(entries: seq<Entry>, i: nat, j: nat)
    requires i < j < |entries| && entries[i] == entries[j]
    ensures multiset(entries)[entries[i]] >= 2
  {
    assert entries == entries[..j] + [entries[j]] + entries[j + 1..];
    assert entries[i] in entries[..j];
  }

  /** A permutation of entries with distinct ids has distinct ids. */
  lemma DistinctPermutes(a: seq<Entry>, b: seq<Entry>)
    requires DistinctIds(a) && multiset(a) == multiset(b)
    ensures DistinctIds(b)
  {
    forall i, j | 0 <= i < j < |b|
      ensures b[i].row.testId != b[j].row.testId
    {
      assert b[i] in multiset(a) && b[j] in multiset(a);
      DistinctMeansOnce(a, b[i]);
      if b[i] == b[j] { TwiceMeansTwo(b, i, j); }
    }
  }

  /** The rows of a report are the resolved ones, strictly in canonical order. */
  lemma CanonicalIsStrict(entries: seq<Entry>)
    ensures multiset(Canonical(entries)) == multiset(Resolved(entries))
    ensures DistinctIds(Canonical(entries)) && StrictlyAscending(Before, Canonical(entries))
  {
    OrdersAreOrders();
    SortedIsSorted(Before, Resolved(entries));
    ResolvedIdsDiffer(entries);
    var sorted := Canonical(entries);
    DistinctPermutes(Resolved(entries), sorted);
    forall i, j | 0 <= i < j < |sorted|
      ensures Before(sorted[i], sorted[j])
    {
      RowOrderIsOrder(sorted[i].row, sorted[j].row, sorted[j].row);
    }
  }

  /** Every row of a report is what its test id's evidence settles to. */
  lemma CanonicalHas(entries: seq<Entry>, k: nat)
    requires k < |Canonical(entries)|
    ensures var e := Canonical(entries)[k];
            && Of(entries, e.row.testId) != [] && e == Settle(Of(entries, e.row.testId))
            && Of(entries, e.row.testId)[0] in entries
  {
    CanonicalIsStrict(entries);
    assert Canonical(entries)[k] in multiset(Resolved(entries));
    var i :| 0 <= i < |Resolved(entries)| && Resolved(entries)[i] == Canonical(entries)[k];
    ResolvedHas(entries, i);
  }

  lemma CanonicalCovers(entries: seq<Entry>, id: string)
    requires Of(entries, id) != []
    ensures Settle(Of(entries, id)) in Canonical(entries)
  {
    IdsAreFound(entries);
    var i :| 0 <= i < |Ids(entries)| && Ids(entries)[i] == id;
    CanonicalIsStrict(entries);
    assert Resolved(entries)[i] == Settle(Of(entries, id));
    assert Resolved(entries)[i] in multiset(Canonical(entries));
  }

  // ----- Counting -----

  lemma {:induction false} CountsAddUp(rows: seq<Row>)
    ensures CountOf(rows, Pass) + CountOf(rows, Fail) + CountOf(rows, NotTested) == |rows|
  {
    if rows != [] { CountsAddUp(rows[..|rows| - 1]); }
  }

  /** How many lanes go by an id. */
  function Times(inputs: seq<LaneInput>, laneId: string): nat {
    if inputs == [] then 0
    else Times(inputs[..|inputs| - 1], laneId) + (if inputs[|inputs| - 1].lane.laneId == laneId then 1 else 0)
  }

  function Bumps(t: Totals, v: Verdict, n: nat): Totals {
    match v
    case Pass => t.(total := t.total + n, pass := t.pass + n)
    case Fail => t.(total := t.total + n, fail := t.fail + n)
    case NotTested => t.(total := t.total + n, notTested := t.notTested + n)
  }

  lemma SummaryBumps(entries: seq<Entry>, e: Entry, input: LaneInput)
    ensures CountsOf(SummaryFor(entries + [e], input))
            == Bumps(CountsOf(SummaryFor(entries, input)), e.row.result,
                     if e.laneId == input.lane.laneId then 1 else 0)
  {
    assert (entries + [e])[..|entries|] == entries;
    OneMoreRow(FromLane(entries, input.lane.laneId), e.row);
    if e.laneId != input.lane.laneId {
      assert FromLane(entries + [e], input.lane.laneId) == FromLane(entries, input.lane.laneId);
    }
  }

  lemma BumpsAdd(a: Totals, a': Totals, b: Totals, b': Totals, v: Verdict, m: nat, n: nat)
    requires a' == Bumps(a, v, m) && b' == Bumps(b, v, n)
    ensures Plus(a', b') == Bumps(Plus(a, b), v, m + n)
  {
  }

  /** The lane sums, taken lane by lane from the rows. */
  function LaneCounts(entries: seq<Entry>, inputs: seq<LaneInput>): Totals {
    if inputs == [] then Totals(0, 0, 0, 0)
    else Plus(LaneCounts(entries, inputs[..|inputs| - 1]), CountsOf(SummaryFor(entries, inputs[|inputs| - 1])))
  }

  lemma {:induction false} LaneSumIsCounts(entries: seq<Entry>, inputs: seq<LaneInput>)
    ensures LaneSum(Summaries(entries, inputs)) == LaneCounts(entries, inputs)
  {
    if inputs != [] {
      var all := Summaries(entries, inputs);
      assert all[..|all| - 1] == Summaries(entries, inputs[..|inputs| - 1]);
      LaneSumIsCounts(entries, inputs[..|inputs| - 1]);
    }
  }

  /** One more row adds to the lane sums once for every lane of its id. */
  lemma {:induction false} LaneCountsBump(entries: seq<Entry>, e: Entry, inputs: seq<LaneInput>)
    ensures LaneCounts(entries + [e], inputs)
            == Bumps(LaneCounts(entries, inputs), e.row.result, Times(inputs, e.laneId))
  {
    if inputs != [] {
      var before, last := inputs[..|inputs| - 1], inputs[|inputs| - 1];
      LaneCountsBump(entries, e, before);
      SummaryBumps(entries, e, last);
      BumpsAdd(LaneCounts(entries, before), LaneCounts(entries + [e], before),
               CountsOf(SummaryFor(entries, last)), CountsOf(SummaryFor(entries + [e], last)),
               e.row.result, Times(before, e.laneId), if e.laneId == last.lane.laneId then 1 else 0);
    }
  }

  lemma NothingFromLane(input: LaneInput)
    ensures CountsOf(SummaryFor([], input)) == Totals(0, 0, 0, 0)
  {
    assert FromLane([], input.lane.laneId) == [];
  }

  lemma {:induction false} NothingAddsUp(entries: seq<Entry>, inputs: seq<LaneInput>)
    requires forall i :: 0 <= i < |inputs| ==> CountsOf(SummaryFor(entries, inputs[i])) == Totals(0, 0, 0, 0)
    ensures LaneCounts(entries, inputs) == Totals(0, 0, 0, 0)
  {
    if inputs != [] {
      var before := inputs[..|inputs| - 1];
      assert forall i :: 0 <= i < |before| ==> before[i] == inputs[i];
      NothingAddsUp(entries, before);
    }
  }

  lemma NoRowsNoCounts(inputs: seq<LaneInput>)
    ensures LaneCounts([], inputs) == Totals(0, 0, 0, 0)
  {
    forall i | 0 <= i < |inputs|
      ensures CountsOf(SummaryFor([], inputs[i])) == Totals(0, 0, 0, 0)
    {
      NothingFromLane(inputs[i]);
    }
    NothingAddsUp([], inputs);
  }

  predicate EachOnce(entries: seq<Entry>, inputs: seq<LaneInput>) {
    forall e :: e in entries ==> Times(inputs, e.laneId) == 1
  }

  lemma EachOnceMore(entries: seq<Entry>, e: Entry, inputs: seq<LaneInput>)
    ensures EachOnce(entries + [e], inputs) <==> EachOnce(entries, inputs) && Times(inputs, e.laneId) == 1
  {
  }

  lemma {:induction false} LaneSumOnce(entries: seq<Entry>, inputs: seq<LaneInput>)
    requires EachOnce(entries, inputs)
    ensures LaneCounts(entries, inputs) == TotalsOf(RowsIn(entries))
  {
    if entries == [] {
      NoRowsNoCounts(inputs);
    } else {
      var before, last := entries[..|entries| - 1], entries[|entries| - 1];
      assert entries == before + [last] && RowsIn(entries) == RowsIn(before) + [last.row];
      EachOnceMore(before, last, inputs);
      LaneSumOnce(before, inputs);
      LaneCountsBump(before, last, inputs);
      OneMoreRow(RowsIn(before), last.row);
    }
  }

  lemma {:induction false} LaneSumTotal(entries: seq<Entry>, inputs: seq<LaneInput>)
    requires forall e :: e in entries ==> Times(inputs, e.laneId) >= 1
    ensures LaneCounts(entries, inputs).total >= |entries|
    ensures LaneCounts(entries, inputs).total == |entries| ==> EachOnce(entries, inputs)
  {
    if entries == [] {
      NoRowsNoCounts(inputs);
    } else {
      var before, last := entries[..|entries| - 1], entries[|entries| - 1];
      assert entries == before + [last];
      EachOnceMore(before, last, inputs);
      LaneSumTotal(before, inputs);
      LaneCountsBump(before, last, inputs);
    }
  }

  /** The lane sums match the rows exactly when every row's lane id names one lane. */
  lemma LaneSumMatchesIff(entries: seq<Entry>, inputs: seq<LaneInput>)
    requires forall e :: e in entries ==> Times(inputs, e.laneId) >= 1
    ensures LaneSum(Summaries(entries, inputs)) == TotalsOf(RowsIn(entries)) <==> EachOnce(entries, inputs)
  {
    LaneSumIsCounts(entries, inputs);
    LaneSumTotal(entries, inputs);
    if EachOnce(entries, inputs) { LaneSumOnce(entries, inputs); }
  }

  // ----- Categories -----

  lemma {:induction false} CategoriesAreFound(rows: seq<Row>)
    ensures forall c :: c in CategoriesOf(rows) <==> exists i :: 0 <= i < |rows| && rows[i].category == c
    ensures forall i, j :: 0 <= i < j < |CategoriesOf(rows)| ==> CategoriesOf(rows)[i] != CategoriesOf(rows)[j]
  {
    if rows != [] { CategoriesAreFound(rows[..|rows| - 1]); }
  }

  lemma {:induction false} CategorySumConcat(a: seq<CategoryTally>, b: seq<CategoryTally>)
    ensures CategorySum(a + b) == CategorySum(a) + CategorySum(b)
  {
    if b == [] {
      assert a + b == a;
    } else {
      assert (a + b)[..|a + b| - 1] == a + b[..|b| - 1];
      CategorySumConcat(a, b[..|b| - 1]);
    }
  }

  lemma {:induction false} SortingKeepsSum(x: CategoryTally, s: seq<CategoryTally>)
    ensures CategorySum(Insert(CategoryBefore, x, s)) == x.tally.total + CategorySum(s)
  {
    CategorySumConcat([x], s);
    if s != [] && CategoryBefore(s[0], x) {
      SortingKeepsSum(x, s[1..]);
      CategorySumConcat([s[0]], Insert(CategoryBefore, x, s[1..]));
      CategorySumConcat([s[0]], s[1..]);
      assert s == [s[0]] + s[1..];
    }
  }

  lemma {:induction false} SortedKeepsSum(s: seq<CategoryTally>)
    ensures CategorySum(Sorted(CategoryBefore, s)) == CategorySum(s)
  {
    if s != [] {
      SortedKeepsSum(s[1..]);
      SortingKeepsSum(s[0], Sorted(CategoryBefore, s[1..]));
      CategorySumConcat([s[0]], s[1..]);
      assert s == [s[0]] + s[1..];
    }
  }

  predicate Distinct(names: seq<string>) {
    forall i, j :: 0 <= i < j < |names| ==> names[i] != names[j]
  }

  lemma TalliesSum(rows: seq<Row>, names: seq<string>)
    requires names != []
    ensures CategorySum(Tallies(rows, names))
            == CategorySum(Tallies(rows, names[..|names| - 1])) + |InCategory(rows, names[|names| - 1])|
  {
    var all := Tallies(rows, names);
    assert all[..|all| - 1] == Tallies(rows, names[..|names| - 1]);
  }

  lemma {:induction false} TalliesBump(rows: seq<Row>, row: Row, names: seq<string>)
    requires Distinct(names)
    ensures CategorySum(Tallies(rows + [row], names))
            == CategorySum(Tallies(rows, names)) + (if row.category in names then 1 else 0)
  {
    if names != [] {
      TalliesBump(rows, row, names[..|names| - 1]);
      TalliesSum(rows, names);
      TalliesSum(rows + [row], names);
      OneMoreTally(rows, row);
      assert (rows + [row])[..|rows|] == rows;
    }
  }

  lemma {:induction false} NoRowsNoTallies(names: seq<string>)
    ensures CategorySum(Tallies([], names)) == 0
  {
    if names != [] {
      NoRowsNoTallies(names[..|names| - 1]);
      TalliesSum([], names);
    }
  }

  /** Tallies over distinct names that cover all rows count every row once. */
  lemma {:induction false} TalliesCoverRows(rows: seq<Row>, names: seq<string>)
    requires Distinct(names) && forall row :: row in rows ==> row.category in names
    ensures CategorySum(Tallies(rows, names)) == |rows|
  {
    if rows == [] {
      NoRowsNoTallies(names);
    } else {
      var before, last := rows[..|rows| - 1], rows[|rows| - 1];
      assert rows == before + [last];
      assert last in rows && forall row :: row in before ==> row in rows;
      TalliesCoverRows(before, names);
      TalliesBump(before, last, names);
    }
  }

  lemma TalliesAreFine(rows: seq<Row>, sorted: seq<CategoryTally>)
    requires forall row :: row in rows ==> row.category != ""
    requires multiset(sorted) == multiset(Tallies(rows, CategoriesOf(rows)))
    ensures forall c :: c in sorted ==> CategoryFine(c)
  {
    CategoriesAreFound(rows);
    forall c | c in sorted
      ensures CategoryFine(c)
    {
      assert c in multiset(Tallies(rows, CategoriesOf(rows)));
      assert c.category in CategoriesOf(rows);
      var i :| 0 <= i < |rows| && rows[i].category == c.category;
      assert rows[i] in rows;
      CountsAddUp(InCategory(rows, c.category));
    }
  }

  lemma TalliesAscend(sorted: seq<CategoryTally>)
    requires Ascending(CategoryBefore, sorted)
    requires forall i, j :: 0 <= i < j < |sorted| ==> sorted[i].category != sorted[j].category
    ensures forall i :: 0 < i < |sorted| ==> CategoryBefore(sorted[i - 1], sorted[i])
  {
    forall i | 0 < i < |sorted|
      ensures CategoryBefore(sorted[i - 1], sorted[i])
    {
      LessIsTotal(sorted[i - 1].category, sorted[i].category);
    }
  }

  lemma SortedTallies(rows: seq<Row>)
    requires forall row :: row in rows ==> row.category != ""
    ensures CategoriesFine(Sorted(CategoryBefore, Tallies(rows, CategoriesOf(rows))), |rows|)
  {
    var tallies := Tallies(rows, CategoriesOf(rows));
    var sorted := Sorted(CategoryBefore, tallies);
    OrdersAreOrders();
    SortedIsSorted(CategoryBefore, tallies);
    TalliesAreFine(rows, sorted);
    CategoriesAreFound(rows);
    NamesStayDistinct(tallies, sorted);
    TalliesAscend(sorted);
    SortedKeepsSum(tallies);
    TalliesCoverRows(rows, CategoriesOf(rows));
  }

  lemma {:induction false} NamedOnce(s: seq<CategoryTally>, c: CategoryTally)
    requires forall i, j :: 0 <= i < j < |s| ==> s[i].category != s[j].category
    ensures multiset(s)[c] <= 1
  {
    if s != [] {
      var before, last := s[..|s| - 1], s[|s| - 1];
      NamedOnce(before, c);
      assert s == before + [last];
      if c == last { assert c !in before; }
    }
  }

  lemma TwiceIsTwo(s: seq<CategoryTally>, i: nat, j: nat)
    requires i < j < |s|
    ensures s[i] == s[j] ==> multiset(s)[s[i]] >= 2
  {
    assert s == s[..j] + [s[j]] + s[j + 1..];
    assert s[i] in s[..j];
  }

  lemma NamesStayDistinct(a: seq<CategoryTally>, b: seq<CategoryTally>)
    requires forall i, j :: 0 <= i < j < |a| ==> a[i].category != a[j].category
    requires multiset(a) == multiset(b)
    ensures forall i, j :: 0 <= i < j < |b| ==> b[i].category != b[j].category
  {
    forall i, j | 0 <= i < j < |b|
      ensures b[i].category != b[j].category
    {
      assert b[i] in multiset(a) && b[j] in multiset(a);
      NamedOnce(a, b[i]);
      TwiceIsTwo(b, i, j);
    }
  }

  // ----- The first evidence for a test id -----

  /** A row's place: the lane, and the row in it. */
  predicate IsPlace(inputs: seq<LaneInput>, l: nat, k: nat) {
    l < |inputs| && k < |inputs[l].lane.rows|
  }

  function RowAt(inputs: seq<LaneInput>, l: nat, k: nat): Row
    requires IsPlace(inputs, l, k)
  {
    inputs[l].lane.rows[k]
  }

  predicate Earlier(m: nat, n: nat, l: nat, k: nat) {
    m < l || (m == l && n < k)
  }

  /** The first row of all lanes with its test id. */
  ghost predicate IsFirst(inputs: seq<LaneInput>, l: nat, k: nat) {
    && IsPlace(inputs, l, k)
    && (forall m: nat, n: nat :: IsPlace(inputs, m, n) && Earlier(m, n, l, k) ==>
          RowAt(inputs, m, n).testId != RowAt(inputs, l, k).testId)
  }

  lemma {:induction false} EntriesCome(inputs: seq<LaneInput>, e: Entry)
    requires e in Entries(inputs)
    ensures exists i :: 0 <= i < |inputs| && e.laneId == inputs[i].lane.laneId && e.row in inputs[i].lane.rows
    ensures Times(inputs, e.laneId) >= 1
  {
    var before, last := inputs[..|inputs| - 1], inputs[|inputs| - 1];
    if e in Entries(before) {
      EntriesCome(before, e);
      var i :| 0 <= i < |before| && e.laneId == before[i].lane.laneId && e.row in before[i].lane.rows;
      assert inputs[i] == before[i];
    } else {
      assert e in LaneEntries(last.lane.rows, last.lane.laneId);
      assert inputs[|inputs| - 1] == last;
    }
  }

  lemma {:induction false} NoneOf(entries: seq<Entry>, id: string)
    requires forall e :: e in entries ==> e.row.testId != id
    ensures Of(entries, id) == []
  {
    if entries != [] { NoneOf(entries[..|entries| - 1], id); }
  }

  lemma FirstOf(before: seq<Entry>, e: Entry, after: seq<Entry>)
    requires forall x :: x in before ==> x.row.testId != e.row.testId
    ensures var group := Of(before + [e] + after, e.row.testId); group != [] && group[0] == e
  {
    OfConcat(before + [e], after, e.row.testId);
    OfConcat(before, [e], e.row.testId);
    NoneOf(before, e.row.testId);
    assert [e][..0] == [];
  }

  lemma FirstInLane(rows: seq<Row>, laneId: string, k: nat)
    requires k < |rows| && forall n :: 0 <= n < k ==> rows[n].testId != rows[k].testId
    ensures var group := Of(LaneEntries(rows, laneId), rows[k].testId);
            group != [] && group[0] == Entry(rows[k], laneId)
  {
    var entries := LaneEntries(rows, laneId);
    assert entries == entries[..k] + [entries[k]] + entries[k + 1..];
    FirstOf(entries[..k], entries[k], entries[k + 1..]);
  }

  lemma NoPlaceNoEvidence(inputs: seq<LaneInput>, id: string)
    requires forall m: nat, n: nat :: IsPlace(inputs, m, n) ==> RowAt(inputs, m, n).testId != id
    ensures Of(Entries(inputs), id) == []
  {
    forall e | e in Entries(inputs)
      ensures e.row.testId != id
    {
      EntriesCome(inputs, e);
      var m :| 0 <= m < |inputs| && e.laneId == inputs[m].lane.laneId && e.row in inputs[m].lane.rows;
      var n :| 0 <= n < |inputs[m].lane.rows| && inputs[m].lane.rows[n] == e.row;
      assert IsPlace(inputs, m, n) && RowAt(inputs, m, n) == e.row;
    }
    NoneOf(Entries(inputs), id);
  }

  /** The first row with a test id is the first evidence for it. */
  lemma {:induction false} FirstIsFirst(inputs: seq<LaneInput>, l: nat, k: nat)
    requires IsFirst(inputs, l, k)
    ensures var group := Of(Entries(inputs), RowAt(inputs, l, k).testId);
            group != [] && group[0] == Entry(RowAt(inputs, l, k), inputs[l].lane.laneId)
  {
    var before, last := inputs[..|inputs| - 1], inputs[|inputs| - 1];
    var id := RowAt(inputs, l, k).testId;
    OfConcat(Entries(before), LaneEntries(last.lane.rows, last.lane.laneId), id);
    if l < |before| {
      assert forall m: nat, n: nat :: IsPlace(before, m, n) ==>
                                        IsPlace(inputs, m, n) && RowAt(inputs, m, n) == RowAt(before, m, n);
      FirstIsFirst(before, l, k);
    } else {
      forall m: nat, n: nat | IsPlace(before, m, n)
        ensures RowAt(before, m, n).testId != id
      {
        assert IsPlace(inputs, m, n) && Earlier(m, n, l, k);
      }
      NoPlaceNoEvidence(before, id);
      forall n | 0 <= n < k
        ensures last.lane.rows[n].testId != id
      {
        assert IsPlace(inputs, l, n) && Earlier(l, n, l, k);
      }
      FirstInLane(last.lane.rows, last.lane.laneId, k);
    }
  }

  /** Every test id that occurs occurs first somewhere. */
  lemma {:induction false} HasFirst(inputs: seq<LaneInput>, l: nat, k: nat) returns (m: nat, n: nat)
    requires IsPlace(inputs, l, k)
    ensures IsFirst(inputs, m, n) && RowAt(inputs, m, n).testId == RowAt(inputs, l, k).testId
    decreases l, k
  {
    if IsFirst(inputs, l, k) {
      m, n := l, k;
    } else {
      var i: nat, j: nat :| IsPlace(inputs, i, j) && Earlier(i, j, l, k)
                            && RowAt(inputs, i, j).testId == RowAt(inputs, l, k).testId;
      m, n := HasFirst(inputs, i, j);
    }
  }

  /** What the report makes of the first row with a test id. */
  function Reported(inputs: seq<LaneInput>, l: nat, k: nat): Entry
    requires IsPlace(inputs, l, k)
  {
    var group := Of(Entries(inputs), RowAt(inputs, l, k).testId);
    if group == [] then Entry(RowAt(inputs, l, k), inputs[l].lane.laneId) else Settle(group)
  }

  lemma FirstIsReported(inputs: seq<LaneInput>, l: nat, k: nat)
    requires IsFirst(inputs, l, k)
    ensures Reported(inputs, l, k) in Canonical(Entries(inputs))
    ensures Reported(inputs, l, k).laneId == inputs[l].lane.laneId
  {
    FirstIsFirst(inputs, l, k);
    CanonicalCovers(Entries(inputs), RowAt(inputs, l, k).testId);
  }

  lemma ReportedIsFirst(inputs: seq<LaneInput>, e: Entry) returns (l: nat, k: nat)
    requires e in Canonical(Entries(inputs))
    ensures IsFirst(inputs, l, k) && e == Reported(inputs, l, k)
  {
    var entries := Entries(inputs);
    var i :| 0 <= i < |Canonical(entries)| && Canonical(entries)[i] == e;
    CanonicalHas(entries, i);
    var first := Of(entries, e.row.testId)[0];
    OfMembers(entries, e.row.testId);
    assert first in Of(entries, e.row.testId);
    EntriesCome(inputs, first);
    var m :| 0 <= m < |inputs| && first.laneId == inputs[m].lane.laneId && first.row in inputs[m].lane.rows;
    var n :| 0 <= n < |inputs[m].lane.rows| && inputs[m].lane.rows[n] == first.row;
    l, k := HasFirst(inputs, m, n);
  }

  // ----- The assembled report verifies -----

  /** A lane with an id and consistent flags. */
  predicate LaneSound(lane: LaneResult) {
    && lane.laneId != ""
    && (if lane.collapsed then lane.collapseCode.Some? && lane.collapseCode.value != "" else lane.collapseCode.None?)
  }

  /** A lane whose rows and flags are in order. */
  predicate LaneInOrder(lane: LaneResult) {
    LaneSound(lane) && forall row :: row in lane.rows ==> RowFine(row)
  }

  predicate AllSound(inputs: seq<LaneInput>) {
    forall i :: 0 <= i < |inputs| ==> LaneSound(inputs[i].lane)
  }

  predicate AllFine(entries: seq<Entry>) {
    forall e :: e in entries ==> RowFine(e.row)
  }

  /** Every row of the report is attributed to some lane. */
  lemma CanonicalIsAttributed(inputs: seq<LaneInput>)
    ensures forall e :: e in Canonical(Entries(inputs)) ==> Times(inputs, e.laneId) >= 1
  {
    var entries := Entries(inputs);
    forall k | 0 <= k < |Canonical(entries)|
      ensures Times(inputs, Canonical(entries)[k].laneId) >= 1
    {
      CanonicalHas(entries, k);
      EntriesCome(inputs, Of(entries, Canonical(entries)[k].row.testId)[0]);
    }
  }

  lemma RowsHoldIff(sorted: seq<Entry>)
    requires DistinctIds(sorted) && StrictlyAscending(Before, sorted)
    ensures StrictlyOrdered(RowsIn(sorted)) && (RowsFine(RowsIn(sorted)) <==> AllFine(sorted))
  {
    if RowsFine(RowsIn(sorted)) {
      forall e | e in sorted
        ensures RowFine(e.row)
      {
        var i :| 0 <= i < |sorted| && sorted[i] == e;
        assert RowsIn(sorted)[i] in RowsIn(sorted);
      }
    }
  }

  lemma AllButLanesHoldIff(inputs: seq<LaneInput>)
    ensures var r := Assembled(inputs);
            RowsFine(r.rows) && StrictlyOrdered(r.rows) && CategoriesFine(r.categories, |r.rows|)
            <==> AllFine(Canonical(Entries(inputs)))
  {
    var sorted := Canonical(Entries(inputs));
    CanonicalIsStrict(Entries(inputs));
    RowsHoldIff(sorted);
    if AllFine(sorted) { SortedTallies(RowsIn(sorted)); }
  }

  lemma LanesHoldIff(inputs: seq<LaneInput>)
    requires AllSound(inputs)
    ensures LanesFine(Assembled(inputs).lanes, Assembled(inputs).totals)
            <==> EachOnce(Canonical(Entries(inputs)), inputs)
  {
    var sorted := Canonical(Entries(inputs));
    CanonicalIsAttributed(inputs);
    LaneSumMatchesIff(sorted, inputs);
    forall lane | lane in Assembled(inputs).lanes
      ensures LaneFine(lane)
    {
      var i :| 0 <= i < |inputs| && lane == SummaryFor(sorted, inputs[i]);
      CountsAddUp(FromLane(sorted, inputs[i].lane.laneId));
    }
  }

  lemma GeneratorIsKnown()
    ensures KnownGenerator(Generator())
  {
  }

  lemma AssembledSplits(inputs: seq<LaneInput>)
    requires AllSound(inputs)
    ensures Holds(Assembled(inputs))
            <==> AllFine(Canonical(Entries(inputs))) && EachOnce(Canonical(Entries(inputs)), inputs)
  {
    AllButLanesHoldIff(inputs);
    LanesHoldIff(inputs);
    GeneratorIsKnown();
  }

  /** No other lane goes by this lane's id. */
  predicate OnlyLane(inputs: seq<LaneInput>, l: nat)
    requires l < |inputs|
  {
    forall m :: 0 <= m < |inputs| && m != l ==> inputs[m].lane.laneId != inputs[l].lane.laneId
  }

  lemma {:induction false} NoLaneNoTimes(inputs: seq<LaneInput>, laneId: string)
    ensures Times(inputs, laneId) == 0 <==> forall i :: 0 <= i < |inputs| ==> inputs[i].lane.laneId != laneId
  {
    if inputs != [] { NoLaneNoTimes(inputs[..|inputs| - 1], laneId); }
  }

  lemma {:induction false} OnceIffOnly(inputs: seq<LaneInput>, l: nat)
    requires l < |inputs|
    ensures Times(inputs, inputs[l].lane.laneId) == 1 <==> OnlyLane(inputs, l)
  {
    var before, last := inputs[..|inputs| - 1], inputs[|inputs| - 1];
    NoLaneNoTimes(before, inputs[l].lane.laneId);
    if l < |before| { OnceIffOnly(before, l); }
  }

  lemma LaneEvidence(rows: seq<Row>, laneId: string, k: nat)
    requires k < |rows|
    ensures Entry(rows[k], laneId) in Of(LaneEntries(rows, laneId), rows[k].testId)
  {
    var entries := LaneEntries(rows, laneId);
    assert entries[k] in entries;
    OfMembers(entries, rows[k].testId);
  }

  lemma LaneEvidenceTwice(rows: seq<Row>, laneId: string, j: nat, k: nat)
    requires j < k < |rows| && rows[j].testId == rows[k].testId
    ensures |Of(LaneEntries(rows, laneId), rows[k].testId)| >= 2
  {
    var entries := LaneEntries(rows, laneId);
    var id := rows[k].testId;
    assert entries == entries[..k] + entries[k..];
    OfConcat(entries[..k], entries[k..], id);
    OfMembers(entries[..k], id);
    OfMembers(entries[k..], id);
    assert entries[..k][j] in entries[..k] && entries[k..][0] in entries[k..];
    assert entries[j] in Of(entries[..k], id) && entries[k] in Of(entries[k..], id);
  }

  /** A row of some lane is evidence for its test id. */
  lemma {:induction false} PlaceIsEvidence(inputs: seq<LaneInput>, l: nat, k: nat)
    requires IsPlace(inputs, l, k)
    ensures Entry(RowAt(inputs, l, k), inputs[l].lane.laneId) in Of(Entries(inputs), RowAt(inputs, l, k).testId)
  {
    var before, last := inputs[..|inputs| - 1], inputs[|inputs| - 1];
    var id := RowAt(inputs, l, k).testId;
    OfConcat(Entries(before), LaneEntries(last.lane.rows, last.lane.laneId), id);
    if l < |before| {
      PlaceIsEvidence(before, l, k);
    } else {
      LaneEvidence(last.lane.rows, last.lane.laneId, k);
    }
  }

  /** Two places with one test id make at least two pieces of evidence. */
  lemma {:induction false} PlacesAddUp(inputs: seq<LaneInput>, l: nat, k: nat, m: nat, n: nat)
    requires IsPlace(inputs, l, k) && IsPlace(inputs, m, n) && (l < m || (l == m && k < n))
    requires RowAt(inputs, l, k).testId == RowAt(inputs, m, n).testId
    ensures |Of(Entries(inputs), RowAt(inputs, m, n).testId)| >= 2
  {
    var before, last := inputs[..|inputs| - 1], inputs[|inputs| - 1];
    var id := RowAt(inputs, m, n).testId;
    OfConcat(Entries(before), LaneEntries(last.lane.rows, last.lane.laneId), id);
    if m < |before| {
      PlacesAddUp(before, l, k, m, n);
    } else if l < |before| {
      PlaceIsEvidence(before, l, k);
      LaneEvidence(last.lane.rows, last.lane.laneId, n);
    } else {
      LaneEvidenceTwice(last.lane.rows, last.lane.laneId, k, n);
    }
  }

  /** The row's test id stands at another place too. */
  predicate Recurs(inputs: seq<LaneInput>, l: nat, k: nat)
    requires IsPlace(inputs, l, k)
  {
    exists m, n :: 0 <= m < |inputs| && 0 <= n < |inputs[m].lane.rows| && (m != l || n != k)
                   && inputs[m].lane.rows[n].testId == RowAt(inputs, l, k).testId
  }

  lemma OnlyOneOf(before: seq<Entry>, e: Entry, after: seq<Entry>)
    requires forall x :: x in before || x in after ==> x.row.testId != e.row.testId
    ensures Of(before + [e] + after, e.row.testId) == [e]
  {
    OfConcat(before + [e], after, e.row.testId);
    OfConcat(before, [e], e.row.testId);
    NoneOf(before, e.row.testId);
    NoneOf(after, e.row.testId);
    assert [e][..0] == [];
  }

  lemma AloneInLane(rows: seq<Row>, laneId: string, k: nat)
    requires k < |rows| && forall n :: 0 <= n < |rows| && n != k ==> rows[n].testId != rows[k].testId
    ensures Of(LaneEntries(rows, laneId), rows[k].testId) == [Entry(rows[k], laneId)]
  {
    var entries := LaneEntries(rows, laneId);
    assert entries == entries[..k] + [entries[k]] + entries[k + 1..];
    OnlyOneOf(entries[..k], entries[k], entries[k + 1..]);
  }

  /** A row whose test id does not recur is all the evidence for it. */
  lemma {:induction false} AloneIsOne(inputs: seq<LaneInput>, l: nat, k: nat)
    requires IsPlace(inputs, l, k) && !Recurs(inputs, l, k)
    ensures |Of(Entries(inputs), RowAt(inputs, l, k).testId)| == 1
  {
    var before, last := inputs[..|inputs| - 1], inputs[|inputs| - 1];
    var id := RowAt(inputs, l, k).testId;
    OfConcat(Entries(before), LaneEntries(last.lane.rows, last.lane.laneId), id);
    assert forall m: nat, n: nat :: IsPlace(before, m, n) ==>
                                      IsPlace(inputs, m, n) && RowAt(inputs, m, n) == RowAt(before, m, n);
    if l < |before| {
      AloneIsOne(before, l, k);
      NoneOf(LaneEntries(last.lane.rows, last.lane.laneId), id);
    } else {
      NoPlaceNoEvidence(before, id);
      AloneInLane(last.lane.rows, last.lane.laneId, k);
    }
  }

  lemma RecursIsMore(inputs: seq<LaneInput>, l: nat, k: nat)
    requires IsPlace(inputs, l, k)
    ensures Recurs(inputs, l, k) <==> |Of(Entries(inputs), RowAt(inputs, l, k).testId)| != 1
  {
    if Recurs(inputs, l, k) {
      var m, n :| 0 <= m < |inputs| && 0 <= n < |inputs[m].lane.rows| && (m != l || n != k)
                  && inputs[m].lane.rows[n].testId == RowAt(inputs, l, k).testId;
      if l < m || (l == m && k < n) { PlacesAddUp(inputs, l, k, m, n); } else { PlacesAddUp(inputs, m, n, l, k); }
    } else {
      AloneIsOne(inputs, l, k);
    }
  }

  /** What of a row settling its evidence leaves as it is. */
  predicate FrameFine(row: Row) {
    && row.testId != "" && |row.testId| <= FIELD_MAX && row.category != ""
    && row.requirement != "" && |row.requirement| <= FIELD_MAX && row.sourceFile != ""
  }

  /** A row whose id recurs gets another result and reason code; one whose id does not stays as it is. */
  predicate FirstFine(inputs: seq<LaneInput>, l: nat, k: nat)
    requires IsPlace(inputs, l, k)
  {
    if Recurs(inputs, l, k) then FrameFine(RowAt(inputs, l, k)) else RowFine(RowAt(inputs, l, k))
  }

  lemma SettledFineIff(group: seq<Entry>)
    requires group != []
    ensures RowFine(Settle(group).row)
            <==> if |group| == 1 then RowFine(group[0].row) else FrameFine(group[0].row)
  {
    assert SafeCode("ROW_DUPLICATE_IDENTICAL") && SafeCode("ROW_CONFLICTING_EVIDENCE");
  }

  lemma ReportedFineIff(inputs: seq<LaneInput>, l: nat, k: nat)
    requires IsFirst(inputs, l, k)
    ensures RowFine(Reported(inputs, l, k).row) <==> FirstFine(inputs, l, k)
  {
    FirstIsFirst(inputs, l, k);
    RecursIsMore(inputs, l, k);
    SettledFineIff(Of(Entries(inputs), RowAt(inputs, l, k).testId));
  }

  /** If this place holds the first row with its test id, that row is fine and its lane's id names no other lane. */
  ghost predicate FirstStands(inputs: seq<LaneInput>, l: nat, k: nat) {
    IsFirst(inputs, l, k) ==> FirstFine(inputs, l, k) && OnlyLane(inputs, l)
  }

  /**
   When an assembled report verifies, whatever the lanes hold: exactly when the first row with each
   test id is well formed (but for its result and reason code, if the id recurs) and its lane's id
   names no other lane.
   */
  lemma AssembledHoldsIff(inputs: seq<LaneInput>)
    requires AllSound(inputs)
    ensures Holds(Assembled(inputs)) <==> forall l: nat, k: nat :: FirstStands(inputs, l, k)
  {
    AssembledSplits(inputs);
    var sorted := Canonical(Entries(inputs));
    if Holds(Assembled(inputs)) {
      forall l: nat, k: nat | IsFirst(inputs, l, k)
        ensures FirstFine(inputs, l, k) && OnlyLane(inputs, l)
      {
        FirstIsReported(inputs, l, k);
        ReportedFineIff(inputs, l, k);
        OnceIffOnly(inputs, l);
      }
    } else {
      var e :| e in sorted && !(RowFine(e.row) && Times(inputs, e.laneId) == 1);
      var l, k := ReportedIsFirst(inputs, e);
      FirstIsReported(inputs, l, k);
      ReportedFineIff(inputs, l, k);
      OnceIffOnly(inputs, l);
      assert !FirstStands(inputs, l, k);
    }
  }

  /**
   With well-formed rows an assembled report verifies exactly when no lane that has the first row
   with some test id shares its own id with another lane.
   */
  lemma AssembledVerifiesIff(inputs: seq<LaneInput>)
    requires forall i :: 0 <= i < |inputs| ==> LaneInOrder(inputs[i].lane)
    ensures Holds(Assembled(inputs)) <==> forall l: nat, k: nat :: IsFirst(inputs, l, k) ==> OnlyLane(inputs, l)
  {
    AssembledHoldsIff(inputs);
    forall l: nat, k: nat
      ensures FirstStands(inputs, l, k) <==> (IsFirst(inputs, l, k) ==> OnlyLane(inputs, l))
    {
      if IsFirst(inputs, l, k) {
        assert RowAt(inputs, l, k) in inputs[l].lane.rows;
      }
    }
  }

  /** With distinct lane ids and well-formed rows the assembled report always verifies. */
  lemma AssembledVerifies(inputs: seq<LaneInput>)
    requires forall i :: 0 <= i < |inputs| ==> LaneInOrder(inputs[i].lane)
    requires forall i, j :: 0 <= i < j < |inputs| ==> inputs[i].lane.laneId != inputs[j].lane.laneId
    ensures Holds(Assembled(inputs))
  {
    AssembledVerifiesIff(inputs);
  }

  // ----- Tampering -----

  lemma {:induction false} CountAfterUpdate(rows: seq<Row>, i: nat, v: Verdict)
    requires i < |rows| && rows[i].result != v
    ensures CountOf(rows[i := rows[i].(result := v)], rows[i].result) == CountOf(rows, rows[i].result) - 1
  {
    var last := |rows| - 1;
    var rows' := rows[i := rows[i].(result := v)];
    if i < last {
      CountAfterUpdate(rows[..last], i, v);
      assert rows'[..last] == rows[..last][i := rows[i].(result := v)];
    } else {
      assert rows'[..last] == rows[..last];
    }
  }

  /** Changing the result of any one row of a verified report makes verification fail. */
  lemma ChangedResultIsFound(r: Report, i: nat, v: Verdict)
    requires Holds(r) && i < |r.rows| && v != r.rows[i].result
    ensures !Holds(r.(rows := r.rows[i := r.rows[i].(result := v)]))
  {
    CountAfterUpdate(r.rows, i, v);
  }

  /** Of the categories of a verified report only their own arithmetic, names, order and sum are checked. */
  lemma CategoriesAreSelfChecked(r: Report, categories: seq<CategoryTally>)
    requires Holds(r)
    ensures Holds(r.(categories := categories)) <==> CategoriesFine(categories, |r.rows|)
  {
  }

  function Whitewashed(c: CategoryTally): CategoryTally {
    c.(tally := Totals(c.tally.total, c.tally.pass + c.tally.fail, 0, c.tally.notTested))
  }

  /** So turning a category's failures into passes goes unnoticed. */
  lemma CategoryCountsAreNotCompared(r: Report, i: nat)
    requires Holds(r) && i < |r.categories| && r.categories[i].tally.fail > 0
    ensures Whitewashed(r.categories[i]) != r.categories[i]
    ensures Holds(r.(categories := r.categories[i := Whitewashed(r.categories[i])]))
  {
    var c := r.categories[i];
    var changed := r.categories[i := Whitewashed(c)];
    SumAfterUpdate(r.categories, i, Whitewashed(c));
    assert c in r.categories;
    assert forall j :: 0 <= j < |changed| ==> changed[j].category == r.categories[j].category;
    forall x | x in changed
      ensures CategoryFine(x)
    {
      assert x == Whitewashed(c) || x in r.categories;
    }
  }

  lemma {:induction false} CountedIn(rows: seq<Row>, row: Row)
    requires row in rows
    ensures CountOf(InCategory(rows, row.category), row.result) > 0
  {
    var before, last := rows[..|rows| - 1], rows[|rows| - 1];
    var c := row.category;
    var kept := InCategory(before, c);
    assert rows == before + [last];
    if last != row { CountedIn(before, row); }
    if last.category == c {
      assert InCategory(rows, c) == kept + [last] && (kept + [last])[..|kept|] == kept;
    } else {
      assert InCategory(rows, c) == kept;
    }
  }

  lemma FailureIsTallied(rows: seq<Row>, row: Row) returns (k: nat)
    requires row in rows && row.result.Fail?
    ensures k < |CategoriesOf(rows)| && Tallies(rows, CategoriesOf(rows))[k].tally.fail > 0
  {
    var i :| 0 <= i < |rows| && rows[i] == row;
    CategoriesAreFound(rows);
    CountedIn(rows, row);
    assert rows[i].category == row.category && row.category in CategoriesOf(rows);
    k :| 0 <= k < |CategoriesOf(rows)| && CategoriesOf(rows)[k] == row.category;
  }

  lemma SortedHasTally(tallies: seq<CategoryTally>, k: nat) returns (i: nat)
    requires k < |tallies|
    ensures i < |Sorted(CategoryBefore, tallies)| && Sorted(CategoryBefore, tallies)[i] == tallies[k]
  {
    OrdersAreOrders();
    SortedIsSorted(CategoryBefore, tallies);
    assert tallies[k] in multiset(tallies);
    i :| 0 <= i < |Sorted(CategoryBefore, tallies)| && Sorted(CategoryBefore, tallies)[i] == tallies[k];
  }

  /** Every assembled report with a failed row has a category to whitewash. */
  lemma FailureHasCategory(inputs: seq<LaneInput>, row: Row) returns (i: nat)
    requires row in Assembled(inputs).rows && row.result.Fail?
    ensures i < |Assembled(inputs).categories| && Assembled(inputs).categories[i].tally.fail > 0
  {
    var rows := Assembled(inputs).rows;
    var k := FailureIsTallied(rows, row);
    i := SortedHasTally(Tallies(rows, CategoriesOf(rows)), k);
  }

  /** Such a report: one lane, one failed test. */
  lemma FailingReport() returns (inputs: seq<LaneInput>, i: nat)
    ensures Holds(Assembled(inputs)) && i < |Assembled(inputs).categories|
    ensures Assembled(inputs).categories[i].tally.fail > 0
  {
    var row := Row("t", "c", "r", Fail, Some("F"), "s");
    inputs := [LaneInput(LaneResult("l", [row], [], false, None), 1)];
    assert forall r :: r in inputs[0].lane.rows ==> r == row;
    AssembledVerifies(inputs);
    assert IsFirst(inputs, 0, 0);
    FirstIsReported(inputs, 0, 0);
    OneLaneReports(inputs, row);
    i := FailureHasCategory(inputs, row);
  }

  lemma CanonicalRow(entries: seq<Entry>, e: Entry) returns (row: Row)
    requires e in Canonical(entries)
    ensures row == e.row && row in RowsIn(Canonical(entries))
  {
    var i :| 0 <= i < |Canonical(entries)| && Canonical(entries)[i] == e;
    row := RowsIn(Canonical(entries))[i];
  }

  lemma OneLaneReports(inputs: seq<LaneInput>, row: Row)
    requires |inputs| == 1 && inputs[0].lane.rows == [row]
    ensures row in Assembled(inputs).rows
  {
    var entry := Entry(row, inputs[0].lane.laneId);
    assert Entries(inputs) == [entry] by {
      assert LaneEntries([row], inputs[0].lane.laneId) == [entry];
      assert inputs[..0] == [];
    }
    assert Of(Entries(inputs), row.testId) == [entry] by {
      assert [entry][..0] == [];
    }
    CanonicalCovers(Entries(inputs), row.testId);
    var _ := CanonicalRow(Entries(inputs), entry);
  }

  lemma {:induction false} SumAfterUpdate(categories: seq<CategoryTally>, i: nat, c: CategoryTally)
    requires i < |categories| && c.tally.total == categories[i].tally.total
    ensures CategorySum(categories[i := c]) == CategorySum(categories)
  {
    var last := |categories| - 1;
    if i < last {
      SumAfterUpdate(categories[..last], i, c);
      assert categories[i := c][..last] == categories[..last][i := c];
    } else {
      assert categories[i := c][..last] == categories[..last];
    }
  }
}
