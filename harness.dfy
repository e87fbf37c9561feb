/**
 * The harness's own part of a suite run: narrowing the parsed test cases to
 * the ones a suite specification includes or does not exclude, setting the
 * suite up, running it, and reporting the component's result. The parse of the
 * profile and tests documents arrives as its result, a list of test case
 * descriptors or the exception that stopped it.
 */
module Harness {
  import opened Common
  import opened Events
  import opened Arguments
  import opened Reporting
  import opened CommandLine
  import opened TestRunner
  import opened TestSuite

  /** The list of test case descriptors the parser fills and the harness narrows in place. */
  class CaseList {
    var items: seq<TestCaseDescriptor>

    constructor(items: seq<TestCaseDescriptor>)
      ensures this.items == items
    {
      this.items := items;
    }
  }

  /** The two comparators of `removeTestCases`: a case is removed when its comparison is 0. */
  datatype Comparator = IncludeComparator | ExcludeComparator

  /** Whether a comparator's comparison is 0 for case id `id`. */
  predicate Removes(comparator: Comparator, id: string, ids: set<string>)
  {
    match comparator
    case IncludeComparator => id !in ids
    case ExcludeComparator => id in ids
  }

  /** The includes comparator: how many of the ids equal the case's id. */
  method IncludeCompare(id: string, ids: set<string>) returns (comparison: nat)
    ensures comparison == (if id in ids then 1 else 0)
  {
    comparison := 0;
    var remaining := ids;
    while remaining != {}
      invariant remaining <= ids
      invariant comparison == (if id in ids && id !in remaining then 1 else 0)
      decreases remaining
    {
      var testCaseId :| testCaseId in remaining;
      comparison := comparison + if id == testCaseId then 1 else 0;
      remaining := remaining - {testCaseId};
    }
  }

  /** The excludes comparator: 0 as soon as one of the ids equals the case's id, otherwise 1. */
  method ExcludeCompare(id: string, ids: set<string>) returns (comparison: nat)
    ensures comparison == (if id in ids then 0 else 1)
  {
    var remaining := ids;
    while remaining != {}
      invariant remaining <= ids
      invariant id in ids ==> id in remaining
      decreases remaining
    {
      var testCaseId :| testCaseId in remaining;
      if id == testCaseId {
        return 0;
      }
      remaining := remaining - {testCaseId};
    }
    return 1;
  }

  method Compare(comparator: Comparator, id: string, ids: set<string>) returns (comparison: nat)
    ensures comparison == 0 <==> Removes(comparator, id, ids)
  {
    match comparator
    case IncludeComparator => comparison := IncludeCompare(id, ids);
    case ExcludeComparator => comparison := ExcludeCompare(id, ids);
  }

  /** The cases of `items` the comparator keeps, in their order. */
  function Kept(items: seq<TestCaseDescriptor>, ids: set<string>, comparator: Comparator): seq<TestCaseDescriptor>
  {
    if items == [] then []
    else
      var n := |items| - 1;
      Kept(items[..n], ids, comparator) + (if Removes(comparator, items[n].id, ids) then [] else [items[n]])
  }

  /** A case is kept exactly when it is in the list and the comparator does not remove it. */
  lemma {:induction false} KeptMembers(items: seq<TestCaseDescriptor>, ids: set<string>, comparator: Comparator, d: TestCaseDescriptor)
    ensures d in Kept(items, ids, comparator) <==> d in items && !Removes(comparator, d.id, ids)
    decreases |items|
  {
    if items != [] {
      var n := |items| - 1;
      KeptMembers(items[..n], ids, comparator, d);
      assert items == items[..n] + [items[n]];
    }
  }

  /** Keeping distributes over concatenation: the kept cases keep their relative order. */
  lemma {:induction false} KeptAppend(a: seq<TestCaseDescriptor>, b: seq<TestCaseDescriptor>, ids: set<string>, comparator: Comparator)
    ensures Kept(a + b, ids, comparator) == Kept(a, ids, comparator) + Kept(b, ids, comparator)
    decreases |b|
  {
    if b == [] {
      assert a + b == a;
    } else {
      var n := |b| - 1;
      assert (a + b)[..|a + b| - 1] == a + b[..n];
      KeptAppend(a, b[..n], ids, comparator);
    }
  }

  /** Nothing is kept twice and nothing is invented: the kept cases are a sub-multiset of the list. */
  lemma {:induction false} KeptShrinks(items: seq<TestCaseDescriptor>, ids: set<string>, comparator: Comparator)
    ensures multiset(Kept(items, ids, comparator)) <= multiset(items)
    decreases |items|
  {
    if items != [] {
      var n := |items| - 1;
      KeptShrinks(items[..n], ids, comparator);
      assert items == items[..n] + [items[n]];
    }
  }

  /** `removeTestCaseDescriptors`: walks the list with an iterator and removes each case the comparator matches. */
  method RemoveTestCaseDescriptors(list: CaseList, ids: set<string>, comparator: Comparator)
    modifies list
    ensures list.items == Kept(old(list.items), ids, comparator)
  {
    ghost var original := list.items;
    var i := 0;
    ghost var visited := 0;
    while i < |list.items|
      invariant 0 <= i <= |list.items| && 0 <= visited <= |original|
      invariant list.items[..i] == Kept(original[..visited], ids, comparator)
      invariant list.items[i..] == original[visited..]
      decreases |list.items| - i
    {
      var testCase := list.items[i];
      assert testCase == original[visited];
      assert original[..visited + 1][..visited] == original[..visited];
      var comparison := Compare(comparator, testCase.id, ids);
      if comparison == 0 {
        list.items := list.items[..i] + list.items[i + 1..];
      } else {
        i := i + 1;
      }
      visited := visited + 1;
    }
    assert original[..visited] == original;
  }

  /** What `removeTestCases` leaves of `items` for a suite specification. */
  function Selected(suite: TestSuiteInfo, items: seq<TestCaseDescriptor>): seq<TestCaseDescriptor>
  {
    var included := if |suite.includes| > 0 then Kept(items, suite.includes, IncludeComparator) else items;
    if |suite.excludes| > 0 then Kept(included, suite.excludes, ExcludeComparator) else included
  }

  /** `removeTestCases`: the includes, then the excludes, each only when its set is non-empty. */
  method RemoveTestCases(suite: TestSuiteInfo, list: CaseList)
    requires |suite.includes| > 0 ==> |suite.excludes| == 0
    requires |suite.excludes| > 0 ==> |suite.includes| == 0
    modifies list
    ensures list.items == Selected(suite, old(list.items))
  {
    if |suite.includes| > 0 {
      RemoveTestCaseDescriptors(list, suite.includes, IncludeComparator);
    }
    if |suite.excludes| > 0 {
      RemoveTestCaseDescriptors(list, suite.excludes, ExcludeComparator);
    }
  }

  /** With includes, exactly the listed cases whose ids are included remain. */
  lemma IncludesSelect(suite: TestSuiteInfo, items: seq<TestCaseDescriptor>, d: TestCaseDescriptor)
    requires |suite.includes| > 0 && |suite.excludes| == 0
    ensures d in Selected(suite, items) <==> d in items && d.id in suite.includes
  {
    KeptMembers(items, suite.includes, IncludeComparator, d);
  }

  /** With excludes, exactly the listed cases whose ids are not excluded remain. */
  lemma ExcludesSelect(suite: TestSuiteInfo, items: seq<TestCaseDescriptor>, d: TestCaseDescriptor)
    requires |suite.excludes| > 0 && |suite.includes| == 0
    ensures d in Selected(suite, items) <==> d in items && d.id !in suite.excludes
  {
    KeptMembers(items, suite.excludes, ExcludeComparator, d);
  }

  /** With neither, the list is left as it is. */
  lemma NothingSelectedOut(suite: TestSuiteInfo, items: seq<TestCaseDescriptor>)
    requires suite.includes == {} && suite.excludes == {}
    ensures Selected(suite, items) == items
  {
  }

  /** Selection keeps the relative order of the cases. */
  lemma SelectedInOrder(suite: TestSuiteInfo, a: seq<TestCaseDescriptor>, b: seq<TestCaseDescriptor>)
    ensures Selected(suite, a + b) == Selected(suite, a) + Selected(suite, b)
  {
    KeptAppend(a, b, suite.includes, IncludeComparator);
    var included := if |suite.includes| > 0 then Kept(a, suite.includes, IncludeComparator) else a;
    var includedB := if |suite.includes| > 0 then Kept(b, suite.includes, IncludeComparator) else b;
    KeptAppend(included, includedB, suite.excludes, ExcludeComparator);
  }

  /** A suite specification read from the command line never has both sets non-empty. */
  lemma SpecifiedSuitesSelect(spec: string)
    requires SuiteOf(spec).Ok?
    ensures |SuiteOf(spec).value.includes| > 0 ==> |SuiteOf(spec).value.excludes| == 0
    ensures |SuiteOf(spec).value.excludes| > 0 ==> |SuiteOf(spec).value.includes| == 0
  {
  }

  /**
   * `setUpAndRunTestSuite` for the component `component`: the set-up's start,
   * then its error and the result false, or its end and the suite's run over
   * the selected cases.
   */
  function SetUpAndRun(component: string, suite: TestSuiteInfo, parsed: Result<seq<TestCaseDescriptor>, Throwable>,
                       classes: Registry, provision: Provision, orders: seq<KeyOrders>): CaseRecord
    requires parsed.Ok? ==> Reached(classes, Selected(suite, parsed.value), provision, orders)
  {
    var start := Call(StartingTestSuiteSetUp(component));
    match parsed
    case Err(ex) => CaseRecord([start, Call(ErrorTestSuiteSetUp(component, ex))], Returned(false))
    case Ok(cases) =>
      var run := SuiteRun(component, classes, Selected(suite, cases), provision, orders);
      CaseRecord([start, Call(FinishedTestSuiteSetUp(component))] + run.entries, run.outcome)
  }

  /** One component of `main`'s loop: its start, its suite, then passed or failed. */
  function ComponentRun(component: string, suite: TestSuiteInfo, parsed: Result<seq<TestCaseDescriptor>, Throwable>,
                        classes: Registry, provision: Provision, orders: seq<KeyOrders>): CaseRecord
    requires parsed.Ok? ==> Reached(classes, Selected(suite, parsed.value), provision, orders)
  {
    var run := SetUpAndRun(component, suite, parsed, classes, provision, orders);
    match run.outcome
    case Threw(thr) => CaseRecord([Call(StartingComponent)] + run.entries, run.outcome)
    case Returned(passed) =>
      CaseRecord([Call(StartingComponent)] + run.entries + [Call(if passed then PassedComponent else FailedComponent)], run.outcome)
  }

  /** A failed set-up reports its error, runs no suite, and fails the component. */
  lemma SetUpFailureFailsComponent(component: string, suite: TestSuiteInfo, ex: Throwable,
                                   classes: Registry, provision: Provision, orders: seq<KeyOrders>)
    ensures var r := ComponentRun(component, suite, Err(ex), classes, provision, orders);
      r.outcome == Returned(false)
      && r.entries == [Call(StartingComponent), Call(StartingTestSuiteSetUp(component)),
                       Call(ErrorTestSuiteSetUp(component, ex)), Call(FailedComponent)]
      && forall i | 0 <= i < |r.entries| :: !(r.entries[i].Call? && r.entries[i].call.StartingTestSuite?)
  {
  }

  /** The component passes exactly when its set-up succeeds and its suite passes. */
  lemma ComponentPassIff(component: string, suite: TestSuiteInfo, parsed: Result<seq<TestCaseDescriptor>, Throwable>,
                         classes: Registry, provision: Provision, orders: seq<KeyOrders>)
    requires parsed.Ok? ==> Reached(classes, Selected(suite, parsed.value), provision, orders)
    ensures var r := ComponentRun(component, suite, parsed, classes, provision, orders);
      (r.outcome == Returned(true) <==>
        parsed.Ok? && SuiteRun(component, classes, Selected(suite, parsed.value), provision, orders).outcome == Returned(true))
      && (r.outcome.Returned? ==> r.entries[|r.entries| - 1] == Call(if r.outcome.passed then PassedComponent else FailedComponent))
  {
  }

  /** `setUpAndRunTestSuite`, given the parse's result. */
  method SetUpAndRunTestSuite(component: string, suite: TestSuiteInfo, parsed: Result<seq<TestCaseDescriptor>, Throwable>,
                              classes: Registry, provision: Provision, journal: Journal)
    returns (outcome: RunOutcome, ghost orders: seq<KeyOrders>)
    requires |suite.includes| > 0 ==> |suite.excludes| == 0
    requires |suite.excludes| > 0 ==> |suite.includes| == 0
    modifies journal
    ensures parsed.Ok? ==> Reached(classes, Selected(suite, parsed.value), provision, orders)
    ensures journal.entries == old(journal.entries) + SetUpAndRun(component, suite, parsed, classes, provision, orders).entries
    ensures outcome == SetUpAndRun(component, suite, parsed, classes, provision, orders).outcome
  {
    var start := Call(StartingTestSuiteSetUp(component));
    journal.Record(start);
    if parsed.Err? {
      journal.Record(Call(ErrorTestSuiteSetUp(component, parsed.error)));
      return Returned(false), [];
    }
    var testCases := new CaseList(parsed.value);
    RemoveTestCases(suite, testCases);
    var finished := Call(FinishedTestSuiteSetUp(component));
    journal.Record(finished);
    var testSuite := new TestSuite(component, testCases.items, classes, provision, journal);
    outcome, orders := testSuite.Run();
    AppendedTwo(old(journal.entries), [], start, finished);
    Appended(old(journal.entries), [start, finished], SuiteRun(component, classes, testCases.items, provision, orders).entries);
  }

  /** One iteration of `main`'s loop over the suites, from the component's start to its result. */
  method RunComponent(component: string, suite: TestSuiteInfo, parsed: Result<seq<TestCaseDescriptor>, Throwable>,
                      classes: Registry, provision: Provision, journal: Journal)
    returns (outcome: RunOutcome, ghost orders: seq<KeyOrders>)
    requires |suite.includes| > 0 ==> |suite.excludes| == 0
    requires |suite.excludes| > 0 ==> |suite.includes| == 0
    modifies journal
    ensures parsed.Ok? ==> Reached(classes, Selected(suite, parsed.value), provision, orders)
    ensures journal.entries == old(journal.entries) + ComponentRun(component, suite, parsed, classes, provision, orders).entries
    ensures outcome == ComponentRun(component, suite, parsed, classes, provision, orders).outcome
  {
    journal.Record(Call(StartingComponent));
    outcome, orders := SetUpAndRunTestSuite(component, suite, parsed, classes, provision, journal);
    ghost var run := SetUpAndRun(component, suite, parsed, classes, provision, orders).entries;
    Appended(old(journal.entries), [Call(StartingComponent)], run);
    if outcome.Threw? {
      return;
    }
    var end := Call(if outcome.passed then PassedComponent else FailedComponent);
    journal.Record(end);
    Appended(old(journal.entries), [Call(StartingComponent)] + run, [end]);
  }
}
