/**
 * The test suite: loads the class of each test case descriptor in list order,
 * builds the test case object, provisions it and hands it to one test runner.
 * The class loader and the reflective constructor lookup are a `Registry`; the
 * reports and what runs on the test cases go to the runner's `Journal`.
 */
module TestSuite {
  import opened Common
  import opened Events
  import opened Arguments
  import opened Reporting
  import opened TestRunner

  const TEST_CASE_CLASS := "org.splandroid.tr.testing.TRTestCase"

  /**
   * What `getConstructor(String, String, List, ITestArguments, Map)` finds: no
   * such constructor, one the security manager refuses, or a public one, with
   * the exception it throws when invoked, if any.
   */
  datatype ConstructorLookup = NoConstructor | ConstructorDenied | ConstructorFound(failure: Option<Throwable>)

  /** A loadable class: one that does not extend `TRTestCase`, or a test case class. */
  datatype ClassEntry = OtherClass | TestCaseClass(lookup: ConstructorLookup, behaviour: Behaviour)

  /** The classes `Class.forName` can load, by fully qualified name. */
  type Registry = map<string, ClassEntry>

  /** The `InternalTestException`s `runSuite` throws carry no phase. */
  function SuiteError(detail: string): Throwable
  {
    Internal(None, detail)
  }

  function NotFound(k: string): Throwable
  {
    SuiteError("Test class [" + k + "] not found: " + k)
  }

  function NotTestCase(k: string): Throwable
  {
    SuiteError("Test class [" + k + "] does not extend " + TEST_CASE_CLASS + ": class " + k)
  }

  function MissingConstructor(k: string): Throwable
  {
    SuiteError("Expected constructor for class [" + k + "] does not exist")
  }

  function DeniedConstructor(k: string): Throwable
  {
    SuiteError("Constructor for class [" + k + "] does not allow execution")
  }

  function ConstructionFailed(k: string): Throwable
  {
    SuiteError("Could not construct [" + k + "] object ")
  }

  /** A class the suite can turn into a test case object. */
  predicate Loadable(classes: Registry, k: string)
  {
    k in classes && classes[k].TestCaseClass?
    && classes[k].lookup.ConstructorFound? && classes[k].lookup.failure.None?
  }

  /**
   * Loading, constructing and provisioning the test case of one descriptor, or
   * the exception that stops the suite.
   */
  function LoadCase(classes: Registry, d: TestCaseDescriptor, provision: Provision): (r: Result<TestCase, Throwable>)
    ensures r.Ok? <==> Loadable(classes, d.className)
    ensures r.Ok? ==>
      r.value.id == d.id && r.value.description == d.description && r.value.tests == d.tests
      && r.value.setUpInfo == Some(d.setUpInfo) && r.value.environment == d.environment
      && r.value.behaviour == classes[d.className].behaviour && r.value.provision == Some(provision)
    ensures r.Err? ==> r.error.className == INTERNAL_TEST_EXCEPTION
  {
    var k := d.className;
    if k !in classes then Err(NotFound(k))
    else match classes[k]
      case OtherClass => Err(NotTestCase(k))
      case TestCaseClass(lookup, b) =>
        match lookup
        case NoConstructor => Err(MissingConstructor(k))
        case ConstructorDenied => Err(DeniedConstructor(k))
        case ConstructorFound(failure) =>
          if failure.Some? then Err(ConstructionFailed(k))
          else Ok(TestCase(d.id, d.description, d.tests, Some(d.setUpInfo), d.environment, b, Some(provision)))
  }

  /** Every error of the suite names the class and reads, after `getMessage`'s prefix, as one of five sentences. */
  lemma LoadErrors(classes: Registry, d: TestCaseDescriptor, provision: Provision)
    ensures var k := d.className; var r := LoadCase(classes, d, provision);
      (k !in classes ==> r == Err(NotFound(k)))
      && (k in classes && classes[k].OtherClass? ==> r == Err(NotTestCase(k)))
      && (k in classes && classes[k].TestCaseClass? && classes[k].lookup.NoConstructor? ==> r == Err(MissingConstructor(k)))
      && (k in classes && classes[k].TestCaseClass? && classes[k].lookup.ConstructorDenied? ==> r == Err(DeniedConstructor(k)))
      && (k in classes && classes[k].TestCaseClass? && classes[k].lookup.ConstructorFound? && classes[k].lookup.failure.Some?
          ==> r == Err(ConstructionFailed(k)))
  {
  }

  /** `getMessage` of a suite error: "null" for the unset phase, then the detail. */
  lemma SuiteErrorMessage(k: string)
    ensures NotFound(k).message == Some("null phase expection: Test class [" + k + "] not found: " + k)
  {
    var detail := "Test class [" + k + "] not found: " + k;
    assert PhaseName(None) + " phase expection: " == "null phase expection: ";
    Appended("null phase expection: ", "Test class [", k);
    Appended("null phase expection: ", "Test class [" + k, "] not found: ");
    Appended("null phase expection: ", "Test class [" + k + "] not found: ", k);
    assert "null phase expection: " + "Test class [" == "null phase expection: Test class [";
  }

  /** Why the suite stops before its last case: an `InternalTestException`, or what escaped a test runner. */
  datatype SuiteStop = Fault(error: Throwable) | CaseEscape(thr: Throwable)

  /** What the cases run so far wrote, why the suite stopped if it did, and whether all of them passed. */
  datatype CasesRecord = CasesRecord(entries: seq<Entry>, stop: Option<SuiteStop>, passed: bool)

  /** One key-order choice per case that ran; the cases that load get orders that fit them. */
  predicate SuiteFits(classes: Registry, cases: seq<TestCaseDescriptor>, provision: Provision, orders: seq<KeyOrders>)
  {
    |orders| <= |cases|
    && forall j | 0 <= j < |orders| ::
      LoadCase(classes, cases[j], provision).Ok? ==> Fits(LoadCase(classes, cases[j], provision).value, orders[j])
  }

  /** A case that loads and whose runner returns true. */
  predicate CasePasses(classes: Registry, d: TestCaseDescriptor, provision: Provision, order: KeyOrders)
    requires LoadCase(classes, d, provision).Ok? ==> Fits(LoadCase(classes, d, provision).value, order)
  {
    LoadCase(classes, d, provision).Ok? && CaseRun(LoadCase(classes, d, provision).value, order).outcome == Returned(true)
  }

  /** One iteration of `runSuite`. */
  function CaseStep(classes: Registry, d: TestCaseDescriptor, provision: Provision, order: KeyOrders): (r: CasesRecord)
    requires LoadCase(classes, d, provision).Ok? ==> Fits(LoadCase(classes, d, provision).value, order)
    ensures r.stop.None? ==> r.entries != []
    ensures r.stop.None? && r.passed <==> CasePasses(classes, d, provision, order)
  {
    match LoadCase(classes, d, provision)
    case Err(e) => CasesRecord([], Some(Fault(e)), false)
    case Ok(tc) =>
      var run := CaseRun(tc, order);
      CaseStartsOnce(tc, order);
      match run.outcome
      case Threw(thr) => CasesRecord(run.entries, Some(CaseEscape(thr)), false)
      case Returned(passed) => CasesRecord(run.entries, None, passed)
  }

  /** The cases `cases[..|orders|]`, in list order, up to the first that stops the suite. */
  function CasesRan(classes: Registry, cases: seq<TestCaseDescriptor>, provision: Provision, orders: seq<KeyOrders>): (r: CasesRecord)
    requires SuiteFits(classes, cases, provision, orders)
    decreases |orders|
  {
    if orders == [] then CasesRecord([], None, true)
    else
      var n := |orders| - 1;
      assert SuiteFits(classes, cases, provision, orders[..n]);
      var before := CasesRan(classes, cases, provision, orders[..n]);
      if before.stop.Some? then before
      else
        var step := CaseStep(classes, cases[n], provision, orders[n]);
        CasesRecord(before.entries + step.entries, step.stop, before.passed && step.passed)
  }

  /** `orders` covers the cases the suite reached: all of them, or those up to the one that stopped it. */
  predicate Reached(classes: Registry, cases: seq<TestCaseDescriptor>, provision: Provision, orders: seq<KeyOrders>)
  {
    SuiteFits(classes, cases, provision, orders)
    && (|orders| == |cases| || CasesRan(classes, cases, provision, orders).stop.Some?)
  }

  /** `run`: the suite's start, its cases, then its verdict, or the error that stopped it. */
  function SuiteRun(id: string, classes: Registry, cases: seq<TestCaseDescriptor>, provision: Provision, orders: seq<KeyOrders>): CaseRecord
    requires Reached(classes, cases, provision, orders)
  {
    var start := [Call(StartingTestSuite(id))];
    var ran := CasesRan(classes, cases, provision, orders);
    match ran.stop
    case None => CaseRecord(start + ran.entries + [Call(if ran.passed then PassedTestSuite(id) else FailedTestSuite(id))], Returned(ran.passed))
    case Some(Fault(e)) => CaseRecord(start + ran.entries + [Call(ErrorTestSuite(id, e))], Returned(false))
    case Some(CaseEscape(thr)) => CaseRecord(start + ran.entries, Threw(thr))
  }

  /** One more case, seen from the cases run before it. */
  lemma CasesSnoc(classes: Registry, cases: seq<TestCaseDescriptor>, provision: Provision, orders: seq<KeyOrders>, order: KeyOrders)
    requires SuiteFits(classes, cases, provision, orders) && |orders| < |cases|
    requires LoadCase(classes, cases[|orders|], provision).Ok? ==> Fits(LoadCase(classes, cases[|orders|], provision).value, order)
    ensures SuiteFits(classes, cases, provision, orders + [order])
    ensures var before := CasesRan(classes, cases, provision, orders);
      CasesRan(classes, cases, provision, orders + [order])
        == if before.stop.Some? then before
           else var step := CaseStep(classes, cases[|orders|], provision, order);
             CasesRecord(before.entries + step.entries, step.stop, before.passed && step.passed)
  {
    assert (orders + [order])[..|orders|] == orders;
  }

  // ---------------------------------------------------------------------------
  // What the suite promises.

  /** The ids of the cases that started, in order. */
  function StartedCases(es: seq<Entry>): seq<string>
  {
    if es == [] then []
    else if es[0].Call? && es[0].call.StartingTestCase? then [es[0].call.caseId] + StartedCases(es[1..])
    else StartedCases(es[1..])
  }

  predicate IsSuiteEnd(e: Entry, id: string)
  {
    e.Call? && (e.call == PassedTestSuite(id) || e.call == FailedTestSuite(id) || (e.call.ErrorTestSuite? && e.call.suiteId == id))
  }

  function SuiteEnds(es: seq<Entry>, id: string): nat
  {
    if es == [] then 0 else (if IsSuiteEnd(es[0], id) then 1 else 0) + SuiteEnds(es[1..], id)
  }

  /** The ids of the first `n` cases: the suite-level counterpart of `TestRunner.TestIds`, over case descriptors. */
  function CaseIds(cases: seq<TestCaseDescriptor>, n: nat): (ids: seq<string>)
    requires n <= |cases|
    ensures |ids| == n && forall i | 0 <= i < n :: ids[i] == cases[i].id
  {
    seq(n, i requires 0 <= i < n => cases[i].id)
  }

  lemma CaseIdsSnoc(cases: seq<TestCaseDescriptor>, n: nat)
    requires n < |cases|
    ensures CaseIds(cases, n) + [cases[n].id] == CaseIds(cases, n + 1)
  {
  }

  lemma {:induction false} StartedCasesAppend(a: seq<Entry>, b: seq<Entry>)
    ensures StartedCases(a + b) == StartedCases(a) + StartedCases(b)
    decreases |a|
  {
    if a != [] {
      assert (a + b)[1..] == a[1..] + b;
      StartedCasesAppend(a[1..], b);
    } else {
      assert a + b == b;
    }
  }

  lemma {:induction false} SuiteEndsAppend(a: seq<Entry>, b: seq<Entry>, id: string)
    ensures SuiteEnds(a + b, id) == SuiteEnds(a, id) + SuiteEnds(b, id)
    decreases |a|
  {
    if a != [] {
      assert (a + b)[1..] == a[1..] + b;
      SuiteEndsAppend(a[1..], b, id);
    } else {
      assert a + b == b;
    }
  }

  /** Inside a case no other case starts and nothing ends a suite. */
  lemma {:induction false} CaseBodySilent(es: seq<Entry>, id: string)
    requires CaseBody(es)
    ensures StartedCases(es) == [] && SuiteEnds(es, id) == 0
    decreases |es|
  {
    if es != [] {
      assert CaseBody(es[1..]) by {
        forall i | 0 <= i < |es| - 1 ensures InCase(es[1..][i]) { assert es[1..][i] == es[i + 1]; }
      }
      CaseBodySilent(es[1..], id);
    }
  }

  /** A case that runs writes the start of that case, and no suite end. */
  lemma CaseStepReports(classes: Registry, d: TestCaseDescriptor, provision: Provision, order: KeyOrders, id: string)
    requires LoadCase(classes, d, provision).Ok? ==> Fits(LoadCase(classes, d, provision).value, order)
    ensures var step := CaseStep(classes, d, provision, order);
      StartedCases(step.entries) == (if LoadCase(classes, d, provision).Ok? then [d.id] else [])
      && SuiteEnds(step.entries, id) == 0
      && (step.stop.Some? && step.stop.value.Fault? <==> !Loadable(classes, d.className))
  {
    var loaded := LoadCase(classes, d, provision);
    if loaded.Ok? {
      var tc := loaded.value;
      var es := CaseRun(tc, order).entries;
      CaseStartsOnce(tc, order);
      assert es == [es[0]] + es[1..];
      CaseBodySilent(es[1..], id);
      StartedCasesAppend([es[0]], es[1..]);
      SuiteEndsAppend([es[0]], es[1..], id);
    }
  }

  /**
   * The cases start in list order, each once, up to the one that stops the
   * suite; with no stop every case started. No case writes a suite end.
   */
  lemma {:induction false} CasesInListOrder(classes: Registry, cases: seq<TestCaseDescriptor>, provision: Provision, orders: seq<KeyOrders>, id: string)
    requires SuiteFits(classes, cases, provision, orders)
    ensures var r := CasesRan(classes, cases, provision, orders); var ids := StartedCases(r.entries);
      |ids| <= |orders| && ids == CaseIds(cases, |ids|)
      && (r.stop.None? ==> |ids| == |orders|)
      && (r.stop.Some? && r.stop.value.Fault? ==> |ids| < |orders| && !Loadable(classes, cases[|ids|].className))
      && SuiteEnds(r.entries, id) == 0
    decreases |orders|
  {
    if orders != [] {
      var n := |orders| - 1;
      assert SuiteFits(classes, cases, provision, orders[..n]);
      CasesInListOrder(classes, cases, provision, orders[..n], id);
      var before := CasesRan(classes, cases, provision, orders[..n]);
      CasesRanSnoc(classes, cases, provision, orders);
      if before.stop.None? {
        var step := CaseStep(classes, cases[n], provision, orders[n]);
        CaseStepReports(classes, cases[n], provision, orders[n], id);
        StartedCasesAppend(before.entries, step.entries);
        SuiteEndsAppend(before.entries, step.entries, id);
        CaseIdsSnoc(cases, n);
        var ids := StartedCases(before.entries + step.entries);
        if Loadable(classes, cases[n].className) {
          assert ids == CaseIds(cases, n + 1);
        } else {
          assert ids == CaseIds(cases, n);
        }
      }
    }
  }

  /** The cases run so far, after one more case. */
  lemma CasesRanSnoc(classes: Registry, cases: seq<TestCaseDescriptor>, provision: Provision, orders: seq<KeyOrders>)
    requires SuiteFits(classes, cases, provision, orders) && orders != []
    ensures var n := |orders| - 1;
      SuiteFits(classes, cases, provision, orders[..n])
      && var before := CasesRan(classes, cases, provision, orders[..n]);
      CasesRan(classes, cases, provision, orders)
        == if before.stop.Some? then before
           else var step := CaseStep(classes, cases[n], provision, orders[n]);
             CasesRecord(before.entries + step.entries, step.stop, before.passed && step.passed)
  {
    var n := |orders| - 1;
    assert SuiteFits(classes, cases, provision, orders[..n]);
  }

  /** The cases pass together exactly when every case loads and its runner returns true. */
  lemma {:induction false} CasesPassIff(classes: Registry, cases: seq<TestCaseDescriptor>, provision: Provision, orders: seq<KeyOrders>)
    requires SuiteFits(classes, cases, provision, orders)
    ensures var r := CasesRan(classes, cases, provision, orders);
      r.stop.None? && r.passed <==> forall j | 0 <= j < |orders| :: CasePasses(classes, cases[j], provision, orders[j])
    decreases |orders|
  {
    if orders != [] {
      var n := |orders| - 1;
      var prefix := orders[..n];
      assert SuiteFits(classes, cases, provision, prefix);
      CasesPassIff(classes, cases, provision, prefix);
      CasesPassedSnoc(classes, cases, provision, orders);
      var r := CasesRan(classes, cases, provision, orders);
      if r.stop.None? && r.passed {
        forall j | 0 <= j < |orders|
          ensures CasePasses(classes, cases[j], provision, orders[j])
        {
          if j < n {
            assert prefix[j] == orders[j];
            assert CasePasses(classes, cases[j], provision, prefix[j]);
          } else {
            assert j == n;
          }
        }
      } else if CasePasses(classes, cases[n], provision, orders[n]) {
        var j :| 0 <= j < n && !CasePasses(classes, cases[j], provision, prefix[j]);
        assert prefix[j] == orders[j];
      }
    }
  }

  /** Whether the cases so far all passed, after one more case. */
  lemma CasesPassedSnoc(classes: Registry, cases: seq<TestCaseDescriptor>, provision: Provision, orders: seq<KeyOrders>)
    requires SuiteFits(classes, cases, provision, orders) && orders != []
    ensures var n := |orders| - 1;
      SuiteFits(classes, cases, provision, orders[..n])
      && var r := CasesRan(classes, cases, provision, orders); var before := CasesRan(classes, cases, provision, orders[..n]);
      (r.stop.None? && r.passed) == (before.stop.None? && before.passed && CasePasses(classes, cases[n], provision, orders[n]))
  {
    var n := |orders| - 1;
    assert SuiteFits(classes, cases, provision, orders[..n]);
  }

  /**
   * The suite reports its start first; when `run` returns it reports exactly
   * one end, last: passed when it returns true, the error that stopped it, or
   * failed. When an exception leaves a runner, no suite end is reported.
   */
  lemma SuiteReportedOnce(id: string, classes: Registry, cases: seq<TestCaseDescriptor>, provision: Provision, orders: seq<KeyOrders>)
    requires Reached(classes, cases, provision, orders)
    ensures var r := SuiteRun(id, classes, cases, provision, orders); var ran := CasesRan(classes, cases, provision, orders);
      |r.entries| >= 1 && r.entries[0] == Call(StartingTestSuite(id))
      && SuiteEnds(r.entries, id) == (if r.outcome.Returned? then 1 else 0)
      && (r.outcome.Returned? ==>
            r.entries[|r.entries| - 1] == Call(if r.outcome.passed then PassedTestSuite(id)
              else if ran.stop.Some? then ErrorTestSuite(id, ran.stop.value.error) else FailedTestSuite(id)))
  {
    var start := [Call(StartingTestSuite(id))];
    var ran := CasesRan(classes, cases, provision, orders);
    CasesInListOrder(classes, cases, provision, orders, id);
    SuiteEndsAppend(start, ran.entries, id);
    assert SuiteEnds(start, id) == 0 by { assert start[1..] == []; }
    if ran.stop.None? || ran.stop.value.Fault? {
      var last := if ran.stop.None? then Call(if ran.passed then PassedTestSuite(id) else FailedTestSuite(id))
        else Call(ErrorTestSuite(id, ran.stop.value.error));
      SuiteEndsAppend(start + ran.entries, [last], id);
      assert [last][1..] == [];
    }
  }

  /** The suite passes exactly when every case loads and every runner returns true. */
  lemma SuitePassIff(id: string, classes: Registry, cases: seq<TestCaseDescriptor>, provision: Provision, orders: seq<KeyOrders>)
    requires Reached(classes, cases, provision, orders)
    ensures SuiteRun(id, classes, cases, provision, orders).outcome == Returned(true) <==>
      |orders| == |cases| && forall j | 0 <= j < |cases| :: CasePasses(classes, cases[j], provision, orders[j])
  {
    CasesPassIff(classes, cases, provision, orders);
  }

  /** A class that cannot be loaded ends the suite with that error, after the cases before it have run. */
  lemma FaultStopsSuite(id: string, classes: Registry, cases: seq<TestCaseDescriptor>, provision: Provision, orders: seq<KeyOrders>)
    requires Reached(classes, cases, provision, orders)
    requires CasesRan(classes, cases, provision, orders).stop.Some?
    requires CasesRan(classes, cases, provision, orders).stop.value.Fault?
    ensures var r := SuiteRun(id, classes, cases, provision, orders); var ids := StartedCases(r.entries);
      r.outcome == Returned(false) && |ids| < |cases| && ids == CaseIds(cases, |ids|)
      && !Loadable(classes, cases[|ids|].className)
      && LoadCase(classes, cases[|ids|], provision) == Err(CasesRan(classes, cases, provision, orders).stop.value.error)
  {
    var start := [Call(StartingTestSuite(id))];
    var ran := CasesRan(classes, cases, provision, orders);
    CasesInListOrder(classes, cases, provision, orders, id);
    FaultAt(classes, cases, provision, orders);
    var last := Call(ErrorTestSuite(id, ran.stop.value.error));
    StartedCasesAppend(start, ran.entries);
    StartedCasesAppend(start + ran.entries, [last]);
    assert StartedCases(start) == [] by { assert start[1..] == []; }
    assert StartedCases([last]) == [] by { assert [last][1..] == []; }
  }

  /** The fault is the load error of the first case that did not start. */
  lemma {:induction false} FaultAt(classes: Registry, cases: seq<TestCaseDescriptor>, provision: Provision, orders: seq<KeyOrders>)
    requires SuiteFits(classes, cases, provision, orders)
    requires CasesRan(classes, cases, provision, orders).stop.Some?
    requires CasesRan(classes, cases, provision, orders).stop.value.Fault?
    ensures var r := CasesRan(classes, cases, provision, orders); var k := |StartedCases(r.entries)|;
      k < |orders| && LoadCase(classes, cases[k], provision) == Err(r.stop.value.error)
    decreases |orders|
  {
    var n := |orders| - 1;
    assert SuiteFits(classes, cases, provision, orders[..n]);
    var before := CasesRan(classes, cases, provision, orders[..n]);
    CasesInListOrder(classes, cases, provision, orders[..n], "");
    if before.stop.Some? {
      FaultAt(classes, cases, provision, orders[..n]);
    } else {
      var step := CaseStep(classes, cases[n], provision, orders[n]);
      CaseStepReports(classes, cases[n], provision, orders[n], "");
      StartedCasesAppend(before.entries, step.entries);
    }
  }

  /** `TRTestSuite`. */
  class TestSuite {
    const id: string
    const testCases: seq<TestCaseDescriptor>
    const classes: Registry
    const provision: Provision
    const journal: Journal

    constructor(id: string, testCases: seq<TestCaseDescriptor>, classes: Registry, provision: Provision, journal: Journal)
      ensures this.id == id && this.testCases == testCases && this.classes == classes
      ensures this.provision == provision && this.journal == journal
    {
      this.id := id;
      this.testCases := testCases;
      this.classes := classes;
      this.provision := provision;
      this.journal := journal;
    }

    /** `runSuite`: every case through one runner, in list order, until one stops the suite. */
    method RunSuite() returns (stop: Option<SuiteStop>, allPassed: bool, ghost orders: seq<KeyOrders>)
      modifies journal
      ensures Reached(classes, testCases, provision, orders)
      ensures var ran := CasesRan(classes, testCases, provision, orders);
        journal.entries == old(journal.entries) + ran.entries && stop == ran.stop
        && (stop.None? ==> allPassed == ran.passed)
    {
      var runner := new TestRunner(journal);
      allPassed := true;
      orders := [];
      var i := 0;
      while i < |testCases|
        invariant 0 <= i <= |testCases| && |orders| == i
        invariant SuiteFits(classes, testCases, provision, orders)
        invariant CasesRan(classes, testCases, provision, orders).stop.None?
        invariant allPassed == CasesRan(classes, testCases, provision, orders).passed
        invariant journal.entries == old(journal.entries) + CasesRan(classes, testCases, provision, orders).entries
        invariant runner.journal == journal
      {
        ghost var before := CasesRan(classes, testCases, provision, orders).entries;
        var loaded := LoadCase(classes, testCases[i], provision);
        if loaded.Err? {
          CasesSnoc(classes, testCases, provision, orders, KeyOrders([], []));
          orders := orders + [KeyOrders([], [])];
          return Some(Fault(loaded.error)), false, orders;
        }
        runner.SetTestCase(loaded.value);
        var outcome;
        ghost var order;
        outcome, order := runner.Run();
        Appended(old(journal.entries), before, CaseRun(loaded.value, order).entries);
        CasesSnoc(classes, testCases, provision, orders, order);
        orders := orders + [order];
        if outcome.Threw? {
          return Some(CaseEscape(outcome.thr)), false, orders;
        }
        if !outcome.passed {
          allPassed := false;
        }
        i := i + 1;
      }
      stop := None;
    }

    /** `run`: the suite's start, its cases, and its end; an `InternalTestException` becomes the suite's error. */
    method Run() returns (outcome: RunOutcome, ghost orders: seq<KeyOrders>)
      modifies journal
      ensures Reached(classes, testCases, provision, orders)
      ensures journal.entries == old(journal.entries) + SuiteRun(id, classes, testCases, provision, orders).entries
      ensures outcome == SuiteRun(id, classes, testCases, provision, orders).outcome
    {
      var start := Call(StartingTestSuite(id));
      journal.Record(start);
      var stop, allPassed;
      stop, allPassed, orders := RunSuite();
      ghost var ran := CasesRan(classes, testCases, provision, orders).entries;
      match stop
      case None =>
        var end := Call(if allPassed then PassedTestSuite(id) else FailedTestSuite(id));
        journal.Record(end);
        Appended(old(journal.entries), [start], ran);
        Appended(old(journal.entries), [start] + ran, [end]);
        outcome := Returned(allPassed);
      case Some(Fault(e)) =>
        var end := Call(ErrorTestSuite(id, e));
        journal.Record(end);
        Appended(old(journal.entries), [start], ran);
        Appended(old(journal.entries), [start] + ran, [end]);
        outcome := Returned(false);
      case Some(CaseEscape(thr)) =>
        Appended(old(journal.entries), [start], ran);
        outcome := Threw(thr);
    }
  }
}
