/**
 * The test runner: one test case through its phases, set up, pre-execute
 * set-up, execution and testing, with tear down in a `finally`. The test
 * case's class is a `Behaviour` value standing for what reflection finds and
 * what its methods do; the reporting calls and what runs on the test case are
 * written, in order, to one `Journal`.
 */
module TestRunner {
  import opened Common
  import opened Events
  import opened Arguments
  import opened Reporting

  const SETTER_PREFIX := "set"
  const TEST_METHOD_PREFIX := "test"

  const INTERNAL_TEST_EXCEPTION := "org.splandroid.tr.testing.InternalTestException"
  const NO_SUCH_METHOD_EXCEPTION := "java.lang.NoSuchMethodException"
  const ILLEGAL_ACCESS_EXCEPTION := "java.lang.IllegalAccessException"
  const INVOCATION_TARGET_EXCEPTION := "java.lang.reflect.InvocationTargetException"
  const INDEX_EXCEPTION := "java.lang.StringIndexOutOfBoundsException"
  /** The JDK's message for `substring(0, 1)` of an empty string. */
  const INDEX_MESSAGE := "String index out of range: 1"

  /** `TRTestPhase`, with the names its `toString` gives. */
  datatype Phase = SetUpPhase | PreExecSetUpPhase | ExecutionPhase | TestingPhase | TearDownPhase

  function PhaseName(p: Option<Phase>): string
  {
    match p
    case None => "null"
    case Some(SetUpPhase) => "Set up"
    case Some(PreExecSetUpPhase) => "Pre-execute Setup"
    case Some(ExecutionPhase) => "Execution"
    case Some(TestingPhase) => "Testing"
    case Some(TearDownPhase) => "Tear down"
  }

  /** `Throwable.toString`: the class name, then the message when there is one. */
  function Describe(t: Throwable): string
  {
    if t.message.Some? then t.className + ": " + t.message.value else t.className
  }

  /** An `InternalTestException` as its overridden `getMessage` shows it: the phase, then the detail. */
  function Internal(phase: Option<Phase>, detail: string): Throwable
  {
    Throwable(INTERNAL_TEST_EXCEPTION, Some(PhaseName(phase) + " phase expection: " + detail))
  }

  /** The exception of `substring(0, 1)` on an empty name. */
  function IndexError(): Throwable
  {
    Throwable(INDEX_EXCEPTION, Some(INDEX_MESSAGE))
  }

  /** `getMethod`'s exception for a method that does not exist: class, name and parameter classes. */
  function NoSuchMethod(className: string, name: string, parameter: Option<string>): Throwable
  {
    Throwable(NO_SUCH_METHOD_EXCEPTION, Some(className + "." + name + "(" + (if parameter.Some? then parameter.value else "") + ")"))
  }

  /** The reflective call's wrapper of whatever the invoked method threw; it has no message. */
  function InvocationFailure(): Throwable
  {
    Throwable(INVOCATION_TARGET_EXCEPTION, None)
  }

  /** `Character.toUpperCase` on the ASCII letters. */
  function UpperCase(c: char): char
  {
    if 'a' <= c <= 'z' then (c as int - 32) as char else c
  }

  /** `prefix` + the name with its first letter upper-cased; `None` for an empty name, where `substring` throws. */
  function Accessor(prefix: string, name: string): (r: Option<string>)
    ensures r.Some? <==> |name| > 0
    ensures r.Some? ==>
      |r.value| == |prefix| + |name| && r.value[..|prefix|] == prefix
      && r.value[|prefix|] == UpperCase(name[0]) && r.value[|prefix| + 1..] == name[1..]
  {
    if |name| == 0 then None else Some(prefix + [UpperCase(name[0])] + name[1..])
  }

  /** `getSetterMethodName`. */
  function SetterName(argName: string): Option<string>
  {
    Accessor(SETTER_PREFIX, argName)
  }

  /** The test method of a test id. */
  function TestMethodName(testId: string): Option<string>
  {
    Accessor(TEST_METHOD_PREFIX, testId)
  }

  /** Names that differ only in the case of their first letter share a setter. */
  lemma SetterNameIgnoresInitialCase()
    ensures SetterName("timeout") == SetterName("Timeout") == Some("setTimeout")
  {
    assert "timeout"[0] == 't' && "Timeout"[0] == 'T' && UpperCase('t') == 'T';
    assert "timeout"[1..] == "Timeout"[1..] == "imeout";
    assert SETTER_PREFIX + ['T'] + "imeout" == "setTimeout";
  }

  /** A public one-argument method: whether it is marked `@TestExecuteSetter` and whether `@TestSetter`. */
  datatype Setter = Setter(executeSetter: bool, testSetter: bool)

  /** What a test method does: return, fail an assertion (`TRTestFailed`), or throw anything else. */
  datatype Check = Passes | FailsAssertion(msg: Option<string>) | Throws(thr: Throwable)

  /**
   * A `TRTestCase` subclass as reflection and its methods show it: its one-argument
   * public methods by (name, parameter class), its no-argument methods by name
   * with their `@Test` mark, what `setUp` and `execute` throw, the setter calls
   * (setter name, value) that throw, and what a test method does given its
   * test's arguments.
   */
  datatype Behaviour = Behaviour(
    className: string,
    setUp: Option<Throwable>,
    execute: Option<Throwable>,
    setters: map<(string, string), Setter>,
    throwing: set<(string, Value)>,
    testMethods: map<string, bool>,
    check: (string, TestArguments) -> Check)

  /** What the suite hands a test case before it runs: the component's input directory and the output manager. */
  datatype Provision = Provision(inputDirectory: string, outputManager: string)

  /** A test case object: the fields `TRTestCase` is built with, its class, and what it was provisioned with. */
  datatype TestCase = TestCase(
    id: string,
    description: string,
    tests: seq<TestDescriptor>,
    setUpInfo: Option<TestArguments>,
    environment: map<string, string>,
    behaviour: Behaviour,
    provision: Option<Provision>)

  /** One line of the journal: a reporting call, or something run on a test case. */
  datatype Entry =
    | Call(call: ReportCall)
    | SetUpRan(caseId: string)
    | ExecuteSetterRan(caseId: string, setter: string)
    | ExecuteRan(caseId: string)
    | TestSetterRan(caseId: string, testId: string, setter: string)
    | TestMethodRan(caseId: string, testId: string, testMethod: string)
    | TearDownRan(caseId: string)

  /** The journal the runner and the suite write to. */
  class Journal {
    var entries: seq<Entry>

    constructor()
      ensures entries == []
    {
      entries := [];
    }

    method Record(e: Entry)
      modifies this
      ensures entries == old(entries) + [e]
    {
      entries := entries + [e];
    }
  }

  /** Writing `e` and then `tail` after `base` writes `e + tail` after it. */
  lemma Appended<T>(base: seq<T>, e: seq<T>, tail: seq<T>)
    ensures base + e + tail == base + (e + tail)
  {
  }

  /** Two single entries after `e`. */
  lemma AppendedTwo<T>(base: seq<T>, e: seq<T>, a: T, b: T)
    ensures base + e + [a] + [b] == base + (e + [a, b])
  {
  }

  /** What a run of steps wrote, and why it stopped early, if it did. */
  datatype Steps<S> = Steps(entries: seq<Entry>, stop: Option<S>)

  function Then<S>(done: seq<Entry>, r: Steps<S>): Steps<S>
  {
    Steps(done + r.entries, r.stop)
  }

  /** Why the pre-execute phase or execution ends the case: a reported error, or an exception that leaves `run`. */
  datatype CaseStop = ErrorCase(cause: Throwable) | Escape(thr: Throwable)

  /** How a test ends. */
  datatype TestResult = TestPassed | TestFailed(msg: Option<string>) | TestErrored(thr: Throwable)

  /** `run`'s end: it returns the case's verdict, or an exception leaves it. */
  datatype RunOutcome = Returned(passed: bool) | Threw(thr: Throwable)

  /** Only runs of setters, `execute` and test methods: no reporting call, and neither `setUp` nor `tearDown`. */
  predicate OnlyRuns(entries: seq<Entry>)
  {
    forall i | 0 <= i < |entries| ::
      entries[i].ExecuteSetterRan? || entries[i].ExecuteRan? || entries[i].TestSetterRan? || entries[i].TestMethodRan?
  }

  /** Whether and how the execute setter for one set-up argument is applied. */
  function ExecuteSetterStep(tc: TestCase, key: string, v: Value): (r: Steps<CaseStop>)
    ensures OnlyRuns(r.entries)
  {
    var b := tc.behaviour;
    match SetterName(key)
    case None => Steps([], Some(Escape(IndexError())))
    case Some(name) =>
      if (name, v.kindClass) !in b.setters then Steps([], Some(ErrorCase(NoSuchMethod(b.className, name, Some(v.kindClass)))))
      else if !b.setters[(name, v.kindClass)].executeSetter then
        Steps([], Some(ErrorCase(Throwable(ILLEGAL_ACCESS_EXCEPTION, Some(UnmarkedExecuteSetterMessage(tc.id, name))))))
      else Steps([ExecuteSetterRan(tc.id, name)], if (name, v) in b.throwing then Some(ErrorCase(InvocationFailure())) else None)
  }

  function UnmarkedExecuteSetterMessage(caseId: string, setter: string): string
  {
    "Attempt made, in test case [" + caseId + "], to access a non-annotated test execute setter method [" + setter + "]. Aborting test."
  }

  /** The execute setters of the set-up arguments, in the key order `order`, from position `i`. */
  function ExecuteSettersFrom(tc: TestCase, args: TestArguments, order: seq<string>, i: nat): (r: Steps<CaseStop>)
    requires Listed(order, args.entries) && i <= |order|
    ensures OnlyRuns(r.entries)
    decreases |order| - i
  {
    if i == |order| then Steps([], None)
    else
      var s := ExecuteSetterStep(tc, order[i], args.entries[order[i]]);
      if s.stop.Some? then s else Then(s.entries, ExecuteSettersFrom(tc, args, order, i + 1))
  }

  /** A set-up argument whose execute setter exists, is marked, and does not throw. */
  predicate ExecuteSetterApplies(tc: TestCase, key: string, v: Value)
  {
    var b := tc.behaviour;
    SetterName(key).Some? && (SetterName(key).value, v.kindClass) in b.setters
    && b.setters[(SetterName(key).value, v.kindClass)].executeSetter
    && (SetterName(key).value, v) !in b.throwing
  }

  /**
   * The pre-execute phase gets through exactly when every set-up argument's
   * execute setter applies, and then every such setter has run.
   */
  lemma {:induction false} ExecuteSettersApplied(tc: TestCase, args: TestArguments, order: seq<string>, i: nat)
    requires Listed(order, args.entries) && i <= |order|
    ensures ExecuteSettersFrom(tc, args, order, i).stop.None?
      <==> forall j | i <= j < |order| :: ExecuteSetterApplies(tc, order[j], args.entries[order[j]])
    ensures ExecuteSettersFrom(tc, args, order, i).stop.None? ==>
      forall j | i <= j < |order| :: ExecuteSetterRan(tc.id, SetterName(order[j]).value) in ExecuteSettersFrom(tc, args, order, i).entries
    decreases |order| - i
  {
    if i < |order| {
      ExecuteSettersApplied(tc, args, order, i + 1);
    }
  }

  /** One more step of the execute setters, seen from what has already been written. */
  lemma SettersUnfold(tc: TestCase, args: TestArguments, order: seq<string>, i: nat, done: seq<Entry>)
    requires Listed(order, args.entries) && i < |order|
    ensures var s := ExecuteSetterStep(tc, order[i], args.entries[order[i]]);
      Then(done, ExecuteSettersFrom(tc, args, order, i))
        == if s.stop.Some? then Then(done, s) else Then(done + s.entries, ExecuteSettersFrom(tc, args, order, i + 1))
  {
    var s := ExecuteSetterStep(tc, order[i], args.entries[order[i]]);
    if s.stop.None? {
      var r := ExecuteSettersFrom(tc, args, order, i + 1);
      assert done + (s.entries + r.entries) == (done + s.entries) + r.entries;
    }
  }

  /** Pre-execute set-up, then `execute`. */
  function ExecutePhase(tc: TestCase, order: seq<string>): (r: Steps<CaseStop>)
    requires tc.setUpInfo.Some? ==> Listed(order, tc.setUpInfo.value.entries)
    ensures OnlyRuns(r.entries)
  {
    var setters := if tc.setUpInfo.Some? then ExecuteSettersFrom(tc, tc.setUpInfo.value, order, 0) else Steps([], None);
    if setters.stop.Some? then setters
    else Steps(setters.entries + [ExecuteRan(tc.id)], if tc.behaviour.execute.Some? then Some(ErrorCase(tc.behaviour.execute.value)) else None)
  }

  /** Whether and how the test setter for one of a test's arguments is applied. */
  function TestSetterStep(tc: TestCase, testId: string, key: string, v: Value): (r: Steps<TestResult>)
    ensures OnlyRuns(r.entries)
  {
    var b := tc.behaviour;
    match SetterName(key)
    case None => Steps([], Some(TestFailed(Some(INDEX_MESSAGE))))
    case Some(name) =>
      if (name, v.kindClass) !in b.setters then
        Steps([], Some(TestErrored(Internal(Some(TestingPhase), "Failed to find test setter method [" + name + "] in test case [" + tc.id + "]"))))
      else if !b.setters[(name, v.kindClass)].testSetter then
        Steps([], Some(TestErrored(Internal(Some(TestingPhase), Describe(Throwable(ILLEGAL_ACCESS_EXCEPTION, Some(UnmarkedTestSetterMessage(testId, name))))))))
      else
        Steps([TestSetterRan(tc.id, testId, name)],
          if (name, v) in b.throwing then
            Some(TestErrored(Internal(Some(TestingPhase), "Failed to invoke test setter method [" + name + "] in test case [" + tc.id + "]")))
          else None)
  }

  function UnmarkedTestSetterMessage(testId: string, setter: string): string
  {
    "Attempt made, in test [" + testId + "], to access a non-annotated test setter method [" + setter + "]. Aborting test."
  }

  function UnmarkedTestMessage(testId: string, testMethod: string): string
  {
    "Attempt made, in test [" + testId + "], to access a non-annotated test method [" + testMethod + "]. Aborting test."
  }

  /** A test's setters, in the key order `order`, from position `i`. */
  function TestSettersFrom(tc: TestCase, test: TestDescriptor, order: seq<string>, i: nat): (r: Steps<TestResult>)
    requires Listed(order, test.arguments.entries) && i <= |order|
    ensures OnlyRuns(r.entries)
    decreases |order| - i
  {
    if i == |order| then Steps([], None)
    else
      var s := TestSetterStep(tc, test.id, order[i], test.arguments.entries[order[i]]);
      if s.stop.Some? then s else Then(s.entries, TestSettersFrom(tc, test, order, i + 1))
  }

  /** One more step of a test's setters, seen from what has already been written. */
  lemma TestSettersUnfold(tc: TestCase, test: TestDescriptor, order: seq<string>, i: nat, done: seq<Entry>)
    requires Listed(order, test.arguments.entries) && i < |order|
    ensures var s := TestSetterStep(tc, test.id, order[i], test.arguments.entries[order[i]]);
      Then(done, TestSettersFrom(tc, test, order, i))
        == if s.stop.Some? then Then(done, s) else Then(done + s.entries, TestSettersFrom(tc, test, order, i + 1))
  {
    var s := TestSetterStep(tc, test.id, order[i], test.arguments.entries[order[i]]);
    if s.stop.None? {
      var r := TestSettersFrom(tc, test, order, i + 1);
      assert done + (s.entries + r.entries) == (done + s.entries) + r.entries;
    }
  }

  /** Looking up and invoking the test method. */
  function TestMethodStep(tc: TestCase, test: TestDescriptor): (r: Steps<TestResult>)
    ensures OnlyRuns(r.entries) && r.stop.Some?
  {
    var b := tc.behaviour;
    match TestMethodName(test.id)
    case None => Steps([], Some(TestFailed(Some(INDEX_MESSAGE))))
    case Some(name) =>
      if name !in b.testMethods then
        Steps([], Some(TestErrored(Internal(Some(TestingPhase), "Failed to find test method [" + name + "] in test case [" + tc.id + "]"))))
      else if !b.testMethods[name] then
        Steps([], Some(TestErrored(Internal(Some(TestingPhase), Describe(Throwable(ILLEGAL_ACCESS_EXCEPTION, Some(UnmarkedTestMessage(test.id, name))))))))
      else
        Steps([TestMethodRan(tc.id, test.id, name)],
          match b.check(name, test.arguments)
          case Passes => Some(TestPassed)
          case FailsAssertion(msg) => Some(TestFailed(msg))
          case Throws(_) => Some(TestErrored(Internal(Some(TestingPhase), "Failed to invoke test method [" + name + "] in test case [" + tc.id + "]"))))
  }

  /** `runTest`: the setters, then the test method, unless a setter already ended the test. */
  function TestBody(tc: TestCase, test: TestDescriptor, order: seq<string>): (r: Steps<TestResult>)
    requires Listed(order, test.arguments.entries)
    ensures OnlyRuns(r.entries) && r.stop.Some?
  {
    var setters := TestSettersFrom(tc, test, order, 0);
    if setters.stop.Some? then setters else Then(setters.entries, TestMethodStep(tc, test))
  }

  /** The reporting call that ends a test. */
  function TestEnd(testId: string, result: TestResult): ReportCall
  {
    match result
    case TestPassed => PassedTest(testId)
    case TestFailed(msg) => FailedTest(testId, msg)
    case TestErrored(thr) => ErrorTest(testId, thr)
  }

  /** One test of the test phase: its start, its body, its end. */
  function TestRun(tc: TestCase, test: TestDescriptor, order: seq<string>): seq<Entry>
    requires Listed(order, test.arguments.entries)
  {
    [Call(StartingTest(test.id))] + TestBody(tc, test, order).entries + [Call(TestEnd(test.id, TestBody(tc, test, order).stop.value))]
  }

  /** Key orders for the first `|orders|` tests of `tc`. */
  predicate TestOrders(tc: TestCase, orders: seq<seq<string>>)
  {
    |orders| <= |tc.tests| && forall i | 0 <= i < |orders| :: KeyOrder(orders[i], tc.tests[i].arguments.entries)
  }

  datatype PhaseRecord = PhaseRecord(entries: seq<Entry>, passed: bool)

  /** The first `|orders|` tests, in list order: what they wrote and whether all passed. */
  function TestPhaseOf(tc: TestCase, orders: seq<seq<string>>): PhaseRecord
    requires TestOrders(tc, orders)
    decreases |orders|
  {
    if orders == [] then PhaseRecord([], true)
    else
      var n := |orders| - 1;
      var before := TestPhaseOf(tc, orders[..n]);
      var test := tc.tests[n];
      PhaseRecord(before.entries + TestRun(tc, test, orders[n]), before.passed && TestBody(tc, test, orders[n]).stop.value.TestPassed?)
  }

  /** The test phase after one more test. */
  lemma TestPhaseSnoc(tc: TestCase, orders: seq<seq<string>>, order: seq<string>)
    requires TestOrders(tc, orders) && |orders| < |tc.tests| && KeyOrder(order, tc.tests[|orders|].arguments.entries)
    ensures TestOrders(tc, orders + [order])
    ensures var test := tc.tests[|orders|]; var before := TestPhaseOf(tc, orders);
      TestPhaseOf(tc, orders + [order])
        == PhaseRecord(before.entries + TestRun(tc, test, order), before.passed && TestBody(tc, test, order).stop.value.TestPassed?)
  {
    assert (orders + [order])[..|orders|] == orders;
  }

  /** The iteration orders a run used: the set-up arguments' keys, and each test's. */
  datatype KeyOrders = KeyOrders(setUp: seq<string>, tests: seq<seq<string>>)

  predicate Fits(tc: TestCase, orders: KeyOrders)
  {
    (tc.setUpInfo.Some? ==> KeyOrder(orders.setUp, tc.setUpInfo.value.entries))
    && |orders.tests| == |tc.tests| && TestOrders(tc, orders.tests)
  }

  datatype CaseRecord = CaseRecord(entries: seq<Entry>, outcome: RunOutcome)

  /** After the test phase: tear down, then the case's verdict. */
  function Verdict(tc: TestCase, tests: PhaseRecord): CaseRecord
  {
    CaseRecord(tests.entries + [TearDownRan(tc.id), Call(if tests.passed then PassedTestCase(tc.id) else FailedTestCase(tc.id))],
      Returned(tests.passed))
  }

  /** Everything `run` does once `setUp` has returned. */
  function AfterSetUp(tc: TestCase, orders: KeyOrders): CaseRecord
    requires Fits(tc, orders)
  {
    var exec := ExecutePhase(tc, orders.setUp);
    match exec.stop
    case Some(ErrorCase(cause)) =>
      CaseRecord(exec.entries + [Call(ErrorTestCase(tc.id, cause)), TearDownRan(tc.id)], Returned(false))
    case Some(Escape(thr)) =>
      CaseRecord(exec.entries + [TearDownRan(tc.id)], Threw(thr))
    case None =>
      var rest := Verdict(tc, TestPhaseOf(tc, orders.tests));
      CaseRecord(exec.entries + rest.entries, rest.outcome)
  }

  /** `run`, for the key orders `orders`. */
  function CaseRun(tc: TestCase, orders: KeyOrders): CaseRecord
    requires Fits(tc, orders)
  {
    if tc.behaviour.setUp.Some? then
      CaseRecord(Opening(tc) + [Call(ErrorTestCase(tc.id, tc.behaviour.setUp.value))], Returned(false))
    else
      var rest := AfterSetUp(tc, orders);
      CaseRecord(Opening(tc) + rest.entries, rest.outcome)
  }

  /** Key orders for a run that never reached some of its iterations. */
  ghost function SomeKeyOrders(tc: TestCase): (orders: KeyOrders)
    ensures Fits(tc, orders)
  {
    KeyOrders(if tc.setUpInfo.Some? then SomeKeyOrder(tc.setUpInfo.value.entries) else [],
      seq(|tc.tests|, i requires 0 <= i < |tc.tests| => SomeKeyOrder(tc.tests[i].arguments.entries)))
  }

  /** A report that ends test case `id`: passed, failed or errored. */
  predicate IsCaseEnd(e: Entry, id: string)
  {
    e.Call? && (e.call.PassedTestCase? || e.call.FailedTestCase? || e.call.ErrorTestCase?) && e.call.caseId == id
  }

  /** How many times case `id` is reported as ended. */
  function CaseEnds(es: seq<Entry>, id: string): nat
  {
    if es == [] then 0 else (if IsCaseEnd(es[0], id) then 1 else 0) + CaseEnds(es[1..], id)
  }

  /** The ids of the tests reported as starting, in order. */
  function StartedTests(es: seq<Entry>): seq<string>
  {
    if es == [] then []
    else if es[0].Call? && es[0].call.StartingTest? then [es[0].call.testId] + StartedTests(es[1..])
    else StartedTests(es[1..])
  }

  /** The ids of the first `n` tests. */
  function TestIds(tests: seq<TestDescriptor>, n: nat): (ids: seq<string>)
    requires n <= |tests|
    ensures |ids| == n && forall i | 0 <= i < n :: ids[i] == tests[i].id
  {
    seq(n, i requires 0 <= i < n => tests[i].id)
  }

  lemma TestIdsSnoc(tests: seq<TestDescriptor>, n: nat)
    requires n < |tests|
    ensures TestIds(tests, n) + [tests[n].id] == TestIds(tests, n + 1)
  {
  }

  /** What a test phase may write: runs of setters and test methods and test-level reports, nothing about the case. */
  predicate InnerEntry(e: Entry)
  {
    match e
    case Call(c) => c.StartingTest? || c.PassedTest? || c.FailedTest? || c.ErrorTest?
    case SetUpRan(_) => false
    case TearDownRan(_) => false
    case _ => true
  }

  predicate Inner(es: seq<Entry>)
  {
    forall i | 0 <= i < |es| :: InnerEntry(es[i])
  }

  lemma {:induction false} CaseEndsAppend(a: seq<Entry>, b: seq<Entry>, id: string)
    ensures CaseEnds(a + b, id) == CaseEnds(a, id) + CaseEnds(b, id)
    decreases |a|
  {
    if a != [] {
      assert (a + b)[1..] == a[1..] + b;
      CaseEndsAppend(a[1..], b, id);
    } else {
      assert a + b == b;
    }
  }

  lemma {:induction false} StartedTestsAppend(a: seq<Entry>, b: seq<Entry>)
    ensures StartedTests(a + b) == StartedTests(a) + StartedTests(b)
    decreases |a|
  {
    if a != [] {
      assert (a + b)[1..] == a[1..] + b;
      StartedTestsAppend(a[1..], b);
    } else {
      assert a + b == b;
    }
  }

  /** Entries that say nothing about the case do not end it, do not tear it down, and start no test when they are only runs. */
  lemma {:induction false} InnerSilent(es: seq<Entry>, id: string)
    requires Inner(es)
    ensures CaseEnds(es, id) == 0 && multiset(es)[TearDownRan(id)] == 0
    decreases |es|
  {
    if es != [] {
      assert InnerEntry(es[0]);
      InnerSilent(es[1..], id);
      assert es == [es[0]] + es[1..];
    }
  }

  lemma {:induction false} OnlyRunsSilent(es: seq<Entry>)
    requires OnlyRuns(es)
    ensures Inner(es) && StartedTests(es) == []
    decreases |es|
  {
    if es != [] {
      OnlyRunsSilent(es[1..]);
    }
  }

  lemma InnerAppend(a: seq<Entry>, b: seq<Entry>)
    requires Inner(a) && Inner(b)
    ensures Inner(a + b)
  {
    forall i | 0 <= i < |a + b|
      ensures InnerEntry((a + b)[i])
    {
      if i < |a| {
        assert (a + b)[i] == a[i];
      } else {
        assert (a + b)[i] == b[i - |a|];
      }
    }
  }

  /**
   * Each test is reported as starting, then, after runs that report nothing,
   * exactly once as passed, failed or errored; it writes nothing about the case.
   */
  lemma TestReportedOnce(tc: TestCase, test: TestDescriptor, order: seq<string>)
    requires Listed(order, test.arguments.entries)
    ensures var r := TestRun(tc, test, order); var end := r[|r| - 1];
      |r| >= 2 && r[0] == Call(StartingTest(test.id))
      && end.Call? && end.call.testId == test.id
      && (end.call.PassedTest? || end.call.FailedTest? || end.call.ErrorTest?)
      && (forall i | 0 < i < |r| - 1 :: !r[i].Call?)
      && Inner(r) && StartedTests(r) == [test.id]
  {
    var body := TestBody(tc, test, order).entries;
    var end := Call(TestEnd(test.id, TestBody(tc, test, order).stop.value));
    var r := TestRun(tc, test, order);
    OnlyRunsSilent(body);
    assert r == [Call(StartingTest(test.id))] + body + [end];
    forall i | 0 < i < |r| - 1
      ensures !r[i].Call?
    {
      assert r[i] == body[i - 1];
    }
    InnerAppend([Call(StartingTest(test.id))], body);
    InnerAppend([Call(StartingTest(test.id))] + body, [end]);
    StartedTestsAppend([Call(StartingTest(test.id))], body);
    StartedTestsAppend([Call(StartingTest(test.id))] + body, [end]);
  }

  /** How a test whose setters all applied ends, by what its test method is and does. */
  lemma TestMethodDecides(tc: TestCase, test: TestDescriptor, order: seq<string>)
    requires Listed(order, test.arguments.entries)
    requires TestSettersFrom(tc, test, order, 0).stop.None?
    ensures var result := TestBody(tc, test, order).stop.value; var b := tc.behaviour; var name := TestMethodName(test.id);
      (name.Some? && name.value in b.testMethods && b.testMethods[name.value] ==>
        (result == TestPassed <==> b.check(name.value, test.arguments) == Passes)
        && (forall msg :: b.check(name.value, test.arguments) == FailsAssertion(msg) ==> result == TestFailed(msg))
        && (b.check(name.value, test.arguments).Throws? ==> result.TestErrored?))
      && (name.Some? && (name.value !in b.testMethods || !b.testMethods[name.value]) ==> result.TestErrored?)
      && (name.None? ==> result == TestFailed(Some(INDEX_MESSAGE)))
  {
  }

  /**
   * The test phase starts every one of its tests, in list order, whatever
   * the earlier ones did, and writes nothing about the case.
   */
  lemma {:induction false} TestsInListOrder(tc: TestCase, orders: seq<seq<string>>)
    requires TestOrders(tc, orders)
    ensures StartedTests(TestPhaseOf(tc, orders).entries) == TestIds(tc.tests, |orders|)
    ensures Inner(TestPhaseOf(tc, orders).entries)
    decreases |orders|
  {
    if orders != [] {
      var n := |orders| - 1;
      assert TestOrders(tc, orders[..n]);
      TestsInListOrder(tc, orders[..n]);
      var before := TestPhaseOf(tc, orders[..n]).entries;
      var run := TestRun(tc, tc.tests[n], orders[n]);
      TestReportedOnce(tc, tc.tests[n], orders[n]);
      StartedTestsAppend(before, run);
      InnerAppend(before, run);
      TestIdsSnoc(tc.tests, n);
    }
  }

  /** The test phase passes exactly when every test passed; with no tests it passes. */
  lemma {:induction false} TestsPassIff(tc: TestCase, orders: seq<seq<string>>)
    requires TestOrders(tc, orders)
    ensures TestPhaseOf(tc, orders).passed
      <==> forall i | 0 <= i < |orders| :: TestBody(tc, tc.tests[i], orders[i]).stop.value.TestPassed?
    decreases |orders|
  {
    if orders != [] {
      var n := |orders| - 1;
      assert TestOrders(tc, orders[..n]);
      TestsPassIff(tc, orders[..n]);
    }
  }

  /** Counting over one or two entries. */
  lemma SmallCounts(a: Entry, b: Entry, id: string)
    ensures CaseEnds([a], id) == (if IsCaseEnd(a, id) then 1 else 0)
    ensures CaseEnds([a, b], id) == (if IsCaseEnd(a, id) then 1 else 0) + (if IsCaseEnd(b, id) then 1 else 0)
    ensures !(a.Call? && a.call.StartingTest?) ==> StartedTests([a]) == []
    ensures !(a.Call? && a.call.StartingTest?) && !(b.Call? && b.call.StartingTest?) ==> StartedTests([a, b]) == []
    ensures multiset([a])[TearDownRan(id)] == (if a == TearDownRan(id) then 1 else 0)
    ensures multiset([a, b])[TearDownRan(id)] == (if a == TearDownRan(id) then 1 else 0) + (if b == TearDownRan(id) then 1 else 0)
  {
    assert [a, b][1..] == [b];
    assert [a][1..] == [] && [b][1..] == [];
  }

  /** The counts of a case record made of an opening, a middle that says nothing about the case, and a closing. */
  lemma {:induction false} RecordCounts(opening: seq<Entry>, middle: seq<Entry>, closing: seq<Entry>, id: string)
    requires Inner(middle) && StartedTests(opening) == [] && StartedTests(closing) == []
    ensures CaseEnds(opening + (middle + closing), id) == CaseEnds(opening, id) + CaseEnds(closing, id)
    ensures StartedTests(opening + (middle + closing)) == StartedTests(middle)
    ensures multiset(opening + (middle + closing))[TearDownRan(id)]
      == multiset(opening)[TearDownRan(id)] + multiset(closing)[TearDownRan(id)]
  {
    InnerSilent(middle, id);
    CaseEndsAppend(opening, middle + closing, id);
    CaseEndsAppend(middle, closing, id);
    StartedTestsAppend(opening, middle + closing);
    StartedTestsAppend(middle, closing);
  }

  /** The opening of every case record: the case reported as starting, then `setUp`. */
  function Opening(tc: TestCase): seq<Entry>
  {
    [Call(StartingTestCase(tc.id, Some(tc.description))), SetUpRan(tc.id)]
  }

  lemma OpeningCounts(tc: TestCase)
    ensures CaseEnds(Opening(tc), tc.id) == 0 && StartedTests(Opening(tc)) == []
    ensures multiset(Opening(tc))[TearDownRan(tc.id)] == 0
  {
    SmallCounts(Call(StartingTestCase(tc.id, Some(tc.description))), SetUpRan(tc.id), tc.id);
  }

  lemma SetUpFailureRecord(tc: TestCase, orders: KeyOrders)
    requires Fits(tc, orders) && tc.behaviour.setUp.Some?
    ensures CaseRun(tc, orders) == CaseRecord(Opening(tc) + [Call(ErrorTestCase(tc.id, tc.behaviour.setUp.value))], Returned(false))
  {
  }

  lemma SetUpRecord(tc: TestCase, orders: KeyOrders)
    requires Fits(tc, orders) && tc.behaviour.setUp.None?
    ensures CaseRun(tc, orders) == CaseRecord(Opening(tc) + AfterSetUp(tc, orders).entries, AfterSetUp(tc, orders).outcome)
  {
  }

  lemma ErrorCaseRecord(tc: TestCase, orders: KeyOrders, cause: Throwable)
    requires Fits(tc, orders) && tc.behaviour.setUp.None?
    requires ExecutePhase(tc, orders.setUp).stop == Some(ErrorCase(cause))
    ensures CaseRun(tc, orders).entries
      == Opening(tc) + (ExecutePhase(tc, orders.setUp).entries + [Call(ErrorTestCase(tc.id, cause)), TearDownRan(tc.id)])
    ensures CaseRun(tc, orders).outcome == Returned(false)
  {
  }

  lemma EscapeRecord(tc: TestCase, orders: KeyOrders, thr: Throwable)
    requires Fits(tc, orders) && tc.behaviour.setUp.None?
    requires ExecutePhase(tc, orders.setUp).stop == Some(Escape(thr))
    ensures CaseRun(tc, orders).entries == Opening(tc) + (ExecutePhase(tc, orders.setUp).entries + [TearDownRan(tc.id)])
    ensures CaseRun(tc, orders).outcome == Threw(thr)
  {
  }

  lemma VerdictRecord(tc: TestCase, orders: KeyOrders)
    requires Fits(tc, orders) && tc.behaviour.setUp.None?
    requires ExecutePhase(tc, orders.setUp).stop.None?
    ensures var tests := TestPhaseOf(tc, orders.tests);
      CaseRun(tc, orders).entries == Opening(tc) + (ExecutePhase(tc, orders.setUp).entries + tests.entries
        + [TearDownRan(tc.id), Call(if tests.passed then PassedTestCase(tc.id) else FailedTestCase(tc.id))])
      && CaseRun(tc, orders).outcome == Returned(tests.passed)
  {
  }

  /**
   * A case is reported as starting; it is reported as ended exactly once when
   * `run` returns and never when an exception leaves `run`; `tearDown` runs
   * once exactly when `setUp` returned.
   */
  lemma CaseReportedOnce(tc: TestCase, orders: KeyOrders)
    requires Fits(tc, orders)
    ensures var r := CaseRun(tc, orders);
      r.entries[..2] == Opening(tc)
      && CaseEnds(r.entries, tc.id) == (if r.outcome.Returned? then 1 else 0)
      && multiset(r.entries)[TearDownRan(tc.id)] == (if tc.behaviour.setUp.None? then 1 else 0)
  {
    if tc.behaviour.setUp.Some? {
      SetUpFailureStopsCase(tc, orders);
    } else {
      match ExecutePhase(tc, orders.setUp).stop
      case Some(ErrorCase(cause)) => ExecuteFailureStopsCase(tc, orders, cause);
      case Some(Escape(thr)) => EscapeLeavesCase(tc, orders, thr);
      case None => VerdictCounts(tc, orders);
    }
  }

  /** A `setUp` failure reports the case errored and returns false; nothing else runs, not even `tearDown`. */
  lemma SetUpFailureStopsCase(tc: TestCase, orders: KeyOrders)
    requires Fits(tc, orders) && tc.behaviour.setUp.Some?
    ensures CaseRun(tc, orders).entries == Opening(tc) + [Call(ErrorTestCase(tc.id, tc.behaviour.setUp.value))]
    ensures CaseRun(tc, orders).outcome == Returned(false)
    ensures var r := CaseRun(tc, orders).entries;
      r[..2] == Opening(tc) && CaseEnds(r, tc.id) == 1 && multiset(r)[TearDownRan(tc.id)] == 0
  {
    var error := Call(ErrorTestCase(tc.id, tc.behaviour.setUp.value));
    OpeningCounts(tc);
    SmallCounts(error, error, tc.id);
    CaseEndsAppend(Opening(tc), [error], tc.id);
  }

  /**
   * A failing pre-execute setter or `execute` reports the case errored with
   * the cause and returns false; no test starts, and `tearDown` still runs, once and last.
   */
  lemma ExecuteFailureStopsCase(tc: TestCase, orders: KeyOrders, cause: Throwable)
    requires Fits(tc, orders) && tc.behaviour.setUp.None?
    requires ExecutePhase(tc, orders.setUp).stop == Some(ErrorCase(cause))
    ensures var r := CaseRun(tc, orders);
      r.outcome == Returned(false) && StartedTests(r.entries) == []
      && r.entries[|r.entries| - 2..] == [Call(ErrorTestCase(tc.id, cause)), TearDownRan(tc.id)]
      && r.entries[..2] == Opening(tc) && CaseEnds(r.entries, tc.id) == 1 && multiset(r.entries)[TearDownRan(tc.id)] == 1
  {
    var exec := ExecutePhase(tc, orders.setUp).entries;
    ErrorCaseRecord(tc, orders, cause);
    OnlyRunsSilent(exec);
    ErroredRecord(tc, exec, cause);
  }

  /** The counts of a record whose execute phase errored after writing `middle`. */
  lemma ErroredRecord(tc: TestCase, middle: seq<Entry>, cause: Throwable)
    requires Inner(middle) && StartedTests(middle) == []
    ensures var r := Opening(tc) + (middle + [Call(ErrorTestCase(tc.id, cause)), TearDownRan(tc.id)]);
      StartedTests(r) == [] && r[|r| - 2..] == [Call(ErrorTestCase(tc.id, cause)), TearDownRan(tc.id)]
      && r[..2] == Opening(tc) && CaseEnds(r, tc.id) == 1 && multiset(r)[TearDownRan(tc.id)] == 1
  {
    var closing := [Call(ErrorTestCase(tc.id, cause)), TearDownRan(tc.id)];
    OpeningCounts(tc);
    SmallCounts(Call(ErrorTestCase(tc.id, cause)), TearDownRan(tc.id), tc.id);
    RecordCounts(Opening(tc), middle, closing, tc.id);
    WholeRecord(Opening(tc), middle, closing);
  }

  /**
   * When an exception escapes the pre-execute phase, `tearDown` runs, once and
   * last, and the exception leaves `run` with the case never reported as ended.
   */
  lemma EscapeLeavesCase(tc: TestCase, orders: KeyOrders, thr: Throwable)
    requires Fits(tc, orders) && tc.behaviour.setUp.None?
    requires ExecutePhase(tc, orders.setUp).stop == Some(Escape(thr))
    ensures var r := CaseRun(tc, orders);
      r.outcome == Threw(thr) && StartedTests(r.entries) == [] && r.entries[|r.entries| - 1] == TearDownRan(tc.id)
      && r.entries[..2] == Opening(tc) && CaseEnds(r.entries, tc.id) == 0 && multiset(r.entries)[TearDownRan(tc.id)] == 1
  {
    var exec := ExecutePhase(tc, orders.setUp).entries;
    EscapeRecord(tc, orders, thr);
    OnlyRunsSilent(exec);
    EscapedRecord(tc, exec);
  }

  /** The counts of a record whose execute phase wrote `middle` before an exception escaped. */
  lemma EscapedRecord(tc: TestCase, middle: seq<Entry>)
    requires Inner(middle) && StartedTests(middle) == []
    ensures var r := Opening(tc) + (middle + [TearDownRan(tc.id)]);
      StartedTests(r) == [] && r[|r| - 1] == TearDownRan(tc.id)
      && r[..2] == Opening(tc) && CaseEnds(r, tc.id) == 0 && multiset(r)[TearDownRan(tc.id)] == 1
  {
    var closing := [TearDownRan(tc.id)];
    OpeningCounts(tc);
    SmallCounts(TearDownRan(tc.id), TearDownRan(tc.id), tc.id);
    RecordCounts(Opening(tc), middle, closing, tc.id);
    WholeRecord(Opening(tc), middle, closing);
  }

  /** Where the opening and the closing sit in a whole record. */
  lemma WholeRecord(opening: seq<Entry>, middle: seq<Entry>, closing: seq<Entry>)
    requires |opening| == 2
    ensures var r := opening + (middle + closing);
      r[..2] == opening && r[|r| - |closing|..] == closing
  {
  }

  /**
   * Once set up and the execute phase get through, every test starts in list
   * order, `tearDown` then runs once, and the case passes exactly when every
   * test passed.
   */
  lemma CaseVerdict(tc: TestCase, orders: KeyOrders)
    requires Fits(tc, orders) && tc.behaviour.setUp.None?
    requires ExecutePhase(tc, orders.setUp).stop.None?
    ensures var r := CaseRun(tc, orders);
      StartedTests(r.entries) == TestIds(tc.tests, |tc.tests|)
      && r.outcome.Returned?
      && (r.outcome.passed <==> forall i | 0 <= i < |tc.tests| :: TestBody(tc, tc.tests[i], orders.tests[i]).stop.value.TestPassed?)
  {
    var exec := ExecutePhase(tc, orders.setUp).entries;
    var tests := TestPhaseOf(tc, orders.tests);
    var verdict := Call(if tests.passed then PassedTestCase(tc.id) else FailedTestCase(tc.id));
    var closing := [TearDownRan(tc.id), verdict];
    VerdictRecord(tc, orders);
    OnlyRunsSilent(exec);
    TestsInListOrder(tc, orders.tests);
    TestsPassIff(tc, orders.tests);
    InnerAppend(exec, tests.entries);
    StartedTestsAppend(exec, tests.entries);
    OpeningCounts(tc);
    SmallCounts(TearDownRan(tc.id), verdict, tc.id);
    RecordCounts(Opening(tc), exec + tests.entries, closing, tc.id);
  }

  /** Once the tests have run, the case is reported as ended once, after `tearDown`, which runs once. */
  lemma VerdictCounts(tc: TestCase, orders: KeyOrders)
    requires Fits(tc, orders) && tc.behaviour.setUp.None?
    requires ExecutePhase(tc, orders.setUp).stop.None?
    ensures var r := CaseRun(tc, orders).entries;
      r[..2] == Opening(tc) && CaseEnds(r, tc.id) == 1 && multiset(r)[TearDownRan(tc.id)] == 1
  {
    var exec := ExecutePhase(tc, orders.setUp).entries;
    var tests := TestPhaseOf(tc, orders.tests);
    var verdict := Call(if tests.passed then PassedTestCase(tc.id) else FailedTestCase(tc.id));
    VerdictRecord(tc, orders);
    OnlyRunsSilent(exec);
    TestsInListOrder(tc, orders.tests);
    InnerAppend(exec, tests.entries);
    ClosedRecord(tc, exec + tests.entries, TearDownRan(tc.id), verdict);
  }

  /** A record closed by `tearDown` and one case end has one of each. */
  lemma ClosedRecord(tc: TestCase, middle: seq<Entry>, a: Entry, b: Entry)
    requires Inner(middle)
    requires a == TearDownRan(tc.id) && b.Call? && IsCaseEnd(b, tc.id)
    ensures var r := Opening(tc) + (middle + [a, b]);
      r[..2] == Opening(tc) && CaseEnds(r, tc.id) == 1 && multiset(r)[TearDownRan(tc.id)] == 1
  {
    OpeningCounts(tc);
    SmallCounts(a, b, tc.id);
    RecordCounts(Opening(tc), middle, [a, b], tc.id);
    WholeRecord(Opening(tc), middle, [a, b]);
  }

  /** A case with no tests passes once set up and the execute phase get through. */
  lemma EmptyCasePasses(tc: TestCase, orders: KeyOrders)
    requires Fits(tc, orders) && tc.behaviour.setUp.None? && tc.tests == []
    requires ExecutePhase(tc, orders.setUp).stop.None?
    ensures CaseRun(tc, orders).outcome == Returned(true)
  {
    CaseVerdict(tc, orders);
  }

  /** What may follow a case's opening report: no other case's start and no suite-level report. */
  predicate InCase(e: Entry)
  {
    e.Call? ==> (e.call.PassedTestCase? || e.call.FailedTestCase? || e.call.ErrorTestCase?
      || e.call.StartingTest? || e.call.PassedTest? || e.call.FailedTest? || e.call.ErrorTest?)
  }

  predicate CaseBody(es: seq<Entry>)
  {
    forall i | 0 <= i < |es| :: InCase(es[i])
  }

  /** A record made of the opening and a body. */
  lemma OpenedBody(tc: TestCase, middle: seq<Entry>, closing: seq<Entry>)
    requires Inner(middle) && CaseBody(closing)
    ensures var r := Opening(tc) + (middle + closing);
      r[0] == Call(StartingTestCase(tc.id, Some(tc.description))) && CaseBody(r[1..])
  {
    var r := Opening(tc) + (middle + closing);
    assert r[1..] == [SetUpRan(tc.id)] + middle + closing;
  }

  /** Every case record opens with the start of that case, and nothing after it starts a case or reports on a suite. */
  lemma CaseStartsOnce(tc: TestCase, orders: KeyOrders)
    requires Fits(tc, orders)
    ensures var r := CaseRun(tc, orders).entries;
      |r| >= 1 && r[0] == Call(StartingTestCase(tc.id, Some(tc.description))) && CaseBody(r[1..])
  {
    if tc.behaviour.setUp.Some? {
      var error := Call(ErrorTestCase(tc.id, tc.behaviour.setUp.value));
      OpenedBody(tc, [], [error]);
      assert [] + [error] == [error];
    } else {
      match ExecutePhase(tc, orders.setUp).stop
      case Some(ErrorCase(cause)) => ErrorCaseBody(tc, orders, cause);
      case Some(Escape(thr)) => EscapeBody(tc, orders, thr);
      case None => VerdictBody(tc, orders);
    }
  }

  lemma ErrorCaseBody(tc: TestCase, orders: KeyOrders, cause: Throwable)
    requires Fits(tc, orders) && tc.behaviour.setUp.None?
    requires ExecutePhase(tc, orders.setUp).stop == Some(ErrorCase(cause))
    ensures var r := CaseRun(tc, orders).entries;
      |r| >= 1 && r[0] == Call(StartingTestCase(tc.id, Some(tc.description))) && CaseBody(r[1..])
  {
    ErrorCaseRecord(tc, orders, cause);
    OnlyRunsSilent(ExecutePhase(tc, orders.setUp).entries);
    OpenedBody(tc, ExecutePhase(tc, orders.setUp).entries, [Call(ErrorTestCase(tc.id, cause)), TearDownRan(tc.id)]);
  }

  lemma EscapeBody(tc: TestCase, orders: KeyOrders, thr: Throwable)
    requires Fits(tc, orders) && tc.behaviour.setUp.None?
    requires ExecutePhase(tc, orders.setUp).stop == Some(Escape(thr))
    ensures var r := CaseRun(tc, orders).entries;
      |r| >= 1 && r[0] == Call(StartingTestCase(tc.id, Some(tc.description))) && CaseBody(r[1..])
  {
    EscapeRecord(tc, orders, thr);
    OnlyRunsSilent(ExecutePhase(tc, orders.setUp).entries);
    OpenedBody(tc, ExecutePhase(tc, orders.setUp).entries, [TearDownRan(tc.id)]);
  }

  lemma VerdictBody(tc: TestCase, orders: KeyOrders)
    requires Fits(tc, orders) && tc.behaviour.setUp.None?
    requires ExecutePhase(tc, orders.setUp).stop.None?
    ensures var r := CaseRun(tc, orders).entries;
      |r| >= 1 && r[0] == Call(StartingTestCase(tc.id, Some(tc.description))) && CaseBody(r[1..])
  {
    var exec := ExecutePhase(tc, orders.setUp).entries;
    var tests := TestPhaseOf(tc, orders.tests);
    VerdictRecord(tc, orders);
    OnlyRunsSilent(exec);
    TestsInListOrder(tc, orders.tests);
    InnerAppend(exec, tests.entries);
    OpenedVerdict(tc, exec + tests.entries, tests.passed);
  }

  lemma OpenedVerdict(tc: TestCase, middle: seq<Entry>, passed: bool)
    requires Inner(middle)
    ensures var r := Opening(tc) + (middle + [TearDownRan(tc.id), Call(if passed then PassedTestCase(tc.id) else FailedTestCase(tc.id))]);
      r[0] == Call(StartingTestCase(tc.id, Some(tc.description))) && CaseBody(r[1..])
  {
    OpenedBody(tc, middle, [TearDownRan(tc.id), Call(if passed then PassedTestCase(tc.id) else FailedTestCase(tc.id))]);
  }

  /** `TRTestRunner`. */
  class TestRunner {
    const journal: Journal
    var testCase: Option<TestCase>

    constructor(journal: Journal)
      ensures this.journal == journal && testCase.None?
    {
      this.journal := journal;
      testCase := None;
    }

    method SetTestCase(tc: TestCase)
      modifies this
      ensures testCase == Some(tc)
    {
      testCase := Some(tc);
    }

    /** One iteration of `invokeTestExecuteSetters`: find, check and invoke the setter of one argument. */
    method InvokeTestExecuteSetter(tc: TestCase, argName: string, argValue: Value) returns (stop: Option<CaseStop>)
      modifies journal
      ensures journal.entries == old(journal.entries) + ExecuteSetterStep(tc, argName, argValue).entries
      ensures stop == ExecuteSetterStep(tc, argName, argValue).stop
    {
      var setterMethod := SetterName(argName);
      if setterMethod.None? {
        return Some(Escape(IndexError()));
      }
      var name := setterMethod.value;
      var b := tc.behaviour;
      if (name, argValue.kindClass) !in b.setters {
        return Some(ErrorCase(NoSuchMethod(b.className, name, Some(argValue.kindClass))));
      }
      if !b.setters[(name, argValue.kindClass)].executeSetter {
        return Some(ErrorCase(Throwable(ILLEGAL_ACCESS_EXCEPTION, Some(UnmarkedExecuteSetterMessage(tc.id, name)))));
      }
      journal.Record(ExecuteSetterRan(tc.id, name));
      if (name, argValue) in b.throwing {
        return Some(ErrorCase(InvocationFailure()));
      }
      stop := None;
    }

    /** `invokeTestExecuteSetters`, in the key-set order of the set-up arguments. */
    method InvokeTestExecuteSetters(tc: TestCase) returns (stop: Option<CaseStop>, ghost order: seq<string>)
      modifies journal
      ensures tc.setUpInfo.Some? ==> KeyOrder(order, tc.setUpInfo.value.entries)
      ensures tc.setUpInfo.None? ==> order == [] && stop.None? && journal.entries == old(journal.entries)
      ensures tc.setUpInfo.Some? ==>
        journal.entries == old(journal.entries) + ExecuteSettersFrom(tc, tc.setUpInfo.value, order, 0).entries
        && stop == ExecuteSettersFrom(tc, tc.setUpInfo.value, order, 0).stop
    {
      order := [];
      if tc.setUpInfo.None? {
        return None, order;
      }
      var setUpInfo := tc.setUpInfo.value;
      var keys := KeySet(setUpInfo);
      order := keys;
      ghost var done: seq<Entry> := [];
      var i := 0;
      while i < |keys|
        invariant 0 <= i <= |keys|
        invariant ExecuteSettersFrom(tc, setUpInfo, keys, 0) == Then(done, ExecuteSettersFrom(tc, setUpInfo, keys, i))
        invariant journal.entries == old(journal.entries) + done
      {
        ghost var step := ExecuteSetterStep(tc, keys[i], setUpInfo.entries[keys[i]]);
        var s := InvokeTestExecuteSetter(tc, keys[i], setUpInfo.entries[keys[i]]);
        SettersUnfold(tc, setUpInfo, keys, i, done);
        Appended(old(journal.entries), done, step.entries);
        done := done + step.entries;
        if s.Some? {
          return s, order;
        }
        i := i + 1;
      }
      stop := None;
    }

    /** `runExecutePhase`: the execute setters, then `execute`. */
    method RunExecutePhase(tc: TestCase) returns (stop: Option<CaseStop>, ghost order: seq<string>)
      modifies journal
      ensures tc.setUpInfo.Some? ==> KeyOrder(order, tc.setUpInfo.value.entries)
      ensures journal.entries == old(journal.entries) + ExecutePhase(tc, order).entries
      ensures stop == ExecutePhase(tc, order).stop
    {
      stop, order := InvokeTestExecuteSetters(tc);
      if stop.Some? {
        return;
      }
      ghost var setters := if tc.setUpInfo.Some? then ExecuteSettersFrom(tc, tc.setUpInfo.value, order, 0).entries else [];
      journal.Record(ExecuteRan(tc.id));
      Appended(old(journal.entries), setters, [ExecuteRan(tc.id)]);
      if tc.behaviour.execute.Some? {
        stop := Some(ErrorCase(tc.behaviour.execute.value));
      }
    }

    /** One iteration of the setter loop of `runTest`. */
    method ApplyTestSetter(tc: TestCase, testId: string, argName: string, argValue: Value) returns (stop: Option<TestResult>)
      modifies journal
      ensures journal.entries == old(journal.entries) + TestSetterStep(tc, testId, argName, argValue).entries
      ensures stop == TestSetterStep(tc, testId, argName, argValue).stop
    {
      var setterMethod := SetterName(argName);
      if setterMethod.None? {
        return Some(TestFailed(Some(INDEX_MESSAGE)));
      }
      var name := setterMethod.value;
      var b := tc.behaviour;
      if (name, argValue.kindClass) !in b.setters {
        return Some(TestErrored(Internal(Some(TestingPhase), "Failed to find test setter method [" + name + "] in test case [" + tc.id + "]")));
      }
      if !b.setters[(name, argValue.kindClass)].testSetter {
        return Some(TestErrored(Internal(Some(TestingPhase), Describe(Throwable(ILLEGAL_ACCESS_EXCEPTION, Some(UnmarkedTestSetterMessage(testId, name)))))));
      }
      journal.Record(TestSetterRan(tc.id, testId, name));
      if (name, argValue) in b.throwing {
        return Some(TestErrored(Internal(Some(TestingPhase), "Failed to invoke test setter method [" + name + "] in test case [" + tc.id + "]")));
      }
      stop := None;
    }

    /** The setter loop of `runTest`. */
    method RunTestSetters(tc: TestCase, test: TestDescriptor, keys: seq<string>) returns (stop: Option<TestResult>)
      requires KeyOrder(keys, test.arguments.entries)
      modifies journal
      ensures journal.entries == old(journal.entries) + TestSettersFrom(tc, test, keys, 0).entries
      ensures stop == TestSettersFrom(tc, test, keys, 0).stop
    {
      ghost var done: seq<Entry> := [];
      var i := 0;
      while i < |keys|
        invariant 0 <= i <= |keys|
        invariant TestSettersFrom(tc, test, keys, 0) == Then(done, TestSettersFrom(tc, test, keys, i))
        invariant journal.entries == old(journal.entries) + done
      {
        ghost var step := TestSetterStep(tc, test.id, keys[i], test.arguments.entries[keys[i]]);
        var s := ApplyTestSetter(tc, test.id, keys[i], test.arguments.entries[keys[i]]);
        TestSettersUnfold(tc, test, keys, i, done);
        Appended(old(journal.entries), done, step.entries);
        done := done + step.entries;
        if s.Some? {
          return s;
        }
        i := i + 1;
      }
      stop := None;
    }

    /** `runTest` and the handler around it: how one test ends. */
    method RunTest(tc: TestCase, test: TestDescriptor) returns (result: TestResult, ghost order: seq<string>)
      modifies journal
      ensures KeyOrder(order, test.arguments.entries)
      ensures journal.entries == old(journal.entries) + TestBody(tc, test, order).entries
      ensures result == TestBody(tc, test, order).stop.value
    {
      var keys := KeySet(test.arguments);
      order := keys;
      var stop := RunTestSetters(tc, test, keys);
      if stop.Some? {
        return stop.value, order;
      }
      ghost var setters := TestSettersFrom(tc, test, keys, 0).entries;
      var testMethodName := TestMethodName(test.id);
      if testMethodName.None? {
        return TestFailed(Some(INDEX_MESSAGE)), order;
      }
      var name := testMethodName.value;
      var b := tc.behaviour;
      if name !in b.testMethods {
        return TestErrored(Internal(Some(TestingPhase), "Failed to find test method [" + name + "] in test case [" + tc.id + "]")), order;
      }
      if !b.testMethods[name] {
        return TestErrored(Internal(Some(TestingPhase), Describe(Throwable(ILLEGAL_ACCESS_EXCEPTION, Some(UnmarkedTestMessage(test.id, name)))))), order;
      }
      journal.Record(TestMethodRan(tc.id, test.id, name));
      Appended(old(journal.entries), setters, [TestMethodRan(tc.id, test.id, name)]);
      match b.check(name, test.arguments) {
        case Passes => result := TestPassed;
        case FailsAssertion(msg) => result := TestFailed(msg);
        case Throws(_) => result := TestErrored(Internal(Some(TestingPhase), "Failed to invoke test method [" + name + "] in test case [" + tc.id + "]"));
      }
    }

    /** One iteration of `runTestPhase`: report the start, run the test, report how it ended. */
    method RunOneTest(tc: TestCase, test: TestDescriptor) returns (passed: bool, ghost order: seq<string>)
      modifies journal
      ensures KeyOrder(order, test.arguments.entries)
      ensures journal.entries == old(journal.entries) + TestRun(tc, test, order)
      ensures passed == TestBody(tc, test, order).stop.value.TestPassed?
    {
      journal.Record(Call(StartingTest(test.id)));
      var result;
      result, order := RunTest(tc, test);
      Appended(old(journal.entries), [Call(StartingTest(test.id))], TestBody(tc, test, order).entries);
      journal.Record(Call(TestEnd(test.id, result)));
      Appended(old(journal.entries), [Call(StartingTest(test.id))] + TestBody(tc, test, order).entries, [Call(TestEnd(test.id, result))]);
      passed := result.TestPassed?;
    }

    /** `runTestPhase`: every test in list order, each reported as it starts and as it ends. */
    method RunTestPhase(tc: TestCase) returns (allTestsPassed: bool, ghost orders: seq<seq<string>>)
      modifies journal
      ensures TestOrders(tc, orders) && |orders| == |tc.tests|
      ensures journal.entries == old(journal.entries) + TestPhaseOf(tc, orders).entries
      ensures allTestsPassed == TestPhaseOf(tc, orders).passed
    {
      allTestsPassed := true;
      orders := [];
      var i := 0;
      while i < |tc.tests|
        invariant 0 <= i <= |tc.tests| && |orders| == i && TestOrders(tc, orders)
        invariant journal.entries == old(journal.entries) + TestPhaseOf(tc, orders).entries
        invariant allTestsPassed == TestPhaseOf(tc, orders).passed
      {
        ghost var before := TestPhaseOf(tc, orders).entries;
        var passed, order := RunOneTest(tc, tc.tests[i]);
        Appended(old(journal.entries), before, TestRun(tc, tc.tests[i], order));
        if !passed {
          allTestsPassed := false;
        }
        TestPhaseSnoc(tc, orders, order);
        orders := orders + [order];
        i := i + 1;
      }
    }

    /** The test phase, tear down and the verdict. */
    method FinishCase(tc: TestCase) returns (outcome: RunOutcome, ghost orders: seq<seq<string>>)
      modifies journal
      ensures TestOrders(tc, orders) && |orders| == |tc.tests|
      ensures journal.entries == old(journal.entries) + Verdict(tc, TestPhaseOf(tc, orders)).entries
      ensures outcome == Verdict(tc, TestPhaseOf(tc, orders)).outcome
    {
      var allTestsPassed;
      allTestsPassed, orders := RunTestPhase(tc);
      ghost var tests := TestPhaseOf(tc, orders).entries;
      journal.Record(TearDownRan(tc.id));
      if allTestsPassed {
        journal.Record(Call(PassedTestCase(tc.id)));
        AppendedTwo(old(journal.entries), tests, TearDownRan(tc.id), Call(PassedTestCase(tc.id)));
      } else {
        journal.Record(Call(FailedTestCase(tc.id)));
        AppendedTwo(old(journal.entries), tests, TearDownRan(tc.id), Call(FailedTestCase(tc.id)));
      }
      outcome := Returned(allTestsPassed);
    }

    /** `run` once `setUp` has returned: the execute phase, then the test phase; tear down in either case. */
    method RunAfterSetUp(tc: TestCase) returns (outcome: RunOutcome, ghost orders: KeyOrders)
      modifies journal
      ensures Fits(tc, orders)
      ensures journal.entries == old(journal.entries) + AfterSetUp(tc, orders).entries
      ensures outcome == AfterSetUp(tc, orders).outcome
    {
      var stop, order := RunExecutePhase(tc);
      ghost var exec := ExecutePhase(tc, order).entries;
      if stop.Some? {
        orders := SomeKeyOrders(tc).(setUp := order);
        match stop.value {
          case ErrorCase(cause) =>
            journal.Record(Call(ErrorTestCase(tc.id, cause)));
            journal.Record(TearDownRan(tc.id));
            AppendedTwo(old(journal.entries), exec, Call(ErrorTestCase(tc.id, cause)), TearDownRan(tc.id));
            return Returned(false), orders;
          case Escape(thr) =>
            journal.Record(TearDownRan(tc.id));
            Appended(old(journal.entries), exec, [TearDownRan(tc.id)]);
            return Threw(thr), orders;
        }
      }
      ghost var testOrders;
      outcome, testOrders := FinishCase(tc);
      Appended(old(journal.entries), exec, Verdict(tc, TestPhaseOf(tc, testOrders)).entries);
      orders := KeyOrders(order, testOrders);
    }

    /** `run`. */
    method Run() returns (outcome: RunOutcome, ghost orders: KeyOrders)
      requires testCase.Some?
      modifies journal
      ensures Fits(testCase.value, orders)
      ensures journal.entries == old(journal.entries) + CaseRun(testCase.value, orders).entries
      ensures outcome == CaseRun(testCase.value, orders).outcome
    {
      outcome, orders := RunCase(testCase.value);
    }

    /** The case reported as starting, then `setUp`. */
    method OpenCase(tc: TestCase)
      modifies journal
      ensures journal.entries == old(journal.entries) + Opening(tc)
    {
      journal.Record(Call(StartingTestCase(tc.id, Some(tc.description))));
      journal.Record(SetUpRan(tc.id));
      AppendedTwo(old(journal.entries), [], Call(StartingTestCase(tc.id, Some(tc.description))), SetUpRan(tc.id));
    }

    /** The body of `run` for the case `tc`. */
    method RunCase(tc: TestCase) returns (outcome: RunOutcome, ghost orders: KeyOrders)
      modifies journal
      ensures Fits(tc, orders)
      ensures journal.entries == old(journal.entries) + CaseRun(tc, orders).entries
      ensures outcome == CaseRun(tc, orders).outcome
    {
      OpenCase(tc);
      if tc.behaviour.setUp.Some? {
        var error := Call(ErrorTestCase(tc.id, tc.behaviour.setUp.value));
        journal.Record(error);
        Appended(old(journal.entries), Opening(tc), [error]);
        orders := SomeKeyOrders(tc);
        SetUpFailureRecord(tc, orders);
        return Returned(false), orders;
      }
      outcome, orders := RunAfterSetUp(tc);
      Appended(old(journal.entries), Opening(tc), AfterSetUp(tc, orders).entries);
      SetUpRecord(tc, orders);
    }
  }
}
