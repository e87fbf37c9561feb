/**
 * The report facade: every reporting call of the test harness becomes one
 * test event handed to the subject.
 */
module Reporting {
  import opened Common
  import opened Events

  /** One call of the `IReportFacade` interface, other than `setComponent`. */
  datatype ReportCall =
    | Started(msg: Option<string>)
    | Finished(msg: Option<string>)
    | StartingComponent
    | PassedComponent
    | FailedComponent
    | StartingTestSuiteSetUp(suiteId: string)
    | FinishedTestSuiteSetUp(suiteId: string)
    | ErrorTestSuiteSetUp(suiteId: string, thr: Throwable)
    | StartingTestSuite(suiteId: string)
    | PassedTestSuite(suiteId: string)
    | FailedTestSuite(suiteId: string)
    | ErrorTestSuite(suiteId: string, thr: Throwable)
    | StartingTestCase(caseId: string, desc: Option<string>)
    | PassedTestCase(caseId: string)
    | FailedTestCase(caseId: string)
    | ErrorTestCase(caseId: string, thr: Throwable)
    | StartingTest(testId: string)
    | PassedTest(testId: string)
    | FailedTest(testId: string, msg: Option<string>)
    | ErrorTest(testId: string, thr: Throwable)

  /** The arguments `sendEventObject` receives for each facade call. */
  function EventOf(c: ReportCall): (e: TestEvent)
  {
    match c
    case Started(msg) => TestEvent(Events.Started, None, None, msg, false)
    case Finished(msg) => TestEvent(Events.Finished, None, None, msg, false)
    case StartingComponent => TestEvent(ComponentStarted, None, None, None, false)
    case PassedComponent => TestEvent(ComponentFinished, None, None, None, false)
    case FailedComponent => TestEvent(ComponentFinished, None, None, None, true)
    case StartingTestSuiteSetUp(id) => TestEvent(PreTestSuiteConfig, None, Some(id), None, false)
    case FinishedTestSuiteSetUp(id) => TestEvent(PostTestSuiteConfig, None, Some(id), None, false)
    case ErrorTestSuiteSetUp(id, thr) => TestEvent(PostTestSuiteConfig, Some(thr), Some(id), None, true)
    case StartingTestSuite(id) => TestEvent(TestSuiteStarted, None, Some(id), None, false)
    case PassedTestSuite(id) => SuiteFinished(id, false, None)
    case FailedTestSuite(id) => SuiteFinished(id, true, None)
    case ErrorTestSuite(id, thr) => SuiteFinished(id, true, Some(thr))
    case StartingTestCase(id, desc) => TestEvent(TestCaseStarted, None, Some(id), desc, false)
    case PassedTestCase(id) => CaseFinished(id, false, None)
    case FailedTestCase(id) => CaseFinished(id, true, None)
    case ErrorTestCase(id, thr) => CaseFinished(id, true, Some(thr))
    case StartingTest(id) => TestEvent(Events.TestStarted, None, Some(id), None, false)
    case PassedTest(id) => TestDone(id, None, false, None)
    case FailedTest(id, msg) => TestDone(id, msg, true, None)
    case ErrorTest(id, thr) => TestDone(id, None, true, Some(thr))
  }

  function SuiteFinished(id: string, failed: bool, thr: Option<Throwable>): TestEvent
  {
    TestEvent(TestSuiteFinished, thr, Some(id), None, failed)
  }

  function CaseFinished(id: string, failed: bool, thr: Option<Throwable>): TestEvent
  {
    TestEvent(TestCaseFinished, thr, Some(id), None, failed)
  }

  function TestDone(id: string, msg: Option<string>, failed: bool, thr: Option<Throwable>): TestEvent
  {
    TestEvent(TestFinished, thr, Some(id), msg, failed)
  }

  /**
   * Reads an event back as the facade call that emits it; `None` for an event
   * no facade call produces.
   */
  function CallOf(e: TestEvent): (r: Option<ReportCall>)
  {
    match e.kind
    case Started =>
      if e.throwable.None? && e.id.None? && !e.isFailure then Some(ReportCall.Started(e.description)) else None
    case Finished =>
      if e.throwable.None? && e.id.None? && !e.isFailure then Some(ReportCall.Finished(e.description)) else None
    case ComponentStarted =>
      if e.throwable.None? && e.id.None? && e.description.None? && !e.isFailure then Some(StartingComponent) else None
    case ComponentFinished =>
      if e.throwable.None? && e.id.None? && e.description.None? then
        Some(if e.isFailure then FailedComponent else PassedComponent)
      else None
    case PreTestSuiteConfig =>
      if e.throwable.None? && e.id.Some? && e.description.None? && !e.isFailure then Some(StartingTestSuiteSetUp(e.id.value)) else None
    case PostTestSuiteConfig =>
      if e.id.None? || e.description.Some? then None
      else if e.throwable.None? && !e.isFailure then Some(FinishedTestSuiteSetUp(e.id.value))
      else if e.throwable.Some? && e.isFailure then Some(ErrorTestSuiteSetUp(e.id.value, e.throwable.value))
      else None
    case TestSuiteStarted =>
      if e.throwable.None? && e.id.Some? && e.description.None? && !e.isFailure then Some(StartingTestSuite(e.id.value)) else None
    case TestSuiteFinished =>
      if e.id.None? || e.description.Some? then None
      else if e.throwable.None? then
        Some(if e.isFailure then FailedTestSuite(e.id.value) else PassedTestSuite(e.id.value))
      else if e.isFailure then Some(ErrorTestSuite(e.id.value, e.throwable.value))
      else None
    case TestCaseStarted =>
      if e.throwable.None? && e.id.Some? && !e.isFailure then Some(StartingTestCase(e.id.value, e.description)) else None
    case TestCaseFinished =>
      if e.id.None? || e.description.Some? then None
      else if e.throwable.None? then
        Some(if e.isFailure then FailedTestCase(e.id.value) else PassedTestCase(e.id.value))
      else if e.isFailure then Some(ErrorTestCase(e.id.value, e.throwable.value))
      else None
    case TestStarted =>
      if e.throwable.None? && e.id.Some? && e.description.None? && !e.isFailure then Some(StartingTest(e.id.value)) else None
    case TestFinished =>
      if e.id.None? then None
      else if e.throwable.None? && e.isFailure then Some(FailedTest(e.id.value, e.description))
      else if e.throwable.None? && e.description.None? then Some(PassedTest(e.id.value))
      else if e.throwable.Some? && e.description.None? && e.isFailure then Some(ErrorTest(e.id.value, e.throwable.value))
      else None
  }

  /** The event of a call identifies the call: no two facade calls emit the same event. */
  lemma EventIdentifiesCall(c: ReportCall)
    ensures CallOf(EventOf(c)) == Some(c)
  {
  }

  lemma EventOfInjective(c: ReportCall, d: ReportCall)
    requires EventOf(c) == EventOf(d)
    ensures c == d
  {
    EventIdentifiesCall(c);
    EventIdentifiesCall(d);
  }

  /** The three ends of a test case share one event kind; failure and throwable tell them apart. */
  lemma TestCaseOutcomes(id: string, thr: Throwable)
    ensures EventOf(PassedTestCase(id)) == TestEvent(TestCaseFinished, None, Some(id), None, false)
    ensures EventOf(FailedTestCase(id)) == TestEvent(TestCaseFinished, None, Some(id), None, true)
    ensures EventOf(ErrorTestCase(id, thr)) == TestEvent(TestCaseFinished, Some(thr), Some(id), None, true)
  {
  }

  /** A failed test reports its message as the description; an errored one reports the throwable instead. */
  lemma TestOutcomes(id: string, msg: Option<string>, thr: Throwable)
    ensures EventOf(FailedTest(id, msg)) == TestEvent(TestFinished, None, Some(id), msg, true)
    ensures EventOf(ErrorTest(id, thr)) == TestEvent(TestFinished, Some(thr), Some(id), None, true)
    ensures EventOf(PassedTest(id)) == TestEvent(TestFinished, None, Some(id), None, false)
  {
  }

  /** Which calls report a failure, and which events carry a throwable. */
  lemma FailureAndThrowable(c: ReportCall)
    ensures EventOf(c).isFailure <==>
      c.FailedComponent? || c.ErrorTestSuiteSetUp? || c.FailedTestSuite? || c.ErrorTestSuite? ||
      c.FailedTestCase? || c.ErrorTestCase? || c.FailedTest? || c.ErrorTest?
    ensures EventOf(c).throwable.Some? <==>
      c.ErrorTestSuiteSetUp? || c.ErrorTestSuite? || c.ErrorTestCase? || c.ErrorTest?
    ensures EventOf(c).throwable.Some? ==> EventOf(c).throwable.value == c.thr
  {
  }

  /** `TRReportFacade`: forwards each call to its subject as one event. */
  class ReportFacade {
    const subject: TestSubject

    constructor(subject: TestSubject)
      ensures this.subject == subject
    {
      this.subject := subject;
    }

    /** `setComponent`: every attached reporter is told the component name. */
    method SetComponent(component: Option<string>) returns (ghost order: seq<Reporter>)
      modifies subject
      ensures subject.observers == old(subject.observers) && subject.reporters == old(subject.reporters)
      ensures Distinct(order) && Elements(order) == subject.reporters
      ensures subject.deliveries == old(subject.deliveries) + ComponentFor(order, component)
    {
      order := subject.SetComponent(component);
    }

    /** Any other facade call: exactly one event, handed to every attached reporter. */
    method Report(c: ReportCall)
      modifies subject
      ensures subject.observers == old(subject.observers) && subject.reporters == old(subject.reporters)
      ensures subject.deliveries == old(subject.deliveries) + UpdatesFor(subject.observers, EventOf(c))
    {
      subject.NotifyReporters(Some(EventOf(c)));
    }
  }
}
