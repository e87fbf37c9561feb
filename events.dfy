/**
 * Test events and the subject that hands them to the attached reporters.
 *
 * A reporter (an `IEventObserver`) is foreign code; the model identifies it by
 * a number and records what it receives, in order, as a log of deliveries.
 * The subject wraps every reporter in an `Observer` of its own; the wrapper
 * list of `java.util.Observable` is `observers`, the reporter-to-wrapper map
 * is represented by its key set `reporters`.
 */
module Events {
  import opened Common

  datatype TestEventKind =
    | Started | Finished
    | ComponentStarted | ComponentFinished
    | PreTestSuiteConfig | PostTestSuiteConfig
    | TestSuiteStarted | TestSuiteFinished
    | TestCaseStarted | TestCaseFinished
    | TestStarted | TestFinished

  /** A Java exception object: its class and its message. */
  datatype Throwable = Throwable(className: string, message: Option<string>)

  /** A `TRTestEvent` without its time stamp. */
  datatype TestEvent = TestEvent(
    kind: TestEventKind,
    throwable: Option<Throwable>,
    id: Option<string>,
    description: Option<string>,
    isFailure: bool)

  /** The identity of a reporter object. */
  type Reporter = nat

  /** One call the subject makes on a reporter. */
  datatype Delivery =
    | Update(reporter: Reporter, event: TestEvent)
    | ComponentName(reporter: Reporter, component: Option<string>)

  predicate Distinct(s: seq<Reporter>)
  {
    forall i, j | 0 <= i < j < |s| :: s[i] != s[j]
  }

  function Elements(s: seq<Reporter>): set<Reporter>
  {
    set i | 0 <= i < |s| :: s[i]
  }

  /** `Vector.removeElement`: the list without the first occurrence of `r`. */
  function Without(s: seq<Reporter>, r: Reporter): seq<Reporter>
  {
    if s == [] then []
    else if s[0] == r then s[1..]
    else [s[0]] + Without(s[1..], r)
  }

  /**
   * `notifyObservers` as `java.util.Observable` implements it: every wrapper
   * in the list, from the last attached to the first, passes the event on.
   */
  function UpdatesFor(observers: seq<Reporter>, e: TestEvent): seq<Delivery>
  {
    if observers == [] then []
    else [Update(observers[|observers| - 1], e)] + UpdatesFor(observers[..|observers| - 1], e)
  }

  /** The component name handed to each reporter of `order`, in that order. */
  function ComponentFor(order: seq<Reporter>, component: Option<string>): seq<Delivery>
  {
    if order == [] then [] else ComponentFor(order[..|order| - 1], component) + [ComponentName(order[|order| - 1], component)]
  }

  /** Distinct reporters are as many as their set has elements. */
  lemma {:induction false} DistinctCount(s: seq<Reporter>)
    requires Distinct(s)
    ensures |Elements(s)| == |s|
  {
    if s != [] {
      var init := s[..|s| - 1];
      DistinctCount(init);
      assert Elements(s) == Elements(init) + {s[|s| - 1]};
      assert s[|s| - 1] !in Elements(init);
    }
  }

  /** Attaching a reporter not yet attached keeps the wrappers distinct. */
  lemma AppendDistinct(s: seq<Reporter>, r: Reporter)
    requires Distinct(s) && r !in Elements(s)
    ensures Distinct(s + [r]) && Elements(s + [r]) == Elements(s) + {r}
  {
    var t := s + [r];
    forall x | x in Elements(t)
      ensures x in Elements(s) + {r}
    {
      var i :| 0 <= i < |t| && t[i] == x;
      if i < |s| {
        assert s[i] == x;
      }
    }
    forall x | x in Elements(s)
      ensures x in Elements(t)
    {
      var i :| 0 <= i < |s| && s[i] == x;
      assert t[i] == x;
    }
    assert t[|s|] == r;
  }

  lemma ElementsCons(x: Reporter, s: seq<Reporter>)
    ensures Elements([x] + s) == {x} + Elements(s)
  {
    var t := [x] + s;
    forall y | y in Elements(t)
      ensures y in {x} + Elements(s)
    {
      var i :| 0 <= i < |t| && t[i] == y;
      if i > 0 {
        assert s[i - 1] == y;
      }
    }
    forall y | y in Elements(s)
      ensures y in Elements(t)
    {
      var i :| 0 <= i < |s| && s[i] == y;
      assert t[i + 1] == y;
    }
    assert t[0] == x;
  }

  /** Removing a reporter from a distinct list removes exactly that reporter. */
  lemma {:induction false} WithoutRemoves(s: seq<Reporter>, r: Reporter)
    requires Distinct(s)
    ensures Distinct(Without(s, r)) && Elements(Without(s, r)) == Elements(s) - {r}
    ensures r in Elements(s) ==> |Without(s, r)| == |s| - 1
    ensures r !in Elements(s) ==> Without(s, r) == s
  {
    if s != [] {
      var tail := s[1..];
      assert Distinct(tail);
      assert Elements(s) == {s[0]} + Elements(tail);
      assert s[0] !in Elements(tail);
      if s[0] != r {
        WithoutRemoves(tail, r);
        var w := Without(tail, r);
        assert Without(s, r) == [s[0]] + w;
        ElementsCons(s[0], w);
        assert r in Elements(s) ==> r in Elements(tail);
        assert r !in Elements(s) ==> w == tail;
        forall i, j | 0 <= i < j < |[s[0]] + w|
          ensures ([s[0]] + w)[i] != ([s[0]] + w)[j]
        {
          if i == 0 {
            assert ([s[0]] + w)[j] == w[j - 1];
            assert w[j - 1] in Elements(w);
          }
        }
      }
    }
  }

  /**
   * Reference form of a notification: the `i`-th delivery goes to the
   * `i`-th wrapper counted from the last attached, and carries the event.
   */
  lemma {:induction false} UpdatesForIndexed(observers: seq<Reporter>, e: TestEvent)
    ensures |UpdatesFor(observers, e)| == |observers|
    ensures forall i | 0 <= i < |observers| :: UpdatesFor(observers, e)[i] == Update(observers[|observers| - 1 - i], e)
  {
    if observers != [] {
      var init := observers[..|observers| - 1];
      UpdatesForIndexed(init, e);
      forall i | 1 <= i < |observers|
        ensures UpdatesFor(observers, e)[i] == Update(observers[|observers| - 1 - i], e)
      {
        assert UpdatesFor(observers, e)[i] == UpdatesFor(init, e)[i - 1];
        assert init[|init| - 1 - (i - 1)] == observers[|observers| - 1 - i];
      }
    }
  }

  /** Every attached reporter receives the event; nobody else does. */
  lemma EveryReporterUpdated(observers: seq<Reporter>, e: TestEvent, r: Reporter)
    ensures Update(r, e) in UpdatesFor(observers, e) <==> r in Elements(observers)
    ensures forall d | d in UpdatesFor(observers, e) :: d.Update? && d.event == e
  {
    UpdatesForIndexed(observers, e);
    var u := UpdatesFor(observers, e);
    if r in Elements(observers) {
      var i :| 0 <= i < |observers| && observers[i] == r;
      assert u[|observers| - 1 - i] == Update(r, e);
    }
    if Update(r, e) in u {
      var k :| 0 <= k < |u| && u[k] == Update(r, e);
      assert observers[|observers| - 1 - k] == r;
    }
  }

  /** With distinct wrappers, each attached reporter receives the event exactly once. */
  lemma UpdatedOnce(observers: seq<Reporter>, e: TestEvent, i: nat, j: nat)
    requires Distinct(observers)
    requires i < |UpdatesFor(observers, e)| && j < |UpdatesFor(observers, e)|
    requires UpdatesFor(observers, e)[i] == UpdatesFor(observers, e)[j]
    ensures i == j
  {
    UpdatesForIndexed(observers, e);
  }

  lemma ComponentForSnoc(order: seq<Reporter>, r: Reporter, component: Option<string>)
    ensures ComponentFor(order + [r], component) == ComponentFor(order, component) + [ComponentName(r, component)]
  {
    assert (order + [r])[..|order|] == order;
  }

  /** `TRTestSubject`: the reporters attached, and everything delivered to them. */
  class TestSubject {
    var observers: seq<Reporter>
    var reporters: set<Reporter>
    var deliveries: seq<Delivery>

    /** The assertion the source checks after every change: one wrapper per attached reporter. */
    ghost predicate Valid()
      reads this
    {
      Distinct(observers) && reporters == Elements(observers)
    }

    constructor()
      ensures Valid()
      ensures observers == [] && reporters == {} && deliveries == []
    {
      observers := [];
      reporters := {};
      deliveries := [];
    }

    /** Wraps `reporter` in a new observer and registers both; a reporter is attached at most once. */
    method AttachReporter(reporter: Reporter)
      requires Valid() && reporter !in reporters
      modifies this
      ensures Valid()
      ensures observers == old(observers) + [reporter]
      ensures reporters == old(reporters) + {reporter}
      ensures deliveries == old(deliveries)
    {
      AppendDistinct(observers, reporter);
      observers := observers + [reporter];
      reporters := reporters + {reporter};
    }

    /** Removes the reporter and its wrapper if it is attached; otherwise nothing changes. */
    method DetachReporter(reporter: Reporter)
      requires Valid()
      modifies this
      ensures Valid()
      ensures observers == Without(old(observers), reporter)
      ensures reporters == old(reporters) - {reporter}
      ensures deliveries == old(deliveries)
    {
      WithoutRemoves(observers, reporter);
      if reporter in reporters {
        observers := Without(observers, reporter);
        reporters := reporters - {reporter};
      }
    }

    /** The number of wrappers, which equals the number of attached reporters. */
    method NumberOfReporters() returns (n: nat)
      requires Valid()
      ensures n == |reporters| && n == |observers|
    {
      DistinctCount(observers);
      n := |observers|;
    }

    /**
     * Notifies every wrapper; a wrapper passes the event to its reporter only
     * when it is a `TRTestEvent`, which a null event is not.
     */
    method NotifyReporters(event: Option<TestEvent>)
      modifies this
      ensures observers == old(observers) && reporters == old(reporters)
      ensures deliveries == old(deliveries) + (if event.Some? then UpdatesFor(observers, event.value) else [])
    {
      if event.None? {
        return;
      }
      var e := event.value;
      var snapshot := observers;
      var i := |snapshot|;
      ghost var start := deliveries;
      assert snapshot[..i] == snapshot;
      while i > 0
        invariant 0 <= i <= |snapshot|
        invariant observers == snapshot && reporters == old(reporters)
        invariant start + UpdatesFor(snapshot, e) == deliveries + UpdatesFor(snapshot[..i], e)
      {
        assert snapshot[..i][..i - 1] == snapshot[..i - 1];
        deliveries := deliveries + [Update(snapshot[i - 1], e)];
        i := i - 1;
      }
      assert deliveries == start + UpdatesFor(snapshot, e);
    }

    /**
     * Hands the component name to every attached reporter, in the unspecified
     * order of the map's key set; `order` is the order taken.
     */
    method SetComponent(component: Option<string>) returns (ghost order: seq<Reporter>)
      modifies this
      ensures observers == old(observers) && reporters == old(reporters)
      ensures Distinct(order) && Elements(order) == reporters
      ensures deliveries == old(deliveries) + ComponentFor(order, component)
    {
      var remaining := reporters;
      order := [];
      while remaining != {}
        invariant remaining <= old(reporters) && reporters == old(reporters) && observers == old(observers)
        invariant Distinct(order) && Elements(order) == old(reporters) - remaining
        invariant deliveries == old(deliveries) + ComponentFor(order, component)
        decreases remaining
      {
        var reporter :| reporter in remaining;
        AppendDistinct(order, reporter);
        ComponentForSnoc(order, reporter, component);
        deliveries := deliveries + [ComponentName(reporter, component)];
        order := order + [reporter];
        remaining := remaining - {reporter};
      }
    }
  }

  /** Attaching and then detaching a reporter restores the registry. */
  lemma DetachUndoesAttach(observers: seq<Reporter>, r: Reporter)
    requires Distinct(observers) && r !in Elements(observers)
    ensures Without(observers + [r], r) == observers
  {
    if observers != [] {
      assert (observers + [r])[0] == observers[0];
      assert (observers + [r])[1..] == observers[1..] + [r];
      assert observers[0] != r;
      DetachUndoesAttach(observers[1..], r);
    } else {
      assert [r][1..] == [];
    }
  }
}
