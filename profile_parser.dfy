/**
 * The profile parser: a SAX handler that builds one capability symbol per
 * `capability` element, files its tests, arguments and environment variables
 * under it, records required environment variables that the process
 * environment lacks, and stores each completed capability in the symbol table
 * under its id.
 */
module ProfileParser {
  import opened Common
  import opened Symbols
  import opened ProfileErrors

  const TAG_CAPABILITY := "capability"
  const TAG_TEST := "test"
  const TAG_ARGUMENTS := "arguments"
  const TAG_ARGUMENT := "argument"
  const TAG_ENVIRONMENT := "environment"
  const TAG_VARIABLE := "variable"
  const TAG_EXISTS := "exists"
  const ATTR_ID := "id"
  const ATTR_DESCRIPTION := "description"
  const ATTR_CLASS := "class"
  const ATTR_KIND := "kind"
  const ATTR_NAME := "name"
  const ATTR_VALUE := "value"

  /** The tags a profile defines; any other tag is ignored. */
  datatype ProfileTag = Capability | Test | Arguments | Argument | Environment | Variable | Exists | OtherTag

  function TagOf(name: string): (t: ProfileTag)
    ensures t == OtherTag <==> name !in {TAG_CAPABILITY, TAG_TEST, TAG_ARGUMENTS, TAG_ARGUMENT, TAG_ENVIRONMENT, TAG_VARIABLE, TAG_EXISTS}
    ensures t == Exists <==> name == TAG_EXISTS
    ensures t == Capability <==> name == TAG_CAPABILITY
  {
    if name == TAG_CAPABILITY then Capability
    else if name == TAG_TEST then Test
    else if name == TAG_ARGUMENTS then Arguments
    else if name == TAG_ARGUMENT then Argument
    else if name == TAG_ENVIRONMENT then Environment
    else if name == TAG_VARIABLE then Variable
    else if name == TAG_EXISTS then Exists
    else OtherTag
  }

  /** A present, non-empty attribute value. */
  predicate Filled(v: Option<string>)
  {
    v.Some? && |v.value| >= 1
  }

  /** The missing-environment record after an `exists` for `name`: the name is added once if the environment lacks it. */
  function NoteMissing(missing: seq<string>, name: string, env: map<string, string>): (r: seq<string>)
    ensures name in env || name in missing ==> r == missing
    ensures name !in env && name !in missing ==> r == missing + [name]
  {
    if name in env || name in missing then missing else missing + [name]
  }

  /** The effect of one event on the missing-environment record, when the event is accepted. */
  function NoteEvent(missing: seq<string>, ev: SaxEvent, env: map<string, string>): seq<string>
  {
    match ev
    case StartTag(name, attrs) =>
      if name == TAG_EXISTS && ATTR_NAME in attrs then NoteMissing(missing, attrs[ATTR_NAME], env) else missing
    case EndTag(_) => missing
  }

  /** The variables named by the `exists` tags of `events` that the environment lacks, each once, in document order. */
  function MissingIn(events: seq<SaxEvent>, env: map<string, string>): seq<string>
  {
    if events == [] then [] else NoteEvent(MissingIn(events[..|events| - 1], env), events[|events| - 1], env)
  }

  /** Each variable the record holds is absent from the environment, and none is recorded twice. */
  lemma {:induction false} MissingInDistinctAbsent(events: seq<SaxEvent>, env: map<string, string>)
    ensures forall i | 0 <= i < |MissingIn(events, env)| :: MissingIn(events, env)[i] !in env
    ensures forall i, j | 0 <= i < j < |MissingIn(events, env)| :: MissingIn(events, env)[i] != MissingIn(events, env)[j]
  {
    if events != [] {
      MissingInDistinctAbsent(events[..|events| - 1], env);
    }
  }

  /** A required variable that the environment lacks is recorded, however many `exists` tags name it. */
  lemma {:induction false} ExistsRecorded(events: seq<SaxEvent>, env: map<string, string>, k: nat)
    requires k < |events| && events[k].StartTag? && events[k].name == TAG_EXISTS && ATTR_NAME in events[k].attrs
    requires events[k].attrs[ATTR_NAME] !in env
    ensures events[k].attrs[ATTR_NAME] in MissingIn(events, env)
    decreases |events|
  {
    var last := |events| - 1;
    if k < last {
      ExistsRecorded(events[..last], env, k);
    }
  }

  /** A child without children of its own (an argument or an environment variable): its id and kind. */
  datatype Leaf = Leaf(id: string, kind: SymbolKind)

  /** A test as values: its id, the keys its children are filed under, and its arguments in order. */
  datatype TestSpec = TestSpec(id: string, keys: set<string>, arguments: seq<Leaf>)

  /** A capability as values: id, kind, the keys its children are filed under, and each context's children in order. */
  datatype CapabilitySpec = CapabilitySpec(
    id: string, kind: SymbolKind, keys: set<string>,
    tests: seq<TestSpec>, arguments: seq<Leaf>, environment: seq<Leaf>)

  /** Everything the handler knows, as values: what its fields hold and what the symbols they reach contain. */
  datatype ProfileState = ProfileState(
    table: map<string, CapabilitySpec>,
    capability: Option<CapabilitySpec>, test: Option<TestSpec>, argument: Option<Leaf>, environment: Option<Leaf>,
    missing: seq<string>,
    inCapability: bool, inTest: bool, inArguments: bool, inEnvironment: bool)

  const InitialProfile := ProfileState(map[], None, None, None, None, [], false, false, false, false)

  // What each handler does to the state, as a function of the state before it.

  function CapabilityOpened(attrs: map<string, string>, st: ProfileState): Result<ProfileState, ProfileError>
  {
    var id, desc, cls := Attr(attrs, ATTR_ID), Attr(attrs, ATTR_DESCRIPTION), Attr(attrs, ATTR_CLASS);
    if Filled(id) && Filled(desc) && Filled(cls) then
      Ok(st.(capability := Some(CapabilitySpec(id.value, CapabilityKind(desc.value, cls.value), {}, [], [], [])),
             inCapability := true))
    else
      Err(CapabilityIncomplete(id, desc, cls))
  }

  function CapabilityFiled(st: ProfileState): Result<ProfileState, ProfileError>
  {
    match st.capability
    case None => Err(NullPointer)
    case Some(cap) => Ok(st.(table := st.table[cap.id := cap], capability := None, inCapability := false))
  }

  function TestOpened(attrs: map<string, string>, st: ProfileState): Result<ProfileState, ProfileError>
  {
    var id := Attr(attrs, ATTR_ID);
    if Filled(id) then Ok(st.(test := Some(TestSpec(id.value, {}, [])), inTest := true)) else Err(TestIncomplete(id))
  }

  function TestFiled(st: ProfileState): Result<ProfileState, ProfileError>
  {
    if st.capability.None? || st.test.None? then Err(NullPointer)
    else
      var cap, test := st.capability.value, st.test.value;
      var key := Key(test.id, TEST_CONTEXT);
      if key in cap.keys then Err(DuplicateTest(cap.id, test.id))
      else Ok(st.(capability := Some(cap.(keys := cap.keys + {key}, tests := cap.tests + [test])), test := None, inTest := false))
  }

  function ArgumentOpened(attrs: map<string, string>, st: ProfileState): Result<ProfileState, ProfileError>
  {
    var id, kind := Attr(attrs, ATTR_ID), Attr(attrs, ATTR_KIND);
    if !st.inArguments then Err(UnexpectedOpening(TAG_ARGUMENT))
    else if Filled(id) && Filled(kind) then Ok(st.(argument := Some(Leaf(id.value, ArgumentKind(kind.value)))))
    else Err(ArgumentIncomplete(id, kind))
  }

  function ArgumentFiled(st: ProfileState): Result<ProfileState, ProfileError>
  {
    if st.argument.None? then Err(NullPointer)
    else if st.inTest then
      match st.test
      case None => Err(NullPointer)
      case Some(test) =>
        var key := Key(st.argument.value.id, ARGUMENT_CONTEXT);
        if key in test.keys then Err(DuplicateArgument(test.id, st.argument.value.id))
        else Ok(st.(test := Some(test.(keys := test.keys + {key}, arguments := test.arguments + [st.argument.value])), argument := None))
    else
      match st.capability
      case None => Err(NullPointer)
      case Some(cap) =>
        var key := Key(st.argument.value.id, ARGUMENT_CONTEXT);
        if key in cap.keys then
          (if st.test.None? then Err(NullPointer) else Err(DuplicateArgument(st.test.value.id, st.argument.value.id)))
        else Ok(st.(capability := Some(cap.(keys := cap.keys + {key}, arguments := cap.arguments + [st.argument.value])), argument := None))
  }

  function EnvironmentOpened(st: ProfileState): Result<ProfileState, ProfileError>
  {
    if !st.inCapability || st.inTest then Err(UnexpectedOpening(TAG_ENVIRONMENT)) else Ok(st.(inEnvironment := true))
  }

  function VariableOpened(attrs: map<string, string>, st: ProfileState): Result<ProfileState, ProfileError>
  {
    var name, value := Attr(attrs, ATTR_NAME), Attr(attrs, ATTR_VALUE);
    if !st.inEnvironment then Err(UnexpectedOpening(TAG_VARIABLE))
    else if Filled(name) && value.Some? then Ok(st.(environment := Some(Leaf(name.value, EnvironmentKind(value.value)))))
    else Err(VariableIncomplete(name, value))
  }

  function VariableFiled(st: ProfileState): Result<ProfileState, ProfileError>
  {
    if st.capability.None? || st.environment.None? then Err(NullPointer)
    else
      var cap, v := st.capability.value, st.environment.value;
      var key := Key(v.id, ENVIRONMENT_CONTEXT);
      if key in cap.keys then
        (if st.test.None? || st.argument.None? then Err(NullPointer) else Err(DuplicateVariable(st.test.value.id, st.argument.value.id)))
      else Ok(st.(capability := Some(cap.(keys := cap.keys + {key}, environment := cap.environment + [v])), environment := None))
  }

  function ExistsNoted(attrs: map<string, string>, st: ProfileState, env: map<string, string>): Result<ProfileState, ProfileError>
  {
    if !st.inEnvironment then Err(UnexpectedOpening(TAG_EXISTS))
    else if ATTR_NAME !in attrs then Err(MissingAttribute(ATTR_NAME, TAG_EXISTS))
    else if st.capability.None? then Err(NullPointer)
    else Ok(st.(missing := NoteMissing(st.missing, attrs[ATTR_NAME], env)))
  }

  /** An opening tag, by the tag's name; tags the profile does not define change nothing. */
  function Opened(st: ProfileState, name: string, attrs: map<string, string>, env: map<string, string>): Result<ProfileState, ProfileError>
  {
    match TagOf(name)
    case Capability => CapabilityOpened(attrs, st)
    case Test => TestOpened(attrs, st)
    case Arguments => Ok(st.(inArguments := true))
    case Argument => ArgumentOpened(attrs, st)
    case Environment => EnvironmentOpened(st)
    case Variable => VariableOpened(attrs, st)
    case Exists => ExistsNoted(attrs, st, env)
    case OtherTag => Ok(st)
  }

  /** A closing tag, by the tag's name; `exists` and tags the profile does not define change nothing. */
  function Closed(st: ProfileState, name: string): Result<ProfileState, ProfileError>
  {
    match TagOf(name)
    case Capability => CapabilityFiled(st)
    case Test => TestFiled(st)
    case Arguments => Ok(st.(inArguments := false))
    case Argument => ArgumentFiled(st)
    case Environment => Ok(st.(inEnvironment := false))
    case Variable => VariableFiled(st)
    case _ => Ok(st)
  }

  function ProfileStep(st: ProfileState, ev: SaxEvent, env: map<string, string>): Result<ProfileState, ProfileError>
  {
    match ev
    case StartTag(name, attrs) => Opened(st, name, attrs, env)
    case EndTag(name) => Closed(st, name)
  }

  /** The handler's state after the events, or the first rejection. */
  function ProfileRun(events: seq<SaxEvent>, env: map<string, string>): Result<ProfileState, ProfileError>
  {
    if events == [] then Ok(InitialProfile)
    else
      match ProfileRun(events[..|events| - 1], env)
      case Err(e) => Err(e)
      case Ok(st) => ProfileStep(st, events[|events| - 1], env)
  }

  /** A failed profile parse: the parser's exception, or a null reference escaping from the handler. */
  datatype ProfileFailure = Rejected(exception: ProfileParserException) | NullPointerThrown

  /**
   * What parsing the document yields: the table of capabilities, or the
   * failure. A rejection is wrapped in the parser's exception, a null
   * reference escapes as it is, and an accepted document with missing
   * variables fails with one exception naming all of them.
   */
  function ProfileOutcome(events: seq<SaxEvent>, env: map<string, string>): Result<map<string, CapabilitySpec>, ProfileFailure>
  {
    match ProfileRun(events, env)
    case Err(e) => if e == NullPointer then Err(NullPointerThrown) else Err(Rejected(WithCause(e)))
    case Ok(st) => if |st.missing| > 0 then Err(Rejected(WithMissing(st.missing))) else Ok(st.table)
  }

  /** Once an event is rejected, no later event matters. */
  lemma {:induction false} RejectionFinal(events: seq<SaxEvent>, env: map<string, string>, k: nat)
    requires k <= |events| && ProfileRun(events[..k], env).Err?
    ensures ProfileRun(events, env) == ProfileRun(events[..k], env)
    decreases |events| - k
  {
    if k < |events| {
      assert events[..k + 1][..k] == events[..k];
      RejectionFinal(events, env, k + 1);
    } else {
      assert events[..k] == events;
    }
  }

  /** An accepted opening tag changes the missing record exactly as the record of the events says. */
  lemma OpenedMissing(st: ProfileState, name: string, attrs: map<string, string>, env: map<string, string>)
    ensures Opened(st, name, attrs, env).Ok? ==> Opened(st, name, attrs, env).value.missing == NoteEvent(st.missing, StartTag(name, attrs), env)
  {
  }

  /** No closing tag changes the missing record. */
  lemma ClosedMissing(st: ProfileState, name: string)
    ensures Closed(st, name).Ok? ==> Closed(st, name).value.missing == st.missing
  {
  }

  /** An accepted run's missing record is the record of its events. */
  lemma {:induction false} RunMissing(events: seq<SaxEvent>, env: map<string, string>)
    ensures ProfileRun(events, env).Ok? ==> ProfileRun(events, env).value.missing == MissingIn(events, env)
  {
    if events != [] {
      RunMissing(events[..|events| - 1], env);
      if ProfileRun(events[..|events| - 1], env).Ok? {
        var st, ev := ProfileRun(events[..|events| - 1], env).value, events[|events| - 1];
        match ev {
          case StartTag(name, attrs) => OpenedMissing(st, name, attrs, env);
          case EndTag(name) => ClosedMissing(st, name);
        }
      }
    }
  }

  /** The keys children with these ids are filed under. */
  function LeafKeys(leaves: seq<Leaf>, context: string): set<string>
  {
    set l | l in leaves :: Key(l.id, context)
  }

  predicate DistinctLeaves(leaves: seq<Leaf>)
  {
    forall i, j | 0 <= i < j < |leaves| :: leaves[i].id != leaves[j].id
  }

  /** A test's keys are exactly its arguments' keys, and no two arguments share an id. */
  predicate TestConsistent(t: TestSpec)
  {
    t.keys == LeafKeys(t.arguments, ARGUMENT_CONTEXT) && DistinctLeaves(t.arguments)
    && forall a | a in t.arguments :: a.kind.ArgumentKind?
  }

  /**
   * A capability's keys are exactly its children's keys in their contexts;
   * no context lists two children with the same id; its tests are
   * consistent, its arguments arguments and its variables variables.
   */
  predicate CapabilityConsistent(c: CapabilitySpec)
  {
    c.kind.CapabilityKind?
    && c.keys == (set t | t in c.tests :: Key(t.id, TEST_CONTEXT)) + LeafKeys(c.arguments, ARGUMENT_CONTEXT) + LeafKeys(c.environment, ENVIRONMENT_CONTEXT)
    && (forall i, j | 0 <= i < j < |c.tests| :: c.tests[i].id != c.tests[j].id)
    && DistinctLeaves(c.arguments) && DistinctLeaves(c.environment)
    && (forall t | t in c.tests :: TestConsistent(t))
    && (forall a | a in c.arguments :: a.kind.ArgumentKind?)
    && (forall v | v in c.environment :: v.kind.EnvironmentKind?)
  }

  /** Every capability of the table is filed under its own id and is consistent. */
  predicate TableConsistent(table: map<string, CapabilitySpec>)
  {
    forall k | k in table :: table[k].id == k && CapabilityConsistent(table[k])
  }

  /** The open capability and test are consistent, and the open argument and variable have their kinds. */
  predicate OpenConsistent(cap: Option<CapabilitySpec>, test: Option<TestSpec>, argument: Option<Leaf>, environment: Option<Leaf>)
  {
    (cap.Some? ==> CapabilityConsistent(cap.value))
    && (test.Some? ==> TestConsistent(test.value))
    && (argument.Some? ==> argument.value.kind.ArgumentKind?)
    && (environment.Some? ==> environment.value.kind.EnvironmentKind?)
  }

  predicate ProfileConsistent(st: ProfileState)
  {
    TableConsistent(st.table) && OpenConsistent(st.capability, st.test, st.argument, st.environment)
  }

  lemma LeafKeysSnoc(leaves: seq<Leaf>, l: Leaf, context: string)
    ensures LeafKeys(leaves + [l], context) == LeafKeys(leaves, context) + {Key(l.id, context)}
  {
    assert forall x | x in leaves + [l] :: x in leaves || x == l;
  }

  /** A child whose key is new has an id no listed child has. */
  lemma DistinctSnoc(leaves: seq<Leaf>, l: Leaf, context: string)
    requires DistinctLeaves(leaves) && Key(l.id, context) !in LeafKeys(leaves, context)
    ensures DistinctLeaves(leaves + [l])
  {
    forall i | 0 <= i < |leaves|
      ensures leaves[i].id != l.id
    {
      assert leaves[i] in leaves;
    }
  }

  lemma CapabilityWithTest(cap: CapabilitySpec, test: TestSpec)
    requires CapabilityConsistent(cap) && TestConsistent(test) && Key(test.id, TEST_CONTEXT) !in cap.keys
    ensures CapabilityConsistent(cap.(keys := cap.keys + {Key(test.id, TEST_CONTEXT)}, tests := cap.tests + [test]))
  {
    var tests := cap.tests + [test];
    assert forall x | x in tests :: x in cap.tests || x == test;
    assert (set t | t in tests :: Key(t.id, TEST_CONTEXT)) == (set t | t in cap.tests :: Key(t.id, TEST_CONTEXT)) + {Key(test.id, TEST_CONTEXT)};
    forall i | 0 <= i < |cap.tests|
      ensures cap.tests[i].id != test.id
    {
      assert cap.tests[i] in cap.tests;
    }
  }

  lemma CapabilityWithArgument(cap: CapabilitySpec, a: Leaf)
    requires CapabilityConsistent(cap) && a.kind.ArgumentKind? && Key(a.id, ARGUMENT_CONTEXT) !in cap.keys
    ensures CapabilityConsistent(cap.(keys := cap.keys + {Key(a.id, ARGUMENT_CONTEXT)}, arguments := cap.arguments + [a]))
  {
    LeafKeysSnoc(cap.arguments, a, ARGUMENT_CONTEXT);
    DistinctSnoc(cap.arguments, a, ARGUMENT_CONTEXT);
  }

  lemma CapabilityWithVariable(cap: CapabilitySpec, v: Leaf)
    requires CapabilityConsistent(cap) && v.kind.EnvironmentKind? && Key(v.id, ENVIRONMENT_CONTEXT) !in cap.keys
    ensures CapabilityConsistent(cap.(keys := cap.keys + {Key(v.id, ENVIRONMENT_CONTEXT)}, environment := cap.environment + [v]))
  {
    LeafKeysSnoc(cap.environment, v, ENVIRONMENT_CONTEXT);
    DistinctSnoc(cap.environment, v, ENVIRONMENT_CONTEXT);
  }

  lemma TestWithArgument(test: TestSpec, a: Leaf)
    requires TestConsistent(test) && a.kind.ArgumentKind? && Key(a.id, ARGUMENT_CONTEXT) !in test.keys
    ensures TestConsistent(test.(keys := test.keys + {Key(a.id, ARGUMENT_CONTEXT)}, arguments := test.arguments + [a]))
  {
    LeafKeysSnoc(test.arguments, a, ARGUMENT_CONTEXT);
    DistinctSnoc(test.arguments, a, ARGUMENT_CONTEXT);
  }

  /** Opening a capability or a test starts an empty, consistent one. */
  lemma OpeningConsistent(st: ProfileState, attrs: map<string, string>)
    requires ProfileConsistent(st)
    ensures CapabilityOpened(attrs, st).Ok? ==> ProfileConsistent(CapabilityOpened(attrs, st).value)
    ensures TestOpened(attrs, st).Ok? ==> ProfileConsistent(TestOpened(attrs, st).value)
    ensures ArgumentOpened(attrs, st).Ok? ==> ProfileConsistent(ArgumentOpened(attrs, st).value)
    ensures VariableOpened(attrs, st).Ok? ==> ProfileConsistent(VariableOpened(attrs, st).value)
  {
  }

  /** A capability goes into the table under its own id. */
  lemma CapabilityFiledConsistent(st: ProfileState)
    requires ProfileConsistent(st)
    ensures CapabilityFiled(st).Ok? ==> ProfileConsistent(CapabilityFiled(st).value)
  {
  }

  /** A test is filed only under a new key. */
  lemma TestFiledConsistent(st: ProfileState)
    requires ProfileConsistent(st)
    ensures TestFiled(st).Ok? ==> ProfileConsistent(TestFiled(st).value)
  {
    if TestFiled(st).Ok? {
      CapabilityWithTest(st.capability.value, st.test.value);
    }
  }

  /** An argument is filed only under a new key of its owner. */
  lemma ArgumentFiledConsistent(st: ProfileState)
    requires ProfileConsistent(st)
    ensures ArgumentFiled(st).Ok? ==> ProfileConsistent(ArgumentFiled(st).value)
  {
    if ArgumentFiled(st).Ok? {
      if st.inTest {
        TestWithArgument(st.test.value, st.argument.value);
      } else {
        CapabilityWithArgument(st.capability.value, st.argument.value);
      }
    }
  }

  /** A variable is filed only under a new key. */
  lemma VariableFiledConsistent(st: ProfileState)
    requires ProfileConsistent(st)
    ensures VariableFiled(st).Ok? ==> ProfileConsistent(VariableFiled(st).value)
  {
    if VariableFiled(st).Ok? {
      CapabilityWithVariable(st.capability.value, st.environment.value);
    }
  }

  /** Every accepted opening tag keeps the state consistent. */
  lemma OpenedConsistent(st: ProfileState, name: string, attrs: map<string, string>, env: map<string, string>)
    requires ProfileConsistent(st)
    ensures Opened(st, name, attrs, env).Ok? ==> ProfileConsistent(Opened(st, name, attrs, env).value)
  {
    match TagOf(name)
    case Capability => OpeningConsistent(st, attrs);
    case Test => OpeningConsistent(st, attrs);
    case Argument => OpeningConsistent(st, attrs);
    case Variable => OpeningConsistent(st, attrs);
    case Exists =>
      var r := ExistsNoted(attrs, st, env);
      assert r.Ok? ==> (r.value.table == st.table && r.value.capability == st.capability && r.value.test == st.test
        && r.value.argument == st.argument && r.value.environment == st.environment);
    case _ =>
  }

  /** Every accepted closing tag keeps the state consistent. */
  lemma ClosedConsistent(st: ProfileState, name: string)
    requires ProfileConsistent(st)
    ensures Closed(st, name).Ok? ==> ProfileConsistent(Closed(st, name).value)
  {
    match TagOf(name)
    case Capability => CapabilityFiledConsistent(st);
    case Test => TestFiledConsistent(st);
    case Argument => ArgumentFiledConsistent(st);
    case Variable => VariableFiledConsistent(st);
    case _ =>
  }

  /** Every state an accepted run reaches is consistent. */
  lemma {:induction false} RunConsistent(events: seq<SaxEvent>, env: map<string, string>)
    ensures ProfileRun(events, env).Ok? ==> ProfileConsistent(ProfileRun(events, env).value)
  {
    if events != [] {
      RunConsistent(events[..|events| - 1], env);
      if ProfileRun(events[..|events| - 1], env).Ok? {
        var st, ev := ProfileRun(events[..|events| - 1], env).value, events[|events| - 1];
        match ev {
          case StartTag(name, attrs) => OpenedConsistent(st, name, attrs, env);
          case EndTag(name) => ClosedConsistent(st, name);
        }
      }
    }
  }

  /**
   * A profile that parses has no missing variable, and every capability of
   * its table is filed under its own id, with its children's keys exactly
   * its key set and no id twice in a context.
   */
  lemma AcceptedProfile(events: seq<SaxEvent>, env: map<string, string>)
    ensures ProfileOutcome(events, env).Ok? ==> MissingIn(events, env) == []
    ensures ProfileOutcome(events, env).Ok? ==> var table := ProfileOutcome(events, env).value;
      forall k | k in table :: table[k].id == k && CapabilityConsistent(table[k])
  {
    RunMissing(events, env);
    RunConsistent(events, env);
  }

  /** The state of the handler's fields, for stating what an event changes. */
  datatype HandlerState = HandlerState(
    symbols: map<string, Symbol>,
    capability: Symbol?, test: Symbol?, argument: Symbol?, environment: Symbol?,
    missing: seq<string>,
    inCapability: bool, inTest: bool, inArguments: bool, inEnvironment: bool)

  /**
   * What an opening tag does to the handler: `s`, `c` and `t` are its fields
   * and the keys its open capability and open test have filed before the
   * tag, `s'`, `c'` and `t'` the same after it, and `r` the outcome. After a
   * rejection nothing is said about the fields, since the parse ends there.
   */
  predicate OpenedAs(s: HandlerState, c: set<string>, t: set<string>, tag: ProfileTag, attrs: map<string, string>,
                     env: map<string, string>, r: Result<(), ProfileError>, s': HandlerState, c': set<string>, t': set<string>)
  {
    match tag
    case Capability =>
      var id, desc, cls := Attr(attrs, ATTR_ID), Attr(attrs, ATTR_DESCRIPTION), Attr(attrs, ATTR_CLASS);
      if Filled(id) && Filled(desc) && Filled(cls) then
        r.Ok? && s'.capability != null && s'.capability.id == id.value
        && s'.capability.kind == CapabilityKind(desc.value, cls.value)
        && s' == s.(capability := s'.capability, inCapability := true) && c' == {} && t' == t
      else
        r == Err(CapabilityIncomplete(id, desc, cls))
    case Test =>
      var id := Attr(attrs, ATTR_ID);
      if Filled(id) then
        r.Ok? && s'.test != null && s'.test.id == id.value && s'.test.kind == TestKind
        && s' == s.(test := s'.test, inTest := true) && c' == c && t' == {}
      else
        r == Err(TestIncomplete(id))
    case Arguments => r.Ok? && s' == s.(inArguments := true) && c' == c && t' == t
    case Argument =>
      var id, kind := Attr(attrs, ATTR_ID), Attr(attrs, ATTR_KIND);
      if !s.inArguments then r == Err(UnexpectedOpening(TAG_ARGUMENT))
      else if Filled(id) && Filled(kind) then
        r.Ok? && s'.argument != null && s'.argument.id == id.value && s'.argument.kind == ArgumentKind(kind.value)
        && s' == s.(argument := s'.argument) && c' == c && t' == t
      else
        r == Err(ArgumentIncomplete(id, kind))
    case Environment =>
      if !s.inCapability || s.inTest then r == Err(UnexpectedOpening(TAG_ENVIRONMENT))
      else r.Ok? && s' == s.(inEnvironment := true) && c' == c && t' == t
    case Variable =>
      var name, value := Attr(attrs, ATTR_NAME), Attr(attrs, ATTR_VALUE);
      if !s.inEnvironment then r == Err(UnexpectedOpening(TAG_VARIABLE))
      else if Filled(name) && value.Some? then
        r.Ok? && s'.environment != null && s'.environment.id == name.value
        && s'.environment.kind == EnvironmentKind(value.value)
        && s' == s.(environment := s'.environment) && c' == c && t' == t
      else
        r == Err(VariableIncomplete(name, value))
    case Exists =>
      if !s.inEnvironment then r == Err(UnexpectedOpening(TAG_EXISTS))
      else if ATTR_NAME !in attrs then r == Err(MissingAttribute(ATTR_NAME, TAG_EXISTS))
      else if s.capability == null then r == Err(NullPointer)
      else r.Ok? && s' == s.(missing := NoteMissing(s.missing, attrs[ATTR_NAME], env)) && c' == c && t' == t
    case OtherTag => r.Ok? && s' == s && c' == c && t' == t
  }

  /** What a closing tag does to the handler, in the terms of `OpenedAs`. */
  predicate ClosedAs(s: HandlerState, c: set<string>, t: set<string>, tag: ProfileTag,
                     r: Result<(), ProfileError>, s': HandlerState, c': set<string>, t': set<string>)
  {
    match tag
    case Capability =>
      if s.capability == null then r == Err(NullPointer)
      else
        r.Ok? && s' == s.(symbols := s.symbols[s.capability.id := s.capability], capability := null, inCapability := false)
        && c' == {} && t' == t
    case Test =>
      if s.capability == null || s.test == null then r == Err(NullPointer)
      else if Key(s.test.id, TEST_CONTEXT) in c then r == Err(DuplicateTest(s.capability.id, s.test.id))
      else r.Ok? && s' == s.(test := null, inTest := false) && c' == c + {Key(s.test.id, TEST_CONTEXT)} && t' == {}
    case Arguments => r.Ok? && s' == s.(inArguments := false) && c' == c && t' == t
    case Argument =>
      var owner := if s.inTest then s.test else s.capability;
      if owner == null || s.argument == null then r == Err(NullPointer)
      else
        var key := Key(s.argument.id, ARGUMENT_CONTEXT);
        if key in (if s.inTest then t else c) then
          r == (if s.test == null then Err(NullPointer) else Err(DuplicateArgument(s.test.id, s.argument.id)))
        else
          r.Ok? && s' == s.(argument := null)
          && (if s.inTest then c' == c && t' == t + {key} else c' == c + {key} && t' == t)
    case Environment => r.Ok? && s' == s.(inEnvironment := false) && c' == c && t' == t
    case Variable =>
      if s.capability == null || s.environment == null then r == Err(NullPointer)
      else
        var key := Key(s.environment.id, ENVIRONMENT_CONTEXT);
        if key in c then
          r == (if s.test == null || s.argument == null then Err(NullPointer) else Err(DuplicateVariable(s.test.id, s.argument.id)))
        else
          r.Ok? && s' == s.(environment := null) && c' == c + {key} && t' == t
    case _ => r.Ok? && s' == s && c' == c && t' == t
  }

  /** The capabilities as values and as symbols have the same keys, ids and kinds. */
  predicate TableMirrors(table: map<string, CapabilitySpec>, symbols: map<string, Symbol>)
  {
    table.Keys == symbols.Keys
    && forall k | k in symbols :: table[k].id == symbols[k].id && table[k].kind == symbols[k].kind
  }

  /**
   * The handler's fields and filed keys agree with the state as values: the
   * same flags and missing record, the table's keys with each capability's id
   * and kind, and the open elements' ids, kinds and filed keys.
   */
  predicate Mirrors(st: ProfileState, s: HandlerState, c: set<string>, t: set<string>)
  {
    st.missing == s.missing
    && st.inCapability == s.inCapability && st.inTest == s.inTest
    && st.inArguments == s.inArguments && st.inEnvironment == s.inEnvironment
    && TableMirrors(st.table, s.symbols)
    && (st.capability.Some? <==> s.capability != null)
    && (s.capability != null ==>
          st.capability.value.id == s.capability.id && st.capability.value.kind == s.capability.kind
          && st.capability.value.keys == c)
    && (st.test.Some? <==> s.test != null)
    && (s.test != null ==> st.test.value.id == s.test.id && st.test.value.keys == t)
    && st.argument == (if s.argument == null then None else Some(Leaf(s.argument.id, s.argument.kind)))
    && st.environment == (if s.environment == null then None else Some(Leaf(s.environment.id, s.environment.kind)))
  }

  /** An opening tag takes agreeing states to agreeing states, and both reject it alike. */
  lemma OpenedMirrored(st: ProfileState, s: HandlerState, c: set<string>, t: set<string>, name: string,
                       attrs: map<string, string>, env: map<string, string>,
                       r: Result<(), ProfileError>, s': HandlerState, c': set<string>, t': set<string>)
    requires Mirrors(st, s, c, t) && OpenedAs(s, c, t, TagOf(name), attrs, env, r, s', c', t')
    ensures r.Ok? <==> Opened(st, name, attrs, env).Ok?
    ensures r.Err? ==> r.error == Opened(st, name, attrs, env).error
    ensures r.Ok? ==> Mirrors(Opened(st, name, attrs, env).value, s', c', t')
  {
  }

  /** A closing tag takes agreeing states to agreeing states, and both reject it alike. */
  lemma ClosedMirrored(st: ProfileState, s: HandlerState, c: set<string>, t: set<string>, name: string,
                       r: Result<(), ProfileError>, s': HandlerState, c': set<string>, t': set<string>)
    requires Mirrors(st, s, c, t) && ClosedAs(s, c, t, TagOf(name), r, s', c', t')
    ensures r.Ok? <==> Closed(st, name).Ok?
    ensures r.Err? ==> r.error == Closed(st, name).error
    ensures r.Ok? ==> Mirrors(Closed(st, name).value, s', c', t')
  {
    match TagOf(name)
    case Capability => CapabilityFiledMirrored(st, s, c, t, r, s', c', t');
    case Test => TestFiledMirrored(st, s, c, t, r, s', c', t');
    case Argument => ArgumentFiledMirrored(st, s, c, t, r, s', c', t');
    case Variable => VariableFiledMirrored(st, s, c, t, r, s', c', t');
    case _ =>
  }

  lemma CapabilityFiledMirrored(st: ProfileState, s: HandlerState, c: set<string>, t: set<string>,
                                r: Result<(), ProfileError>, s': HandlerState, c': set<string>, t': set<string>)
    requires Mirrors(st, s, c, t) && ClosedAs(s, c, t, Capability, r, s', c', t')
    ensures r.Ok? <==> CapabilityFiled(st).Ok?
    ensures r.Err? ==> r.error == CapabilityFiled(st).error
    ensures r.Ok? ==> Mirrors(CapabilityFiled(st).value, s', c', t')
  {
  }

  lemma TestFiledMirrored(st: ProfileState, s: HandlerState, c: set<string>, t: set<string>,
                          r: Result<(), ProfileError>, s': HandlerState, c': set<string>, t': set<string>)
    requires Mirrors(st, s, c, t) && ClosedAs(s, c, t, Test, r, s', c', t')
    ensures r.Ok? <==> TestFiled(st).Ok?
    ensures r.Err? ==> r.error == TestFiled(st).error
    ensures r.Ok? ==> Mirrors(TestFiled(st).value, s', c', t')
  {
  }

  lemma ArgumentFiledMirrored(st: ProfileState, s: HandlerState, c: set<string>, t: set<string>,
                              r: Result<(), ProfileError>, s': HandlerState, c': set<string>, t': set<string>)
    requires Mirrors(st, s, c, t) && ClosedAs(s, c, t, Argument, r, s', c', t')
    ensures r.Ok? <==> ArgumentFiled(st).Ok?
    ensures r.Err? ==> r.error == ArgumentFiled(st).error
    ensures r.Ok? ==> Mirrors(ArgumentFiled(st).value, s', c', t')
  {
  }

  lemma VariableFiledMirrored(st: ProfileState, s: HandlerState, c: set<string>, t: set<string>,
                              r: Result<(), ProfileError>, s': HandlerState, c': set<string>, t': set<string>)
    requires Mirrors(st, s, c, t) && ClosedAs(s, c, t, Variable, r, s', c', t')
    ensures r.Ok? <==> VariableFiled(st).Ok?
    ensures r.Err? ==> r.error == VariableFiled(st).error
    ensures r.Ok? ==> Mirrors(VariableFiled(st).value, s', c', t')
  {
  }

  class ProfileHandler {
    /** The process environment, consulted by `exists`. */
    const env: map<string, string>
    /** The symbol table: capabilities by id. */
    var symbols: map<string, Symbol>
    var currentCapability: Symbol?
    var currentTest: Symbol?
    var currentArgument: Symbol?
    var currentEnvironment: Symbol?
    var missingEnvironment: seq<string>
    var inCapability: bool
    var inTest: bool
    var inArguments: bool
    var inEnvironment: bool

    function St(): HandlerState
      reads this
    {
      HandlerState(symbols, currentCapability, currentTest, currentArgument, currentEnvironment,
        missingEnvironment, inCapability, inTest, inArguments, inEnvironment)
    }

    /** The keys filed so far in the open capability. */
    function CapKeys(): set<string>
      reads this, currentCapability
    {
      if currentCapability == null then {} else currentCapability.symbols.Keys
    }

    /** The keys filed so far in the open test. */
    function TestKeys(): set<string>
      reads this, currentTest
    {
      if currentTest == null then {} else currentTest.symbols.Keys
    }

    /** The symbols under construction. */
    function Open(): set<Symbol>
      reads this
    {
      (if currentCapability != null then {currentCapability} else {}) + (if currentTest != null then {currentTest} else {})
    }

    /**
     * The table holds capabilities under their own ids; each open element
     * has the class its tag calls for; the missing record holds absent
     * variables, each once.
     */
    ghost predicate Valid()
      reads this
    {
      (forall k | k in symbols :: symbols[k].id == k && symbols[k].kind.CapabilityKind?)
      && (currentCapability != null ==> currentCapability.kind.CapabilityKind?)
      && (currentTest != null ==> currentTest.kind == TestKind)
      && (currentArgument != null ==> currentArgument.kind.ArgumentKind?)
      && (currentEnvironment != null ==> currentEnvironment.kind.EnvironmentKind?)
      && (forall i | 0 <= i < |missingEnvironment| :: missingEnvironment[i] !in env)
      && (forall i, j | 0 <= i < j < |missingEnvironment| :: missingEnvironment[i] != missingEnvironment[j])
    }

    /** A handler at the start of a document: empty table, nothing open, nothing missing. */
    constructor (env: map<string, string>)
      ensures this.env == env
      ensures St() == HandlerState(map[], null, null, null, null, [], false, false, false, false)
      ensures Valid()
    {
      this.env := env;
      symbols := map[];
      currentCapability, currentTest, currentArgument, currentEnvironment := null, null, null, null;
      missingEnvironment := [];
      inCapability, inTest, inArguments, inEnvironment := false, false, false, false;
    }

    method CapabilityStart(attrs: map<string, string>) returns (r: Result<(), ProfileError>)
      requires Valid()
      modifies this
      ensures Valid() && fresh(Open() - old(Open()))
      ensures symbols == old(symbols) && missingEnvironment == old(missingEnvironment)
      ensures var id, desc, cls := Attr(attrs, ATTR_ID), Attr(attrs, ATTR_DESCRIPTION), Attr(attrs, ATTR_CLASS);
        if Filled(id) && Filled(desc) && Filled(cls) then
          r.Ok? && fresh(currentCapability) && currentCapability.id == id.value
          && currentCapability.kind == CapabilityKind(desc.value, cls.value)
          && currentCapability.contextMap == map[] && currentCapability.symbols == map[]
          && St() == old(St()).(capability := currentCapability, inCapability := true)
        else
          r == Err(CapabilityIncomplete(id, desc, cls)) && St() == old(St()).(inCapability := true)
      ensures OpenedAs(old(St()), old(CapKeys()), old(TestKeys()), Capability, attrs, env, r, St(), CapKeys(), TestKeys())
    {
      inCapability := true;
      var id, desc, cls := Attr(attrs, ATTR_ID), Attr(attrs, ATTR_DESCRIPTION), Attr(attrs, ATTR_CLASS);
      if !(Filled(id) && Filled(desc) && Filled(cls)) {
        return Err(CapabilityIncomplete(id, desc, cls));
      }
      currentCapability := new Symbol(id.value, CapabilityKind(desc.value, cls.value));
      r := Ok(());
    }

    /** The completed capability goes into the table under its id, replacing any earlier one with that id. */
    method CapabilityEnd() returns (r: Result<(), ProfileError>)
      requires Valid()
      modifies this
      ensures Valid() && fresh(Open() - old(Open()))
      ensures old(currentCapability) == null ==> r == Err(NullPointer) && St() == old(St())
      ensures old(currentCapability) != null ==>
        r.Ok? && St() == old(St()).(symbols := old(symbols)[old(currentCapability).id := old(currentCapability)],
                                    capability := null, inCapability := false)
      ensures ClosedAs(old(St()), old(CapKeys()), old(TestKeys()), Capability, r, St(), CapKeys(), TestKeys())
    {
      if currentCapability == null {
        return Err(NullPointer);
      }
      symbols := symbols[currentCapability.id := currentCapability];
      currentCapability := null;
      inCapability := false;
      r := Ok(());
    }

    method TestStart(attrs: map<string, string>) returns (r: Result<(), ProfileError>)
      requires Valid()
      modifies this
      ensures Valid() && fresh(Open() - old(Open()))
      ensures symbols == old(symbols) && missingEnvironment == old(missingEnvironment)
      ensures var id := Attr(attrs, ATTR_ID);
        if Filled(id) then
          r.Ok? && fresh(currentTest) && currentTest.id == id.value && currentTest.kind == TestKind
          && currentTest.contextMap == map[] && currentTest.symbols == map[]
          && St() == old(St()).(test := currentTest, inTest := true)
        else
          r == Err(TestIncomplete(id)) && St() == old(St()).(inTest := true)
      ensures OpenedAs(old(St()), old(CapKeys()), old(TestKeys()), Test, attrs, env, r, St(), CapKeys(), TestKeys())
    {
      inTest := true;
      var id := Attr(attrs, ATTR_ID);
      if !Filled(id) {
        return Err(TestIncomplete(id));
      }
      currentTest := new Symbol(id.value, TestKind);
      r := Ok(());
    }

    /** The completed test is filed under the capability's test context; a second test with its id is an error. */
    method TestEnd() returns (r: Result<(), ProfileError>)
      requires Valid()
      modifies this, currentCapability
      ensures Valid() && fresh(Open() - old(Open()))
      ensures old(currentCapability) == null || old(currentTest) == null ==> r == Err(NullPointer) && St() == old(St())
      ensures old(currentCapability) != null && old(currentTest) != null ==>
        var cap, test := old(currentCapability), old(currentTest);
        if old(cap.GetSymbol(test.id, TEST_CONTEXT)).Some? then
          r == Err(DuplicateTest(cap.id, test.id)) && St() == old(St())
        else
          r.Ok? && cap.GetSymbol(test.id, TEST_CONTEXT) == Some(test)
          && cap.GetSymbolsInContext(TEST_CONTEXT) == old(cap.GetSymbolsInContext(TEST_CONTEXT)) + [test]
          && St() == old(St()).(test := null, inTest := false)
      ensures r.Ok? ==> CapKeys() == old(CapKeys()) + {Key(old(currentTest).id, TEST_CONTEXT)}
      ensures ClosedAs(old(St()), old(CapKeys()), old(TestKeys()), Test, r, St(), CapKeys(), TestKeys())
    {
      if currentCapability == null || currentTest == null {
        return Err(NullPointer);
      }
      var added := currentCapability.AddSymbol(currentTest, TEST_CONTEXT);
      if added.Err? {
        return Err(DuplicateTest(currentCapability.id, currentTest.id));
      }
      currentTest := null;
      inTest := false;
      r := Ok(());
    }

    method ArgumentsStart()
      requires Valid()
      modifies this
      ensures Valid()
      ensures St() == old(St()).(inArguments := true) && Open() == old(Open())
      ensures CapKeys() == old(CapKeys()) && TestKeys() == old(TestKeys())
    {
      inArguments := true;
    }

    method ArgumentsEnd()
      requires Valid()
      modifies this
      ensures Valid()
      ensures St() == old(St()).(inArguments := false) && Open() == old(Open())
      ensures CapKeys() == old(CapKeys()) && TestKeys() == old(TestKeys())
    {
      inArguments := false;
    }

    method ArgumentStart(attrs: map<string, string>) returns (r: Result<(), ProfileError>)
      requires Valid()
      modifies this
      ensures Valid() && Open() == old(Open())
      ensures symbols == old(symbols) && missingEnvironment == old(missingEnvironment)
      ensures var id, kind := Attr(attrs, ATTR_ID), Attr(attrs, ATTR_KIND);
        if !old(inArguments) then
          r == Err(UnexpectedOpening(TAG_ARGUMENT)) && St() == old(St())
        else if Filled(id) && Filled(kind) then
          r.Ok? && fresh(currentArgument) && currentArgument.id == id.value
          && currentArgument.kind == ArgumentKind(kind.value)
          && St() == old(St()).(argument := currentArgument)
        else
          r == Err(ArgumentIncomplete(id, kind)) && St() == old(St())
      ensures OpenedAs(old(St()), old(CapKeys()), old(TestKeys()), Argument, attrs, env, r, St(), CapKeys(), TestKeys())
    {
      if !inArguments {
        return Err(UnexpectedOpening(TAG_ARGUMENT));
      }
      var id, kind := Attr(attrs, ATTR_ID), Attr(attrs, ATTR_KIND);
      if !(Filled(id) && Filled(kind)) {
        return Err(ArgumentIncomplete(id, kind));
      }
      currentArgument := new Symbol(id.value, ArgumentKind(kind.value));
      r := Ok(());
    }

    /**
     * The completed argument is filed under the argument context of the open
     * test, or of the capability outside a test. A duplicate is reported with
     * the current test's id, which fails with a null reference outside a test.
     */
    method ArgumentEnd() returns (r: Result<(), ProfileError>)
      requires Valid()
      modifies this, currentCapability, currentTest
      ensures Valid() && Open() == old(Open())
      ensures var owner := if old(inTest) then old(currentTest) else old(currentCapability);
        var arg := old(currentArgument);
        if owner == null || arg == null then
          r == Err(NullPointer) && St() == old(St())
        else if old(owner.GetSymbol(arg.id, ARGUMENT_CONTEXT)).Some? then
          St() == old(St())
          && r == (if old(currentTest) == null then Err(NullPointer) else Err(DuplicateArgument(old(currentTest).id, arg.id)))
        else
          r.Ok? && owner.GetSymbol(arg.id, ARGUMENT_CONTEXT) == Some(arg)
          && owner.GetSymbolsInContext(ARGUMENT_CONTEXT) == old(owner.GetSymbolsInContext(ARGUMENT_CONTEXT)) + [arg]
          && St() == old(St()).(argument := null)
      ensures r.Ok? ==>
        var key := Key(old(currentArgument).id, ARGUMENT_CONTEXT);
        if old(inTest) then TestKeys() == old(TestKeys()) + {key} && CapKeys() == old(CapKeys())
        else CapKeys() == old(CapKeys()) + {key} && TestKeys() == old(TestKeys())
      ensures ClosedAs(old(St()), old(CapKeys()), old(TestKeys()), Argument, r, St(), CapKeys(), TestKeys())
    {
      if inTest {
        r := FileArgumentInTest();
      } else {
        r := FileArgumentInCapability();
      }
    }

    method FileArgumentInTest() returns (r: Result<(), ProfileError>)
      requires Valid() && inTest
      modifies this, currentTest
      ensures Valid() && Open() == old(Open())
      ensures old(currentTest) == null || old(currentArgument) == null ==> r == Err(NullPointer) && St() == old(St())
      ensures old(currentTest) != null && old(currentArgument) != null ==>
        var owner, arg := old(currentTest), old(currentArgument);
        if old(owner.GetSymbol(arg.id, ARGUMENT_CONTEXT)).Some? then
          r == Err(DuplicateArgument(owner.id, arg.id)) && St() == old(St())
        else
          r.Ok? && owner.GetSymbol(arg.id, ARGUMENT_CONTEXT) == Some(arg)
          && owner.GetSymbolsInContext(ARGUMENT_CONTEXT) == old(owner.GetSymbolsInContext(ARGUMENT_CONTEXT)) + [arg]
          && St() == old(St()).(argument := null)
      ensures r.Ok? ==>
        TestKeys() == old(TestKeys()) + {Key(old(currentArgument).id, ARGUMENT_CONTEXT)} && CapKeys() == old(CapKeys())
    {
      if currentTest == null || currentArgument == null {
        return Err(NullPointer);
      }
      var added := currentTest.AddSymbol(currentArgument, ARGUMENT_CONTEXT);
      if added.Err? {
        return Err(DuplicateArgument(currentTest.id, currentArgument.id));
      }
      currentArgument := null;
      r := Ok(());
    }

    method FileArgumentInCapability() returns (r: Result<(), ProfileError>)
      requires Valid() && !inTest
      modifies this, currentCapability
      ensures Valid() && Open() == old(Open())
      ensures old(currentCapability) == null || old(currentArgument) == null ==> r == Err(NullPointer) && St() == old(St())
      ensures old(currentCapability) != null && old(currentArgument) != null ==>
        var owner, arg := old(currentCapability), old(currentArgument);
        if old(owner.GetSymbol(arg.id, ARGUMENT_CONTEXT)).Some? then
          St() == old(St())
          && r == (if old(currentTest) == null then Err(NullPointer) else Err(DuplicateArgument(old(currentTest).id, arg.id)))
        else
          r.Ok? && owner.GetSymbol(arg.id, ARGUMENT_CONTEXT) == Some(arg)
          && owner.GetSymbolsInContext(ARGUMENT_CONTEXT) == old(owner.GetSymbolsInContext(ARGUMENT_CONTEXT)) + [arg]
          && St() == old(St()).(argument := null)
      ensures r.Ok? ==>
        CapKeys() == old(CapKeys()) + {Key(old(currentArgument).id, ARGUMENT_CONTEXT)} && TestKeys() == old(TestKeys())
    {
      if currentCapability == null || currentArgument == null {
        return Err(NullPointer);
      }
      var added := currentCapability.AddSymbol(currentArgument, ARGUMENT_CONTEXT);
      if added.Err? {
        if currentTest == null {
          return Err(NullPointer);
        }
        return Err(DuplicateArgument(currentTest.id, currentArgument.id));
      }
      currentArgument := null;
      r := Ok(());
    }

    /** An environment section is allowed only inside a capability and outside its tests. */
    method EnvironmentStart() returns (r: Result<(), ProfileError>)
      requires Valid()
      modifies this
      ensures Valid()
      ensures St() == old(St()).(inEnvironment := true) && Open() == old(Open())
      ensures r == if !inCapability || inTest then Err(UnexpectedOpening(TAG_ENVIRONMENT)) else Ok(())
      ensures OpenedAs(old(St()), old(CapKeys()), old(TestKeys()), Environment, map[], env, r, St(), CapKeys(), TestKeys())
    {
      inEnvironment := true;
      if !inCapability || inTest {
        return Err(UnexpectedOpening(TAG_ENVIRONMENT));
      }
      r := Ok(());
    }

    method EnvironmentEnd()
      requires Valid()
      modifies this
      ensures Valid()
      ensures St() == old(St()).(inEnvironment := false) && Open() == old(Open())
      ensures CapKeys() == old(CapKeys()) && TestKeys() == old(TestKeys())
    {
      inEnvironment := false;
    }

    method VariableStart(attrs: map<string, string>) returns (r: Result<(), ProfileError>)
      requires Valid()
      modifies this
      ensures Valid() && Open() == old(Open())
      ensures var name, value := Attr(attrs, ATTR_NAME), Attr(attrs, ATTR_VALUE);
        if !old(inEnvironment) then
          r == Err(UnexpectedOpening(TAG_VARIABLE)) && St() == old(St())
        else if Filled(name) && value.Some? then
          r.Ok? && fresh(currentEnvironment) && currentEnvironment.id == name.value
          && currentEnvironment.kind == EnvironmentKind(value.value)
          && St() == old(St()).(environment := currentEnvironment)
        else
          r == Err(VariableIncomplete(name, value)) && St() == old(St())
      ensures OpenedAs(old(St()), old(CapKeys()), old(TestKeys()), Variable, attrs, env, r, St(), CapKeys(), TestKeys())
    {
      if !inEnvironment {
        return Err(UnexpectedOpening(TAG_VARIABLE));
      }
      var name, value := Attr(attrs, ATTR_NAME), Attr(attrs, ATTR_VALUE);
      if !(Filled(name) && value.Some?) {
        return Err(VariableIncomplete(name, value));
      }
      currentEnvironment := new Symbol(name.value, EnvironmentKind(value.value));
      r := Ok(());
    }

    /**
     * The completed variable is filed under the capability's environment
     * context. A duplicate is reported with the current test's and argument's
     * ids, which fails with a null reference unless both are open.
     */
    method VariableEnd() returns (r: Result<(), ProfileError>)
      requires Valid()
      modifies this, currentCapability
      ensures Valid() && Open() == old(Open())
      ensures old(currentCapability) == null || old(currentEnvironment) == null ==> r == Err(NullPointer) && St() == old(St())
      ensures old(currentCapability) != null && old(currentEnvironment) != null ==>
        var cap, v := old(currentCapability), old(currentEnvironment);
        if old(cap.GetSymbol(v.id, ENVIRONMENT_CONTEXT)).Some? then
          St() == old(St())
          && r == (if old(currentTest) == null || old(currentArgument) == null then Err(NullPointer)
                   else Err(DuplicateVariable(old(currentTest).id, old(currentArgument).id)))
        else
          r.Ok? && cap.GetSymbol(v.id, ENVIRONMENT_CONTEXT) == Some(v)
          && cap.GetSymbolsInContext(ENVIRONMENT_CONTEXT) == old(cap.GetSymbolsInContext(ENVIRONMENT_CONTEXT)) + [v]
          && St() == old(St()).(environment := null)
      ensures r.Ok? ==>
        CapKeys() == old(CapKeys()) + {Key(old(currentEnvironment).id, ENVIRONMENT_CONTEXT)} && TestKeys() == old(TestKeys())
      ensures ClosedAs(old(St()), old(CapKeys()), old(TestKeys()), Variable, r, St(), CapKeys(), TestKeys())
    {
      if currentCapability == null || currentEnvironment == null {
        return Err(NullPointer);
      }
      var added := currentCapability.AddSymbol(currentEnvironment, ENVIRONMENT_CONTEXT);
      if added.Err? {
        if currentTest == null || currentArgument == null {
          return Err(NullPointer);
        }
        return Err(DuplicateVariable(currentTest.id, currentArgument.id));
      }
      currentEnvironment := null;
      r := Ok(());
    }

    /**
     * A required variable: recorded as missing (once) when the environment
     * lacks it; parsing goes on. The capability's id is logged either way,
     * which fails with a null reference outside a capability.
     */
    method ExistsStart(attrs: map<string, string>) returns (r: Result<(), ProfileError>)
      requires Valid()
      modifies this
      ensures Valid() && Open() == old(Open())
      ensures if !old(inEnvironment) then
          r == Err(UnexpectedOpening(TAG_EXISTS)) && St() == old(St())
        else if ATTR_NAME !in attrs then
          r == Err(MissingAttribute(ATTR_NAME, TAG_EXISTS)) && St() == old(St())
        else
          St() == old(St()).(missing := NoteMissing(old(missingEnvironment), attrs[ATTR_NAME], env))
          && r == (if currentCapability == null then Err(NullPointer) else Ok(()))
      ensures OpenedAs(old(St()), old(CapKeys()), old(TestKeys()), Exists, attrs, env, r, St(), CapKeys(), TestKeys())
    {
      if !inEnvironment {
        return Err(UnexpectedOpening(TAG_EXISTS));
      }
      var name := Attr(attrs, ATTR_NAME);
      if name.None? {
        return Err(MissingAttribute(ATTR_NAME, TAG_EXISTS));
      }
      missingEnvironment := NoteMissing(missingEnvironment, name.value, env);
      if currentCapability == null {
        return Err(NullPointer);
      }
      r := Ok(());
    }

    /** An opening tag; tags the profile does not define are ignored. */
    method StartElement(name: string, attrs: map<string, string>) returns (r: Result<(), ProfileError>)
      requires Valid()
      modifies this
      ensures Valid() && fresh(Open() - old(Open()))
      ensures r.Ok? ==> missingEnvironment == NoteEvent(old(missingEnvironment), StartTag(name, attrs), env)
      ensures symbols == old(symbols)
      ensures TagOf(name) == OtherTag ==> r.Ok? && St() == old(St())
      ensures OpenedAs(old(St()), old(CapKeys()), old(TestKeys()), TagOf(name), attrs, env, r, St(), CapKeys(), TestKeys())
    {
      match TagOf(name) {
        case Capability => r := CapabilityStart(attrs);
        case Test => r := TestStart(attrs);
        case Arguments =>
          ArgumentsStart();
          r := Ok(());
        case Argument => r := ArgumentStart(attrs);
        case _ => r := StartEnvironmentElement(name, attrs);
      }
    }

    /** The opening tags of an environment section, and the tags a profile does not define. */
    method StartEnvironmentElement(name: string, attrs: map<string, string>) returns (r: Result<(), ProfileError>)
      requires Valid() && TagOf(name) in {Environment, Variable, Exists, OtherTag}
      modifies this
      ensures Valid() && Open() == old(Open())
      ensures r.Ok? ==> missingEnvironment == NoteEvent(old(missingEnvironment), StartTag(name, attrs), env)
      ensures symbols == old(symbols)
      ensures TagOf(name) == OtherTag ==> r.Ok? && St() == old(St())
      ensures OpenedAs(old(St()), old(CapKeys()), old(TestKeys()), TagOf(name), attrs, env, r, St(), CapKeys(), TestKeys())
    {
      match TagOf(name) {
        case Environment => r := EnvironmentStart();
        case Variable => r := VariableStart(attrs);
        case Exists => r := ExistsStart(attrs);
        case OtherTag => r := Ok(());
      }
    }

    /** A closing tag; tags the profile does not define, and `exists`, are ignored. */
    method EndElement(name: string) returns (r: Result<(), ProfileError>)
      requires Valid()
      modifies this, currentCapability, currentTest
      ensures Valid() && fresh(Open() - old(Open()))
      ensures missingEnvironment == old(missingEnvironment)
      ensures TagOf(name) != Capability ==> symbols == old(symbols)
      ensures TagOf(name) in {Exists, OtherTag} ==> r.Ok? && St() == old(St())
      ensures ClosedAs(old(St()), old(CapKeys()), old(TestKeys()), TagOf(name), r, St(), CapKeys(), TestKeys())
    {
      match TagOf(name) {
        case Capability => r := CapabilityEnd();
        case Test => r := TestEnd();
        case Arguments =>
          ArgumentsEnd();
          r := Ok(());
        case Argument => r := ArgumentEnd();
        case _ => r := EndEnvironmentElement(name);
      }
    }

    /** The closing tags of an environment section, and the tags a profile does not define. */
    method EndEnvironmentElement(name: string) returns (r: Result<(), ProfileError>)
      requires Valid() && TagOf(name) in {Environment, Variable, Exists, OtherTag}
      modifies this, currentCapability
      ensures Valid() && Open() == old(Open())
      ensures missingEnvironment == old(missingEnvironment) && symbols == old(symbols)
      ensures TagOf(name) in {Exists, OtherTag} ==> r.Ok? && St() == old(St())
      ensures ClosedAs(old(St()), old(CapKeys()), old(TestKeys()), TagOf(name), r, St(), CapKeys(), TestKeys())
    {
      match TagOf(name) {
        case Environment =>
          EnvironmentEnd();
          r := Ok(());
        case Variable => r := VariableEnd();
        case Exists => r := Ok(());
        case OtherTag => r := Ok(());
      }
    }
  }

  /**
   * Hands one event to the handler. `view` is the same handler state as a
   * value; the handler rejects the event exactly when `ProfileStep` does,
   * with the same error, and otherwise the two still agree.
   */
  method Feed(handler: ProfileHandler, ev: SaxEvent, ghost view: ProfileState) returns (res: Result<(), ProfileError>)
    requires handler.Valid() && Mirrors(view, handler.St(), handler.CapKeys(), handler.TestKeys())
    modifies handler, handler.currentCapability, handler.currentTest
    ensures handler.Valid() && fresh(handler.Open() - old(handler.Open()))
    ensures res.Ok? ==> handler.missingEnvironment == NoteEvent(old(handler.missingEnvironment), ev, handler.env)
    ensures res.Ok? <==> ProfileStep(view, ev, handler.env).Ok?
    ensures res.Err? ==> res.error == ProfileStep(view, ev, handler.env).error
    ensures res.Ok? ==> Mirrors(ProfileStep(view, ev, handler.env).value, handler.St(), handler.CapKeys(), handler.TestKeys())
  {
    ghost var s, c, t := handler.St(), handler.CapKeys(), handler.TestKeys();
    match ev {
      case StartTag(name, attrs) =>
        res := handler.StartElement(name, attrs);
        OpenedMirrored(view, s, c, t, name, attrs, handler.env, res, handler.St(), handler.CapKeys(), handler.TestKeys());
      case EndTag(name) =>
        res := handler.EndElement(name);
        ClosedMirrored(view, s, c, t, name, res, handler.St(), handler.CapKeys(), handler.TestKeys());
    }
  }

  /**
   * The SAX parser delivering the events to a fresh handler, up to the first
   * rejected one: the handler rejects exactly when `ProfileRun` does, with
   * the same error, and otherwise ends in the state `ProfileRun` computes.
   */
  method Deliver(handler: ProfileHandler, events: seq<SaxEvent>) returns (res: Result<(), ProfileError>)
    requires handler.Valid() && handler.St() == HandlerState(map[], null, null, null, null, [], false, false, false, false)
    modifies handler
    ensures handler.Valid()
    ensures res.Err? <==> ProfileRun(events, handler.env).Err?
    ensures res.Err? ==> res.error == ProfileRun(events, handler.env).error
    ensures res.Ok? ==> Mirrors(ProfileRun(events, handler.env).value, handler.St(), handler.CapKeys(), handler.TestKeys())
  {
    ghost var view := InitialProfile;
    var i := 0;
    while i < |events|
      invariant 0 <= i <= |events|
      invariant handler.Valid() && fresh(handler.Open())
      invariant ProfileRun(events[..i], handler.env) == Ok(view)
      invariant Mirrors(view, handler.St(), handler.CapKeys(), handler.TestKeys())
      decreases |events| - i
    {
      var ev := events[i];
      assert events[..i + 1][..i] == events[..i];
      res := Feed(handler, ev, view);
      if res.Err? {
        assert ProfileRun(events[..i + 1], handler.env) == Err(res.error);
        RejectionFinal(events, handler.env, i + 1);
        return;
      }
      view := ProfileStep(view, ev, handler.env).value;
      i := i + 1;
    }
    assert events[..|events|] == events;
    res := Ok(());
  }

  /**
   * Parses a profile document, given as its SAX events, against the process
   * environment. The first rejected event ends the parse; a document that is
   * otherwise accepted fails when required variables are missing, with one
   * exception that names all of them.
   */
  method Parse(events: seq<SaxEvent>, env: map<string, string>) returns (r: Result<map<string, Symbol>, ProfileFailure>)
    ensures r.Ok? ==> MissingIn(events, env) == []
    ensures r.Ok? ==> forall k | k in r.value :: r.value[k].id == k && r.value[k].kind.CapabilityKind?
    ensures r.Err? && r.error.Rejected? && r.error.exception.missingEnvironment.Some? ==>
      r.error.exception == WithMissing(MissingIn(events, env)) && MissingIn(events, env) != []
    ensures r.Err? <==> ProfileOutcome(events, env).Err?
    ensures r.Err? ==> r.error == ProfileOutcome(events, env).error
    ensures r.Ok? ==> TableMirrors(ProfileOutcome(events, env).value, r.value)
  {
    var handler := new ProfileHandler(env);
    var res := Deliver(handler, events);
    if res.Err? {
      if res.error == NullPointer {
        return Err(NullPointerThrown);
      }
      return Err(Rejected(WithCause(res.error)));
    }
    RunMissing(events, env);
    if |handler.missingEnvironment| > 0 {
      return Err(Rejected(WithMissing(handler.missingEnvironment)));
    }
    r := Ok(handler.symbols);
  }
}
