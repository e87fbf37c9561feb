/**
 * The tests-document parser. Its handler walks the document's tags against
 * the symbol table the profile produced: a `testcase` holds one capability
 * tag, the capability holds test tags and optionally an `environment` of
 * `variable`s. Every capability and test tag carries exactly the arguments
 * its symbol declares; each is substituted with `%name%` references to the
 * arguments of the same tag already read and built into an object of its
 * declared class. At the close of a capability with at least one test, the
 * string arguments are substituted with `$name$` environment references and
 * one test-case descriptor is appended.
 *
 * Class loading is a `ClassLoader` value: which classes exist, which have a
 * constructor taking a string, and what the constructed object's
 * `toString()` is (`None` when the constructor throws).
 */
module TestsParser {
  import opened Common
  import opened Symbols
  import opened Arguments
  import TokenSubstitution

  const TAG_TESTS := "tests"
  const TAG_TESTCASE := "testcase"
  const ATTR_TESTCASE_ID := "id"
  const ATTR_TESTCASE_DESC := "description"
  const TAG_ENVIRONMENT := "environment"
  const TAG_VARIABLE := "variable"
  const ATTR_VARIABLE_NAME := "name"
  const ATTR_VARIABLE_VALUE := "value"

  const ARGUMENT_ANCHOR := '%'
  const ARGUMENT_KIND := "Argument"
  const ENVIRONMENT_ANCHOR := '$'
  const ENVIRONMENT_KIND := "Environment variable"

  /** `Class.forName`, `getConstructor(String.class)` and `newInstance`, as data. */
  datatype ClassLoader = ClassLoader(
    loadable: set<string>,
    stringConstructible: set<string>,
    newInstance: (string, string) -> Option<string>)

  /** The JDK's `java.lang.String`: loadable, built from a string, and equal to it. */
  ghost predicate LoadsStrings(loader: ClassLoader)
  {
    STRING_CLASS in loader.loadable && STRING_CLASS in loader.stringConstructible
    && forall s :: loader.newInstance(STRING_CLASS, s) == Some(s)
  }

  /**
   * Why the handler rejects a document. The messages of the source embed the
   * parser's line and column; the model keeps the names and numbers they
   * report. `WrongSymbolClass` is the `ClassCastException` of a symbol filed
   * under the wrong context; `NullPointer` the `NullPointerException` of a
   * test closed with no test list open.
   */
  datatype TestsError =
    | ArgumentCountMismatch(tag: string, expected: nat, got: nat)
    | WrongSymbolClass(id: string)
    | ClassNotLoaded(kindClass: string, argId: string, tag: string)
    | ArgumentNotSet(argId: string)
    | ArgumentSubstitutionFailed(argId: string, tag: string, cause: string)
    | NoStringConstructor(kindClass: string, argId: string, tag: string)
    | ConstructionFailed(kindClass: string, argId: string, tag: string, value: string)
    | UnexpectedOpening(tag: string)
    | UnexpectedClosing(tag: string)
    | UnexpectedTag(tag: string)
    | AttributesNotSpecified(tag: string)
    | MultipleCapabilities(testCaseId: string)
    | TagNotDefined(tag: string)
    | BadlyFormedVariable
    | VariableSubstitutionFailed(cause: string)
    | EnvironmentSubstitutionFailed
    | NullPointer

  /** The maps `%name%` references are looked up in: the arguments of the tag read so far. */
  function ArgumentMaps(args: TestArguments): seq<Option<map<string, string>>>
  {
    [Some(Texts(args))]
  }

  /** The maps `$name$` references are looked up in: the case environment, then the process's. */
  function EnvironmentMaps(environment: map<string, string>, processEnv: map<string, string>): seq<Option<map<string, string>>>
  {
    [Some(environment), Some(processEnv)]
  }

  /**
   * One declared argument: the symbol must be an argument, its class must
   * load, the tag must set it, its `%` references must resolve, and its class
   * must build an object from the substituted text.
   */
  function LoadOne(sym: Symbol, tag: string, attrs: map<string, string>, loader: ClassLoader, args: TestArguments): Result<Value, TestsError>
  {
    if !sym.kind.ArgumentKind? then Err(WrongSymbolClass(sym.id))
    else
      var klass := sym.kind.kindClass;
      if klass !in loader.loadable then Err(ClassNotLoaded(klass, sym.id, tag))
      else if sym.id !in attrs then Err(ArgumentNotSet(sym.id))
      else
        match TokenSubstitution.Substituted(attrs[sym.id], ARGUMENT_ANCHOR, ARGUMENT_KIND, ArgumentMaps(args))
        case Err(cause) => Err(ArgumentSubstitutionFailed(sym.id, tag, cause))
        case Ok(text) =>
          if klass !in loader.stringConstructible then Err(NoStringConstructor(klass, sym.id, tag))
          else
            match loader.newInstance(klass, text)
            case None => Err(ConstructionFailed(klass, sym.id, tag, text))
            case Some(obj) => Ok(Value(klass, obj))
  }

  /** The declared arguments from position `i` on, in declared order, each stored as soon as it is built. */
  function LoadFrom(syms: seq<Symbol>, i: nat, tag: string, attrs: map<string, string>, loader: ClassLoader, args: TestArguments): Result<TestArguments, TestsError>
    requires i <= |syms|
    decreases |syms| - i
  {
    if i == |syms| then Ok(args)
    else
      match LoadOne(syms[i], tag, attrs, loader, args)
      case Err(e) => Err(e)
      case Ok(v) => LoadFrom(syms, i + 1, tag, attrs, loader, Put(args, syms[i].id, v))
  }

  /**
   * `loadArguments`: a tag whose number of attributes differs from the number
   * of declared arguments is rejected with both numbers; otherwise the
   * arguments are loaded in declared order.
   */
  function Loaded(syms: seq<Symbol>, tag: string, attrs: map<string, string>, loader: ClassLoader, args: TestArguments): (r: Result<TestArguments, TestsError>)
    ensures |attrs| != |syms| ==> r == Err(ArgumentCountMismatch(tag, |syms|, |attrs|))
  {
    if |attrs| != |syms| then Err(ArgumentCountMismatch(tag, |syms|, |attrs|))
    else LoadFrom(syms, 0, tag, attrs, loader, args)
  }

  /** The ids of the declared arguments from position `i` on. */
  function IdsFrom(syms: seq<Symbol>, i: nat): set<string>
  {
    set j | i <= j < |syms| :: syms[j].id
  }

  /** No two declared arguments from position `i` on share an id. */
  predicate DistinctFrom(syms: seq<Symbol>, i: nat)
  {
    forall j, k | i <= j < k < |syms| :: syms[j].id != syms[k].id
  }

  /**
   * A successful load keeps the map's id, adds exactly the declared
   * arguments, and stores under each declared id an object of its declared
   * class.
   */
  lemma {:induction false} LoadFromStores(syms: seq<Symbol>, i: nat, tag: string, attrs: map<string, string>, loader: ClassLoader, args: TestArguments)
    requires i <= |syms| && DistinctFrom(syms, i)
    requires LoadFrom(syms, i, tag, attrs, loader, args).Ok?
    ensures var out := LoadFrom(syms, i, tag, attrs, loader, args).value;
      out.id == args.id
      && out.entries.Keys == args.entries.Keys + IdsFrom(syms, i)
      && forall j | i <= j < |syms| :: syms[j].kind.ArgumentKind? && out.entries[syms[j].id].kindClass == syms[j].kind.kindClass
    decreases |syms| - i
  {
    if i < |syms| {
      var v := LoadOne(syms[i], tag, attrs, loader, args).value;
      var next := Put(args, syms[i].id, v);
      LoadFromStores(syms, i + 1, tag, attrs, loader, next);
      var out := LoadFrom(syms, i, tag, attrs, loader, args).value;
      assert out == LoadFrom(syms, i + 1, tag, attrs, loader, next).value;
      assert IdsFrom(syms, i) == {syms[i].id} + IdsFrom(syms, i + 1);
      LaterKeep(syms, i, tag, attrs, loader, next);
    } else {
      assert IdsFrom(syms, i) == {};
    }
  }

  /** What is stored for `syms[i]` is not overwritten by later arguments with other ids. */
  lemma {:induction false} LaterKeep(syms: seq<Symbol>, i: nat, tag: string, attrs: map<string, string>, loader: ClassLoader, next: TestArguments)
    requires i < |syms| && DistinctFrom(syms, i)
    requires syms[i].id in next.entries
    requires LoadFrom(syms, i + 1, tag, attrs, loader, next).Ok?
    ensures var out := LoadFrom(syms, i + 1, tag, attrs, loader, next).value;
      syms[i].id in out.entries && out.entries[syms[i].id] == next.entries[syms[i].id]
  {
    KeepFrom(syms, i + 1, syms[i].id, tag, attrs, loader, next);
  }

  lemma {:induction false} KeepFrom(syms: seq<Symbol>, p: nat, key: string, tag: string, attrs: map<string, string>, loader: ClassLoader, args: TestArguments)
    requires p <= |syms| && key in args.entries
    requires forall j | p <= j < |syms| :: syms[j].id != key
    requires LoadFrom(syms, p, tag, attrs, loader, args).Ok?
    ensures var out := LoadFrom(syms, p, tag, attrs, loader, args).value;
      key in out.entries && out.entries[key] == args.entries[key]
    decreases |syms| - p
  {
    if p < |syms| {
      var v := LoadOne(syms[p], tag, attrs, loader, args).value;
      KeepFrom(syms, p + 1, key, tag, attrs, loader, Put(args, syms[p].id, v));
    }
  }

  /** A `%name%` attribute: exactly one reference to the argument `name`. */
  function Reference(name: string): string
  {
    [ARGUMENT_ANCHOR] + name + [ARGUMENT_ANCHOR]
  }

  predicate IsWord(name: string)
  {
    |name| > 0 && forall k | 0 <= k < |name| :: TokenSubstitution.IsWordChar(name[k])
  }

  /**
   * Arguments are read in declared order: an argument whose value refers to
   * an argument declared after it, and not yet in the map, is rejected with
   * the not-found message for that name.
   */
  lemma ForwardReferenceRejected(first: Symbol, later: Symbol, tag: string, attrs: map<string, string>, loader: ClassLoader, args: TestArguments)
    requires first.kind.ArgumentKind? && first.kind.kindClass in loader.loadable
    requires IsWord(later.id) && later.id !in args.entries
    requires first.id in attrs && attrs[first.id] == Reference(later.id)
    ensures LoadFrom([first, later], 0, tag, attrs, loader, args)
      == Err(ArgumentSubstitutionFailed(first.id, tag, TokenSubstitution.NotFoundMessage(ARGUMENT_KIND, later.id)))
  {
    TokenSubstitution.SingleToken(later.id, ARGUMENT_ANCHOR, ARGUMENT_KIND, ArgumentMaps(args));
    assert later.id !in Texts(args);
  }

  /**
   * An argument whose value refers to one declared before it is built from
   * the `toString()` of the object already stored for that argument.
   */
  lemma BackReferenceResolved(first: Symbol, later: Symbol, tag: string, attrs: map<string, string>, loader: ClassLoader, args: TestArguments)
    requires LoadOne(first, tag, attrs, loader, args).Ok?
    requires IsWord(first.id)
    requires later.kind.ArgumentKind? && later.kind.kindClass in loader.loadable && later.kind.kindClass in loader.stringConstructible
    requires later.id in attrs && attrs[later.id] == Reference(first.id)
    ensures var built := LoadOne(first, tag, attrs, loader, args).value;
      var next := Put(args, first.id, built);
      LoadOne(later, tag, attrs, loader, next)
        == match loader.newInstance(later.kind.kindClass, built.text)
           case None => Err(ConstructionFailed(later.kind.kindClass, later.id, tag, built.text))
           case Some(obj) => Ok(Value(later.kind.kindClass, obj))
  {
    var built := LoadOne(first, tag, attrs, loader, args).value;
    var next := Put(args, first.id, built);
    TokenSubstitution.SingleToken(first.id, ARGUMENT_ANCHOR, ARGUMENT_KIND, ArgumentMaps(next));
    assert Texts(next)[first.id] == built.text;
  }

  /** With the JDK's strings, a string argument whose value has no `%` reference is stored verbatim. */
  lemma PlainStringStoredVerbatim(sym: Symbol, tag: string, attrs: map<string, string>, loader: ClassLoader, args: TestArguments)
    requires LoadsStrings(loader) && sym.kind == ArgumentKind(STRING_CLASS)
    requires sym.id in attrs && ARGUMENT_ANCHOR !in attrs[sym.id]
    ensures LoadOne(sym, tag, attrs, loader, args) == Ok(StringValue(attrs[sym.id]))
  {
    var s := attrs[sym.id];
    forall k | 0 <= k <= |s|
      ensures TokenSubstitution.TokenAt(s, k, ARGUMENT_ANCHOR).None?
    {
      if k < |s| {
        assert s[k] != ARGUMENT_ANCHOR;
      }
    }
    TokenSubstitution.NoTokenUnchanged(s, ARGUMENT_ANCHOR, ARGUMENT_KIND, ArgumentMaps(args));
  }

  /** The profile's environment symbols from position `i` on, each put into the map in turn. */
  function EnvironmentFrom(syms: seq<Symbol>, i: nat, environment: map<string, string>): Result<map<string, string>, TestsError>
    requires i <= |syms|
    decreases |syms| - i
  {
    if i == |syms| then Ok(environment)
    else if !syms[i].kind.EnvironmentKind? then Err(WrongSymbolClass(syms[i].id))
    else EnvironmentFrom(syms, i + 1, environment[syms[i].id := syms[i].kind.value])
  }

  /** The inherited environment holds exactly the profile's variables, each with its profile value. */
  lemma {:induction false} EnvironmentInherited(syms: seq<Symbol>, i: nat, environment: map<string, string>)
    requires i <= |syms| && DistinctFrom(syms, i)
    requires EnvironmentFrom(syms, i, environment).Ok?
    ensures var out := EnvironmentFrom(syms, i, environment).value;
      out.Keys == environment.Keys + IdsFrom(syms, i)
      && forall j | i <= j < |syms| :: syms[j].kind.EnvironmentKind? && out[syms[j].id] == syms[j].kind.value
    decreases |syms| - i
  {
    if i < |syms| {
      var next := environment[syms[i].id := syms[i].kind.value];
      EnvironmentInherited(syms, i + 1, next);
      EnvironmentKept(syms, i + 1, syms[i].id, next);
      assert IdsFrom(syms, i) == {syms[i].id} + IdsFrom(syms, i + 1);
    } else {
      assert IdsFrom(syms, i) == {};
    }
  }

  lemma {:induction false} EnvironmentKept(syms: seq<Symbol>, p: nat, key: string, environment: map<string, string>)
    requires p <= |syms| && key in environment
    requires forall j | p <= j < |syms| :: syms[j].id != key
    requires EnvironmentFrom(syms, p, environment).Ok?
    ensures var out := EnvironmentFrom(syms, p, environment).value;
      key in out && out[key] == environment[key]
    decreases |syms| - p
  {
    if p < |syms| {
      EnvironmentKept(syms, p + 1, key, environment[syms[p].id := syms[p].kind.value]);
    }
  }

  /** A `$name$` value in a variable takes the case's own value of `name` before the process's. */
  lemma CaseEnvironmentFirst(name: string, environment: map<string, string>, processEnv: map<string, string>)
    requires IsWord(name) && name in environment
    ensures TokenSubstitution.Substituted([ENVIRONMENT_ANCHOR] + name + [ENVIRONMENT_ANCHOR], ENVIRONMENT_ANCHOR, ENVIRONMENT_KIND,
      EnvironmentMaps(environment, processEnv)) == Ok(environment[name])
  {
    TokenSubstitution.SingleToken(name, ENVIRONMENT_ANCHOR, ENVIRONMENT_KIND, EnvironmentMaps(environment, processEnv));
    TokenSubstitution.EarlierMapWins(environment, [Some(processEnv)], name);
  }

  /** A value the closing-time pass can handle: anything but a string, or a string whose references resolve. */
  predicate Substitutable(v: Value, maps: seq<Option<map<string, string>>>)
  {
    !IsString(v) || TokenSubstitution.Substituted(v.text, ENVIRONMENT_ANCHOR, ENVIRONMENT_KIND, maps).Ok?
  }

  /** The value after the pass: strings rewritten, every other object kept. */
  function Rewritten(v: Value, maps: seq<Option<map<string, string>>>): Value
    requires Substitutable(v, maps)
  {
    if IsString(v) then StringValue(TokenSubstitution.Substituted(v.text, ENVIRONMENT_ANCHOR, ENVIRONMENT_KIND, maps).value) else v
  }

  /**
   * `environmentSubstitution` on one argument map: every string value is
   * `$`-substituted; one that fails fails the pass.
   */
  function EnvSubstituted(args: TestArguments, maps: seq<Option<map<string, string>>>): Option<TestArguments>
  {
    if forall k | k in args.entries :: Substitutable(args.entries[k], maps) then
      Some(TestArguments(args.id, map k | k in args.entries :: Rewritten(args.entries[k], maps)))
    else None
  }

  /**
   * The pass keeps the map's id and keys and every object that is not a
   * string, and leaves a map with no `$` reference in its strings as it was.
   */
  lemma EnvSubstitutionKeeps(args: TestArguments, maps: seq<Option<map<string, string>>>, key: string)
    requires EnvSubstituted(args, maps).Some?
    ensures var out := EnvSubstituted(args, maps).value;
      out.id == args.id && out.entries.Keys == args.entries.Keys
      && (key in args.entries && !IsString(args.entries[key]) ==> out.entries[key] == args.entries[key])
      && (key in args.entries && IsString(args.entries[key]) ==> IsString(out.entries[key]))
  {
  }

  lemma EnvSubstitutionPlain(args: TestArguments, maps: seq<Option<map<string, string>>>)
    requires forall k | k in args.entries && IsString(args.entries[k]) :: ENVIRONMENT_ANCHOR !in args.entries[k].text
    ensures EnvSubstituted(args, maps) == Some(args)
  {
    forall k | k in args.entries && IsString(args.entries[k])
      ensures TokenSubstitution.Substituted(args.entries[k].text, ENVIRONMENT_ANCHOR, ENVIRONMENT_KIND, maps) == Ok(args.entries[k].text)
    {
      var s := args.entries[k].text;
      forall p | 0 <= p <= |s|
        ensures TokenSubstitution.TokenAt(s, p, ENVIRONMENT_ANCHOR).None?
      {
        if p < |s| {
          assert s[p] != ENVIRONMENT_ANCHOR;
        }
      }
      TokenSubstitution.NoTokenUnchanged(s, ENVIRONMENT_ANCHOR, ENVIRONMENT_KIND, maps);
    }
    var out := EnvSubstituted(args, maps).value;
    assert out.entries == args.entries;
  }

  /** The pass over every test of the case, each test's arguments in turn. */
  function TestsSubstituted(tests: seq<TestDescriptor>, maps: seq<Option<map<string, string>>>): Option<seq<TestDescriptor>>
  {
    if forall i | 0 <= i < |tests| :: EnvSubstituted(tests[i].arguments, maps).Some? then
      Some(seq(|tests|, i requires 0 <= i < |tests| && EnvSubstituted(tests[i].arguments, maps).Some? =>
        tests[i].(arguments := EnvSubstituted(tests[i].arguments, maps).value)))
    else None
  }

  /** A pass that leaves every test's arguments as they were leaves the list as it was. */
  lemma TestsSubstitutedUnchanged(tests: seq<TestDescriptor>, maps: seq<Option<map<string, string>>>)
    requires forall i | 0 <= i < |tests| :: EnvSubstituted(tests[i].arguments, maps) == Some(tests[i].arguments)
    ensures TestsSubstituted(tests, maps) == Some(tests)
  {
    assert forall i | 0 <= i < |tests| :: EnvSubstituted(tests[i].arguments, maps).Some?;
    var out := TestsSubstituted(tests, maps).value;
    assert |out| == |tests|;
    forall i | 0 <= i < |tests|
      ensures out[i] == tests[i]
    {
      assert out[i] == tests[i].(arguments := EnvSubstituted(tests[i].arguments, maps).value);
    }
    assert out == tests;
  }

  /**
   * The descriptor a capability close appends: the set-up and test arguments
   * after the environment pass, and the capability's class.
   */
  function Completed(caseId: string, caseDesc: string, capability: SymbolKind, capabilityId: string, tests: seq<TestDescriptor>,
                     setUpInfo: TestArguments, environment: map<string, string>, processEnv: map<string, string>): Result<TestCaseDescriptor, TestsError>
  {
    var maps := EnvironmentMaps(environment, processEnv);
    match EnvSubstituted(setUpInfo, maps)
    case None => Err(EnvironmentSubstitutionFailed)
    case Some(setUp) =>
      match TestsSubstituted(tests, maps)
      case None => Err(EnvironmentSubstitutionFailed)
      case Some(substituted) =>
        if !capability.CapabilityKind? then Err(WrongSymbolClass(capabilityId))
        else Ok(TestCaseDescriptor(caseId, caseDesc, capability.className, substituted, setUp, environment))
  }

  /** A completed descriptor keeps the case's id, description and tests, in order. */
  lemma CompletedKeepsCase(caseId: string, caseDesc: string, capability: SymbolKind, capabilityId: string, tests: seq<TestDescriptor>,
                           setUpInfo: TestArguments, environment: map<string, string>, processEnv: map<string, string>)
    requires Completed(caseId, caseDesc, capability, capabilityId, tests, setUpInfo, environment, processEnv).Ok?
    ensures var d := Completed(caseId, caseDesc, capability, capabilityId, tests, setUpInfo, environment, processEnv).value;
      d.id == caseId && d.description == caseDesc && d.className == capability.className
      && d.environment == environment && d.setUpInfo.id == setUpInfo.id
      && |d.tests| == |tests| && forall i | 0 <= i < |tests| :: d.tests[i].id == tests[i].id
  {
  }

  /**
   * The handler's fields, for stating what an event changes.
   * `environmentShared` says whether the case environment is the map the
   * last descriptor holds: the source hands its map to the descriptor without
   * copying it, so a later `variable` tag changes that descriptor too.
   */
  datatype TestsState = TestsState(
    caseId: Option<string>, caseDesc: Option<string>,
    testId: Option<string>, tests: Option<seq<TestDescriptor>>,
    setUpInfo: Option<TestArguments>, testArguments: Option<TestArguments>,
    environment: Option<map<string, string>>,
    capability: Symbol?, testSymbol: Symbol?,
    testCases: seq<TestCaseDescriptor>,
    environmentShared: bool)

  /** The output list once the case environment is `environment`: the last descriptor sees the change when it holds the map. */
  function WithEnvironment(testCases: seq<TestCaseDescriptor>, shared: bool, environment: map<string, string>): (r: seq<TestCaseDescriptor>)
    ensures |r| == |testCases|
    ensures forall j | 0 <= j < |testCases| :: r[j].(environment := testCases[j].environment) == testCases[j]
    ensures shared && |testCases| > 0 ==> r[|testCases| - 1].environment == environment
    ensures !shared ==> r == testCases
    ensures forall j | 0 <= j < |testCases| - 1 :: r[j] == testCases[j]
  {
    if shared && |testCases| > 0 then testCases[|testCases| - 1 := testCases[|testCases| - 1].(environment := environment)]
    else testCases
  }

  /** A descriptor the handler can append: it names its case and has at least one test. */
  predicate WellFormed(d: TestCaseDescriptor)
  {
    |d.id| > 0 && |d.description| > 0 && |d.tests| > 0
  }

  /** The state of a handler that has read nothing. */
  const InitialTests := TestsState(None, None, None, None, None, None, None, null, null, [], false)

  /**
   * An open test case has a non-empty id and description; the open
   * capability is one of the table's, so a step reads only the table's
   * symbols and their children; a shared environment is the last
   * descriptor's; every descriptor appended is well formed.
   */
  predicate Consistent(symbols: map<string, Symbol>, st: TestsState)
  {
    (st.caseId.Some? ==> |st.caseId.value| > 0)
    && (st.caseDesc.Some? ==> |st.caseDesc.value| > 0)
    && Inside(symbols, st)
    && (st.environmentShared ==> |st.testCases| > 0 && st.environment == Some(st.testCases[|st.testCases| - 1].environment))
    && forall i | 0 <= i < |st.testCases| :: WellFormed(st.testCases[i])
  }

  predicate Inside(symbols: map<string, Symbol>, st: TestsState)
  {
    st.capability == null || st.capability in symbols.Values
  }

  /** `<testcase>`: a case inside a case, or one without a non-empty id and description, is rejected. */
  function CaseOpened(tag: string, attrs: map<string, string>, st: TestsState): Result<TestsState, TestsError>
  {
    if st.caseId.Some? || st.caseDesc.Some? then Err(UnexpectedOpening(tag))
    else
      var id, desc := Attr(attrs, ATTR_TESTCASE_ID), Attr(attrs, ATTR_TESTCASE_DESC);
      if id.None? || desc.None? || |id.value| < 1 || |desc.value| < 1 then Err(AttributesNotSpecified(tag))
      else Ok(st.(caseId := id, caseDesc := desc, tests := Some([]), capability := null, testSymbol := null))
  }

  /** `<variable>`: the `$`-substituted value joins the case environment, and the last descriptor's while it is shared. */
  function VariableSet(processEnv: map<string, string>, tag: string, attrs: map<string, string>, st: TestsState): Result<TestsState, TestsError>
  {
    if st.environment.None? then Err(UnexpectedTag(tag))
    else
      var name, value := Attr(attrs, ATTR_VARIABLE_NAME), Attr(attrs, ATTR_VARIABLE_VALUE);
      if name.None? || value.None? then Err(BadlyFormedVariable)
      else
        match TokenSubstitution.Substituted(value.value, ENVIRONMENT_ANCHOR, ENVIRONMENT_KIND, EnvironmentMaps(st.environment.value, processEnv))
        case Err(cause) => Err(VariableSubstitutionFailed(cause))
        case Ok(v) =>
          var environment := st.environment.value[name.value := v];
          Ok(st.(environment := Some(environment), testCases := WithEnvironment(st.testCases, st.environmentShared, environment)))
  }

  /** A capability tag of the table: its arguments are loaded and its environment inherited. */
  ghost function CapabilityOpened(symbols: map<string, Symbol>, loader: ClassLoader, tag: string, attrs: map<string, string>, st: TestsState): Result<TestsState, TestsError>
    reads symbols.Values
    requires tag in symbols
  {
    if st.caseId.None? || st.caseDesc.None? || st.setUpInfo.Some? then Err(UnexpectedOpening(tag))
    else if st.capability != null then Err(MultipleCapabilities(st.caseId.value))
    else
      var cap := symbols[tag];
      match Loaded(cap.GetSymbolsInContext(ARGUMENT_CONTEXT), tag, attrs, loader, TestArguments(tag, map[]))
      case Err(e) => Err(e)
      case Ok(setUp) =>
        match EnvironmentFrom(cap.GetSymbolsInContext(ENVIRONMENT_CONTEXT), 0, map[])
        case Err(e) => Err(e)
        case Ok(inherited) =>
          Ok(st.(capability := cap, setUpInfo := Some(setUp), environment := Some(inherited), environmentShared := false))
  }

  /** A test tag: it must name a test of the open capability, whose arguments are loaded. */
  ghost function TestOpened(symbols: map<string, Symbol>, loader: ClassLoader, tag: string, attrs: map<string, string>, st: TestsState): Result<TestsState, TestsError>
    reads symbols.Values, Reach(symbols)
    requires Inside(symbols, st)
  {
    if st.testId.Some? || st.testArguments.Some? || st.capability == null then Err(UnexpectedOpening(tag))
    else
      match st.capability.GetSymbol(tag, TEST_CONTEXT)
      case None => Err(TagNotDefined(tag))
      case Some(test) =>
        match Loaded(test.GetSymbolsInContext(ARGUMENT_CONTEXT), tag, attrs, loader, TestArguments(test.id, map[]))
        case Err(e) => Err(e)
        case Ok(args) => Ok(st.(testSymbol := test, testId := Some(test.id), testArguments := Some(args)))
  }

  /** The close of a test: it joins the case's list. */
  function TestClosed(tag: string, st: TestsState): Result<TestsState, TestsError>
  {
    if st.testId.None? || st.testArguments.None? then Err(UnexpectedClosing(tag))
    else if st.tests.None? then Err(NullPointer)
    else Ok(st.(tests := Some(st.tests.value + [TestDescriptor(st.testId.value, st.testArguments.value)]),
                testId := None, testArguments := None))
  }

  /** The close of a capability: one descriptor is appended when the capability has tests. */
  function CapabilityClosed(processEnv: map<string, string>, tag: string, st: TestsState): Result<TestsState, TestsError>
  {
    if st.capability == null || st.setUpInfo.None? || st.caseId.None? || st.caseDesc.None? || st.tests.None? || st.environment.None? then
      Err(UnexpectedClosing(tag))
    else
      var closed := st.(capability := null, setUpInfo := None, tests := None);
      if |st.tests.value| == 0 then Ok(closed)
      else
        match Completed(st.caseId.value, st.caseDesc.value, st.capability.kind, st.capability.id,
                        st.tests.value, st.setUpInfo.value, st.environment.value, processEnv)
        case Err(e) => Err(e)
        case Ok(d) => Ok(closed.(testCases := st.testCases + [d], environmentShared := true))
  }

  /** A tag the profile defines: a capability of the table, else a test. */
  ghost function SymbolOpened(symbols: map<string, Symbol>, loader: ClassLoader, tag: string, attrs: map<string, string>, st: TestsState): Result<TestsState, TestsError>
    reads symbols.Values, Reach(symbols)
    requires Inside(symbols, st)
  {
    if tag in symbols then CapabilityOpened(symbols, loader, tag, attrs, st) else TestOpened(symbols, loader, tag, attrs, st)
  }

  /** The close of a tag the profile defines. */
  function SymbolClosed(symbols: map<string, Symbol>, processEnv: map<string, string>, tag: string, st: TestsState): Result<TestsState, TestsError>
  {
    if tag in symbols then CapabilityClosed(processEnv, tag, st) else TestClosed(tag, st)
  }

  /**
   * One event of the document: the document's own tags, else a capability of
   * the table, else a test.
   */
  ghost function TestsStep(symbols: map<string, Symbol>, loader: ClassLoader, processEnv: map<string, string>, st: TestsState, ev: SaxEvent): (r: Result<TestsState, TestsError>)
    reads symbols.Values, Reach(symbols)
    requires Inside(symbols, st)
    ensures r.Ok? ==> Inside(symbols, r.value)
  {
    match ev
    case StartTag(name, attrs) =>
      if name == TAG_TESTS then Ok(st)
      else if name == TAG_TESTCASE then CaseOpened(name, attrs, st)
      else if name == TAG_ENVIRONMENT then
        if st.environment.None? || st.capability == null || st.testId.Some? then Err(UnexpectedTag(name)) else Ok(st)
      else if name == TAG_VARIABLE then VariableSet(processEnv, name, attrs, st)
      else SymbolOpened(symbols, loader, name, attrs, st)
    case EndTag(name) =>
      if name == TAG_TESTS || name == TAG_ENVIRONMENT || name == TAG_VARIABLE then Ok(st)
      else if name == TAG_TESTCASE then
        if st.caseId.None? || st.caseDesc.None? then Err(UnexpectedClosing(name)) else Ok(st.(caseId := None, caseDesc := None))
      else SymbolClosed(symbols, processEnv, name, st)
  }

  /** The events read in order from the initial state; the first rejected one ends the run. */
  ghost function TestsRun(symbols: map<string, Symbol>, loader: ClassLoader, processEnv: map<string, string>, events: seq<SaxEvent>): (r: Result<TestsState, TestsError>)
    reads symbols.Values, Reach(symbols)
    ensures r.Ok? ==> Inside(symbols, r.value)
  {
    if events == [] then Ok(InitialTests)
    else
      match TestsRun(symbols, loader, processEnv, events[..|events| - 1])
      case Err(e) => Err(e)
      case Ok(st) => TestsStep(symbols, loader, processEnv, st, events[|events| - 1])
  }

  /** A rejection ends the run: the events after it are never read. */
  lemma {:induction false} RejectionFinal(symbols: map<string, Symbol>, loader: ClassLoader, processEnv: map<string, string>, events: seq<SaxEvent>, k: nat)
    requires k <= |events| && TestsRun(symbols, loader, processEnv, events[..k]).Err?
    ensures TestsRun(symbols, loader, processEnv, events) == TestsRun(symbols, loader, processEnv, events[..k])
    decreases |events|
  {
    if k < |events| {
      var last := |events| - 1;
      assert events[..last][..k] == events[..k];
      RejectionFinal(symbols, loader, processEnv, events[..last], k);
    } else {
      assert events[..k] == events;
    }
  }

  /**
   * `later` continues `earlier`: every descriptor is kept, and only the last
   * one's environment may have changed since.
   */
  predicate Continues(earlier: seq<TestCaseDescriptor>, later: seq<TestCaseDescriptor>)
  {
    |earlier| <= |later|
    && (forall j | 0 <= j < |earlier| - 1 :: later[j] == earlier[j])
    && (|earlier| > 0 ==> later[|earlier| - 1].(environment := earlier[|earlier| - 1].environment) == earlier[|earlier| - 1])
  }

  lemma ContinuesTransitive(a: seq<TestCaseDescriptor>, b: seq<TestCaseDescriptor>, c: seq<TestCaseDescriptor>)
    requires Continues(a, b) && Continues(b, c)
    ensures Continues(a, c)
  {
    if |a| > 0 {
      var n := |a| - 1;
      if n < |b| - 1 {
        assert c[n] == b[n];
      }
    }
  }

  /**
   * An accepted event keeps the descriptors already appended; only the close
   * of a capability appends one, and only a `variable` tag changes the last
   * one's environment.
   */
  lemma StepContinues(symbols: map<string, Symbol>, loader: ClassLoader, processEnv: map<string, string>, st: TestsState, ev: SaxEvent)
    requires Inside(symbols, st) && TestsStep(symbols, loader, processEnv, st, ev).Ok?
    ensures var next := TestsStep(symbols, loader, processEnv, st, ev).value;
      Continues(st.testCases, next.testCases)
      && |next.testCases| <= |st.testCases| + 1
      && (|next.testCases| > |st.testCases| ==> ev.EndTag? && ev.name in symbols)
      && (next.testCases != st.testCases ==> ev.name in symbols || ev.name == TAG_VARIABLE)
  {
    var next := TestsStep(symbols, loader, processEnv, st, ev).value;
    match ev
    case StartTag(name, attrs) =>
      if name == TAG_VARIABLE {
        assert next == VariableSet(processEnv, name, attrs, st).value;
      } else {
        assert next.testCases == st.testCases;
      }
    case EndTag(name) =>
      if name in symbols && |st.testCases| > 0 && |next.testCases| > |st.testCases| {
        assert next.testCases[|st.testCases| - 1] == st.testCases[|st.testCases| - 1];
      }
  }

  /**
   * Descriptors are appended in document order: the descriptors of any prefix
   * of an accepted document are those of the whole document, except that the
   * last one's environment may still change.
   */
  lemma {:induction false} DescriptorsInDocumentOrder(symbols: map<string, Symbol>, loader: ClassLoader, processEnv: map<string, string>,
                                                     events: seq<SaxEvent>, k: nat)
    requires k <= |events| && TestsRun(symbols, loader, processEnv, events).Ok?
    ensures TestsRun(symbols, loader, processEnv, events[..k]).Ok?
    ensures Continues(TestsRun(symbols, loader, processEnv, events[..k]).value.testCases,
                      TestsRun(symbols, loader, processEnv, events).value.testCases)
    decreases |events|
  {
    if k == |events| {
      assert events[..k] == events;
    } else {
      var last := |events| - 1;
      assert events[..last][..k] == events[..k];
      DescriptorsInDocumentOrder(symbols, loader, processEnv, events[..last], k);
      var st := TestsRun(symbols, loader, processEnv, events[..last]).value;
      StepContinues(symbols, loader, processEnv, st, events[last]);
      ContinuesTransitive(TestsRun(symbols, loader, processEnv, events[..k]).value.testCases, st.testCases,
                          TestsRun(symbols, loader, processEnv, events).value.testCases);
    }
  }

  /** One more event read: the run of the longer prefix is the step from the run of the shorter one. */
  lemma RunExtended(symbols: map<string, Symbol>, loader: ClassLoader, processEnv: map<string, string>, events: seq<SaxEvent>, k: nat,
                    st: TestsState, next: TestsState)
    requires k < |events| && TestsRun(symbols, loader, processEnv, events[..k]) == Ok(st)
    requires TestsStep(symbols, loader, processEnv, st, events[k]) == Ok(next)
    ensures TestsRun(symbols, loader, processEnv, events[..k + 1]) == Ok(next)
  {
    assert events[..k + 1][..k] == events[..k];
  }

  /**
   * `<testcase id="c" description="d"><cap><t/></cap><variable name="X" value="1"/></testcase>`:
   * a case whose `variable` comes after its capability's close.
   */
  function LateVariableDocument(): seq<SaxEvent>
  {
    [StartTag(TAG_TESTCASE, map[ATTR_TESTCASE_ID := "c", ATTR_TESTCASE_DESC := "d"]),
     StartTag("cap", map[]), StartTag("t", map[]), EndTag("t"), EndTag("cap"),
     StartTag(TAG_VARIABLE, map[ATTR_VARIABLE_NAME := "X", ATTR_VARIABLE_VALUE := "1"]),
     EndTag(TAG_TESTCASE)]
  }

  /** The state after `<testcase id="c" description="d"><cap><t/>` and the close of `t`. */
  function LateVariableTestRead(cap: Symbol, test: Symbol): TestsState
  {
    InitialTests.(caseId := Some("c"), caseDesc := Some("d"), capability := cap, setUpInfo := Some(TestArguments("cap", map[])),
                  environment := Some(map[]), testSymbol := test, tests := Some([TestDescriptor(test.id, TestArguments(test.id, map[]))]))
  }

  /** The descriptor of the case, with the environment it holds. */
  function LateVariableDescriptor(cap: Symbol, test: Symbol, environment: map<string, string>): TestCaseDescriptor
    requires cap.kind.CapabilityKind?
  {
    TestCaseDescriptor("c", "d", cap.kind.className, [TestDescriptor(test.id, TestArguments(test.id, map[]))],
                       TestArguments("cap", map[]), environment)
  }

  /** `cap` is a capability without arguments or environment, and `t` a test of it without arguments. */
  ghost predicate LateVariableProfile(symbols: map<string, Symbol>, test: Symbol)
    reads symbols.Values, test
  {
    "cap" in symbols && "t" !in symbols && symbols["cap"].kind.CapabilityKind?
    && symbols["cap"].GetSymbolsInContext(ARGUMENT_CONTEXT) == [] && symbols["cap"].GetSymbolsInContext(ENVIRONMENT_CONTEXT) == []
    && symbols["cap"].GetSymbol("t", TEST_CONTEXT) == Some(test) && test.GetSymbolsInContext(ARGUMENT_CONTEXT) == []
  }

  lemma LateVariableTestClosed(symbols: map<string, Symbol>, loader: ClassLoader, processEnv: map<string, string>, test: Symbol)
    requires LateVariableProfile(symbols, test)
    ensures TestsRun(symbols, loader, processEnv, LateVariableDocument()[..4]) == Ok(LateVariableTestRead(symbols["cap"], test))
  {
    var doc := LateVariableDocument();
    var cap := symbols["cap"];
    var testArgs := TestArguments(test.id, map[]);
    var s1 := InitialTests.(caseId := Some("c"), caseDesc := Some("d"), tests := Some([]));
    var s2 := s1.(capability := cap, setUpInfo := Some(TestArguments("cap", map[])), environment := Some(map[]));
    var s3 := s2.(testSymbol := test, testId := Some(test.id), testArguments := Some(testArgs));
    assert doc[..0] == [];
    RunExtended(symbols, loader, processEnv, doc, 0, InitialTests, s1);
    RunExtended(symbols, loader, processEnv, doc, 1, s1, s2);
    RunExtended(symbols, loader, processEnv, doc, 2, s2, s3);
    assert s3.tests.value + [TestDescriptor(test.id, testArgs)] == [TestDescriptor(test.id, testArgs)];
    RunExtended(symbols, loader, processEnv, doc, 3, s3, LateVariableTestRead(cap, test));
  }

  lemma LateVariableCapabilityClosed(symbols: map<string, Symbol>, loader: ClassLoader, processEnv: map<string, string>, test: Symbol)
    requires LateVariableProfile(symbols, test)
    ensures TestsRun(symbols, loader, processEnv, LateVariableDocument()[..5])
      == Ok(LateVariableTestRead(symbols["cap"], test).(capability := null, setUpInfo := None, tests := None,
              testCases := [LateVariableDescriptor(symbols["cap"], test, map[])], environmentShared := true))
  {
    var cap := symbols["cap"];
    var setUp, testArgs := TestArguments("cap", map[]), TestArguments(test.id, map[]);
    var maps := EnvironmentMaps(map[], processEnv);
    LateVariableTestClosed(symbols, loader, processEnv, test);
    assert EnvSubstituted(setUp, maps) == Some(setUp);
    assert EnvSubstituted(testArgs, maps) == Some(testArgs);
    TestsSubstitutedUnchanged([TestDescriptor(test.id, testArgs)], maps);
    var d := LateVariableDescriptor(cap, test, map[]);
    assert Completed("c", "d", cap.kind, cap.id, [TestDescriptor(test.id, testArgs)], setUp, map[], processEnv) == Ok(d);
    assert LateVariableTestRead(cap, test).testCases + [d] == [d];
    RunExtended(symbols, loader, processEnv, LateVariableDocument(), 4, LateVariableTestRead(cap, test),
      LateVariableTestRead(cap, test).(capability := null, setUpInfo := None, tests := None, testCases := [d], environmentShared := true));
  }

  /**
   * The descriptor holds the case environment itself, not a copy: with `cap`
   * a capability without arguments or environment and `t` a test of it
   * without arguments, the variable read after the capability's close is in
   * the environment of the descriptor the close appended.
   */
  lemma LateVariableReachesDescriptor(symbols: map<string, Symbol>, loader: ClassLoader, processEnv: map<string, string>, test: Symbol)
    requires LateVariableProfile(symbols, test)
    ensures TestsOutcome(symbols, loader, processEnv, LateVariableDocument())
      == Ok([LateVariableDescriptor(symbols["cap"], test, map["X" := "1"])])
  {
    var doc := LateVariableDocument();
    var cap := symbols["cap"];
    var d := LateVariableDescriptor(cap, test, map[]);
    var s5 := LateVariableTestRead(cap, test).(capability := null, setUpInfo := None, tests := None, testCases := [d], environmentShared := true);
    var s6 := s5.(environment := Some(map["X" := "1"]), testCases := [d.(environment := map["X" := "1"])]);
    LateVariableCapabilityClosed(symbols, loader, processEnv, test);
    assert forall k | 0 <= k <= |"1"| :: TokenSubstitution.TokenAt("1", k, ENVIRONMENT_ANCHOR).None?;
    TokenSubstitution.NoTokenUnchanged("1", ENVIRONMENT_ANCHOR, ENVIRONMENT_KIND, EnvironmentMaps(map[], processEnv));
    assert WithEnvironment([d], true, map["X" := "1"]) == [d.(environment := map["X" := "1"])];
    RunExtended(symbols, loader, processEnv, doc, 5, s5, s6);
    RunExtended(symbols, loader, processEnv, doc, 6, s6, s6.(caseId := None, caseDesc := None));
    assert doc[..7] == doc;
  }

  /** What parsing the document yields: the descriptors of an accepted document, or the first rejection. */
  ghost function TestsOutcome(symbols: map<string, Symbol>, loader: ClassLoader, processEnv: map<string, string>, events: seq<SaxEvent>): Result<seq<TestCaseDescriptor>, TestsError>
    reads symbols.Values, Reach(symbols)
  {
    match TestsRun(symbols, loader, processEnv, events)
    case Err(e) => Err(e)
    case Ok(st) => Ok(st.testCases)
  }

  /**
   * `TestsHandler`. The parse ends at the first rejected event, so the
   * contracts say nothing of the state a rejected event leaves.
   */
  class TestsHandler {
    const symbols: map<string, Symbol>
    const loader: ClassLoader
    /** `System.getenv()`. */
    const processEnv: map<string, string>
    const argumentsSubstitution: TokenSubstitution.TokenSubstitution
    const environmentSubstitution: TokenSubstitution.TokenSubstitution

    var currentTestCaseId: Option<string>
    var currentTestCaseDesc: Option<string>
    var currentTestId: Option<string>
    var currentTests: Option<seq<TestDescriptor>>
    var currentSetupInfo: Option<TestArguments>
    var currentTestArguments: Option<TestArguments>
    var currentTestEnvironment: Option<map<string, string>>
    var currentCapability: Symbol?
    var currentTestSymbol: Symbol?
    /** The output list. */
    var testCases: seq<TestCaseDescriptor>
    /** Whether `currentTestEnvironment` is the map the last descriptor of `testCases` holds. */
    var environmentShared: bool

    function St(): TestsState
      reads this
    {
      TestsState(currentTestCaseId, currentTestCaseDesc, currentTestId, currentTests,
        currentSetupInfo, currentTestArguments, currentTestEnvironment,
        currentCapability, currentTestSymbol, testCases, environmentShared)
    }

    /** The two substitution services: `%` with kind "Argument", `$` with kind "Environment variable". */
    predicate Services()
    {
      argumentsSubstitution.anchor == ARGUMENT_ANCHOR && argumentsSubstitution.kind == ARGUMENT_KIND
      && environmentSubstitution.anchor == ENVIRONMENT_ANCHOR && environmentSubstitution.kind == ENVIRONMENT_KIND
    }

    /** The two services are in place and the fields are `Consistent`. */
    ghost predicate Valid()
      reads this
    {
      Services() && Consistent(symbols, St())
    }

    constructor (symbols: map<string, Symbol>, loader: ClassLoader, processEnv: map<string, string>)
      ensures this.symbols == symbols && this.loader == loader && this.processEnv == processEnv
      ensures St() == InitialTests
      ensures fresh(argumentsSubstitution) && fresh(environmentSubstitution)
      ensures Valid()
    {
      this.symbols := symbols;
      this.loader := loader;
      this.processEnv := processEnv;
      argumentsSubstitution := new TokenSubstitution.TokenSubstitution(ARGUMENT_ANCHOR, ARGUMENT_KIND);
      environmentSubstitution := new TokenSubstitution.TokenSubstitution(ENVIRONMENT_ANCHOR, ENVIRONMENT_KIND);
      currentTestCaseId, currentTestCaseDesc, currentTestId := None, None, None;
      currentTests, currentSetupInfo, currentTestArguments, currentTestEnvironment := None, None, None, None;
      currentCapability, currentTestSymbol := null, null;
      testCases := [];
      environmentShared := false;
    }

    /** One declared argument of `tag`, built as `LoadOne` states. */
    method LoadArgument(sym: Symbol, tag: string, attrs: map<string, string>, args: TestArguments) returns (r: Result<Value, TestsError>)
      requires Services()
      modifies argumentsSubstitution
      ensures r == LoadOne(sym, tag, attrs, loader, args)
    {
      if !sym.kind.ArgumentKind? {
        return Err(WrongSymbolClass(sym.id));
      }
      var argId := sym.id;
      var klassName := sym.kind.kindClass;
      if klassName !in loader.loadable {
        return Err(ClassNotLoaded(klassName, argId, tag));
      }
      var argValue := Attr(attrs, argId);
      if argValue.None? {
        return Err(ArgumentNotSet(argId));
      }
      argumentsSubstitution.ClearMaps();
      var service := argumentsSubstitution.AddMap(Some(Texts(args)));
      assert service.maps == ArgumentMaps(args);
      var substituted := service.Substitute(argValue.value);
      if substituted.Err? {
        return Err(ArgumentSubstitutionFailed(argId, tag, substituted.error));
      }
      if klassName !in loader.stringConstructible {
        return Err(NoStringConstructor(klassName, argId, tag));
      }
      var argValueObj := loader.newInstance(klassName, substituted.value);
      if argValueObj.None? {
        return Err(ConstructionFailed(klassName, argId, tag, substituted.value));
      }
      r := Ok(Value(klassName, argValueObj.value));
    }

    /** `loadArguments`: the counts are compared, then each declared argument is built and stored in turn. */
    method LoadArguments(aSymbol: Symbol, arguments: TestArguments, tag: string, attrs: map<string, string>) returns (r: Result<TestArguments, TestsError>)
      requires Services()
      modifies argumentsSubstitution
      ensures r == Loaded(aSymbol.GetSymbolsInContext(ARGUMENT_CONTEXT), tag, attrs, loader, arguments)
    {
      var symbolArguments := aSymbol.GetSymbolsInContext(ARGUMENT_CONTEXT);
      if |attrs| != |symbolArguments| {
        return Err(ArgumentCountMismatch(tag, |symbolArguments|, |attrs|));
      }
      var args := arguments;
      var i := 0;
      while i < |symbolArguments|
        invariant 0 <= i <= |symbolArguments|
        invariant LoadFrom(symbolArguments, 0, tag, attrs, loader, arguments) == LoadFrom(symbolArguments, i, tag, attrs, loader, args)
      {
        var symbol := symbolArguments[i];
        var value := LoadArgument(symbol, tag, attrs, args);
        if value.Err? {
          return Err(value.error);
        }
        args := Put(args, symbol.id, value.value);
        i := i + 1;
      }
      r := Ok(args);
    }

    /** The capability's environment variables, put into a new map in declared order. */
    method InheritEnvironment(capability: Symbol) returns (r: Result<map<string, string>, TestsError>)
      ensures r == EnvironmentFrom(capability.GetSymbolsInContext(ENVIRONMENT_CONTEXT), 0, map[])
    {
      var environmentSymbols := capability.GetSymbolsInContext(ENVIRONMENT_CONTEXT);
      var environment: map<string, string> := map[];
      var i := 0;
      while i < |environmentSymbols|
        invariant 0 <= i <= |environmentSymbols|
        invariant EnvironmentFrom(environmentSymbols, 0, map[]) == EnvironmentFrom(environmentSymbols, i, environment)
      {
        var symbol := environmentSymbols[i];
        if !symbol.kind.EnvironmentKind? {
          return Err(WrongSymbolClass(symbol.id));
        }
        environment := environment[symbol.id := symbol.kind.value];
        i := i + 1;
      }
      r := Ok(environment);
    }

    /** Registers the case environment, then the process environment, with the `$` service. */
    method InitialiseEnvironmentSubstitution(environment: map<string, string>)
      modifies environmentSubstitution
      ensures environmentSubstitution.maps == EnvironmentMaps(environment, processEnv)
    {
      environmentSubstitution.ClearMaps();
      var service := environmentSubstitution.AddMap(Some(environment));
      service := service.AddMap(Some(processEnv));
    }

    /** `environmentSubstitution` on one argument map: the string values, in key-set order. */
    method EnvironmentSubstitution(args: TestArguments, environment: map<string, string>) returns (r: Option<TestArguments>)
      requires Services()
      modifies environmentSubstitution
      ensures r == EnvSubstituted(args, EnvironmentMaps(environment, processEnv))
    {
      ghost var maps := EnvironmentMaps(environment, processEnv);
      InitialiseEnvironmentSubstitution(environment);
      var entries := args.entries;
      var remaining := args.entries.Keys;
      while remaining != {}
        invariant remaining <= args.entries.Keys && entries.Keys == args.entries.Keys
        invariant environmentSubstitution.maps == maps
        invariant forall k | k in remaining :: entries[k] == args.entries[k]
        invariant forall k | k in args.entries && k !in remaining ::
          Substitutable(args.entries[k], maps) && entries[k] == Rewritten(args.entries[k], maps)
        decreases remaining
      {
        var argId :| argId in remaining;
        var argValue := entries[argId];
        if IsString(argValue) {
          var newValue := environmentSubstitution.Substitute(argValue.text);
          if newValue.Err? {
            assert !Substitutable(args.entries[argId], maps);
            return None;
          }
          entries := entries[argId := StringValue(newValue.value)];
        }
        remaining := remaining - {argId};
      }
      assert entries == map k | k in args.entries :: Rewritten(args.entries[k], maps);
      r := Some(TestArguments(args.id, entries));
    }

    /** The pass over the arguments of every test of the case, in order. */
    method SubstituteTests(tests: seq<TestDescriptor>, environment: map<string, string>) returns (r: Option<seq<TestDescriptor>>)
      requires Services()
      modifies environmentSubstitution
      ensures r == TestsSubstituted(tests, EnvironmentMaps(environment, processEnv))
    {
      ghost var maps := EnvironmentMaps(environment, processEnv);
      var done: seq<TestDescriptor> := [];
      var i := 0;
      while i < |tests|
        invariant 0 <= i <= |tests| && |done| == i
        invariant forall j | 0 <= j < i ::
          EnvSubstituted(tests[j].arguments, maps).Some?
          && done[j] == tests[j].(arguments := EnvSubstituted(tests[j].arguments, maps).value)
      {
        var testArgs := EnvironmentSubstitution(tests[i].arguments, environment);
        if testArgs.None? {
          return None;
        }
        done := done + [tests[i].(arguments := testArgs.value)];
        i := i + 1;
      }
      assert done == seq(|tests|, j requires 0 <= j < |tests| && EnvSubstituted(tests[j].arguments, maps).Some? =>
        tests[j].(arguments := EnvSubstituted(tests[j].arguments, maps).value));
      r := Some(done);
    }

    /** The descriptor of a closed capability with tests: `$` substitution, then the capability's class. */
    method CompleteTestCase(caseId: string, caseDesc: string, capability: Symbol, tests: seq<TestDescriptor>,
                            setUpInfo: TestArguments, environment: map<string, string>) returns (r: Result<TestCaseDescriptor, TestsError>)
      requires Services()
      modifies environmentSubstitution
      ensures r == Completed(caseId, caseDesc, capability.kind, capability.id, tests, setUpInfo, environment, processEnv)
    {
      var setUp := EnvironmentSubstitution(setUpInfo, environment);
      if setUp.None? {
        return Err(EnvironmentSubstitutionFailed);
      }
      var substituted := SubstituteTests(tests, environment);
      if substituted.None? {
        return Err(EnvironmentSubstitutionFailed);
      }
      if !capability.kind.CapabilityKind? {
        return Err(WrongSymbolClass(capability.id));
      }
      var className := capability.kind.className;
      r := Ok(TestCaseDescriptor(caseId, caseDesc, className, substituted.value, setUp.value, environment));
    }

    /** `<testcase>`: opens a case with a non-empty id and description and an empty test list. */
    method TestCaseStart(tagName: string, attrs: map<string, string>) returns (r: Result<(), TestsError>)
      requires Valid()
      modifies this
      ensures old(currentTestCaseId).Some? || old(currentTestCaseDesc).Some? ==> r == Err(UnexpectedOpening(tagName))
      ensures old(currentTestCaseId).None? && old(currentTestCaseDesc).None? ==>
        var id, desc := Attr(attrs, ATTR_TESTCASE_ID), Attr(attrs, ATTR_TESTCASE_DESC);
        if id.None? || desc.None? || |id.value| < 1 || |desc.value| < 1 then r == Err(AttributesNotSpecified(tagName))
        else r.Ok? && St() == old(St()).(caseId := id, caseDesc := desc, tests := Some([]), capability := null, testSymbol := null)
      ensures r.Ok? ==> Valid()
    {
      if currentTestCaseId.Some? || currentTestCaseDesc.Some? {
        return Err(UnexpectedOpening(tagName));
      }
      currentTestCaseId := Attr(attrs, ATTR_TESTCASE_ID);
      currentTestCaseDesc := Attr(attrs, ATTR_TESTCASE_DESC);
      if currentTestCaseId.None? || currentTestCaseDesc.None? || |currentTestCaseId.value| < 1 || |currentTestCaseDesc.value| < 1 {
        return Err(AttributesNotSpecified(tagName));
      }
      currentTests := Some([]);
      currentCapability := null;
      currentTestSymbol := null;
      r := Ok(());
    }

    /** `</testcase>`: closes the open case. */
    method TestCaseEnd(tagName: string) returns (r: Result<(), TestsError>)
      requires Valid()
      modifies this
      ensures old(currentTestCaseId).None? || old(currentTestCaseDesc).None? ==> r == Err(UnexpectedClosing(tagName))
      ensures old(currentTestCaseId).Some? && old(currentTestCaseDesc).Some? ==>
        r.Ok? && St() == old(St()).(caseId := None, caseDesc := None)
      ensures r.Ok? ==> Valid()
    {
      if currentTestCaseId.None? || currentTestCaseDesc.None? {
        return Err(UnexpectedClosing(tagName));
      }
      currentTestCaseId := None;
      currentTestCaseDesc := None;
      r := Ok(());
    }

    /**
     * A capability tag: allowed only inside a case and outside any other
     * capability's set-up; its arguments are loaded and its environment
     * inherited from the profile.
     */
    method CapabilityStart(tagName: string, attrs: map<string, string>) returns (r: Result<(), TestsError>)
      requires Valid() && tagName in symbols
      modifies this, argumentsSubstitution
      ensures old(currentTestCaseId).None? || old(currentTestCaseDesc).None? || old(currentSetupInfo).Some? ==>
        r == Err(UnexpectedOpening(tagName))
      ensures old(currentTestCaseId).Some? && old(currentTestCaseDesc).Some? && old(currentSetupInfo).None? ==>
        var cap := symbols[tagName];
        var loaded := Loaded(cap.GetSymbolsInContext(ARGUMENT_CONTEXT), tagName, attrs, loader, TestArguments(tagName, map[]));
        var inherited := EnvironmentFrom(cap.GetSymbolsInContext(ENVIRONMENT_CONTEXT), 0, map[]);
        if old(currentCapability) != null then r == Err(MultipleCapabilities(old(currentTestCaseId).value))
        else if loaded.Err? then r == Err(loaded.error)
        else if inherited.Err? then r == Err(inherited.error)
        else r.Ok? && St() == old(St()).(capability := cap, setUpInfo := Some(loaded.value), environment := Some(inherited.value),
                                         environmentShared := false)
      ensures r.Ok? ==> Valid()
    {
      if currentTestCaseId.None? || currentTestCaseDesc.None? || currentSetupInfo.Some? {
        return Err(UnexpectedOpening(tagName));
      }
      if currentCapability != null {
        return Err(MultipleCapabilities(currentTestCaseId.value));
      }
      var capability := symbols[tagName];
      var loaded := LoadArguments(capability, TestArguments(tagName, map[]), tagName, attrs);
      currentCapability := capability;
      if loaded.Err? {
        return Err(loaded.error);
      }
      currentSetupInfo := Some(loaded.value);
      var inherited := InheritEnvironment(capability);
      if inherited.Err? {
        return Err(inherited.error);
      }
      currentTestEnvironment, environmentShared := Some(inherited.value), false;
      r := Ok(());
    }

    /**
     * A test tag: allowed only inside a capability and outside another test;
     * it must name a test of the capability, whose arguments are loaded.
     */
    method TestStart(tagName: string, attrs: map<string, string>) returns (r: Result<(), TestsError>)
      requires Valid()
      modifies this, argumentsSubstitution
      ensures old(currentTestId).Some? || old(currentTestArguments).Some? || old(currentCapability) == null ==>
        r == Err(UnexpectedOpening(tagName))
      ensures old(currentTestId).None? && old(currentTestArguments).None? && old(currentCapability) != null ==>
        match old(currentCapability).GetSymbol(tagName, TEST_CONTEXT)
        case None => r == Err(TagNotDefined(tagName))
        case Some(test) =>
          var loaded := Loaded(test.GetSymbolsInContext(ARGUMENT_CONTEXT), tagName, attrs, loader, TestArguments(test.id, map[]));
          if loaded.Err? then r == Err(loaded.error)
          else r.Ok? && St() == old(St()).(testSymbol := test, testId := Some(test.id), testArguments := Some(loaded.value))
      ensures r.Ok? ==> Valid()
    {
      if currentTestId.Some? || currentTestArguments.Some? || currentCapability == null {
        return Err(UnexpectedOpening(tagName));
      }
      var found := currentCapability.GetSymbol(tagName, TEST_CONTEXT);
      if found.None? {
        currentTestSymbol := null;
        return Err(TagNotDefined(tagName));
      }
      var test := found.value;
      var loaded := LoadArguments(test, TestArguments(test.id, map[]), tagName, attrs);
      currentTestSymbol, currentTestId := test, Some(test.id);
      if loaded.Err? {
        return Err(loaded.error);
      }
      currentTestArguments := Some(loaded.value);
      r := Ok(());
    }

    /** The close of a test tag: the test joins the case's list. */
    method TestEnd(tagName: string) returns (r: Result<(), TestsError>)
      requires Valid()
      modifies this
      ensures old(currentTestId).None? || old(currentTestArguments).None? ==> r == Err(UnexpectedClosing(tagName))
      ensures old(currentTestId).Some? && old(currentTestArguments).Some? && old(currentTests).None? ==> r == Err(NullPointer)
      ensures old(currentTestId).Some? && old(currentTestArguments).Some? && old(currentTests).Some? ==>
        r.Ok? && St() == old(St()).(
          tests := Some(old(currentTests).value + [TestDescriptor(old(currentTestId).value, old(currentTestArguments).value)]),
          testId := None, testArguments := None)
      ensures r.Ok? ==> Valid()
    {
      if currentTestId.None? || currentTestArguments.None? {
        return Err(UnexpectedClosing(tagName));
      }
      if currentTests.None? {
        return Err(NullPointer);
      }
      currentTests := Some(currentTests.value + [TestDescriptor(currentTestId.value, currentTestArguments.value)]);
      currentTestId := None;
      currentTestArguments := None;
      r := Ok(());
    }

    /** `<environment>`: allowed only inside a capability, outside its tests. */
    method EnvironmentStart(tagName: string) returns (r: Result<(), TestsError>)
      requires Valid()
      ensures if currentTestEnvironment.None? || currentCapability == null || currentTestId.Some? then r == Err(UnexpectedTag(tagName)) else r.Ok?
    {
      if currentTestEnvironment.None? || currentCapability == null || currentTestId.Some? {
        return Err(UnexpectedTag(tagName));
      }
      r := Ok(());
    }

    /**
     * `<variable>`: its value, `$`-substituted, overrides the case
     * environment, and so the environment of the last descriptor while that
     * descriptor holds the map.
     */
    method VariableStart(tagName: string, attrs: map<string, string>) returns (r: Result<(), TestsError>)
      requires Valid()
      modifies this, environmentSubstitution
      ensures old(currentTestEnvironment).None? ==> r == Err(UnexpectedTag(tagName))
      ensures old(currentTestEnvironment).Some? ==>
        var environment := old(currentTestEnvironment).value;
        var name, value := Attr(attrs, ATTR_VARIABLE_NAME), Attr(attrs, ATTR_VARIABLE_VALUE);
        if name.None? || value.None? then r == Err(BadlyFormedVariable)
        else
          match TokenSubstitution.Substituted(value.value, ENVIRONMENT_ANCHOR, ENVIRONMENT_KIND, EnvironmentMaps(environment, processEnv))
          case Err(cause) => r == Err(VariableSubstitutionFailed(cause))
          case Ok(v) => r.Ok? && St() == old(St()).(environment := Some(environment[name.value := v]),
            testCases := WithEnvironment(old(testCases), old(environmentShared), environment[name.value := v]))
      ensures r.Ok? ==> Valid()
    {
      if currentTestEnvironment.None? {
        return Err(UnexpectedTag(tagName));
      }
      var varName := Attr(attrs, ATTR_VARIABLE_NAME);
      var varValue := Attr(attrs, ATTR_VARIABLE_VALUE);
      if varName.None? || varValue.None? {
        return Err(BadlyFormedVariable);
      }
      InitialiseEnvironmentSubstitution(currentTestEnvironment.value);
      var newVarValue := environmentSubstitution.Substitute(varValue.value);
      if newVarValue.Err? {
        return Err(VariableSubstitutionFailed(newVarValue.error));
      }
      currentTestEnvironment := Some(currentTestEnvironment.value[varName.value := newVarValue.value]);
      testCases := WithEnvironment(testCases, environmentShared, currentTestEnvironment.value);
      r := Ok(());
    }

    /**
     * The close of a capability: with at least one test, the string
     * arguments are `$`-substituted and one descriptor is appended; with none,
     * nothing is. Either way the capability, its set-up and its test list are
     * closed; the case environment stays open, and after an append it is the
     * map the new descriptor holds.
     */
    method CapabilityEnd(tagName: string) returns (r: Result<(), TestsError>)
      requires Valid()
      modifies this, environmentSubstitution
      ensures (old(currentCapability) == null || old(currentSetupInfo).None? || old(currentTestCaseId).None?
        || old(currentTestCaseDesc).None? || old(currentTests).None? || old(currentTestEnvironment).None?) ==>
        r == Err(UnexpectedClosing(tagName))
      ensures (old(currentCapability) != null && old(currentSetupInfo).Some? && old(currentTestCaseId).Some?
        && old(currentTestCaseDesc).Some? && old(currentTests).Some? && old(currentTestEnvironment).Some?) ==>
        var closed := old(St()).(capability := null, setUpInfo := None, tests := None);
        if |old(currentTests).value| == 0 then r.Ok? && St() == closed
        else
          var d := Completed(old(currentTestCaseId).value, old(currentTestCaseDesc).value, old(currentCapability).kind, old(currentCapability).id,
                             old(currentTests).value, old(currentSetupInfo).value, old(currentTestEnvironment).value, processEnv);
          if d.Err? then r == Err(d.error)
          else r.Ok? && St() == closed.(testCases := old(testCases) + [d.value], environmentShared := true)
      ensures r.Ok? ==> Valid()
    {
      if currentCapability == null || currentSetupInfo.None? || currentTestCaseId.None?
        || currentTestCaseDesc.None? || currentTests.None? || currentTestEnvironment.None? {
        return Err(UnexpectedClosing(tagName));
      }
      if |currentTests.value| > 0 {
        var testCase := CompleteTestCase(currentTestCaseId.value, currentTestCaseDesc.value, currentCapability,
          currentTests.value, currentSetupInfo.value, currentTestEnvironment.value);
        if testCase.Err? {
          return Err(testCase.error);
        }
        CompletedKeepsCase(currentTestCaseId.value, currentTestCaseDesc.value, currentCapability.kind, currentCapability.id,
          currentTests.value, currentSetupInfo.value, currentTestEnvironment.value, processEnv);
        testCases, environmentShared := testCases + [testCase.value], true;
      }
      currentCapability, currentSetupInfo, currentTests := null, None, None;
      r := Ok(());
    }

    /** An opening tag: the document's own tags, else a capability of the table, else a test. */
    method StartElement(qName: string, attrs: map<string, string>) returns (r: Result<(), TestsError>)
      requires Valid()
      modifies this, argumentsSubstitution, environmentSubstitution
      ensures r.Ok? ==> Valid()
      ensures r.Ok? ==> testCases == old(testCases) || (qName == TAG_VARIABLE && |testCases| == |old(testCases)|)
      ensures TestsStep(symbols, loader, processEnv, old(St()), StartTag(qName, attrs)) == if r.Ok? then Ok(St()) else Err(r.error)
    {
      if qName == TAG_TESTS {
        r := Ok(());
      } else if qName == TAG_TESTCASE {
        r := TestCaseStart(qName, attrs);
      } else if qName == TAG_ENVIRONMENT {
        r := EnvironmentStart(qName);
      } else if qName == TAG_VARIABLE {
        r := VariableStart(qName, attrs);
      } else {
        r := SymbolStart(qName, attrs);
      }
    }

    /** `handleSymbolStart`: a capability of the table, else a test of the open capability. */
    method SymbolStart(qName: string, attrs: map<string, string>) returns (r: Result<(), TestsError>)
      requires Valid()
      modifies this, argumentsSubstitution
      ensures r.Ok? ==> Valid() && testCases == old(testCases)
      ensures SymbolOpened(symbols, loader, qName, attrs, old(St())) == if r.Ok? then Ok(St()) else Err(r.error)
    {
      if qName in symbols {
        r := CapabilityStart(qName, attrs);
      } else {
        r := TestStart(qName, attrs);
      }
    }

    /** A closing tag; only the close of a capability can append a descriptor, and at most one. */
    method EndElement(qName: string) returns (r: Result<(), TestsError>)
      requires Valid()
      modifies this, environmentSubstitution
      ensures r.Ok? ==> Valid()
      ensures r.Ok? ==> testCases == old(testCases) || (qName in symbols && |testCases| == |old(testCases)| + 1 && testCases[..|old(testCases)|] == old(testCases))
      ensures TestsStep(symbols, loader, processEnv, old(St()), EndTag(qName)) == if r.Ok? then Ok(St()) else Err(r.error)
    {
      if qName == TAG_TESTS || qName == TAG_ENVIRONMENT || qName == TAG_VARIABLE {
        r := Ok(());
      } else if qName == TAG_TESTCASE {
        r := TestCaseEnd(qName);
      } else {
        r := SymbolEnd(qName);
      }
    }

    /** `handleSymbolEnd`: the close of a capability of the table, else of a test. */
    method SymbolEnd(qName: string) returns (r: Result<(), TestsError>)
      requires Valid()
      modifies this, environmentSubstitution
      ensures r.Ok? ==> Valid()
      ensures r.Ok? ==> testCases == old(testCases) || (qName in symbols && |testCases| == |old(testCases)| + 1 && testCases[..|old(testCases)|] == old(testCases))
      ensures SymbolClosed(symbols, processEnv, qName, old(St())) == if r.Ok? then Ok(St()) else Err(r.error)
    {
      if qName in symbols {
        r := CapabilityEnd(qName);
      } else {
        r := TestEnd(qName);
      }
    }
  }

  /** The SAX parser handing the next event of the document to the handler, which has read `done`. */
  method Deliver(handler: TestsHandler, ghost done: seq<SaxEvent>, ev: SaxEvent) returns (r: Result<(), TestsError>)
    requires handler.Valid()
    requires TestsRun(handler.symbols, handler.loader, handler.processEnv, done) == Ok(handler.St())
    modifies handler, handler.argumentsSubstitution, handler.environmentSubstitution
    ensures r.Ok? ==> handler.Valid() && |handler.testCases| <= |old(handler.testCases)| + 1
    ensures TestsRun(handler.symbols, handler.loader, handler.processEnv, done + [ev]) == if r.Ok? then Ok(handler.St()) else Err(r.error)
  {
    ghost var symbols := handler.symbols;
    assert (done + [ev])[..|done|] == done;
    label L:
    match ev {
      case StartTag(name, attrs) =>
        r := handler.StartElement(name, attrs);
      case EndTag(name) =>
        r := handler.EndElement(name);
    }
    assert forall c | c in symbols.Values :: c.symbols == old@L(c.symbols) && c.contextMap == old@L(c.contextMap);
    assert Reach(symbols) == old@L(Reach(symbols));
    assert forall o | o in Reach(symbols) :: unchanged@L(o);
    assert TestsRun(symbols, handler.loader, handler.processEnv, done) == Ok(old(handler.St()));
  }

  /**
   * `TestsParser.parse`: the output list starts empty and receives the
   * descriptors of the document, in order; the first rejected event ends the
   * parse.
   */
  method Parse(events: seq<SaxEvent>, symbols: map<string, Symbol>, loader: ClassLoader, processEnv: map<string, string>)
    returns (r: Result<seq<TestCaseDescriptor>, TestsError>)
    ensures r == TestsOutcome(symbols, loader, processEnv, events)
    ensures r.Ok? ==> forall i | 0 <= i < |r.value| :: WellFormed(r.value[i])
    ensures r.Ok? ==> |r.value| <= |events|
  {
    var handler := new TestsHandler(symbols, loader, processEnv);
    var i := 0;
    while i < |events|
      invariant 0 <= i <= |events|
      invariant handler.Valid() && handler.symbols == symbols && handler.loader == loader && handler.processEnv == processEnv
      invariant |handler.testCases| <= i
      invariant fresh(handler) && fresh(handler.argumentsSubstitution) && fresh(handler.environmentSubstitution)
      invariant TestsRun(symbols, loader, processEnv, events[..i]) == Ok(handler.St())
      decreases |events| - i
    {
      assert events[..i] + [events[i]] == events[..i + 1];
      var res := Deliver(handler, events[..i], events[i]);
      if res.Err? {
        RejectionFinal(symbols, loader, processEnv, events, i + 1);
        return Err(res.error);
      }
      i := i + 1;
    }
    assert events[..|events|] == events;
    r := Ok(handler.testCases);
  }
}
