/**
 * The two pieces of command-line processing the harness relies on: reading
 * test suite specifications `component[:[-]id[,[-]id]*]`, and reading the
 * log level.
 */
module CommandLine {
  import opened Common
  import ListParser

  const SUITE_DELIMITER := ':'
  const EXCLUDE_PREFIX := '-'

  // ---------------------------------------------------------------------
  // Splitting a specification
  // ---------------------------------------------------------------------

  /** Drops the empty strings at the end of `parts`, as `String.split` does. */
  function DropTrailingEmpty(parts: seq<string>): (r: seq<string>)
    ensures |r| <= |parts| && r == parts[..|r|]
    ensures r == [] || r[|r| - 1] != ""
    ensures forall i | |r| <= i < |parts| :: parts[i] == ""
  {
    if parts == [] || parts[|parts| - 1] != "" then parts
    else DropTrailingEmpty(parts[..|parts| - 1])
  }

  /**
   * `spec.split(":")`: the pieces between colons with trailing empty pieces
   * removed; a text without any colon, the empty text included, is returned
   * whole.
   */
  function SplitSpec(spec: string): seq<string>
  {
    if SUITE_DELIMITER !in spec then [spec] else DropTrailingEmpty(SplitAt(spec, SUITE_DELIMITER))
  }

  // ---------------------------------------------------------------------
  // Classifying test case ids
  // ---------------------------------------------------------------------

  /** An item naming a test case to leave out starts with '-'. */
  predicate IsExclude(item: string)
  {
    |item| >= 1 && item[0] == EXCLUDE_PREFIX
  }

  /** The items that name a test case to run. */
  function Includes(items: seq<string>): set<string>
  {
    set i | 0 <= i < |items| && !IsExclude(items[i]) :: items[i]
  }

  /** The test cases to leave out: the excluding items without their '-'. */
  function Excludes(items: seq<string>): set<string>
  {
    set i | 0 <= i < |items| && IsExclude(items[i]) :: items[i][1..]
  }

  /**
   * The items of the comma lists among the first `k` pieces, in order; the
   * first piece is the component name and holds no items.
   */
  function ItemsBefore(parts: seq<string>, k: nat): seq<string>
    requires k <= |parts|
  {
    if k <= 1 then [] else ItemsBefore(parts, k - 1) + ListParser.ParseList(Some(parts[k - 1]))
  }

  // ---------------------------------------------------------------------
  // Test suite specifications
  // ---------------------------------------------------------------------

  /**
   * One requested test suite: the component (absent when the specification
   * splits into no pieces at all, as ":" does), the test cases to run and the
   * test cases to leave out.
   */
  datatype TestSuiteInfo = TestSuiteInfo(component: Option<string>, includes: set<string>, excludes: set<string>)

  const MIXED_LISTS_PREFIX := "Invalid test suite argument. Argument cannot contain both includes and excludes: ["

  /** The message printed before the program exits on a specification that mixes the two lists. */
  function SuiteArgumentError(spec: string): string
  {
    MIXED_LISTS_PREFIX + spec + "]\n\n"
  }

  /**
   * What one specification stands for: its first piece names the component,
   * every later piece is a comma list of test case ids, and a specification
   * that both includes and excludes test cases is rejected.
   */
  function SuiteOf(spec: string): (r: Result<TestSuiteInfo, string>)
    ensures r.Ok? ==> r.value.includes == {} || r.value.excludes == {}
    ensures r.Err? ==> r.error == SuiteArgumentError(spec)
    ensures r.Ok? && |SplitSpec(spec)| > 0 ==> r.value.component == Some(SplitSpec(spec)[0])
  {
    Verdict(spec, ComponentOf(SplitSpec(spec)), Includes(SpecItems(spec)), Excludes(SpecItems(spec)))
  }

  /** Every test case id of a specification, in order. */
  function SpecItems(spec: string): seq<string>
  {
    var parts := SplitSpec(spec);
    ItemsBefore(parts, |parts|)
  }

  /** The first piece of a specification, if there is one. */
  function ComponentOf(parts: seq<string>): Option<string>
  {
    if |parts| == 0 then None else Some(parts[0])
  }

  /** A suite with the lists found, unless both lists are non-empty. */
  function Verdict(spec: string, component: Option<string>, inc: set<string>, exc: set<string>): (r: Result<TestSuiteInfo, string>)
    ensures r.Ok? <==> inc == {} || exc == {}
    ensures r.Ok? ==> r.value == TestSuiteInfo(component, inc, exc)
    ensures r.Err? ==> r.error == SuiteArgumentError(spec)
  {
    if inc != {} && exc != {} then Err(SuiteArgumentError(spec))
    else Ok(TestSuiteInfo(component, inc, exc))
  }

  lemma IncludesSnoc(items: seq<string>, x: string)
    ensures Includes(items + [x]) == Includes(items) + (if IsExclude(x) then {} else {x})
  {
    var all := items + [x];
    forall y | y in Includes(all)
      ensures y in Includes(items) + (if IsExclude(x) then {} else {x})
    {
      var i :| 0 <= i < |all| && !IsExclude(all[i]) && all[i] == y;
      if i < |items| {
        assert items[i] == y;
      }
    }
    forall y | y in Includes(items)
      ensures y in Includes(all)
    {
      var i :| 0 <= i < |items| && !IsExclude(items[i]) && items[i] == y;
      assert all[i] == y;
    }
    if !IsExclude(x) {
      assert all[|items|] == x;
    }
  }

  lemma ExcludesSnoc(items: seq<string>, x: string)
    ensures Excludes(items + [x]) == Excludes(items) + (if IsExclude(x) then {x[1..]} else {})
  {
    var all := items + [x];
    forall y | y in Excludes(all)
      ensures y in Excludes(items) + (if IsExclude(x) then {x[1..]} else {})
    {
      var i :| 0 <= i < |all| && IsExclude(all[i]) && all[i][1..] == y;
      if i < |items| {
        assert items[i] == all[i];
      }
    }
    forall y | y in Excludes(items)
      ensures y in Excludes(all)
    {
      var i :| 0 <= i < |items| && IsExclude(items[i]) && items[i][1..] == y;
      assert all[i] == items[i];
    }
    if IsExclude(x) {
      assert all[|items|] == x;
    }
  }

  /**
   * Reads each of `specs` with `read`, in order: every suite when all are
   * accepted, otherwise the first rejection.
   */
  function CollectEach(read: string -> Result<TestSuiteInfo, string>, specs: seq<string>): (r: Result<seq<TestSuiteInfo>, string>)
    ensures r.Ok? ==> |r.value| == |specs| && forall j | 0 <= j < |specs| :: read(specs[j]) == Ok(r.value[j])
    ensures r.Err? ==>
      exists j | 0 <= j < |specs| :: read(specs[j]) == Err(r.error) && forall k | 0 <= k < j :: read(specs[k]).Ok?
  {
    if specs == [] then Ok([])
    else
      var init := specs[..|specs| - 1];
      match CollectEach(read, init)
      case Err(e) =>
        var j :| 0 <= j < |init| && read(init[j]) == Err(e) && forall k | 0 <= k < j :: read(init[k]).Ok?;
        assert specs[j] == init[j] && forall k | 0 <= k < j :: specs[k] == init[k];
        Err(e)
      case Ok(done) =>
        assert forall k | 0 <= k < |init| :: specs[k] == init[k];
        match read(specs[|specs| - 1])
        case Err(e) => Err(e)
        case Ok(info) => Ok(done + [info])
  }

  /** A rejection among the first specifications decides the whole run. */
  lemma {:induction false} CollectRejectedPrefix(read: string -> Result<TestSuiteInfo, string>, specs: seq<string>, n: nat)
    requires n <= |specs| && CollectEach(read, specs[..n]).Err?
    ensures CollectEach(read, specs) == CollectEach(read, specs[..n])
    decreases |specs| - n
  {
    if n < |specs| {
      assert specs[..n + 1][..n] == specs[..n];
      CollectRejectedPrefix(read, specs, n + 1);
    } else {
      assert specs[..n] == specs;
    }
  }

  /** Reading one more specification: it is added, or its rejection ends the run. */
  lemma CollectStep(read: string -> Result<TestSuiteInfo, string>, specs: seq<string>, i: nat, done: seq<TestSuiteInfo>)
    requires i < |specs| && CollectEach(read, specs[..i]) == Ok(done)
    ensures read(specs[i]).Ok? ==> CollectEach(read, specs[..i + 1]) == Ok(done + [read(specs[i]).value])
    ensures read(specs[i]).Err? ==> CollectEach(read, specs) == Err(read(specs[i]).error)
  {
    assert specs[..i + 1][..i] == specs[..i];
    if read(specs[i]).Err? {
      CollectRejectedPrefix(read, specs, i + 1);
    }
  }

  /** All specifications in command-line order; the first rejected one ends the program. */
  function SuitesOf(specs: seq<string>): Result<seq<TestSuiteInfo>, string>
  {
    CollectEach(SuiteOf, specs)
  }

  /**
   * Reads one specification the way the processor does: the first piece is
   * the component name, and every item of every later piece is filed as an
   * include or, without its '-', as an exclude.
   */
  method ReadSuiteSpec(suiteSpec: string) returns (r: Result<TestSuiteInfo, string>)
    ensures r == SuiteOf(suiteSpec)
  {
    var parts := SplitSpec(suiteSpec);
    r := ReadPieces(suiteSpec, parts);
  }

  /** The loop over the pieces of `suiteSpec`, already split at its colons. */
  method ReadPieces(suiteSpec: string, parts: seq<string>) returns (r: Result<TestSuiteInfo, string>)
    ensures r == Verdict(suiteSpec, ComponentOf(parts), Includes(ItemsBefore(parts, |parts|)), Excludes(ItemsBefore(parts, |parts|)))
  {
    var includes: set<string> := {};
    var excludes: set<string> := {};
    var componentName: Option<string> := None;
    var first := true;
    var k := 0;
    while k < |parts|
      invariant k <= |parts|
      invariant first <==> k == 0
      invariant componentName == if k == 0 then None else Some(parts[0])
      invariant Filed(ItemsBefore(parts, k), includes, excludes)
    {
      if first {
        componentName := Some(parts[k]);
        first := false;
      } else {
        includes, excludes := ReadPiece(parts[k], ItemsBefore(parts, k), includes, excludes);
      }
      k := k + 1;
    }
    r := AcceptLists(suiteSpec, componentName, includes, excludes);
  }

  /**
   * The closing check of one specification: a suite when at most one of the
   * two lists is non-empty, otherwise the rejection.
   */
  method AcceptLists(suiteSpec: string, componentName: Option<string>, includes: set<string>, excludes: set<string>)
    returns (r: Result<TestSuiteInfo, string>)
    ensures r == Verdict(suiteSpec, componentName, includes, excludes)
  {
    EmptyByCardinality(includes);
    EmptyByCardinality(excludes);
    if (|includes| == 0 && |excludes| == 0)
      || (|includes| > 0 && |excludes| == 0)
      || (|includes| == 0 && |excludes| > 0)
    {
      r := Ok(TestSuiteInfo(componentName, includes, excludes));
    } else {
      r := Err(SuiteArgumentError(suiteSpec));
    }
  }

  predicate Filed(items: seq<string>, includes: set<string>, excludes: set<string>)
  {
    includes == Includes(items) && excludes == Excludes(items)
  }

  /** One piece after the component name: a comma list of test case ids, filed one by one. */
  method ReadPiece(piece: string, ghost before: seq<string>, includes0: set<string>, excludes0: set<string>)
    returns (includes: set<string>, excludes: set<string>)
    requires Filed(before, includes0, excludes0)
    ensures Filed(before + ListParser.ParseList(Some(piece)), includes, excludes)
  {
    var parser := new ListParser.ListParser(Some(piece));
    var testCases := parser.GetArguments();
    includes, excludes := FileTestCases(testCases, before, includes0, excludes0);
  }

  /**
   * The inner loop over one piece's test case ids: an id starting with '-'
   * is added, without it, to the excludes, any other id to the includes.
   */
  method FileTestCases(testCases: seq<string>, ghost before: seq<string>, includes0: set<string>, excludes0: set<string>)
    returns (includes: set<string>, excludes: set<string>)
    requires includes0 == Includes(before) && excludes0 == Excludes(before)
    ensures includes == Includes(before + testCases) && excludes == Excludes(before + testCases)
  {
    includes, excludes := includes0, excludes0;
    var n := 0;
    SnocSlice(before, testCases, 0);
    while n < |testCases|
      invariant n <= |testCases|
      invariant includes == Includes(before + testCases[..n]) && excludes == Excludes(before + testCases[..n])
    {
      var testCase := testCases[n];
      SnocSlice(before, testCases, n);
      IncludesSnoc(before + testCases[..n], testCase);
      ExcludesSnoc(before + testCases[..n], testCase);
      if IsExclude(testCase) {
        excludes := excludes + {testCase[1..]};
      } else {
        includes := includes + {testCase};
      }
      n := n + 1;
    }
    assert testCases[..n] == testCases;
  }

  lemma EmptyByCardinality(s: set<string>)
    ensures |s| == 0 <==> s == {}
  {
    if |s| != 0 {
      var x :| x in s;
    }
  }

  lemma SnocSlice(a: seq<string>, b: seq<string>, n: nat)
    requires n <= |b|
    ensures a + b[..0] == a
    ensures n < |b| ==> a + b[..n + 1] == (a + b[..n]) + [b[n]]
  {
    assert b[..0] == [];
    if n < |b| {
      assert b[..n + 1] == b[..n] + [b[n]];
    }
  }

  /** `getTestSuites`: one suite per specification, in order, or the first rejection. */
  method GetTestSuites(suiteSpecs: seq<string>) returns (r: Result<seq<TestSuiteInfo>, string>)
    ensures r == SuitesOf(suiteSpecs)
  {
    var suites: seq<TestSuiteInfo> := [];
    var i := 0;
    while i < |suiteSpecs|
      invariant i <= |suiteSpecs|
      invariant CollectEach(SuiteOf, suiteSpecs[..i]) == Ok(suites)
    {
      var info := ReadSuiteSpec(suiteSpecs[i]);
      CollectStep(SuiteOf, suiteSpecs, i, suites);
      if info.Err? {
        return Err(info.error);
      }
      suites := suites + [info.value];
      i := i + 1;
    }
    assert suiteSpecs[..i] == suiteSpecs;
    r := Ok(suites);
  }

  // ---------------------------------------------------------------------
  // What a written specification reads back as
  // ---------------------------------------------------------------------

  /** A component name alone selects the whole component. */
  lemma ComponentOnly(name: string)
    requires SUITE_DELIMITER !in name
    ensures SuiteOf(name) == Ok(TestSuiteInfo(Some(name), {}, {}))
  {
    assert SplitSpec(name) == [name];
    SuiteOfItems(name, Some(name), []);
    NoItems();
  }

  /** Splitting a text made only of colons gives empty pieces only. */
  lemma {:induction false} ColonsSplitEmpty(spec: string)
    requires forall i | 0 <= i < |spec| :: spec[i] == SUITE_DELIMITER
    ensures forall i | 0 <= i < |SplitAt(spec, SUITE_DELIMITER)| :: SplitAt(spec, SUITE_DELIMITER)[i] == ""
  {
    if |spec| > 0 {
      ColonsSplitEmpty(spec[1..]);
    }
  }

  /** A specification made only of colons names no component and no test case. */
  lemma ColonsOnly(spec: string)
    requires |spec| >= 1 && forall i | 0 <= i < |spec| :: spec[i] == SUITE_DELIMITER
    ensures SuiteOf(spec) == Ok(TestSuiteInfo(None, {}, {}))
  {
    assert spec[0] == SUITE_DELIMITER;
    ColonsSplitEmpty(spec);
    NoItems();
    SuiteOfItems(spec, None, []);
  }

  lemma {:induction false} EscapeAvoids(x: string, c: char)
    requires c !in x && c != '\\' && c != ','
    ensures c !in ListParser.Escape(x)
  {
    if x != [] {
      EscapeAvoids(x[1..], c);
    }
  }

  lemma {:induction false} JoinAvoids(xs: seq<string>, sep: string, c: char)
    requires c !in sep && forall i | 0 <= i < |xs| :: c !in xs[i]
    ensures c !in Join(xs, sep)
  {
    if |xs| > 1 {
      JoinAvoids(xs[1..], sep, c);
    }
  }

  lemma {:induction false} EscapeAllAvoids(xs: seq<string>, c: char)
    requires c != '\\' && c != ',' && forall i | 0 <= i < |xs| :: c !in xs[i]
    ensures forall i | 0 <= i < |xs| :: c !in ListParser.EscapeAll(xs)[i]
  {
    if xs != [] {
      EscapeAvoids(xs[0], c);
      EscapeAllAvoids(xs[1..], c);
    }
  }

  /** `name:text` with a colon-free name and a non-empty colon-free list splits into exactly those two pieces. */
  lemma SplitNameAndList(name: string, text: string)
    requires SUITE_DELIMITER !in name && SUITE_DELIMITER !in text && text != ""
    ensures SplitSpec(name + ":" + text) == [name, text]
  {
    SplitConcat(name, text, SUITE_DELIMITER);
    NoSeparator(text, SUITE_DELIMITER);
    assert name + ":" + text == name + [SUITE_DELIMITER] + text;
    assert name + ":" + text != [] && (name + ":" + text)[|name|] == SUITE_DELIMITER;
  }

  lemma NoItems()
    ensures Includes([]) == {} && Excludes([]) == {}
  {
  }

  /** What a specification is read as, given its component and its items. */
  lemma SuiteOfItems(spec: string, component: Option<string>, items: seq<string>)
    requires ComponentOf(SplitSpec(spec)) == component
    requires SpecItems(spec) == items
    ensures SuiteOf(spec) == Verdict(spec, component, Includes(items), Excludes(items))
  {
  }

  /** A written list of colon-free ids is a non-empty colon-free text. */
  lemma WrittenListAvoidsColon(ids: seq<string>)
    requires |ids| >= 2 || (|ids| == 1 && ids[0] != "")
    requires forall i | 0 <= i < |ids| :: ListParser.Writable(ids[i]) && SUITE_DELIMITER !in ids[i]
    ensures var text := Join(ListParser.EscapeAll(ids), ", ");
      SUITE_DELIMITER !in text && text != ""
  {
    EscapeAllAvoids(ids, SUITE_DELIMITER);
    JoinAvoids(ListParser.EscapeAll(ids), ", ", SUITE_DELIMITER);
    ListParser.WrittenListNotEmpty(ids);
  }

  /** The items of `name:list`, for a list written from `ids`, are `ids` again. */
  lemma IncludeListItems(name: string, ids: seq<string>)
    requires SUITE_DELIMITER !in name
    requires |ids| >= 2 || (|ids| == 1 && ids[0] != "")
    requires forall i | 0 <= i < |ids| :: ListParser.Writable(ids[i]) && SUITE_DELIMITER !in ids[i]
    ensures var parts := SplitSpec(name + ":" + Join(ListParser.EscapeAll(ids), ", "));
      ComponentOf(parts) == Some(name) && SpecItems(name + ":" + Join(ListParser.EscapeAll(ids), ", ")) == ids
  {
    var text := Join(ListParser.EscapeAll(ids), ", ");
    WrittenListAvoidsColon(ids);
    SplitNameAndList(name, text);
    ListParser.ParseListRoundTrip(ids);
    var parts := [name, text];
    assert ItemsBefore(parts, 2) == ids;
  }

  /**
   * The documented format read back: a component name, a colon, and a list
   * of test case ids none of which starts with '-' selects exactly those
   * test cases.
   */
  lemma IncludeListReadsBack(name: string, ids: seq<string>)
    requires SUITE_DELIMITER !in name
    requires |ids| >= 2 || (|ids| == 1 && ids[0] != "")
    requires forall i | 0 <= i < |ids| :: ListParser.Writable(ids[i]) && SUITE_DELIMITER !in ids[i] && !IsExclude(ids[i])
    ensures SuiteOf(name + ":" + Join(ListParser.EscapeAll(ids), ", ")) ==
      Ok(TestSuiteInfo(Some(name), set i | 0 <= i < |ids| :: ids[i], {}))
  {
    IncludeListItems(name, ids);
    OnlyIncludes(ids);
    SuiteOfItems(name + ":" + Join(ListParser.EscapeAll(ids), ", "), Some(name), ids);
  }

  /** Items none of which starts with '-' are all includes. */
  lemma OnlyIncludes(ids: seq<string>)
    requires forall i | 0 <= i < |ids| :: !IsExclude(ids[i])
    ensures Includes(ids) == set i | 0 <= i < |ids| :: ids[i]
    ensures Excludes(ids) == {}
  {
    assert forall x | x in Excludes(ids) :: false;
  }

  /** A specification whose lists hold both an include and an exclude is rejected. */
  lemma MixedRejected(spec: string, i: nat, j: nat)
    requires i < |SpecItems(spec)| && j < |SpecItems(spec)|
    requires !IsExclude(SpecItems(spec)[i]) && IsExclude(SpecItems(spec)[j])
    ensures SuiteOf(spec) == Err(SuiteArgumentError(spec))
  {
    BothLists(SpecItems(spec), i, j);
  }

  lemma BothLists(items: seq<string>, i: nat, j: nat)
    requires i < |items| && j < |items| && !IsExclude(items[i]) && IsExclude(items[j])
    ensures items[i] in Includes(items) && items[j][1..] in Excludes(items)
  {
  }

  // ---------------------------------------------------------------------
  // Log level
  // ---------------------------------------------------------------------

  datatype LogLevel = Debug | Info | Warn | Error | Fatal

  function LevelName(l: LogLevel): string
  {
    match l
    case Debug => "debug"
    case Info => "info"
    case Warn => "warn"
    case Error => "error"
    case Fatal => "fatal"
  }

  /** The levels in declaration order, the order the search visits them. */
  const LEVELS: seq<LogLevel> := [Debug, Info, Warn, Error, Fatal]

  /** The level used when the option is not given. */
  const DEFAULT_LEVEL := Info

  /** `toLowerCase`, for the ASCII letters. */
  function LowerAscii(s: string): string
  {
    seq(|s|, i requires 0 <= i < |s| => LowerChar(s[i]))
  }

  function LowerChar(c: char): char
  {
    if 'A' <= c <= 'Z' then (c as int + 32) as char else c
  }

  /** The first level whose name is `v`. */
  function MatchLevel(v: string): (r: Option<LogLevel>)
    ensures r.Some? ==> LevelName(r.value) == v
    ensures r.None? ==> forall l: LogLevel :: LevelName(l) != v
  {
    if v == "debug" then Some(Debug)
    else if v == "info" then Some(Info)
    else if v == "warn" then Some(Warn)
    else if v == "error" then Some(Error)
    else if v == "fatal" then Some(Fatal)
    else None
  }

  /** The option's value, or the default level's name when it is absent. */
  function LevelText(value: Option<string>): string
  {
    if value.None? then LevelName(DEFAULT_LEVEL) else value.value
  }

  const INVALID_LEVEL_PREFIX := "Invalid log level: ["

  /** The message for a value that names no level: it shows the value that was given. */
  function InvalidLogLevelMessage(v: string): string
  {
    INVALID_LEVEL_PREFIX + v + "]"
  }

  /**
   * The message as the processor formats it: the format is applied to the
   * search's result variable, which is still null when no level matched.
   */
  function InvalidLogLevelMessageAsWritten(logLevel: Option<LogLevel>): string
  {
    INVALID_LEVEL_PREFIX + (if logLevel.None? then "null" else LevelName(logLevel.value)) + "]"
  }

  /** The level the log level option selects, or the message the program exits with. */
  function LogLevelOf(value: Option<string>): (r: Result<LogLevel, string>)
    ensures r.Ok? ==> LevelName(r.value) == LowerAscii(LevelText(value))
    ensures r.Err? ==>
      (r.error == InvalidLogLevelMessage(LowerAscii(LevelText(value)))
       && forall l: LogLevel :: LevelName(l) != LowerAscii(LevelText(value)))
  {
    var v := LowerAscii(LevelText(value));
    match MatchLevel(v)
    case Some(l) => Ok(l)
    case None => Err(InvalidLogLevelMessage(v))
  }

  /** `getLogLevel` as written: an unmatched value is reported as "[null]". */
  function LogLevelOfAsWritten(value: Option<string>): (r: Result<LogLevel, string>)
    ensures r.Err? ==> r.error == INVALID_LEVEL_PREFIX + "null]"
  {
    var v := LowerAscii(LevelText(value));
    match MatchLevel(v)
    case Some(l) => Ok(l)
    case None => Err(InvalidLogLevelMessageAsWritten(None))
  }

  /**
   * `getLogLevel`: lower-cases the value (or the default) and searches the
   * levels in order for one with that name.
   */
  method GetLogLevel(value: Option<string>) returns (r: Result<LogLevel, string>)
    ensures r == LogLevelOf(value)
  {
    var logLevelValue := LowerAscii(LevelText(value));
    var logLevel: Option<LogLevel> := None;
    var i := 0;
    while i < |LEVELS|
      invariant i <= |LEVELS|
      invariant logLevel.None? ==> forall k | 0 <= k < i :: LevelName(LEVELS[k]) != logLevelValue
      invariant logLevel.Some? ==> LevelName(logLevel.value) == logLevelValue
    {
      if LevelName(LEVELS[i]) == logLevelValue {
        logLevel := Some(LEVELS[i]);
        break;
      }
      i := i + 1;
    }
    if logLevel.None? {
      if MatchLevel(logLevelValue).Some? {
        ghost var k := LevelIndex(MatchLevel(logLevelValue).value);
        assert false;
      }
      return Err(InvalidLogLevelMessage(logLevelValue));
    }
    LevelNamesDistinct(logLevel.value, MatchLevel(logLevelValue).value);
    r := Ok(logLevel.value);
  }

  lemma LevelNamesDistinct(a: LogLevel, b: LogLevel)
    ensures LevelName(a) == LevelName(b) ==> a == b
  {
  }

  /** Where a level sits in the search order. */
  function LevelIndex(l: LogLevel): (i: nat)
    ensures i < |LEVELS| && LEVELS[i] == l
  {
    match l
    case Debug => 0
    case Info => 1
    case Warn => 2
    case Error => 3
    case Fatal => 4
  }

  /** `toUpperCase`, for the ASCII letters. */
  function UpperAscii(s: string): string
  {
    seq(|s|, i requires 0 <= i < |s| => UpperChar(s[i]))
  }

  function UpperChar(c: char): char
  {
    if 'a' <= c <= 'z' then (c as int - 32) as char else c
  }

  /** Lower-casing forgets the letter case: an upper-cased text lower-cases to the same text. */
  lemma CaseForgotten(s: string)
    ensures LowerAscii(UpperAscii(s)) == LowerAscii(s)
  {
    var u := UpperAscii(s);
    forall i | 0 <= i < |s|
      ensures LowerAscii(u)[i] == LowerAscii(s)[i]
    {
    }
  }

  /** A text without upper-case letters is its own lower-case form. */
  lemma NoUpperIsLower(s: string)
    requires forall i | 0 <= i < |s| :: !('A' <= s[i] <= 'Z')
    ensures LowerAscii(s) == s
  {
  }

  /** Level names are written in lower case. */
  lemma LevelNameIsLower(l: LogLevel)
    ensures LowerAscii(LevelName(l)) == LevelName(l)
  {
    NoUpperIsLower(LevelName(l));
  }

  /** The search finds every level by its own name. */
  lemma MatchLevelName(l: LogLevel)
    ensures MatchLevel(LevelName(l)) == Some(l)
  {
    var r := MatchLevel(LevelName(l));
    LevelNamesDistinct(r.value, l);
  }

  /** Every level's name selects that level. */
  lemma LevelNamesReadBack(l: LogLevel)
    ensures LogLevelOf(Some(LevelName(l))) == Ok(l)
  {
    LevelNameIsLower(l);
    MatchLevelName(l);
  }

  /** A lower-case value that names no level is rejected, with the value or, as written, with "null". */
  lemma UnnamedLevel(v: string)
    requires LowerAscii(v) == v && MatchLevel(v).None?
    ensures LogLevelOf(Some(v)) == Err(InvalidLogLevelMessage(v))
    ensures LogLevelOfAsWritten(Some(v)) == Err(InvalidLogLevelMessageAsWritten(None))
  {
  }

  /** The letter case of the option's value does not matter. */
  lemma LevelIgnoresCase(v: string)
    ensures LogLevelOf(Some(UpperAscii(v))) == LogLevelOf(Some(v))
  {
    CaseForgotten(v);
  }

  /** Without the option the level is the default, info. */
  lemma DefaultLevel()
    ensures LogLevelOf(None) == Ok(DEFAULT_LEVEL)
  {
    NoUpperIsLower("info");
  }

  /**
   * As written, a value that names no level is reported as "[null]", so the
   * user is not told which value was wrong; the corrected message names it.
   */
  lemma InvalidLevelMessageHidesValue(v: string, w: string)
    requires LowerAscii(v) == v && MatchLevel(v).None?
    requires LowerAscii(w) == w && MatchLevel(w).None?
    requires v != w
    ensures LogLevelOfAsWritten(Some(v)) == LogLevelOfAsWritten(Some(w))
    ensures LogLevelOf(Some(v)) == Err(InvalidLogLevelMessage(v))
    ensures LogLevelOf(Some(v)) != LogLevelOf(Some(w))
  {
    UnnamedLevel(v);
    UnnamedLevel(w);
    InvalidLevelMessageNamesValue(v, w);
  }

  /** "verbose" and "loud" are both reported as "[null]", yet the corrected messages tell them apart. */
  lemma InvalidLevelMessageExample()
    ensures LogLevelOfAsWritten(Some("verbose")) == LogLevelOfAsWritten(Some("loud")) == Err(INVALID_LEVEL_PREFIX + "null]")
    ensures LogLevelOf(Some("verbose")) == Err(InvalidLogLevelMessage("verbose"))
    ensures LogLevelOf(Some("verbose")) != LogLevelOf(Some("loud"))
  {
    NoUpperIsLower("verbose");
    NoUpperIsLower("loud");
    InvalidLevelMessageHidesValue("verbose", "loud");
  }

  /** The corrected message tells apart any two values that were given. */
  lemma InvalidLevelMessageNamesValue(v: string, w: string)
    ensures InvalidLogLevelMessage(v) == InvalidLogLevelMessage(w) ==> v == w
  {
    var n := |INVALID_LEVEL_PREFIX|;
    if InvalidLogLevelMessage(v) == InvalidLogLevelMessage(w) {
      assert |v| == |w|;
      assert InvalidLogLevelMessage(v)[n..n + |v|] == v;
      assert InvalidLogLevelMessage(w)[n..n + |w|] == w;
    }
  }
}
