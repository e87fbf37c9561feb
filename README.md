# testrobot test harness, modelled in Dafny

testrobot runs the test suites of software components. For each component
named on the command line the harness works in five steps:

1. It reads the component's profile document. The profile declares the capabilities (test case classes), their tests, their arguments and the environment variables they need.
2. It reads the tests document against that profile. The result is a list of test case descriptors in which the arguments are substituted and built into objects of their declared classes.
3. It narrows that list to the test cases the command line includes, or to those it does not exclude.
4. It runs every remaining test case through its phases: set up, pre-execute set-up, execution, the tests, and tear down.
5. It reports each of these steps to the attached reporters as test events.

This project models that core in Dafny and proves what the harness promises about it:

- the substitution of `%argument%` and `$VARIABLE$` references;
- the comma-list and suite-specification syntax of the command line;
- the construction of the symbol table;
- the order in which tests, cases and suites run and are reported;
- each case, suite and component being ended exactly once, and passing exactly when all of its parts pass.

Modules follow the packages of the program:

| file | models |
|---|---|
| `common.dfy` | `Option`/`Result`, the SAX event stream, string joins and splits |
| `list_parser.dfy` | `ListParser` (comma-separated lists with `\,` escapes) |
| `command_line.dfy` | `CommandLineProcessor`: suite specifications and the log level |
| `process.dfy` | `ProcessStatus` and `KillableProcess` |
| `symbols.dfy` | `Symbol` and its kinds (the profile's symbol table) |
| `profile_errors.dfy` | `ProfileParserException` |
| `profile_parser.dfy` | `ProfileHandler` and `ProfileParser` |
| `events.dfy` | `TRTestEvent`, `TRTestSubject` |
| `reporting.dfy` | `TRReportFacade` |
| `token_substitution.dfy` | `TokenSubstitution` |
| `arguments.dfy` | `TestArguments`, `TestDescriptor`, `TestCaseDescriptor` |
| `tests_parser.dfy` | `TestsHandler` and `TestsParser` |
| `test_runner.dfy` | `TRTestRunner`, `InternalTestException`, `TRTestCase` |
| `test_suite.dfy` | `TRTestSuite` |
| `harness.dfy` | the suite-running part of `Main` |

Objects whose fields the program updates in place are Dafny classes with
`modifies` frames:

- the two SAX handlers;
- the symbols;
- the token substitution service;
- the process and its status;
- the subject and the facade;
- the runner, the suite and the list of descriptors.

Their methods are proved against specification functions, and the promised
properties are lemmas about those functions. Reflection becomes data:

- A `ClassLoader` or `Registry` says which classes exist, which constructors they have and what those constructors do.
- A `Behaviour` says which methods a test case class has, how they are annotated, and what they throw or check.

Every reporting call, and everything run on a test case, is appended in
order to one `Journal`. The journal's contents are what the ordering and
counting lemmas speak about.

Source paths below are relative to the repository root.

## Model

| member | source | states |
|---|---|---|
| ListParser.ElementEnd | src/main/java/org/splandroid/tr/testing/helpers/argument/parsers/ListParser.java:35-49 | an element ends at the end of the text or at a comma not preceded by a backslash |
| ListParser.ElementEndIsFirst | src/main/java/org/splandroid/tr/testing/helpers/argument/parsers/ListParser.java:35-49 | no separating comma lies before the end the match finds: the match stops at the first one |
| ListParser.TrimStartIsSuffix | src/main/java/org/splandroid/tr/testing/helpers/argument/parsers/ListParser.java:50 | trimming the start keeps a suffix that does not begin with a character at or below the space |
| ListParser.TrimEndIsPrefix | src/main/java/org/splandroid/tr/testing/helpers/argument/parsers/ListParser.java:50 | trimming the end keeps a prefix that does not end with a character at or below the space |
| ListParser.Unescape | src/main/java/org/splandroid/tr/testing/helpers/argument/parsers/ListParser.java:51 | replacing each escaped comma by a comma never lengthens the text |
| ListParser.ParseText | src/main/java/org/splandroid/tr/testing/helpers/argument/parsers/ListParser.java:46-57 | a non-empty input always yields at least one element |
| ListParser.ListParser.constructor | src/main/java/org/splandroid/tr/testing/helpers/argument/parsers/ListParser.java:40-58 | the arguments list is the parse of the input; a null or empty input gives no elements |
| ListParser.ElementCount | src/main/java/org/splandroid/tr/testing/helpers/argument/parsers/ListParser.java:46-57 | a non-empty input yields exactly one element more than it has unescaped commas |
| ListParser.OneElementWithoutSeparator | src/main/java/org/splandroid/tr/testing/helpers/argument/parsers/ListParser.java:46-57 | an input without an unescaped comma is a single element |
| ListParser.EscapeCommas | src/main/java/org/splandroid/tr/testing/helpers/argument/parsers/ListParser.java:35 | a caller's escaping leaves no comma that the pattern would treat as a separator |
| ListParser.UnescapeEscape | src/main/java/org/splandroid/tr/testing/helpers/argument/parsers/ListParser.java:51 | unescaping undoes escaping for an element without backslashes |
| ListParser.WrittenElement | src/main/java/org/splandroid/tr/testing/helpers/argument/parsers/ListParser.java:50-51 | an escaped element, after an optional leading blank, is read back as itself |
| ListParser.ListRoundTrip | src/main/java/org/splandroid/tr/testing/helpers/argument/parsers/ListParser.java:46-57 | writing writable elements joined by ", " and parsing gives back exactly those elements, in order |
| ListParser.ParseListRoundTrip | src/main/java/org/splandroid/tr/testing/helpers/argument/parsers/ListParser.java:40-58 | the same round trip through the constructor's entry point |
| ListParser.EmptyElementsKept | src/main/java/org/splandroid/tr/testing/helpers/argument/parsers/ListParser.java:46-57 | empty elements are kept: ", , x, " yields four elements, three of them empty |
| CommandLine.DropTrailingEmpty | src/main/java/org/splandroid/tr/CommandLineProcessor.java:234-235 | the split drops exactly the trailing empty pieces: the result is a prefix, it does not end with an empty piece, and everything cut off is empty |
| CommandLine.SuiteOf | src/main/java/org/splandroid/tr/CommandLineProcessor.java:233-270 | an accepted specification never has both lists non-empty, and its component is the first piece; a rejected one carries the mixed-lists message for that specification |
| CommandLine.Verdict | src/main/java/org/splandroid/tr/CommandLineProcessor.java:260-270 | a suite is accepted exactly when includes or excludes is empty, and then holds the component and both sets; otherwise the message names the specification |
| CommandLine.IncludesSnoc | src/main/java/org/splandroid/tr/CommandLineProcessor.java:246-255 | one more item adds itself to the includes exactly when it does not start with '-' |
| CommandLine.ExcludesSnoc | src/main/java/org/splandroid/tr/CommandLineProcessor.java:246-255 | one more item starting with '-' adds itself, without the '-', to the excludes |
| CommandLine.CollectEach | src/main/java/org/splandroid/tr/CommandLineProcessor.java:229-274 | success gives one suite per specification, in order; failure is the first specification that is rejected, with every earlier one accepted |
| CommandLine.CollectRejectedPrefix | src/main/java/org/splandroid/tr/CommandLineProcessor.java:266-270 | once a specification is rejected the program exits; later specifications do not matter |
| CommandLine.CollectStep | src/main/java/org/splandroid/tr/CommandLineProcessor.java:233-271 | one more specification is appended to the suites, or its rejection ends the run |
| CommandLine.ReadSuiteSpec | src/main/java/org/splandroid/tr/CommandLineProcessor.java:234-270 | the loop body for one specification computes exactly what the specification stands for |
| CommandLine.ReadPieces | src/main/java/org/splandroid/tr/CommandLineProcessor.java:238-270 | the loop over the pieces takes the first as the component and files every item of the later pieces |
| CommandLine.AcceptLists | src/main/java/org/splandroid/tr/CommandLineProcessor.java:260-270 | the three-way condition on the sizes accepts exactly when one of the lists is empty |
| CommandLine.ReadPiece | src/main/java/org/splandroid/tr/CommandLineProcessor.java:245-255 | one piece's comma list is filed item by item into the includes or the excludes |
| CommandLine.FileTestCases | src/main/java/org/splandroid/tr/CommandLineProcessor.java:246-255 | filing a list of items leaves exactly the includes and excludes of all items read so far |
| CommandLine.GetTestSuites | src/main/java/org/splandroid/tr/CommandLineProcessor.java:229-274 | the method returns the suites of all specifications in command-line order, or the first rejection |
| CommandLine.ComponentOnly | src/main/java/org/splandroid/tr/CommandLineProcessor.java:240-243 | a colon-free specification names a whole component, with no includes and no excludes |
| CommandLine.ColonsSplitEmpty | src/main/java/org/splandroid/tr/CommandLineProcessor.java:234-235 | splitting a text made only of colons gives only empty pieces |
| CommandLine.ColonsOnly | src/main/java/org/splandroid/tr/CommandLineProcessor.java:234-265 | a specification made only of colons is accepted with a null component and no test cases |
| CommandLine.SplitNameAndList | src/main/java/org/splandroid/tr/CommandLineProcessor.java:234-235 | `name:list`, with neither part containing a colon, splits into exactly those two pieces |
| CommandLine.IncludeListItems | src/main/java/org/splandroid/tr/CommandLineProcessor.java:234-255 | the items of `name:list`, for a list written from ids, are those ids again, in order |
| CommandLine.IncludeListReadsBack | src/main/java/org/splandroid/tr/CommandLineProcessor.java:229-265 | a written include list reads back as the component with exactly those ids included and nothing excluded |
| CommandLine.OnlyIncludes | src/main/java/org/splandroid/tr/CommandLineProcessor.java:246-255 | items none of which starts with '-' are all includes, and there are no excludes |
| CommandLine.MixedRejected | src/main/java/org/splandroid/tr/CommandLineProcessor.java:260-270 | a specification with both an include and an exclude item is rejected with its message |
| CommandLine.BothLists | src/main/java/org/splandroid/tr/CommandLineProcessor.java:246-255 | an include item lands in the includes and an exclude item, without its '-', in the excludes |
| CommandLine.MatchLevel | src/main/java/org/splandroid/tr/CommandLineProcessor.java:192-197 | a match is a level with exactly that name; no match means no level has that name |
| CommandLine.LogLevelOf | src/main/java/org/splandroid/tr/CommandLineProcessor.java:187-206 | the level is the one named by the lower-cased value, or by "info" when the option is absent; an unmatched value is rejected with a message that shows the lower-cased value |
| CommandLine.LogLevelOfAsWritten | src/main/java/org/splandroid/tr/CommandLineProcessor.java:199-203 | as written, every unmatched value is reported with the message "Invalid log level: [null]" |
| CommandLine.GetLogLevel | src/main/java/org/splandroid/tr/CommandLineProcessor.java:187-206 | the search loop over the levels computes the corrected level-or-message |
| CommandLine.LevelNamesDistinct | src/main/java/org/splandroid/tr/CommandLineOptions.java:22-23 | no two levels share a name |
| CommandLine.CaseForgotten | src/main/java/org/splandroid/tr/CommandLineProcessor.java:188-189 | lower-casing an upper-cased text gives the lower-cased text |
| CommandLine.LevelNameIsLower | src/main/java/org/splandroid/tr/CommandLineOptions.java:22-23 | level names are all lower case |
| CommandLine.MatchLevelName | src/main/java/org/splandroid/tr/CommandLineProcessor.java:192-197 | the search finds every level by its own name |
| CommandLine.LevelNamesReadBack | src/main/java/org/splandroid/tr/CommandLineProcessor.java:187-206 | giving a level's name selects that level |
| CommandLine.UnnamedLevel | src/main/java/org/splandroid/tr/CommandLineProcessor.java:199-203 | a value that names no level is rejected: with the value itself in the corrected model, with "null" as written |
| CommandLine.LevelIgnoresCase | src/main/java/org/splandroid/tr/CommandLineProcessor.java:188-189 | the letter case of the value does not change the outcome |
| CommandLine.DefaultLevel | src/main/java/org/splandroid/tr/CommandLineProcessor.java:131-135 | without the option the level is info |
| CommandLine.InvalidLevelMessageHidesValue | src/main/java/org/splandroid/tr/CommandLineProcessor.java:199-203 | as written, two different invalid values give the same message; the corrected messages differ |
| CommandLine.InvalidLevelMessageExample | src/main/java/org/splandroid/tr/CommandLineProcessor.java:199-203 | "verbose" and "loud" are both reported as "[null]", while the corrected messages tell them apart |
| CommandLine.InvalidLevelMessageNamesValue | src/main/java/org/splandroid/tr/CommandLineOptions.java:64 | the corrected message determines the value that was given |
| Process.ProcessStatus.constructor | src/main/java/org/splandroid/tr/commons/ProcessStatus.java:29-35 | a new status has the sentinel `Integer.MIN_VALUE` as its return value, and no exception |
| Process.ProcessStatus.SetReturnValue | src/main/java/org/splandroid/tr/commons/ProcessStatus.java:45-49 | the return value is recorded only while it is still the sentinel; the exception is untouched |
| Process.ProcessStatus.SetException | src/main/java/org/splandroid/tr/commons/ProcessStatus.java:51-55 | the exception is recorded only while none is; the return value is untouched |
| Process.FirstReturnValueSticks | src/main/java/org/splandroid/tr/commons/ProcessStatus.java:45-49 | of two exit codes set in turn, the first is kept |
| Process.FirstExceptionSticks | src/main/java/org/splandroid/tr/commons/ProcessStatus.java:51-55 | of two exceptions set in turn, the first is kept, and the return value stays the sentinel |
| Process.WithComponent | src/main/java/org/splandroid/tr/commons/KillableProcess.java:77-81 | a component is appended exactly when it is non-null and non-empty |
| Process.UnnamedInherited | src/main/java/org/splandroid/tr/commons/KillableProcess.java:124-127 | a variable no pair names keeps its inherited value, or stays absent |
| Process.LastPairWins | src/main/java/org/splandroid/tr/commons/KillableProcess.java:124-127 | a variable named by several pairs gets the value of the last one |
| Process.KillableProcess.constructor | src/main/java/org/splandroid/tr/commons/KillableProcess.java:49-69 | a new process has a fresh status that never ran, the command added as a single component, no environment pairs, and is not running |
| Process.KillableProcess.AddCommandLine | src/main/java/org/splandroid/tr/commons/KillableProcess.java:77-81 | appends a non-null, non-empty component; nothing else changes |
| Process.KillableProcess.AddCommandLineList | src/main/java/org/splandroid/tr/commons/KillableProcess.java:89-93 | appends every component of the list in order, unfiltered |
| Process.KillableProcess.AddEnvironmentVariable | src/main/java/org/splandroid/tr/commons/KillableProcess.java:101-105 | appends one name-value pair |
| Process.KillableProcess.BuildEnvironment | src/main/java/org/splandroid/tr/commons/KillableProcess.java:122-127 | the worker's environment is the inherited one with each pair put in order |
| Process.KillableProcess.Start | src/main/java/org/splandroid/tr/commons/KillableProcess.java:111-160 | starting while running changes nothing; otherwise the process runs and the kill request is cleared |
| Process.KillableProcess.Kill | src/main/java/org/splandroid/tr/commons/KillableProcess.java:166-171 | the process is destroyed only while running and at most once per run |
| Process.KillableProcess.Finish | src/main/java/org/splandroid/tr/commons/KillableProcess.java:119-153 | the worker's end records the exit code or the exception in the status and releases the running flag |
| Process.KillableProcess.GetCommandLine | src/main/java/org/splandroid/tr/commons/KillableProcess.java:196-208 | the components are joined by single spaces |
| Process.CommandLineSplitsBack | src/main/java/org/splandroid/tr/commons/KillableProcess.java:196-208 | components without spaces can be recovered by splitting the command line at its spaces |
| Symbols.KeySameContext | src/main/java/org/splandroid/tr/parsers/profile/Symbol.java:43-45 | within one context, the key determines the child's id |
| Symbols.KeyInjective | src/main/java/org/splandroid/tr/parsers/profile/Symbol.java:43-45 | for dot-free contexts, two keys are equal exactly when both the ids and the contexts are |
| Symbols.ContextsAreDistinct | src/main/java/org/splandroid/tr/parsers/profile/Symbol.java:43-45 | the same id filed in the test, argument and environment contexts gets three different keys |
| Symbols.Symbol.constructor | src/main/java/org/splandroid/tr/parsers/profile/Symbol.java:35-37 | a new symbol has its id and kind and no children |
| Symbols.Symbol.GetSymbolsInContext | src/main/java/org/splandroid/tr/parsers/profile/Symbol.java:77-83 | a context never used has an empty list |
| Symbols.Symbol.AddSymbol | src/main/java/org/splandroid/tr/parsers/profile/Symbol.java:47-70 | a taken key is an error that changes nothing; otherwise the child is filed under its key and appended to its context; every other key is unchanged |
| Symbols.EqualsIsEquivalence | src/main/java/org/splandroid/tr/parsers/profile/Symbol.java:94-108 | symbol equality is reflexive, symmetric and transitive, and implies equal ids and equal classes |
| ProfileErrors.MissingEnvironmentMessage | src/main/java/org/splandroid/tr/parsers/profile/ProfileParserException.java:69-86 | the loop builds the prefix and the names separated by ", ", or "" when no name is missing |
| ProfileErrors.GetMessage | src/main/java/org/splandroid/tr/parsers/profile/ProfileParserException.java:54-60 | an exception with missing variables shows the missing-environment message; any other shows its own message |
| ProfileErrors.MissingMessageShape | src/main/java/org/splandroid/tr/parsers/profile/ProfileParserException.java:69-86 | the message is empty exactly when no name is missing, and otherwise starts with the fixed prefix |
| ProfileErrors.MissingMessageLists | src/main/java/org/splandroid/tr/parsers/profile/ProfileParserException.java:76-82 | one more missing name adds exactly ", " and that name |
| ProfileErrors.MissingMessageExample | src/main/java/org/splandroid/tr/parsers/profile/ProfileParserException.java:69-86 | two names give "Expected environment variables not set: JAVA_HOME, PATH"; one name gives no separator |
| ProfileParser.TagOf | src/main/java/org/splandroid/tr/parsers/profile/ProfileParser.java:245-262 | a tag is one of the seven the profile defines or is ignored |
| ProfileParser.NoteMissing | src/main/java/org/splandroid/tr/parsers/profile/ProfileParser.java:211-214 | a required variable the environment lacks is recorded unless it already is |
| ProfileParser.MissingInDistinctAbsent | src/main/java/org/splandroid/tr/parsers/profile/ProfileParser.java:211-214 | every recorded variable is absent from the environment, and none is recorded twice |
| ProfileParser.ExistsRecorded | src/main/java/org/splandroid/tr/parsers/profile/ProfileParser.java:198-222 | every `exists` tag naming a variable the environment lacks leads to that variable being recorded |
| ProfileParser.ProfileHandler.constructor | src/main/java/org/splandroid/tr/parsers/profile/ProfileParser.java:225-234 | the document starts with an empty table, nothing open, no flags set and nothing missing |
| ProfileParser.ProfileHandler.CapabilityStart | src/main/java/org/splandroid/tr/parsers/profile/ProfileParser.java:77-94 | a capability needs a non-empty id, description and class, and otherwise opens a new capability symbol |
| ProfileParser.ProfileHandler.CapabilityEnd | src/main/java/org/splandroid/tr/parsers/profile/ProfileParser.java:96-99 | the open capability goes into the table under its id, replacing any earlier one; with none open it is a null reference |
| ProfileParser.ProfileHandler.TestStart | src/main/java/org/splandroid/tr/parsers/profile/ProfileParser.java:101-108 | a test needs a non-empty id, and otherwise opens a new test symbol |
| ProfileParser.ProfileHandler.TestEnd | src/main/java/org/splandroid/tr/parsers/profile/ProfileParser.java:110-119 | the open test is filed under the capability's test context; a second test with the same id is rejected, naming both ids |
| ProfileParser.ProfileHandler.ArgumentsStart | src/main/java/org/splandroid/tr/parsers/profile/ProfileParser.java:251-252 | only the arguments flag is set |
| ProfileParser.ProfileHandler.ArgumentsEnd | src/main/java/org/splandroid/tr/parsers/profile/ProfileParser.java:275-276 | only the arguments flag is cleared |
| ProfileParser.ProfileHandler.ArgumentStart | src/main/java/org/splandroid/tr/parsers/profile/ProfileParser.java:121-140 | an argument outside an arguments section is rejected; one without a non-empty id and class is rejected; otherwise an argument symbol is opened |
| ProfileParser.ProfileHandler.ArgumentEnd | src/main/java/org/splandroid/tr/parsers/profile/ProfileParser.java:142-157 | the argument is filed under the open test, or else under the open capability |
| ProfileParser.ProfileHandler.FileArgumentInTest | src/main/java/org/splandroid/tr/parsers/profile/ProfileParser.java:145-156 | inside a test the argument joins the test; a duplicate is rejected naming the test and the argument |
| ProfileParser.ProfileHandler.FileArgumentInCapability | src/main/java/org/splandroid/tr/parsers/profile/ProfileParser.java:147-156 | outside a test the argument joins the capability; a duplicate's message cannot be built without a test, so it is a null reference |
| ProfileParser.ProfileHandler.EnvironmentStart | src/main/java/org/splandroid/tr/parsers/profile/ProfileParser.java:159-164 | the flag is set, and the tag is rejected outside a capability or inside a test |
| ProfileParser.ProfileHandler.EnvironmentEnd | src/main/java/org/splandroid/tr/parsers/profile/ProfileParser.java:279-280 | only the environment flag is cleared |
| ProfileParser.ProfileHandler.VariableStart | src/main/java/org/splandroid/tr/parsers/profile/ProfileParser.java:166-183 | a variable outside an environment is rejected; it needs a non-empty name and a value, and then becomes the open environment symbol |
| ProfileParser.ProfileHandler.VariableEnd | src/main/java/org/splandroid/tr/parsers/profile/ProfileParser.java:185-196 | the variable is filed under the capability's environment context; a duplicate's message dereferences the closed test and argument |
| ProfileParser.ProfileHandler.ExistsStart | src/main/java/org/splandroid/tr/parsers/profile/ProfileParser.java:198-222 | `exists` outside an environment, or without a name, is rejected; otherwise a variable the environment lacks is recorded once |
| ProfileParser.ProfileHandler.StartElement | src/main/java/org/splandroid/tr/parsers/profile/ProfileParser.java:241-263 | each of the seven tags does exactly what `OpenedAs` says for it: accepted with the new capability, test, argument or variable open and only its flag set, or rejected with that tag's error; the missing record follows the event, the table is untouched and unknown tags change nothing |
| ProfileParser.ProfileHandler.StartEnvironmentElement | src/main/java/org/splandroid/tr/parsers/profile/ProfileParser.java:255-262 | the environment section's opening tags, and unknown tags, do exactly what `OpenedAs` says for them |
| ProfileParser.ProfileHandler.EndElement | src/main/java/org/splandroid/tr/parsers/profile/ProfileParser.java:265-284 | each closing tag does exactly what `ClosedAs` says for it: the capability goes into the table, a test, argument or variable is filed under a new key of its owner, a taken key gives that tag's duplicate error or a null reference; `exists` and unknown tags change nothing |
| ProfileParser.ProfileHandler.EndEnvironmentElement | src/main/java/org/splandroid/tr/parsers/profile/ProfileParser.java:279-283 | the environment section's closing tags do exactly what `ClosedAs` says, and change neither the table nor the missing record |
| ProfileParser.Parse | src/main/java/org/splandroid/tr/parsers/profile/ProfileParser.java:337-352 | a parse fails exactly when `ProfileOutcome` fails, with the same failure; on success the table has the same capabilities, ids and kinds as `ProfileOutcome`'s, every entry is a capability under its own id and no required variable is missing |
| ProfileParser.RejectionFinal | src/main/java/org/splandroid/tr/parsers/profile/ProfileParser.java:339-345 | once an event is rejected the parse is over: no later event changes the outcome |
| ProfileParser.RunMissing | src/main/java/org/splandroid/tr/parsers/profile/ProfileParser.java:198-222 | the missing record of an accepted run is exactly the variables its `exists` tags name that the environment lacks, each once, in document order |
| ProfileParser.RunConsistent | src/main/java/org/splandroid/tr/parsers/profile/ProfileParser.java:77-196 | every state an accepted run reaches keeps each capability under its own id, with its keys exactly its children's keys and no id twice in a context |
| ProfileParser.AcceptedProfile | src/main/java/org/splandroid/tr/parsers/profile/ProfileParser.java:337-352 | a document the parse accepts has no missing variable, and every capability of its table is consistent and filed under its own id |
| ProfileParser.TestFiledConsistent | src/main/java/org/splandroid/tr/parsers/profile/ProfileParser.java:110-119 | a test is filed only under a key its capability has not used |
| ProfileParser.ArgumentFiledConsistent | src/main/java/org/splandroid/tr/parsers/profile/ProfileParser.java:142-157 | an argument is filed only under a key its owner has not used |
| ProfileParser.VariableFiledConsistent | src/main/java/org/splandroid/tr/parsers/profile/ProfileParser.java:185-196 | a variable is filed only under a key its capability has not used |
| ProfileParser.OpenedMirrored | src/main/java/org/splandroid/tr/parsers/profile/ProfileParser.java:241-263 | an opening tag applied to the handler as `OpenedAs` says, and to the value state as `Opened` computes, is rejected by both or neither, with the same error, and keeps the two in agreement |
| ProfileParser.ClosedMirrored | src/main/java/org/splandroid/tr/parsers/profile/ProfileParser.java:265-284 | the same for a closing tag, against `Closed` |
| ProfileParser.CapabilityFiledMirrored | src/main/java/org/splandroid/tr/parsers/profile/ProfileParser.java:96-99 | closing a capability in the handler and in the value state agree |
| ProfileParser.TestFiledMirrored | src/main/java/org/splandroid/tr/parsers/profile/ProfileParser.java:110-119 | closing a test in the handler and in the value state agree, duplicates included |
| ProfileParser.ArgumentFiledMirrored | src/main/java/org/splandroid/tr/parsers/profile/ProfileParser.java:142-157 | closing an argument in the handler and in the value state agree, for both owners and duplicates |
| ProfileParser.VariableFiledMirrored | src/main/java/org/splandroid/tr/parsers/profile/ProfileParser.java:185-196 | closing a variable in the handler and in the value state agree, duplicates included |
| ProfileParser.Feed | src/main/java/org/splandroid/tr/parsers/profile/ProfileParser.java:340 | the handler rejects one event exactly when `ProfileStep` does, with the same error, and otherwise still agrees with the stepped state |
| ProfileParser.Deliver | src/main/java/org/splandroid/tr/parsers/profile/ProfileParser.java:340 | the SAX parser's delivery of the events rejects exactly when `ProfileRun` does, with the same error, and otherwise leaves the handler agreeing with `ProfileRun`'s state |
| Events.AppendDistinct | src/main/java/org/splandroid/tr/events/TRTestSubject.java:43-45 | attaching a new reporter keeps one wrapper per reporter |
| Events.WithoutRemoves | src/main/java/org/splandroid/tr/events/TRTestSubject.java:48-55 | detaching removes exactly that reporter's wrapper, and detaching an unattached reporter changes nothing |
| Events.UpdatesForIndexed | src/main/java/org/splandroid/tr/events/TRTestSubject.java:63-66 | a notification hands the event to every wrapper, most recently attached first |
| Events.EveryReporterUpdated | src/main/java/org/splandroid/tr/events/TRTestSubject.java:63-66 | a reporter receives an event exactly when it is attached, and only that event is delivered |
| Events.UpdatedOnce | src/main/java/org/splandroid/tr/events/TRTestSubject.java:63-66 | each attached reporter receives a notified event exactly once |
| Events.TestSubject.constructor | src/main/java/org/splandroid/tr/events/TRTestSubject.java:29-31 | a new subject has no reporters and has delivered nothing |
| Events.TestSubject.AttachReporter | src/main/java/org/splandroid/tr/events/TRTestSubject.java:33-46 | the reporter's wrapper joins the observers and the reporter the registry, keeping the asserted count equality |
| Events.TestSubject.DetachReporter | src/main/java/org/splandroid/tr/events/TRTestSubject.java:48-55 | an attached reporter leaves both lists; otherwise nothing changes |
| Events.TestSubject.NumberOfReporters | src/main/java/org/splandroid/tr/events/TRTestSubject.java:57-61 | the observer count equals the number of attached reporters |
| Events.TestSubject.NotifyReporters | src/main/java/org/splandroid/tr/events/TRTestSubject.java:63-66 | a non-null event is delivered to every attached reporter; a null one reaches nobody |
| Events.TestSubject.SetComponent | src/main/java/org/splandroid/tr/events/TRTestSubject.java:68-72 | every attached reporter is told the component once, in some order of the registry |
| Events.DetachUndoesAttach | src/main/java/org/splandroid/tr/events/TRTestSubject.java:33-55 | attaching and then detaching a reporter restores the observers |
| Reporting.EventIdentifiesCall | src/main/java/org/splandroid/tr/reporting/TRReportFacade.java:42-175 | the event of a facade call determines the call: decoding the event gives the call back |
| Reporting.EventOfInjective | src/main/java/org/splandroid/tr/reporting/TRReportFacade.java:42-175 | no two facade calls send the same event |
| Reporting.TestCaseOutcomes | src/main/java/org/splandroid/tr/reporting/TRReportFacade.java:114-129 | passed, failed and errored cases share one event kind and are told apart by the failure flag and the throwable |
| Reporting.TestOutcomes | src/main/java/org/splandroid/tr/reporting/TRReportFacade.java:160-175 | a failed test carries its message as the description; an errored one carries the throwable and no description |
| Reporting.FailureAndThrowable | src/main/java/org/splandroid/tr/reporting/TRReportFacade.java:42-181 | the failed and error calls, and only they, report a failure; only error calls carry a throwable, which is theirs |
| Reporting.ReportFacade.constructor | src/main/java/org/splandroid/tr/reporting/TRReportFacade.java:28-30 | the facade forwards to the given subject |
| Reporting.ReportFacade.SetComponent | src/main/java/org/splandroid/tr/reporting/TRReportFacade.java:35-37 | every attached reporter is told the component |
| Reporting.ReportFacade.Report | src/main/java/org/splandroid/tr/reporting/TRReportFacade.java:177-182 | any other call sends exactly one event, its own, to every attached reporter |
| TokenSubstitution.WordEnd | src/main/java/org/splandroid/tr/parsers/tests/TokenSubstitution.java:54-55 | the run of `\w` characters ends at the first character that is not one |
| TokenSubstitution.TokenAt | src/main/java/org/splandroid/tr/parsers/tests/TokenSubstitution.java:54-55 | a match is an anchor, one or more word characters, and an anchor |
| TokenSubstitution.TokenFound | src/main/java/org/splandroid/tr/parsers/tests/TokenSubstitution.java:66 | with a non-word anchor, every token is the match found at its start |
| TokenSubstitution.TokenAtComplete | src/main/java/org/splandroid/tr/parsers/tests/TokenSubstitution.java:66 | no match is found at a position exactly when no token starts there |
| TokenSubstitution.FindFrom | src/main/java/org/splandroid/tr/parsers/tests/TokenSubstitution.java:66 | `find` reports the leftmost match at or after the position, or none when none exists |
| TokenSubstitution.Lookup | src/main/java/org/splandroid/tr/parsers/tests/TokenSubstitution.java:69-77 | the replacement exists exactly when some non-null map defines the token, and then it is the first such map's value |
| TokenSubstitution.Matches | src/main/java/org/splandroid/tr/parsers/tests/TokenSubstitution.java:66 | every reported match is a real token at or after the start position |
| TokenSubstitution.SkipLiteral | src/main/java/org/splandroid/tr/parsers/tests/TokenSubstitution.java:83-93 | text where no token starts is copied literally |
| TokenSubstitution.NoTokenUnchanged | src/main/java/org/splandroid/tr/parsers/tests/TokenSubstitution.java:60-97 | a value without tokens is returned unchanged, whatever the maps hold |
| TokenSubstitution.SucceedsIffAllDefined | src/main/java/org/splandroid/tr/parsers/tests/TokenSubstitution.java:66-80 | substitution succeeds exactly when every matched token is defined; a failure names the kind and an undefined token |
| TokenSubstitution.SingleToken | src/main/java/org/splandroid/tr/parsers/tests/TokenSubstitution.java:60-97 | a value that is exactly one token becomes its replacement, or fails with the token's not-found message |
| TokenSubstitution.DoubleAnchorLiteral | src/main/java/org/splandroid/tr/parsers/tests/TokenSubstitution.java:60-97 | two adjacent anchors are not a token and survive literally |
| TokenSubstitution.ReplacementNotRescanned | src/main/java/org/splandroid/tr/parsers/tests/TokenSubstitution.java:60-97 | replacement text is emitted verbatim and not searched again |
| TokenSubstitution.TokenInContext | src/main/java/org/splandroid/tr/parsers/tests/TokenSubstitution.java:81-94 | text before and after a token is kept around the replacement, and null maps are skipped |
| TokenSubstitution.EarlierMapWins | src/main/java/org/splandroid/tr/parsers/tests/TokenSubstitution.java:69-77 | a token defined by the first map takes that map's value |
| TokenSubstitution.LookupFirst | src/main/java/org/splandroid/tr/parsers/tests/TokenSubstitution.java:69-77 | the first map that defines the token supplies the replacement |
| TokenSubstitution.TokenSubstitution.constructor | src/main/java/org/splandroid/tr/parsers/tests/TokenSubstitution.java:52-58 | a new service has its anchor and kind and no maps |
| TokenSubstitution.TokenSubstitution.AddMap | src/main/java/org/splandroid/tr/parsers/tests/TokenSubstitution.java:99-102 | the map is registered after the existing ones, and the service itself is returned |
| TokenSubstitution.TokenSubstitution.ClearMaps | src/main/java/org/splandroid/tr/parsers/tests/TokenSubstitution.java:104-106 | no maps remain |
| TokenSubstitution.TokenSubstitution.FindReplacement | src/main/java/org/splandroid/tr/parsers/tests/TokenSubstitution.java:68-77 | the loop over the maps finds the first definition |
| TokenSubstitution.TokenSubstitution.Substitute | src/main/java/org/splandroid/tr/parsers/tests/TokenSubstitution.java:60-97 | the scanning loop computes the substitution of the whole value against the registered maps |
| Arguments.PutThenGet | src/main/java/org/splandroid/tr/parsers/tests/TestArguments.java:26-34 | a stored value is read back, other keys keep theirs, and the id is unchanged |
| Arguments.ToString | src/main/java/org/splandroid/tr/parsers/tests/TestArguments.java:56-74 | the text is the bracketed id and the entries in one iteration order of all keys, separated by ", ", in braces |
| Arguments.KeySet | src/main/java/org/splandroid/tr/parsers/tests/TestArguments.java:63 | the key set is iterated once per key, in some order |
| Arguments.RenderEmpty | src/main/java/org/splandroid/tr/parsers/tests/TestArguments.java:56-74 | an empty map renders as "[id] {}" |
| Arguments.RenderShape | src/main/java/org/splandroid/tr/parsers/tests/TestArguments.java:56-74 | the text opens with "[id] {" and closes with "}" |
| Arguments.RenderSnoc | src/main/java/org/splandroid/tr/parsers/tests/TestArguments.java:61-70 | one more entry adds exactly a separator and that entry before the closing brace |
| Arguments.RenderSingle | src/main/java/org/splandroid/tr/parsers/tests/TestArguments.java:56-74 | a single entry renders without a separator |
| TestsParser.Loaded | src/main/java/org/splandroid/tr/parsers/tests/TestsParser.java:127-136 | a tag whose attribute count differs from the declared arguments is rejected with both counts |
| TestsParser.LoadFromStores | src/main/java/org/splandroid/tr/parsers/tests/TestsParser.java:141-206 | a successful load keeps the map's id, adds exactly the declared arguments, and stores an object of its declared class under each |
| TestsParser.ForwardReferenceRejected | src/main/java/org/splandroid/tr/parsers/tests/TestsParser.java:138-171 | a reference to an argument declared later, and not yet read, is rejected with its not-found message |
| TestsParser.BackReferenceResolved | src/main/java/org/splandroid/tr/parsers/tests/TestsParser.java:138-205 | a reference to an argument already read is replaced by that object's text |
| TestsParser.PlainStringStoredVerbatim | src/main/java/org/splandroid/tr/parsers/tests/TestsParser.java:159-205 | a string argument without references is stored as written |
| TestsParser.EnvironmentInherited | src/main/java/org/splandroid/tr/parsers/tests/TestsParser.java:294-300 | the inherited environment holds exactly the profile's variables, each with its profile value |
| TestsParser.CaseEnvironmentFirst | src/main/java/org/splandroid/tr/parsers/tests/TestsParser.java:310-313 | a `$name$` reference takes the case's value of `name` before the process's |
| TestsParser.EnvSubstitutionKeeps | src/main/java/org/splandroid/tr/parsers/tests/TestsParser.java:324-334 | the environment pass keeps the map's id, its keys and every object that is not a string |
| TestsParser.EnvSubstitutionPlain | src/main/java/org/splandroid/tr/parsers/tests/TestsParser.java:324-334 | a map whose strings have no `$` reference is left as it was |
| TestsParser.CompletedKeepsCase | src/main/java/org/splandroid/tr/parsers/tests/TestsParser.java:361-367 | a completed descriptor keeps the case's id, description and tests in order, and takes the capability's class |
| TestsParser.TestsHandler.constructor | src/main/java/org/splandroid/tr/parsers/tests/TestsParser.java:79-88 | a new handler has everything closed, an empty output list and two fresh substitution services |
| TestsParser.TestsHandler.LoadArgument | src/main/java/org/splandroid/tr/parsers/tests/TestsParser.java:141-205 | one declared argument is checked and built in the source's order: class, attribute, substitution, constructor, instance |
| TestsParser.TestsHandler.LoadArguments | src/main/java/org/splandroid/tr/parsers/tests/TestsParser.java:122-207 | the counts are compared, then every declared argument is built and stored in declared order |
| TestsParser.TestsHandler.InheritEnvironment | src/main/java/org/splandroid/tr/parsers/tests/TestsParser.java:294-300 | the capability's environment symbols are put into a new map in declared order |
| TestsParser.TestsHandler.InitialiseEnvironmentSubstitution | src/main/java/org/splandroid/tr/parsers/tests/TestsParser.java:310-313 | the `$` service holds the case environment, then the process environment |
| TestsParser.TestsHandler.EnvironmentSubstitution | src/main/java/org/splandroid/tr/parsers/tests/TestsParser.java:324-334 | the string values are `$`-substituted in key-set order; one failure fails the pass |
| TestsParser.TestsHandler.SubstituteTests | src/main/java/org/splandroid/tr/parsers/tests/TestsParser.java:350-359 | the pass runs over every test's arguments in turn |
| TestsParser.TestsHandler.CompleteTestCase | src/main/java/org/splandroid/tr/parsers/tests/TestsParser.java:348-367 | the descriptor of a closed capability has its arguments substituted and the capability's class |
| TestsParser.TestsHandler.TestCaseStart | src/main/java/org/splandroid/tr/parsers/tests/TestsParser.java:221-244 | a case inside a case is rejected; a case without a non-empty id and description is rejected; otherwise it opens with an empty test list |
| TestsParser.TestsHandler.TestCaseEnd | src/main/java/org/splandroid/tr/parsers/tests/TestsParser.java:249-256 | the open case is closed; with none open the tag is rejected |
| TestsParser.TestsHandler.CapabilityStart | src/main/java/org/splandroid/tr/parsers/tests/TestsParser.java:271-301 | allowed only inside a case and outside another set-up; its arguments are loaded and its environment is inherited |
| TestsParser.TestsHandler.TestStart | src/main/java/org/splandroid/tr/parsers/tests/TestsParser.java:385-411 | allowed only inside a capability and outside another test; it must name a test of the capability, whose arguments are loaded |
| TestsParser.TestsHandler.TestEnd | src/main/java/org/splandroid/tr/parsers/tests/TestsParser.java:416-431 | the test joins the case's list, and the test is closed |
| TestsParser.TestsHandler.EnvironmentStart | src/main/java/org/splandroid/tr/parsers/tests/TestsParser.java:438-445 | allowed only inside a capability and outside its tests |
| TestsParser.TestsHandler.VariableStart | src/main/java/org/splandroid/tr/parsers/tests/TestsParser.java:454-484 | a variable needs a name and a value; its value, `$`-substituted, overrides the case environment |
| TestsParser.TestsHandler.CapabilityEnd | src/main/java/org/splandroid/tr/parsers/tests/TestsParser.java:340-376 | with at least one test, exactly one descriptor is appended; with none, nothing is; either way the capability is closed |
| TestsParser.TestsHandler.StartElement | src/main/java/org/splandroid/tr/parsers/tests/TestsParser.java:522-536 | the handler does exactly the step `TestsStep` computes for the opening tag, accepted or rejected with the same error: the document's own tags, else a capability of the table, else a test; only a `variable` tag can change a descriptor already appended, and none is added |
| TestsParser.TestsHandler.EndElement | src/main/java/org/splandroid/tr/parsers/tests/TestsParser.java:538-552 | the handler does exactly the step `TestsStep` computes for the closing tag; only a capability's close can append a descriptor, at most one, keeping the earlier ones |
| TestsParser.Parse | src/main/java/org/splandroid/tr/parsers/tests/TestsParser.java:599-609 | the result is exactly `TestsOutcome`: the descriptors of the document read from an empty list, or the first rejection; every descriptor is well formed |
| TestsParser.TestsHandler.SymbolStart | src/main/java/org/splandroid/tr/parsers/tests/TestsParser.java:495-506 | a tag naming a capability of the table opens it, any other opens a test, exactly as `SymbolOpened` computes; no descriptor changes |
| TestsParser.TestsHandler.SymbolEnd | src/main/java/org/splandroid/tr/parsers/tests/TestsParser.java:514-520 | a tag naming a capability of the table closes it, any other closes a test, exactly as `SymbolClosed` computes |
| TestsParser.Deliver | src/main/java/org/splandroid/tr/parsers/tests/TestsParser.java:603 | handing the next event to a handler that has read a prefix leaves it in the state `TestsRun` computes for the longer prefix, or gives `TestsRun`'s rejection |
| TestsParser.RejectionFinal | src/main/java/org/splandroid/tr/parsers/tests/TestsParser.java:602-608 | once an event is rejected the parse is over: no later event changes the outcome |
| TestsParser.StepContinues | src/main/java/org/splandroid/tr/parsers/tests/TestsParser.java:522-552 | an accepted event keeps every descriptor appended so far; only a capability's close appends one, and only it or a `variable` tag changes the list |
| TestsParser.DescriptorsInDocumentOrder | src/main/java/org/splandroid/tr/parsers/tests/TestsParser.java:364-367 | the descriptors of every prefix of an accepted document are those of the whole document, in order; only the last one's environment may still change |
| TestsParser.WithEnvironment | src/main/java/org/splandroid/tr/parsers/tests/TestsParser.java:364-366 | a changed case environment reaches the last descriptor exactly when the descriptor holds that map, and no other descriptor |
| TestsParser.LateVariableReachesDescriptor | src/main/java/org/splandroid/tr/parsers/tests/TestsParser.java:454-484 | a `variable` read after its capability's close lands in the environment of the descriptor that close appended, because the descriptor holds the case's map |
| TestRunner.Accessor | src/main/java/org/splandroid/tr/testing/TRTestRunner.java:112-116 | a name has an accessor exactly when it is non-empty: the prefix, the first letter upper-cased, then the rest |
| TestRunner.SetterNameIgnoresInitialCase | src/main/java/org/splandroid/tr/testing/TRTestRunner.java:112-116 | "timeout" and "Timeout" share the setter "setTimeout" |
| TestRunner.Journal.constructor | src/main/java/org/splandroid/tr/testing/TRTestRunner.java:38 | a new journal is empty |
| TestRunner.Journal.Record | src/main/java/org/splandroid/tr/testing/TRTestRunner.java:38 | one report is appended |
| TestRunner.ExecuteSetterStep | src/main/java/org/splandroid/tr/testing/TRTestRunner.java:203-244 | applying one execute setter runs only setters and reports nothing |
| TestRunner.ExecuteSettersFrom | src/main/java/org/splandroid/tr/testing/TRTestRunner.java:202-245 | the execute setters, in key order, run only setters |
| TestRunner.ExecuteSettersApplied | src/main/java/org/splandroid/tr/testing/TRTestRunner.java:202-245 | the pre-execute phase gets through exactly when every set-up argument's setter exists, is marked and does not throw, and then each has run once, in key order |
| TestRunner.ExecutePhase | src/main/java/org/splandroid/tr/testing/TRTestRunner.java:118-146 | the execute phase runs only setters and `execute` |
| TestRunner.TestSetterStep | src/main/java/org/splandroid/tr/testing/TRTestRunner.java:253-291 | applying one test setter runs only that setter |
| TestRunner.TestSettersFrom | src/main/java/org/splandroid/tr/testing/TRTestRunner.java:252-292 | a test's setters run only setters |
| TestRunner.TestMethodStep | src/main/java/org/splandroid/tr/testing/TRTestRunner.java:294-331 | the test method lookup always decides the test, and runs at most the test method |
| TestRunner.TestBody | src/main/java/org/splandroid/tr/testing/TRTestRunner.java:248-332 | `runTest` always decides the test and runs only setters and the test method |
| TestRunner.TestReportedOnce | src/main/java/org/splandroid/tr/testing/TRTestRunner.java:152-191 | each test is reported as starting, then exactly once as passed, failed or errored, as its last entry, and writes nothing about the case |
| TestRunner.TestMethodDecides | src/main/java/org/splandroid/tr/testing/TRTestRunner.java:294-331 | once the setters apply: a missing or unmarked method errors the test; a failed assertion fails it with its message; any other exception errors it; otherwise it passes |
| TestRunner.TestsInListOrder | src/main/java/org/splandroid/tr/testing/TRTestRunner.java:148-194 | the test phase starts every test in list order, whatever earlier tests did, and writes nothing about the case |
| TestRunner.TestsPassIff | src/main/java/org/splandroid/tr/testing/TRTestRunner.java:148-194 | the test phase passes exactly when every test passed |
| TestRunner.CaseReportedOnce | src/main/java/org/splandroid/tr/testing/TRTestRunner.java:56-110 | a case is reported as starting; it is ended exactly once when `run` returns and never when an exception leaves it; `tearDown` runs once exactly when `setUp` returned |
| TestRunner.SetUpFailureStopsCase | src/main/java/org/splandroid/tr/testing/TRTestRunner.java:65-73 | a `setUp` failure errors the case and returns false, and nothing else runs, not even `tearDown` |
| TestRunner.ExecuteFailureStopsCase | src/main/java/org/splandroid/tr/testing/TRTestRunner.java:78-95 | a failing pre-execute setter or `execute` errors the case with the cause and returns false; no test starts; `tearDown` runs once, last before the case end |
| TestRunner.EscapeLeavesCase | src/main/java/org/splandroid/tr/testing/TRTestRunner.java:78-95 | an exception escaping the execute phase leaves `run` after `tearDown`, with no test started and the case never ended |
| TestRunner.CaseVerdict | src/main/java/org/splandroid/tr/testing/TRTestRunner.java:97-109 | once the execute phase gets through, every test starts in list order and the case passes exactly when every test passed |
| TestRunner.VerdictCounts | src/main/java/org/splandroid/tr/testing/TRTestRunner.java:91-106 | after the tests, the case is ended once, right after `tearDown`, which runs once |
| TestRunner.EmptyCasePasses | src/main/java/org/splandroid/tr/testing/TRTestRunner.java:148-194 | a case without tests passes once the execute phase gets through |
| TestRunner.CaseStartsOnce | src/main/java/org/splandroid/tr/testing/TRTestRunner.java:56-110 | a case record opens with the start of that case, and nothing after it starts a case or reports on a suite |
| TestRunner.ErrorCaseBody | src/main/java/org/splandroid/tr/testing/TRTestRunner.java:78-86 | an errored execute phase writes nothing that starts a case or reports on a suite |
| TestRunner.EscapeBody | src/main/java/org/splandroid/tr/testing/TRTestRunner.java:78-95 | neither does an escaping one |
| TestRunner.VerdictBody | src/main/java/org/splandroid/tr/testing/TRTestRunner.java:88-106 | neither does a completed one |
| TestRunner.TestRunner.constructor | src/main/java/org/splandroid/tr/testing/TRTestRunner.java:42-44 | a new runner writes to the given journal and has no test case |
| TestRunner.TestRunner.SetTestCase | src/main/java/org/splandroid/tr/testing/TRTestRunner.java:46-48 | the runner holds the given test case |
| TestRunner.TestRunner.InvokeTestExecuteSetter | src/main/java/org/splandroid/tr/testing/TRTestRunner.java:203-244 | one iteration writes and stops as the step function says |
| TestRunner.TestRunner.InvokeTestExecuteSetters | src/main/java/org/splandroid/tr/testing/TRTestRunner.java:196-246 | no set-up arguments means nothing runs; otherwise the setters run in one key-set order |
| TestRunner.TestRunner.RunExecutePhase | src/main/java/org/splandroid/tr/testing/TRTestRunner.java:118-146 | the execute setters, then `execute`, as the phase function says |
| TestRunner.TestRunner.ApplyTestSetter | src/main/java/org/splandroid/tr/testing/TRTestRunner.java:253-291 | one iteration of the setter loop, as the step function says |
| TestRunner.TestRunner.RunTestSetters | src/main/java/org/splandroid/tr/testing/TRTestRunner.java:252-292 | the setter loop, as the setters function says |
| TestRunner.TestRunner.RunTest | src/main/java/org/splandroid/tr/testing/TRTestRunner.java:248-332 | `runTest` and its handler compute the test's result over one key order |
| TestRunner.TestRunner.RunOneTest | src/main/java/org/splandroid/tr/testing/TRTestRunner.java:153-190 | the start, the body and the end of one test; passed exactly when the test passed |
| TestRunner.TestRunner.RunTestPhase | src/main/java/org/splandroid/tr/testing/TRTestRunner.java:148-194 | every test in list order; the result is the phase's verdict |
| TestRunner.TestRunner.FinishCase | src/main/java/org/splandroid/tr/testing/TRTestRunner.java:88-109 | the test phase, `tearDown`, then the verdict |
| TestRunner.TestRunner.RunAfterSetUp | src/main/java/org/splandroid/tr/testing/TRTestRunner.java:78-109 | after `setUp`, the execute phase, then the tests, with `tearDown` either way |
| TestRunner.TestRunner.Run | src/main/java/org/splandroid/tr/testing/TRTestRunner.java:56-110 | `run` writes the case record for some fitting key orders and returns its outcome |
| TestRunner.TestRunner.RunCase | src/main/java/org/splandroid/tr/testing/TRTestRunner.java:59-110 | for the case held, the opening, then the `setUp` error or everything after `setUp`, as the case record says |
| TestRunner.TestRunner.OpenCase | src/main/java/org/splandroid/tr/testing/TRTestRunner.java:61-67 | the case is reported as starting, with its description, then `setUp` runs |
| TestSuite.LoadCase | src/main/java/org/splandroid/tr/testing/TRTestSuite.java:76-124 | a case loads exactly when its class is a test case class with a working public constructor; it then has the descriptor's fields, the class's behaviour and the suite's provision; any failure is an `InternalTestException` |
| TestSuite.LoadErrors | src/main/java/org/splandroid/tr/testing/TRTestSuite.java:81-119 | each of the five load failures gives its own message naming the class |
| TestSuite.SuiteErrorMessage | src/main/java/org/splandroid/tr/testing/InternalTestException.java:48-53 | a suite error's message starts with the unset phase, "null phase expection: ", then the detail |
| TestSuite.CaseStep | src/main/java/org/splandroid/tr/testing/TRTestSuite.java:76-131 | a case that does not stop the suite writes something, and it passes exactly when it loads and its runner returns true |
| TestSuite.CaseStepReports | src/main/java/org/splandroid/tr/testing/TRTestSuite.java:127-128 | a case that loads writes that case's start first, and no suite end |
| TestSuite.CasesInListOrder | src/main/java/org/splandroid/tr/testing/TRTestSuite.java:76-132 | cases start in list order, each once, up to the one that stops the suite; a fault is at a case that does not load; no case writes a suite end |
| TestSuite.CasesPassIff | src/main/java/org/splandroid/tr/testing/TRTestSuite.java:128-134 | the cases pass together exactly when every case loads and its runner returns true |
| TestSuite.SuiteReportedOnce | src/main/java/org/splandroid/tr/testing/TRTestSuite.java:49-66 | the suite's start comes first; when `run` returns, exactly one end comes last (passed, failed, or the error that stopped it); when an exception escapes, there is none |
| TestSuite.SuitePassIff | src/main/java/org/splandroid/tr/testing/TRTestSuite.java:49-66 | the suite passes exactly when every case loads and every runner returns true |
| TestSuite.FaultStopsSuite | src/main/java/org/splandroid/tr/testing/TRTestSuite.java:60-63 | a case that cannot load ends the suite with that error, after the earlier cases have run |
| TestSuite.FaultAt | src/main/java/org/splandroid/tr/testing/TRTestSuite.java:80-119 | the fault is the load error of the first case that did not start |
| TestSuite.TestSuite.constructor | src/main/java/org/splandroid/tr/testing/TRTestSuite.java:39-47 | the suite holds its id, cases, classes, provision and journal |
| TestSuite.TestSuite.RunSuite | src/main/java/org/splandroid/tr/testing/TRTestSuite.java:72-135 | the loop writes the cases' records in order and stops at the first stop |
| TestSuite.TestSuite.Run | src/main/java/org/splandroid/tr/testing/TRTestSuite.java:49-66 | `run` writes the suite record for the cases reached and returns its outcome |
| Harness.CaseList.constructor | src/main/java/org/splandroid/tr/Main.java:227 | the list holds the descriptors that set-up produced |
| Harness.IncludeCompare | src/main/java/org/splandroid/tr/Main.java:160-169 | the count of equal ids is 1 when the case is included and 0 otherwise |
| Harness.ExcludeCompare | src/main/java/org/splandroid/tr/Main.java:178-188 | the comparison is 0 exactly when the case is excluded |
| Harness.Compare | src/main/java/org/splandroid/tr/Main.java:98 | the comparison is 0 exactly when the comparator removes the case |
| Harness.KeptMembers | src/main/java/org/splandroid/tr/Main.java:90-104 | a case remains exactly when it was listed and the comparator does not remove it |
| Harness.KeptAppend | src/main/java/org/splandroid/tr/Main.java:90-104 | removal works element by element, so the remaining cases keep their relative order |
| Harness.KeptShrinks | src/main/java/org/splandroid/tr/Main.java:90-104 | nothing is duplicated or invented: what remains is a sub-multiset of the list |
| Harness.RemoveTestCaseDescriptors | src/main/java/org/splandroid/tr/Main.java:90-104 | the iterator loop leaves exactly the cases the comparator keeps, in order |
| Harness.RemoveTestCases | src/main/java/org/splandroid/tr/Main.java:145-191 | the includes filter, then the excludes filter, each applied only when its set is non-empty |
| Harness.IncludesSelect | src/main/java/org/splandroid/tr/Main.java:159-171 | with includes, exactly the listed cases whose ids are included remain |
| Harness.ExcludesSelect | src/main/java/org/splandroid/tr/Main.java:177-190 | with excludes, exactly the listed cases whose ids are not excluded remain |
| Harness.NothingSelectedOut | src/main/java/org/splandroid/tr/Main.java:145-191 | with neither, the list is left as it is |
| Harness.SelectedInOrder | src/main/java/org/splandroid/tr/Main.java:145-191 | selection distributes over concatenation and keeps the relative order |
| Harness.SpecifiedSuitesSelect | src/main/java/org/splandroid/tr/Main.java:152-153 | a specification accepted from the command line always meets the asserted condition that both sets are not non-empty |
| Harness.SetUpFailureFailsComponent | src/main/java/org/splandroid/tr/Main.java:225-235 | a failed set-up reports its error, runs no suite, and fails the component |
| Harness.ComponentPassIff | src/main/java/org/splandroid/tr/Main.java:362-369 | the component passes exactly when its set-up succeeds and its suite passes, and it is ended last by passed or failed |
| Harness.SetUpAndRunTestSuite | src/main/java/org/splandroid/tr/Main.java:217-245 | the set-up's start, then its error and false, or its end, the narrowing of the cases and the suite's run |
| Harness.RunComponent | src/main/java/org/splandroid/tr/Main.java:362-369 | the component's start, its suite, then passed or failed |

## Left out

- Parsing of XML text: both parsers take the SAX event stream as input (start and end tags with their attributes). Document locators, parse positions and the SAX `warning`/`error`/`fatalError` callbacks are not modelled; messages keep the names and counts they report, not the line and column.
- Reflection (`Class.forName`, `getConstructor`, `getMethod`, annotations, `invoke`) is modelled as data. A `ClassLoader` or `Registry` value says what can be loaded and constructed. A `Behaviour` says which methods exist and are marked, and what `setUp`, `execute`, the setters and the test methods do.
- Exceptions are values: a class name and an optional message. No JDK message format is modelled except these, which the harness's own messages show:
  - `Throwable.toString`, as the class name followed by ": " and the message when there is one (`TestRunner.Describe`);
  - the empty-name `substring` message (`TestRunner.IndexError`);
  - `NoSuchMethodException`'s "Class.name(parameter)" (`TestRunner.NoSuchMethod`);
  - `InvocationTargetException`, with no message (`TestRunner.InvocationFailure`);
  - `ClassNotFoundException`'s message, which is the class name (`TestSuite.NotFound`);
  - the `ClassCastException` of `Class.asSubclass`, as "class k" (`TestSuite.NotTestCase`). For an interface Java writes "interface k"; the model does not tell interfaces from classes, so it cannot produce that text.
- Letter-case conversion covers ASCII letters only.
- `setUp` is modelled as throwing only `Exception`s; `tearDown` is modelled as never throwing.
- Setters are modelled as throwing or not. The thrown exception is wrapped by the reflective call and shows only through the runner's own messages.
- Threads, the operating system process and the semaphore of `KillableProcess` are left out. The worker thread's end is the `Finish` method, and `isRunning` is the running flag. Stream handling and the working directory are not modelled.
- HashMap and HashSet iteration orders are unspecified in Java. Where an iteration order matters, the methods return it as a ghost sequence and the contracts hold for every such order. This covers:
  - the keys of `TestArguments`;
  - the setter loops of the runner;
  - the environment pass;
  - the reporters told the component.
- ProfileErrors.GetMessage: an exception built from a cause alone has, in Java, the cause's `toString()` as its message: the SAX exception's class name and text, and with recent JDKs the locator's line and column. The model gives such an exception no detail message, because JDK exception texts and parse positions are not modelled.
- ProfileParser.Parse: of the table it returns, the keys and each capability's id and kind are proved equal to `ProfileOutcome`'s. The children a capability files are tracked by their keys only while it is open, so the children's lists in the returned symbols are not related to the value model.
- ProfileParser.Parse: the symbol table starts empty. In the source the caller hands in the table, and the callers hand in a new one.
- ProfileParser.ProfileHandler.StartElement, ProfileParser.ProfileHandler.EndElement and the handlers they call: the fields a rejected tag leaves behind are not specified, because the parse ends there. The source sets `inCapability` and `inTest` before it checks the attributes, which matters only for that discarded state.
- ProfileParser.Parse: the missing variables are kept in document order. In the source they are a `HashSet`, so the order of the names in the message is unspecified there.
- `Main`'s file, property and logging I/O is not modelled, and neither are the creation of the input provider and the output manager. The result of reading the two documents reaches the harness as a `Result`: the descriptors, or the exception that stopped set-up.
- Harness.SetUpAndRunTestSuite and Harness.RunComponent take the component name as a string. The null component of a colons-only specification reaches them only as a name.
- `setComponent` on the input provider and the output manager, and the `started`/`finished` calls around `main`'s loop, are not written to the journal.
- `TRTestCase.setOutputManager` creating the component's output directory is not modelled; the provision records only what was handed over.
- Logging calls are left out everywhere.
- TestsParser: the MultipleCapabilities branch of `handleCapabilityStart` cannot be reached. An open capability always has its set-up arguments, so the earlier guard rejects first. The `TestsError` constructor exists, but no path produces it.
- TestsParser: the argument service is given a snapshot of the map as it stands before each argument, instead of being registered once with the live map. The lookups are the same.
- TestsParser.TestsHandler.CapabilityEnd: a failed environment pass is reported without its cause, and the state a rejected event leaves behind is not specified, because the parse ends there.
- TestsParser.Parse: the descriptors already appended when a later event is rejected are not described, because the source throws and the caller discards the list.
- Events.TestSubject.AttachReporter requires a reporter that is not attached yet. Attaching one twice breaks the source's own assertion on the observer count.
- Event time stamps are not modelled.
- Symbol equality is modelled by id and class only; `hashCode` is not modelled.
- `synchronized` is not modelled.
- TestSuite: when a case fails to load, the runner's key orders for that index are an empty placeholder, since nothing runs.
- TestRunner.TestRunner.Run: an exception escaping the execute phase is reported by no case end, exactly as the source reports it.

## Findings

| source | as written | input that shows it | evidently intended | confidence | as-written member | corrected member |
|---|---|---|---|---|---|---|
| src/main/java/org/splandroid/tr/CommandLineProcessor.java:199-203 | the invalid-log-level message is formatted with the search result `logLevel`, which is null whenever the message is printed, so it always reads "Invalid log level: [null]" | `--loglevel verbose` | the message shows the value that was given: "Invalid log level: [verbose]" | not executed | CommandLine.InvalidLevelMessageExample | CommandLine.LogLevelOf |
