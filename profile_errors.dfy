/**
 * How a profile parse fails: the handler's reasons for rejecting a document,
 * and the exception the profile parser throws, whose message for the
 * missing-environment case lists every missing variable.
 */
module ProfileErrors {
  import opened Common

  /**
   * A reason the handler rejects the document. The attributes involved are
   * kept as found (`None` for an absent attribute). `NullPointer` stands for
   * the `NullPointerException` the handler raises when a closing or `exists`
   * tag finds no enclosing capability, test or element to work on.
   */
  datatype ProfileError =
    | CapabilityIncomplete(id: Option<string>, description: Option<string>, className: Option<string>)
    | TestIncomplete(id: Option<string>)
    | ArgumentIncomplete(id: Option<string>, kindClass: Option<string>)
    | VariableIncomplete(name: Option<string>, value: Option<string>)
    | MissingAttribute(attribute: string, tag: string)
    | UnexpectedOpening(tag: string)
    | DuplicateTest(capabilityId: string, testId: string)
    | DuplicateArgument(testId: string, argumentId: string)
    | DuplicateVariable(testId: string, argumentId: string)
    | NullPointer

  /**
   * The profile parser's exception: an optional detail message, the wrapped
   * cause, and for the missing-environment case the names of the missing
   * variables.
   */
  datatype ProfileParserException = ProfileParserException(
    detail: Option<string>,
    cause: Option<ProfileError>,
    missingEnvironment: Option<seq<string>>)

  /** The constructors: none, a message, a cause, a message and a cause, the missing names. */
  function Plain(): ProfileParserException { ProfileParserException(None, None, None) }
  function WithMessage(msg: string): ProfileParserException { ProfileParserException(Some(msg), None, None) }
  function WithCause(cause: ProfileError): ProfileParserException { ProfileParserException(None, Some(cause), None) }
  function WithMessageAndCause(msg: string, cause: ProfileError): ProfileParserException { ProfileParserException(Some(msg), Some(cause), None) }
  function WithMissing(names: seq<string>): ProfileParserException { ProfileParserException(None, None, Some(names)) }

  const MISSING_PREFIX := "Expected environment variables not set: "

  /** The missing-environment message: the prefix and the names separated by ", ", or "" when there are none. */
  function MissingMessage(names: seq<string>): string
  {
    if |names| > 0 then MISSING_PREFIX + Join(names, ", ") else ""
  }

  /**
   * Builds the missing-environment message the way the exception does: the
   * prefix, then each name followed by ", " unless it is the last.
   */
  method MissingEnvironmentMessage(names: seq<string>) returns (msg: string)
    ensures msg == MissingMessage(names)
  {
    msg := "";
    var noMissingEnvs := |names|;
    if noMissingEnvs > 0 {
      msg := msg + MISSING_PREFIX;
      var count := 0;
      while count < noMissingEnvs
        invariant 0 <= count <= noMissingEnvs
        invariant count == 0 ==> msg == MISSING_PREFIX
        invariant 0 < count < noMissingEnvs ==> msg == MISSING_PREFIX + Join(names[..count], ", ") + ", "
        invariant count == noMissingEnvs ==> msg == MISSING_PREFIX + Join(names, ", ")
      {
        if count > 0 {
          JoinSnoc(names[..count], names[count], ", ");
          assert names[..count + 1] == names[..count] + [names[count]];
        } else {
          assert names[..1] == [names[0]];
        }
        msg := msg + names[count];
        if count < noMissingEnvs - 1 {
          msg := msg + ", ";
        }
        count := count + 1;
        assert count == noMissingEnvs ==> names[..count] == names;
      }
    }
  }

  /**
   * `getMessage()`: the missing-environment message when the exception
   * records missing names, otherwise the detail message. An exception built
   * from a cause alone has the cause's text as its detail in Java; that text
   * is not modelled, so the detail stays `None` there.
   */
  function GetMessage(e: ProfileParserException): (r: Option<string>)
    ensures e.missingEnvironment.Some? ==> r == Some(MissingMessage(e.missingEnvironment.value))
    ensures e.missingEnvironment.None? ==> r == e.detail
  {
    match e.missingEnvironment
    case Some(names) => Some(MissingMessage(names))
    case None => e.detail
  }

  /** The message is empty exactly when no name is missing, and otherwise starts with the fixed prefix. */
  lemma MissingMessageShape(names: seq<string>)
    ensures MissingMessage(names) == "" <==> names == []
    ensures names != [] ==> MissingMessage(names)[..|MISSING_PREFIX|] == MISSING_PREFIX
  {
  }

  /** Every missing name appears in the message, in order, separated by ", ". */
  lemma {:induction false} MissingMessageLists(names: seq<string>, name: string)
    requires |names| > 0
    ensures MissingMessage(names + [name]) == MissingMessage(names) + ", " + name
  {
    JoinSnoc(names, name, ", ");
  }

  lemma MissingMessageExample()
    ensures MissingMessage(["JAVA_HOME", "PATH"]) == "Expected environment variables not set: JAVA_HOME, PATH"
    ensures MissingMessage(["X"]) == "Expected environment variables not set: X"
  {
    assert ["JAVA_HOME", "PATH"][1..] == ["PATH"];
  }
}
