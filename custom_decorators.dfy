/**
 * The checks the three handler decorators run before calling the handler
 * (src/application/utils/custom-decorators.ts). Each check is a pure decision on the
 * handler's arguments; `Invoke` carries a decision out: it logs and responds, or calls the handler.
 */
module CustomDecorators {

  import opened Wrappers
  import opened JsValues
  import opened JsStrings
  import opened Api
  import opened Logging
  import EventValidation

  const MissingEventMessage: string := "Event object or path parameters are missing."
  const UnauthorisedRoleMessage: string := "Examiner role is not authorised for this request."

  /** What a wrapped handler does before reaching the original method. */
  datatype Decision =
    /** Call the original method with the same arguments and return its result. */
    | Proceed
    /** Log `logMessage` with `logValues` at ERROR and return `createResponse(text, status)`. */
    | Reject(status: int, text: string, logMessage: string, logValues: seq<JsValue>)
    /** Reading a property of a nullish event throws a TypeError. */
    | Throws

  /** `args[0]`. */
  function FirstArg(args: seq<JsValue>): JsValue {
    if |args| > 0 then args[0] else Undefined
  }

  /** The guard shared by two decorators: `event && event.pathParameters`. */
  predicate HasPathParameters(event: JsValue) {
    Truthy(event) && Truthy(Get(event, "pathParameters"))
  }

  /** `event.pathParameters[name]`, possibly `undefined`. */
  function PathParameter(event: JsValue, name: string): JsValue
    requires HasPathParameters(event)
  {
    Get(Get(event, "pathParameters"), name)
  }

  const MissingEvent: Decision := Reject(HttpBadRequest, MissingEventMessage, MissingEventMessage, [])

  /** The wrapper installed by `@NonNullPathParam(paramName)`. */
  function NonNullPathParam(paramName: string, args: seq<JsValue>): (d: Decision)
    ensures !d.Throws?
    ensures !HasPathParameters(FirstArg(args)) ==> d == MissingEvent
    ensures HasPathParameters(FirstArg(args)) ==>
              (d.Proceed? <==> Truthy(PathParameter(FirstArg(args), paramName)))
    ensures HasPathParameters(FirstArg(args)) && !Truthy(PathParameter(FirstArg(args), paramName)) ==>
              d == Reject(HttpBadRequest, "Path parameter is required: " + paramName,
                          "Path parameter not defined", [Str(paramName)])
  {
    var event := FirstArg(args);
    if !Truthy(event) || !Truthy(Get(event, "pathParameters")) then
      MissingEvent
    else if !Truthy(Get(Get(event, "pathParameters"), paramName)) then
      Reject(HttpBadRequest, "Path parameter is required: " + paramName, "Path parameter not defined", [Str(paramName)])
    else
      Proceed
  }

  /**
   * The wrapper installed by `@ValidateRole(examinerRole)`; `roleOf` is
   * `getRoleFromRequestContext`, read with the event's `requestContext`.
   */
  function ValidateRole(examinerRole: string, roleOf: JsValue -> Option<string>, args: seq<JsValue>): (d: Decision)
    ensures d.Throws? <==> Nullish(FirstArg(args))
    ensures d.Proceed? <==>
              !Nullish(FirstArg(args)) && examinerRole != ""
              && roleOf(Get(FirstArg(args), "requestContext")) == Some(examinerRole)
    ensures d.Reject? ==>
              d == Reject(HttpUnauthorized, UnauthorisedRoleMessage, UnauthorisedRoleMessage,
                          [Obj(map["required" := Str(examinerRole),
                                   "actual" := OrNull(roleOf(Get(FirstArg(args), "requestContext")))])])
  {
    var event := FirstArg(args);
    if Nullish(event) then
      Throws
    else
      var role := roleOf(Get(event, "requestContext"));
      if role.None? || role.value == "" || role.value != examinerRole then
        Reject(HttpUnauthorized, UnauthorisedRoleMessage, UnauthorisedRoleMessage,
               [Obj(map["required" := Str(examinerRole), "actual" := OrNull(role)])])
      else
        Proceed
  }

  /** The wrapper installed by `@ValidatePathParam(param, validator)`; the validator's result is tested for truthiness. */
  function ValidatePathParam(param: string, validator: JsValue -> JsValue, args: seq<JsValue>): (d: Decision)
    ensures !d.Throws?
    ensures !HasPathParameters(FirstArg(args)) ==> d == MissingEvent
    ensures HasPathParameters(FirstArg(args)) ==>
              (d.Proceed? <==> Truthy(validator(PathParameter(FirstArg(args), param))))
    ensures HasPathParameters(FirstArg(args)) && !Truthy(validator(PathParameter(FirstArg(args), param))) ==>
              d == Reject(HttpBadRequest, "Path parameter failed validation: \"" + param + "\"",
                          "Path parameter is invalid.",
                          [Obj(map["param" := Str(param), "value" := PathParameter(FirstArg(args), param)])])
  {
    var event := FirstArg(args);
    if !Truthy(event) || !Truthy(Get(event, "pathParameters")) then
      MissingEvent
    else
      var pathParam := Get(Get(event, "pathParameters"), param);
      if !Truthy(validator(pathParam)) then
        Reject(HttpBadRequest, "Path parameter failed validation: \"" + param + "\"", "Path parameter is invalid.",
               [Obj(map["param" := Str(param), "value" := pathParam])])
      else
        Proceed
  }

  /** The two path-parameter decorators reject a missing event or parameter map identically. */
  lemma SameMissingEventRejection(paramName: string, param: string, validator: JsValue -> JsValue, args: seq<JsValue>)
    requires !HasPathParameters(FirstArg(args))
    ensures NonNullPathParam(paramName, args) == ValidatePathParam(param, validator, args)
  {
  }

  /** For a string-valued parameter, `@NonNullPathParam` passes exactly the non-empty ones, whitespace included. */
  lemma NonNullPathParamOnStrings(paramName: string, args: seq<JsValue>, value: string)
    requires HasPathParameters(FirstArg(args)) && PathParameter(FirstArg(args), paramName) == Str(value)
    ensures NonNullPathParam(paramName, args).Proceed? <==> value != ""
  {
  }

  /**
   * Whatever `getPathParam` accepts, `@NonNullPathParam` accepts too; the converse fails
   * for whitespace-only values.
   */
  lemma GetPathParamImpliesNonNull(paramName: string, args: seq<JsValue>)
    requires HasPathParameters(FirstArg(args))
    requires EventValidation.GetPathParam(Get(FirstArg(args), "pathParameters"), paramName).Some?
    ensures NonNullPathParam(paramName, args).Proceed?
  {
  }

  lemma WhitespaceParamPassesNonNull()
    ensures var args := [Obj(map["pathParameters" := Obj(map["id" := Str(" ")])])];
            && NonNullPathParam("id", args).Proceed?
            && EventValidation.GetPathParam(Get(FirstArg(args), "pathParameters"), "id").None?
  {
    assert Blank(" ");
  }

  /** The `@NonNullPathParam` cases the tests check. */
  lemma NonNullPathParamExamples()
    ensures NonNullPathParam("testParam", [Obj(map["pathParameters" := Null])]) == MissingEvent
    ensures NonNullPathParam("testParam", [Obj(map["pathParameters" := Obj(map["testParam" := Str("test")])])]).Proceed?
  {
    var missing := [Obj(map["pathParameters" := Null])];
    assert Get(FirstArg(missing), "pathParameters") == Null;
    var present := [Obj(map["pathParameters" := Obj(map["testParam" := Str("test")])])];
    assert PathParameter(FirstArg(present), "testParam") == Str("test");
  }

  /** The `@ValidatePathParam` cases the tests check, with a validator accepting "1234" only. */
  lemma ValidatePathParamExamples()
    ensures ValidatePathParam("test", v => Bool(v == Str("1234")),
                              [Obj(map["pathParameters" := Obj(map["something" := Str("1234")])])])
            == Reject(HttpBadRequest, "Path parameter failed validation: \"test\"", "Path parameter is invalid.",
                      [Obj(map["param" := Str("test"), "value" := Undefined])])
    ensures ValidatePathParam("test", v => Bool(v == Str("1234")),
                              [Obj(map["pathParameters" := Obj(map["test" := Str("1234")])])]).Proceed?
  {
    var absent := [Obj(map["pathParameters" := Obj(map["something" := Str("1234")])])];
    assert "test" !in map["something" := Str("1234")];
    assert PathParameter(FirstArg(absent), "test") == Undefined;
    var present := [Obj(map["pathParameters" := Obj(map["test" := Str("1234")])])];
    assert PathParameter(FirstArg(present), "test") == Str("1234");
  }

  /** With `roleOf` reading `authorizer.examinerRole` as `getRoleFromRequestContext` does. */
  lemma RoleDecoratorExamples(roleOf: JsValue -> Option<string>, role: string)
    requires role != ""
    requires roleOf(Undefined).None?
    requires roleOf(Obj(map["authorizer" := Obj(map["examinerRole" := Str(role)])])) == Some(role)
    ensures ValidateRole(role, roleOf, [Obj(map[])]).Reject?
    ensures ValidateRole(role, roleOf, [Obj(map[])]).status == HttpUnauthorized
    ensures ValidateRole(role, roleOf,
              [Obj(map["requestContext" := Obj(map["authorizer" := Obj(map["examinerRole" := Str(role)])])])]).Proceed?
    ensures ValidateRole(role, roleOf, []).Throws?
  {
  }

  /** The outcome of a wrapped handler call (the promise's settled value). */
  datatype Outcome<R> = Responded(response: Response) | Handled(result: R) | Threw

  /**
   * Carries out a decision: on `Proceed` the handler runs once with the original arguments;
   * on `Reject` exactly one ERROR entry is logged and the handler does not run.
   */
  method Invoke<R>(logger: Logger, decision: Decision, args: seq<JsValue>, handler: seq<JsValue> -> R)
    returns (o: Outcome<R>)
    modifies logger
    ensures decision.Proceed? ==> o == Handled(handler(args)) && logger.State() == old(logger.State())
    ensures decision.Throws? ==> o == Threw && logger.State() == old(logger.State())
    ensures decision.Reject? ==>
              && o == Responded(CreateResponse(logger.stringify, Str(decision.text), decision.status))
              && logger.State() == Emitted(old(logger.State()), ERROR,
                                           FormatMessage(logger.stringify, decision.logMessage, decision.logValues))
  {
    match decision
    case Proceed =>
      o := Handled(handler(args));
    case Throws =>
      o := Threw;
    case Reject(status, text, logMessage, logValues) =>
      logger.Error(logMessage, logValues);
      o := Responded(CreateResponse(logger.stringify, Str(text), status));
  }

  /** A rejection always adds exactly one ERROR entry, whatever the level. */
  lemma RejectionLogsOnce(st: LoggerState, message: string)
    ensures Emitted(st, ERROR, message).out == st.out + [Entry(st.context, ERROR, message)]
  {
  }
}
