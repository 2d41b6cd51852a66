/** Reading the caller's identity from the request context (src/framework/security/authorisation.ts). */
module Authorisation {

  import opened Wrappers
  import opened JsValues

  /**
   * `getStaffNumberFromRequestContext(requestContext)`: the `authorizer.staffNumber` string,
   * or `null` when the context or the authorizer is missing or the field is not a string.
   */
  function GetStaffNumberFromRequestContext(requestContext: JsValue): (r: Option<string>)
    ensures r.Some? <==>
      && requestContext.Obj?
      && "authorizer" in requestContext.props
      && requestContext.props["authorizer"].Obj?
      && "staffNumber" in requestContext.props["authorizer"].props
      && requestContext.props["authorizer"].props["staffNumber"].Str?
    ensures r.Some? ==> requestContext.props["authorizer"].props["staffNumber"] == Str(r.value)
  {
    if Truthy(requestContext) && Truthy(Get(requestContext, "authorizer"))
       && Get(Get(requestContext, "authorizer"), "staffNumber").Str?
    then Some(Get(Get(requestContext, "authorizer"), "staffNumber").s)
    else None
  }

  /** The four cases the tests check, and the empty string, which is still a string. */
  lemma StaffNumberExamples()
    ensures GetStaffNumberFromRequestContext(Undefined) == None
    ensures GetStaffNumberFromRequestContext(Obj(map[])) == None
    ensures GetStaffNumberFromRequestContext(Obj(map["authorizer" := Obj(map["staffNumber" := Num(98765)])])) == None
    ensures GetStaffNumberFromRequestContext(Obj(map["authorizer" := Obj(map["staffNumber" := Str("00224466")])]))
            == Some("00224466")
    ensures GetStaffNumberFromRequestContext(Obj(map["authorizer" := Obj(map["staffNumber" := Str("")])])) == Some("")
  {
  }
}
