/** Reading one path parameter of an API Gateway event (src/framework/validation/event-validation.ts). */
module EventValidation {

  import opened Wrappers
  import opened JsValues
  import opened JsStrings

  /**
   * `getPathParam(pathParams, key)`: the stored string, untrimmed, or `null` when the map is
   * missing, the key is empty, or the entry is missing, not a string, or only whitespace.
   */
  function GetPathParam(pathParams: JsValue, key: string): (r: Option<string>)
    ensures r.Some? <==>
      !Nullish(pathParams) && key != "" && Get(pathParams, key).Str? && !Blank(Get(pathParams, key).s)
    ensures r.Some? ==> Get(pathParams, key) == Str(r.value)
  {
    if !Truthy(pathParams) || key == "" || !Get(pathParams, key).Str?
       || |Trim(Get(pathParams, key).s)| == 0
    then
      None
    else
      TrimEmptyIffBlank(Get(pathParams, key).s);
      Some(Get(pathParams, key).s)
  }

  /** The `null` cases the tests check, and a whitespace-only value. */
  lemma MissingPathParamExamples()
    ensures GetPathParam(Null, "") == None
    ensures GetPathParam(Obj(map[]), "") == None
    ensures GetPathParam(Obj(map["param" := Num(1)]), "param") == None
    ensures GetPathParam(Obj(map["param" := Str("  ")]), "param") == None
  {
    assert Blank("  ");
  }

  /** A set value comes back exactly as stored, surrounding spaces included. */
  lemma PresentPathParamExamples()
    ensures GetPathParam(Obj(map["param" := Str("value")]), "param") == Some("value")
    ensures GetPathParam(Obj(map["param" := Str(" v ")]), "param") == Some(" v ")
  {
    assert !IsWhitespace("value"[0]);
    assert !IsWhitespace(" v "[1]);
  }
}
