/** Presence checks for configuration values (src/framework/config/config.ts). */
module Config {

  import opened Wrappers
  import opened JsStrings

  /**
   * The negation of the shared guard `!value || value?.trim().length === 0`:
   * `null`/`undefined` are `None`, and the empty string is falsy.
   */
  predicate Present(value: Option<string>) {
    value.Some? && value.value != "" && |Trim(value.value)| != 0
  }

  /** A value is present exactly when it is a string with a non-whitespace character. */
  lemma PresentIffNotBlank(value: Option<string>)
    ensures Present(value) <==> value.Some? && !Blank(value.value)
  {
    if value.Some? {
      TrimEmptyIffBlank(value.value);
    }
  }

  /** The untagged union `string | T` that `defaultIfNotPresent` returns, tagged. */
  datatype Setting<T> = Given(value: string) | Fallback(default: T)

  /** `defaultIfNotPresent(value, defaultValue)`. */
  function DefaultIfNotPresent<T>(value: Option<string>, defaultValue: T): (r: Setting<T>)
    ensures r.Given? <==> value.Some? && !Blank(value.value)
    ensures r.Given? ==> value == Some(r.value)
    ensures r.Fallback? ==> r.default == defaultValue
  {
    PresentIffNotBlank(value);
    if !Present(value) then Fallback(defaultValue) else Given(value.value)
  }

  /** The message of the `Error` that `throwIfNotPresent` throws. */
  function MissingMessage(configKey: string): string {
    "Configuration item " + configKey + " was not provided with a value"
  }

  /** `throwIfNotPresent(value, configKey)`; a thrown `Error` is a `Failure` carrying its message. */
  function ThrowIfNotPresent(value: Option<string>, configKey: string): (r: Result<string, string>)
    ensures r.Success? <==> value.Some? && !Blank(value.value)
    ensures r.Success? ==> value == Some(r.value)
    ensures r.Failure? ==> r.error == MissingMessage(configKey)
  {
    PresentIffNotBlank(value);
    if !Present(value) then Failure(MissingMessage(configKey)) else Success(value.value)
  }

  /** Both accessors apply the same check: one succeeds exactly when the other keeps the value. */
  lemma SamePresenceCheck<T>(value: Option<string>, configKey: string, defaultValue: T)
    ensures ThrowIfNotPresent(value, configKey).Success? <==> DefaultIfNotPresent(value, defaultValue).Given?
    ensures ThrowIfNotPresent(value, configKey).Success? ==>
              ThrowIfNotPresent(value, configKey).value == DefaultIfNotPresent(value, defaultValue).value
  {
  }

  /** The cases the tests exercise, and a whitespace-only value, which counts as missing. */
  lemma ConfigExamples()
    ensures DefaultIfNotPresent(Some("hello"), "default") == Given("hello")
    ensures DefaultIfNotPresent(None, "default") == Fallback("default")
    ensures DefaultIfNotPresent(Some(" \t"), "default") == Fallback("default")
    ensures ThrowIfNotPresent(Some("hello"), "key") == Success("hello")
    ensures ThrowIfNotPresent(None, "key") == Failure("Configuration item key was not provided with a value")
  {
    assert !IsWhitespace("hello"[0]);
    assert Blank(" \t");
    assert MissingMessage("key") == "Configuration item key was not provided with a value";
  }
}
