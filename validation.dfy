/** The field validators every handler repeats, event extraction, and required configuration. */
module Validation {
  import opened Errors
  import opened Json

  /** `_check_missing_field`: a key that is absent or maps to a falsy value counts as missing. */
  function CheckMissingField(d: Value, key: string): (r: Outcome)
    ensures r.Ok? <==> d.Obj? && key in d.fields && Truthy(d.fields[key])
    ensures d.Obj? && !r.Ok? ==> r == Err(MalformedEvent)
  {
    var v :- Get(d, key);
    if Truthy(v) then Pass else Err(MalformedEvent)
  }

  /** `_validate_field`: reports a missing field first and a mismatched value second. */
  function ValidateField(d: Value, key: string, expected: Value): (r: Outcome)
    ensures r.Ok? <==> d.Obj? && key in d.fields && Truthy(d.fields[key]) && d.fields[key] == expected
    ensures d.Obj? && CheckMissingField(d, key).Err? ==> r == Err(MalformedEvent)
    ensures d.Obj? && CheckMissingField(d, key).Ok? && d.fields[key] != expected ==> r == Err(ValueError)
  {
    var v :- Get(d, key);
    var _ :- CheckMissingField(d, key);
    if v != expected then Err(ValueError) else Pass
  }

  /** A validated field can only equal a truthy expected value: validating against a falsy one always fails. */
  lemma ValidateFalsyNeverPasses(d: Value, key: string, expected: Value)
    requires !Truthy(expected)
    ensures ValidateField(d, key, expected).Err?
  {
  }

  /** The shape shared by the provider events the trigger handlers accept. */
  ghost predicate EventMatches(event: Value, source: string, eventName: string, key: string) {
    && event.Obj?
    && "source" in event.fields && event.fields["source"] == Str(source)
    && "detail" in event.fields && Truthy(event.fields["detail"]) && event.fields["detail"].Obj?
    && var detail := event.fields["detail"];
    && "eventName" in detail.fields && detail.fields["eventName"] == Str(eventName)
    && key in detail.fields && Truthy(detail.fields[key])
  }

  /**
   * `_extract_valid_event`: the source must equal `source`, `detail` must be present, its
   * `eventName` must equal `eventName`, and `detail[key]` must be present; that value is returned.
   */
  function ExtractDetail(event: Value, source: string, eventName: string, key: string): (r: Result<Value>)
    requires source != [] && eventName != []
    ensures r.Ok? <==> EventMatches(event, source, eventName, key)
    ensures r.Ok? ==> r.value == event.fields["detail"].fields[key]
    ensures ValidateField(event, "source", Str(source)).Err? ==> r.Err? && r.error == ValidateField(event, "source", Str(source)).error
  {
    var _ :- ValidateField(event, "source", Str(source));
    var _ :- CheckMissingField(event, "detail");
    var detail := event.fields["detail"];
    var _ :- ValidateField(detail, "eventName", Str(eventName));
    var _ :- CheckMissingField(detail, key);
    Ok(detail.fields[key])
  }

  /** The process environment: `os.environ`. */
  type Env = map<string, string>

  /** `os.environ.get(name)`. */
  function EnvGet(env: Env, name: string): Option<string> {
    if name in env then Some(env[name]) else None
  }

  /**
   * A required setting: absent or empty raises MissingEnvironmentVariable, naming `reported`
   * (which is `name` everywhere except where the source reports a different variable).
   */
  function RequiredAs(env: Env, name: string, reported: string): (r: Result<string>)
    ensures r.Ok? <==> name in env && env[name] != ""
    ensures r.Ok? ==> r.value == env[name]
    ensures r.Err? ==> r.error == MissingEnvironmentVariable(reported)
  {
    if name in env && env[name] != "" then Ok(env[name]) else Err(MissingEnvironmentVariable(reported))
  }

  function Required(env: Env, name: string): (r: Result<string>)
    ensures r.Ok? <==> name in env && env[name] != ""
    ensures r.Ok? ==> r.value == env[name]
    ensures r.Err? ==> r.error == MissingEnvironmentVariable(name)
  {
    RequiredAs(env, name, name)
  }
}
