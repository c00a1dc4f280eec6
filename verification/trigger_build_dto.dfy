/** `TriggerBuildDto`: the body of `POST /jenkins/build` and the checks its
    class-validator decorators make before the service sees it (the global
    `ValidationPipe` rejects a body that fails any of them). */
module BuildRequest {
  import opened Values

  /** A JSON value as far as the decorators tell values apart. */
  datatype Json = Absent | Null | Str(s: string) | Bool(b: bool) | Other

  /** The body as it arrives, one JSON value per declared property. */
  datatype RawBody = RawBody(
    jenkinsUrl: Json, jenkinsUser: Json, jenkinsToken: Json, jobName: Json,
    sourceCode: Json, testCode: Json, customRequirements: Json, provision: Json)

  /** The record the service reads. An optional property that is absent or
      `null` is `None`. */
  datatype TriggerBuildDto = TriggerBuildDto(
    jenkinsUrl: string, jenkinsUser: string, jenkinsToken: string, jobName: Option<string>,
    sourceCode: string, testCode: string, customRequirements: Option<string>, provision: Option<bool>)

  /** `@IsString() @IsNotEmpty()`: a string other than `''`. */
  predicate IsRequiredString(v: Json)
  {
    v.Str? && v.s != ""
  }

  /** `@IsString() @IsOptional()`: `@IsOptional` skips the other checks for `null` and absent values. */
  predicate IsOptionalString(v: Json)
  {
    v.Absent? || v.Null? || v.Str?
  }

  /** `@IsBoolean() @IsOptional()`. */
  predicate IsOptionalBool(v: Json)
  {
    v.Absent? || v.Null? || v.Bool?
  }

  predicate IsValid(b: RawBody)
  {
    && IsRequiredString(b.jenkinsUrl) && IsRequiredString(b.jenkinsUser) && IsRequiredString(b.jenkinsToken)
    && IsOptionalString(b.jobName)
    && IsRequiredString(b.sourceCode) && IsRequiredString(b.testCode)
    && IsOptionalString(b.customRequirements)
    && IsOptionalBool(b.provision)
  }

  function OptionalString(v: Json): (r: Option<string>)
    ensures r.Some? <==> v.Str?
    ensures v.Str? ==> r.value == v.s
  {
    if v.Str? then Some(v.s) else None
  }

  function OptionalBool(v: Json): (r: Option<bool>)
    ensures r.Some? <==> v.Bool?
    ensures v.Bool? ==> r.value == v.b
  {
    if v.Bool? then Some(v.b) else None
  }

  /** The body the pipe lets through, as the record the service reads; `None`
      for a body it rejects with 400. */
  function Validate(b: RawBody): (r: Option<TriggerBuildDto>)
    ensures r.Some? <==> IsValid(b)
    ensures r.Some? ==> IsWellFormed(r.value)
    ensures r.Some? ==> Matches(r.value, b)
  {
    if !IsValid(b) then None
    else Some(TriggerBuildDto(
      b.jenkinsUrl.s, b.jenkinsUser.s, b.jenkinsToken.s, OptionalString(b.jobName),
      b.sourceCode.s, b.testCode.s, OptionalString(b.customRequirements), OptionalBool(b.provision)))
  }

  /** What every record the pipe lets through satisfies: the five required strings are not empty. */
  predicate IsWellFormed(d: TriggerBuildDto)
  {
    d.jenkinsUrl != "" && d.jenkinsUser != "" && d.jenkinsToken != "" && d.sourceCode != "" && d.testCode != ""
  }

  /** The record carries the body's values: each string as sent, an optional
      property present exactly when it was a string (or a boolean) in the body. */
  predicate Matches(d: TriggerBuildDto, b: RawBody)
  {
    && b.jenkinsUrl == Str(d.jenkinsUrl) && b.jenkinsUser == Str(d.jenkinsUser) && b.jenkinsToken == Str(d.jenkinsToken)
    && b.sourceCode == Str(d.sourceCode) && b.testCode == Str(d.testCode)
    && (d.jobName.Some? <==> b.jobName.Str?) && (d.jobName.Some? ==> b.jobName == Str(d.jobName.value))
    && (d.customRequirements.Some? <==> b.customRequirements.Str?)
    && (d.customRequirements.Some? ==> b.customRequirements == Str(d.customRequirements.value))
    && (d.provision.Some? <==> b.provision.Bool?) && (d.provision.Some? ==> b.provision == Bool(d.provision.value))
  }

  /** Every well-formed record is what the pipe makes of some body: the body that
      sends its values as they are. */
  lemma EveryWellFormedRecordIsAccepted(d: TriggerBuildDto)
    requires IsWellFormed(d)
    ensures Validate(Body(d)) == Some(d)
  {
  }

  /** The body that sends the record's values; absent optional properties are left out. */
  function Body(d: TriggerBuildDto): (b: RawBody)
    ensures Matches(d, b)
  {
    RawBody(
      Str(d.jenkinsUrl), Str(d.jenkinsUser), Str(d.jenkinsToken),
      if d.jobName.Some? then Str(d.jobName.value) else Absent,
      Str(d.sourceCode), Str(d.testCode),
      if d.customRequirements.Some? then Str(d.customRequirements.value) else Absent,
      if d.provision.Some? then Bool(d.provision.value) else Absent)
  }
}
