/** What `fetchJobs` and `triggerBuild` promise, proved of their models
    `FetchJobsRun` and `TriggerRun`: which calls are made in which order, and
    which outcome or HTTP error comes back. */
module JenkinsProperties {
  import opened Values
  import opened Remote
  import opened OutputCleaning
  import opened Ai
  import opened BuildRequest
  import opened Jenkins
  import Base64
  import Utf8

  // ---------------------------------------------------------------------------
  // Requests

  /** The header carries the credentials: its suffix is the base64 of the UTF-8
      bytes of `user:token`, and decodes back to them. */
  lemma AuthHeaderCarriesCredentials(user: string, token: string)
    ensures var h := AuthHeader(user, token);
      && Base64.Decode(h[6..]).Some?
      && Utf8.Decode(Base64.Decode(h[6..]).value) == Some(user + ":" + token)
  {
    var h := AuthHeader(user, token);
    assert h[6..] == Base64.Encode(Utf8.Encode(user + ":" + token));
    Base64.RoundTrip(Utf8.Encode(user + ":" + token));
    Utf8.RoundTrip(user + ":" + token);
  }

  /** Only one trailing slash goes: a URL ending in two keeps one. */
  lemma CleanUrlRemovesOneSlash(url: string)
    ensures CleanUrl(url + "//") == url + "/"
    ensures CleanUrl(url + "/") == url
  {
  }

  // ---------------------------------------------------------------------------
  // fetchJobs

  /** A missing url, user or token is a 400 before any call; with all three
      present that error never comes back. */
  lemma FetchJobsNeedsCredentials(url: string, user: string, token: string, s: Script)
    ensures FetchJobsRun(url, user, token, s).0 == HttpError(BadRequest, "Missing Credentials")
      <==> url == "" || user == "" || token == ""
    ensures url == "" || user == "" || token == "" ==> FetchJobsRun(url, user, token, s).1 == s
  {
  }

  /** With credentials: exactly one GET of the job list with the Basic header;
      on a 2xx reply with a `jobs` array, the names of its entries in order; on
      any other outcome, 401. */
  lemma FetchJobsOutcome(url: string, user: string, token: string, s: Script)
    requires url != "" && user != "" && token != ""
    ensures var (r, s') := FetchJobsRun(url, user, token, s);
      var reply := if s.replies == [] then NoResponse else s.replies[0];
      && s'.log == s.log + [Http(Get(CleanUrl(url) + "/api/json?tree=jobs[name]", AuthHeader(user, token)))]
      && s'.answers == s.answers
      && (r.Done? <==> IsSuccess(reply) && reply.jobs.Some?)
      && (r.Done? ==> |r.value| == |reply.jobs.value|
                      && forall i :: 0 <= i < |r.value| ==> r.value[i] == reply.jobs.value[i].name)
      && (r.HttpError? ==> r == HttpError(Unauthorized, "Invalid Credentials"))
  {
  }

  // ---------------------------------------------------------------------------
  // triggerBuild: the calls a build makes

  /** A call that belongs to building for `data` against `t`: the trigger, a
      creation of the job from some document, or the generation of that document. */
  predicate IsBuildCall(data: TriggerBuildDto, t: Target, c: Call)
  {
    || c == Http(TriggerRequest(t, data))
    || (c.Http? && c.request.Post? && c.request.payload.Xml? && c.request == CreateRequest(t, c.request.payload.text))
    || c == Generate(JobXmlPrompt(data.sourceCode, Requirements(data)))
  }

  /** `after` is `before` followed by calls of that build only. */
  predicate Extends(before: seq<Call>, after: seq<Call>, data: TriggerBuildDto, t: Target)
  {
    && |before| <= |after| && after[..|before|] == before
    && forall i :: |before| <= i < |after| ==> IsBuildCall(data, t, after[i])
  }

  lemma ExtendsByOne(log: seq<Call>, c: Call, data: TriggerBuildDto, t: Target)
    requires IsBuildCall(data, t, c)
    ensures Extends(log, log + [c], data, t)
  {
    assert (log + [c])[..|log|] == log;
  }

  lemma ExtendsTransitive(a: seq<Call>, b: seq<Call>, c: seq<Call>, data: TriggerBuildDto, t: Target)
    requires Extends(a, b, data, t) && Extends(b, c, data, t)
    ensures Extends(a, c, data, t)
  {
    assert c[..|a|] == c[..|b|][..|a|];
  }

  /** One attempt appends the trigger, and on a 404 the generation (with a
      model) and the creation. */
  lemma AttemptCalls(t: Target, configured: bool, data: TriggerBuildDto, s: Script)
    ensures Extends(s.log, AttemptRun(t, configured, data, s).after.log, data, t)
  {
    var (reply, s1) := HttpStep(s, TriggerRequest(t, data));
    ExtendsByOne(s.log, Http(TriggerRequest(t, data)), data, t);
    if !IsSuccess(reply) && reply.Response? && reply.status == 404 {
      var (xml, s2) := JobXmlRun(configured, data.sourceCode, Requirements(data), s1);
      if configured {
        ExtendsByOne(s1.log, Generate(JobXmlPrompt(data.sourceCode, Requirements(data))), data, t);
        ExtendsTransitive(s.log, s1.log, s2.log, data, t);
      }
      if xml.Ok? {
        var s3 := HttpStep(s2, CreateRequest(t, xml.value)).1;
        ExtendsByOne(s2.log, Http(CreateRequest(t, xml.value)), data, t);
        ExtendsTransitive(s.log, s2.log, s3.log, data, t);
      }
    }
  }

  lemma {:induction false} AttemptsCalls(t: Target, configured: bool, data: TriggerBuildDto, s: Script)
    ensures Extends(s.log, Attempts(t, configured, data, s).1.log, data, t)
    decreases |s.replies|
  {
    var a := AttemptRun(t, configured, data, s);
    AttemptCalls(t, configured, data, s);
    if a.Retry? {
      AttemptsCalls(t, configured, data, a.after);
      ExtendsTransitive(s.log, a.after.log, Attempts(t, configured, data, a.after).1.log, data, t);
    }
  }

  /** A build only appends to the call log, and only its own calls: the trigger
      and creation endpoints of its job, with its credentials, and the
      generation of the job document from its source code. */
  lemma OnlyBuildCalls(setting: Option<string>, configured: bool, data: TriggerBuildDto, s: Script)
    ensures Extends(s.log, TriggerRun(setting, configured, data, s).1.log, data, TargetOf(setting, data))
  {
    if data.jenkinsUrl == "" || data.jenkinsToken == "" {
      assert s.log[..|s.log|] == s.log;
    } else {
      AttemptsCalls(TargetOf(setting, data), configured, data, s);
    }
  }

  // ---------------------------------------------------------------------------
  // triggerBuild: outcomes

  /** An attempt fails only with the 500 of a failed provisioning of its job
      or with the 502 of a refused or unanswered trigger. */
  lemma AttemptErrors(t: Target, configured: bool, data: TriggerBuildDto, s: Script)
    ensures var a := AttemptRun(t, configured, data, s);
      a.Finished? && a.outcome.HttpError? ==>
        || (a.outcome.status == InternalServerError && a.outcome.message == ProvisionFailed(t.job))
        || a.outcome.status == BadGateway
  {
  }

  /** An attempt succeeds only right after its trigger, with the job's message. */
  lemma AttemptSuccess(t: Target, configured: bool, data: TriggerBuildDto, s: Script)
    ensures var a := AttemptRun(t, configured, data, s);
      a.Finished? && a.outcome.Done? ==>
        && a.outcome.value.message == "Build triggered for " + t.job
        && a.after.log == s.log + [Http(TriggerRequest(t, data))]
  {
  }

  lemma {:induction false} AttemptsErrors(t: Target, configured: bool, data: TriggerBuildDto, s: Script)
    ensures var r := Attempts(t, configured, data, s).0;
      r.HttpError? ==>
        || (r.status == InternalServerError && r.message == ProvisionFailed(t.job))
        || r.status == BadGateway
    decreases |s.replies|
  {
    var a := AttemptRun(t, configured, data, s);
    AttemptErrors(t, configured, data, s);
    if a.Retry? {
      AttemptsErrors(t, configured, data, a.after);
    }
  }

  lemma {:induction false} AttemptsSuccess(t: Target, configured: bool, data: TriggerBuildDto, s: Script)
    ensures var (r, s') := Attempts(t, configured, data, s);
      r.Done? ==>
        && r.value.message == "Build triggered for " + t.job
        && s'.log != [] && s'.log[|s'.log| - 1] == Http(TriggerRequest(t, data))
    decreases |s.replies|
  {
    var a := AttemptRun(t, configured, data, s);
    AttemptSuccess(t, configured, data, s);
    if a.Retry? {
      AttemptsSuccess(t, configured, data, a.after);
    }
  }

  /** With a url and a token, the only errors are the 500 of a failed
      provisioning of the job and the 502 of a refused or unanswered trigger. */
  lemma ErrorStatuses(setting: Option<string>, configured: bool, data: TriggerBuildDto, s: Script)
    requires data.jenkinsUrl != "" && data.jenkinsToken != ""
    ensures var r := TriggerRun(setting, configured, data, s).0;
      r.HttpError? ==>
        || (r.status == InternalServerError && r.message == ProvisionFailed(JobName(data.jobName, setting)))
        || r.status == BadGateway
  {
    assert TriggerRun(setting, configured, data, s) == Attempts(TargetOf(setting, data), configured, data, s);
    AttemptsErrors(TargetOf(setting, data), configured, data, s);
  }

  /** The 400 comes back exactly when the url or the token is empty (the user is
      not checked), and then nothing is called. */
  lemma MissingConfiguration(setting: Option<string>, configured: bool, data: TriggerBuildDto, s: Script)
    ensures TriggerRun(setting, configured, data, s).0 == HttpError(BadRequest, "Missing Jenkins Configuration")
      <==> data.jenkinsUrl == "" || data.jenkinsToken == ""
    ensures data.jenkinsUrl == "" || data.jenkinsToken == "" ==> TriggerRun(setting, configured, data, s).1 == s
  {
    if data.jenkinsUrl != "" && data.jenkinsToken != "" {
      ErrorStatuses(setting, configured, data, s);
    }
  }

  /** A body the validation pipe accepts never meets the 400. */
  lemma AcceptedBodyIsConfigured(b: RawBody, setting: Option<string>, configured: bool, s: Script)
    requires Validate(b).Some?
    ensures var r := TriggerRun(setting, configured, Validate(b).value, s).0;
      r.HttpError? ==> r.status == InternalServerError || r.status == BadGateway
  {
    ErrorStatuses(setting, configured, Validate(b).value, s);
  }

  /** A build is reported triggered only for its job, and only right after a
      trigger request of that job. */
  lemma SuccessFollowsTrigger(setting: Option<string>, configured: bool, data: TriggerBuildDto, s: Script)
    ensures var t := TargetOf(setting, data);
      var log := TriggerRun(setting, configured, data, s).1.log;
      TriggerRun(setting, configured, data, s).0.Done? ==>
        && TriggerRun(setting, configured, data, s).0.value.message == "Build triggered for " + t.job
        && log != [] && log[|log| - 1] == Http(TriggerRequest(t, data))
  {
    var t := TargetOf(setting, data);
    if data.jenkinsUrl != "" && data.jenkinsToken != "" {
      assert TriggerRun(setting, configured, data, s) == Attempts(t, configured, data, s);
      AttemptsSuccess(t, configured, data, s);
    }
  }

  lemma {:induction false} AttemptsIgnoreProvision(t: Target, configured: bool, data: TriggerBuildDto,
                                                   provision: Option<bool>, s: Script)
    ensures Attempts(t, configured, data.(provision := provision), s) == Attempts(t, configured, data, s)
    decreases |s.replies|
  {
    var d := data.(provision := provision);
    assert TriggerRequest(t, d) == TriggerRequest(t, data);
    assert Requirements(d) == Requirements(data);
    var a := AttemptRun(t, configured, data, s);
    assert AttemptRun(t, configured, d, s) == a;
    if a.Retry? {
      AttemptsIgnoreProvision(t, configured, data, provision, a.after);
    }
  }

  /** `provision` is never read: it does not change the outcome or any call. */
  lemma ProvisionIgnored(setting: Option<string>, configured: bool, data: TriggerBuildDto,
                         provision: Option<bool>, s: Script)
    ensures TriggerRun(setting, configured, data.(provision := provision), s) == TriggerRun(setting, configured, data, s)
  {
    assert TargetOf(setting, data.(provision := provision)) == TargetOf(setting, data);
    AttemptsIgnoreProvision(TargetOf(setting, data), configured, data, provision, s);
  }

  // ---------------------------------------------------------------------------
  // triggerBuild: scenarios

  /** A 2xx trigger: exactly one call, and the job's message with the `Location`
      header of the reply. */
  lemma ImmediateSuccess(setting: Option<string>, configured: bool, data: TriggerBuildDto, s: Script)
    requires data.jenkinsUrl != "" && data.jenkinsToken != ""
    requires s.replies != [] && IsSuccess(s.replies[0])
    ensures var t := TargetOf(setting, data);
      TriggerRun(setting, configured, data, s)
        == (Done(Triggered("Build triggered for " + t.job, s.replies[0].location)),
            Script(s.replies[1..], s.answers, s.log + [Http(TriggerRequest(t, data))]))
  {
  }

  /** A trigger that fails other than with 404, or gets no reply at all, is a
      502 carrying the status text (or "Connection Failed"); nothing is
      generated and nothing is created. */
  lemma GatewayFailure(setting: Option<string>, configured: bool, data: TriggerBuildDto, s: Script)
    requires data.jenkinsUrl != "" && data.jenkinsToken != ""
    requires s.replies == [] || (!IsSuccess(s.replies[0]) && (s.replies[0].NoResponse? || s.replies[0].status != 404))
    ensures var reply := if s.replies == [] then NoResponse else s.replies[0];
      TriggerRun(setting, configured, data, s)
        == (HttpError(BadGateway, GatewayMessage(reply)),
            Script(if s.replies == [] then [] else s.replies[1..], s.answers,
                   s.log + [Http(TriggerRequest(TargetOf(setting, data), data))]))
  {
  }

  /** Rejected credentials are not told apart: a 401 on the trigger is a 502. */
  lemma UnauthorizedIsBadGateway(setting: Option<string>, configured: bool, data: TriggerBuildDto, s: Script)
    requires data.jenkinsUrl != "" && data.jenkinsToken != ""
    requires s.replies != [] && s.replies[0].Response? && s.replies[0].status == 401
    ensures TriggerRun(setting, configured, data, s).0 == HttpError(BadGateway, OrElse(Some(s.replies[0].statusText), "Connection Failed"))
  {
  }

  /** A 404 without a model: nothing is generated, the empty document is posted
      to `createItem`, and an accepted creation retries with the same data. */
  lemma NotFoundWithoutModel(setting: Option<string>, data: TriggerBuildDto, s: Script)
    requires data.jenkinsUrl != "" && data.jenkinsToken != ""
    requires |s.replies| >= 2 && s.replies[0].Response? && s.replies[0].status == 404
    ensures var t := TargetOf(setting, data);
      var s' := Script(s.replies[2..], s.answers, s.log + [Http(TriggerRequest(t, data)), Http(CreateRequest(t, ""))]);
      TriggerRun(setting, false, data, s)
        == if IsSuccess(s.replies[1]) then TriggerRun(setting, false, data, s')
           else (HttpError(InternalServerError, ProvisionFailed(t.job)), s')
  {
    var t := TargetOf(setting, data);
    var (reply, s1) := HttpStep(s, TriggerRequest(t, data));
    assert reply == s.replies[0] && s1.replies == s.replies[1..];
    var (xml, s2) := JobXmlRun(false, data.sourceCode, Requirements(data), s1);
    assert xml == Ok("") && s2 == s1;
    var (created, s3) := HttpStep(s2, CreateRequest(t, ""));
    assert created == s.replies[1];
    assert s3.replies == s.replies[2..];
    assert s3 == Script(s.replies[2..], s.answers, s.log + [Http(TriggerRequest(t, data)), Http(CreateRequest(t, ""))]);
    assert AttemptRun(t, false, data, s)
      == if IsSuccess(created) then Retry(s3) else Finished(HttpError(InternalServerError, ProvisionFailed(t.job)), s3);
  }

  /** A 404 with a model whose generation fails: a 500 right after the
      generation call; `createItem` is never called and nothing is retried. */
  lemma GenerationFailureIsInternalError(setting: Option<string>, data: TriggerBuildDto, s: Script)
    requires data.jenkinsUrl != "" && data.jenkinsToken != ""
    requires s.replies != [] && s.replies[0].Response? && s.replies[0].status == 404
    requires s.answers == [] || s.answers[0].Fail?
    ensures var t := TargetOf(setting, data);
      TriggerRun(setting, true, data, s)
        == (HttpError(InternalServerError, ProvisionFailed(t.job)),
            Script(s.replies[1..], if s.answers == [] then [] else s.answers[1..],
                   s.log + [Http(TriggerRequest(t, data)), Generate(JobXmlPrompt(data.sourceCode, Requirements(data)))]))
  {
    var t := TargetOf(setting, data);
    var (reply, s1) := HttpStep(s, TriggerRequest(t, data));
    assert reply == s.replies[0] && s1.replies == s.replies[1..];
    var (answer, s2) := GenerateStep(s1, JobXmlPrompt(data.sourceCode, Requirements(data)));
    assert answer.Fail?;
    assert JobXmlRun(true, data.sourceCode, Requirements(data), s1) == (Err(answer.message), s2);
    assert s2 == Script(s.replies[1..], if s.answers == [] then [] else s.answers[1..],
                        s.log + [Http(TriggerRequest(t, data)), Generate(JobXmlPrompt(data.sourceCode, Requirements(data)))]);
    assert AttemptRun(t, true, data, s) == Finished(HttpError(InternalServerError, ProvisionFailed(t.job)), s2);
  }

  /** A 404 with a generated document: the cleaned document is posted to
      `createItem`; a refused creation is a 500 with no retry, an accepted one
      retries with the same data. */
  lemma NotFoundWithDocument(setting: Option<string>, data: TriggerBuildDto, s: Script)
    requires data.jenkinsUrl != "" && data.jenkinsToken != ""
    requires |s.replies| >= 2 && s.replies[0].Response? && s.replies[0].status == 404
    requires s.answers != [] && s.answers[0].Text?
    ensures var t := TargetOf(setting, data);
      var xml := CleanOutput(s.answers[0].text);
      var s' := Script(s.replies[2..], s.answers[1..],
                       s.log + [Http(TriggerRequest(t, data)), Generate(JobXmlPrompt(data.sourceCode, Requirements(data))),
                                Http(CreateRequest(t, xml))]);
      TriggerRun(setting, true, data, s)
        == if IsSuccess(s.replies[1]) then TriggerRun(setting, true, data, s')
           else (HttpError(InternalServerError, ProvisionFailed(t.job)), s')
  {
    var t := TargetOf(setting, data);
    var p := JobXmlPrompt(data.sourceCode, Requirements(data));
    var (reply, s1) := HttpStep(s, TriggerRequest(t, data));
    assert reply == s.replies[0] && s1.replies == s.replies[1..];
    var (answer, s2) := GenerateStep(s1, p);
    assert answer == s.answers[0] && s2.answers == s.answers[1..];
    var xml := CleanOutput(s.answers[0].text);
    assert JobXmlRun(true, data.sourceCode, Requirements(data), s1) == (Ok(xml), s2);
    var (created, s3) := HttpStep(s2, CreateRequest(t, xml));
    assert created == s.replies[1];
    assert s3.replies == s.replies[2..];
    assert s3 == Script(s.replies[2..], s.answers[1..],
                        s.log + [Http(TriggerRequest(t, data)), Generate(p), Http(CreateRequest(t, xml))]);
    assert AttemptRun(t, true, data, s)
      == if IsSuccess(created) then Retry(s3) else Finished(HttpError(InternalServerError, ProvisionFailed(t.job)), s3);
  }

  /** The retried trigger is returned, not awaited, inside the `try`: when it
      fails with a 502 that 502 reaches the caller instead of the 500. */
  lemma RetryFailureIsNotRewritten(setting: Option<string>, data: TriggerBuildDto, s: Script)
    requires data.jenkinsUrl != "" && data.jenkinsToken != ""
    requires |s.replies| == 3 && s.replies[0].Response? && s.replies[0].status == 404 && IsSuccess(s.replies[1])
    requires s.replies[2].Response? && s.replies[2].status == 503 && s.replies[2].statusText != ""
    ensures TriggerRun(setting, false, data, s).0 == HttpError(BadGateway, s.replies[2].statusText)
  {
    var t := TargetOf(setting, data);
    NotFoundWithoutModel(setting, data, s);
    var s' := Script(s.replies[2..], s.answers, s.log + [Http(TriggerRequest(t, data)), Http(CreateRequest(t, ""))]);
    GatewayFailure(setting, false, data, s');
  }

  /** There is no bound on provisioning: a second 404 after a successful
      creation provisions the job again, and the build is triggered on the
      third attempt. */
  lemma NoRetryBound(setting: Option<string>, data: TriggerBuildDto, s: Script)
    requires data.jenkinsUrl != "" && data.jenkinsToken != ""
    requires |s.replies| == 5
    requires s.replies[0].Response? && s.replies[0].status == 404 && IsSuccess(s.replies[1])
    requires s.replies[2].Response? && s.replies[2].status == 404 && IsSuccess(s.replies[3])
    requires IsSuccess(s.replies[4])
    ensures var t := TargetOf(setting, data);
      var trigger := Http(TriggerRequest(t, data));
      var create := Http(CreateRequest(t, ""));
      TriggerRun(setting, false, data, s)
        == (Done(Triggered("Build triggered for " + t.job, s.replies[4].location)),
            Script([], s.answers, s.log + [trigger, create, trigger, create, trigger]))
  {
    var t := TargetOf(setting, data);
    var trigger := Http(TriggerRequest(t, data));
    var create := Http(CreateRequest(t, ""));
    NotFoundWithoutModel(setting, data, s);
    var s1 := Script(s.replies[2..], s.answers, s.log + [trigger, create]);
    assert TriggerRun(setting, false, data, s) == TriggerRun(setting, false, data, s1);
    assert s1.replies == s.replies[2..] && s1.replies[0] == s.replies[2] && s1.replies[1] == s.replies[3];
    NotFoundWithoutModel(setting, data, s1);
    var s2 := Script(s1.replies[2..], s.answers, s1.log + [trigger, create]);
    assert s2.replies == [s.replies[4]];
    assert TriggerRun(setting, false, data, s1) == TriggerRun(setting, false, data, s2);
    ImmediateSuccess(setting, false, data, s2);
    assert s1.log + [trigger, create] + [trigger] == s.log + [trigger, create, trigger, create, trigger];
  }
}
