/** `JenkinsService`: listing the jobs of a Jenkins server, and triggering a
    build that provisions a missing job from a generated `config.xml` and then
    tries again. Every HTTP exchange and every generation goes through the shared
    `Server` script, so a run is a function of the script it starts from. */
module Jenkins {
  import opened Values
  import opened Remote
  import opened Ai
  import opened BuildRequest
  import Base64
  import Utf8

  const BadRequest: int := 400
  const Unauthorized: int := 401
  const InternalServerError: int := 500
  const BadGateway: int := 502

  const FormContentType: string := "application/x-www-form-urlencoded"
  const XmlContentType: string := "application/xml"

  /** What a request handler gives back: a value, or the `HttpException` it throws. */
  datatype Outcome<+T> = Done(value: T) | HttpError(status: int, message: string)

  /** The body of a successful trigger; its `success` field is always `true`. */
  datatype Triggered = Triggered(message: string, queueLocation: Option<string>)

  // ---------------------------------------------------------------------------
  // What a request is made of

  /** `url.replace(/\/$/, '')`: without the `m` flag `$` matches only at the end,
      so one trailing slash goes and nothing else changes. */
  function CleanUrl(url: string): (r: string)
    ensures |url| - 1 <= |r| <= |url| && r == url[..|r|]
    ensures |r| < |url| <==> url != [] && url[|url| - 1] == '/'
  {
    if url != [] && url[|url| - 1] == '/' then url[..|url| - 1] else url
  }

  /** The job to build: the requested name when truthy, else the truthy
      `JENKINS_JOB_NAME` setting, else `default-pipeline`. It is never empty. */
  function JobName(requested: Option<string>, setting: Option<string>): (r: string)
    ensures r != ""
    ensures requested.Some? && requested.value != "" ==> r == requested.value
    ensures (requested.None? || requested.value == "") && setting.Some? && setting.value != "" ==> r == setting.value
    ensures (requested.None? || requested.value == "") && (setting.None? || setting.value == "") ==> r == "default-pipeline"
  {
    OrElse(requested, OrElse(setting, "default-pipeline"))
  }

  /** The Basic credentials of section 2 of RFC 7617: the UTF-8 bytes of
      `user:token` in base64. */
  function AuthHeader(user: string, token: string): (r: string)
    ensures |r| >= 6 && r[..6] == "Basic "
  {
    "Basic " + Base64.Encode(Utf8.Encode(user + ":" + token))
  }

  function JobsUrl(clean: string): string
  {
    clean + "/api/json?tree=jobs[name]"
  }

  function BuildUrl(clean: string, job: string): string
  {
    clean + "/job/" + job + "/buildWithParameters"
  }

  function CreateUrl(clean: string, job: string): string
  {
    clean + "/createItem?name=" + job
  }

  /** Where and as whom a build talks to Jenkins: the base URL without its
      trailing slash, the authorization header and the job. */
  datatype Target = Target(clean: string, authorization: string, job: string)

  function TargetOf(setting: Option<string>, data: TriggerBuildDto): (t: Target)
    ensures t.job != ""
  {
    Target(CleanUrl(data.jenkinsUrl), AuthHeader(data.jenkinsUser, data.jenkinsToken), JobName(data.jobName, setting))
  }

  /** The trigger: the two code fields posted as a form, `SOURCE_CODE` first. */
  function TriggerRequest(t: Target, data: TriggerBuildDto): Request
  {
    Post(BuildUrl(t.clean, t.job), t.authorization, FormContentType,
         Form([("SOURCE_CODE", data.sourceCode), ("TEST_CODE", data.testCode)]))
  }

  /** The job creation: the generated document posted as it is. */
  function CreateRequest(t: Target, xml: string): Request
  {
    Post(CreateUrl(t.clean, t.job), t.authorization, XmlContentType, Xml(xml))
  }

  function Requirements(data: TriggerBuildDto): string
  {
    OrElse(data.customRequirements, "Standard CI pipeline.")
  }

  function ProvisionFailed(job: string): string
  {
    "Failed to create pipeline for '" + job + "'. The AI XML was likely invalid."
  }

  /** `error.response?.statusText || 'Connection Failed'`. */
  function GatewayMessage(reply: HttpReply): (r: string)
    ensures reply.Response? && reply.statusText != "" ==> r == reply.statusText
    ensures reply.NoResponse? || reply.statusText == "" ==> r == "Connection Failed"
  {
    if reply.Response? then OrElse(Some(reply.statusText), "Connection Failed") else "Connection Failed"
  }

  /** `jobs.map(j => j.name)`; a job without a name gives `undefined`. */
  function Names(jobs: seq<Job>): (r: seq<Option<string>>)
    ensures |r| == |jobs|
    ensures forall i :: 0 <= i < |jobs| ==> r[i] == jobs[i].name
  {
    if jobs == [] then [] else [jobs[0].name] + Names(jobs[1..])
  }

  // ---------------------------------------------------------------------------
  // The two operations as functions of the script

  function FetchJobsRun(url: string, user: string, token: string, s: Script): (r: (Outcome<seq<Option<string>>>, Script))
    ensures r.1.answers == s.answers
    ensures r.0.HttpError? ==> r.0.status == BadRequest || r.0.status == Unauthorized
  {
    if url == "" || user == "" || token == "" then (HttpError(BadRequest, "Missing Credentials"), s)
    else
      var (reply, s1) := HttpStep(s, Get(JobsUrl(CleanUrl(url)), AuthHeader(user, token)));
      if IsSuccess(reply) && reply.jobs.Some? then (Done(Names(reply.jobs.value)), s1)
      else (HttpError(Unauthorized, "Invalid Credentials"), s1)
  }

  /** How one attempt of `triggerBuild` ends: with an outcome, or with the job
      just created and the build to be tried again. */
  datatype Attempt = Finished(outcome: Outcome<Triggered>, after: Script) | Retry(after: Script)

  /** One attempt at building `t.job` against the script `s`: the trigger; on
      a 404 the generation of the job document and its creation. */
  function AttemptRun(t: Target, configured: bool, data: TriggerBuildDto, s: Script): (r: Attempt)
    ensures r.Retry? ==> |r.after.replies| < |s.replies|
    ensures r.Finished? && r.outcome.HttpError? ==>
      r.outcome.status == InternalServerError || r.outcome.status == BadGateway
  {
    var (reply, s1) := HttpStep(s, TriggerRequest(t, data));
    if IsSuccess(reply) then Finished(Done(Triggered("Build triggered for " + t.job, reply.location)), s1)
    else if reply.Response? && reply.status == 404 then
      var (xml, s2) := JobXmlRun(configured, data.sourceCode, Requirements(data), s1);
      if xml.Err? then Finished(HttpError(InternalServerError, ProvisionFailed(t.job)), s2)
      else
        var (created, s3) := HttpStep(s2, CreateRequest(t, xml.value));
        if !IsSuccess(created) then Finished(HttpError(InternalServerError, ProvisionFailed(t.job)), s3)
        else Retry(s3)
    else Finished(HttpError(BadGateway, GatewayMessage(reply)), s1)
  }

  /** Attempts against the same target until one finishes. */
  function Attempts(t: Target, configured: bool, data: TriggerBuildDto, s: Script): (r: (Outcome<Triggered>, Script))
    ensures r.0.HttpError? ==> r.0.status == InternalServerError || r.0.status == BadGateway
    decreases |s.replies|
  {
    match AttemptRun(t, configured, data, s)
    case Finished(outcome, after) => (outcome, after)
    case Retry(after) => Attempts(t, configured, data, after)
  }

  /** `triggerBuild(data)` against the script `s`, with `setting` the
      `JENKINS_JOB_NAME` setting and `configured` whether the generator has a model.
      The retry after a successful creation is returned as it comes: it is not
      awaited inside the `try`, so its failures are not turned into the 500. */
  function TriggerRun(setting: Option<string>, configured: bool, data: TriggerBuildDto, s: Script): (r: (Outcome<Triggered>, Script))
    ensures r.0.HttpError? ==> r.0.status == BadRequest || r.0.status == InternalServerError || r.0.status == BadGateway
  {
    var t := TargetOf(setting, data);
    if data.jenkinsUrl == "" || data.jenkinsToken == "" || t.job == "" then
      (HttpError(BadRequest, "Missing Jenkins Configuration"), s)
    else Attempts(t, configured, data, s)
  }

  // ---------------------------------------------------------------------------
  // The service

  class JenkinsService {
    const http: Server
    const ai: AiService
    /** The `JENKINS_JOB_NAME` setting. */
    const jobNameSetting: Option<string>

    constructor(http: Server, ai: AiService, jobNameSetting: Option<string>)
      ensures this.http == http && this.ai == ai && this.jobNameSetting == jobNameSetting
    {
      this.http := http;
      this.ai := ai;
      this.jobNameSetting := jobNameSetting;
    }

    method FetchJobs(url: string, user: string, token: string) returns (r: Outcome<seq<Option<string>>>)
      modifies http
      ensures (r, http.State()) == FetchJobsRun(url, user, token, old(http.State()))
    {
      if url == "" || user == "" || token == "" {
        return HttpError(BadRequest, "Missing Credentials");
      }
      var cleanUrl := CleanUrl(url);
      var authHeader := AuthHeader(user, token);
      var reply := http.Send(Get(JobsUrl(cleanUrl), authHeader));
      if IsSuccess(reply) && reply.jobs.Some? {
        return Done(Names(reply.jobs.value));
      }
      return HttpError(Unauthorized, "Invalid Credentials");
    }

    /** The generator and the HTTP client reach the same outside world. */
    method TriggerBuild(data: TriggerBuildDto) returns (r: Outcome<Triggered>)
      requires ai.remote == http
      modifies http
      ensures (r, http.State()) == TriggerRun(jobNameSetting, ai.configured, data, old(http.State()))
      decreases |http.replies|
    {
      var jobName := JobName(data.jobName, jobNameSetting);
      if data.jenkinsUrl == "" || data.jenkinsToken == "" || jobName == "" {
        return HttpError(BadRequest, "Missing Jenkins Configuration");
      }
      var cleanUrl := CleanUrl(data.jenkinsUrl);
      var authHeader := AuthHeader(data.jenkinsUser, data.jenkinsToken);
      var buildUrl := BuildUrl(cleanUrl, jobName);
      var params: seq<(string, string)> := [];
      params := params + [("SOURCE_CODE", data.sourceCode)];
      params := params + [("TEST_CODE", data.testCode)];
      assert params == [("SOURCE_CODE", data.sourceCode), ("TEST_CODE", data.testCode)];
      var response := http.Send(Post(buildUrl, authHeader, FormContentType, Form(params)));
      if IsSuccess(response) {
        return Done(Triggered("Build triggered for " + jobName, response.location));
      }
      if response.Response? && response.status == 404 {
        var fullJobXml := ai.GenerateJobXml(data.sourceCode, OrElse(data.customRequirements, "Standard CI pipeline."));
        if fullJobXml.Err? {
          return HttpError(InternalServerError, ProvisionFailed(jobName));
        }
        var created := http.Send(Post(CreateUrl(cleanUrl, jobName), authHeader, XmlContentType, Xml(fullJobXml.value)));
        if !IsSuccess(created) {
          return HttpError(InternalServerError, ProvisionFailed(jobName));
        }
        r := TriggerBuild(data);
        return;
      }
      return HttpError(BadGateway, GatewayMessage(response));
    }
  }
}
