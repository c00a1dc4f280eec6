# Build orchestration of the IDP platform backend, in Dafny

The backend of the IDP platform is a NestJS service. This project models its
core in Dafny:

- **`JenkinsService`** does two things.
  - `fetchJobs` lists the jobs of a Jenkins server with Basic credentials.
  - `triggerBuild` posts the source and test code to a job's
    `buildWithParameters` endpoint. When Jenkins answers 404, it asks the
    generator for a complete `config.xml`, creates the job with
    `createItem`, and triggers again.
- **`AiService`** wraps the Gemini model.
  - `generateCode`, `generateTests` and `generateJenkinsfile` report every
    failure as text.
  - `generateJobXml` rethrows a failure.
  - All four post-process the model's text with `cleanOutput`. That step
    strips Markdown fences, `//` and `#` comments (but not a `://` in a URL),
    and surrounding white space.
- **`TriggerBuildDto`** is the body of `POST /jenkins/build`, together with
  the class-validator checks the global `ValidationPipe` applies to it.

## The outside world

Jenkins and the generator are modelled as one `Remote.Server` object. It
holds:

- a script of HTTP replies;
- a script of generator answers;
- a single log of the calls made.

So the order of Jenkins calls and generator calls is visible. A request takes
the next reply; once the script is used up, the request gets no response,
which is a connection failure. A generation takes the next answer; once that
script is used up, it fails.

Each service method is a `method` on a class that changes the shared
`Server`. Its `ensures` ties the result and the new server state to a pure
function of the old state: `FetchJobsRun`, `TriggerRun`, `TextRun` or
`JobXmlRun`. The properties are lemmas about those functions.

The Basic header is modelled concretely, so the credentials it carries can be
proved:

- UTF-8, as `Buffer.from` encodes a string by default;
- base64, as in section 4 of RFC 4648.

## Behaviour of the code worth knowing

- **Retry failures are not turned into 500.** The retry after a successful
  creation is `return this.triggerBuild(data)`, with no `await`, inside the
  `try`. So the retry's own failure (a 502, say) reaches the caller
  unchanged. See `RetryFailureIsNotRewritten`.
- **Provisioning has no limit.** There is no one-shot flag. A second 404
  after a successful creation provisions again, so a server that keeps
  answering this way makes `triggerBuild` recurse without end. See
  `NoRetryBound`.
- **An empty document is still posted.** Without a model, `generateJobXml`
  returns `''` and that empty document is posted to `createItem`. With a
  model, whatever the cleaned answer is gets posted, empty or not. See
  `NotFoundWithoutModel` and `NotFoundWithDocument`.
- **A 401 on the trigger is a 502.** It is treated like any other non-404
  failure. See `UnauthorizedIsBadGateway`.
- **The user name is not checked.** `triggerBuild`'s guard checks the URL, the
  token and the job name, not the user. See `MissingConfiguration`.
- **The test code is not sent to the generator.** The generator is given the
  source code and the requirements only.
- **`provision` is never read.** See `ProvisionIgnored`.

## Model

| member | source | states |
|---|---|---|
| Values.OrElse | backend/src/jenkins/jenkins.service.ts:37-38 | `a \|\| b` on an optional string: the value when it is present and non-empty, otherwise the fallback |
| Values.Truthy | backend/src/ai/ai.service.ts:12 | an optional string counts as set exactly when it is present and non-empty, and is then unchanged |
| Utf8.Encode | backend/src/jenkins/jenkins.service.ts:21 | never shorter than the string; `RoundTrip` states that it loses nothing |
| Utf8.RoundTrip | backend/src/jenkins/jenkins.service.ts:21 | decoding the UTF-8 encoding of any string gives the string back |
| Utf8.AsciiEncodesToItself | backend/src/jenkins/jenkins.service.ts:21 | an ASCII string encodes to one byte per character, each equal to its code |
| Base64.Encode | backend/src/jenkins/jenkins.service.ts:21 | padded base64: four characters for every started group of three bytes; `RoundTrip` states that it loses nothing |
| Base64.RoundTrip | backend/src/jenkins/jenkins.service.ts:21 | decoding the base64 encoding of any byte sequence gives the bytes back |
| Remote.HttpStep | backend/src/jenkins/jenkins.service.ts:22-25 | a request appends itself to the log, takes the first reply (none once the script is used up) and leaves the answers alone |
| Remote.GenerateStep | backend/src/ai/ai.service.ts:31-35 | a generation appends its prompt to the log, takes the first answer (a failure once they are used up) and leaves the HTTP replies alone |
| Remote.Server.Send | backend/src/jenkins/jenkins.service.ts:54-58 | an HTTP call changes the server state exactly as `HttpStep` says |
| Remote.Server.GenerateContent | backend/src/ai/ai.service.ts:31-35 | a generation changes the server state exactly as `GenerateStep` says |
| OutputCleaning.FenceLength | backend/src/ai/ai.service.ts:20 | one match of `/```[a-zA-Z]*\n?/` is at least the three backticks and stays within the text; `LetterRun` states what it takes after them |
| OutputCleaning.StripFences | backend/src/ai/ai.service.ts:20 | the first replace never lengthens the text; `StripFencesIdentity` and `FencedReplyUnwrapped` state what it removes |
| OutputCleaning.StripTicks | backend/src/ai/ai.service.ts:20 | the second replace never lengthens the text; `StripTicksLeavesNoFence` states that no fence is left |
| OutputCleaning.StripComments | backend/src/ai/ai.service.ts:22-23 | the comment replaces never lengthen the text; `StripCommentsGuards`, `StripCommentsPrefix` and `StripCommentsIdentity` state what they remove and keep |
| OutputCleaning.Trim | backend/src/ai/ai.service.ts:24 | `trim` never lengthens the text; `TrimSpec` characterises it |
| OutputCleaning.CleanOutput | backend/src/ai/ai.service.ts:18-25 | `cleanOutput` never lengthens the text; `CleanOutputProperties`, `CleanOutputTrimmed` and `CleanOutputIdentity` state what it guarantees |
| OutputCleaning.LetterRun | backend/src/ai/ai.service.ts:20 | `[a-zA-Z]*` is greedy: the run holds only letters and stops at the first non-letter |
| OutputCleaning.LineEnd | backend/src/ai/ai.service.ts:22-23 | `.*$` in multiline mode stops at the first line terminator, or at the end |
| OutputCleaning.StripTicksLeavesNoFence | backend/src/ai/ai.service.ts:20 | after the second replace no three backticks are left; a run of k backticks keeps k mod 3 |
| OutputCleaning.StripFencesIdentity | backend/src/ai/ai.service.ts:20 | a text without three backticks passes the fence replace unchanged |
| OutputCleaning.StripTicksIdentity | backend/src/ai/ai.service.ts:20 | a text without three backticks passes the backtick replace unchanged |
| OutputCleaning.StripCommentsGuards | backend/src/ai/ai.service.ts:22-23 | after a comment replace every `//` (or `#`) left comes right after a `:` |
| OutputCleaning.StripCommentsKeepsGuard | backend/src/ai/ai.service.ts:22-23 | a comment replace keeps every occurrence of another marker after a `:` when it was so, so the `#` replace leaves the `//` guarded |
| OutputCleaning.StripCommentsKeepsFree | backend/src/ai/ai.service.ts:22-23 | a comment replace creates no occurrence of a text without line terminators, so no fence comes back |
| OutputCleaning.StripCommentsIdentity | backend/src/ai/ai.service.ts:22-23 | a text without the comment marker passes the replace unchanged |
| OutputCleaning.StripCommentsPrefix | backend/src/ai/ai.service.ts:22-23 | a comment replace deletes only up to a line terminator, so a line-free prefix of the result was a prefix of the input |
| OutputCleaning.LeadingSpaceSpec | backend/src/ai/ai.service.ts:24 | the leading run is all ECMAScript white space and stops at the first other character |
| OutputCleaning.TrailingSpaceSpec | backend/src/ai/ai.service.ts:24 | the trailing run is all white space and stops at the last other character |
| OutputCleaning.TrimSpec | backend/src/ai/ai.service.ts:24 | `trim` returns the contiguous middle of the input with only white space around it; it is empty exactly for an all-white-space input, and otherwise starts and ends with something else |
| OutputCleaning.CleanOutputProperties | backend/src/ai/ai.service.ts:18-25 | a cleaned text has no code fence, and every `//` and `#` left is right after a `:` |
| OutputCleaning.CleanOutputTrimmed | backend/src/ai/ai.service.ts:24 | a cleaned text neither starts nor ends with white space |
| OutputCleaning.CleanOutputIdentity | backend/src/ai/ai.service.ts:18-25 | a text with no fence, no `//`, no `#` and no surrounding white space comes back unchanged |
| OutputCleaning.FencedReplyUnwrapped | backend/src/ai/ai.service.ts:18-25 | a reply fenced as three backticks, a language tag and a newline loses the fences and the tag and keeps its body, over any number of lines, when the body holds no backtick, `//` or `#` and no surrounding white space |
| OutputCleaning.TrailingCommentDropped | backend/src/ai/ai.service.ts:22 | a trailing `//` comment is removed with the rest of its line; the space before it goes with the final trim |
| OutputCleaning.CommentEndsAtLineEnd | backend/src/ai/ai.service.ts:22 | comment removal stops at the line end and keeps the next line |
| OutputCleaning.UrlKept | backend/src/ai/ai.service.ts:21-22 | a `//` right after `:` is kept, so a URL survives unchanged |
| Ai.TextRun | backend/src/ai/ai.service.ts:27-69 | the text generators never consume a Jenkins reply |
| Ai.JobXmlRun | backend/src/ai/ai.service.ts:72-92 | `generateJobXml` never consumes a Jenkins reply |
| Ai.TextRunOutcome | backend/src/ai/ai.service.ts:27-69 | without a model, the not-configured sentinel and no call; with a model, exactly one generation, whose failure gives `// Error: ` plus its message and whose text is cleaned |
| Ai.FailuresAreMarked | backend/src/ai/ai.service.ts:28-36 | the text starts with `//` exactly when there was no model or the generation failed |
| Ai.JobXmlOutcome | backend/src/ai/ai.service.ts:72-92 | without a model, the empty document and no call; with one, one generation, whose failure is rethrown with its message and whose text is cleaned |
| Ai.JobXmlIsClean | backend/src/ai/ai.service.ts:90 | a returned document holds no code fence and no surrounding white space |
| Ai.AiService.constructor | backend/src/ai/ai.service.ts:10-16 | a model exists exactly when the API key is set and non-empty |
| Ai.AiService.GenerateCode | backend/src/ai/ai.service.ts:27-37 | result and new state are those of `TextRun` with the code prompt; the language is kept only when truthy |
| Ai.AiService.GenerateTests | backend/src/ai/ai.service.ts:39-48 | result and new state are those of `TextRun` with the tests prompt; the language is not used |
| Ai.AiService.GenerateJenkinsfile | backend/src/ai/ai.service.ts:51-69 | result and new state are those of `TextRun` with the Jenkinsfile prompt |
| Ai.AiService.GenerateJobXml | backend/src/ai/ai.service.ts:72-92 | result and new state are those of `JobXmlRun` |
| BuildRequest.OptionalString | backend/src/jenkins/dto/trigger-build.dto.ts:16-18 | an optional string property is present exactly when the body holds a string there, with that value |
| BuildRequest.OptionalBool | backend/src/jenkins/dto/trigger-build.dto.ts:32-34 | `provision` is present exactly when the body holds a boolean there, with that value |
| BuildRequest.IsValid | backend/src/jenkins/dto/trigger-build.dto.ts:3-35 | the decorators together: five non-empty strings, optional strings and an optional boolean; `Validate` states that the pipe accepts exactly these bodies |
| BuildRequest.Validate | backend/src/jenkins/dto/trigger-build.dto.ts:3-35 | a body is accepted exactly when every decorator holds; an accepted body gives a record with the five required strings non-empty that carries the body's values |
| BuildRequest.EveryWellFormedRecordIsAccepted | backend/src/jenkins/dto/trigger-build.dto.ts:3-35 | every record with the required strings non-empty is what some accepted body validates to |
| Jenkins.CleanUrl | backend/src/jenkins/jenkins.service.ts:20 | `/\/$/` without `m` removes one trailing slash and nothing else: the result is a prefix, at most one shorter, and shorter exactly when the URL ends in `/` |
| Jenkins.JobName | backend/src/jenkins/jenkins.service.ts:37-38 | the requested name if truthy, else the truthy `JENKINS_JOB_NAME`, else `default-pipeline`; never empty |
| Jenkins.AuthHeader | backend/src/jenkins/jenkins.service.ts:21 | the header starts with `Basic ` |
| Jenkins.TargetOf | backend/src/jenkins/jenkins.service.ts:37-46 | the job a build addresses is never empty |
| Jenkins.GatewayMessage | backend/src/jenkins/jenkins.service.ts:98 | the status text when there is a response with a non-empty one, else `Connection Failed` |
| Jenkins.Names | backend/src/jenkins/jenkins.service.ts:26 | the names of the jobs, one per job, in order |
| Jenkins.TriggerRequest | backend/src/jenkins/jenkins.service.ts:46-57 | the trigger: a form POST of `SOURCE_CODE` then `TEST_CODE` to the job's `buildWithParameters` with the Basic header; stated by `ImmediateSuccess` and `OnlyBuildCalls` |
| Jenkins.CreateRequest | backend/src/jenkins/jenkins.service.ts:77-84 | the creation: an `application/xml` POST of the document to `createItem?name=<job>`; stated by `NotFoundWithoutModel` and `NotFoundWithDocument` |
| Jenkins.FetchJobsRun | backend/src/jenkins/jenkins.service.ts:18-31 | `fetchJobs` fails only with 400 or 401 and never calls the generator; `FetchJobsNeedsCredentials` and `FetchJobsOutcome` state the rest |
| Jenkins.AttemptRun | backend/src/jenkins/jenkins.service.ts:52-98 | one try fails only with 500 or 502, and a retry consumes a Jenkins reply; `AttemptErrors`, `AttemptSuccess` and `AttemptCalls` state the rest |
| Jenkins.Attempts | backend/src/jenkins/jenkins.service.ts:89 | the retries fail only with 500 or 502; `AttemptsErrors`, `AttemptsSuccess` and `AttemptsCalls` state the rest |
| Jenkins.TriggerRun | backend/src/jenkins/jenkins.service.ts:35-100 | `triggerBuild` fails only with 400, 500 or 502; `MissingConfiguration`, `ErrorStatuses`, `OnlyBuildCalls` and the scenario lemmas state the rest |
| Jenkins.JenkinsService.constructor | backend/src/jenkins/jenkins.service.ts:12-16 | the service keeps its HTTP client, its AI service and the job-name setting |
| Jenkins.JenkinsService.FetchJobs | backend/src/jenkins/jenkins.service.ts:18-31 | result and new state are those of `FetchJobsRun` |
| Jenkins.JenkinsService.TriggerBuild | backend/src/jenkins/jenkins.service.ts:35-100 | result and new state, the recursive retry included, are those of `TriggerRun` |
| JenkinsProperties.AuthHeaderCarriesCredentials | backend/src/jenkins/jenkins.service.ts:21 | the header's suffix decodes, through base64 and UTF-8, to exactly `user:token` |
| JenkinsProperties.CleanUrlRemovesOneSlash | backend/src/jenkins/jenkins.service.ts:20 | one trailing slash goes; a URL ending in two keeps one |
| JenkinsProperties.FetchJobsNeedsCredentials | backend/src/jenkins/jenkins.service.ts:19 | the 400 `Missing Credentials` comes back exactly when the url, user or token is empty, and then nothing is called |
| JenkinsProperties.FetchJobsOutcome | backend/src/jenkins/jenkins.service.ts:20-30 | exactly one GET of `<url>/api/json?tree=jobs[name]` with the Basic header; names in order exactly on a 2xx reply with a `jobs` array, otherwise 401 `Invalid Credentials` |
| JenkinsProperties.AttemptCalls | backend/src/jenkins/jenkins.service.ts:52-94 | one attempt only appends the trigger, the generation of the job document and its creation |
| JenkinsProperties.AttemptsCalls | backend/src/jenkins/jenkins.service.ts:52-94 | any number of attempts only append calls of that build |
| JenkinsProperties.OnlyBuildCalls | backend/src/jenkins/jenkins.service.ts:35-100 | `triggerBuild` only appends to the log, and only calls of its own build for its own job: the trigger, the job document's generation and the job's creation |
| JenkinsProperties.AttemptErrors | backend/src/jenkins/jenkins.service.ts:61-98 | one attempt fails only with the 500 of a failed provisioning of its job or with a 502 |
| JenkinsProperties.AttemptSuccess | backend/src/jenkins/jenkins.service.ts:54-59 | one attempt succeeds only right after its trigger, with the job's message |
| JenkinsProperties.AttemptsErrors | backend/src/jenkins/jenkins.service.ts:61-98 | the same holds across retries |
| JenkinsProperties.AttemptsSuccess | backend/src/jenkins/jenkins.service.ts:54-59 | across retries, success comes only right after a trigger of the job |
| JenkinsProperties.ErrorStatuses | backend/src/jenkins/jenkins.service.ts:61-98 | with a url and a token, the only errors are the 500 naming the job and the 502 |
| JenkinsProperties.MissingConfiguration | backend/src/jenkins/jenkins.service.ts:40-42 | the 400 `Missing Jenkins Configuration` comes back exactly when the url or the token is empty, and then nothing is called |
| JenkinsProperties.AcceptedBodyIsConfigured | backend/src/jenkins/dto/trigger-build.dto.ts:4-14 | a body the validation pipe accepts never gets the 400; its only errors are 500 and 502 |
| JenkinsProperties.SuccessFollowsTrigger | backend/src/jenkins/jenkins.service.ts:54-59 | a build is reported triggered only for its own job, and only when the last call was that job's trigger |
| JenkinsProperties.AttemptsIgnoreProvision | backend/src/jenkins/dto/trigger-build.dto.ts:32-34 | attempts do not depend on `provision` |
| JenkinsProperties.ProvisionIgnored | backend/src/jenkins/dto/trigger-build.dto.ts:32-34 | changing `provision` changes neither the outcome nor any call |
| JenkinsProperties.ImmediateSuccess | backend/src/jenkins/jenkins.service.ts:52-59 | a 2xx trigger: exactly one form POST of `SOURCE_CODE` and `TEST_CODE` to the job's `buildWithParameters`, and the message with the reply's `Location` |
| JenkinsProperties.GatewayFailure | backend/src/jenkins/jenkins.service.ts:97-98 | a non-404 failure or no response: a 502 with the status text or `Connection Failed`, after the trigger alone |
| JenkinsProperties.UnauthorizedIsBadGateway | backend/src/jenkins/jenkins.service.ts:97-98 | a 401 on the trigger gives a 502, not a credentials error |
| JenkinsProperties.NotFoundWithoutModel | backend/src/jenkins/jenkins.service.ts:63-94 | a 404 without a model: no generation, the empty document is posted to `createItem`; a refused creation gives the 500, an accepted one triggers again with the same data |
| JenkinsProperties.GenerationFailureIsInternalError | backend/src/jenkins/jenkins.service.ts:66-93 | a 404 whose generation fails gives the 500 naming the job, right after the generation, with no creation and no retry |
| JenkinsProperties.NotFoundWithDocument | backend/src/jenkins/jenkins.service.ts:63-94 | a 404 with a generated document: the cleaned text is posted as `application/xml` to `createItem`; a refused creation gives the 500, an accepted one triggers again with the same data |
| JenkinsProperties.RetryFailureIsNotRewritten | backend/src/jenkins/jenkins.service.ts:89 | the unawaited retry's 502 reaches the caller instead of the 500 |
| JenkinsProperties.NoRetryBound | backend/src/jenkins/jenkins.service.ts:86-89 | a second 404 after a creation provisions again: the log is trigger, create, trigger, create, trigger, and the build succeeds |

## Left out

- The wording of the prompts and the Gemini SDK. A prompt is recorded only by its method and inputs.
- Logging, `firstValueFrom` and the promise machinery. A call is one synchronous step on the shared `Server`.
- The HTTP client's encoding of a `URLSearchParams` body. The form is kept as its ordered fields.
- The `ConfigService` reads of `JENKINS_JOB_NAME` and `GEMINI_API_KEY`. Both become constructor parameters.
- Jenkins.JenkinsService.TriggerBuild: requires its AI service to share the HTTP client's `Server`. This stands in for dependency injection, which wires both services to the same outside world.
- The default `= ''` of `customRequirements`. The model always passes the requirements explicitly, as `triggerBuild` does.
- The `success: true` field of a triggered build. It is constant, so `Triggered` leaves it out.
- A generator with no answer left is modelled as a failed generation with the message `no answer`.
- A `jobs` entry that is `null` (so `j.name` throws) is not modelled. Every entry is an object whose `name` may be absent.
- Lone surrogates in the credentials, and `Buffer`'s replacement of them by U+FFFD. `char` in Dafny is a Unicode scalar value.
- The controllers, `GenerateAiDto` and the frontend.
- JenkinsProperties.NotFoundWithoutModel: stated only for a script with a reply for the creation. With no reply left, the creation fails and `ErrorStatuses` covers the 500.
- JenkinsProperties.NotFoundWithDocument: stated only for a script with a reply for the creation, for the same reason.
