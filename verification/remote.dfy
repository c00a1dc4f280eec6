/** The world outside the backend, as both services see it: the Jenkins server
    reached over HTTP and the Gemini generator. Each is a finite script of
    replies; every call takes the next reply of its script and is appended to one
    call log, so the order of Jenkins and generator calls is visible. */
module Remote {
  import opened Values

  /** One entry of the `jobs` array of `/api/json?tree=jobs[name]`. */
  datatype Job = Job(name: Option<string>)

  /** What one HTTP request comes back with: a response (its status, status
      text, `Location` header and, for the job list, the `jobs` array of its JSON
      body) or nothing at all (connection refused, timeout). */
  datatype HttpReply =
    | Response(status: int, statusText: string, location: Option<string>, jobs: Option<seq<Job>>)
    | NoResponse

  /** The request body: the form fields of a `URLSearchParams`, in order, or raw XML. */
  datatype Payload = Form(fields: seq<(string, string)>) | Xml(text: string)

  datatype Request =
    | Get(url: string, authorization: string)
    | Post(url: string, authorization: string, contentType: string, payload: Payload)

  /** What a `generate*` method asks the generator for: the method and the inputs
      its prompt is made of (the wording of the prompt is not modelled). A
      language is recorded only when it is truthy, which is all the prompt uses. */
  datatype Prompt =
    | CodePrompt(prompt: string, language: Option<string>)
    | TestsPrompt(code: string)
    | JenkinsfilePrompt(code: string, requirements: string, language: Option<string>)
    | JobXmlPrompt(code: string, requirements: string)

  /** What `model.generateContent` comes back with: the text of the response, or
      an error with its message. */
  datatype Answer = Text(text: string) | Fail(message: string)

  datatype Call = Http(request: Request) | Generate(prompt: Prompt)

  /** The replies still to come and the calls made so far. */
  datatype Script = Script(replies: seq<HttpReply>, answers: seq<Answer>, log: seq<Call>)

  /** The message of the failure that stands for a generator with no answer left. */
  const NoAnswer: string := "no answer"

  /** Axios resolves exactly the responses with a 2xx status; every other outcome rejects. */
  predicate IsSuccess(r: HttpReply)
  {
    r.Response? && 200 <= r.status < 300
  }

  /** One HTTP request: the next reply (none once the script is used up), and
      the request logged. */
  function HttpStep(s: Script, req: Request): (r: (HttpReply, Script))
    ensures r.1.answers == s.answers && r.1.log == s.log + [Http(req)]
    ensures s.replies == [] ==> r.0 == NoResponse && r.1.replies == []
    ensures s.replies != [] ==> r.0 == s.replies[0] && s.replies == [r.0] + r.1.replies
  {
    if s.replies == [] then (NoResponse, s.(log := s.log + [Http(req)]))
    else (s.replies[0], s.(replies := s.replies[1..], log := s.log + [Http(req)]))
  }

  /** One generator call: the next answer (a failure once the script is used up),
      and the call logged. */
  function GenerateStep(s: Script, p: Prompt): (r: (Answer, Script))
    ensures r.1.replies == s.replies && r.1.log == s.log + [Generate(p)]
    ensures s.answers == [] ==> r.0 == Fail(NoAnswer) && r.1.answers == []
    ensures s.answers != [] ==> r.0 == s.answers[0] && s.answers == [r.0] + r.1.answers
  {
    if s.answers == [] then (Fail(NoAnswer), s.(log := s.log + [Generate(p)]))
    else (s.answers[0], s.(answers := s.answers[1..], log := s.log + [Generate(p)]))
  }

  class Server {
    var replies: seq<HttpReply>
    var answers: seq<Answer>
    var log: seq<Call>

    function State(): Script
      reads this
    {
      Script(replies, answers, log)
    }

    constructor(replies: seq<HttpReply>, answers: seq<Answer>)
      ensures State() == Script(replies, answers, [])
    {
      this.replies := replies;
      this.answers := answers;
      this.log := [];
    }

    method Send(req: Request) returns (reply: HttpReply)
      modifies this
      ensures (reply, State()) == HttpStep(old(State()), req)
    {
      log := log + [Http(req)];
      if replies == [] {
        reply := NoResponse;
      } else {
        reply := replies[0];
        replies := replies[1..];
      }
    }

    method GenerateContent(p: Prompt) returns (answer: Answer)
      modifies this
      ensures (answer, State()) == GenerateStep(old(State()), p)
    {
      log := log + [Generate(p)];
      if answers == [] {
        answer := Fail(NoAnswer);
      } else {
        answer := answers[0];
        answers := answers[1..];
      }
    }
  }
}
