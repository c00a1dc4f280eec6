/** `AiService`: the four `generate*` methods with the Gemini model abstracted.
    Whether a model exists is fixed by the constructor; each generation is one
    call to the generator, whose answer is either post-processed by
    `cleanOutput` or turned into the method's error outcome. */
module Ai {
  import opened Values
  import opened Remote
  import opened OutputCleaning

  /** What the three script-producing methods return when no API key was configured. */
  const NotConfigured: string := "// Error: GEMINI_API_KEY not configured"

  /** What they put before the message of a failed generation. */
  const ErrorPrefix: string := "// Error: "

  /** The outcome of `generateCode`, `generateTests` and `generateJenkinsfile`
      for prompt `p`: they report every failure as text and never throw. */
  function TextRun(configured: bool, p: Prompt, s: Script): (r: (string, Script))
    ensures r.1.replies == s.replies
  {
    if !configured then (NotConfigured, s)
    else
      var (answer, s1) := GenerateStep(s, p);
      (if answer.Text? then CleanOutput(answer.text) else ErrorPrefix + answer.message, s1)
  }

  /** The outcome of `generateJobXml`: an empty document without a model, the
      generator's error rethrown with its message, or the cleaned text. */
  function JobXmlRun(configured: bool, code: string, requirements: string, s: Script): (r: (Result<string>, Script))
    ensures r.1.replies == s.replies
  {
    if !configured then (Ok(""), s)
    else
      var (answer, s1) := GenerateStep(s, JobXmlPrompt(code, requirements));
      (if answer.Text? then Ok(CleanOutput(answer.text)) else Err(answer.message), s1)
  }

  /** Without a model the sentinel comes back and nothing is called; with one,
      exactly one generator call is made and its answer decides the text. */
  lemma TextRunOutcome(configured: bool, p: Prompt, s: Script)
    ensures !configured ==> TextRun(configured, p, s) == (NotConfigured, s)
    ensures configured ==> TextRun(configured, p, s).1 == GenerateStep(s, p).1
    ensures configured && GenerateStep(s, p).0.Fail? ==>
      TextRun(configured, p, s).0 == "// Error: " + GenerateStep(s, p).0.message
    ensures configured && GenerateStep(s, p).0.Text? ==>
      TextRun(configured, p, s).0 == CleanOutput(GenerateStep(s, p).0.text)
  {
  }

  /** A generated script never starts with `//`, so the text tells failures from
      results: it starts with `//` exactly when there was no model or the
      generation failed. */
  lemma FailuresAreMarked(configured: bool, p: Prompt, s: Script)
    ensures HasAt(TextRun(configured, p, s).0, 0, "//") <==> !configured || GenerateStep(s, p).0.Fail?
  {
    var answer := GenerateStep(s, p).0;
    if !configured || answer.Fail? {
      var r := TextRun(configured, p, s).0;
      assert r[0] == '/' && r[1] == '/';
      assert r[0..2] == "//";
    } else {
      CleanOutputProperties(answer.text);
    }
  }

  /** Without a model `generateJobXml` gives the empty document and calls nothing;
      with one, it makes one generator call, rethrows a failure's message, and
      otherwise returns the cleaned text, which holds no code fence and no
      surrounding white space. */
  lemma JobXmlOutcome(configured: bool, code: string, requirements: string, s: Script)
    ensures !configured ==> JobXmlRun(configured, code, requirements, s) == (Ok(""), s)
    ensures configured ==> JobXmlRun(configured, code, requirements, s).1 == GenerateStep(s, JobXmlPrompt(code, requirements)).1
    ensures configured && GenerateStep(s, JobXmlPrompt(code, requirements)).0.Fail? ==>
      JobXmlRun(configured, code, requirements, s).0 == Err(GenerateStep(s, JobXmlPrompt(code, requirements)).0.message)
    ensures configured && GenerateStep(s, JobXmlPrompt(code, requirements)).0.Text? ==>
      JobXmlRun(configured, code, requirements, s).0 == Ok(CleanOutput(GenerateStep(s, JobXmlPrompt(code, requirements)).0.text))
  {
  }

  /** A document `generateJobXml` returns holds no code fence and no surrounding white space. */
  lemma JobXmlIsClean(configured: bool, code: string, requirements: string, s: Script)
    ensures JobXmlRun(configured, code, requirements, s).0.Ok? ==>
      var xml := JobXmlRun(configured, code, requirements, s).0.value;
      Free(xml, "```") && (xml != [] ==> !IsWhiteSpace(xml[0]) && !IsWhiteSpace(xml[|xml| - 1]))
  {
    var answer := GenerateStep(s, JobXmlPrompt(code, requirements)).0;
    if configured && answer.Text? {
      CleanOutputProperties(answer.text);
      CleanOutputTrimmed(answer.text);
    } else {
      assert forall i :: !HasAt("", i, "```");
    }
  }

  class AiService {
    const remote: Server
    /** Whether `this.model` was set, that is whether the API key was truthy. */
    const configured: bool

    constructor(remote: Server, apiKey: Option<string>)
      ensures this.remote == remote
      ensures configured <==> apiKey.Some? && apiKey.value != ""
    {
      this.remote := remote;
      this.configured := Truthy(apiKey).Some?;
    }

    method GenerateCode(prompt: string, language: Option<string>) returns (code: string)
      modifies remote
      ensures (code, remote.State()) == TextRun(configured, CodePrompt(prompt, Truthy(language)), old(remote.State()))
    {
      if !configured {
        return NotConfigured;
      }
      var answer := remote.GenerateContent(CodePrompt(prompt, Truthy(language)));
      code := if answer.Text? then CleanOutput(answer.text) else ErrorPrefix + answer.message;
    }

    /** The language is accepted but not used. */
    method GenerateTests(code: string, language: Option<string>) returns (tests: string)
      modifies remote
      ensures (tests, remote.State()) == TextRun(configured, TestsPrompt(code), old(remote.State()))
    {
      if !configured {
        return NotConfigured;
      }
      var answer := remote.GenerateContent(TestsPrompt(code));
      tests := if answer.Text? then CleanOutput(answer.text) else ErrorPrefix + answer.message;
    }

    method GenerateJenkinsfile(contextCode: string, customRequirements: string, language: Option<string>)
      returns (script: string)
      modifies remote
      ensures (script, remote.State())
        == TextRun(configured, JenkinsfilePrompt(contextCode, customRequirements, Truthy(language)), old(remote.State()))
    {
      if !configured {
        return NotConfigured;
      }
      var answer := remote.GenerateContent(JenkinsfilePrompt(contextCode, customRequirements, Truthy(language)));
      script := if answer.Text? then CleanOutput(answer.text) else ErrorPrefix + answer.message;
    }

    method GenerateJobXml(contextCode: string, customRequirements: string) returns (xml: Result<string>)
      modifies remote
      ensures (xml, remote.State()) == JobXmlRun(configured, contextCode, customRequirements, old(remote.State()))
    {
      if !configured {
        return Ok("");
      }
      var answer := remote.GenerateContent(JobXmlPrompt(contextCode, customRequirements));
      xml := if answer.Text? then Ok(CleanOutput(answer.text)) else Err(answer.message);
    }
  }
}
