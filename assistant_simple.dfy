/** The offline assistant: keyword routing of chat replies and of code generation, the template lookup, and
    the per-session conversation history. */
module AssistantSimple {
  import opened Common
  import opened Text
  import opened Conversation

  // ---------------------------------------------------------------------------------------------
  // Templates
  // ---------------------------------------------------------------------------------------------

  /** The three built-in code templates; their source text is not part of this model. */
  datatype Template = FlaskApi | ReactComponent | PythonFunction

  function TemplateName(t: Template): string {
    match t
    case FlaskApi => "flask_api"
    case ReactComponent => "react_component"
    case PythonFunction => "python_function"
  }

  /** `list(self.code_templates.keys())`, in insertion order. */
  const TemplateKeys: seq<string> := ["flask_api", "react_component", "python_function"]

  datatype TemplateResult =
    | TemplateFound(template: Template, templateType: string)
    | TemplateMissing(error: string, availableTemplates: seq<string>)

  /** `get_code_template`: the template stored under the key, or an error listing every key. */
  function GetCodeTemplate(templateType: string): (r: TemplateResult)
    ensures r.TemplateFound? <==> templateType in TemplateKeys
    ensures r.TemplateFound? ==> TemplateName(r.template) == templateType && r.templateType == templateType
    ensures r.TemplateMissing? ==>
              r.error == "Plantilla " + templateType + " no encontrada" && r.availableTemplates == TemplateKeys
  {
    if templateType == "flask_api" then TemplateFound(FlaskApi, templateType)
    else if templateType == "react_component" then TemplateFound(ReactComponent, templateType)
    else if templateType == "python_function" then TemplateFound(PythonFunction, templateType)
    else TemplateMissing("Plantilla " + templateType + " no encontrada", TemplateKeys)
  }

  /** Every listed key finds its template. */
  lemma TemplateKeysRoundTrip(t: Template)
    ensures TemplateName(t) in TemplateKeys
    ensures GetCodeTemplate(TemplateName(t)) == TemplateFound(t, TemplateName(t))
  {
  }

  // ---------------------------------------------------------------------------------------------
  // Chat replies
  // ---------------------------------------------------------------------------------------------

  const PrimeWords: seq<string> := ["primo", "primos", "prime"]
  const FlaskWords: seq<string> := ["flask", "api", "servidor"]
  const ReactWords: seq<string> := ["react", "componente", "frontend"]
  const GreetingWords: seq<string> := ["hola", "ayuda", "help"]

  /** The reply kinds; the canned texts and embedded templates are not part of this model, the echo is. */
  datatype Reply = PrimesAnswer | FlaskExample | ReactExample | Greeting | Echo(text: string)

  function EchoText(message: string): string {
    "Entiendo que preguntas sobre: '" + message + "'. Como asistente de IA especializado en programación, "
    + "puedo ayudarte con desarrollo de software, algoritmos, y arquitecturas. ¿Podrías ser más específico "
    + "sobre qué tipo de código o concepto necesitas?"
  }

  /** The reply `get_ai_response` picks: the first keyword group with a word inside the lowercased message
      wins, and a message matching none is echoed back unchanged. */
  function ChooseReply(message: string): (r: Reply)
    ensures var m := Lower(message);
            && (r.PrimesAnswer? <==> ContainsAny(m, PrimeWords))
            && (r.FlaskExample? <==> !ContainsAny(m, PrimeWords) && ContainsAny(m, FlaskWords))
            && (r.ReactExample? <==>
                  !ContainsAny(m, PrimeWords) && !ContainsAny(m, FlaskWords) && ContainsAny(m, ReactWords))
            && (r.Greeting? <==>
                  !ContainsAny(m, PrimeWords) && !ContainsAny(m, FlaskWords) && !ContainsAny(m, ReactWords)
                  && ContainsAny(m, GreetingWords))
            && (r.Echo? ==> r.text == EchoText(message))
  {
    var m := Lower(message);
    if ContainsAny(m, PrimeWords) then PrimesAnswer
    else if ContainsAny(m, FlaskWords) then FlaskExample
    else if ContainsAny(m, ReactWords) then ReactExample
    else if ContainsAny(m, GreetingWords) then Greeting
    else Echo(EchoText(message))
  }

  /** `primos` never decides anything: wherever it occurs, `primo` occurs too. */
  lemma PrimosIsRedundant(message: string)
    ensures ContainsAny(Lower(message), PrimeWords)
            <==> Contains(Lower(message), "primo") || Contains(Lower(message), "prime")
  {
    var m := Lower(message);
    if Contains(m, "primos") {
      assert OccursAt("primos", "primo", 0);
      ContainsIff("primos", "primo");
      ContainsTransitive(m, "primos", "primo");
    }
    assert PrimeWords[0] == "primo" && PrimeWords[1] == "primos" && PrimeWords[2] == "prime";
    ContainsAnyIff(m, PrimeWords);
  }

  /** The routing ignores case: two messages that lowercase alike get the same kind of reply, and the
      same reply unless it echoes the message. */
  lemma ReplyIgnoresCase(a: string, b: string)
    requires Lower(a) == Lower(b)
    ensures ChooseReply(a).Echo? <==> ChooseReply(b).Echo?
    ensures !ChooseReply(a).Echo? ==> ChooseReply(a) == ChooseReply(b)
  {
    var ra, rb := ChooseReply(a), ChooseReply(b);
    if ra.Echo? {
      assert rb.Echo?;
    } else {
      assert ra == rb;
    }
  }

  // ---------------------------------------------------------------------------------------------
  // Code generation
  // ---------------------------------------------------------------------------------------------

  /** What `generate_code` returns as code: a template, or a language skeleton naming the description. */
  datatype GeneratedCode =
    | FromTemplate(template: Template)
    | PythonSkeleton(forDescription: string)
    | JavascriptSkeleton(forDescription: string)
    | OtherSkeleton(forLanguage: string, forDescription: string)

  datatype CodeResult = CodeResult(code: GeneratedCode, language: string, framework: Option<string>,
                                   description: string)

  /** `generate_code`: keywords in the description choose a template, then the language a skeleton. */
  function GenerateCode(description: string, language: string, framework: Option<string>): (r: CodeResult)
    ensures r.language == language && r.framework == framework && r.description == description
    ensures var d := Lower(description);
            && (r.code == FromTemplate(PythonFunction) <==> Contains(d, "primo"))
            && (r.code == FromTemplate(FlaskApi) <==> !Contains(d, "primo") && (Contains(d, "flask") || Contains(d, "api")))
            && (r.code == FromTemplate(ReactComponent) <==>
                  !Contains(d, "primo") && !Contains(d, "flask") && !Contains(d, "api")
                  && (Contains(d, "react") || Contains(d, "componente")))
            && (!r.code.FromTemplate? ==>
                  && !Contains(d, "primo") && !Contains(d, "flask") && !Contains(d, "api")
                  && !Contains(d, "react") && !Contains(d, "componente")
                  && (language == "python" <==> r.code == PythonSkeleton(description))
                  && (language == "javascript" <==> r.code == JavascriptSkeleton(description))
                  && (language != "python" && language != "javascript" <==>
                        r.code == OtherSkeleton(language, description)))
  {
    var d := Lower(description);
    var code :=
      if Contains(d, "primo") then FromTemplate(PythonFunction)
      else if Contains(d, "flask") || Contains(d, "api") then FromTemplate(FlaskApi)
      else if Contains(d, "react") || Contains(d, "componente") then FromTemplate(ReactComponent)
      else if language == "python" then PythonSkeleton(description)
      else if language == "javascript" then JavascriptSkeleton(description)
      else OtherSkeleton(language, description);
    CodeResult(code, language, framework, description)
  }

  // ---------------------------------------------------------------------------------------------
  // The assistant and its history
  // ---------------------------------------------------------------------------------------------

  class SimpleAssistant {
    var conversationHistory: map<string, seq<Entry<Reply>>>
    /** Everything ever said in each session. */
    ghost var said: map<string, seq<Entry<Reply>>>

    ghost predicate Valid()
      reads this
    {
      SessionsWindowed(conversationHistory, said)
    }

    constructor ()
      ensures Valid() && conversationHistory == map[]
    {
      conversationHistory := map[];
      said := map[];
    }

    /** `get_ai_response`: pick the reply, record the exchange in this session and keep its last 20
        entries; no other session changes. */
    method GetAiResponse(message: string, sessionId: string) returns (reply: Reply)
      requires Valid()
      modifies this
      ensures Valid()
      ensures reply == ChooseReply(message)
      ensures conversationHistory == old(conversationHistory)[sessionId :=
                AppendExchange(SessionEntries(old(conversationHistory), sessionId), message, reply)]
    {
      reply := ChooseReply(message);
      RecordExchange(sessionId, message, reply);
    }

    /** The history part of `get_ai_response`: create the session if needed, append the user entry and
        the reply, and cut the session back to its last 20 entries. */
    method RecordExchange(sessionId: string, message: string, reply: Reply)
      requires Valid()
      modifies this`conversationHistory, this`said
      ensures Valid()
      ensures conversationHistory == old(conversationHistory)[sessionId :=
                AppendExchange(SessionEntries(old(conversationHistory), sessionId), message, reply)]
    {
      ghost var shown0, said0 := conversationHistory, said;
      if sessionId !in conversationHistory {
        conversationHistory := conversationHistory[sessionId := []];
        said := said[sessionId := []];
      }
      ghost var shown1 := conversationHistory;
      var history := conversationHistory[sessionId];
      assert history == SessionEntries(shown0, sessionId);
      ghost var full := said[sessionId];
      ExchangeKeepsWindowed(conversationHistory, said, sessionId, message, reply);
      ghost var before := history;
      history := history + [UserEntry(message), AssistantEntry(reply)];
      if |history| > HistoryLimit {
        history := history[|history| - HistoryLimit..];
      }
      assert history == AppendExchange(before, message, reply);
      conversationHistory := conversationHistory[sessionId := history];
      if sessionId !in shown0 {
        OverwriteTwice(shown0, sessionId, [], history);
      }
      said := said[sessionId := full + [UserEntry(message), AssistantEntry(reply)]];
    }
  }
}
