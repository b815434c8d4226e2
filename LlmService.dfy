/**
 * The completion provider (app/services/llm_service.py): the prompt it
 * builds, the fixed two-message request it sends, and its policy of answering
 * with a fixed fallback text whenever the provider call fails.
 *
 * The provider itself is an oracle: its answer for a call is a parameter.
 */
module LlmService {
  import opened Json

  datatype Result<T> = Success(value: T) | Failure(error: string)

  /** The configured service: the provider key and the model it asks for. */
  datatype LlmService = LlmService(apiKey: string, model: string)

  const ModelId := "llama3-8b-8192"
  const MissingKeyError := "GROQ_API_KEY no configurada."
  const SystemMessage := "Eres un asistente virtual amigable y útil para WhatsApp."
  const Fallback := "Lo siento, no pude procesar tu solicitud en este momento."
  const UserLabel := "Usuario: "
  const ContextInstruction :=
    "\n\nBasándote en el contexto anterior si es relevante, y en tu conocimiento general, responde a la siguiente pregunta del usuario:\n"

  datatype ChatMessage = ChatMessage(role: string, content: string)
  datatype CompletionRequest = CompletionRequest(model: string, messages: seq<ChatMessage>)

  /** What the provider call gives back: the choices of a completion, each
      with a possibly missing content, or a failure of the call itself. */
  datatype Choice = Choice(content: Option<string>)
  datatype Completion = Answered(choices: seq<Choice>) | ProviderFault(error: string)

  /** One call of `generate_response`: the request sent and the reply returned. */
  datatype Generated = Generated(request: CompletionRequest, reply: string)

  predicate StartsWith(s: string, prefix: string)
  {
    |prefix| <= |s| && s[..|prefix|] == prefix
  }

  predicate EndsWith(s: string, suffix: string)
  {
    |suffix| <= |s| && s[|s| - |suffix|..] == suffix
  }

  /** Constructing the service: an empty key is refused with ValueError. */
  function NewLlmService(apiKey: string): (r: Result<LlmService>)
    ensures r.Failure? <==> apiKey == ""
    ensures r.Failure? ==> r.error == MissingKeyError
    ensures r.Success? ==> r.value.apiKey == apiKey && r.value.model == ModelId
  {
    if apiKey == "" then Failure(MissingKeyError) else Success(LlmService(apiKey, ModelId))
  }

  /** The user turn: the message labelled as the user's, preceded by the
      retrieved context and an instruction when there is any context. */
  function BuildPrompt(userPrompt: string, context: string): (p: string)
    ensures EndsWith(p, UserLabel + userPrompt)
    ensures context == "" ==> p == UserLabel + userPrompt
    ensures context != "" ==> StartsWith(p, context) && StartsWith(p[|context|..], ContextInstruction)
    ensures context != "" ==> |p| == |context| + |ContextInstruction| + |UserLabel + userPrompt|
  {
    if context != "" then
      var p := context + ContextInstruction + (UserLabel + userPrompt);
      assert p[..|context|] == context;
      assert p[|context|..] == ContextInstruction + (UserLabel + userPrompt);
      assert p[|context|..][..|ContextInstruction|] == ContextInstruction;
      assert p[|p| - |UserLabel + userPrompt|..] == UserLabel + userPrompt;
      p
    else
      UserLabel + userPrompt
  }

  /** The request: the fixed persona as system turn, then the user turn. */
  function BuildRequest(svc: LlmService, prompt: string): (req: CompletionRequest)
    ensures req.model == svc.model && |req.messages| == 2
    ensures req.messages[0] == ChatMessage("system", SystemMessage)
    ensures req.messages[1] == ChatMessage("user", prompt)
  {
    CompletionRequest(svc.model, [ChatMessage("system", SystemMessage), ChatMessage("user", prompt)])
  }

  /** A usable answer: a first choice whose content is present. Anything else
      raises inside the guarded block (no first choice, or slicing a missing
      content for the log line). */
  predicate HasContent(answer: Completion)
  {
    answer.Answered? && |answer.choices| > 0 && answer.choices[0].content.Some?
  }

  /** The reply: the provider's content unchanged, or the fallback text. */
  function Reply(answer: Completion): (r: string)
    ensures HasContent(answer) ==> r == answer.choices[0].content.value
    ensures !HasContent(answer) ==> r == Fallback
  {
    if HasContent(answer) then answer.choices[0].content.value else Fallback
  }

  /** `generate_response`. The retrieval lookup is disabled in the source, so
      the context is always empty. */
  function GenerateResponse(svc: LlmService, userPrompt: string, userId: string, answer: Completion): (g: Generated)
    ensures g.request == BuildRequest(svc, UserLabel + userPrompt)
    ensures g.reply == Reply(answer)
  {
    var context := "";
    Generated(BuildRequest(svc, BuildPrompt(userPrompt, context)), Reply(answer))
  }

  /** What is sent for a service built by `NewLlmService`: the fixed model
      and exactly two turns, the persona and "Usuario: " + the message. */
  lemma RequestShape(apiKey: string, userPrompt: string, userId: string, answer: Completion)
    requires apiKey != ""
    ensures NewLlmService(apiKey).Success?
    ensures GenerateResponse(NewLlmService(apiKey).value, userPrompt, userId, answer).request
      == CompletionRequest(ModelId, [ChatMessage("system", SystemMessage), ChatMessage("user", "Usuario: " + userPrompt)])
  {
  }

  /** The user id only reaches the log lines, never the request or the reply. */
  lemma UserIdNotSent(svc: LlmService, userPrompt: string, u1: string, u2: string, answer: Completion)
    ensures GenerateResponse(svc, userPrompt, u1, answer) == GenerateResponse(svc, userPrompt, u2, answer)
  {
  }

  /** Whatever goes wrong with the provider, the caller gets a non-empty
      reply and nothing is raised. */
  lemma FaultGivesFallback(svc: LlmService, userPrompt: string, userId: string, answer: Completion)
    requires !HasContent(answer)
    ensures GenerateResponse(svc, userPrompt, userId, answer).reply == Fallback
    ensures Fallback != ""
  {
  }
}
