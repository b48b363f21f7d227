/**
 * The judge client (lib/llm.ts): resolves the OpenAI credential, builds the
 * request for one résumé, picks the text out of the provider's response and
 * normalises the parsed JSON payload.
 *
 * The OpenAI client, the network round trip, `JSON.parse` and
 * `JSON.stringify` are foreign code; they are the fields of `JudgeServices`.
 */
module Llm {
  import opened Common

  /** One rubric entry, as submitted by the editor. */
  datatype Criterion = Criterion(id: string, name: string, description: string, weight: real)

  /** One per-criterion score returned by the judge. */
  datatype LLMScore = LLMScore(id: string, score: real, evidence: seq<string>)

  /** The judge's answer after normalisation. */
  datatype LLMResponse = LLMResponse(scores: seq<LLMScore>, notes: seq<string>)

  /** The payload `JSON.parse` produced; either field may be missing or null. */
  datatype ParsedResponse = ParsedResponse(scores: Option<seq<LLMScore>>, notes: Option<seq<string>>)

  /**
   * The parts of the provider's response the client reads. A content item
   * whose `text` is `None` has no `text` property (`'text' in content` is false).
   */
  datatype ContentItem = ContentItem(text: Option<string>)
  datatype OutputItem = OutputItem(content: Option<seq<ContentItem>>)
  datatype ApiResponse = ApiResponse(output: Option<seq<OutputItem>>, outputText: Option<string>)

  /** What `client.responses.create` is called with. */
  datatype JudgeRequest = JudgeRequest(apiKey: string, model: string, input: string, responseFormat: string)

  /** The process environment the server reads (each variable may be unset). */
  datatype Env = Env(openaiApiKey: Option<string>, llmModel: Option<string>, maxConcurrency: Option<string>)

  /** Foreign code the client calls. */
  datatype JudgeServices = JudgeServices(
    stringify: seq<Criterion> -> string,
    create: JudgeRequest -> Result<ApiResponse>,
    parseJson: string -> Result<ParsedResponse>)

  const MissingKeyMessage := "Missing OpenAI API key"
  const NoTextMessage := "LLM did not return any text"
  const DefaultModel := "gpt-4.1-mini"
  const JsonObjectFormat := "json_object"

  /** The fixed part of the prompt that precedes the serialised criteria. */
  const PromptHeader :=
    "Оціни кандидата за критеріями. Поверни тільки JSON:\n"
    + "{\"scores\":[{\"id\":\"...\", \"score\":1-10, \"evidence\":[\"...\"]}], \"notes\":[\"...\"]}\n"
    + "\n"
    + "Якщо інформації бракує — score=1 і reason \"insufficient evidence\".\n"
    + "\n"
    + "Критерії: "

  /** The label between the serialised criteria and the résumé text. */
  const ResumeLabel := "\nРезюме: "

  /**
   * `getClient`: the explicit key when one is given (even an empty one),
   * otherwise the environment's key; an absent or empty key is refused.
   */
  function ResolveKey(apiKey: Option<string>, envKey: Option<string>): (r: Result<string>)
    ensures apiKey.Some? ==> r == if apiKey.value == "" then Err(MissingKeyMessage) else Ok(apiKey.value)
    ensures apiKey.None? ==> r == if envKey.None? || envKey.value == "" then Err(MissingKeyMessage) else Ok(envKey.value)
    ensures r.Ok? ==> r.value != ""
  {
    var key := if apiKey.Some? then apiKey else envKey;
    if key.None? || key.value == "" then Err(MissingKeyMessage) else Ok(key.value)
  }

  /** `LLM_MODEL ?? 'gpt-4.1-mini'`: a set variable is used even when empty. */
  function ModelName(llmModel: Option<string>): (m: string)
    ensures llmModel.None? ==> m == DefaultModel
    ensures llmModel.Some? ==> m == llmModel.value
  {
    llmModel.OrElse(DefaultModel)
  }

  /** The prompt: fixed instructions, the serialised criteria, then the résumé. */
  function BuildPrompt(criteriaJson: string, resumeText: string): (p: string)
    ensures |p| == |PromptHeader| + |criteriaJson| + |ResumeLabel| + |resumeText|
    ensures p[..|PromptHeader|] == PromptHeader
    ensures p[|PromptHeader|..|PromptHeader| + |criteriaJson|] == criteriaJson
    ensures p[|PromptHeader| + |criteriaJson|..|p| - |resumeText|] == ResumeLabel
    ensures p[|p| - |resumeText|..] == resumeText
  {
    PromptHeader + criteriaJson + ResumeLabel + resumeText
  }

  /** Everything `evaluateWithLLM` does before it reaches the network. */
  function NewRequest(resumeText: string, criteria: seq<Criterion>, apiKey: Option<string>, env: Env,
                      stringify: seq<Criterion> -> string): (r: Result<JudgeRequest>)
    ensures r.Ok? <==> ResolveKey(apiKey, env.openaiApiKey).Ok?
    ensures r.Err? ==> r.message == MissingKeyMessage
    ensures r.Ok? ==> r.value.apiKey == ResolveKey(apiKey, env.openaiApiKey).value
    ensures r.Ok? ==> r.value.apiKey != "" && r.value.responseFormat == JsonObjectFormat
    ensures r.Ok? ==> r.value.model == ModelName(env.llmModel)
    ensures r.Ok? ==> r.value.input == BuildPrompt(stringify(criteria), resumeText)
  {
    var key :- ResolveKey(apiKey, env.openaiApiKey);
    Ok(JudgeRequest(key, ModelName(env.llmModel), BuildPrompt(stringify(criteria), resumeText), JsonObjectFormat))
  }

  /** `response.output?.[0]?.content?.[0]`. */
  function FirstContent(response: ApiResponse): (first: Option<ContentItem>)
    ensures response.output.None? ==> first.None?
    ensures response.output.Some? && response.output.value == [] ==> first.None?
    ensures response.output.Some? && response.output.value != [] && response.output.value[0].content.None? ==> first.None?
    ensures first.Some? <==>
              && response.output.Some? && response.output.value != []
              && response.output.value[0].content.Some? && response.output.value[0].content.value != []
    ensures first.Some? ==> first.value == response.output.value[0].content.value[0]
  {
    match response.output
    case None => None
    case Some(items) =>
      if |items| == 0 then None
      else match items[0].content
        case None => None
        case Some(parts) => if |parts| == 0 then None else Some(parts[0])
  }

  /**
   * The response text: the first content item's `text` when that item has
   * one, else `output_text`; an absent or empty text is an error.
   */
  function SelectText(response: ApiResponse): (r: Result<string>)
    ensures r.Ok? ==> r.value != ""
    ensures r.Err? ==> r.message == NoTextMessage
    ensures FirstContent(response).Some? && FirstContent(response).value.text.Some? ==>
      r == var t := FirstContent(response).value.text.value; if t == "" then Err(NoTextMessage) else Ok(t)
    ensures !(FirstContent(response).Some? && FirstContent(response).value.text.Some?) ==>
      r == if response.outputText.None? || response.outputText.value == "" then Err(NoTextMessage)
           else Ok(response.outputText.value)
  {
    var content := FirstContent(response);
    var text := if content.Some? && content.value.text.Some? then content.value.text else response.outputText;
    if text.None? || text.value == "" then Err(NoTextMessage) else Ok(text.value)
  }

  /** `scores ?? []` and `notes ?? []`; present fields pass unchanged. */
  function Normalise(parsed: ParsedResponse): (r: LLMResponse)
    ensures parsed.scores.Some? ==> r.scores == parsed.scores.value
    ensures parsed.scores.None? ==> r.scores == []
    ensures parsed.notes.Some? ==> r.notes == parsed.notes.value
    ensures parsed.notes.None? ==> r.notes == []
  {
    LLMResponse(parsed.scores.OrElse([]), parsed.notes.OrElse([]))
  }

  /**
   * `evaluateWithLLM`: one judge call for one résumé. Each step's failure is
   * the evaluation's error: a missing key, the provider's error, a response
   * without text, a payload that does not parse. On success the provider
   * received the request `NewRequest` builds (so the serialised criteria and
   * the résumé sit where `BuildPrompt` puts them) and the answer is the
   * parsed payload normalised.
   */
  function EvaluateWithLLM(resumeText: string, criteria: seq<Criterion>, apiKey: Option<string>, env: Env,
                           services: JudgeServices): (r: Result<LLMResponse>)
    ensures ResolveKey(apiKey, env.openaiApiKey).Err? ==> r == Err(MissingKeyMessage)
    ensures var q := NewRequest(resumeText, criteria, apiKey, env, services.stringify);
            q.Ok? && services.create(q.value).Err? ==> r == Err(services.create(q.value).message)
    ensures var q := NewRequest(resumeText, criteria, apiKey, env, services.stringify);
            q.Ok? && services.create(q.value).Ok? && SelectText(services.create(q.value).value).Err? ==>
              r == Err(NoTextMessage)
    ensures var q := NewRequest(resumeText, criteria, apiKey, env, services.stringify);
            q.Ok? && services.create(q.value).Ok? && SelectText(services.create(q.value).value).Ok? ==>
              var parsed := services.parseJson(SelectText(services.create(q.value).value).value);
              && (parsed.Err? ==> r == Err(parsed.message))
              && (parsed.Ok? ==> r == Ok(Normalise(parsed.value)))
    ensures r.Ok? ==>
              var q := NewRequest(resumeText, criteria, apiKey, env, services.stringify);
              && q.Ok? && q.value.input == BuildPrompt(services.stringify(criteria), resumeText)
              && services.create(q.value).Ok?
              && SelectText(services.create(q.value).value).Ok?
  {
    var request :- NewRequest(resumeText, criteria, apiKey, env, services.stringify);
    var response :- services.create(request);
    var text :- SelectText(response);
    var parsed :- services.parseJson(text);
    Ok(Normalise(parsed))
  }

  /**
   * A missing key fails before any request exists: the outcome is the same
   * whatever the provider and the JSON parser would have done.
   */
  lemma MissingKeyIssuesNoRequest(resumeText: string, criteria: seq<Criterion>, apiKey: Option<string>, env: Env,
                                  s1: JudgeServices, s2: JudgeServices)
    requires ResolveKey(apiKey, env.openaiApiKey).Err?
    ensures EvaluateWithLLM(resumeText, criteria, apiKey, env, s1) == Err(MissingKeyMessage)
    ensures EvaluateWithLLM(resumeText, criteria, apiKey, env, s1) == EvaluateWithLLM(resumeText, criteria, apiKey, env, s2)
  {
  }
}
