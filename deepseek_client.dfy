/**
 * app/services/deepseek_client.py: the language-model gateway. The OpenAI
 * call is an oracle: one `ApiOutcome` per attempt. `json.loads` is an
 * oracle too, a function from the cleaned text to a parsed analysis or
 * None. The backoff sleeps are returned as the list of delays, in seconds.
 */
module DeepSeek {
  import opened Wrappers
  import opened Text

  /** The value of `DEEPSEEK_API_KEY` that means "not configured". */
  const PlaceholderKey: string := "your_deepseek_api_key_here"

  datatype ChatMessage = ChatMessage(role: string, content: string)

  /** What one call of `client.chat.completions.create` did. `Completed` lists each choice's message content. */
  datatype ApiOutcome =
    | Completed(choices: seq<Option<string>>)
    | ConnectionError   // openai.APIConnectionError
    | ApiError          // any other openai.APIError
    | OtherError        // any other exception

  /** An element of a parsed `keywords` array: a string, or another JSON value, known by its Python type name. */
  datatype KeywordItem = KeywordString(text: string) | KeywordOther(typeName: string)

  /** The `keywords` entry of a parsed object, by the JSON type of its value. */
  datatype KeywordsField =
    | NoKeywords                             // the object has no "keywords" key
    | KeywordArray(items: seq<KeywordItem>)  // a JSON array
    | KeywordText(text: string)              // a JSON string
    | KeywordObject                          // a JSON object
    | KeywordScalar(typeName: string)        // null, a number or a boolean: "NoneType", "int", "float" or "bool"

  /**
   * What `json.loads` gives for the analysis reply: a JSON object, or a
   * value of another type (array, string, number, boolean, null) known by
   * its Python type name.
   */
  datatype Analysis =
    | AnalysisObject(
        keywords: KeywordsField,
        category: string,
        features: seq<string>,
        priceSensitivity: string,
        qualityRequirements: string)
    | NotAnObject(typeName: string)

  /** A list of strings as the items of a JSON array. */
  function StringItems(words: seq<string>): (items: seq<KeywordItem>)
    ensures |items| == |words|
    ensures forall k :: 0 <= k < |words| ==> items[k] == KeywordString(words[k])
  {
    seq(|words|, k requires 0 <= k < |words| => KeywordString(words[k]))
  }

  /** Mock mode is chosen at construction iff the key is empty, is the placeholder, or building the client raised. */
  function InitialMockMode(apiKey: string, constructionRaises: bool): bool {
    apiKey == "" || apiKey == PlaceholderKey || constructionRaises
  }

  /** The content of the first message whose role is "user"; "" when there is none. */
  function FirstUserMessage(messages: seq<ChatMessage>): string {
    if messages == [] then ""
    else if messages[0].role == "user" then messages[0].content
    else FirstUserMessage(messages[1..])
  }

  /** Messages after the first user message do not matter to `FirstUserMessage`. */
  lemma {:induction false} FirstUserMessageIgnoresTail(messages: seq<ChatMessage>, more: seq<ChatMessage>)
    requires exists k :: 0 <= k < |messages| && messages[k].role == "user"
    ensures FirstUserMessage(messages + more) == FirstUserMessage(messages)
    decreases |messages|
  {
    assert (messages + more)[0] == messages[0];
    if messages[0].role != "user" {
      var k :| 0 <= k < |messages| && messages[k].role == "user";
      assert messages[1..][k - 1].role == "user";
      assert (messages + more)[1..] == messages[1..] + more;
      FirstUserMessageIgnoresTail(messages[1..], more);
    }
  }

  const MockAnalysisJson: string :=
    "\n            {\n"
    + "                \"keywords\": [\"iPhone\", \"13\", \"二手\", \"手机\"],\n"
    + "                \"category\": \"数码产品\",\n"
    + "                \"features\": [\"128G\", \"成色较新\", \"功能正常\"],\n"
    + "                \"price_sensitivity\": \"medium\",\n"
    + "                \"quality_requirements\": \"良好\"\n"
    + "            }\n            "

  const MockNegotiationReply: string := "您好！我对这个商品很感兴趣，请问价格还能优惠一些吗？我是诚心想要的。"

  const MockAcknowledgement: string := "好的，我明白了。"

  /**
   * `_mock_response`: routed by the first user message alone. 分析
   * ("analyse") together with 商品需求 ("product requirement") gives the
   * canned JSON; otherwise 谈判 ("negotiate") or 价格 ("price") gives the
   * canned opening line; anything else the acknowledgement. Never empty.
   */
  function MockResponse(messages: seq<ChatMessage>): (r: string)
    ensures |r| > 0
    ensures r in {MockAnalysisJson, MockNegotiationReply, MockAcknowledgement}
  {
    var user := FirstUserMessage(messages);
    if Contains(user, "分析") && Contains(user, "商品需求") then MockAnalysisJson
    else if Contains(user, "谈判") || Contains(user, "价格") then MockNegotiationReply
    else MockAcknowledgement
  }

  /** What one `chat_completion` call amounts to. `attempts` counts the API calls made. */
  datatype ChatRun = ChatRun(reply: Option<string>, enteredMockMode: bool, delays: seq<nat>, attempts: nat)

  function Pow2(n: nat): (p: nat)
    ensures p >= 1
  {
    if n == 0 then 1 else 2 * Pow2(n - 1)
  }

  /** The wait before the next attempt after attempt `k` failed with `o`: 2^k after a connection error, else 1. */
  function RetryDelay(o: ApiOutcome, k: nat): nat {
    if o.ConnectionError? then Pow2(k) else 1
  }

  /** The live-mode retry loop from attempt `attempt` on (`for attempt in range(max_retries)`). */
  function Attempts(messages: seq<ChatMessage>, maxRetries: int, outcomes: seq<ApiOutcome>, attempt: nat): ChatRun
    requires maxRetries <= |outcomes|
    decreases maxRetries - attempt
  {
    if attempt >= maxRetries then ChatRun(None, false, [], 0)
    else
      var last := attempt == maxRetries - 1;
      match outcomes[attempt]
      case Completed(choices) =>
        ChatRun(if |choices| > 0 then choices[0] else None, false, [], 1)
      case ApiError =>
        ChatRun(Some(MockResponse(messages)), false, [], 1)
      case ConnectionError =>
        if last then ChatRun(Some(MockResponse(messages)), true, [], 1)
        else
          var rest := Attempts(messages, maxRetries, outcomes, attempt + 1);
          rest.(delays := [Pow2(attempt)] + rest.delays, attempts := rest.attempts + 1)
      case OtherError =>
        if last then ChatRun(Some(MockResponse(messages)), false, [], 1)
        else
          var rest := Attempts(messages, maxRetries, outcomes, attempt + 1);
          rest.(delays := [1] + rest.delays, attempts := rest.attempts + 1)
  }

  /** `chat_completion`: in mock mode the mock response with no attempt; otherwise the retry loop. */
  function ChatCompletionSpec(mockMode: bool, messages: seq<ChatMessage>, maxRetries: int, outcomes: seq<ApiOutcome>): ChatRun
    requires maxRetries <= |outcomes|
  {
    if mockMode then ChatRun(Some(MockResponse(messages)), false, [], 0)
    else Attempts(messages, maxRetries, outcomes, 0)
  }

  /** An outcome after which the loop goes on (when attempts remain). */
  predicate Retryable(o: ApiOutcome) {
    o.ConnectionError? || o.OtherError?
  }

  /**
   * The retry loop from `attempt`: at most `max_retries - attempt` calls;
   * one delay before every call but the first, each 2^k after a connection
   * error at attempt k and 1 otherwise; every call but the last failed
   * with a retryable error.
   */
  lemma {:induction false} AttemptsShape(messages: seq<ChatMessage>, maxRetries: int, outcomes: seq<ApiOutcome>, attempt: nat)
    requires maxRetries <= |outcomes|
    ensures var run := Attempts(messages, maxRetries, outcomes, attempt);
      && (attempt >= maxRetries ==> run.attempts == 0)
      && (attempt < maxRetries ==> 1 <= run.attempts <= maxRetries - attempt)
      && |run.delays| == (if run.attempts == 0 then 0 else run.attempts - 1)
      && (forall k :: 0 <= k < |run.delays| ==>
            run.delays[k] == RetryDelay(outcomes[attempt + k], attempt + k) && Retryable(outcomes[attempt + k]))
    decreases maxRetries - attempt
  {
    if attempt < maxRetries && Retryable(outcomes[attempt]) && attempt != maxRetries - 1 {
      AttemptsShape(messages, maxRetries, outcomes, attempt + 1);
      var rest := Attempts(messages, maxRetries, outcomes, attempt + 1);
      var run := Attempts(messages, maxRetries, outcomes, attempt);
      assert run.delays == [RetryDelay(outcomes[attempt], attempt)] + rest.delays;
      forall k | 1 <= k < |run.delays|
        ensures run.delays[k] == RetryDelay(outcomes[attempt + k], attempt + k) && Retryable(outcomes[attempt + k])
      {
        assert attempt + 1 + (k - 1) == attempt + k;
        assert run.delays[k] == rest.delays[k - 1];
      }
    }
  }

  /**
   * The loop enters mock mode only on a connection error at the very last
   * attempt, after a run of retryable errors; and it answers None only with
   * `max_retries <= 0`, or when the API completed with no choice or with an
   * empty first choice.
   */
  lemma {:induction false} AttemptsOutcome(messages: seq<ChatMessage>, maxRetries: int, outcomes: seq<ApiOutcome>, attempt: nat)
    requires maxRetries <= |outcomes|
    ensures var run := Attempts(messages, maxRetries, outcomes, attempt);
      && (run.enteredMockMode ==>
            && attempt < maxRetries
            && outcomes[maxRetries - 1].ConnectionError?
            && run.attempts == maxRetries - attempt
            && forall k :: attempt <= k < maxRetries ==> Retryable(outcomes[k]))
      && (run.reply.None? ==>
            attempt >= maxRetries ||
            (0 < run.attempts && attempt + run.attempts - 1 < |outcomes| &&
             var last := outcomes[attempt + run.attempts - 1];
             last.Completed? && (last.choices == [] || last.choices[0].None?)))
    decreases maxRetries - attempt
  {
    if attempt < maxRetries && Retryable(outcomes[attempt]) && attempt != maxRetries - 1 {
      AttemptsOutcome(messages, maxRetries, outcomes, attempt + 1);
      AttemptsShape(messages, maxRetries, outcomes, attempt + 1);
    }
  }

  /** A non-connection API error answers with the mock at once: one attempt, no delay, mode unchanged. */
  lemma ApiErrorAnswersWithMock(messages: seq<ChatMessage>, maxRetries: int, outcomes: seq<ApiOutcome>)
    requires maxRetries <= |outcomes|
    requires 0 < maxRetries && outcomes[0].ApiError?
    ensures ChatCompletionSpec(false, messages, maxRetries, outcomes)
      == ChatRun(Some(MockResponse(messages)), false, [], 1)
  {
  }

  /** Three connection errors with the default `max_retries = 3`: waits of 1 and 2 seconds, then mock mode and the mock reply. */
  lemma ThreeConnectionErrors(messages: seq<ChatMessage>, outcomes: seq<ApiOutcome>)
    requires |outcomes| >= 3
    requires outcomes[0].ConnectionError? && outcomes[1].ConnectionError? && outcomes[2].ConnectionError?
    ensures ChatCompletionSpec(false, messages, 3, outcomes)
      == ChatRun(Some(MockResponse(messages)), true, [1, 2], 3)
  {
    var r2 := Attempts(messages, 3, outcomes, 2);
    assert r2 == ChatRun(Some(MockResponse(messages)), true, [], 1);
    var r1 := Attempts(messages, 3, outcomes, 1);
    assert r1 == ChatRun(Some(MockResponse(messages)), true, [2], 2);
  }

  class DeepSeekClient {
    var mockMode: bool

    /** `__init__`: mock mode iff the key is missing, is the placeholder, or the client constructor raised. */
    constructor (apiKey: string, constructionRaises: bool)
      ensures mockMode == InitialMockMode(apiKey, constructionRaises)
    {
      mockMode := apiKey == "" || apiKey == PlaceholderKey || constructionRaises;
    }

    /**
     * `chat_completion(messages, max_retries=…)` with one outcome per
     * possible attempt. Returns the reply and the waits it slept; mock mode,
     * once on, stays on.
     */
    method ChatCompletion(messages: seq<ChatMessage>, maxRetries: int, outcomes: seq<ApiOutcome>)
      returns (reply: Option<string>, delays: seq<nat>)
      requires maxRetries <= |outcomes|
      modifies this
      ensures var run := ChatCompletionSpec(old(mockMode), messages, maxRetries, outcomes);
        reply == run.reply && delays == run.delays && mockMode == (old(mockMode) || run.enteredMockMode)
      ensures old(mockMode) ==> mockMode && reply == Some(MockResponse(messages)) && delays == []
    {
      if mockMode {
        return Some(MockResponse(messages)), [];
      }
      delays := [];
      var attempt := 0;
      while attempt < maxRetries
        invariant 0 <= attempt
        invariant maxRetries > 0 ==> attempt <= maxRetries
        invariant !mockMode
        invariant var whole := Attempts(messages, maxRetries, outcomes, 0);
          var rest := Attempts(messages, maxRetries, outcomes, attempt);
          whole.reply == rest.reply && whole.enteredMockMode == rest.enteredMockMode
          && whole.delays == delays + rest.delays
        decreases maxRetries - attempt
      {
        var last := attempt == maxRetries - 1;
        match outcomes[attempt] {
          case Completed(choices) =>
            return if |choices| > 0 then choices[0] else None, delays;
          case ApiError =>
            return Some(MockResponse(messages)), delays;
          case ConnectionError =>
            if !last {
              delays := delays + [Pow2(attempt)];
            } else {
              mockMode := true;
              return Some(MockResponse(messages)), delays;
            }
          case OtherError =>
            if !last {
              delays := delays + [1];
            } else {
              return Some(MockResponse(messages)), delays;
            }
        }
        attempt := attempt + 1;
      }
      return None, delays;
    }

    /** The user message that `analyze_product_requirement` sends. */
    static function AnalysisPrompt(query: string): seq<ChatMessage> {
      [ChatMessage("system", AnalysisInstructions), ChatMessage("user", "请分析这个商品需求：" + query)]
    }

    /**
     * `analyze_product_requirement(query)`: a non-empty reply is cleaned of
     * its code fence and parsed; an empty reply or a failed parse gives the
     * default analysis built from `query.split()`.
     */
    method AnalyzeProductRequirement(query: string, outcomes: seq<ApiOutcome>, loads: string -> Option<Analysis>)
      returns (analysis: Analysis)
      requires 3 <= |outcomes|
      modifies this
      ensures var run := ChatCompletionSpec(old(mockMode), AnalysisPrompt(query), 3, outcomes);
        && mockMode == (old(mockMode) || run.enteredMockMode)
        && analysis == AnalysisResult(query, run.reply, loads)
    {
      var reply, _ := ChatCompletion(AnalysisPrompt(query), 3, outcomes);
      analysis := AnalysisResult(query, reply, loads);
    }

    /**
     * `generate_negotiation_message`: the model's reply, or a fixed opening
     * line when the reply is None or empty; never empty.
     */
    method GenerateNegotiationMessage(prompt: string, outcomes: seq<ApiOutcome>) returns (message: string)
      requires 3 <= |outcomes|
      modifies this
      ensures |message| > 0
      ensures var run := ChatCompletionSpec(old(mockMode), NegotiationPrompt(prompt), 3, outcomes);
        && mockMode == (old(mockMode) || run.enteredMockMode)
        && message == OrFallback(run.reply)
    {
      var reply, _ := ChatCompletion(NegotiationPrompt(prompt), 3, outcomes);
      message := OrFallback(reply);
    }
  }

  const AnalysisInstructions: string := "你是一个专业的商品需求分析助手。请分析用户的商品需求，提取关键信息。"

  const NegotiationInstructions: string := "你是一个专业的商品谈判助手。请根据商品信息、卖家信息和对话历史，生成合适的谈判消息。"

  /**
   * The user message of `generate_negotiation_message`, from the rendered
   * product, seller, history and target (Python's `repr` of each is not
   * modelled, so the four texts are inputs).
   */
  function NegotiationUserMessage(product: string, seller: string, history: string, target: string): string {
    "\n                商品信息：" + product
    + "\n                卖家信息：" + seller
    + "\n                对话历史：" + history
    + "\n                目标价格：" + target
    + "\n                \n                请生成下一条谈判消息。\n                "
  }

  function NegotiationPrompt(userMessage: string): seq<ChatMessage> {
    [ChatMessage("system", NegotiationInstructions), ChatMessage("user", userMessage)]
  }

  const FallbackNegotiationMessage: string := "您好，我对这个商品很感兴趣，请问价格还能优惠一些吗？"

  /** `response or "…"`: a non-empty reply, else the fixed opening line. */
  function OrFallback(reply: Option<string>): (m: string)
    ensures |m| > 0
    ensures reply.Some? && reply.value != "" ==> m == reply.value
  {
    if reply.Some? && reply.value != "" then reply.value else FallbackNegotiationMessage
  }

  /**
   * The cleaning before `json.loads`: strip, drop a leading "```json"
   * (7 characters) and a trailing "```" (3 characters), strip again.
   */
  function StripCodeFence(response: string): (r: string)
    ensures r == [] || (!IsSpace(r[0]) && !IsSpace(r[|r| - 1]))
  {
    var t := Strip(response);
    var t1 := if StartsWith(t, "```json") then t[7..] else t;
    var t2 := if EndsWith(t1, "```") then t1[..|t1| - 3] else t1;
    Strip(t2)
  }

  /** Taking the fences off a fenced text by position gives back the text. */
  lemma FenceSlices(b: string)
    ensures var t := "```json" + b + "```";
      StartsWith(t, "```json") && EndsWith(t[7..], "```") && t[7..][..|t| - 10] == b
  {
    var t := "```json" + b + "```";
    assert t[..7] == "```json";
    assert t[7..] == b + "```";
    assert t[7..][|t| - 10..] == "```";
  }

  /** A fenced reply is cleaned down to the text between the fences, when that text has no whitespace at its ends. */
  lemma FencedReplyUnwrapped(b: string)
    requires b == [] || (!IsSpace(b[0]) && !IsSpace(b[|b| - 1]))
    ensures StripCodeFence("```json" + b + "```") == b
  {
    FenceSlices(b);
    var t := "```json" + b + "```";
    assert t[0] == '`' && t[|t| - 1] == '`';
    StripUnchanged(t);
    StripUnchanged(b);
  }

  /** The default analysis: the query's whitespace-separated words as keywords, and fixed fields. */
  function DefaultAnalysis(query: string): (a: Analysis)
    ensures a.AnalysisObject? && a.keywords == KeywordArray(StringItems(Split(query)))
    ensures a.category == "未知" && a.features == [] && a.priceSensitivity == "medium" && a.qualityRequirements == "标准"
  {
    AnalysisObject(KeywordArray(StringItems(Split(query))), "未知", [], "medium", "标准")
  }

  /**
   * The result of `analyze_product_requirement` given the chat reply and
   * the parser (None for a reply that is not JSON). Whatever JSON value
   * the cleaned reply holds is returned as it is, object or not.
   */
  function AnalysisResult(query: string, reply: Option<string>, loads: string -> Option<Analysis>): (a: Analysis)
    ensures (reply.None? || reply.value == "") ==> a == DefaultAnalysis(query)
    ensures reply.Some? && reply.value != "" && loads(StripCodeFence(reply.value)).Some? ==>
      a == loads(StripCodeFence(reply.value)).value
    ensures reply.Some? && reply.value != "" && loads(StripCodeFence(reply.value)).None? ==>
      a == DefaultAnalysis(query)
  {
    if reply.Some? && reply.value != "" then
      match loads(StripCodeFence(reply.value))
      case Some(parsed) => parsed
      case None => DefaultAnalysis(query)
    else DefaultAnalysis(query)
  }

  /** In mock mode the analysis prompt is always answered with the canned JSON, whatever the query. */
  lemma MockAnswersAnalysisWithJson(query: string, outcomes: seq<ApiOutcome>)
    requires 3 <= |outcomes|
    ensures ChatCompletionSpec(true, DeepSeekClient.AnalysisPrompt(query), 3, outcomes).reply == Some(MockAnalysisJson)
  {
    var u := "请分析这个商品需求：" + query;
    assert FirstUserMessage(DeepSeekClient.AnalysisPrompt(query)) == u;
    var head := "请分析这个商品需求：";
    assert head == "请" + "分析" + "这个商品需求：";
    assert head == "请分析这个" + "商品需求" + "：";
    ContainsInLeft("分析", "这个商品需求：", "分析");
    ContainsInRight("请", "分析" + "这个商品需求：", "分析");
    assert ("请" + "分析") + "这个商品需求：" == "请" + ("分析" + "这个商品需求：");
    ContainsInLeft("商品需求", "：", "商品需求");
    ContainsInRight("请分析这个", "商品需求" + "：", "商品需求");
    assert ("请分析这个" + "商品需求") + "：" == "请分析这个" + ("商品需求" + "：");
    ContainsInLeft(head, query, "分析");
    ContainsInLeft(head, query, "商品需求");
  }
}
