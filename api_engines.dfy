/**
 * The retry loops of the provider gateway. The provider client is abstracted
 * to an oracle `call`: `call(i)` is what the client does on attempt `i`
 * (counting from 0). Sleeps are not performed; each method returns the
 * delays, in seconds, it would have slept, in order.
 */
module ApiEngines {

  import opened Wrappers
  import opened ApiConfigs

  /** What one client call does. */
  datatype CallOutcome<R> =
    | Success(response: R)
    | BadRequest       // the client's bad-request error
    | RateLimit        // the client's rate-limit error
    | ConnectionError  // the client's connection error
    | OtherApiError    // any other error of the client library
    | NonApiError      // an exception that is not one of the client library's errors

  /** Exceptions that leave an engine. */
  datatype EngineError =
    | InvalidApiRequest  // `Exception("Invalid API Request")` after a bad request
    | Propagated         // an exception the engine does not catch
    | ClientNotInstalled // the `ImportError` raised when the Gemini client is missing

  datatype EngineResult<R> = Returned(response: Option<R>) | Raised(error: EngineError)

  /** The engines' default `max_retries`. */
  const DefaultMaxRetries := 40

  /** How many attempts `while ... and retries < max_retries` allows. */
  function AttemptBound(maxRetries: int): nat {
    if maxRetries > 0 then maxRetries else 0
  }

  /** The sum of a list of delays. */
  function Total(s: seq<nat>): nat {
    if s == [] then 0 else Total(s[..|s| - 1]) + s[|s| - 1]
  }

  // ---------------------------------------------------------------------------
  // request_chatgpt_engine
  // ---------------------------------------------------------------------------

  /** The errors after which the ChatGPT engine waits and tries again. */
  predicate ChatgptRetries<R>(o: CallOutcome<R>) {
    o.RateLimit? || o.ConnectionError? || o.OtherApiError?
  }

  /** The sleep after a retried error: 5 s for rate limit and connection errors, else 1 s. */
  function ChatgptDelay<R>(o: CallOutcome<R>): (d: nat)
    ensures 1 <= d <= 5
    ensures d == 5 <==> o.RateLimit? || o.ConnectionError?
    ensures !(o.RateLimit? || o.ConnectionError?) ==> d == 1
  {
    if o.RateLimit? || o.ConnectionError? then 5 else 1
  }

  /**
   * `request_chatgpt_engine`: at most `max_retries` attempts, stopping at the
   * first response; a bad request raises at once, an exception from outside
   * the client library escapes; when every attempt is retried the result is
   * None.
   */
  method RequestChatgptEngine<R>(call: nat -> CallOutcome<R>, maxRetries: int := DefaultMaxRetries)
    returns (result: EngineResult<R>, attempts: nat, sleeps: seq<nat>)
    ensures attempts <= AttemptBound(maxRetries)
    ensures forall i :: 0 <= i < attempts - 1 ==> ChatgptRetries(call(i))
    ensures attempts < AttemptBound(maxRetries) ==> attempts > 0 && !ChatgptRetries(call(attempts - 1))
    ensures (result.Returned? && result.response.Some?) <==> attempts > 0 && call(attempts - 1).Success?
    ensures attempts > 0 && call(attempts - 1).Success? ==> result == Returned(Some(call(attempts - 1).response))
    ensures result == Raised(InvalidApiRequest) <==> attempts > 0 && call(attempts - 1).BadRequest?
    ensures result == Raised(Propagated) <==> attempts > 0 && call(attempts - 1).NonApiError?
    ensures result == Returned(None) ==> attempts == AttemptBound(maxRetries)
    ensures (forall i :: 0 <= i < attempts ==> ChatgptRetries(call(i))) ==> result == Returned(None)
    ensures result != Raised(ClientNotInstalled)
    ensures |sleeps| == if result == Returned(None) then attempts else attempts - 1
    ensures forall i :: 0 <= i < |sleeps| ==> sleeps[i] == ChatgptDelay(call(i))
  {
    var ret: Option<R> := None;
    var retries: nat := 0;
    sleeps := [];
    while ret.None? && retries < maxRetries
      invariant retries <= AttemptBound(maxRetries)
      invariant ret.None? ==> (forall i :: 0 <= i < retries ==> ChatgptRetries(call(i))) && |sleeps| == retries
      invariant ret.Some? ==>
                  && 0 < retries
                  && (forall i :: 0 <= i < retries - 1 ==> ChatgptRetries(call(i)))
                  && call(retries - 1) == Success(ret.value)
                  && |sleeps| == retries - 1
      invariant forall i :: 0 <= i < |sleeps| ==> sleeps[i] == ChatgptDelay(call(i))
      decreases AttemptBound(maxRetries) - retries
    {
      var outcome := call(retries);
      match outcome {
        case Success(r) =>
          ret := Some(r);
        case BadRequest =>
          return Raised(InvalidApiRequest), retries + 1, sleeps;
        case NonApiError =>
          return Raised(Propagated), retries + 1, sleeps;
        case _ =>
          sleeps := sleeps + [ChatgptDelay(outcome)];
      }
      retries := retries + 1;
    }
    return Returned(ret), retries, sleeps;
  }

  /** The ChatGPT engine never waits more than 5 s per attempt. */
  lemma {:induction false} ChatgptTotalWait<R>(call: nat -> CallOutcome<R>, sleeps: seq<nat>)
    requires forall i :: 0 <= i < |sleeps| ==> sleeps[i] == ChatgptDelay(call(i))
    ensures |sleeps| <= Total(sleeps) <= 5 * |sleeps|
  {
    if sleeps != [] {
      ChatgptTotalWait(call, sleeps[..|sleeps| - 1]);
    }
  }

  // ---------------------------------------------------------------------------
  // request_anthropic_engine
  // ---------------------------------------------------------------------------

  /** The first message has a content list with at least one block: `[0]["content"][0]` is an object. */
  predicate CacheMarkable(config: AnthropicConfig) {
    && |config.messages| > 0
    && config.messages[0].Message?
    && config.messages[0].content.Some?
    && config.messages[0].content.value.Blocks?
    && |config.messages[0].content.value.blocks| > 0
  }

  function FirstBlocks(config: AnthropicConfig): seq<Block>
    requires CacheMarkable(config)
  {
    config.messages[0].content.value.blocks
  }

  /**
   * `config["messages"][0]["content"][0]["cache_control"] = {"type": "ephemeral"}`,
   * or None where that statement raises (no message, a message that is not
   * an object or has no content, a string content, an empty block list).
   */
  function MarkCacheControl(config: AnthropicConfig): (r: Option<AnthropicConfig>)
    ensures r.Some? <==> CacheMarkable(config)
    ensures r.Some? ==>
              && CacheMarkable(r.value)
              && r.value.(messages := config.messages) == config
              && |r.value.messages| == |config.messages|
              && r.value.messages[1..] == config.messages[1..]
              && r.value.messages[0].role == config.messages[0].role
              && |FirstBlocks(r.value)| == |FirstBlocks(config)|
              && FirstBlocks(r.value)[1..] == FirstBlocks(config)[1..]
              && FirstBlocks(r.value)[0] == FirstBlocks(config)[0].(cacheControl := Some(Ephemeral))
  {
    if !CacheMarkable(config) then None
    else
      var first := config.messages[0];
      var blocks := first.content.value.blocks;
      var marked := blocks[0 := blocks[0].(cacheControl := Some(Ephemeral))];
      Some(config.(messages := config.messages[0 := first.(content := Some(Blocks(marked)))]))
  }

  /** Marking again on a retry changes nothing. */
  lemma MarkCacheControlIdempotent(config: AnthropicConfig)
    requires CacheMarkable(config)
    ensures MarkCacheControl(MarkCacheControl(config).value) == MarkCacheControl(config)
  {
    var once := MarkCacheControl(config).value;
    var twice := MarkCacheControl(once).value;
    assert FirstBlocks(twice) == FirstBlocks(once);
    assert twice.messages[0] == once.messages[0];
    assert twice.messages == once.messages;
  }

  /** A config built from a string prompt can always be marked for prompt caching. */
  lemma TextPromptCacheable(text: string, maxTokens: int, temperature: real, batchSize: int,
                            systemMessage: string, model: string, tools: Option<seq<Tool>>)
    ensures CacheMarkable(CreateAnthropicConfig(PromptText(text), maxTokens, temperature, batchSize,
                                                systemMessage, model, tools))
  {
  }

  /** An attempt of the Anthropic engine yields a response. */
  predicate AnthropicSucceeds<R>(config: AnthropicConfig, promptCache: bool, o: CallOutcome<R>) {
    (!promptCache || CacheMarkable(config)) && o.Success?
  }

  /** The sleeps after `k` failed attempts: `10 * retries`, counted before the increment. */
  function AnthropicSchedule(k: nat): (s: seq<nat>)
    ensures |s| == k
    ensures forall i :: 0 <= i < k ==> s[i] == 10 * i
  {
    if k == 0 then [] else AnthropicSchedule(k - 1) + [10 * (k - 1)]
  }

  /**
   * `request_anthropic_engine`: every exception is caught and retried after
   * `10 * retries` seconds, so the first retry waits 0 s; at most
   * `max_retries` attempts, stopping at the first response. With
   * `prompt_cache` the first content block is marked before each call;
   * where it cannot be marked every attempt fails without a call. `sent` is
   * the config as the caller sees it afterwards.
   */
  method RequestAnthropicEngine<R>(config: AnthropicConfig, call: nat -> CallOutcome<R>,
                                   maxRetries: int := DefaultMaxRetries, promptCache: bool := false)
    returns (result: Option<R>, attempts: nat, sleeps: seq<nat>, sent: AnthropicConfig)
    ensures attempts <= AttemptBound(maxRetries)
    ensures forall i :: 0 <= i < attempts - 1 ==> !AnthropicSucceeds(config, promptCache, call(i))
    ensures attempts < AttemptBound(maxRetries) ==>
              attempts > 0 && AnthropicSucceeds(config, promptCache, call(attempts - 1))
    ensures result.Some? <==> attempts > 0 && AnthropicSucceeds(config, promptCache, call(attempts - 1))
    ensures result.Some? ==> result.value == call(attempts - 1).response
    ensures sleeps == AnthropicSchedule(if result.Some? then attempts - 1 else attempts)
    ensures promptCache && !CacheMarkable(config) ==> result == None && attempts == AttemptBound(maxRetries)
    ensures sent == if promptCache && attempts > 0 && CacheMarkable(config)
                    then MarkCacheControl(config).value else config
  {
    var ret: Option<R> := None;
    var retries: nat := 0;
    sleeps := [];
    sent := config;
    while ret.None? && retries < maxRetries
      invariant retries <= AttemptBound(maxRetries)
      invariant ret.None? ==>
                  && (forall i :: 0 <= i < retries ==> !AnthropicSucceeds(config, promptCache, call(i)))
                  && sleeps == AnthropicSchedule(retries)
      invariant ret.Some? ==>
                  && 0 < retries
                  && (forall i :: 0 <= i < retries - 1 ==> !AnthropicSucceeds(config, promptCache, call(i)))
                  && AnthropicSucceeds(config, promptCache, call(retries - 1))
                  && ret.value == call(retries - 1).response
                  && sleeps == AnthropicSchedule(retries - 1)
      invariant sent == if promptCache && retries > 0 && CacheMarkable(config)
                        then MarkCacheControl(config).value else config
      decreases AttemptBound(maxRetries) - retries
    {
      var failed := false;
      if promptCache {
        if CacheMarkable(config) {
          MarkCacheControlIdempotent(config);
        }
        var marked := MarkCacheControl(sent);
        if marked.None? {
          failed := true;
        } else {
          sent := marked.value;
        }
      }
      if !failed {
        var outcome := call(retries);
        if outcome.Success? {
          ret := Some(outcome.response);
        } else {
          failed := true;
        }
      }
      if failed {
        sleeps := sleeps + [10 * retries];
      }
      retries := retries + 1;
    }
    return ret, retries, sleeps, sent;
  }

  lemma TotalAppend(s: seq<nat>, x: nat)
    ensures Total(s + [x]) == Total(s) + x
  {
    assert (s + [x])[..|s|] == s;
  }

  /** After `k` failures the Anthropic engine has slept 10 * (0 + 1 + ... + (k - 1)) s. */
  lemma {:induction false} AnthropicTotalWait(k: nat)
    ensures Total(AnthropicSchedule(k)) == 5 * k * (k - 1)
  {
    if k > 0 {
      var prev := AnthropicSchedule(k - 1);
      AnthropicTotalWait(k - 1);
      TotalAppend(prev, 10 * (k - 1));
      TriangleStep(k - 1);
    }
  }

  lemma TriangleStep(t: int)
    ensures 5 * t * (t - 1) + 10 * t == 5 * (t + 1) * t
  {
    calc {
      5 * t * (t - 1) + 10 * t;
      5 * t * t - 5 * t + 10 * t;
      5 * (t + 1) * t;
    }
  }

  // ---------------------------------------------------------------------------
  // request_vertexai_engine and VertexAIResponse
  // ---------------------------------------------------------------------------

  /** A Gemini client response: it has a `text` attribute (possibly None), or it has none. */
  datatype VertexReply = WithText(text: Option<string>) | WithoutText(rendered: string)

  /** `response.text if hasattr(response, 'text') else str(response)`; None is kept as None. */
  function ReplyText(reply: VertexReply): (t: Option<string>)
    ensures t.None? <==> reply == WithText(None)
    ensures reply.WithText? ==> t == reply.text
    ensures reply.WithoutText? ==> t == Some(reply.rendered)
  {
    match reply
    case WithText(t) => t
    case WithoutText(s) => Some(s)
  }

  class VertexAIUsage {
    var inputTokens: int
    var outputTokens: int
    var cacheCreationInputTokens: int
    var cacheReadInputTokens: int

    constructor (inputTokens: int, outputTokens: int, cacheCreationInputTokens: int, cacheReadInputTokens: int)
      ensures this.inputTokens == inputTokens && this.outputTokens == outputTokens
      ensures this.cacheCreationInputTokens == cacheCreationInputTokens
      ensures this.cacheReadInputTokens == cacheReadInputTokens
    {
      this.inputTokens := inputTokens;
      this.outputTokens := outputTokens;
      this.cacheCreationInputTokens := cacheCreationInputTokens;
      this.cacheReadInputTokens := cacheReadInputTokens;
    }
  }

  /** The usage part of `to_dict()`. */
  datatype UsageDict = UsageDict(inputTokens: int, outputTokens: int)

  /** `to_dict()`: the text and the two usage counts, nothing else. */
  datatype ResponseDict = ResponseDict(text: string, usage: UsageDict)

  class VertexAIResponse {
    var response: VertexReply
    var text: string
    var usage: VertexAIUsage

    /** The usage the constructor estimates: no input or cache tokens, one output token per 4 characters. */
    ghost predicate Valid()
      reads this, usage
    {
      && usage.inputTokens == 0
      && usage.outputTokens == |text| / 4
      && usage.cacheCreationInputTokens == 0
      && usage.cacheReadInputTokens == 0
    }

    /** The source's `len(self.text)` raises on a None text, so a text must be there. */
    constructor (response: VertexReply)
      requires ReplyText(response).Some?
      ensures this.response == response && text == ReplyText(response).value
      ensures Valid() && fresh(usage)
    {
      var t := ReplyText(response).value;
      this.response := response;
      text := t;
      usage := new VertexAIUsage(0, |t| / 4, 0, 0);
    }

    function ToDict(): (d: ResponseDict)
      reads this, usage
      requires Valid()
      ensures d.text == text
      ensures d.usage.inputTokens == 0
      ensures 4 * d.usage.outputTokens <= |d.text| < 4 * d.usage.outputTokens + 4
    {
      ResponseDict(text, UsageDict(usage.inputTokens, usage.outputTokens))
    }
  }

  /** An attempt of the Vertex engine yields a wrapped response. */
  predicate VertexSucceeds(o: CallOutcome<VertexReply>) {
    o.Success? && ReplyText(o.response).Some?
  }

  /** `min(5 * (retries + 1), 60)` */
  function VertexBackoff(retries: nat): (w: nat)
    ensures 5 <= w <= 60
    ensures retries < 11 ==> w == 5 * (retries + 1)
  {
    if 5 * (retries + 1) < 60 then 5 * (retries + 1) else 60
  }

  /** The sleeps after the first `k` failed attempts. */
  function VertexSchedule(k: nat): (s: seq<nat>)
    ensures |s| == k
    ensures forall i :: 0 <= i < k ==> s[i] == VertexBackoff(i)
  {
    if k == 0 then [] else VertexSchedule(k - 1) + [VertexBackoff(k - 1)]
  }

  /**
   * `request_vertexai_engine`: with the client missing, an import error and
   * no attempt; otherwise at most `max_retries` attempts, stopping at the
   * first response that could be wrapped, with a wait of
   * `min(5 * (retries + 1), 60)` after every failed attempt except the last
   * one allowed.
   */
  method RequestVertexaiEngine(clientInstalled: bool, call: nat -> CallOutcome<VertexReply>,
                                maxRetries: int := DefaultMaxRetries)
    returns (result: EngineResult<VertexAIResponse>, attempts: nat, sleeps: seq<nat>)
    ensures !clientInstalled ==> result == Raised(ClientNotInstalled) && attempts == 0 && sleeps == []
    ensures clientInstalled ==> result.Returned?
    ensures attempts <= AttemptBound(maxRetries)
    ensures forall i :: 0 <= i < attempts - 1 ==> !VertexSucceeds(call(i))
    ensures clientInstalled && attempts < AttemptBound(maxRetries) ==>
              attempts > 0 && VertexSucceeds(call(attempts - 1))
    ensures (result.Returned? && result.response.Some?) <==> attempts > 0 && VertexSucceeds(call(attempts - 1))
    ensures result.Returned? && result.response.Some? ==>
              && result.response.value.Valid()
              && result.response.value.response == call(attempts - 1).response
              && result.response.value.text == ReplyText(call(attempts - 1).response).value
    ensures sleeps == VertexSchedule(if attempts > 0 then attempts - 1 else 0)
  {
    if !clientInstalled {
      return Raised(ClientNotInstalled), 0, [];
    }
    var ret: VertexAIResponse? := null;
    var retries: nat := 0;
    sleeps := [];
    while ret == null && retries < maxRetries
      invariant retries <= AttemptBound(maxRetries)
      invariant ret == null ==>
                  && (forall i :: 0 <= i < retries ==> !VertexSucceeds(call(i)))
                  && sleeps == VertexSchedule(if retries > 0 && retries == maxRetries then retries - 1 else retries)
      invariant ret != null ==>
                  && 0 < retries
                  && (forall i :: 0 <= i < retries - 1 ==> !VertexSucceeds(call(i)))
                  && VertexSucceeds(call(retries - 1))
                  && ret.Valid()
                  && ret.response == call(retries - 1).response
                  && ret.text == ReplyText(call(retries - 1).response).value
                  && sleeps == VertexSchedule(retries - 1)
      decreases AttemptBound(maxRetries) - retries
    {
      var outcome := call(retries);
      if outcome.Success? && ReplyText(outcome.response).Some? {
        ret := new VertexAIResponse(outcome.response);
      } else if retries < maxRetries - 1 {
        sleeps := sleeps + [VertexBackoff(retries)];
      }
      retries := retries + 1;
    }
    if ret == null {
      result := Returned(None);
    } else {
      var wrapped: VertexAIResponse := ret;
      result := Returned(Some(wrapped));
    }
    attempts := retries;
  }

  /**
   * The Vertex wait grows by 5 s per retry and stays at 60 s from the
   * twelfth retry on: linear and capped, not exponential.
   */
  lemma VertexBackoffLinearCapped(i: nat, j: nat)
    requires i <= j
    ensures 5 <= VertexBackoff(i) <= VertexBackoff(j) <= 60
    ensures i < 11 ==> VertexBackoff(i) == 5 * (i + 1)
    ensures VertexBackoff(i) == 60 <==> i >= 11
  {
  }

  /** However many attempts fail, the Vertex engine waits at most 60 s per failed attempt. */
  lemma {:induction false} VertexTotalWait(k: nat)
    ensures 5 * k <= Total(VertexSchedule(k)) <= 60 * k
  {
    if k > 0 {
      var prev, d := VertexSchedule(k - 1), VertexBackoff(k - 1);
      VertexTotalWait(k - 1);
      TotalAppend(prev, d);
      assert VertexSchedule(k) == prev + [d];
      assert 5 <= d <= 60;
    }
  }
}
