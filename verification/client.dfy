/**
 * The cache-then-call verifier (`verifyWithGPT`). The model call, the API
 * key lookup, `JSON.parse` and the cache-key function are outside the model:
 * they arrive as a `Backend` and as the `model` oracle.
 */
module Client {
  import opened Wrappers
  import opened Types
  import opened Text
  import Prompt

  /** What a `catch` block receives: an `Error` object with its message, or any other thrown value. */
  datatype Thrown = ErrorObject(message: string) | NonErrorValue

  /** The three fields read off the parsed response; `None` is a missing field. */
  datatype Fields = Fields(confidence: Option<string>, summaryOfSources: Option<string>, reasoning: Option<string>)

  /**
   * The outcome of decoding the response text: `JSON.parse` threw, or the
   * field reads on the parsed value threw (a JSON `null`), with that message;
   * or the three fields were read.
   */
  datatype Decoded = DecodeFailed(message: string) | Parsed(fields: Fields)

  /**
   * One call to the model: the awaited request was rejected, or it completed
   * with the first choice's message content ("" when that content is empty,
   * `null` or absent).
   */
  datatype Reply = Rejected(thrown: Thrown) | Completed(content: string)

  /**
   * The environment of the verifier: the configured API key ("" when unset),
   * the cache-key function, the JSON decoder and the fixed prompt wording
   * (`Prompt.FixedWording()` in the deployed service).
   */
  datatype Backend = Backend(apiKey: string, keyOf: Input -> string, decode: string -> Decoded, wording: Prompt.Wording)

  /** The prompt sent for `input`: `createVerificationPrompt` with the backend's wording. */
  function PromptFor(b: Backend, input: Input): string {
    Prompt.PromptWith(b.wording, input)
  }

  /** A backend with the deployed wording sends exactly `createVerificationPrompt`'s text. */
  lemma DeployedPromptIsCreated(b: Backend, input: Input)
    requires b.wording == Prompt.FixedWording()
    ensures PromptFor(b, input) == Prompt.CreateVerificationPrompt(input)
  {
  }

  /** The verification cache with its hit and miss counters. */
  datatype Cache = Cache(entries: map<string, Output>, hits: nat, misses: nat)

  /**
   * The result of one `verifyWithGPT` call: the output, the cache after it,
   * whether the model was called, and whether the output came from the
   * `catch` block.
   */
  datatype Step = Step(output: Output, cache: Cache, calledModel: bool, failed: bool)

  const NoKeySummary := "OpenAI API 키가 설정되지 않았습니다"
  const NoKeyReasoning := "OpenAI API 키 없이는 검증을 수행할 수 없습니다. OPENAI_API_KEY 환경 변수를 설정해주세요."
  const FailureSummary := "오류로 인해 검증에 실패했습니다"
  const FailurePrefix := "검증 중 오류 발생: "
  const UnknownFailure := "검증 중 알 수 없는 오류가 발생했습니다"

  const EmptyResponse := "Empty response from GPT"
  const InvalidStructure := "Invalid response structure from GPT"
  const InvalidConfidence := "Invalid confidence value: "

  /** The fixed output returned when no API key is configured. */
  function NoKeyOutput(): Output {
    Output(Low, NoKeySummary, NoKeyReasoning)
  }

  /** The output the `catch` block builds from what it caught. */
  function FailureOutput(t: Thrown): (o: Output)
    ensures o.confidence == Low && o.summaryOfSources == FailureSummary
    ensures t.ErrorObject? ==> o.reasoning == FailurePrefix + t.message
    ensures t.NonErrorValue? ==> o.reasoning == UnknownFailure
  {
    var reasoning := match t
      case ErrorObject(m) => FailurePrefix + m
      case NonErrorValue => UnknownFailure;
    Output(Low, FailureSummary, reasoning)
  }

  /** JavaScript truthiness of an optional string field. */
  predicate Truthy(f: Option<string>) {
    f.Some? && f.value != ""
  }

  /** The verdict a confidence text names, if it is one of the three accepted spellings. */
  function ParseConfidence(text: string): (c: Option<Confidence>)
    ensures c.Some? ==> c.value.Text() == text
    ensures forall v: Confidence :: v.Text() == text ==> c == Some(v)
  {
    if text == "high" then Some(High)
    else if text == "medium" then Some(Medium)
    else if text == "low" then Some(Low)
    else None
  }

  /**
   * The reply is a non-empty text that decodes to exactly the fields of `o`,
   * with a non-empty summary and reasoning: the JSON encoding of a verdict.
   */
  predicate Carries(reply: Reply, decode: string -> Decoded, o: Output) {
    && reply.Completed?
    && reply.content != ""
    && decode(reply.content) == Parsed(Fields(Some(o.confidence.Text()), Some(o.summaryOfSources), Some(o.reasoning)))
    && o.summaryOfSources != ""
    && o.reasoning != ""
  }

  /** The `try` block after the model call: validate the reply or throw. */
  function Interpret(reply: Reply, decode: string -> Decoded): (r: Result<Output, Thrown>)
    ensures r.Success? ==> Carries(reply, decode, r.value)
    ensures forall o :: Carries(reply, decode, o) ==> r == Success(o)
  {
    match reply
    case Rejected(t) => Failure(t)
    case Completed(text) =>
      if text == "" then Failure(ErrorObject(EmptyResponse))
      else match decode(text)
        case DecodeFailed(m) => Failure(ErrorObject(m))
        case Parsed(f) =>
          if !Truthy(f.confidence) || !Truthy(f.summaryOfSources) || !Truthy(f.reasoning) then
            Failure(ErrorObject(InvalidStructure))
          else match ParseConfidence(f.confidence.value)
            case None => Failure(ErrorObject(InvalidConfidence + f.confidence.value))
            case Some(c) => Success(Output(c, f.summaryOfSources.value, f.reasoning.value))
  }

  /** No reply carries a verdict: the model call counts as a failure. */
  ghost predicate Unusable(reply: Reply, decode: string -> Decoded) {
    forall o :: !Carries(reply, decode, o)
  }

  /** `after` holds everything `before` held, under the same keys. */
  predicate Extends(before: Cache, after: Cache) {
    forall k :: k in before.entries ==> k in after.entries && after.entries[k] == before.entries[k]
  }

  /**
   * `verifyWithGPT`: answer from the cache, or fall back when no key is
   * configured, or ask the model with the built prompt and keep a valid
   * answer in the cache. It never throws: every failure becomes a
   * low-confidence output.
   */
  function VerifyWithGPT(b: Backend, input: Input, cache: Cache, model: string -> Reply): (r: Step)
    // every call is one lookup, counted once as a hit or a miss
    ensures r.cache.hits + r.cache.misses == cache.hits + cache.misses + 1
    // the cache only grows
    ensures Extends(cache, r.cache)
    ensures r.failed ==> r.output.confidence == Low && r.calledModel
    // a hit: the stored value, no model call, only the hit counter moves
    ensures b.keyOf(input) in cache.entries ==>
      && r.output == cache.entries[b.keyOf(input)]
      && r.cache == cache.(hits := cache.hits + 1)
      && !r.calledModel && !r.failed
    // a miss without a key: the fixed output, nothing stored
    ensures b.keyOf(input) !in cache.entries && b.apiKey == "" ==>
      && r.output == NoKeyOutput()
      && r.cache == cache.(misses := cache.misses + 1)
      && !r.calledModel && !r.failed
    // a miss with a key: the model is asked about this input's prompt
    ensures b.keyOf(input) !in cache.entries && b.apiKey != "" ==>
      var reply := model(PromptFor(b, input));
      && r.calledModel
      && r.cache.hits == cache.hits && r.cache.misses == cache.misses + 1
      // a valid reply is returned and stored under the input's key
      && (forall o :: Carries(reply, b.decode, o) ==>
            r.output == o && !r.failed && r.cache.entries == cache.entries[b.keyOf(input) := o])
      // any other reply gives a low-confidence output and stores nothing
      && (Unusable(reply, b.decode) ==> r.failed && r.cache.entries == cache.entries)
  {
    var key := b.keyOf(input);
    if key in cache.entries then
      Step(cache.entries[key], cache.(hits := cache.hits + 1), false, false)
    else
      var missed := cache.(misses := cache.misses + 1);
      if b.apiKey == "" then
        Step(NoKeyOutput(), missed, false, false)
      else
        match Interpret(model(PromptFor(b, input)), b.decode)
        case Success(o) => Step(o, missed.(entries := missed.entries[key := o]), true, false)
        case Failure(t) => Step(FailureOutput(t), missed, true, true)
  }

  /** Every stored verdict came from a valid reply, so its texts are non-empty. */
  ghost predicate Sound(cache: Cache) {
    forall k :: k in cache.entries ==>
      cache.entries[k].summaryOfSources != "" && cache.entries[k].reasoning != ""
  }

  /** Verification keeps the cache sound, and then every output it gives carries texts. */
  lemma VerifyKeepsCacheSound(b: Backend, input: Input, cache: Cache, model: string -> Reply)
    requires Sound(cache)
    ensures var r := VerifyWithGPT(b, input, cache, model);
            Sound(r.cache) && r.output.summaryOfSources != "" && r.output.reasoning != ""
  {
    var r := VerifyWithGPT(b, input, cache, model);
    var key := b.keyOf(input);
    if key !in cache.entries && b.apiKey != "" {
      var reply := model(PromptFor(b, input));
      match Interpret(reply, b.decode)
      case Success(o) =>
        assert Carries(reply, b.decode, o);
      case Failure(t) =>
    }
  }

  /**
   * Once a verdict is stored, asking again about the same input returns it
   * unchanged, whatever the model would have answered, without calling it.
   */
  lemma StoredVerdictIsReused(b: Backend, input: Input, cache: Cache, model: string -> Reply, again: string -> Reply)
    requires b.keyOf(input) !in cache.entries && b.apiKey != ""
    requires !VerifyWithGPT(b, input, cache, model).failed
    ensures var first := VerifyWithGPT(b, input, cache, model);
            var second := VerifyWithGPT(b, input, first.cache, again);
            second.output == first.output && !second.calledModel && second.cache.entries == first.cache.entries
  {
    var reply := model(PromptFor(b, input));
    match Interpret(reply, b.decode)
    case Success(o) =>
      assert Carries(reply, b.decode, o);
    case Failure(t) =>
  }

  /**
   * The degraded no-key output is never stored: asking again without a key
   * misses again.
   */
  lemma NoKeyOutputNeverCached(b: Backend, input: Input, cache: Cache, model: string -> Reply, again: string -> Reply)
    requires b.keyOf(input) !in cache.entries && b.apiKey == ""
    ensures var first := VerifyWithGPT(b, input, cache, model);
            var second := VerifyWithGPT(b, input, first.cache, again);
            && second.output == NoKeyOutput()
            && second.cache.misses == cache.misses + 2
            && second.cache.entries == cache.entries
  {
  }
}
