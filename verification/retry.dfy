/**
 * The retry wrapper (`verifyWithRetry`) and the batch entry point
 * (`batchVerify`). Attempt `k` of a retry asks the model through
 * `oracle(k)`; in a batch, input `i` uses `oracles(i)`.
 */
module Retry {
  import opened Wrappers
  import opened Types
  import opened Text
  import opened Client

  const DefaultMaxRetries := 2

  /** The substring whose presence in a low-confidence reasoning triggers a retry. */
  const ErrorMarker := "Error"

  const GaveUpSummary := "여러 번 시도했지만 검증에 실패했습니다"

  /** The loop's exit test: keep a result that is not low, or whose reasoning lacks the marker. */
  predicate Accepts(o: Output) {
    o.confidence != Low || !Includes(o.reasoning, ErrorMarker)
  }

  /** The output after the last attempt was rejected, reporting the last error's message if any. */
  function GiveUp(lastError: Option<string>): (o: Output)
    ensures o.confidence == Low && o.summaryOfSources == GaveUpSummary
    ensures lastError.Some? && lastError.value != "" ==> o.reasoning == lastError.value
    ensures !(lastError.Some? && lastError.value != "") ==> o.reasoning == UnknownFailure
  {
    var reasoning := if lastError.Some? && lastError.value != "" then lastError.value else UnknownFailure;
    Output(Low, GaveUpSummary, reasoning)
  }

  /** How many attempts the retry loop makes: attempts `0..maxRetries`, none when the bound is negative. */
  function Attempts(maxRetries: int): nat {
    if maxRetries < 0 then 0 else maxRetries + 1
  }

  /** A finished retry: the output, the cache after it and the `verifyWithGPT` steps taken. */
  datatype Run = Run(output: Output, cache: Cache, trace: seq<Step>)

  function Last(trace: seq<Step>): Step
    requires |trace| > 0
  {
    trace[|trace| - 1]
  }

  /** The cache a run leaves: the last step's, or the initial one when no step ran. */
  function CacheAfterTrace(cache: Cache, trace: seq<Step>): Cache {
    if |trace| == 0 then cache else Last(trace).cache
  }

  /**
   * The first `n` calls of the verifier on `input`, made back to back with
   * no exit test: each starts from the cache the previous one left, and
   * call `k` asks the model through `oracle(from + k)`.
   */
  function Replay(b: Backend, input: Input, cache: Cache, oracle: nat -> string -> Reply, from: nat, n: nat): (steps: seq<Step>)
    ensures |steps| == n
    decreases n
  {
    if n == 0 then []
    else
      var step := VerifyWithGPT(b, input, cache, oracle(from));
      [step] + Replay(b, input, step.cache, oracle, from + 1, n - 1)
  }

  /**
   * Attempts `attempt..maxRetries` of the retry loop: call the verifier,
   * stop at the first step `accept` keeps, otherwise remember the step's
   * reasoning as the last error and go on. `lastError` is the message kept
   * so far.
   */
  function RetryLoop(b: Backend, input: Input, cache: Cache, maxRetries: int, attempt: nat,
                     oracle: nat -> string -> Reply, lastError: Option<string>, accept: Step -> bool): (r: Run)
    ensures attempt > maxRetries ==> r.trace == [] && r.output == GiveUp(lastError)
    ensures attempt <= maxRetries ==> 1 <= |r.trace| <= maxRetries + 1 - attempt
    ensures r.trace == Replay(b, input, cache, oracle, attempt, |r.trace|)
    ensures r.cache == CacheAfterTrace(cache, r.trace)
    // every step but the last was turned down
    ensures forall k :: 0 <= k < |r.trace| - 1 ==> !accept(r.trace[k])
    // a kept last step is the result
    ensures |r.trace| > 0 && accept(Last(r.trace)) ==> r.output == Last(r.trace).output
    // a turned-down last step means the attempts ran out
    ensures |r.trace| > 0 && !accept(Last(r.trace)) ==>
      |r.trace| == maxRetries + 1 - attempt && r.output == GiveUp(Some(Last(r.trace).output.reasoning))
    decreases Attempts(maxRetries) - attempt
  {
    if attempt > maxRetries then Run(GiveUp(lastError), cache, [])
    else
      var step := VerifyWithGPT(b, input, cache, oracle(attempt));
      if accept(step) then Run(step.output, step.cache, [step])
      else
        var rest := RetryLoop(b, input, step.cache, maxRetries, attempt + 1, oracle, Some(step.output.reasoning), accept);
        Run(rest.output, rest.cache, [step] + rest.trace)
  }

  /**
   * `verifyWithRetry`: at most `maxRetries + 1` calls of the verifier; the
   * first result that is not low or whose reasoning lacks the marker is
   * returned, and otherwise a low-confidence output carrying the last
   * result's reasoning.
   */
  function VerifyWithRetry(b: Backend, input: Input, cache: Cache, maxRetries: int, oracle: nat -> string -> Reply): (r: Run)
    ensures |r.trace| <= Attempts(maxRetries)
    ensures maxRetries >= 0 ==> |r.trace| >= 1
    ensures r.trace == Replay(b, input, cache, oracle, 0, |r.trace|)
    ensures r.cache == CacheAfterTrace(cache, r.trace)
    ensures forall k :: 0 <= k < |r.trace| - 1 ==> !Accepts(r.trace[k].output)
    ensures |r.trace| > 0 && Accepts(Last(r.trace).output) ==> r.output == Last(r.trace).output
    ensures |r.trace| > 0 && !Accepts(Last(r.trace).output) ==>
      |r.trace| == Attempts(maxRetries) && r.output == GiveUp(Some(Last(r.trace).output.reasoning))
    ensures |r.trace| == 0 ==> r.output == GiveUp(None)
  {
    RetryLoop(b, input, cache, maxRetries, 0, oracle, None, (s: Step) => Accepts(s.output))
  }

  /** Over any run of calls, every call is counted once, and the cache only grows. */
  lemma {:induction false} ReplayCountsLookups(b: Backend, input: Input, cache: Cache, oracle: nat -> string -> Reply, from: nat, n: nat)
    ensures var after := CacheAfterTrace(cache, Replay(b, input, cache, oracle, from, n));
            && after.hits + after.misses == cache.hits + cache.misses + n
            && Extends(cache, after)
    decreases n
  {
    if n > 0 {
      var step := VerifyWithGPT(b, input, cache, oracle(from));
      var rest := Replay(b, input, step.cache, oracle, from + 1, n - 1);
      ReplayCountsLookups(b, input, step.cache, oracle, from + 1, n - 1);
      if n > 1 {
        assert Last([step] + rest) == Last(rest);
      }
    }
  }

  /** A retry counts one cache lookup per attempt and never drops or changes a stored verdict. */
  lemma RetryCountsLookups(b: Backend, input: Input, cache: Cache, maxRetries: int, oracle: nat -> string -> Reply)
    ensures var r := VerifyWithRetry(b, input, cache, maxRetries, oracle);
            && r.cache.hits + r.cache.misses == cache.hits + cache.misses + |r.trace|
            && Extends(cache, r.cache)
  {
    var r := VerifyWithRetry(b, input, cache, maxRetries, oracle);
    ReplayCountsLookups(b, input, cache, oracle, 0, |r.trace|);
  }

  /** Calls on an input whose verdict is stored all hit: same output, no model call, entries unchanged. */
  lemma {:induction false} ReplayOnStoredVerdict(b: Backend, input: Input, cache: Cache, oracle: nat -> string -> Reply, from: nat, n: nat)
    requires b.keyOf(input) in cache.entries
    ensures var steps := Replay(b, input, cache, oracle, from, n);
            && (forall k :: 0 <= k < n ==>
                  steps[k].output == cache.entries[b.keyOf(input)] && !steps[k].calledModel)
            && CacheAfterTrace(cache, steps).entries == cache.entries
    decreases n
  {
    if n > 0 {
      var step := VerifyWithGPT(b, input, cache, oracle(from));
      var rest := Replay(b, input, step.cache, oracle, from + 1, n - 1);
      ReplayOnStoredVerdict(b, input, step.cache, oracle, from + 1, n - 1);
      if n > 1 {
        assert Last([step] + rest) == Last(rest);
      }
    }
  }

  /**
   * Retrying an input whose verdict is stored never calls the model. An
   * accepted stored verdict is returned after one attempt; a stored
   * low-confidence verdict whose reasoning holds the marker is looked up on
   * every attempt and then reported as a failure.
   */
  lemma RetryOnStoredVerdict(b: Backend, input: Input, cache: Cache, maxRetries: int, oracle: nat -> string -> Reply)
    requires b.keyOf(input) in cache.entries && maxRetries >= 0
    ensures var r := VerifyWithRetry(b, input, cache, maxRetries, oracle);
            var stored := cache.entries[b.keyOf(input)];
            && (forall k :: 0 <= k < |r.trace| ==> !r.trace[k].calledModel)
            && r.cache.entries == cache.entries
            && (Accepts(stored) ==> r.output == stored && |r.trace| == 1)
            && (!Accepts(stored) ==> r.output == GiveUp(Some(stored.reasoning)) && |r.trace| == Attempts(maxRetries))
  {
    var r := VerifyWithRetry(b, input, cache, maxRetries, oracle);
    ReplayOnStoredVerdict(b, input, cache, oracle, 0, |r.trace|);
  }

  /** A low-confidence result without the marker is a verdict, returned on the first attempt. */
  lemma GenuineLowIsNotRetried(b: Backend, input: Input, cache: Cache, maxRetries: int, oracle: nat -> string -> Reply)
    requires maxRetries >= 0
    requires VerifyWithGPT(b, input, cache, oracle(0)).output.confidence == Low
    requires !Includes(VerifyWithGPT(b, input, cache, oracle(0)).output.reasoning, ErrorMarker)
    ensures var r := VerifyWithRetry(b, input, cache, maxRetries, oracle);
            |r.trace| == 1 && r.output == VerifyWithGPT(b, input, cache, oracle(0)).output
  {
    var r := VerifyWithRetry(b, input, cache, maxRetries, oracle);
    assert r.trace[0] == VerifyWithGPT(b, input, cache, oracle(0));
  }

  /** The no-key reasoning cut at its two capital `E`s (in `OPENAI_API_KEY`). */
  const NoKeyBeforeFirstE := "OpenAI API 키 없이는 검증을 수행할 수 없습니다. OP"
  const NoKeyBetweenEs := "NAI_API_K"
  const NoKeyAfterSecondE := "Y 환경 변수를 설정해주세요."

  lemma NoKeyReasoningPieces()
    ensures NoKeyReasoning == NoKeyBeforeFirstE + ("E" + (NoKeyBetweenEs + ("E" + NoKeyAfterSecondE)))
  {
  }

  lemma NoKeyPiecesLackE()
    ensures 'E' !in NoKeyBeforeFirstE && 'E' !in NoKeyBetweenEs && 'E' !in NoKeyAfterSecondE
  {
  }

  /** The no-key reasoning does not hold the marker: its two capital `E`s are followed by `N` and `Y`. */
  lemma NoKeyReasoningLacksMarker()
    ensures !Includes(NoKeyReasoning, ErrorMarker)
  {
    var m := ErrorMarker;
    assert m[0] == 'E' && m[1] == 'r';
    NoKeyPiecesLackE();
    ExcludesAcrossTwoStarts(NoKeyBeforeFirstE, NoKeyBetweenEs, NoKeyAfterSecondE, m);
    NoKeyReasoningPieces();
  }

  /** Without an API key the degraded output is final: one attempt, not retried, nothing stored. */
  lemma NoKeyIsNotRetried(b: Backend, input: Input, cache: Cache, maxRetries: int, oracle: nat -> string -> Reply)
    requires b.apiKey == "" && b.keyOf(input) !in cache.entries && maxRetries >= 0
    ensures var r := VerifyWithRetry(b, input, cache, maxRetries, oracle);
            && |r.trace| == 1 && r.output == NoKeyOutput()
            && r.cache.entries == cache.entries && !r.trace[0].calledModel
  {
    NoKeyReasoningLacksMarker();
    var r := VerifyWithRetry(b, input, cache, maxRetries, oracle);
    assert r.trace[0] == VerifyWithGPT(b, input, cache, oracle(0));
  }

  /** The `catch` block's reasoning holds the marker exactly when the caught message does. */
  lemma FailureReasoningMarker(t: Thrown)
    ensures Includes(FailureOutput(t).reasoning, ErrorMarker) <==> t.ErrorObject? && Includes(t.message, ErrorMarker)
  {
    var m := ErrorMarker;
    assert m[0] == 'E';
    match t
    case ErrorObject(message) =>
      assert 'E' !in FailurePrefix;
      IncludesSkipsPrefix(FailurePrefix, message, m);
    case NonErrorValue =>
      assert 'E' !in UnknownFailure;
      ExcludesWithoutFirstChar(UnknownFailure, m);
  }

  /** The empty-reply message after its leading `E`. */
  const EmptyResponseAfterE := "mpty response from GPT"

  lemma EmptyResponsePieces()
    ensures EmptyResponse == "E" + EmptyResponseAfterE
    ensures 'E' !in EmptyResponseAfterE
  {
  }

  /** The verifier's own message for an empty reply lacks the marker. */
  lemma EmptyResponseLacksMarker()
    ensures !Includes(EmptyResponse, ErrorMarker)
  {
    var m := ErrorMarker;
    assert m[0] == 'E' && m[1] == 'r';
    EmptyResponsePieces();
    ExcludesWithoutFirstChar(EmptyResponseAfterE, m);
    FirstCharWithoutRest(EmptyResponseAfterE, m);
  }

  /** The verifier's own message for a reply with a missing field lacks the marker. */
  lemma InvalidStructureLacksMarker()
    ensures !Includes(InvalidStructure, ErrorMarker)
  {
    var m := ErrorMarker;
    assert m[0] == 'E';
    assert 'E' !in InvalidStructure;
    ExcludesWithoutFirstChar(InvalidStructure, m);
  }

  /**
   * As written, an empty model reply is not retried: its fallback reasoning
   * lacks the English marker, so the loop returns the failure after one
   * attempt even when the next attempt would have produced a verdict.
   */
  lemma AsWrittenEmptyReplyIsNotRetried(b: Backend, input: Input, cache: Cache, oracle: nat -> string -> Reply, o: Output)
    requires b.apiKey != "" && b.keyOf(input) !in cache.entries
    requires oracle(0)(PromptFor(b, input)) == Completed("")
    requires Carries(oracle(1)(PromptFor(b, input)), b.decode, o) && o.confidence == High
    ensures var r := VerifyWithRetry(b, input, cache, DefaultMaxRetries, oracle);
            && |r.trace| == 1
            && r.output == FailureOutput(ErrorObject(EmptyResponse))
            && r.output != o
  {
    EmptyResponseLacksMarker();
    FailureReasoningMarker(ErrorObject(EmptyResponse));
    var r := VerifyWithRetry(b, input, cache, DefaultMaxRetries, oracle);
    assert r.trace[0] == VerifyWithGPT(b, input, cache, oracle(0));
  }

  /**
   * The retry loop with the failure told apart by the step's own flag
   * instead of by a substring of its text: a result is kept unless it came
   * from the `catch` block.
   */
  function VerifyWithRetryTyped(b: Backend, input: Input, cache: Cache, maxRetries: int, oracle: nat -> string -> Reply): (r: Run)
    ensures |r.trace| <= Attempts(maxRetries)
    ensures maxRetries >= 0 ==> |r.trace| >= 1
    ensures r.trace == Replay(b, input, cache, oracle, 0, |r.trace|)
    ensures r.cache == CacheAfterTrace(cache, r.trace)
    // every failure is retried while attempts remain
    ensures forall k :: 0 <= k < |r.trace| - 1 ==> r.trace[k].failed
    // the first result that is not a failure is returned, whatever its confidence
    ensures |r.trace| > 0 && !Last(r.trace).failed ==> r.output == Last(r.trace).output
    ensures |r.trace| > 0 && Last(r.trace).failed ==>
      |r.trace| == Attempts(maxRetries) && r.output == GiveUp(Some(Last(r.trace).output.reasoning))
  {
    RetryLoop(b, input, cache, maxRetries, 0, oracle, None, (s: Step) => !s.failed)
  }

  /** With the typed test, the empty reply is retried and the second attempt's verdict is returned. */
  lemma TypedRetryRecoversFromEmptyReply(b: Backend, input: Input, cache: Cache, oracle: nat -> string -> Reply, o: Output)
    requires b.apiKey != "" && b.keyOf(input) !in cache.entries
    requires oracle(0)(PromptFor(b, input)) == Completed("")
    requires Carries(oracle(1)(PromptFor(b, input)), b.decode, o) && o.confidence == High
    ensures var r := VerifyWithRetryTyped(b, input, cache, DefaultMaxRetries, oracle);
            |r.trace| == 2 && r.output == o
  {
    var r := VerifyWithRetryTyped(b, input, cache, DefaultMaxRetries, oracle);
    var first := VerifyWithGPT(b, input, cache, oracle(0));
    assert r.trace[0] == first;
    assert first.failed;
    assert r.trace[1] == VerifyWithGPT(b, input, first.cache, oracle(1));
  }

  /** The cache a batch leaves after the given runs: the last run's, or the initial one. */
  function CacheAfterRuns(cache: Cache, runs: seq<Run>): Cache {
    if |runs| == 0 then cache else runs[|runs| - 1].cache
  }

  /** One verification of a batch item, from a cache, with that item's oracle. */
  type ItemVerifier = (Input, Cache, nat -> string -> Reply) -> Run

  /** The item verifier `batchVerify` uses: a retried verification with the default bound. */
  function RetryEach(b: Backend): ItemVerifier {
    (input: Input, cache: Cache, oracle: nat -> string -> Reply) => VerifyWithRetry(b, input, cache, DefaultMaxRetries, oracle)
  }

  /**
   * The first `n` item verifications of a batch, one after another: run `i`
   * verifies `inputs[i]` with oracle `oracles(i)`, from the cache the runs
   * before it left.
   */
  function BatchRuns(verify: ItemVerifier, inputs: seq<Input>, cache: Cache, oracles: nat -> nat -> string -> Reply, n: nat): (runs: seq<Run>)
    requires n <= |inputs|
    ensures |runs| == n
    decreases n
  {
    if n == 0 then []
    else
      var before := BatchRuns(verify, inputs, cache, oracles, n - 1);
      before + [verify(inputs[n - 1], CacheAfterRuns(cache, before), oracles(n - 1))]
  }

  /** Later runs leave earlier ones alone: run `i` is item `i` verified from the cache the first `i` runs left. */
  lemma {:induction false} BatchRunsInOrder(verify: ItemVerifier, inputs: seq<Input>, cache: Cache, oracles: nat -> nat -> string -> Reply, n: nat, i: nat)
    requires i < n <= |inputs|
    ensures BatchRuns(verify, inputs, cache, oracles, n)[i]
         == verify(inputs[i], CacheAfterRuns(cache, BatchRuns(verify, inputs, cache, oracles, i)), oracles(i))
    decreases n
  {
    if i < n - 1 {
      BatchRunsInOrder(verify, inputs, cache, oracles, n - 1, i);
    }
  }

  /** An item verifier that never drops or changes a stored verdict. */
  ghost predicate KeepsEntries(verify: ItemVerifier) {
    forall input, cache, oracle :: Extends(cache, verify(input, cache, oracle).cache)
  }

  /** Keeping entries is transitive. */
  lemma ExtendsTransitive(a: Cache, b: Cache, c: Cache)
    requires Extends(a, b) && Extends(b, c)
    ensures Extends(a, c)
  {
  }

  /** Over a batch whose item verifier keeps entries, the cache only grows. */
  lemma {:induction false} BatchCacheGrowsWith(verify: ItemVerifier, inputs: seq<Input>, cache: Cache, oracles: nat -> nat -> string -> Reply, n: nat)
    requires n <= |inputs| && KeepsEntries(verify)
    ensures Extends(cache, CacheAfterRuns(cache, BatchRuns(verify, inputs, cache, oracles, n)))
    decreases n
  {
    if n > 0 {
      var before := BatchRuns(verify, inputs, cache, oracles, n - 1);
      var mid := CacheAfterRuns(cache, before);
      BatchCacheGrowsWith(verify, inputs, cache, oracles, n - 1);
      var last := verify(inputs[n - 1], mid, oracles(n - 1));
      assert Extends(mid, last.cache);
      ExtendsTransitive(cache, mid, last.cache);
    }
  }

  /** A retried verification never drops or changes a stored verdict. */
  lemma RetryEachKeepsEntries(b: Backend)
    ensures KeepsEntries(RetryEach(b))
  {
    forall input, cache, oracle
      ensures Extends(cache, RetryEach(b)(input, cache, oracle).cache)
    {
      RetryCountsLookups(b, input, cache, DefaultMaxRetries, oracle);
    }
  }

  /** Over a batch of retried verifications the cache only grows. */
  lemma BatchCacheGrows(b: Backend, inputs: seq<Input>, cache: Cache, oracles: nat -> nat -> string -> Reply)
    ensures Extends(cache, CacheAfterRuns(cache, BatchRuns(RetryEach(b), inputs, cache, oracles, |inputs|)))
  {
    RetryEachKeepsEntries(b);
    BatchCacheGrowsWith(RetryEach(b), inputs, cache, oracles, |inputs|);
  }

  /** Runs each item verification in input order and collects the outputs. */
  method VerifyEach(verify: ItemVerifier, inputs: seq<Input>, cache: Cache, oracles: nat -> nat -> string -> Reply)
    returns (outputs: seq<Output>, after: Cache)
    ensures |outputs| == |inputs|
    ensures var runs := BatchRuns(verify, inputs, cache, oracles, |inputs|);
            && (forall i :: 0 <= i < |inputs| ==> outputs[i] == runs[i].output)
            && after == CacheAfterRuns(cache, runs)
  {
    outputs := [];
    after := cache;
    var i := 0;
    while i < |inputs|
      invariant 0 <= i <= |inputs|
      invariant |outputs| == i
      invariant after == CacheAfterRuns(cache, BatchRuns(verify, inputs, cache, oracles, i))
      invariant forall j :: 0 <= j < i ==> outputs[j] == BatchRuns(verify, inputs, cache, oracles, i)[j].output
    {
      var run := verify(inputs[i], after, oracles(i));
      outputs := outputs + [run.output];
      after := run.cache;
      i := i + 1;
    }
  }

  /**
   * `batchVerify`: one retried verification per input with the default
   * retry bound, outputs in input order.
   */
  method BatchVerify(b: Backend, inputs: seq<Input>, cache: Cache, oracles: nat -> nat -> string -> Reply)
    returns (outputs: seq<Output>, after: Cache)
    ensures |outputs| == |inputs|
    ensures var runs := BatchRuns(RetryEach(b), inputs, cache, oracles, |inputs|);
            && (forall i :: 0 <= i < |inputs| ==> outputs[i] == runs[i].output)
            && after == CacheAfterRuns(cache, runs)
  {
    outputs, after := VerifyEach(RetryEach(b), inputs, cache, oracles);
  }

  /** The item verifier with the corrected retry test. */
  function TypedRetryEach(b: Backend): ItemVerifier {
    (input: Input, cache: Cache, oracle: nat -> string -> Reply) => VerifyWithRetryTyped(b, input, cache, DefaultMaxRetries, oracle)
  }

  /** `batchVerify` over the corrected retry: one typed retried verification per input, in input order. */
  method BatchVerifyTyped(b: Backend, inputs: seq<Input>, cache: Cache, oracles: nat -> nat -> string -> Reply)
    returns (outputs: seq<Output>, after: Cache)
    ensures |outputs| == |inputs|
    ensures var runs := BatchRuns(TypedRetryEach(b), inputs, cache, oracles, |inputs|);
            && (forall i :: 0 <= i < |inputs| ==> outputs[i] == runs[i].output)
            && after == CacheAfterRuns(cache, runs)
  {
    outputs, after := VerifyEach(TypedRetryEach(b), inputs, cache, oracles);
  }
}
