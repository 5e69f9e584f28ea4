# Paragraph verification client, modelled in Dafny

The modelled code is the client that checks one paragraph of a document against the
sources it cites. It has four parts:

- It builds a Korean prompt (`createVerificationPrompt`). The prompt holds the paragraph,
  its numbered links, and one numbered block per crawled source. Each block has a
  credibility tag, an optional fetch-error tag, and the content cut to 2000 characters.
- It asks the model for a JSON verdict (`verifyWithGPT`). A result cache sits in front of
  the model, with hit and miss counters. A missing API key gives a fixed low-confidence
  answer. Every failure becomes a low-confidence answer, and failures are never cached.
- It retries low-confidence answers whose reasoning contains the English word `Error`
  (`verifyWithRetry`). It makes at most `maxRetries + 1` attempts and then gives up with
  the last reasoning.
- It verifies a list of paragraphs (`batchVerify`).

The modules:

- `Wrappers` holds `Option` and `Result`.
- `Types` holds the records exchanged with callers: credibility tier, source, input and
  verdict.
- `Text` holds string operations with JavaScript meaning: `includes`, `toUpperCase`,
  `join`, and decimal numbers.
- `Prompt` holds the prompt builder.
- `Client` holds the cached verifier.
- `Retry` holds the retry loop and the batch.

The environment is passed in as data, in a `Client.Backend`. It holds the API key, the
cache-key function, the JSON decoder and the prompt wording.

The model is an oracle: a function from the prompt to the reply. A retry gets one oracle
per attempt, and a batch gets one per input and attempt. So a property proved here holds
whatever the model answers.

The prompt's two long fixed texts are constants (`Prompt.Preamble` and
`Prompt.Instructions`). The lemmas about the prompt hold for any wording
(`Prompt.Wording`), so they never unfold those long literals.

## Model

| member | source | states |
|---|---|---|
| Text.IncludesIffOccurs | src/lib/openai.ts:206 | The substring test used for the retry decision finds a pattern exactly when the pattern occurs at some position (both directions). |
| Text.ToUpper | src/lib/openai.ts:32 | Upper-casing keeps the length, raises every lower-case ASCII letter to its capital and leaves every other character alone. |
| Text.JoinPlacesParts | src/lib/openai.ts:44 | In a newline join, every part appears verbatim at its computed offset. |
| Text.JoinKeepsOrder | src/lib/openai.ts:44 | With a non-empty separator, a later part starts strictly after an earlier one. |
| Text.NatToString | src/lib/openai.ts:37 | A source or link number is written as a non-empty string of decimal digits with no leading zero. |
| Text.ParseNatInvertsNatToString | src/lib/openai.ts:37 | Reading the written digits back gives the number: the numbering is unambiguous. |
| Prompt.CredibilityTags | src/lib/openai.ts:32 | Each of the five tiers is tagged with its own bracketed upper-case name, such as `[ACADEMIC]`. |
| Prompt.ErrorTag | src/lib/openai.ts:33 | The error tag is non-empty exactly when the source carries a non-empty error message. Then it opens with `[ERROR: `, carries the message verbatim right after that, and closes with `]`. |
| Prompt.ShownContent | src/lib/openai.ts:34 | Non-empty content is kept as it is, and empty or missing content becomes exactly `(No content available)`; so shown content is never empty. |
| Prompt.ContentLineTruncates | src/lib/openai.ts:41 | Content within 2000 characters is shown whole. Longer content shows exactly its first 2000 characters plus the marker. The line ends with the truncation marker exactly when the content was too long. |
| Prompt.SourceBlockReadsBack | src/lib/openai.ts:36-42 | A source block starts with the source heading. It is followed by the source's number, which reads back to that number and is closed by a colon. The block ends with the source's content line and a newline. |
| Prompt.SourceBlockCarriesTags | src/lib/openai.ts:37 | After a block's heading and number, the source's URL follows the colon and a space. The credibility tag follows the URL and a space, and the error tag follows the credibility tag and a space. |
| Prompt.PromptQuotesParagraph | src/lib/openai.ts:46-49 | The paragraph appears verbatim in the prompt, right after the preamble and the paragraph heading. |
| Prompt.PromptPlacesLink | src/lib/openai.ts:51-52 | The line for the i-th cited link appears in the prompt at its start offset. |
| Prompt.PromptNumbersLinks | src/lib/openai.ts:51-52 | The link lines appear in input order. |
| Prompt.PromptPlacesSource | src/lib/openai.ts:30-55 | The block of every source, the last one included, appears in the prompt at its start offset. |
| Prompt.PromptNumbersSources | src/lib/openai.ts:30-55 | The source blocks appear in the prompt in input order. |
| Client.FailureOutput | src/lib/openai.ts:176-189 | A caught failure gives a low-confidence answer with the fixed failure summary. For an error object the reasoning is the fixed Korean prefix followed by the message; for any other thrown value it is the fixed unknown-failure text. |
| Client.DeployedPromptIsCreated | src/lib/openai.ts:123 | A backend with the deployed wording sends exactly the text `createVerificationPrompt` builds. |
| Client.ParseConfidence | src/lib/openai.ts:161-164 | Exactly the three spellings `high`, `medium` and `low` are accepted, each as the verdict it names. |
| Client.Interpret | src/lib/openai.ts:143-170 | A reply is accepted exactly when it is a non-empty text that decodes to three truthy fields with a valid confidence. The accepted answer carries those fields (both directions). |
| Client.VerifyWithGPT | src/lib/openai.ts:92-190 | Each call counts exactly one lookup, and stored verdicts are never changed. A hit returns the stored verdict without calling the model. A miss without a key returns the fixed answer and stores nothing. A miss with a key asks the model with this input's prompt: a valid reply is returned and stored under the input's key, and any other reply gives a low-confidence failure that is not stored. |
| Client.VerifyKeepsCacheSound | src/lib/openai.ts:153-175 | Only answers with non-empty summary and reasoning are ever stored, and every returned answer has non-empty texts. |
| Client.StoredVerdictIsReused | src/lib/openai.ts:97-175 | After a successful call, asking again returns the same verdict without calling the model, whatever the model would now answer. |
| Client.NoKeyOutputNeverCached | src/lib/openai.ts:111-121 | Without a key the fixed answer is not stored, so a second call misses again. |
| Retry.GiveUp | src/lib/openai.ts:225-231 | The final answer after all retries fail is low confidence with the fixed summary. Its reasoning is the last error's message, or the unknown-failure text when there is no message. |
| Retry.RetryLoop | src/lib/openai.ts:199-223 | The attempts are successive verifier calls, each starting from the cache the previous one left. Every attempt before the last was rejected. An accepted last attempt is the answer. A rejected last attempt means the attempts ran out and the answer reports that attempt's reasoning. |
| Retry.VerifyWithRetry | src/lib/openai.ts:195-232 | There are at most `maxRetries + 1` attempts, and at least one when the bound is non-negative. The first answer that is not low, or whose reasoning lacks `Error`, is returned. Otherwise the give-up answer carries the last reasoning, and with a negative bound the give-up answer carries no message. |
| Retry.ReplayCountsLookups | src/lib/openai.ts:201-203 | Back-to-back calls add exactly one to hits plus misses per call and never change a stored verdict. |
| Retry.RetryCountsLookups | src/lib/openai.ts:195-232 | A retry counts one lookup per attempt and never changes a stored verdict. |
| Retry.RetryOnStoredVerdict | src/lib/openai.ts:99-208 | Retrying an input whose verdict is stored never calls the model. An accepted stored verdict is returned after one attempt. A stored verdict that is low and mentions `Error` is looked up on every attempt and then reported as a failure. |
| Retry.GenuineLowIsNotRetried | src/lib/openai.ts:206-207 | A low-confidence answer without `Error` in its reasoning is returned after the first attempt. |
| Retry.NoKeyReasoningLacksMarker | src/lib/openai.ts:118-119 | The no-key reasoning does not contain `Error`. |
| Retry.NoKeyIsNotRetried | src/lib/openai.ts:111-121 | Without a key, a retry makes one attempt, returns the fixed answer, stores nothing and never calls the model. |
| Retry.FailureReasoningMarker | src/lib/openai.ts:184-187 | A caught failure's reasoning contains `Error` exactly when the caught value is an error object whose message contains `Error` (both directions). |
| Retry.EmptyResponseLacksMarker | src/lib/openai.ts:146 | The verifier's own message for an empty reply does not contain `Error`. |
| Retry.InvalidStructureLacksMarker | src/lib/openai.ts:158 | The verifier's own message for a reply with a missing field does not contain `Error`. |
| Retry.AsWrittenEmptyReplyIsNotRetried | src/lib/openai.ts:145-211 | As written, an empty first reply is returned as the failure after one attempt, even when the second attempt would have given a high-confidence verdict. |
| Retry.VerifyWithRetryTyped | src/lib/openai.ts:205-211 | Corrected retry: every failure is retried while attempts remain. The first answer that is not a failure is returned, whatever its confidence. |
| Retry.TypedRetryRecoversFromEmptyReply | src/lib/openai.ts:205-211 | With the corrected test, an empty first reply is retried and the second attempt's verdict is returned. |
| Retry.BatchRunsInOrder | src/lib/openai.ts:242 | Item i of a batch is input i verified with its own oracle, starting from the cache the earlier items left. |
| Retry.BatchCacheGrows | src/lib/openai.ts:238-243 | A batch of retried verifications never drops or changes a stored verdict. |
| Retry.VerifyEach | src/lib/openai.ts:242 | The loop returns one answer per input, in input order. Each answer is that item's run, and the final cache is the one the last run left. |
| Retry.BatchVerify | src/lib/openai.ts:238-243 | The batch returns exactly one retried verification per input, with the default bound, in input order. |
| Retry.BatchVerifyTyped | src/lib/openai.ts:238-243 | The same batch, run with the corrected retry test. |

## Left out

- The OpenAI client, the model name, the system message, the token limit and the response format (src/lib/openai.ts:18-21, 125-141). The request becomes the oracle `string -> Reply`. Its reply is the first choice's content, with `""` standing for empty, `null` or absent content.
- The API key read from the environment (src/lib/openai.ts:16) becomes `Backend.apiKey`, with `""` for unset.
- `JSON.parse` becomes the decoder `Backend.decode`. It is abstract, and it yields either a thrown message or three optional string fields. Fields whose JSON value is not a string are not modelled. Such a value would pass the truthiness checks, and a non-string reasoning would make the retry's substring test throw.
- The cache module (`./cache`) is not part of this model. Its map and counters become `Client.Cache`, and its key function becomes `Backend.keyOf`. Eviction and expiry are not modelled.
- The `catch` branch of the retry loop, with its exponential backoff (src/lib/openai.ts:212-222), is not modelled. The verifier catches every failure that happens inside it (176-189), so the branch can only be entered by a throw in the retry loop itself. That happens when a stored or returned low-confidence reasoning is not a string, for example the number `42`. Then the substring test at line 206 throws, and every later attempt hits the same cached entry and throws again. Non-string fields are outside the decoder model above, so while every reasoning is a string the branch cannot be reached. `setTimeout` and time are left out as well.
- Console logging (src/lib/openai.ts:103, 109, 112, 177) is left out. It has no effect on results.
- Retry.VerifyEach, Retry.BatchVerify: `Promise.all` runs the retries concurrently, and their cache reads and writes interleave. The model runs them one after another, in input order, each item seeing the cache the earlier items left. With an empty cache and distinct keys the outputs agree; other interleavings are not modelled.
- Prompt.ContentLineTruncates: the 2000 budget counts Unicode scalar values. JavaScript's `slice` counts UTF-16 code units, so the two differ only on text outside the Basic Multilingual Plane.
- Text.ToUpper: upper-casing is modelled for ASCII letters only. It is applied only to the five lower-case credibility names.
- Prompt.PromptNumbersSources, Prompt.PromptNumbersLinks, Prompt.PromptQuotesParagraph: these are proved for any wording around the variable parts. The deployed wording is `Prompt.FixedWording()`, whose texts are given verbatim. Missing fields (`undefined`) are modelled as the empty string.
- The Next.js route handlers and the page (`src/app/...`) are callers of this client and are not part of this model.

## Findings

| source | as written | input that shows it | evidently intended | confidence | as-written member | corrected member |
|---|---|---|---|---|---|---|
| src/lib/openai.ts:206 | A failed attempt is recognised only by the English substring `Error` in its reasoning. The failure texts for an empty reply (146) or a missing field (158), after the Korean prefix (186), lack it, so they are never retried. | API key set, cache miss. The first model reply is empty; the second reply is a valid `high` verdict. The retry returns the failure after 1 attempt. | Retry every attempt that came from the failure fallback, as the comments at lines 205 and 210 say. The second attempt's verdict would then be returned. | not executed | Retry.AsWrittenEmptyReplyIsNotRetried | Retry.TypedRetryRecoversFromEmptyReply |

`Retry.VerifyWithRetry` and `Retry.BatchVerify` model the loop as written.
`Retry.VerifyWithRetryTyped` tells a failure apart by the verifier's own failure flag.
`Retry.BatchVerifyTyped` is the batch over the corrected retry.
