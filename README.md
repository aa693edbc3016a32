# Completion session model

A Dafny model of the chat-completion session of `coding-prompt`
(`lib/src/openaiCompletionSession.ts`). `createOpenAICompletionSession` builds a
session that holds two pieces of state: an append-only conversation log seeded with
one system instruction, and a prompt counter. Its one operation, `sendPrompt`,
runs these steps in order:

1. It bumps the counter.
2. It refuses the call when the counter is past `maxPrompts`.
3. It appends the user turn.
4. It refuses the call when the token probe of the whole log is over budget.
5. It asks the completion provider.
6. It refuses an empty answer.
7. It appends the assistant turn and returns the answer with the log.

Modules:

- `Wrappers` (`Wrappers.dfy`): `Option`.
- `Json` (`Json.dfy`): the probe text the tokenizer is given. `Stringify` is
  `JSON.stringify` of an array of strings, with JSON.stringify's escaping written out,
  and `Probe` puts the `_ ` sentinel in front of it. A decoder is included, and the
  round trip `Parse(Stringify(xs)) == Some(xs)` is proved. So the probe determines every
  message's content (`ProbeInjective`).
- `CompletionSession` (`CompletionSession.dfy`): `Role`, `Message`, the options and
  their defaults, `InitialState` (the seed log of lines 57-60), and `TokenProbe` (the
  `fullContents` text of line 76). It also holds `Step`, the pure specification of one
  call, the session invariant, and the class `Session`. Its fields `conversation` and
  `promptCounter` are updated in place by `SendPrompt`, in the source's order. Its
  `ensures` equate the new state and result with `Step` on the old state.
- `SessionRuns` (`SessionRuns.dfy`): `Run` folds `Step` over a sequence of calls.
  The lemmas there state what holds across calls.

The session holds the caller's options object by reference. `maxPrompts` is read from
it once, at creation (line 61), and kept in the field `Session.maxPrompts`. The token
option is read from it on every call (line 74). So every call (`SendPrompt`, `Call`)
is given the options object as it stands at that moment, and only its
`maxConversationTokens` is consulted (`OnlyTokenOptionIsReadPerCall`,
`RunReadsBudgetPerCall`).

The two outside collaborators are also inputs of each call:

- The tokenizer (`gpt-tokenizer`'s `isWithinTokenLimit` and `encode(..).length`) is a
  `Tokenizer` value holding two functions. Nothing is assumed about how they relate.
- The OpenAI client is a `Provider`: a function from the messages it is sent to a
  `Completion`. A `Completion` is either `Rejected` (the awaited request throws) or the
  first choice's content, where `None` stands for a null content. A rejected request
  ends the call with `RequestFailed`. It leaves the counter raised and the user turn
  appended, as an empty response does. `Request` gives the messages a call sends, and
  only when both guards pass. `ProviderConsultedOnlyOnRequest` shows that a call
  stopped by a guard does not depend on the provider at all.

The conversation is an ordered log, not an alternation. A refused call appends a
user turn with no answer, so strict alternation of turns is proved only for runs in
which every call succeeds (`SuccessfulRunAlternates`). What every call keeps is
`Invariant`:

- the log starts with the system instruction;
- no other message is a system message;
- every assistant message follows a user message;
- the number of user messages equals the number of calls admitted by the prompt
  guard.

The code throws the prompt-limit error at line 69, before the push at line 71. So a
refused call does not append its user message. Take three calls under
`maxPrompts = 2`. If the refused third prompt were appended, the log would end with six
messages. The code throws first, so it ends with five (`NewSessionPromptLimitScenario`).
An answer is refused only when it is null or exactly `""` (`!completion`). A
whitespace-only answer is accepted and appended.

## Model

| member | source | states |
|---|---|---|
| `CompletionSession.ResolveLimit` | lib/src/openaiCompletionSession.ts:74 | `option \|\| fallback`: an absent option or 0 gives the fallback, any other value is kept, and the resolved limit is never 0 when the fallback is not |
| `CompletionSession.ResolvedMaxPrompts` | lib/src/openaiCompletionSession.ts:61 | `maxPrompts` is `option \|\| 5`, read once at creation: 5 when absent or 0, any other value kept, never 0 |
| `CompletionSession.TokenBudget` | lib/src/openaiCompletionSession.ts:74 | a call's budget is `maxConversationTokens \|\| 4000` of the options object at that call: 4000 when absent or 0, any other value kept, never 0 |
| `CompletionSession.Contents` | lib/src/openaiCompletionSession.ts:76 | the contents of the log in order, one per message, as `conversation.map((m) => m.content)` |
| `Json.EscapeChar` | lib/src/openaiCompletionSession.ts:76 | JSON.stringify writes quote, backslash and control characters as backslash escapes and every other character as itself |
| `Json.HexDigit` | lib/src/openaiCompletionSession.ts:76 | the lower-case hex digit of a `\u00xx` escape decodes back to its value |
| `Json.Probe` | lib/src/openaiCompletionSession.ts:75-76 | the probe starts with the `_ ` sentinel and is therefore never empty |
| `Json.ParseStringify` | lib/src/openaiCompletionSession.ts:76 | decoding the stringified contents array gives back exactly the contents |
| `Json.ProbeInjective` | lib/src/openaiCompletionSession.ts:76 | two logs with different contents give different probe texts, so the token check sees every message |
| `CompletionSession.Step` | lib/src/openaiCompletionSession.ts:64-103 | one call: the counter rises by exactly 1. The prompt guard fires iff the new count exceeds `maxPrompts`; it then reports (count, max) and leaves the log unchanged. The token guard fires iff the prompt guard passed and the probe of the log with the new user turn is not within this call's budget; it reports the exact token count and the budget. The request fails iff both guards passed and the provider rejected. The empty-response guard fires iff both guards passed and the first choice is null or `""`. The three late failures leave exactly the orphan user turn. On success the provider was sent the log ending in the user turn, and its non-empty answer is appended after it and returned with the full log. The old log is always a prefix of the new one |
| `CompletionSession.ProviderConsultedOnlyOnRequest` | lib/src/openaiCompletionSession.ts:67-90 | the provider is sent a request iff neither guard fired; a call stopped by a guard gives the same state and outcome whatever the provider would answer, and a call that reaches it depends only on its answer to that request |
| `CompletionSession.OnlyTokenOptionIsReadPerCall` | lib/src/openaiCompletionSession.ts:61-74 | two options objects with the same token option give the same call: a later change to the object's `maxPrompts` has no effect |
| `CompletionSession.InitialInvariant` | lib/src/openaiCompletionSession.ts:57-60 | a new session (system instruction only, counter 0) satisfies the session invariant |
| `CompletionSession.StepPreservesInvariant` | lib/src/openaiCompletionSession.ts:67-97 | every call, successful or refused, keeps the system message first, adds no system message, keeps every answer right after a user turn, and keeps one user turn per admitted call |
| `CompletionSession.Session.constructor` | lib/src/openaiCompletionSession.ts:53-61 | the log is exactly the one system instruction, the counter is 0, `maxPrompts` is `ResolvedMaxPrompts` of the creation options, and the invariant holds |
| `CompletionSession.Session.SendPrompt` | lib/src/openaiCompletionSession.ts:64-103 | the in-place update of the two fields, in source order, yields exactly `Step` of the old state with the caller's options object at that call; the invariant is kept; the counter rises by 1; each guard and the request failure fires under its exact condition, with the log change stated per outcome |
| `SessionRuns.Run` | lib/src/openaiCompletionSession.ts:67-97 | over any sequence of calls the counter rises by the number of calls and the starting log stays a prefix of the final one (append-only) |
| `SessionRuns.RunPromptGuard` | lib/src/openaiCompletionSession.ts:67-70 | the k-th call of a run is refused by the prompt guard iff the counter before it plus k + 1 exceeds the limit, and then reports that count and the limit |
| `SessionRuns.RunReadsBudgetPerCall` | lib/src/openaiCompletionSession.ts:74-82 | in any run, a call refused by the token guard reports the budget of the options object as it stood at that call |
| `SessionRuns.NewSessionPromptLimit` | lib/src/openaiCompletionSession.ts:60-70 | on a new session with resolved limit N, calls 1..N pass the prompt guard and every later call k is refused with (k, N) |
| `SessionRuns.ExhaustedSessionIsFrozen` | lib/src/openaiCompletionSession.ts:67-70 | once the counter has reached the limit, every further call is refused and the log no longer changes |
| `SessionRuns.RunPreservesInvariant` | lib/src/openaiCompletionSession.ts:57-97 | the session invariant holds after any sequence of calls |
| `SessionRuns.NewSessionInvariant` | lib/src/openaiCompletionSession.ts:57-58 | whatever calls a new session receives, its first message stays the system instruction and the invariant holds |
| `SessionRuns.SuccessfulRunAlternates` | lib/src/openaiCompletionSession.ts:71-101 | when every call of a run succeeds, the log grows by two messages per call: each call's user prompt and then that call's returned response, in call order |
| `SessionRuns.PromptLimitScenario` | lib/src/openaiCompletionSession.ts:61-101 | from any state with counter 0 and `maxPrompts = 2`, with an accepting tokenizer and non-empty answers, the calls give Ok, Ok and then a refusal reporting 3/2, and the log grows by four |
| `SessionRuns.NewSessionPromptLimitScenario` | lib/src/openaiCompletionSession.ts:57-101 | the same three calls on a new session with `maxPrompts: 2` leave a log of five messages |

## Left out

- The OpenAI request itself (lines 86-90): the `await`, the network and the generation
  parameters spread from `openaiConfig` (model, seed, temperature, top_p, penalties,
  max_tokens, stop) and `stream: false`. The provider is a function from the messages
  sent to a rejection or the first choice's content. The kind of rejection is not kept.
- An empty `choices` array, on which `response.choices[0]` throws a `TypeError`. That call
  ends in the same state as a rejected request does (`Rejected`), but no separate outcome
  is modelled for it.
- `tokenCount` (`response.usage?.total_tokens`, line 102). It is a provider value passed
  straight through, so `Ok` carries only the response and the conversation.
- `gpt-tokenizer`: its two functions are inputs, and their real token counts and their
  relation to each other are not modelled.
- The text of the error messages and the `console.log` trace (line 65). Errors are
  result variants carrying the values the messages interpolate.
- Aliasing of the returned `conversation`: the source returns the session's live array,
  which later calls keep extending. The model returns the log's value at return time.
- JavaScript numbers: limits are integers. NaN and fractional limits are not modelled,
  and a negative limit is kept as it is (as `||` keeps it).
- JavaScript strings are UTF-16. Here strings are sequences of Unicode scalar values, so
  the escaping of lone surrogates by JSON.stringify does not arise.
- Concurrent unawaited `sendPrompt` calls on one session: each call is one atomic step.
