/**
 * Sequences of `sendPrompt` calls on one session: `Run` applies `Step` call
 * after call and collects the outcomes.  The lemmas here state what the
 * session promises across calls: the prompt limit admits exactly the first
 * calls up to the limit, the log only grows, the invariant is kept, and a run
 * of successes leaves alternating user and assistant turns.
 */
module SessionRuns {
  import opened Wrappers
  import opened CompletionSession

  /**
   * One call as its caller issues it: the prompt, the caller's options object
   * as it stands at that call, and the collaborators' answers for it.
   */
  datatype Call = Call(prompt: string, options: Options, tokenizer: Tokenizer, provider: Provider)

  function Run(s: State, maxPrompts: int, calls: seq<Call>): (r: (State, seq<SendResult>))
    ensures |r.1| == |calls|
    ensures r.0.promptCounter == s.promptCounter + |calls|
    ensures s.conversation <= r.0.conversation
    decreases |calls|
  {
    if calls == [] then (s, [])
    else
      var first := Step(s, maxPrompts, calls[0].options, calls[0].prompt, calls[0].tokenizer, calls[0].provider);
      var rest := Run(first.0, maxPrompts, calls[1..]);
      (rest.0, [first.1] + rest.1)
  }

  /** The k-th call of a run (from 0) is refused by the prompt guard exactly when it is past the limit. */
  lemma {:induction false} RunPromptGuard(s: State, maxPrompts: int, calls: seq<Call>, k: nat)
    requires k < |calls|
    ensures Run(s, maxPrompts, calls).1[k].TooManyPrompts? <==> s.promptCounter + k + 1 > maxPrompts
    ensures Run(s, maxPrompts, calls).1[k].TooManyPrompts? ==>
              Run(s, maxPrompts, calls).1[k] == TooManyPrompts(s.promptCounter + k + 1, maxPrompts)
    decreases k
  {
    if k > 0 {
      var first := Step(s, maxPrompts, calls[0].options, calls[0].prompt, calls[0].tokenizer, calls[0].provider);
      RunPromptGuard(first.0, maxPrompts, calls[1..], k - 1);
    }
  }

  /**
   * On a new session with limit N, the first N calls pass the prompt guard
   * and every later call is refused with (its count, N).
   */
  lemma NewSessionPromptLimit(options: Options, calls: seq<Call>, k: nat)
    requires k < |calls|
    ensures var n := ResolvedMaxPrompts(options);
            var r := Run(InitialState(), ResolvedMaxPrompts(options), calls).1[k];
            (k < n ==> !r.TooManyPrompts?) && (k >= n ==> r == TooManyPrompts(k + 1, n))
  {
    RunPromptGuard(InitialState(), ResolvedMaxPrompts(options), calls, k);
  }

  /**
   * The token budget is read again at every call: a call refused by the
   * token guard reports the budget of the options object as it stood at
   * that call, so a change the caller makes between calls takes effect.
   */
  lemma {:induction false} RunReadsBudgetPerCall(s: State, maxPrompts: int, calls: seq<Call>, k: nat)
    requires k < |calls|
    ensures Run(s, maxPrompts, calls).1[k].TooManyTokens? ==>
              Run(s, maxPrompts, calls).1[k].max == TokenBudget(calls[k].options)
    decreases k
  {
    var first := Step(s, maxPrompts, calls[0].options, calls[0].prompt, calls[0].tokenizer, calls[0].provider);
    if k > 0 {
      RunReadsBudgetPerCall(first.0, maxPrompts, calls[1..], k - 1);
      assert calls[1..][k - 1] == calls[k];
    }
  }

  /** Once the counter has reached the limit, no call changes the log and every call is refused. */
  lemma {:induction false} ExhaustedSessionIsFrozen(s: State, maxPrompts: int, calls: seq<Call>)
    requires s.promptCounter >= maxPrompts
    ensures Run(s, maxPrompts, calls).0.conversation == s.conversation
    ensures forall k :: 0 <= k < |calls| ==> Run(s, maxPrompts, calls).1[k].TooManyPrompts?
    decreases |calls|
  {
    if calls != [] {
      var first := Step(s, maxPrompts, calls[0].options, calls[0].prompt, calls[0].tokenizer, calls[0].provider);
      ExhaustedSessionIsFrozen(first.0, maxPrompts, calls[1..]);
    }
  }

  lemma {:induction false} RunPreservesInvariant(s: State, maxPrompts: int, calls: seq<Call>)
    requires Invariant(s, maxPrompts)
    ensures Invariant(Run(s, maxPrompts, calls).0, maxPrompts)
    decreases |calls|
  {
    if calls != [] {
      StepPreservesInvariant(s, maxPrompts, calls[0].options, calls[0].prompt, calls[0].tokenizer, calls[0].provider);
      var first := Step(s, maxPrompts, calls[0].options, calls[0].prompt, calls[0].tokenizer, calls[0].provider);
      RunPreservesInvariant(first.0, maxPrompts, calls[1..]);
    }
  }

  /** Every state a new session reaches keeps the system message first and the other invariants. */
  lemma NewSessionInvariant(options: Options, calls: seq<Call>)
    ensures Invariant(Run(InitialState(), ResolvedMaxPrompts(options), calls).0, ResolvedMaxPrompts(options))
    ensures Run(InitialState(), ResolvedMaxPrompts(options), calls).0.conversation[0] == Message(System, SystemInstruction)
  {
    InitialInvariant(ResolvedMaxPrompts(options));
    RunPreservesInvariant(InitialState(), ResolvedMaxPrompts(options), calls);
  }

  /** The run's first step and the run of the remaining calls, by name. */
  lemma RunUnfold(s: State, maxPrompts: int, calls: seq<Call>)
    requires calls != []
    ensures var first := Step(s, maxPrompts, calls[0].options, calls[0].prompt, calls[0].tokenizer, calls[0].provider);
            var rest := Run(first.0, maxPrompts, calls[1..]);
            Run(s, maxPrompts, calls).0 == rest.0 && Run(s, maxPrompts, calls).1 == [first.1] + rest.1
  {
  }

  /** Messages `n + 2k` and `n + 2k + 1` of `conv` are call k's user turn and answer. */
  ghost predicate Exchanges(conv: seq<Message>, n: nat, calls: seq<Call>, results: seq<SendResult>)
    requires |results| == |calls|
  {
    |conv| == n + 2 * |calls| &&
    forall k :: 0 <= k < |calls| ==>
      conv[n + 2 * k] == Message(User, calls[k].prompt) &&
      results[k].Ok? && conv[n + 2 * k + 1] == Message(Assistant, results[k].response)
  }

  lemma ExchangesCons(conv: seq<Message>, n: nat, calls: seq<Call>, results: seq<SendResult>)
    requires calls != [] && |results| == |calls|
    requires n + 2 <= |conv|
    requires conv[n] == Message(User, calls[0].prompt)
    requires results[0].Ok? && conv[n + 1] == Message(Assistant, results[0].response)
    requires Exchanges(conv, n + 2, calls[1..], results[1..])
    ensures Exchanges(conv, n, calls, results)
  {
    forall k | 1 <= k < |calls|
      ensures conv[n + 2 * k] == Message(User, calls[k].prompt)
      ensures results[k].Ok? && conv[n + 2 * k + 1] == Message(Assistant, results[k].response)
    {
      assert calls[1..][k - 1] == calls[k] && results[1..][k - 1] == results[k];
      assert n + 2 + 2 * (k - 1) == n + 2 * k;
    }
  }

  /**
   * When every call of a run succeeds, the log grows by one user turn and
   * one assistant turn per call, in call order, each holding that call's
   * prompt and response.
   */
  lemma {:induction false} SuccessfulRunAlternates(s: State, maxPrompts: int, calls: seq<Call>)
    requires forall k :: 0 <= k < |calls| ==> Run(s, maxPrompts, calls).1[k].Ok?
    ensures Exchanges(Run(s, maxPrompts, calls).0.conversation, |s.conversation|, calls, Run(s, maxPrompts, calls).1)
    decreases |calls|
  {
    if calls != [] {
      var first := Step(s, maxPrompts, calls[0].options, calls[0].prompt, calls[0].tokenizer, calls[0].provider);
      var rest := Run(first.0, maxPrompts, calls[1..]);
      var r := Run(s, maxPrompts, calls);
      RunUnfold(s, maxPrompts, calls);
      assert r.1[0] == first.1;
      forall k | 0 <= k < |calls| - 1
        ensures rest.1[k].Ok?
      {
        assert rest.1[k] == r.1[k + 1];
      }
      SuccessfulRunAlternates(first.0, maxPrompts, calls[1..]);
      var n := |s.conversation|;
      var u, a := Message(User, calls[0].prompt), Message(Assistant, first.1.response);
      assert first.0.conversation == s.conversation + [u] + [a];
      assert first.0.conversation <= r.0.conversation;
      assert r.0.conversation[n] == first.0.conversation[n] == u;
      assert r.0.conversation[n + 1] == first.0.conversation[n + 1] == a;
      assert r.1[1..] == rest.1;
      ExchangesCons(r.0.conversation, n, calls, r.1);
    }
  }

  /**
   * The three-call sequence with `maxPrompts = 2` on a session that has sent
   * nothing yet: two successes, then a refusal reporting 3/2 that appends
   * nothing, so the log ends four messages longer than it began.
   */
  lemma PromptLimitScenario(s: State, calls: seq<Call>)
    requires s.promptCounter == 0 && |calls| == 3
    requires forall k :: 0 <= k < 3 ==> forall text, limit :: calls[k].tokenizer.isWithinTokenLimit(text, limit)
    requires forall k :: 0 <= k < 3 ==> forall m :: calls[k].provider(m).Choice? && calls[k].provider(m).content.Some? && calls[k].provider(m).content.value != []
    ensures var r := Run(s, 2, calls);
            r.1[0].Ok? && r.1[1].Ok? && r.1[2] == TooManyPrompts(3, 2) &&
            |r.0.conversation| == |s.conversation| + 4
  {
    var maxPrompts := 2;
    var s1 := Step(s, maxPrompts, calls[0].options, calls[0].prompt, calls[0].tokenizer, calls[0].provider);
    var s2 := Step(s1.0, maxPrompts, calls[1].options, calls[1].prompt, calls[1].tokenizer, calls[1].provider);
    var s3 := Step(s2.0, maxPrompts, calls[2].options, calls[2].prompt, calls[2].tokenizer, calls[2].provider);
    assert calls[1..][0] == calls[1] && calls[1..][1..] == calls[2..] && calls[2..][0] == calls[2];
    assert calls[2..][1..] == [];
    RunUnfold(s2.0, maxPrompts, calls[2..]);
    assert Run(s3.0, maxPrompts, []) == (s3.0, []);
    RunUnfold(s1.0, maxPrompts, calls[1..]);
    RunUnfold(s, maxPrompts, calls);
    assert Run(s, maxPrompts, calls).1 == [s1.1, s2.1, s3.1];
  }

  /** The same three calls on a new session created with `maxPrompts: 2`: the log ends at five messages. */
  lemma NewSessionPromptLimitScenario(calls: seq<Call>)
    requires |calls| == 3
    requires forall k :: 0 <= k < 3 ==> forall text, limit :: calls[k].tokenizer.isWithinTokenLimit(text, limit)
    requires forall k :: 0 <= k < 3 ==> forall m :: calls[k].provider(m).Choice? && calls[k].provider(m).content.Some? && calls[k].provider(m).content.value != []
    ensures var r := Run(InitialState(), ResolvedMaxPrompts(Options(Some(2), None)), calls);
            r.1[0].Ok? && r.1[1].Ok? && r.1[2] == TooManyPrompts(3, 2) && |r.0.conversation| == 5
  {
    PromptLimitScenario(InitialState(), calls);
  }
}
