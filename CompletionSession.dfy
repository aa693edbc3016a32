/**
 * The completion session created by `createOpenAICompletionSession`: an
 * append-only conversation log and a prompt counter, guarded by a prompt
 * limit and a token budget, around two outside collaborators (the tokenizer
 * and the completion provider), which are passed in as functions.
 *
 * `Step` is the specification of one `sendPrompt` call on the session's
 * state; the class `Session` holds that state in fields and its method
 * `SendPrompt` updates them in place, step by step, as the source does.
 *
 * The session keeps a reference to the caller's options object: `maxPrompts`
 * is read from it once, at creation, while the token option is read from it
 * on every call.  So each call is given the options object as it stands at
 * that moment, and only its token option is consulted.
 */
module CompletionSession {
  import opened Wrappers
  import Json

  datatype Role = System | User | Assistant

  datatype Message = Message(role: Role, content: string)

  /** The instruction every session starts with. */
  const SystemInstruction: string := "You are an AI assistant that helps people find information."
  const DefaultMaxPrompts: int := 5
  const DefaultMaxConversationTokens: int := 4000

  /** The caller's options object (the two limits); `None` is an absent option. */
  datatype Options = Options(maxPrompts: Option<int>, maxConversationTokens: Option<int>)

  /**
   * The token-length estimator: whether a text encodes within a limit, and
   * the exact number of tokens it encodes to (used only in the error).
   */
  datatype Tokenizer = Tokenizer(isWithinTokenLimit: (string, int) -> bool, encodedLength: string -> nat)

  /**
   * How the OpenAI request ends: the promise rejects (a network or API
   * error), or it yields a first choice whose content may be null (`None`).
   */
  datatype Completion = Rejected | Choice(content: Option<string>)

  /** The completion provider for one call, as a function of the messages it is sent. */
  type Provider = seq<Message> -> Completion

  /** What `sendPrompt` returns, or the error it throws. */
  datatype SendResult =
    | Ok(response: string, conversation: seq<Message>)
    | TooManyPrompts(count: nat, max: int)
    | TooManyTokens(count: nat, max: int)
    | RequestFailed
    | EmptyResponse

  datatype State = State(conversation: seq<Message>, promptCounter: nat)

  /**
   * A numeric option with a default, as `option || fallback`: an absent
   * option and 0 (falsy) both give the fallback, any other value is kept.
   */
  function ResolveLimit(option: Option<int>, fallback: int): (limit: int)
    ensures option.Some? && option.value != 0 ==> limit == option.value
    ensures option.None? || option.value == 0 ==> limit == fallback
    ensures fallback != 0 ==> limit != 0
  {
    if option.Some? && option.value != 0 then option.value else fallback
  }

  /** The prompt limit a session fixes at creation. */
  function ResolvedMaxPrompts(options: Options): (maxPrompts: int)
    ensures maxPrompts != 0
    ensures options.maxPrompts.Some? && options.maxPrompts.value != 0 ==> maxPrompts == options.maxPrompts.value
    ensures options.maxPrompts.None? || options.maxPrompts.value == 0 ==> maxPrompts == DefaultMaxPrompts
  {
    ResolveLimit(options.maxPrompts, DefaultMaxPrompts)
  }

  /** The token budget of one call, taken from the options object as it is at that call. */
  function TokenBudget(options: Options): (budget: int)
    ensures budget != 0
    ensures options.maxConversationTokens.Some? && options.maxConversationTokens.value != 0 ==>
              budget == options.maxConversationTokens.value
    ensures options.maxConversationTokens.None? || options.maxConversationTokens.value == 0 ==>
              budget == DefaultMaxConversationTokens
  {
    ResolveLimit(options.maxConversationTokens, DefaultMaxConversationTokens)
  }

  /** The state of a new session: the system instruction alone, no prompts sent. */
  function InitialState(): State
  {
    State([Message(System, SystemInstruction)], 0)
  }

  /** The message contents in order, as `conversation.map((m) => m.content)`. */
  function Contents(conversation: seq<Message>): (cs: seq<string>)
    ensures |cs| == |conversation|
    ensures forall i :: 0 <= i < |conversation| ==> cs[i] == conversation[i].content
  {
    if conversation == [] then [] else [conversation[0].content] + Contents(conversation[1..])
  }

  /** The text whose token length is checked against the budget (`fullContents`). */
  function TokenProbe(conversation: seq<Message>): string
  {
    Json.Probe(Contents(conversation))
  }

  /**
   * One `sendPrompt(prompt)` call: the new state of the session and the
   * call's outcome.  The counter moves first; the prompt guard runs before
   * the user message is appended, the token guard after it; the provider is
   * asked only once both guards pass, and its answer is appended only when
   * the request succeeded with non-empty content.
   */
  function Step(s: State, maxPrompts: int, options: Options, prompt: string, tokenizer: Tokenizer, provider: Provider)
    : (r: (State, SendResult))
    // the counter moves by exactly one on every call
    ensures r.0.promptCounter == s.promptCounter + 1
    // prompt guard: fires exactly when the new count exceeds the limit, and leaves the log alone
    ensures r.1.TooManyPrompts? <==> s.promptCounter + 1 > maxPrompts
    ensures r.1.TooManyPrompts? ==>
              r.1 == TooManyPrompts(s.promptCounter + 1, maxPrompts) && r.0.conversation == s.conversation
    // token guard: fires exactly when the prompt guard passed and the probe of the log with the
    // new user turn is over this call's budget
    ensures var conv := s.conversation + [Message(User, prompt)];
            r.1.TooManyTokens? <==>
              s.promptCounter + 1 <= maxPrompts && !tokenizer.isWithinTokenLimit(TokenProbe(conv), TokenBudget(options))
    ensures r.1.TooManyTokens? ==>
              var conv := s.conversation + [Message(User, prompt)];
              r.1.max == TokenBudget(options) && r.1.count == tokenizer.encodedLength(TokenProbe(conv))
    // the request: fails exactly when both guards passed and the provider rejected
    ensures var conv := s.conversation + [Message(User, prompt)];
            r.1.RequestFailed? <==> !r.1.TooManyPrompts? && !r.1.TooManyTokens? && provider(conv) == Rejected
    // the empty-response guard: fires exactly when both guards passed and the first choice is null or ""
    ensures var conv := s.conversation + [Message(User, prompt)];
            r.1.EmptyResponse? <==>
              !r.1.TooManyPrompts? && !r.1.TooManyTokens? && provider(conv) in {Choice(None), Choice(Some([]))}
    // the three late failures leave the orphan user turn and nothing after it
    ensures r.1.TooManyTokens? || r.1.RequestFailed? || r.1.EmptyResponse? ==>
              r.0.conversation == s.conversation + [Message(User, prompt)]
    // success: the provider saw the log ending in the user turn; its answer is appended and returned
    ensures r.1.Ok? ==>
              r.1.response != [] &&
              provider(s.conversation + [Message(User, prompt)]) == Choice(Some(r.1.response)) &&
              r.0.conversation == s.conversation + [Message(User, prompt)] + [Message(Assistant, r.1.response)] &&
              r.1.conversation == r.0.conversation
    // append-only
    ensures s.conversation <= r.0.conversation
  {
    var counter := s.promptCounter + 1;
    if counter > maxPrompts then
      (State(s.conversation, counter), TooManyPrompts(counter, maxPrompts))
    else
      var conv := s.conversation + [Message(User, prompt)];
      var maxTokens := TokenBudget(options);
      var fullContents := TokenProbe(conv);
      if !tokenizer.isWithinTokenLimit(fullContents, maxTokens) then
        (State(conv, counter), TooManyTokens(tokenizer.encodedLength(fullContents), maxTokens))
      else
        match provider(conv)
        case Rejected => (State(conv, counter), RequestFailed)
        case Choice(completion) =>
          if completion.None? || completion.value == [] then
            (State(conv, counter), EmptyResponse)
          else
            var conv' := conv + [Message(Assistant, completion.value)];
            (State(conv', counter), Ok(completion.value, conv'))
  }

  /**
   * The messages the provider is sent by a call, if any: the log ending in
   * the new user turn, and only when both guards have passed.
   */
  function Request(s: State, maxPrompts: int, options: Options, prompt: string, tokenizer: Tokenizer)
    : Option<seq<Message>>
  {
    var conv := s.conversation + [Message(User, prompt)];
    if s.promptCounter + 1 <= maxPrompts && tokenizer.isWithinTokenLimit(TokenProbe(conv), TokenBudget(options))
    then Some(conv) else None
  }

  /**
   * The provider is consulted only on the request: a call that a guard stops
   * gives the same state and outcome whatever the provider would answer, and
   * a call that reaches the provider depends only on its answer to the request.
   * This is the fail-fast property: no request is sent when a guard fires.
   */
  lemma ProviderConsultedOnlyOnRequest(s: State, maxPrompts: int, options: Options, prompt: string,
                                       tokenizer: Tokenizer, p: Provider, q: Provider)
    ensures var req := Request(s, maxPrompts, options, prompt, tokenizer);
            (req.None? || p(req.value) == q(req.value)) ==>
              Step(s, maxPrompts, options, prompt, tokenizer, p) == Step(s, maxPrompts, options, prompt, tokenizer, q)
    ensures var req := Request(s, maxPrompts, options, prompt, tokenizer);
            req.None? <==>
              Step(s, maxPrompts, options, prompt, tokenizer, p).1.TooManyPrompts? ||
              Step(s, maxPrompts, options, prompt, tokenizer, p).1.TooManyTokens?
  {
  }

  /**
   * Only the token option of the options object matters to a call: the
   * object's `maxPrompts` was read once, at creation, and a later change to it
   * has no effect.
   */
  lemma OnlyTokenOptionIsReadPerCall(s: State, maxPrompts: int, a: Options, b: Options, prompt: string,
                                     tokenizer: Tokenizer, provider: Provider)
    requires a.maxConversationTokens == b.maxConversationTokens
    ensures Step(s, maxPrompts, a, prompt, tokenizer, provider) == Step(s, maxPrompts, b, prompt, tokenizer, provider)
  {
  }

  // ---------------------------------------------------------------------
  // The invariant every reachable session state keeps.

  function UserCount(conversation: seq<Message>): nat
  {
    if conversation == [] then 0
    else (if conversation[0].role == User then 1 else 0) + UserCount(conversation[1..])
  }

  /** How many of the first `counter` calls get past the prompt guard. */
  function Admitted(counter: nat, maxPrompts: int): nat
  {
    if maxPrompts <= 0 then 0 else if counter <= maxPrompts then counter else maxPrompts
  }

  /**
   * The log starts with the system instruction and holds no other system
   * message, and every assistant message answers the user message just
   * before it.
   */
  ghost predicate WellFormed(conv: seq<Message>)
  {
    |conv| >= 1 && conv[0] == Message(System, SystemInstruction) &&
    (forall i :: 1 <= i < |conv| ==> conv[i].role != System) &&
    (forall i :: 1 <= i < |conv| && conv[i].role == Assistant ==> conv[i - 1].role == User)
  }

  /** A well-formed log with one user message per call that passed the prompt guard. */
  ghost predicate Invariant(s: State, maxPrompts: int)
  {
    WellFormed(s.conversation) && UserCount(s.conversation) == Admitted(s.promptCounter, maxPrompts)
  }

  lemma {:induction false} UserCountAppend(conversation: seq<Message>, m: Message)
    ensures UserCount(conversation + [m]) == UserCount(conversation) + (if m.role == User then 1 else 0)
  {
    if conversation != [] {
      assert (conversation + [m])[1..] == conversation[1..] + [m];
      UserCountAppend(conversation[1..], m);
    }
  }

  lemma WellFormedAppend(conv: seq<Message>, m: Message)
    requires WellFormed(conv) && m.role != System
    requires m.role == Assistant ==> conv[|conv| - 1].role == User
    ensures WellFormed(conv + [m])
  {
  }

  lemma InitialInvariant(maxPrompts: int)
    ensures Invariant(InitialState(), maxPrompts)
  {
  }

  /** A call that passes the prompt guard keeps the invariant whether or not an answer follows the user turn. */
  lemma AdmittedCallPreservesInvariant(s: State, maxPrompts: int, prompt: string, answer: Option<string>)
    requires Invariant(s, maxPrompts) && s.promptCounter + 1 <= maxPrompts
    ensures var asked := s.conversation + [Message(User, prompt)];
            Invariant(State(asked, s.promptCounter + 1), maxPrompts) &&
            (answer.Some? ==> Invariant(State(asked + [Message(Assistant, answer.value)], s.promptCounter + 1), maxPrompts))
  {
    var asked := s.conversation + [Message(User, prompt)];
    UserCountAppend(s.conversation, Message(User, prompt));
    WellFormedAppend(s.conversation, Message(User, prompt));
    if answer.Some? {
      UserCountAppend(asked, Message(Assistant, answer.value));
      WellFormedAppend(asked, Message(Assistant, answer.value));
    }
  }

  lemma StepPreservesInvariant(s: State, maxPrompts: int, options: Options, prompt: string,
                               tokenizer: Tokenizer, provider: Provider)
    requires Invariant(s, maxPrompts)
    ensures Invariant(Step(s, maxPrompts, options, prompt, tokenizer, provider).0, maxPrompts)
  {
    var r := Step(s, maxPrompts, options, prompt, tokenizer, provider);
    if r.1.TooManyPrompts? {
      assert Admitted(s.promptCounter + 1, maxPrompts) == Admitted(s.promptCounter, maxPrompts);
    } else if r.1.Ok? {
      AdmittedCallPreservesInvariant(s, maxPrompts, prompt, Some(r.1.response));
    } else {
      AdmittedCallPreservesInvariant(s, maxPrompts, prompt, None);
    }
  }

  // ---------------------------------------------------------------------
  // The session object.

  class Session {
    var conversation: seq<Message>
    var promptCounter: nat
    const maxPrompts: int

    ghost predicate Valid()
      reads this
    {
      Invariant(State(conversation, promptCounter), maxPrompts)
    }

    /** `createOpenAICompletionSession(client, options)`: no I/O, one system message, no prompts yet. */
    constructor (options: Options)
      ensures conversation == [Message(System, SystemInstruction)] && promptCounter == 0
      ensures maxPrompts == ResolvedMaxPrompts(options)
      ensures Valid()
    {
      conversation := [Message(System, SystemInstruction)];
      promptCounter := 0;
      maxPrompts := ResolveLimit(options.maxPrompts, DefaultMaxPrompts);
    }

    /**
     * `sendPrompt(prompt)`.  `options` is the caller's options object as it
     * is when the call is made; the tokenizer and the provider are supplied
     * by the caller.
     */
    method SendPrompt(prompt: string, options: Options, tokenizer: Tokenizer, provider: Provider)
      returns (result: SendResult)
      requires Valid()
      modifies this
      ensures Valid()
      ensures (State(conversation, promptCounter), result)
           == Step(State(old(conversation), old(promptCounter)), maxPrompts, options, prompt, tokenizer, provider)
      ensures promptCounter == old(promptCounter) + 1
      ensures result.TooManyPrompts? <==> old(promptCounter) + 1 > maxPrompts
      ensures result.TooManyPrompts? ==> conversation == old(conversation)
      ensures result.TooManyTokens? <==>
                old(promptCounter) + 1 <= maxPrompts &&
                !tokenizer.isWithinTokenLimit(TokenProbe(old(conversation) + [Message(User, prompt)]), TokenBudget(options))
      ensures result.RequestFailed? <==>
                !result.TooManyPrompts? && !result.TooManyTokens? &&
                provider(old(conversation) + [Message(User, prompt)]) == Rejected
      ensures result.EmptyResponse? <==>
                !result.TooManyPrompts? && !result.TooManyTokens? &&
                provider(old(conversation) + [Message(User, prompt)]) in {Choice(None), Choice(Some([]))}
      ensures result.TooManyTokens? || result.RequestFailed? || result.EmptyResponse? ==>
                conversation == old(conversation) + [Message(User, prompt)]
      ensures result.Ok? ==>
                conversation == old(conversation) + [Message(User, prompt)] + [Message(Assistant, result.response)] &&
                result.conversation == conversation
    {
      StepPreservesInvariant(State(conversation, promptCounter), maxPrompts, options, prompt, tokenizer, provider);
      promptCounter := promptCounter + 1;
      if promptCounter > maxPrompts {
        return TooManyPrompts(promptCounter, maxPrompts);
      }
      conversation := conversation + [Message(User, prompt)];

      var maxTokens := TokenBudget(options);
      var fullContents := TokenProbe(conversation);
      if !tokenizer.isWithinTokenLimit(fullContents, maxTokens) {
        return TooManyTokens(tokenizer.encodedLength(fullContents), maxTokens);
      }

      var response := provider(conversation);
      if response.Rejected? {
        return RequestFailed;
      }
      var completion := response.content;
      if completion.None? || completion.value == [] {
        return EmptyResponse;
      }
      conversation := conversation + [Message(Assistant, completion.value)];
      result := Ok(completion.value, conversation);
    }
  }
}
