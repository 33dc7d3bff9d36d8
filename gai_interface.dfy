/**
 * The reply orchestrator of the GAI interface: `get_ai_reply`, which turns
 * a chat history and bot instructions into one reply text, and
 * `list_available_models`, which flattens the configured models.
 *
 * `get_ai_reply` is split into the stages it runs in order:
 *   Prepare  - the interaction ceiling and the recursive truncation that
 *              drops the oldest message until the word budget is met;
 *   Route    - the dispatch list with its leading system entry, the
 *              platform choice and the client-presence checks;
 *   Decide   - the two composed: either a local text or a provider request;
 *   GetAiReply - the final text, given what the provider call produced.
 * The provider clients are process-wide objects created from credentials;
 * here only their presence is an input (Clients), and the outcome of the
 * provider call is an input too (ProviderOutcome).
 */
module GaiInterface {
  import opened Words

  datatype Option<T> = None | Some(value: T)

  /** One chat message, the dict `{"role": ..., "content": ...}`. */
  datatype Message = Message(role: string, content: string)

  /** The words of the clause appended to the instructions once per dropped message. */
  const ClauseWordList: seq<string> :=
    ["You", "are", "in", "the", "middle", "of", "a", "conversation", "with", "the", "user."]
  /** " You are in the middle of a conversation with the user." */
  const Clause: string := Spaced(ClauseWordList)
  const DefaultGoodbye: string := "Thank you for the conversation."
  const TooLongNotice: string := "I'm sorry, but your response is too long. Can you try something shorter?"
  const ErrorOccurred: string := "Error occurred."
  const CannotRespond: string := "I can't figure out how to respond to your message. Could you try again?"
  const EncounteredError: string :=
    "I encountered an error and can't figure out how to respond to your message. Could you try again?"
  /** The completion limit sent with every Claude request. */
  const ClaudeMaxTokens: int := 1024

  // ---------------------------------------------------------------------
  // Python truthiness of the optional parameters
  // ---------------------------------------------------------------------

  /** An optional integer is truthy when present and non-zero. */
  predicate Truthy(n: Option<int>) {
    n.Some? && n.value != 0
  }

  /** The interaction ceiling test: both values truthy and the length above the maximum. */
  predicate LimitReached(maxInteractions: Option<int>, conversationLength: Option<int>) {
    Truthy(maxInteractions) && Truthy(conversationLength)
    && conversationLength.value > maxInteractions.value
  }

  /** The length passed to the next round: decremented when truthy, None otherwise. */
  function NextLength(conversationLength: Option<int>): Option<int> {
    if Truthy(conversationLength) then Some(conversationLength.value - 1) else None
  }

  /** The goodbye text: the configured one when non-empty, a default otherwise. */
  function GoodbyeText(goodbye: Option<string>): string {
    if goodbye.Some? && goodbye.value != "" then goodbye.value else DefaultGoodbye
  }

  /** A later round cannot reach the ceiling if this round did not. */
  lemma NextLengthKeepsBelowLimit(maxInteractions: Option<int>, conversationLength: Option<int>)
    ensures LimitReached(maxInteractions, NextLength(conversationLength))
        ==> LimitReached(maxInteractions, conversationLength)
  {
  }

  // ---------------------------------------------------------------------
  // Size estimate
  // ---------------------------------------------------------------------

  /** Words in the contents of all messages. */
  function TotalWords(messages: seq<Message>): nat {
    if messages == [] then 0 else WordCount(messages[0].content) + TotalWords(messages[1..])
  }

  /** The estimated context size: words of the instructions plus words of every message. */
  function ContextSize(instructions: string, messages: seq<Message>): nat {
    WordCount(instructions) + TotalWords(messages)
  }

  lemma {:induction false} TotalWordsAppend(messages: seq<Message>, m: Message)
    ensures TotalWords(messages + [m]) == TotalWords(messages) + WordCount(m.content)
    decreases |messages|
  {
    if messages == [] {
      assert messages + [m] == [m];
    } else {
      assert (messages + [m])[1..] == messages[1..] + [m];
      TotalWordsAppend(messages[1..], m);
    }
  }

  /** The size estimate as the source computes it, one message at a time. */
  method EstimateSize(instructions: string, messages: seq<Message>) returns (size: nat)
    ensures size == ContextSize(instructions, messages)
  {
    size := WordCount(instructions);
    for i := 0 to |messages|
      invariant size == WordCount(instructions) + TotalWords(messages[..i])
    {
      TotalWordsAppend(messages[..i], messages[i]);
      assert messages[..i + 1] == messages[..i] + [messages[i]];
      size := size + WordCount(messages[i].content);
    }
    assert messages[..|messages|] == messages;
  }

  // ---------------------------------------------------------------------
  // Truncation
  // ---------------------------------------------------------------------

  /** `k` copies of the clause, one per truncation round. */
  function Repeat(clause: string, k: nat): string {
    if k == 0 then [] else clause + Repeat(clause, k - 1)
  }

  /** The estimated size after `j` truncation rounds that each append `clause`. */
  function SizeAfter(instructions: string, clause: string, messages: seq<Message>, j: nat): nat
    requires j <= |messages|
  {
    ContextSize(instructions + Repeat(clause, j), messages[j..])
  }

  /** The outcome of the interaction check and the truncation. */
  datatype Plan =
    | Goodbye(text: string)
    | TooLong
    | Fits(instructions: string, messages: seq<Message>)

  /**
   * Whether the source's recursion ends normally.  On an empty history that
   * is over budget and below the ceiling, dropping nothing never shrinks
   * it: the recursion is unbounded and Python stops it by raising
   * RecursionError, which no handler in the function catches.
   */
  predicate Terminates(messages: seq<Message>, instructions: string, maxTokens: int,
                       maxInteractions: Option<int>, conversationLength: Option<int>)
  {
    messages != [] || LimitReached(maxInteractions, conversationLength)
    || ContextSize(instructions, messages) <= maxTokens
  }

  lemma RepeatShift(instructions: string, clause: string, j: nat)
    ensures (instructions + clause) + Repeat(clause, j) == instructions + Repeat(clause, j + 1)
  {
  }

  lemma RepeatNone(instructions: string, clause: string)
    ensures instructions + Repeat(clause, 0) == instructions
  {
  }

  lemma SizeAfterZero(instructions: string, clause: string, messages: seq<Message>)
    ensures SizeAfter(instructions, clause, messages, 0) == ContextSize(instructions, messages)
  {
    RepeatNone(instructions, clause);
    assert messages[0..] == messages;
  }

  lemma SizeAfterShift(instructions: string, clause: string, messages: seq<Message>, j: nat)
    requires j + 1 <= |messages|
    ensures SizeAfter(instructions + clause, clause, messages[1..], j)
         == SizeAfter(instructions, clause, messages, j + 1)
  {
    RepeatShift(instructions, clause, j);
    assert messages[1..][j..] == messages[j + 1..];
  }

  /** No suffix fits iff the whole history does not and no suffix after one round does. */
  lemma AllOverShift(instructions: string, clause: string, messages: seq<Message>, maxTokens: int)
    requires |messages| >= 2
    ensures (forall j :: 0 <= j < |messages| ==> SizeAfter(instructions, clause, messages, j) > maxTokens)
        <==> && SizeAfter(instructions, clause, messages, 0) > maxTokens
             && forall j :: 0 <= j < |messages| - 1 ==>
                  SizeAfter(instructions + clause, clause, messages[1..], j) > maxTokens
  {
    forall j | 0 < j < |messages|
      ensures SizeAfter(instructions, clause, messages, j)
           == SizeAfter(instructions + clause, clause, messages[1..], j - 1)
    {
      SizeAfterShift(instructions, clause, messages, j - 1);
    }
    if exists j :: 0 <= j < |messages| - 1 && SizeAfter(instructions + clause, clause, messages[1..], j) <= maxTokens {
      var j :| 0 <= j < |messages| - 1 && SizeAfter(instructions + clause, clause, messages[1..], j) <= maxTokens;
      assert SizeAfter(instructions, clause, messages, j + 1) <= maxTokens;
    }
  }

  /** The first fitting round count moves up by one when the history loses its oldest message. */
  lemma FirstFitShift(instructions: string, clause: string, messages: seq<Message>, maxTokens: int, k: nat)
    requires 1 <= k < |messages|
    requires SizeAfter(instructions, clause, messages, 0) > maxTokens
    requires SizeAfter(instructions + clause, clause, messages[1..], k - 1) <= maxTokens
    requires forall j :: 0 <= j < k - 1 ==> SizeAfter(instructions + clause, clause, messages[1..], j) > maxTokens
    ensures SizeAfter(instructions, clause, messages, k) <= maxTokens
    ensures forall j :: 0 <= j < k ==> SizeAfter(instructions, clause, messages, j) > maxTokens
  {
    SizeAfterShift(instructions, clause, messages, k - 1);
    forall j | 0 < j < k
      ensures SizeAfter(instructions, clause, messages, j) > maxTokens
    {
      SizeAfterShift(instructions, clause, messages, j - 1);
    }
  }

  /**
   * Steps 1-3 of `get_ai_reply`: the interaction ceiling, then the word
   * budget; over budget, a lone message gives up and a longer history
   * drops its oldest message, appends `clause` to the instructions and
   * starts again with the decremented length.  `get_ai_reply` appends
   * Clause; the proofs below hold for any clause.  The recursion measure
   * is the history length, not the size (see RoundCanGrowSize).
   */
  function Prepare(messages: seq<Message>, instructions: string, clause: string, maxTokens: int,
                   maxInteractions: Option<int>, goodbye: Option<string>,
                   conversationLength: Option<int>): Plan
    requires Terminates(messages, instructions, maxTokens, maxInteractions, conversationLength)
    decreases |messages|
  {
    if LimitReached(maxInteractions, conversationLength) then
      Goodbye(GoodbyeText(goodbye))
    else if ContextSize(instructions, messages) > maxTokens then
      if |messages| == 1 then
        TooLong
      else
        Prepare(messages[1..], instructions + clause, clause, maxTokens, maxInteractions, goodbye,
                NextLength(conversationLength))
    else
      Fits(instructions, messages)
  }

  /**
   * The goodbye comes exactly when the first round's ceiling test holds:
   * later rounds only lower the length, so they never reach it first.
   */
  lemma {:induction false} PrepareGoodbye(messages: seq<Message>, instructions: string, clause: string,
                                          maxTokens: int, maxInteractions: Option<int>,
                                          goodbye: Option<string>, conversationLength: Option<int>)
    requires Terminates(messages, instructions, maxTokens, maxInteractions, conversationLength)
    ensures var p := Prepare(messages, instructions, clause, maxTokens, maxInteractions, goodbye,
                             conversationLength);
            && (p.Goodbye? <==> LimitReached(maxInteractions, conversationLength))
            && (p.Goodbye? ==> p.text == GoodbyeText(goodbye))
    decreases |messages|
  {
    if !LimitReached(maxInteractions, conversationLength)
       && ContextSize(instructions, messages) > maxTokens && |messages| != 1
    {
      NextLengthKeepsBelowLimit(maxInteractions, conversationLength);
      PrepareGoodbye(messages[1..], instructions + clause, clause, maxTokens, maxInteractions, goodbye,
                     NextLength(conversationLength));
    }
  }

  /**
   * What Prepare dispatches is the history minus its `k` oldest messages
   * (never nothing of a non-empty history) and the instructions followed
   * by `k` copies of the clause.
   */
  lemma {:induction false} PrepareFitsSuffix(messages: seq<Message>, instructions: string, clause: string,
                                             maxTokens: int, maxInteractions: Option<int>,
                                             goodbye: Option<string>, conversationLength: Option<int>)
    requires Terminates(messages, instructions, maxTokens, maxInteractions, conversationLength)
    ensures var p := Prepare(messages, instructions, clause, maxTokens, maxInteractions, goodbye,
                             conversationLength);
            p.Fits? ==>
              var k := |messages| - |p.messages|;
              && |p.messages| <= |messages|
              && (messages != [] ==> p.messages != [])
              && p.messages == messages[k..]
              && p.instructions == instructions + Repeat(clause, k)
    decreases |messages|
  {
    var p := Prepare(messages, instructions, clause, maxTokens, maxInteractions, goodbye, conversationLength);
    if LimitReached(maxInteractions, conversationLength) {
      assert p.Goodbye?;
    } else if ContextSize(instructions, messages) > maxTokens {
      if |messages| != 1 {
        var rest := messages[1..];
        var q := Prepare(rest, instructions + clause, clause, maxTokens, maxInteractions, goodbye,
                         NextLength(conversationLength));
        assert p == q;
        PrepareFitsSuffix(rest, instructions + clause, clause, maxTokens, maxInteractions, goodbye,
                          NextLength(conversationLength));
        if q.Fits? {
          var k := |messages| - |q.messages|;
          assert rest[k - 1..] == messages[k..];
          RepeatShift(instructions, clause, k - 1);
        }
      }
    } else {
      assert p == Fits(instructions, messages);
      RepeatNone(instructions, clause);
      assert messages[0..] == messages;
    }
  }

  /**
   * The number of rounds Prepare runs is the first `k` after which the
   * estimated size is within the budget.
   */
  lemma {:induction false} PrepareFitsFirst(messages: seq<Message>, instructions: string, clause: string,
                                            maxTokens: int, maxInteractions: Option<int>,
                                            goodbye: Option<string>, conversationLength: Option<int>)
    requires Terminates(messages, instructions, maxTokens, maxInteractions, conversationLength)
    ensures var p := Prepare(messages, instructions, clause, maxTokens, maxInteractions, goodbye,
                             conversationLength);
            p.Fits? ==> |p.messages| <= |messages|
    ensures var p := Prepare(messages, instructions, clause, maxTokens, maxInteractions, goodbye,
                             conversationLength);
            p.Fits? ==>
              var k := |messages| - |p.messages|;
              && SizeAfter(instructions, clause, messages, k) <= maxTokens
              && forall j :: 0 <= j < k ==> SizeAfter(instructions, clause, messages, j) > maxTokens
    decreases |messages|
  {
    var p := Prepare(messages, instructions, clause, maxTokens, maxInteractions, goodbye, conversationLength);
    PrepareFitsSuffix(messages, instructions, clause, maxTokens, maxInteractions, goodbye, conversationLength);
    SizeAfterZero(instructions, clause, messages);
    if LimitReached(maxInteractions, conversationLength) {
      assert p.Goodbye?;
    } else if ContextSize(instructions, messages) > maxTokens {
      if |messages| != 1 {
        var rest := messages[1..];
        var q := Prepare(rest, instructions + clause, clause, maxTokens, maxInteractions, goodbye,
                         NextLength(conversationLength));
        assert p == q;
        PrepareFitsFirst(rest, instructions + clause, clause, maxTokens, maxInteractions, goodbye,
                         NextLength(conversationLength));
        PrepareFitsSuffix(rest, instructions + clause, clause, maxTokens, maxInteractions, goodbye,
                          NextLength(conversationLength));
        if q.Fits? {
          FirstFitShift(instructions, clause, messages, maxTokens, |messages| - |q.messages|);
        }
      }
    } else {
      assert p == Fits(instructions, messages);
    }
  }

  /** Prepare gives up exactly when no suffix, down to the last message alone, fits. */
  lemma {:induction false} PrepareTooLong(messages: seq<Message>, instructions: string, clause: string,
                                          maxTokens: int, maxInteractions: Option<int>,
                                          goodbye: Option<string>, conversationLength: Option<int>)
    requires Terminates(messages, instructions, maxTokens, maxInteractions, conversationLength)
    ensures Prepare(messages, instructions, clause, maxTokens, maxInteractions, goodbye,
                    conversationLength).TooLong?
        <==> && !LimitReached(maxInteractions, conversationLength)
             && messages != []
             && forall j :: 0 <= j < |messages| ==> SizeAfter(instructions, clause, messages, j) > maxTokens
    decreases |messages|
  {
    var p := Prepare(messages, instructions, clause, maxTokens, maxInteractions, goodbye, conversationLength);
    SizeAfterZero(instructions, clause, messages);
    if LimitReached(maxInteractions, conversationLength) {
      assert p.Goodbye?;
    } else if ContextSize(instructions, messages) > maxTokens {
      if |messages| == 1 {
        assert p.TooLong?;
      } else {
        var rest := messages[1..];
        var q := Prepare(rest, instructions + clause, clause, maxTokens, maxInteractions, goodbye,
                         NextLength(conversationLength));
        assert p == q;
        NextLengthKeepsBelowLimit(maxInteractions, conversationLength);
        PrepareTooLong(rest, instructions + clause, clause, maxTokens, maxInteractions, goodbye,
                       NextLength(conversationLength));
        AllOverShift(instructions, clause, messages, maxTokens);
      }
    } else {
      assert p.Fits?;
    }
  }

  // ---------------------------------------------------------------------
  // Dispatch
  // ---------------------------------------------------------------------

  /** Which provider clients were created at start-up (each needs its API key). */
  datatype Clients = Clients(openAI: bool, anthropic: bool)

  /** A request handed to a provider SDK. */
  datatype Request =
    | OpenAIChat(model: string, messages: seq<Message>)
    | ClaudeChat(model: string, maxTokens: int, system: string, messages: seq<Message>)

  /** What the orchestrator does: answer with a local text, or call a provider. */
  datatype Decision = Respond(text: string) | Call(request: Request)

  /** The class of the exception a provider call raised. */
  datatype ProviderError =
    | OpenAIBadRequest     // openai.BadRequestError, the one class caught separately
    | AnthropicBadRequest  // anthropic.BadRequestError, an unrelated class
    | OtherFailure         // network, authentication, rate limit, a malformed response, ...

  /** What the provider call produced: its reply text, or an exception. */
  datatype ProviderOutcome = Replied(text: string) | Raised(error: ProviderError)

  /** The leading entry of the dispatch list. */
  function SystemEntry(instructions: string): Message {
    Message("system", instructions)
  }

  /** The list comprehension that drops every entry whose role is "system". */
  function WithoutSystem(messages: seq<Message>): (kept: seq<Message>)
    ensures |kept| <= |messages|
    ensures forall m :: m in kept <==> m in messages && m.role != "system"
  {
    if messages == [] then []
    else (if messages[0].role != "system" then [messages[0]] else []) + WithoutSystem(messages[1..])
  }

  /** The filter keeps or drops a single entry according to its role alone. */
  lemma WithoutSystemSingle(m: Message)
    ensures m.role != "system" ==> WithoutSystem([m]) == [m]
    ensures m.role == "system" ==> WithoutSystem([m]) == []
  {
  }

  /**
   * The filter works entry by entry: filtering a joined list is joining the
   * filtered parts.  With WithoutSystemSingle this fixes the result as the
   * non-system entries in their original order, each as often as it occurs.
   */
  lemma {:induction false} WithoutSystemConcat(a: seq<Message>, b: seq<Message>)
    ensures WithoutSystem(a + b) == WithoutSystem(a) + WithoutSystem(b)
    decreases |a|
  {
    if a == [] {
      assert a + b == b;
    } else {
      assert (a + b)[1..] == a[1..] + b;
      WithoutSystemConcat(a[1..], b);
    }
  }

  /** The filter keeps a list without system entries as it is, in order. */
  lemma {:induction false} WithoutSystemKeepsConversation(messages: seq<Message>)
    requires forall i :: 0 <= i < |messages| ==> messages[i].role != "system"
    ensures WithoutSystem(messages) == messages
    decreases |messages|
  {
    if messages != [] {
      WithoutSystemKeepsConversation(messages[1..]);
    }
  }

  /** Whether the platform is one the source knows and its client exists. */
  predicate ClientReady(platform: string, clients: Clients) {
    || (platform == "openai" && clients.openAI)
    || (platform == "claude" && clients.anthropic)
  }

  /**
   * Step 4 and the platform branch: build `[system entry] + messages`;
   * OpenAI takes it as it is, Claude takes it without system entries and
   * the instructions as a separate `system` argument.  A missing client or
   * an unknown platform is answered locally with "Error occurred.".
   */
  function Route(platform: string, model: string, instructions: string, messages: seq<Message>,
                 clients: Clients): (d: Decision)
    ensures d.Respond? <==> !ClientReady(platform, clients)
    ensures d.Respond? ==> d.text == ErrorOccurred
    ensures d.Call? && platform == "openai" ==>
              && d.request.OpenAIChat?
              && d.request.model == model
              && d.request.messages == [SystemEntry(instructions)] + messages
    ensures d.Call? && platform == "claude" ==>
              && d.request.ClaudeChat?
              && d.request.model == model
              && d.request.maxTokens == ClaudeMaxTokens
              && d.request.system == instructions
              && d.request.messages == WithoutSystem(messages)
  {
    var final := [SystemEntry(instructions)] + messages;
    if platform == "openai" then
      if !clients.openAI then Respond(ErrorOccurred) else Call(OpenAIChat(model, final))
    else if platform == "claude" then
      if !clients.anthropic then Respond(ErrorOccurred)
      else
        assert final[1..] == messages;
        Call(ClaudeChat(model, ClaudeMaxTokens, instructions, WithoutSystem(final)))
    else
      Respond(ErrorOccurred)
  }

  /**
   * The exception handlers: only openai's BadRequestError gets the
   * "can't figure out" text; every other exception, Anthropic's
   * BadRequestError included, gets the "encountered an error" text.
   */
  function OutcomeText(outcome: ProviderOutcome): (text: string)
    ensures outcome.Replied? ==> text == outcome.text
    ensures outcome == Raised(OpenAIBadRequest) ==> text == CannotRespond
    ensures outcome.Raised? && outcome.error != OpenAIBadRequest ==> text == EncounteredError
  {
    match outcome
    case Replied(reply) => reply
    case Raised(OpenAIBadRequest) => CannotRespond
    case Raised(_) => EncounteredError
  }

  /** The local texts are pairwise distinct, so a caller can tell the cases apart. */
  lemma LocalTextsDistinct()
    ensures CannotRespond != EncounteredError
    ensures ErrorOccurred != CannotRespond && ErrorOccurred != EncounteredError
    ensures TooLongNotice != ErrorOccurred && TooLongNotice != CannotRespond && TooLongNotice != EncounteredError
  {
    assert |CannotRespond| != |EncounteredError|;
    assert |ErrorOccurred| != |CannotRespond| && |ErrorOccurred| != |EncounteredError|;
    assert |TooLongNotice| != |ErrorOccurred|;
    assert |TooLongNotice| != |CannotRespond|;
    assert |TooLongNotice| != |EncounteredError|;
  }

  // ---------------------------------------------------------------------
  // get_ai_reply
  // ---------------------------------------------------------------------

  /** Everything `get_ai_reply` decides before the provider is called. */
  function Decide(messages: seq<Message>, instructions: string, platform: string, model: string,
                  maxTokens: int, maxInteractions: Option<int>, goodbye: Option<string>,
                  conversationLength: Option<int>, clients: Clients): (d: Decision)
    requires Terminates(messages, instructions, maxTokens, maxInteractions, conversationLength)
    ensures LimitReached(maxInteractions, conversationLength) ==> d == Respond(GoodbyeText(goodbye))
    ensures (&& !LimitReached(maxInteractions, conversationLength) && |messages| == 1
             && ContextSize(instructions, messages) > maxTokens) ==> d == Respond(TooLongNotice)
    ensures (!LimitReached(maxInteractions, conversationLength) && ContextSize(instructions, messages) <= maxTokens)
            ==> d == Route(platform, model, instructions, messages, clients)
  {
    match Prepare(messages, instructions, Clause, maxTokens, maxInteractions, goodbye, conversationLength)
    case Goodbye(text) => Respond(text)
    case TooLong => Respond(TooLongNotice)
    case Fits(working, kept) => Route(platform, model, working, kept, clients)
  }

  /**
   * `get_ai_reply`: the reply text, given the outcome the provider call
   * would have.  Every path ends in a text.
   */
  function GetAiReply(messages: seq<Message>, instructions: string, platform: string, model: string,
                      maxTokens: int, maxInteractions: Option<int>, goodbye: Option<string>,
                      conversationLength: Option<int>, clients: Clients,
                      outcome: ProviderOutcome): (reply: string)
    requires Terminates(messages, instructions, maxTokens, maxInteractions, conversationLength)
    ensures var p := Prepare(messages, instructions, Clause, maxTokens, maxInteractions, goodbye,
                             conversationLength);
            && (p.Goodbye? ==> reply == GoodbyeText(goodbye))
            && (p.TooLong? ==> reply == TooLongNotice)
            && (p.Fits? && !ClientReady(platform, clients) ==> reply == ErrorOccurred)
            && (p.Fits? && ClientReady(platform, clients) ==> reply == OutcomeText(outcome))
  {
    PrepareGoodbye(messages, instructions, Clause, maxTokens, maxInteractions, goodbye, conversationLength);
    match Decide(messages, instructions, platform, model, maxTokens, maxInteractions, goodbye,
                 conversationLength, clients)
    case Respond(text) => text
    case Call(_) => OutcomeText(outcome)
  }

  /**
   * Truncation drops exactly the oldest messages: if `k` is the first
   * number of rounds after which the size fits, the provider is asked with
   * the last `|messages| - k` messages and the instructions carrying the
   * clause `k` times.
   */
  lemma DispatchesFirstFittingSuffix(messages: seq<Message>, instructions: string, platform: string,
                                     model: string, maxTokens: int, maxInteractions: Option<int>,
                                     goodbye: Option<string>, conversationLength: Option<int>,
                                     clients: Clients, k: nat)
    requires !LimitReached(maxInteractions, conversationLength)
    requires k < |messages|
    requires SizeAfter(instructions, Clause, messages, k) <= maxTokens
    requires forall j :: 0 <= j < k ==> SizeAfter(instructions, Clause, messages, j) > maxTokens
    ensures Decide(messages, instructions, platform, model, maxTokens, maxInteractions, goodbye,
                   conversationLength, clients)
         == Route(platform, model, instructions + Repeat(Clause, k), messages[k..], clients)
  {
    var clause := Clause;
    PrepareGoodbye(messages, instructions, clause, maxTokens, maxInteractions, goodbye, conversationLength);
    PrepareTooLong(messages, instructions, clause, maxTokens, maxInteractions, goodbye, conversationLength);
    PrepareFitsSuffix(messages, instructions, clause, maxTokens, maxInteractions, goodbye, conversationLength);
    PrepareFitsFirst(messages, instructions, clause, maxTokens, maxInteractions, goodbye, conversationLength);
    var p := Prepare(messages, instructions, clause, maxTokens, maxInteractions, goodbye, conversationLength);
    assert p.Fits?;
    assert |messages| - |p.messages| == k;
  }

  /**
   * A history that is over budget even as its last message alone, below
   * the ceiling, gets the too-long notice and no provider call.
   */
  lemma NothingFitsIsTooLong(messages: seq<Message>, instructions: string, platform: string,
                             model: string, maxTokens: int, maxInteractions: Option<int>,
                             goodbye: Option<string>, conversationLength: Option<int>,
                             clients: Clients)
    requires !LimitReached(maxInteractions, conversationLength)
    requires messages != []
    requires forall j :: 0 <= j < |messages| ==> SizeAfter(instructions, Clause, messages, j) > maxTokens
    ensures Decide(messages, instructions, platform, model, maxTokens, maxInteractions, goodbye,
                   conversationLength, clients)
         == Respond(TooLongNotice)
  {
    PrepareTooLong(messages, instructions, Clause, maxTokens, maxInteractions, goodbye, conversationLength);
  }

  /** Each round adds the clause's eleven words and removes the dropped message's words. */
  lemma RoundSize(instructions: string, messages: seq<Message>)
    requires messages != []
    ensures ContextSize(instructions + Clause, messages[1..])
         == ContextSize(instructions, messages) - WordCount(messages[0].content) + 11
  {
    ClauseWords();
    WordCountConcat(instructions, Clause);
  }

  lemma {:induction false} RepeatWords(instructions: string, clause: string, k: nat)
    requires clause == [] || IsSpace(clause[0])
    ensures WordCount(instructions + Repeat(clause, k)) == WordCount(instructions) + k * WordCount(clause)
    decreases k
  {
    if k == 0 {
      RepeatNone(instructions, clause);
    } else {
      RepeatShift(instructions, clause, k - 1);
      WordCountConcat(instructions, clause);
      RepeatWords(instructions + clause, clause, k - 1);
    }
  }

  /** After `k` rounds the instructions carry `11 * k` more words. */
  lemma RepeatedClauseWords(instructions: string, k: nat)
    ensures WordCount(instructions + Repeat(Clause, k)) == WordCount(instructions) + 11 * k
  {
    ClauseWords();
    RepeatWords(instructions, Clause, k);
  }

  /**
   * The size is not a decreasing measure: dropping an empty message costs
   * nothing and the clause adds eleven words, so a round can grow the
   * estimate.  The recursion ends because the history shrinks.
   */
  lemma RoundCanGrowSize()
    ensures var messages := [Message("user", ""), Message("user", "hello")];
            ContextSize("Be brief.", messages) < ContextSize("Be brief." + Clause, messages[1..])
  {
    var messages := [Message("user", ""), Message("user", "hello")];
    assert WordCount("") == 0;
    RoundSize("Be brief.", messages);
  }

  /** The clause has eleven words and starts with whitespace. */
  lemma ClauseWords()
    ensures WordCount(Clause) == 11
    ensures IsSpace(Clause[0])
  {
    forall i | 0 <= i < |ClauseWordList|
      ensures IsWord(ClauseWordList[i])
    {
    }
    SpacedWordCount(ClauseWordList);
  }

  // ---------------------------------------------------------------------
  // list_available_models
  // ---------------------------------------------------------------------

  /** One entry of the 'gai_models' mapping: a platform and its model names. */
  datatype PlatformModels = PlatformModels(platform: string, models: seq<string>)

  /**
   * The part of the configuration read here: the 'gai_models' mapping when
   * the key is present, its entries in the mapping's iteration order.
   */
  datatype Config = Config(gaiModels: Option<seq<PlatformModels>>)

  /** One (platform, model) pair per model, in list order. */
  function Pairs(platform: string, models: seq<string>): seq<(string, string)> {
    seq(|models|, i requires 0 <= i < |models| => (platform, models[i]))
  }

  /** A pair comes out of one platform's list exactly when it names that platform and a listed model. */
  lemma PairsMembership(platform: string, models: seq<string>, p: string, model: string)
    ensures (p, model) in Pairs(platform, models) <==> p == platform && model in models
  {
    var pairs := Pairs(platform, models);
    if p == platform && model in models {
      var i :| 0 <= i < |models| && models[i] == model;
      assert pairs[i] == (p, model);
    }
  }

  /** The pairs of every entry, entry after entry. */
  function Flatten(entries: seq<PlatformModels>): seq<(string, string)> {
    if entries == [] then []
    else Pairs(entries[0].platform, entries[0].models) + Flatten(entries[1..])
  }

  /** The number of configured models, summed over the platforms. */
  function ModelCount(entries: seq<PlatformModels>): nat {
    if entries == [] then 0 else |entries[0].models| + ModelCount(entries[1..])
  }

  lemma {:induction false} FlattenAppend(entries: seq<PlatformModels>, e: PlatformModels)
    ensures Flatten(entries + [e]) == Flatten(entries) + Pairs(e.platform, e.models)
    decreases |entries|
  {
    if entries == [] {
      assert entries + [e] == [e];
    } else {
      assert (entries + [e])[1..] == entries[1..] + [e];
      FlattenAppend(entries[1..], e);
    }
  }

  /** One pair per configured model. */
  lemma {:induction false} FlattenLength(entries: seq<PlatformModels>)
    ensures |Flatten(entries)| == ModelCount(entries)
    decreases |entries|
  {
    if entries != [] {
      FlattenLength(entries[1..]);
    }
  }

  /** A pair is listed exactly when its model is in its platform's list. */
  lemma {:induction false} FlattenMembership(entries: seq<PlatformModels>, platform: string, model: string)
    ensures (platform, model) in Flatten(entries)
        <==> exists i :: 0 <= i < |entries| && entries[i].platform == platform && model in entries[i].models
    decreases |entries|
  {
    if entries != [] {
      FlattenMembership(entries[1..], platform, model);
      var head := Pairs(entries[0].platform, entries[0].models);
      PairsMembership(entries[0].platform, entries[0].models, platform, model);
      if exists i :: 1 <= i < |entries| && entries[i].platform == platform && model in entries[i].models {
        var i :| 1 <= i < |entries| && entries[i].platform == platform && model in entries[i].models;
        assert entries[1..][i - 1] == entries[i];
      }
    }
  }

  /**
   * `list_available_models`: the empty list without a 'gai_models' key,
   * otherwise every (platform, model) pair, platform by platform in the
   * mapping's order and model by model in each list's order.
   */
  method ListAvailableModels(config: Config) returns (all: seq<(string, string)>)
    ensures config.gaiModels.None? ==> all == []
    ensures config.gaiModels.Some? ==> all == Flatten(config.gaiModels.value)
  {
    all := [];
    if config.gaiModels.Some? {
      var entries := config.gaiModels.value;
      for i := 0 to |entries|
        invariant all == Flatten(entries[..i])
      {
        var entry := entries[i];
        for j := 0 to |entry.models|
          invariant all == Flatten(entries[..i]) + Pairs(entry.platform, entry.models[..j])
        {
          assert Pairs(entry.platform, entry.models[..j + 1])
              == Pairs(entry.platform, entry.models[..j]) + [(entry.platform, entry.models[j])];
          all := all + [(entry.platform, entry.models[j])];
        }
        assert entry.models[..|entry.models|] == entry.models;
        assert entries[..i + 1] == entries[..i] + [entry];
        FlattenAppend(entries[..i], entry);
      }
      assert entries[..|entries|] == entries;
    }
  }
}
