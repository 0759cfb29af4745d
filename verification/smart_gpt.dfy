/** The prompting pipeline of `SmartGPT`: three chain-of-thought requests,
    a self-reflection request, a final-selection request and the raw hint,
    each sent through the conversation store, and the labelled outputs the
    pipeline yields to its front-end; plus the reset behind the clear button. */
module SmartGpt {
  import opened Messages
  import opened ChatCompletion
  import opened ChatCompletionProperties

  const QuestionPrefix: string := "Question: "
  /** The concatenations below spell out the exact prompt texts; they are
      split into short pieces only to keep the verifier's work small. */
  const ChainOfThoughtSuffix: string :=
    ". Let's work this out in a " +
    "step by step way to be sure we " +
    "have the right answer. Answer "

  /** The chain-of-thought prompt: the user's question embedded verbatim
      between a fixed prefix and a fixed step-by-step instruction. */
  function ChainOfThoughtPrompt(userInput: string): (p: string)
    ensures |p| == |QuestionPrefix| + |userInput| + |ChainOfThoughtSuffix|
    ensures QuestionPrefix <= p
    ensures p[|QuestionPrefix|..|QuestionPrefix| + |userInput|] == userInput
    ensures p[|QuestionPrefix| + |userInput|..] == ChainOfThoughtSuffix
  {
    QuestionPrefix + userInput + ChainOfThoughtSuffix
  }

  /** Reads the question back out of a chain-of-thought prompt. */
  function QuestionOf(p: string): string
    requires |p| >= |QuestionPrefix| + |ChainOfThoughtSuffix|
  {
    p[|QuestionPrefix|..|p| - |ChainOfThoughtSuffix|]
  }

  /** The prompt determines the question: reading it back gives the input. */
  lemma QuestionOfPrompt(userInput: string)
    ensures QuestionOf(ChainOfThoughtPrompt(userInput)) == userInput
  {
  }

  /** Distinct questions give distinct chain-of-thought prompts. */
  lemma ChainOfThoughtPromptInjective(a: string, b: string)
    requires ChainOfThoughtPrompt(a) == ChainOfThoughtPrompt(b)
    ensures a == b
  {
  }

  /** The self-reflection prompt, fixed text independent of any input. */
  const SelfReflectionPrompt: string :=
    "You are an expert researcher " +
    "tasked with investigating the " +
    "three answer options above. " +
    "Analyze deeply the question " +
    "and reason about each answer's " +
    "assumptions, flaws and faulty " +
    "logic in trying to answer it. " +
    "Be detailed, thorough and very " +
    "analytical. Let's think step " +
    "by step through this " +
    "investigation. Answer:"

  /** The final-selection prompt, fixed text independent of any input. */
  const FinalSelectionPrompt: string :=
    "You are now an expert resolver " +
    "tasked with 1) Based on the " +
    "analysis above, resolve which " +
    "of the answer options is the " +
    "best, 2) Improve that answer, " +
    "and 3) You must respond with " +
    "the improved answer in full. " +
    "Let's work out this resolving " +
    "process in a step by step way " +
    "to be sure we have the right " +
    "answer. Your improved answer " +
    "is:"

  /** The content of the i-th chain-of-thought request, i in 1..3: the
      prompt followed by the decimal index and a colon. */
  function OptionRequest(cot: string, i: nat): (s: string)
    requires 1 <= i <= 3
    ensures |s| == |cot| + 2 && cot <= s && s[|cot| + 1] == ':'
    ensures s[|cot|] == ['1', '2', '3'][i - 1]
  {
    cot + [('0' as int + i) as char] + ":"
  }

  /** The three chain-of-thought requests differ from one another only in
      their index. */
  lemma OptionRequestsDistinct(userInput: string, i: nat, j: nat)
    requires 1 <= i <= 3 && 1 <= j <= 3 && i != j
    ensures OptionRequest(ChainOfThoughtPrompt(userInput), i) != OptionRequest(ChainOfThoughtPrompt(userInput), j)
  {
  }

  /** What one round with a `user` request guarantees: the window ends with
      the request, the call returns the reply's text, and the conversation
      is the window followed by the answer, or the window alone on failure. */
  predicate RoundAnswers(cl: Client, content: string, reply: Reply, r: Round) {
    && |r.window| > 0 && r.window[|r.window| - 1] == Message(User, content)
    && r.response == ReplyText(cl, reply)
    && (reply.Answered? ==> r.conversation == r.window + [Message(Assistant, r.response)])
    && (reply.Failed? ==> r.conversation == r.window)
  }

  /** The contents of the six requests of one run, in order: the indexed
      chain-of-thought prompts, the two fixed prompts, and the hint. */
  function RequestContents(userInput: string, hint: string): (contents: seq<string>)
    ensures |contents| == 6
    ensures forall k :: 0 <= k < 3 ==> ChainOfThoughtPrompt(userInput) <= contents[k]
    ensures contents[5] == hint
  {
    var cot := ChainOfThoughtPrompt(userInput);
    [ OptionRequest(cot, 1), OptionRequest(cot, 2), OptionRequest(cot, 3),
      SelfReflectionPrompt, FinalSelectionPrompt, hint ]
  }

  /** The conversation a round starts from: the given one for the first
      round, the one the previous round left for every later one. */
  function Before(c: seq<Message>, rounds: seq<Round>, k: nat): seq<Message>
    requires k <= |rounds|
  {
    if k == 0 then c else rounds[k - 1].conversation
  }

  /** Sends each content as a `user` message in turn. Every round starts
      from the conversation the previous one left, so later requests see
      earlier answers in their window. */
  function Converse(cl: Client, c: seq<Message>, contents: seq<string>, replies: seq<Reply>): (rounds: seq<Round>)
    requires |replies| == |contents|
    ensures |rounds| == |contents|
    decreases |contents|
  {
    if |contents| == 0 then []
    else
      var first := Respond(cl, c, Message(User, contents[0]), replies[0]);
      [first] + Converse(cl, first.conversation, contents[1..], replies[1..])
  }

  /** Unfolds one round of a conversation. */
  lemma ConverseStep(cl: Client, c: seq<Message>, contents: seq<string>, replies: seq<Reply>)
    requires |replies| == |contents| > 0
    ensures var first := Respond(cl, c, Message(User, contents[0]), replies[0]);
      Converse(cl, c, contents, replies) == [first] + Converse(cl, first.conversation, contents[1..], replies[1..])
  {
  }

  /** Every round of a conversation sends its content as a `user` request
      and returns the reply's text, and a system-first conversation stays
      system-first through all of them. */
  lemma {:induction false} ConverseAnswers(cl: Client, c: seq<Message>, contents: seq<string>, replies: seq<Reply>)
    requires |replies| == |contents|
    ensures var rounds := Converse(cl, c, contents, replies);
      forall k :: 0 <= k < |rounds| ==> RoundAnswers(cl, contents[k], replies[k], rounds[k])
    ensures var rounds := Converse(cl, c, contents, replies);
      SystemFirst(c) ==> forall k :: 0 <= k < |rounds| ==> SystemFirst(rounds[k].conversation)
    decreases |contents|
  {
    if |contents| > 0 {
      var msg := Message(User, contents[0]);
      var first := Respond(cl, c, msg, replies[0]);
      var rest := Converse(cl, first.conversation, contents[1..], replies[1..]);
      var rounds := Converse(cl, c, contents, replies);
      ConverseStep(cl, c, contents, replies);
      RoundSendsRequest(cl, c, msg, replies[0]);
      RoundKeepsSystemFirst(cl, c, msg, replies[0]);
      ConverseAnswers(cl, first.conversation, contents[1..], replies[1..]);
      forall k | 0 < k < |rounds|
        ensures RoundAnswers(cl, contents[k], replies[k], rounds[k])
      {
        assert rounds[k] == rest[k - 1];
        assert contents[1..][k - 1] == contents[k] && replies[1..][k - 1] == replies[k];
      }
      if SystemFirst(c) {
        forall k | 0 < k < |rounds|
          ensures SystemFirst(rounds[k].conversation)
        {
          assert rounds[k] == rest[k - 1];
        }
      }
    }
  }

  /** Round k of a conversation is a round on the conversation round k - 1
      left behind (round 0: on the starting one). */
  lemma {:induction false} ConverseChained(cl: Client, c: seq<Message>, contents: seq<string>, replies: seq<Reply>, k: nat)
    requires |replies| == |contents| && k < |contents|
    ensures var rounds := Converse(cl, c, contents, replies);
      rounds[k] == Respond(cl, Before(c, rounds, k), Message(User, contents[k]), replies[k])
    decreases k
  {
    ConverseStep(cl, c, contents, replies);
    if k > 0 {
      var first := Respond(cl, c, Message(User, contents[0]), replies[0]);
      var rest := Converse(cl, first.conversation, contents[1..], replies[1..]);
      var rounds := Converse(cl, c, contents, replies);
      ConverseChained(cl, first.conversation, contents[1..], replies[1..], k - 1);
      assert rounds[k] == rest[k - 1];
      assert Before(c, rounds, k) == Before(first.conversation, rest, k - 1);
      assert contents[1..][k - 1] == contents[k] && replies[1..][k - 1] == replies[k];
    }
  }

  /** When round k - 1 was answered, its answer sits right before request k
      in the window sent with it: each request sees the previous answer. */
  lemma LaterRoundsSeeEarlierAnswers(cl: Client, c: seq<Message>, contents: seq<string>, replies: seq<Reply>, k: nat)
    requires |replies| == |contents| && 0 < k < |contents| && replies[k - 1].Answered?
    ensures var w := Converse(cl, c, contents, replies)[k].window;
      |w| >= 2 && w[|w| - 2] == Message(Assistant, ReplyText(cl, replies[k - 1]))
  {
    var rounds := Converse(cl, c, contents, replies);
    ConverseChained(cl, c, contents, replies, k);
    ConverseAnswers(cl, c, contents, replies);
    assert RoundAnswers(cl, contents[k - 1], replies[k - 1], rounds[k - 1]);
    RoundSendsRequest(cl, rounds[k - 1].conversation, Message(User, contents[k]), replies[k]);
  }

  /** What one run of the pipeline leaves behind: the outputs yielded, the
      messages requested, the window sent with each request, and the final
      conversation of the store. */
  datatype Run = Run(
    outputs: seq<string>,
    requests: seq<Message>,
    windows: seq<seq<Message>>,
    conversation: seq<Message>)

  /** The run of the pipeline on given request contents: `cot` is the
      chain-of-thought prompt shown first, `shown` the rendered
      self-reflection request. */
  function RunWith(
    cl: Client, c: seq<Message>, cot: string, shown: string,
    contents: seq<string>, replies: seq<Reply>): (run: Run)
    requires |contents| == 6 && |replies| == 6
    ensures |run.outputs| == 8 && |run.requests| == 6 && |run.windows| == 6
    ensures forall k :: 0 <= k < |run.requests| ==> run.requests[k] == Message(User, contents[k])
  {
    var rounds := Converse(cl, c, contents, replies);
    Run(
      [ "Chain_of_thought_prompt: " + cot,
        "Option 1: " + rounds[0].response,
        "Option 2: " + rounds[1].response,
        "Option 3: " + rounds[2].response,
        "Self-reflection Prompt: " + shown,
        "Self-reflection: " + rounds[3].response,
        "Final Assistant: " + rounds[4].response,
        "resolution: " + rounds[5].response ],
      seq(6, k requires 0 <= k < 6 => Message(User, contents[k])),
      seq(6, k requires 0 <= k < 6 => rounds[k].window),
      rounds[5].conversation)
  }

  /** `process_user_input`, with `replies[k]` the endpoint's reply to the
      k-th request and `show` rendering the message dict the way Python's
      `str` does. */
  function ProcessUserInput(
    cl: Client, c: seq<Message>, userInput: string, hint: string,
    replies: seq<Reply>, show: Message -> string): (run: Run)
    requires |replies| == 6
    ensures |run.outputs| == 8 && |run.requests| == |replies| && |run.windows| == |replies|
    ensures forall k :: 0 <= k < |run.requests| ==>
      run.requests[k] == Message(User, RequestContents(userInput, hint)[k])
  {
    RunWith(cl, c, ChainOfThoughtPrompt(userInput), show(Message(User, SelfReflectionPrompt)),
      RequestContents(userInput, hint), replies)
  }

  /** Each answer slot of a run carries exactly what the corresponding
      call returned: the reply's text, or the fixed error text when that
      call failed. */
  lemma RunWithOutputs(
    cl: Client, c: seq<Message>, cot: string, shown: string,
    contents: seq<string>, replies: seq<Reply>)
    requires |contents| == 6 && |replies| == 6
    ensures var run := RunWith(cl, c, cot, shown, contents, replies);
      && run.outputs[0] == "Chain_of_thought_prompt: " + cot
      && run.outputs[1] == "Option 1: " + ReplyText(cl, replies[0])
      && run.outputs[2] == "Option 2: " + ReplyText(cl, replies[1])
      && run.outputs[3] == "Option 3: " + ReplyText(cl, replies[2])
      && run.outputs[4] == "Self-reflection Prompt: " + shown
      && run.outputs[5] == "Self-reflection: " + ReplyText(cl, replies[3])
      && run.outputs[6] == "Final Assistant: " + ReplyText(cl, replies[4])
      && run.outputs[7] == "resolution: " + ReplyText(cl, replies[5])
  {
    ConverseAnswers(cl, c, contents, replies);
  }

  /** The outputs of `process_user_input`: the chain-of-thought prompt, the
      three options, the rendered self-reflection request, the
      self-reflection, the final selection and the resolution, each answer
      being what its call returned. */
  lemma OutputsCarryReplies(
    cl: Client, c: seq<Message>, userInput: string, hint: string,
    replies: seq<Reply>, show: Message -> string)
    requires |replies| == 6
    ensures var run := ProcessUserInput(cl, c, userInput, hint, replies, show);
      && run.outputs[0] == "Chain_of_thought_prompt: " + ChainOfThoughtPrompt(userInput)
      && run.outputs[1] == "Option 1: " + ReplyText(cl, replies[0])
      && run.outputs[2] == "Option 2: " + ReplyText(cl, replies[1])
      && run.outputs[3] == "Option 3: " + ReplyText(cl, replies[2])
      && run.outputs[4] == "Self-reflection Prompt: " + show(Message(User, SelfReflectionPrompt))
      && run.outputs[5] == "Self-reflection: " + ReplyText(cl, replies[3])
      && run.outputs[6] == "Final Assistant: " + ReplyText(cl, replies[4])
      && run.outputs[7] == "resolution: " + ReplyText(cl, replies[5])
  {
    RunWithOutputs(cl, c, ChainOfThoughtPrompt(userInput), show(Message(User, SelfReflectionPrompt)),
      RequestContents(userInput, hint), replies);
  }

  /** The k-th window of a run is the window of the k-th round of its conversation. */
  lemma WindowsOfRun(
    cl: Client, c: seq<Message>, userInput: string, hint: string,
    replies: seq<Reply>, show: Message -> string, k: nat)
    requires |replies| == 6 && k < 6
    ensures ProcessUserInput(cl, c, userInput, hint, replies, show).windows[k]
         == Converse(cl, c, RequestContents(userInput, hint), replies)[k].window
  {
  }

  /** The window sent with each request ends with that request. */
  lemma WindowsEndWithRequests(
    cl: Client, c: seq<Message>, userInput: string, hint: string,
    replies: seq<Reply>, show: Message -> string, k: nat)
    requires |replies| == 6 && k < 6
    ensures var run := ProcessUserInput(cl, c, userInput, hint, replies, show);
      |run.windows[k]| > 0 && run.windows[k][|run.windows[k]| - 1] == run.requests[k]
  {
    WindowsOfRun(cl, c, userInput, hint, replies, show, k);
    ConverseAnswers(cl, c, RequestContents(userInput, hint), replies);
  }

  /** Each request after the first is sent right after the answer to the
      previous one when that call succeeded: the option, self-reflection
      and resolution calls see what came before them. */
  lemma RequestsFollowAnswers(
    cl: Client, c: seq<Message>, userInput: string, hint: string,
    replies: seq<Reply>, show: Message -> string, k: nat)
    requires |replies| == 6 && 0 < k < 6 && replies[k - 1].Answered?
    ensures var w := ProcessUserInput(cl, c, userInput, hint, replies, show).windows[k];
      |w| >= 2 && w[|w| - 2] == Message(Assistant, ReplyText(cl, replies[k - 1]))
  {
    WindowsOfRun(cl, c, userInput, hint, replies, show, k);
    LaterRoundsSeeEarlierAnswers(cl, c, RequestContents(userInput, hint), replies, k);
  }

  /** A run keeps a system-first conversation system-first. */
  lemma RunKeepsSystemFirst(
    cl: Client, c: seq<Message>, userInput: string, hint: string,
    replies: seq<Reply>, show: Message -> string)
    requires |replies| == 6
    ensures SystemFirst(c) ==> SystemFirst(ProcessUserInput(cl, c, userInput, hint, replies, show).conversation)
  {
    ConverseAnswers(cl, c, RequestContents(userInput, hint), replies);
  }

  /** When every call fails, all eight outputs are still produced, each
      answer slot holding the fixed error text. */
  lemma AllCallsFail(
    cl: Client, c: seq<Message>, userInput: string, hint: string,
    replies: seq<Reply>, show: Message -> string)
    requires |replies| == 6
    requires forall k :: 0 <= k < |replies| ==> replies[k].Failed?
    ensures var run := ProcessUserInput(cl, c, userInput, hint, replies, show);
      && |run.outputs| == 8
      && run.outputs[1] == "Option 1: " + ErrorResponse
      && run.outputs[2] == "Option 2: " + ErrorResponse
      && run.outputs[3] == "Option 3: " + ErrorResponse
      && run.outputs[5] == "Self-reflection: " + ErrorResponse
      && run.outputs[6] == "Final Assistant: " + ErrorResponse
      && run.outputs[7] == "resolution: " + ErrorResponse
  {
    OutputsCarryReplies(cl, c, userInput, hint, replies, show);
  }

  /** The six requests of a run are `user` messages: the chain-of-thought
      prompt followed by the index 1, 2 or 3 and a colon, then the
      self-reflection prompt, the final-selection prompt and the hint
      verbatim, in this order. */
  lemma RequestsInOrder(
    cl: Client, c: seq<Message>, userInput: string, hint: string,
    replies: seq<Reply>, show: Message -> string)
    requires |replies| == 6
    ensures var run := ProcessUserInput(cl, c, userInput, hint, replies, show);
      var cot := ChainOfThoughtPrompt(userInput);
      && (forall k :: 0 <= k < |run.requests| ==> run.requests[k].role == User)
      && (forall k :: 0 <= k < 3 ==>
            var s := run.requests[k].content;
            |s| == |cot| + 2 && cot <= s && s[|cot|] == "123"[k] && s[|cot| + 1] == ':')
      && run.requests[3].content == SelfReflectionPrompt
      && run.requests[4].content == FinalSelectionPrompt
      && run.requests[5].content == hint
  {
  }

  /** Any two runs send the same self-reflection and final-selection
      requests, whatever their questions and hints. */
  lemma FixedPromptsIgnoreInput(q1: string, h1: string, q2: string, h2: string)
    ensures RequestContents(q1, h1)[3..5] == RequestContents(q2, h2)[3..5]
  {
  }

  /** The conversation the clear button installs. */
  const ClearedSystemText: string := "You are a helpful assistant with high expertise in all matters."

  /** `on_clear`: whatever the conversation was, it becomes one system
      message with the cleared persona text. */
  function Clear(c: seq<Message>): (r: seq<Message>)
    ensures |r| == 1 && SystemFirst(r) && r[0].content == ClearedSystemText
  {
    [Message(System, ClearedSystemText)]
  }

  /** The persona after a clear differs from the one a new store starts with. */
  lemma ClearDiffersFromInitial(c: seq<Message>)
    ensures Clear(c) != InitialConversation
    ensures SystemFirst(InitialConversation)
  {
  }
}
