/** The conversation store of `OpenAIChatCompletion`: the message list, its
    token estimate, the windowed truncation applied before every request,
    the disabled summarizing alternative, and one request/response round.
    The tokenizer, `str.strip` and the remote endpoint are parameters. */
module ChatCompletion {
  import opened Messages

  /** The session settings the store reads, with the tokenizer of the
      configured model and Python's `str.strip` left uninterpreted. */
  datatype Client = Client(
    tokenLimit: int,
    bufferTokens: int,
    maxTokens: int,
    countTokens: string -> nat,
    strip: string -> string)

  function Min(a: int, b: int): int { if a <= b then a else b }
  function Max(a: int, b: int): int { if a <= b then b else a }

  const DefaultSystemText: string := "You are a helpful assistant."

  /** The conversation a new store starts with. */
  const InitialConversation: seq<Message> := [Message(System, DefaultSystemText)]

  /** The design invariant: a non-empty conversation led by a system message. */
  predicate SystemFirst(c: seq<Message>) {
    |c| > 0 && c[0].role == System
  }

  /** The text whose tokens are counted: all contents, concatenated in order
      with no separator and no role text. */
  function Text(c: seq<Message>): string {
    if c == [] then "" else c[0].content + Text(c[1..])
  }

  /** The token room left for the history: `token_limit - buffer_tokens - max_tokens`. */
  function Available(cl: Client): int {
    cl.tokenLimit - cl.bufferTokens - cl.maxTokens
  }

  function Tokens(cl: Client, c: seq<Message>): nat {
    cl.countTokens(Text(c))
  }

  predicate OverBudget(cl: Client, c: seq<Message>) {
    Tokens(cl, c) > Available(cl)
  }

  /** `update_conversation`: appends a well-formed message, or raises
      `TypeError` and leaves the conversation as it was. */
  function Update(c: seq<Message>, m: Input): (r: Outcome<seq<Message>>)
    ensures r.Ok? <==> WellFormed(m)
    ensures r.Raised? ==> r.error == TypeError
    ensures r.Ok? ==> |r.value| == |c| + 1 && r.value[..|c|] == c
    ensures r.Ok? ==> r.value[|c|] == Message(m.fields["role"], m.fields["content"])
  {
    match Validate(m)
    case Raised(e) => Raised(e)
    case Ok(msg) => Ok(c + [msg])
  }

  /** How many leading messages the window keeps (`conversation[:2]`). */
  const KeepFirst: nat := 2
  /** How many trailing messages the window keeps (`conversation[-5:]`). */
  const KeepLast: nat := 5

  /** `truncate_conversation`: over budget, a single slice keeps the first
      two and the last five messages; otherwise nothing changes. When fewer
      than seven messages exist the two slices overlap and messages repeat. */
  function Truncate(cl: Client, c: seq<Message>): (r: seq<Message>)
    ensures !OverBudget(cl, c) ==> r == c
    ensures OverBudget(cl, c) ==> |r| == Min(KeepFirst, |c|) + Min(KeepLast, |c|)
    ensures OverBudget(cl, c) ==> r[..Min(KeepFirst, |c|)] == c[..Min(KeepFirst, |c|)]
    ensures OverBudget(cl, c) ==> r[|r| - Min(KeepLast, |c|)..] == c[|c| - Min(KeepLast, |c|)..]
  {
    if OverBudget(cl, c) then c[..Min(KeepFirst, |c|)] + c[Max(0, |c| - KeepLast)..] else c
  }

  /** The number of user messages. */
  function UserCount(c: seq<Message>): nat {
    if c == [] then 0 else (if c[0].role == User then 1 else 0) + UserCount(c[1..])
  }

  /** The index of the oldest user message, if any. */
  function FirstUser(c: seq<Message>): (r: Option<nat>)
    ensures r.Some? ==> r.value < |c| && c[r.value].role == User
    ensures r.Some? ==> forall j :: 0 <= j < r.value ==> c[j].role != User
    ensures r.None? ==> forall j :: 0 <= j < |c| ==> c[j].role != User
  {
    if c == [] then None
    else if c[0].role == User then Some(0)
    else match FirstUser(c[1..])
      case None => None
      case Some(i) => Some(i + 1)
  }

  /** Python's `list.pop(i)`, keeping the rest in order. */
  function RemoveAt(c: seq<Message>, i: nat): (r: seq<Message>)
    requires i < |c|
    ensures |r| == |c| - 1
    ensures forall j :: 0 <= j < i ==> r[j] == c[j]
    ensures forall j :: i <= j < |r| ==> r[j] == c[j + 1]
  {
    c[..i] + c[i + 1..]
  }

  const SummaryInstruction: string := "Summarize the following conversation: "

  /** The `role: content` line of each message, in order. */
  function Lines(c: seq<Message>): (lines: seq<string>)
    ensures |lines| == |c|
    ensures forall i :: 0 <= i < |c| ==> c[i].role + ": " <= lines[i]
    ensures forall i :: 0 <= i < |c| ==> lines[i][|c[i].role| + 2..] == c[i].content
  {
    seq(|c|, i requires 0 <= i < |c| => c[i].role + ": " + c[i].content)
  }

  /** The two messages `summarize_conversation` sends to the endpoint. */
  function SummaryRequest(c: seq<Message>): (req: seq<Message>)
    ensures |req| == 2 && req[0] == Message(System, DefaultSystemText)
    ensures req[1].role == User && SummaryInstruction <= req[1].content
    ensures req[1].content[|SummaryInstruction|..] == Join(" ", Lines(c))
  {
    [Message(System, DefaultSystemText), Message(User, SummaryInstruction + Join(" ", Lines(c)))]
  }

  /** `summarize_conversation`: replaces the whole conversation by one system
      message holding the first choice of the summary reply. A failed call
      raises the API error; a reply without choices raises `IndexError`. */
  function Summarize(c: seq<Message>, summarizer: seq<Message> -> Reply): (r: Outcome<seq<Message>>)
    ensures summarizer(SummaryRequest(c)).Failed? ==> r == Raised(OpenAIError)
    ensures summarizer(SummaryRequest(c)) == Answered([]) ==> r == Raised(IndexError)
    ensures r.Ok? <==> summarizer(SummaryRequest(c)).Answered? && |summarizer(SummaryRequest(c)).contents| > 0
    ensures r.Ok? ==> r.value == [Message(System, summarizer(SummaryRequest(c)).contents[0])]
  {
    match summarizer(SummaryRequest(c))
    case Failed => Raised(OpenAIError)
    case Answered(contents) =>
      if |contents| == 0 then Raised(IndexError) else Ok([Message(System, contents[0])])
  }

  /** What one call of the summarizing policy returns, in closed form:
      nothing changes within budget or without user messages; otherwise the
      oldest user message goes and the rest is summarized, once. */
  function SummarizeOnce(cl: Client, c: seq<Message>, summarizer: seq<Message> -> Reply): Outcome<seq<Message>> {
    if !OverBudget(cl, c) then Ok(c)
    else match FirstUser(c)
      case None => Ok(c)
      case Some(i) => Summarize(RemoveAt(c, i), summarizer)
  }

  /** The conversation the store holds after one call of the summarizing
      policy, in closed form: the popped conversation stays behind when the
      summary call raises, because the pop happens before that call. */
  function StoreAfterSummarizing(cl: Client, c: seq<Message>, summarizer: seq<Message> -> Reply): seq<Message> {
    if !OverBudget(cl, c) then c
    else match FirstUser(c)
      case None => c
      case Some(i) =>
        match Summarize(RemoveAt(c, i), summarizer)
        case Ok(summary) => summary
        case Raised(_) => RemoveAt(c, i)
  }

  /** `truncate_and_summarize_conversation`, the disabled alternative policy:
      while over budget, drop the oldest user message and summarize the rest;
      stop when no user message is left. The loop makes at most one summary
      call, because a summary leaves no user message behind. `after` is the
      conversation the store holds afterwards, also when the summary call
      raises. */
  method TruncateAndSummarize(cl: Client, c: seq<Message>, summarizer: seq<Message> -> Reply)
    returns (r: Outcome<seq<Message>>, after: seq<Message>, summaries: nat)
    ensures r == SummarizeOnce(cl, c, summarizer)
    ensures after == StoreAfterSummarizing(cl, c, summarizer)
    ensures r.Ok? ==> after == r.value
    ensures r.Raised? ==> OverBudget(cl, c) && FirstUser(c).Some? && after == RemoveAt(c, FirstUser(c).value)
    ensures summaries <= 1
    ensures summaries == 1 <==> OverBudget(cl, c) && UserCount(c) > 0
    ensures r.Ok? ==> !OverBudget(cl, r.value) || UserCount(r.value) == 0
    ensures r.Ok? ==> r.value == c || (|r.value| == 1 && r.value[0].role == System)
  {
    var conversation := c;
    var tokens := Tokens(cl, conversation);
    summaries := 0;
    while tokens > Available(cl)
      invariant tokens == Tokens(cl, conversation)
      invariant summaries <= 1
      invariant summaries == 0 ==> conversation == c
      invariant summaries == 1 ==> OverBudget(cl, c) && UserCount(c) > 0
      invariant summaries == 1 ==> SummarizeOnce(cl, c, summarizer) == Ok(conversation)
      invariant summaries == 1 ==> StoreAfterSummarizing(cl, c, summarizer) == conversation
      invariant summaries == 1 ==> |conversation| == 1 && conversation[0].role == System
      decreases UserCount(conversation)
    {
      var first := FirstUser(conversation);
      if first.None? {
        NoUserMeansZeroCount(conversation);
        break;
      }
      NoUserMeansZeroCount(conversation);
      conversation := RemoveAt(conversation, first.value);
      var summary := Summarize(conversation, summarizer);
      summaries := summaries + 1;
      if summary.Raised? {
        return summary, conversation, summaries;
      }
      conversation := summary.value;
      assert UserCount(conversation) == 0 by {
        assert UserCount(conversation[1..]) == 0;
      }
      tokens := Tokens(cl, conversation);
    }
    if tokens <= Available(cl) {
      return Ok(conversation), conversation, summaries;
    }
    NoUserMeansZeroCount(conversation);
    r := Ok(conversation);
    after := conversation;
  }

  /** A conversation has no user message exactly when `FirstUser` finds none. */
  lemma {:induction false} NoUserMeansZeroCount(c: seq<Message>)
    ensures UserCount(c) == 0 <==> FirstUser(c).None?
  {
    if c != [] {
      NoUserMeansZeroCount(c[1..]);
    }
  }

  const ErrorResponse: string :=
    "Error: Unable to get response from ChatGPT. Please check the logs for more details."

  /** The returned text: the stripped contents of all choices, joined by one space. */
  function ResponseText(cl: Client, contents: seq<string>): (r: string)
    ensures |contents| == 0 ==> r == ""
    ensures |contents| > 0 ==> cl.strip(contents[0]) <= r
  {
    Join(" ", seq(|contents|, i requires 0 <= i < |contents| => cl.strip(contents[i])))
  }

  /** What `get_chatgpt_response` returns for a given reply of the endpoint. */
  function ReplyText(cl: Client, reply: Reply): string {
    match reply
    case Failed => ErrorResponse
    case Answered(contents) => ResponseText(cl, contents)
  }

  /** The observable effect of one `get_chatgpt_response` call: the window
      sent to the endpoint, the returned string, and the new conversation. */
  datatype Round = Round(window: seq<Message>, response: string, conversation: seq<Message>)

  /** One round with an accepted message: append it, truncate, send the
      window; then append the assistant answer, or on an API error return
      the fixed error text and append nothing. */
  function Respond(cl: Client, c: seq<Message>, msg: Message, reply: Reply): (r: Round)
    ensures r.window == Truncate(cl, c + [msg])
    ensures r.response == ReplyText(cl, reply)
    ensures reply.Answered? ==> r.conversation == r.window + [Message(Assistant, r.response)]
    ensures reply.Failed? ==> r.conversation == r.window
  {
    var window := Truncate(cl, c + [msg]);
    match reply
    case Failed => Round(window, ErrorResponse, window)
    case Answered(contents) =>
      var response := ResponseText(cl, contents);
      Round(window, response, window + [Message(Assistant, response)])
  }

  /** `get_chatgpt_response`: a malformed message raises `TypeError`, which
      the source does not catch, before anything changes; an accepted one
      goes through one round. */
  function GetResponse(cl: Client, c: seq<Message>, m: Input, reply: Reply): (r: Outcome<Round>)
    ensures r.Ok? <==> WellFormed(m)
    ensures r.Raised? ==> r.error == TypeError
    ensures r.Ok? ==> r.value == Respond(cl, c, Message(m.fields["role"], m.fields["content"]), reply)
  {
    match Update(c, m)
    case Raised(e) => Raised(e)
    case Ok(appended) => Ok(Respond(cl, c, appended[|c|], reply))
  }
}
