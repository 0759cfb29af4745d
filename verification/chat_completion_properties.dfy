/** Properties of the conversation store that relate several calls or hold
    for all inputs: what truncation keeps and drops, when it changes nothing,
    how the token text and the summary transcript grow with an append, and
    what one request round guarantees about the window it sends. */
module ChatCompletionProperties {
  import opened Messages
  import opened ChatCompletion

  /** The token text of a concatenation is the concatenation of the texts. */
  lemma {:induction false} TextConcat(a: seq<Message>, b: seq<Message>)
    ensures Text(a + b) == Text(a) + Text(b)
    decreases |a|
  {
    if a != [] {
      assert (a + b)[1..] == a[1..] + b;
      TextConcat(a[1..], b);
    } else {
      assert a + b == b;
    }
  }

  /** The counted text of one message is its content alone, without the
      role; a longer conversation's text starts with its first content. */
  lemma TextLeadsWithFirst(c: seq<Message>)
    ensures c == [] ==> Text(c) == ""
    ensures |c| == 1 ==> Text(c) == c[0].content
    ensures c != [] ==> c[0].content <= Text(c)
  {
  }

  /** Appending a message adds exactly its content to the counted text. */
  lemma UpdateExtendsText(c: seq<Message>, m: Input)
    requires WellFormed(m)
    ensures Text(Update(c, m).value) == Text(c) + m.fields["content"]
  {
    var msg := Message(m.fields["role"], m.fields["content"]);
    assert Update(c, m).value == c + [msg];
    TextConcat(c, [msg]);
    assert Text([msg]) == msg.content + Text([]);
  }

  /** Appending keeps the first message, so a system-first conversation stays so. */
  lemma UpdateKeepsSystemFirst(c: seq<Message>, m: Input)
    requires SystemFirst(c) && WellFormed(m)
    ensures SystemFirst(Update(c, m).value)
  {
  }

  /** Truncation keeps the first and the last message of any non-empty conversation. */
  lemma TruncateKeepsEnds(cl: Client, c: seq<Message>)
    requires |c| > 0
    ensures |Truncate(cl, c)| > 0
    ensures Truncate(cl, c)[0] == c[0]
    ensures Truncate(cl, c)[|Truncate(cl, c)| - 1] == c[|c| - 1]
    ensures SystemFirst(c) ==> SystemFirst(Truncate(cl, c))
  {
  }

  /** Appending a message and truncating keeps that message last, and the
      message that was last just before it. */
  lemma TruncateAppendKeepsTail(cl: Client, d: seq<Message>, x: Message)
    ensures var w := Truncate(cl, d + [x]); |w| > 0 && w[|w| - 1] == x
    ensures var w := Truncate(cl, d + [x]); |d| > 0 ==> |w| >= 2 && w[|w| - 2] == d[|d| - 1]
  {
  }

  /** Truncation changes nothing exactly when the conversation is within
      budget, empty, or has exactly the seven messages the window keeps. */
  lemma TruncateIsIdentityIff(cl: Client, c: seq<Message>)
    ensures Truncate(cl, c) == c <==> !OverBudget(cl, c) || |c| == 0 || |c| == KeepFirst + KeepLast
  {
  }

  /** On a conversation of at least seven messages, truncating twice is
      truncating once: the first truncation already leaves seven. */
  lemma TruncateSettles(cl: Client, c: seq<Message>)
    requires |c| >= KeepFirst + KeepLast
    ensures Truncate(cl, Truncate(cl, c)) == Truncate(cl, c)
  {
  }

  /** Over budget with at least seven messages, truncation removes exactly
      the block between the first two and the last five messages. */
  lemma TruncateDropsMiddle(cl: Client, c: seq<Message>)
    requires OverBudget(cl, c) && |c| >= KeepFirst + KeepLast
    ensures |Truncate(cl, c)| == KeepFirst + KeepLast
    ensures c == Truncate(cl, c)[..KeepFirst] + c[KeepFirst..|c| - KeepLast] + Truncate(cl, c)[KeepFirst..]
  {
  }

  /** The worked case of ten messages: the window is messages 0, 1 and 5 to 9. */
  lemma TruncateTenMessages(cl: Client, c: seq<Message>)
    requires OverBudget(cl, c) && |c| == 10
    ensures Truncate(cl, c) == [c[0], c[1], c[5], c[6], c[7], c[8], c[9]]
  {
  }

  /** Over budget with one to five messages, the two slices overlap: the
      whole conversation is kept and its first messages appear twice, so
      the conversation grows. */
  lemma TruncateShortRepeats(cl: Client, c: seq<Message>)
    requires OverBudget(cl, c) && 1 <= |c| <= KeepLast
    ensures Truncate(cl, c) == c[..Min(KeepFirst, |c|)] + c
    ensures |Truncate(cl, c)| > |c|
  {
  }

  /** Over budget with six messages, the second message appears twice and
      the conversation grows to seven. */
  lemma TruncateSixRepeats(cl: Client, c: seq<Message>)
    requires OverBudget(cl, c) && |c| == KeepFirst + KeepLast - 1
    ensures Truncate(cl, c) == c[..KeepFirst] + c[1..]
    ensures Truncate(cl, c)[1] == Truncate(cl, c)[2] == c[1]
  {
  }

  /** A short conversation that stays over budget grows on each of two
      successive truncations, until it reaches seven messages, so truncation
      is not idempotent in general. */
  lemma TruncateShortGrows(cl: Client, c: seq<Message>)
    requires 1 <= |c| < KeepLast
    requires OverBudget(cl, c) && OverBudget(cl, Truncate(cl, c))
    ensures |Truncate(cl, Truncate(cl, c))| > |Truncate(cl, c)| > |c|
  {
  }

  /** The number of user messages of a concatenation adds up. */
  lemma {:induction false} UserCountConcat(a: seq<Message>, b: seq<Message>)
    ensures UserCount(a + b) == UserCount(a) + UserCount(b)
    decreases |a|
  {
    if a != [] {
      assert (a + b)[1..] == a[1..] + b;
      UserCountConcat(a[1..], b);
    } else {
      assert a + b == b;
    }
  }

  /** Every message before the oldest user message is not a user message. */
  lemma {:induction false} NoUserBefore(c: seq<Message>, i: nat)
    requires i <= |c|
    requires forall j :: 0 <= j < i ==> c[j].role != User
    ensures UserCount(c[..i]) == 0
    decreases i
  {
    if i > 0 {
      assert c[..i][1..] == c[1..][..i - 1];
      NoUserBefore(c[1..], i - 1);
    }
  }

  /** Popping the oldest user message removes exactly one user message. */
  lemma DropOldestUser(c: seq<Message>)
    requires FirstUser(c).Some?
    ensures UserCount(RemoveAt(c, FirstUser(c).value)) == UserCount(c) - 1
  {
    var i := FirstUser(c).value;
    assert c == c[..i] + ([c[i]] + c[i + 1..]);
    assert RemoveAt(c, i) == c[..i] + c[i + 1..];
    UserCountConcat(c[..i], [c[i]] + c[i + 1..]);
    UserCountConcat([c[i]], c[i + 1..]);
    UserCountConcat(c[..i], c[i + 1..]);
    NoUserBefore(c, i);
    assert UserCount([c[i]]) == 1 + UserCount([c[i]][1..]);
  }

  /** The transcript of a single message is its `role: content` line alone. */
  lemma TranscriptSingle(m: Message)
    ensures Join(" ", Lines([m])) == m.role + ": " + m.content
  {
    assert Lines([m]) == [m.role + ": " + m.content];
  }

  /** The transcript sent for summarizing grows by one space-separated
      `role: content` line per appended message. */
  lemma TranscriptAppend(c: seq<Message>, m: Message)
    requires |c| > 0
    ensures Join(" ", Lines(c + [m])) == Join(" ", Lines(c)) + " " + (m.role + ": " + m.content)
  {
    assert Lines(c + [m]) == Lines(c) + [m.role + ": " + m.content];
    JoinSnoc(" ", Lines(c), m.role + ": " + m.content);
  }

  /** When the summary call fails, the store is left holding the
      conversation with its oldest user message popped, one message shorter. */
  lemma FailedSummaryLeavesPopped(cl: Client, c: seq<Message>, summarizer: seq<Message> -> Reply)
    requires OverBudget(cl, c) && FirstUser(c).Some?
    requires summarizer(SummaryRequest(RemoveAt(c, FirstUser(c).value))).Failed?
    ensures SummarizeOnce(cl, c, summarizer) == Raised(OpenAIError)
    ensures StoreAfterSummarizing(cl, c, summarizer) == RemoveAt(c, FirstUser(c).value)
    ensures |StoreAfterSummarizing(cl, c, summarizer)| == |c| - 1
  {
  }

  /** One more choice adds a space and that choice, stripped, to the
      returned text. */
  lemma ResponseTextSnoc(cl: Client, contents: seq<string>, last: string)
    requires |contents| > 0
    ensures ResponseText(cl, contents + [last]) == ResponseText(cl, contents) + " " + cl.strip(last)
  {
    var stripped := seq(|contents|, i requires 0 <= i < |contents| => cl.strip(contents[i]));
    var all := contents + [last];
    assert seq(|all|, i requires 0 <= i < |all| => cl.strip(all[i])) == stripped + [cl.strip(last)];
    JoinSnoc(" ", stripped, cl.strip(last));
  }

  /** A failed call returns the fixed error text; an answer returns its
      stripped choices, led by the first, or nothing when there are none. */
  lemma ReplyTextCases(cl: Client, reply: Reply)
    ensures reply.Failed? ==> ReplyText(cl, reply) == ErrorResponse
    ensures reply == Answered([]) ==> ReplyText(cl, reply) == ""
    ensures reply.Answered? && |reply.contents| > 0 ==> cl.strip(reply.contents[0]) <= ReplyText(cl, reply)
  {
  }

  /** With the single choice the source asks for (`n=1`), the answer is
      that choice, stripped. */
  lemma OneChoiceResponse(cl: Client, s: string)
    ensures ReplyText(cl, Answered([s])) == cl.strip(s)
  {
  }

  /** A message dict built by the caller itself, as the pipeline does,
      never raises: the call is exactly one round with that message. */
  lemma BuiltMessageRound(cl: Client, c: seq<Message>, msg: Message, reply: Reply)
    ensures GetResponse(cl, c, AsInput(msg), reply) == Ok(Respond(cl, c, msg, reply))
  {
  }

  /** A round keeps a system-first conversation system-first, in the window
      it sends and in the conversation it leaves. */
  lemma RoundKeepsSystemFirst(cl: Client, c: seq<Message>, msg: Message, reply: Reply)
    ensures SystemFirst(c) ==> SystemFirst(Respond(cl, c, msg, reply).window)
    ensures SystemFirst(c) ==> SystemFirst(Respond(cl, c, msg, reply).conversation)
  {
  }

  /** The window sent always ends with the new request, preceded by the
      message that ended the conversation before it (a previous answer, say);
      on an API error the request stays at the end of the conversation. */
  lemma RoundSendsRequest(cl: Client, c: seq<Message>, msg: Message, reply: Reply)
    ensures var w := Respond(cl, c, msg, reply).window;
      |w| > 0 && w[|w| - 1] == msg
    ensures var w := Respond(cl, c, msg, reply).window;
      |c| > 0 ==> |w| >= 2 && w[|w| - 2] == c[|c| - 1]
    ensures reply.Failed? ==>
      var after := Respond(cl, c, msg, reply).conversation;
      |after| > 0 && after[|after| - 1] == msg
  {
  }

  /** A long conversation that is over budget once the request is appended
      comes out of a round as the seven-message window plus, on success,
      the answer. */
  lemma RoundOfLongConversation(cl: Client, c: seq<Message>, msg: Message, reply: Reply)
    requires |c| >= KeepFirst + KeepLast - 1 && OverBudget(cl, c + [msg])
    ensures |Respond(cl, c, msg, reply).window| == KeepFirst + KeepLast
    ensures |Respond(cl, c, msg, reply).conversation| == if reply.Answered? then 8 else 7
  {
  }
}
