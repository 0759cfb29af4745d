# SmartGPT conversation window and prompt pipeline, in Dafny

SmartGPT asks a chat-completion model the same question three times, with a
chain-of-thought prompt. It then asks the model to criticise its own answers
and to pick and improve the best one, and finally sends a user-supplied hint.
All of these requests go through one conversation store, `OpenAIChatCompletion`.

The store keeps the list of role/content messages. It starts with one system
message and checks the shape of every message it appends. Before each request
it trims the list to a window when the token estimate exceeds the model's
budget. After the request it appends the answer, or it returns a fixed error
text when the API call fails.

This project models that store and the pipeline as pure functions over
immutable data. It also proves what they guarantee.

- `messages.dfy` (module `Messages`) defines the message, the argument a
  caller hands the store (a dict or anything else), the Python exceptions that
  escape, and the replies of the remote endpoint. It also defines Python's
  `str.join`.
- `chat_completion.dfy` (module `ChatCompletion`) defines the store itself:
  - validation and append;
  - the token budget;
  - the `[:2] + [-5:]` window;
  - the disabled summarizing policy, as a loop method proved equal to a closed
    form;
  - one `get_chatgpt_response` round.
- `chat_completion_properties.dfy` (module `ChatCompletionProperties`) holds
  the all-inputs lemmas about the store:
  - what the window keeps and drops;
  - when it is the identity;
  - how short conversations make it duplicate messages;
  - how the token text and the summary transcript grow;
  - what a round sends.
- `smart_gpt.dfy` (module `SmartGpt`) defines:
  - the three prompt generators;
  - `process_user_input` as a function from the six endpoint replies to the
    eight yielded strings, the six requests, the window sent with each request,
    and the final conversation;
  - the reset behind the clear button.

The model takes the following as parameters, because their behaviour lies
outside the modelled code:
- the tokenizer (`countTokens`) and `str.strip` (`strip`), which are fields of
  `Client`;
- the reply of each chat request, which is a `Reply` value;
- the summarizer, which is a function of the request it is sent;
- the Python rendering of a message dict (`show`).

## Model

| member | source | states |
|---|---|---|
| Messages.Validate | openai_api_chat_completion.py:55-56 | An argument is accepted exactly when it is a dict holding both a "role" and a "content" key, whatever the role's value. Anything else raises TypeError. An accepted message reads back the two fields. |
| Messages.ValidateAsInput | openai_api_chat_completion.py:55-56 | The `{"role": ..., "content": ...}` dict built from any message is accepted and gives back that very message. |
| Messages.JoinSnoc | openai_api_chat_completion.py:83-89 | Joining one more part with a separator appends the separator and that part to the joined text. |
| ChatCompletion.Update | openai_api_chat_completion.py:55-61 | `update_conversation` succeeds exactly on well-formed input and otherwise raises TypeError, leaving no new conversation. On success the length grows by one, every earlier message is unchanged, and the new last message is the one given. |
| ChatCompletion.Truncate | openai_api_chat_completion.py:138-152 | Within budget the conversation is returned unchanged. Over budget the result has min(2,n) + min(5,n) messages, starts with the first min(2,n) messages and ends with the last min(5,n), in order. |
| ChatCompletion.FirstUser | openai_api_chat_completion.py:116-120 | Finds the index of a user message with no user message before it, or reports that the conversation has no user message at all. |
| ChatCompletion.RemoveAt | openai_api_chat_completion.py:120 | `list.pop(i)` drops exactly the i-th message and keeps the others in order. |
| ChatCompletion.Lines | openai_api_chat_completion.py:84-88 | There is one transcript line per message, in order, each the message's role, then ": ", then the message's content. |
| ChatCompletion.SummaryRequest | openai_api_chat_completion.py:82-96 | The summary request is two messages: the default system message, then a user message made of the summarize instruction followed by the space-joined transcript lines of the conversation. |
| ChatCompletion.Summarize | openai_api_chat_completion.py:78-100 | The conversation becomes a single system message holding the first choice of the summary reply. A failed call raises the API error. A reply without choices raises IndexError. |
| ChatCompletion.NoUserMeansZeroCount | openai_api_chat_completion.py:116-122 | A conversation has no user message exactly when the search for the oldest one finds none. |
| ChatCompletion.TruncateAndSummarize | openai_api_chat_completion.py:102-131 | The loop terminates and equals the closed form: unchanged within budget or with no user message; otherwise the oldest user message is dropped and the rest is summarized. It makes at most one summary call, and exactly one when over budget with a user message. It ends within budget, or with no user message left, and its result is the input or one system message. When the summary call raises, the store still holds the conversation with the oldest user message popped, because the pop at :120 happens before the call at :125. |
| ChatCompletion.ResponseText | openai_api_chat_completion.py:186 | The returned text of a reply with no choices is empty; otherwise it starts with the first choice, stripped. |
| ChatCompletion.Respond | openai_api_chat_completion.py:168-195 | The window sent is the truncation of the conversation with the message appended. On an answer, the new conversation is that window plus the assistant's joined, stripped choices, which are returned. On an API error, the fixed error text is returned and no assistant message is added. |
| ChatCompletion.GetResponse | openai_api_chat_completion.py:161-195 | A malformed message raises TypeError, which is not caught. A well-formed one goes through exactly one round with the message it holds. |
| ChatCompletionProperties.TextConcat | openai_api_chat_completion.py:138-141 | The counted text of two concatenated conversations is the concatenation of their texts. |
| ChatCompletionProperties.TextLeadsWithFirst | openai_api_chat_completion.py:138-140 | The counted text is the contents alone, without roles: empty for an empty conversation, the content itself for one message, and starting with the first content otherwise. |
| ChatCompletionProperties.UpdateExtendsText | openai_api_chat_completion.py:55-61 | An accepted append adds exactly the new content to the counted text. |
| ChatCompletionProperties.UpdateKeepsSystemFirst | openai_api_chat_completion.py:61 | Appending keeps a system-first conversation system-first. |
| ChatCompletionProperties.TruncateKeepsEnds | openai_api_chat_completion.py:148-152 | Truncation keeps the first and the last message of any non-empty conversation, so system-first stays system-first. |
| ChatCompletionProperties.TruncateAppendKeepsTail | openai_api_chat_completion.py:148-152 | After appending a message and truncating, that message is last, and the message that was last before it comes right before it. |
| ChatCompletionProperties.TruncateIsIdentityIff | openai_api_chat_completion.py:144-152 | Truncation changes nothing if and only if the conversation is within budget, empty, or exactly seven messages long. |
| ChatCompletionProperties.TruncateSettles | openai_api_chat_completion.py:144-152 | From seven messages up, truncating twice is the same as truncating once. |
| ChatCompletionProperties.TruncateDropsMiddle | openai_api_chat_completion.py:148-152 | Over budget with n >= 7, the result has 7 messages, and the input is its first two, then the dropped middle block, then its last five. |
| ChatCompletionProperties.TruncateTenMessages | openai_api_chat_completion.py:148-152 | Over budget, ten messages become messages 0, 1 and 5 to 9. |
| ChatCompletionProperties.TruncateShortRepeats | openai_api_chat_completion.py:148-152 | Over budget with one to five messages, the result is the first min(2,n) messages followed by the whole conversation, so messages repeat and the list grows. |
| ChatCompletionProperties.TruncateSixRepeats | openai_api_chat_completion.py:148-152 | Over budget with six messages, the second message appears twice and the result has seven messages. |
| ChatCompletionProperties.TruncateShortGrows | openai_api_chat_completion.py:144-152 | A short conversation (one to four messages) that stays over budget grows on each of two successive truncations, until it reaches seven messages, so truncation is not idempotent. |
| ChatCompletionProperties.UserCountConcat | openai_api_chat_completion.py:116-117 | The user messages of a concatenation add up. |
| ChatCompletionProperties.NoUserBefore | openai_api_chat_completion.py:116-120 | A prefix with no user message counts zero user messages. |
| ChatCompletionProperties.DropOldestUser | openai_api_chat_completion.py:116-120 | Popping the oldest user message removes exactly one user message. |
| ChatCompletionProperties.TranscriptSingle | openai_api_chat_completion.py:84-89 | The transcript of a one-message conversation is that message's `role: content` line, with no separator. |
| ChatCompletionProperties.TranscriptAppend | openai_api_chat_completion.py:82-95 | The transcript sent for summarizing grows by one space and one `role: content` line per appended message. |
| ChatCompletionProperties.FailedSummaryLeavesPopped | openai_api_chat_completion.py:116-125 | When the summary call fails, the policy raises the API error, and the store keeps the conversation minus its oldest user message, one message shorter. |
| ChatCompletionProperties.ResponseTextSnoc | openai_api_chat_completion.py:186 | One more choice adds a space and that choice, stripped, to the returned text. |
| ChatCompletionProperties.ReplyTextCases | openai_api_chat_completion.py:185-195 | A failed call returns the fixed error text; an answer returns its joined, stripped choices, starting with the first one, and empty when there are none. |
| ChatCompletionProperties.OneChoiceResponse | openai_api_chat_completion.py:178-186 | With the single choice requested (`n=1`), the returned text is that choice, stripped. |
| ChatCompletionProperties.BuiltMessageRound | SmartGPT.py:165-166 | The message dicts the pipeline builds never raise: each call is exactly one round with that message. |
| ChatCompletionProperties.RoundKeepsSystemFirst | openai_api_chat_completion.py:169-188 | A round keeps a system-first conversation system-first, in the window it sends and in the conversation it leaves. |
| ChatCompletionProperties.RoundSendsRequest | openai_api_chat_completion.py:169-195 | The window sent ends with the new request, preceded by the previous last message. After an API error the request stays last in the conversation. |
| ChatCompletionProperties.RoundOfLongConversation | openai_api_chat_completion.py:169-188 | Over budget with at least six earlier messages, the window has seven messages, and the conversation left has eight after an answer or seven after an error. |
| SmartGpt.ChainOfThoughtPrompt | SmartGPT.py:106 | The prompt is the fixed prefix, then the question verbatim, then the fixed step-by-step suffix. |
| SmartGpt.QuestionOfPrompt | SmartGPT.py:106 | Reading the question back out of a chain-of-thought prompt gives the original input. |
| SmartGpt.ChainOfThoughtPromptInjective | SmartGPT.py:106 | Distinct questions give distinct chain-of-thought prompts. |
| SmartGpt.OptionRequest | SmartGPT.py:164-165 | Request i is the chain-of-thought prompt followed by the digit i and a colon. |
| SmartGpt.OptionRequestsDistinct | SmartGPT.py:164-165 | The three option requests differ from each other. |
| SmartGpt.RequestContents | SmartGPT.py:164-182 | There are six request contents. The first three start with the chain-of-thought prompt, and the last is the hint verbatim. |
| SmartGpt.Converse | SmartGPT.py:164-183 | Issues one round per request content, in order. |
| SmartGpt.ConverseAnswers | SmartGPT.py:164-183 | Each round sends its content as a user request at the end of its window and returns that call's reply text. It leaves the window plus the answer, or the window alone on error, and keeps system-first conversations system-first. |
| SmartGpt.ConverseChained | SmartGPT.py:164-183 | Each round starts from the conversation the previous round left. |
| SmartGpt.LaterRoundsSeeEarlierAnswers | SmartGPT.py:164-183 | When a call succeeds, its answer sits right before the next request in the window sent with that request. |
| SmartGpt.RunWith | SmartGPT.py:160-184 | A run yields eight outputs and makes six user requests carrying the given contents in order, with one window per request. |
| SmartGpt.ProcessUserInput | SmartGPT.py:150-184 | `process_user_input` yields eight strings and issues six user requests, whose contents are the three indexed chain-of-thought prompts, the two fixed prompts and the hint. |
| SmartGpt.RunWithOutputs | SmartGPT.py:160-184 | Each output is its label followed by the chain-of-thought prompt, the rendered self-reflection request, or exactly the text the matching call returned. |
| SmartGpt.OutputsCarryReplies | SmartGPT.py:160-184 | The eight outputs, in order, are "Chain_of_thought_prompt: ", "Option 1: " to "Option 3: ", "Self-reflection Prompt: ", "Self-reflection: ", "Final Assistant: " and "resolution: ", each followed by the prompt, the rendered request, or the text the i-th call returned. |
| SmartGpt.WindowsEndWithRequests | SmartGPT.py:165-183 | The window sent with each request ends with that request. |
| SmartGpt.RequestsFollowAnswers | SmartGPT.py:164-183 | Each request after a successful call is sent right after that call's answer. |
| SmartGpt.RunKeepsSystemFirst | SmartGPT.py:150-184 | A run leaves a system-first conversation system-first. |
| SmartGpt.AllCallsFail | SmartGPT.py:166-184 | When every call fails, all eight outputs are still produced, and every answer slot holds the fixed error text. |
| SmartGpt.RequestsInOrder | SmartGPT.py:164-183 | The six requests are user messages, in this order: the chain-of-thought prompt plus "1:", "2:", "3:"; the self-reflection prompt; the final-selection prompt; the hint verbatim. |
| SmartGpt.FixedPromptsIgnoreInput | SmartGPT.py:113-148 | The self-reflection and final-selection requests are the same whatever the question and the hint. |
| SmartGpt.Clear | SmartGPT.py:63 | Clearing leaves exactly one system message holding the cleared persona text, whatever the conversation was. |
| SmartGpt.ClearDiffersFromInitial | SmartGPT.py:63 | The conversation after a clear differs from the one a new store starts with, and both are system-first. |

## Left out

- The tkinter GUI is left out: widget creation, display, `on_submit` and the main loop. It is user interface. Of `on_clear`, only the reset of the conversation is modelled.
- Hydra/OmegaConf configuration, `main` and `run` are left out. They are framework glue; the settings the store reads are fields of `Client`.
- Logging is left out. It has no observable effect on the state.
- The tiktoken encoding is left out, and with it the error for an unknown model name. The token count is the uninterpreted `countTokens`.
- The network calls are replaced by oracle values: a `Reply` per chat request, and a function of the request for the summary call. The model does not constrain the sampling parameters passed with them, and it treats any API failure as one `Failed` reply.
- Python's `str.strip` is the parameter `strip`, because its exact whitespace semantics are not modelled.
- The Python `str` rendering of the message dict in the "Self-reflection Prompt" output is the parameter `show`.
- Dict arguments are modelled as maps from strings to strings. Extra keys are dropped on append, and non-string values are not modelled.
- The `"content" in msg` filters are not modelled. Every message the store holds has a content key: it is either built with one (the initial, summary and cleared messages, and the assistant answers) or validated to have one.
- The pipeline is a generator that yields between requests. The model computes the whole run at once, so the interleaving of yields with calls is not modelled. Stopping the generator early is also not modelled.
- The unused `chain_of_thought_responses` list is not modelled, because nothing reads it.
- The comment on the truncation mentions "the last 3 sets of messages", but the code keeps the last five messages. The model follows the code.
