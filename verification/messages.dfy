/** Chat messages as the conversation store keeps them, the arguments callers
    hand it, the replies of the remote completion endpoint, and the Python
    exceptions the modelled code lets escape. */
module Messages {

  /** One chat message. The store never inspects the role's value, so it is
      a plain string rather than an enumeration. */
  datatype Message = Message(role: string, content: string)

  const System: string := "system"
  const User: string := "user"
  const Assistant: string := "assistant"

  /** What a caller can pass to `update_conversation`: a dict of string
      fields, or any value that is not a dict. */
  datatype Input = NotADict | Dict(fields: map<string, string>)

  /** The exceptions the modelled code raises. */
  datatype PyError = TypeError | OpenAIError | IndexError

  /** A value, or the exception that interrupted the computation. */
  datatype Outcome<+T> = Ok(value: T) | Raised(error: PyError)

  datatype Option<+T> = None | Some(value: T)

  /** The reply of one remote chat completion: the contents of the returned
      choices, in order, or a failure of the API call. */
  datatype Reply = Answered(contents: seq<string>) | Failed

  /** The shape `update_conversation` accepts: a dict holding both keys. */
  predicate WellFormed(m: Input) {
    m.Dict? && "role" in m.fields && "content" in m.fields
  }

  /** The dict literal `{"role": ..., "content": ...}` the source builds. */
  function AsInput(msg: Message): Input {
    Dict(map["role" := msg.role, "content" := msg.content])
  }

  /** Reads a message out of a caller's argument, raising `TypeError` when
      the argument is not a dict or lacks either key. */
  function Validate(m: Input): (r: Outcome<Message>)
    ensures r.Ok? <==> WellFormed(m)
    ensures r.Raised? ==> r.error == TypeError
    ensures r.Ok? ==> r.value.role == m.fields["role"] && r.value.content == m.fields["content"]
  {
    if WellFormed(m) then Ok(Message(m.fields["role"], m.fields["content"])) else Raised(TypeError)
  }

  /** Every dict the source builds itself is accepted and read back intact. */
  lemma ValidateAsInput(msg: Message)
    ensures Validate(AsInput(msg)) == Ok(msg)
  {
  }

  /** Python's `sep.join(parts)`. */
  function Join(sep: string, parts: seq<string>): string
    decreases |parts|
  {
    if |parts| == 0 then ""
    else if |parts| == 1 then parts[0]
    else parts[0] + sep + Join(sep, parts[1..])
  }

  /** Joining one more part adds the separator and that part at the end. */
  lemma {:induction false} JoinSnoc(sep: string, parts: seq<string>, last: string)
    requires |parts| > 0
    ensures Join(sep, parts + [last]) == Join(sep, parts) + sep + last
    decreases |parts|
  {
    if |parts| == 1 {
      assert (parts + [last])[1..] == [last];
    } else {
      assert (parts + [last])[1..] == parts[1..] + [last];
      JoinSnoc(sep, parts[1..], last);
    }
  }
}
