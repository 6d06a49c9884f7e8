/** Chat messages, the completion request, and the injection of the user's
    `--context` values after the assembled prompt. */
module Chat {

  datatype Role = System | User | Assistant

  /** `openai.ChatCompletionMessage` */
  datatype Message = Message(role: Role, content: string)

  /** The parts of `openai.ChatCompletionRequest` and the client configuration
      that `run` sets. */
  datatype Request = Request(
    apiKey: string,
    baseURL: string,
    model: string,
    stream: bool,
    temperature: int,
    includeUsage: bool,
    messages: seq<Message>)

  /** The system message that announces the context values. */
  const ContextNotice: Message :=
    Message(System, "The user has provided additional context that MUST be included in the commit message")

  /** The prompt with the context appended: unchanged when there is no context,
      otherwise followed by one notice and then one user message per context
      value, in the order given. */
  function WithContext(prompt: seq<Message>, context: seq<string>): (r: seq<Message>)
    ensures context == [] ==> r == prompt
    ensures context != [] ==>
      |r| == |prompt| + 1 + |context| &&
      r[..|prompt|] == prompt &&
      r[|prompt|] == ContextNotice &&
      forall i :: 0 <= i < |context| ==> r[|prompt| + 1 + i] == Message(User, context[i])
  {
    if context == [] then prompt
    else prompt + [ContextNotice] + seq(|context|, i requires 0 <= i < |context| => Message(User, context[i]))
  }

  /** The loop of `run` that appends to `msgs`. */
  method InjectContext(prompt: seq<Message>, context: seq<string>) returns (msgs: seq<Message>)
    ensures msgs == WithContext(prompt, context)
  {
    msgs := prompt;
    if |context| > 0 {
      msgs := msgs + [ContextNotice];
      for k := 0 to |context|
        invariant |msgs| == |prompt| + 1 + k
        invariant msgs[..|prompt|] == prompt && msgs[|prompt|] == ContextNotice
        invariant forall i :: 0 <= i < k ==> msgs[|prompt| + 1 + i] == Message(User, context[i])
      {
        msgs := msgs + [Message(User, context[k])];
      }
    }
  }
}
