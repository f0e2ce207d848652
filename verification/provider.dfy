/** What the debate agents send to a text-generation service and what comes
    back. The service itself (the Anthropic and OpenAI clients and the network
    behind them) is not modelled: it is a function from a call to either the
    generated text or the message of the exception the client raised. */
module Provider {

  /** The outcome of a call that may raise: the value, or the message of the
      exception. Failure-compatible, so `:-` propagates an exception the way
      Python does. */
  datatype Result<+T> = Ok(value: T) | Err(message: string)
  {
    predicate IsFailure() { Err? }

    function PropagateFailure<U>(): Result<U>
      requires Err?
    {
      Err(message)
    }

    function Extract(): T
      requires Ok?
    {
      value
    }
  }

  datatype Option<+T> = None | Some(value: T)

  datatype Role = SystemRole | UserRole

  /** One entry of the `messages` list: `{"role": ..., "content": ...}`. */
  datatype Message = Message(role: Role, content: string)

  /** One request handed to the client: the credential, model and token
      budget of the agent, the system prompt (the Anthropic client takes it as
      its `system` argument; the OpenAI client sees it only when it was put
      into `messages`) and the role-tagged message list. */
  datatype Call = Call(apiKey: string, model: string, maxTokens: nat,
                       system: string, messages: seq<Message>)

  /** The behaviour of one provider binding: its answer to the `n`-th call
      made through it. Indexing by `n` lets the same prompt get different
      answers at different times. */
  type Service = (nat, Call) -> Result<string>

  /** The message list `get_message` sends: a system message first exactly
      when there is a system prompt and the client is OpenAI's, and the user
      prompt always last. */
  function Messages(clientType: string, systemPrompt: string, prompt: string): (ms: seq<Message>)
    ensures 1 <= |ms| <= 2
    ensures ms[|ms| - 1] == Message(UserRole, prompt)
    ensures |ms| == 2 <==> systemPrompt != "" && clientType == "openai"
    ensures |ms| == 2 ==> ms[0] == Message(SystemRole, systemPrompt)
  {
    if systemPrompt != "" && clientType == "openai" then
      [Message(SystemRole, systemPrompt), Message(UserRole, prompt)]
    else
      [Message(UserRole, prompt)]
  }
}
