/** `DebateAgent`: one side of the debate, bound to a text-generation
    service, with an append-only history of the arguments it produced. */
module Agent {
  import opened Text
  import opened Provider
  import opened Prompts

  /** The default token budget of an agent. */
  const DefaultMaxTokens: nat := 1024

  /** One call made through an agent's binding, recorded by what it asked
      for, together with what came back. */
  datatype Exchange = Exchange(ask: Ask, reply: Result<string>)

  /** What one logged call adds to its agent's history: the text, when it
      was an argument call (`generate_argument` or `refine_argument`) that
      returned one. */
  function Contribution(e: Exchange): (r: seq<string>)
    ensures |r| <= 1
    ensures r != [] <==> (e.ask.ArgumentAsk? || e.ask.RefinementAsk?) && e.reply.Ok?
    ensures r != [] ==> r == [e.reply.value]
  {
    if (e.ask.ArgumentAsk? || e.ask.RefinementAsk?) && e.reply.Ok? then [e.reply.value] else []
  }

  /** The texts the argument calls among `es` returned, oldest first. */
  function Produced(es: seq<Exchange>): seq<string>
  {
    if es == [] then [] else Produced(es[..|es| - 1]) + Contribution(es[|es| - 1])
  }

  /** Logging one more call adds its contribution to what the log produced. */
  lemma ProducedSnoc(es: seq<Exchange>, e: Exchange)
    ensures Produced(es + [e]) == Produced(es) + Contribution(e)
  {
    assert (es + [e])[..|es|] == es;
  }

  /** What two logs in a row produced is what the first produced followed by
      what the second produced. */
  lemma {:induction false} ProducedAppend(es: seq<Exchange>, more: seq<Exchange>)
    ensures Produced(es + more) == Produced(es) + Produced(more)
  {
    if more != [] {
      var last := more[|more| - 1];
      var init := more[..|more| - 1];
      assert more == init + [last];
      assert es + more == (es + init) + [last];
      ProducedAppend(es, init);
      ProducedSnoc(es + init, last);
      ProducedSnoc(init, last);
    } else {
      assert es + more == es;
    }
  }

  class DebateAgent {
    const position: Position
    /** The provider kind, lower-cased at construction ("claude", "openai"). */
    const clientType: string
    const model: string
    const apiKey: string
    const maxTokens: nat
    /** How the bound provider answers; see `Provider.Service`. */
    const service: Service

    /** Every argument this agent produced, oldest first. */
    var argumentHistory: seq<string>
    /** Every call made through this agent's binding and its outcome, oldest
        first: the provider's side of the conversation. */
    var exchanges: seq<Exchange>

    /** Each logged reply is the service's answer to the request the logged
        ask makes. */
    ghost predicate Valid()
      reads this`exchanges
    {
      forall i :: 0 <= i < |exchanges| ==> Answered(i)
    }

    /** The `i`-th logged reply is the service's answer to the request the
        `i`-th logged ask makes. */
    ghost predicate Answered(i: nat)
      requires i < |exchanges|
      reads this`exchanges
    {
      exchanges[i].ask.WellFormed() && exchanges[i].reply == service(i, Request(exchanges[i].ask))
    }

    constructor (position: Position, clientType: string, model: string, apiKey: string,
                 maxTokens: nat, service: Service)
      ensures Valid()
      ensures this.position == position && this.clientType == Lower(clientType)
      ensures this.model == model && this.apiKey == apiKey && this.maxTokens == maxTokens
      ensures this.service == service
      ensures argumentHistory == [] && exchanges == []
    {
      this.position := position;
      this.clientType := Lower(clientType);
      this.model := model;
      this.apiKey := apiKey;
      this.maxTokens := maxTokens;
      this.service := service;
      argumentHistory := [];
      exchanges := [];
    }

    /** The request `get_message` sends for `ask`: the agent's credential,
        model and budget, the system prompt, and the message list. */
    function Request(ask: Ask): Call
      requires ask.WellFormed()
    {
      var system := ask.System(position);
      Call(apiKey, model, maxTokens, system, Messages(clientType, system, ask.Prompt(position)))
    }

    /** The answer the next call through this binding would get. */
    function NextReply(ask: Ask): Result<string>
      requires ask.WellFormed()
      reads this`exchanges
    {
      service(|exchanges|, Request(ask))
    }

    /** `get_message`, called with the prompts of `ask`: builds the message
        list, makes one call, logs it and returns the provider's text or the
        exception's message. */
    method GetMessage(ask: Ask) returns (reply: Result<string>)
      requires Valid() && ask.WellFormed()
      modifies this`exchanges
      ensures Valid()
      ensures reply == old(NextReply(ask))
      ensures exchanges == old(exchanges) + [Exchange(ask, reply)]
    {
      var systemPrompt := ask.System(position);
      var prompt := ask.Prompt(position);
      var messages: seq<Message> := [];
      if systemPrompt != "" && clientType == "openai" {
        messages := messages + [Message(SystemRole, systemPrompt)];
      }
      messages := messages + [Message(UserRole, prompt)];
      assert messages == Messages(clientType, systemPrompt, prompt);
      var call := Call(apiKey, model, maxTokens, systemPrompt, messages);
      reply := service(|exchanges|, call);
      exchanges := exchanges + [Exchange(ask, reply)];
      assert Answered(|exchanges| - 1);
      forall i | 0 <= i < |exchanges| - 1
        ensures Answered(i)
      {
        assert old(Answered(i));
      }
    }

    /** `generate_argument`: one call; on success the text is appended to the
        history, on failure the history is untouched. The reply is the
        service's, as `Valid` records. */
    method GenerateArgument(topic: string, context: string, round: int) returns (r: Result<string>)
      requires Valid()
      modifies this
      ensures Valid()
      ensures exchanges == old(exchanges) + [Exchange(ArgumentAsk(topic, context, round), r)]
      ensures argumentHistory == if r.Ok? then old(argumentHistory) + [r.value] else old(argumentHistory)
    {
      var argument :- GetMessage(ArgumentAsk(topic, context, round));
      argumentHistory := argumentHistory + [argument];
      r := Ok(argument);
    }

    /** `reflect_on_argument`: one call without a system prompt; the history
        is untouched. */
    method ReflectOnArgument(ownArgument: string) returns (r: Result<string>)
      requires Valid()
      modifies this`exchanges
      ensures Valid()
      ensures exchanges == old(exchanges) + [Exchange(ReflectionAsk(ownArgument), r)]
    {
      r := GetMessage(ReflectionAsk(ownArgument));
    }

    /** `extract_reflection_summary`: one call without a system prompt; the
        history is untouched. */
    method ExtractReflectionSummary(fullReflection: string) returns (r: Result<string>)
      requires Valid()
      modifies this`exchanges
      ensures Valid()
      ensures exchanges == old(exchanges) + [Exchange(SummaryAsk(fullReflection), r)]
    {
      r := GetMessage(SummaryAsk(fullReflection));
    }

    /** `refine_argument`: one call; on success the text is appended to the
        history, on failure the history is untouched. */
    method RefineArgument(topic: string, previousArgument: string, reflectionSummary: string,
                          opponentArgument: string, round: int) returns (r: Result<string>)
      requires Valid()
      modifies this
      ensures Valid()
      ensures exchanges == old(exchanges)
                + [Exchange(RefinementAsk(topic, previousArgument, reflectionSummary, opponentArgument, round), r)]
      ensures argumentHistory == if r.Ok? then old(argumentHistory) + [r.value] else old(argumentHistory)
    {
      var argument :- GetMessage(RefinementAsk(topic, previousArgument, reflectionSummary,
                                               opponentArgument, round));
      argumentHistory := argumentHistory + [argument];
      r := Ok(argument);
    }
  }

  /** A logged reply is what the service answered, at that position of the
      log, to the request the logged ask makes: the operations above return
      exactly the provider's answer. */
  lemma LoggedReply(agent: DebateAgent, exchanges0: seq<Exchange>, ask: Ask, reply: Result<string>)
    requires agent.Valid()
    requires agent.exchanges == exchanges0 + [Exchange(ask, reply)]
    ensures ask.WellFormed()
    ensures reply == agent.service(|exchanges0|, agent.Request(ask))
  {
    assert agent.Answered(|exchanges0|);
  }

  /** A request made with a system prompt carries it as a leading system
      message exactly when the agent's client is OpenAI's; the prompt is
      always the last message. */
  lemma ArgumentRequestShape(agent: DebateAgent, topic: string, context: string, round: int)
    ensures var ms := agent.Request(ArgumentAsk(topic, context, round)).messages;
      && ms[|ms| - 1] == Message(UserRole, ArgumentPrompt(agent.position, topic, context, round))
      && (|ms| == 2 <==> agent.clientType == "openai")
      && (|ms| == 2 ==> ms[0] == Message(SystemRole, ArgumentSystemPrompt(agent.position)))
  {
  }

  /** Reflection, summary and verdict requests carry no system prompt, so
      they send a single user message whatever the client. */
  lemma PlainRequestsSendOneMessage(agent: DebateAgent, ask: Ask)
    requires ask.ReflectionAsk? || ask.SummaryAsk? || ask.VerdictAsk?
    requires ask.WellFormed()
    ensures agent.Request(ask).system == ""
    ensures agent.Request(ask).messages == [Message(UserRole, ask.Prompt(agent.position))]
  {
  }

  /** A refinement request shows the model the opponent's argument, the
      agent's own previous argument and its reflection summary. */
  lemma RefinementRequestShowsOpponent(agent: DebateAgent, topic: string, previous: string,
                                       summary: string, opponent: string, round: int)
    ensures var ms := agent.Request(RefinementAsk(topic, previous, summary, opponent, round)).messages;
      && Contains(ms[|ms| - 1].content, opponent)
      && Contains(ms[|ms| - 1].content, previous)
      && Contains(ms[|ms| - 1].content, summary)
  {
  }
}
