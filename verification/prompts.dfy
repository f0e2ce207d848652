/** The prompts the debate agents send. Their English wording is not
    modelled: each prompt is an f-string, here a `Flatten` of short fixed
    texts and the interpolated values, and what matters (and is proved) is
    which values are interpolated into which prompt. */
module Prompts {
  import opened Text

  /** The side an agent argues. */
  datatype Position = Pro | Con
  {
    /** The `position` string the orchestrator passes: "pro" or "con". */
    function Name(): string
    {
      if Pro? then "pro" else "con"
    }

    /** `position.upper()`; see `ShoutIsUpper`. */
    function Shout(): string
    {
      if Pro? then "PRO" else "CON"
    }

    function Opponent(): Position
    {
      if Pro? then Con else Pro
    }
  }

  /** The side's name in capitals is Python's `upper()` of its name. */
  lemma ShoutIsUpper(position: Position)
    ensures position.Shout() == Upper(position.Name())
  {
    if position == Pro {
      assert Upper("pro") == "PRO" by {
        assert Upper("pro")[0] == UpperChar('p');
      }
    } else {
      assert Upper("con") == "CON" by {
        assert Upper("con")[0] == UpperChar('c');
      }
    }
  }

  /** How many leading characters of each argument the verdict prompt shows. */
  const ExcerptLength: nat := 200

  /** `argument[:200]`. */
  function Excerpt(argument: string): string
  {
    Truncate(argument, ExcerptLength)
  }

  // The fixed wording of the prompts is not modelled: each text below is
  // left unspecified, so what is proved about the prompts holds whatever
  // the wording. Only which value is interpolated where is modelled.
  /** Opens the `generate_argument` system prompt, before the side. */
  const AgentIntro: string
  /** The debate rules, between the two mentions of the side. */
  const ArgumentRules: string
  /** Closes the `generate_argument` system prompt. */
  const ArgumentStyle: string
  /** Precedes the topic in the argument and refinement prompts. */
  const TopicLabel: string
  /** Precedes the round number in the argument prompt. */
  const RoundLabel: string
  /** Precedes FOR or AGAINST. */
  const MakeArgument: string
  /** Closes the argument prompt. */
  const ThisDecision: string
  /** Precedes the argument in the reflection prompt. */
  const ReflectionIntro: string
  /** The eight-part critique instructions after it. */
  const CritiqueRules: string
  /** Precedes the reflection in the summary prompt. */
  const SummaryIntro: string
  /** The summary instructions after it. */
  const SummaryRules: string
  /** Opens the `refine_argument` system prompt, before the side. */
  const RefinerIntro: string
  /** Between the side and the round number. */
  const InRound: string
  /** Closes the `refine_argument` system prompt. */
  const RefinerRules: string
  /** Precedes the previous round number. */
  const PreviousLabel: string
  /** Precedes the reflection summary. */
  const IssuesLabel: string
  /** Precedes the opponent's argument. */
  const OpponentLabel: string
  /** The improvement instructions, before supporting or opposing. */
  const BetterRules: string
  /** Closes the refinement prompt. */
  const WordLimit: string
  /** Opens the verdict prompt, before the topic. */
  const VerdictIntro: string
  /** Precedes the pro side's excerpts. */
  const ProEvolution: string
  /** Precedes the con side's excerpts. */
  const ConEvolution: string
  /** Between the first and second excerpt of a side. */
  const SecondRound: string
  /** Between the second and third excerpt of a side. */
  const ThirdRound: string
  /** The four verdict questions that close the prompt. */
  const VerdictQuestions: string

  /** The system prompt of `generate_argument`: commits the agent to its side. */
  function ArgumentSystemPrompt(position: Position): (r: string)
    ensures r != []
    ensures Contains(r, position.Shout())
  {
    var pieces := [AgentIntro, position.Shout(), ArgumentRules, position.Shout(), ArgumentStyle];
    FlattenContains(pieces, 0);
    FlattenContains(pieces, 1);
    Flatten(pieces)
  }

  /** The user prompt of `generate_argument`: the topic, the optional context,
      the round number and the stance, "FOR" for the pro side and "AGAINST"
      for the con side. */
  function ArgumentPrompt(position: Position, topic: string, context: string, round: int): (r: string)
    ensures Contains(r, topic) && Contains(r, context) && Contains(r, IntToString(round))
    ensures Contains(r, if position == Pro then "FOR" else "AGAINST")
  {
    var pieces := [TopicLabel, topic, " \n", context, RoundLabel, IntToString(round), MakeArgument,
                   if position == Pro then "FOR" else "AGAINST", ThisDecision];
    FlattenContains(pieces, 1);
    FlattenContains(pieces, 3);
    FlattenContains(pieces, 5);
    FlattenContains(pieces, 7);
    Flatten(pieces)
  }

  /** The prompt of `reflect_on_argument`: a self-critique of one argument. */
  function ReflectionPrompt(argument: string): (r: string)
    ensures Contains(r, argument)
  {
    var pieces := [ReflectionIntro, argument, CritiqueRules];
    FlattenContains(pieces, 1);
    Flatten(pieces)
  }

  /** The prompt of `extract_reflection_summary`: condenses one critique. */
  function SummaryPrompt(reflection: string): (r: string)
    ensures Contains(r, reflection)
  {
    var pieces := [SummaryIntro, reflection, SummaryRules];
    FlattenContains(pieces, 1);
    Flatten(pieces)
  }

  /** The system prompt of `refine_argument`. */
  function RefinementSystemPrompt(position: Position, round: int): (r: string)
    ensures r != []
    ensures Contains(r, position.Shout()) && Contains(r, IntToString(round))
  {
    var pieces := [RefinerIntro, position.Shout(), InRound, IntToString(round), RefinerRules];
    FlattenContains(pieces, 0);
    FlattenContains(pieces, 1);
    FlattenContains(pieces, 3);
    Flatten(pieces)
  }

  /** The user prompt of `refine_argument`: the topic, the agent's previous
      argument, its reflection summary, the opponent's argument and the
      stance, "supporting" for the pro side and "opposing" for the con side. */
  function RefinementPrompt(position: Position, topic: string, previous: string, summary: string,
                            opponent: string, round: int): (r: string)
    ensures Contains(r, topic) && Contains(r, previous) && Contains(r, summary)
    ensures Contains(r, opponent)
    ensures Contains(r, IntToString(round - 1))
    ensures Contains(r, if position == Pro then "supporting" else "opposing")
  {
    var pieces := [TopicLabel, topic, PreviousLabel, IntToString(round - 1), "): ", previous,
                   IssuesLabel, summary, OpponentLabel, opponent, BetterRules,
                   if position == Pro then "supporting" else "opposing", WordLimit];
    FlattenContains(pieces, 1);
    FlattenContains(pieces, 3);
    FlattenContains(pieces, 5);
    FlattenContains(pieces, 7);
    FlattenContains(pieces, 9);
    FlattenContains(pieces, 11);
    Flatten(pieces)
  }

  /** One side's three rounds in the verdict prompt: the excerpt of each. */
  function Evolution(arguments: seq<string>): (r: string)
    requires |arguments| >= 3
    ensures Contains(r, Excerpt(arguments[0]))
    ensures Contains(r, Excerpt(arguments[1]))
    ensures Contains(r, Excerpt(arguments[2]))
  {
    var pieces := [Excerpt(arguments[0]), SecondRound, Excerpt(arguments[1]), ThirdRound, Excerpt(arguments[2])];
    FlattenContains(pieces, 0);
    FlattenContains(pieces, 2);
    FlattenContains(pieces, 4);
    Flatten(pieces)
  }

  /** The prompt of `generate_verdict`: the topic and the first 200
      characters of each of the three arguments of each side. */
  function VerdictPrompt(topic: string, proArguments: seq<string>, conArguments: seq<string>): (r: string)
    requires |proArguments| >= 3 && |conArguments| >= 3
    ensures Contains(r, topic)
    ensures Contains(r, Excerpt(proArguments[0])) && Contains(r, Excerpt(conArguments[0]))
    ensures Contains(r, Excerpt(proArguments[1])) && Contains(r, Excerpt(conArguments[1]))
    ensures Contains(r, Excerpt(proArguments[2])) && Contains(r, Excerpt(conArguments[2]))
  {
    var pros, cons := Evolution(proArguments), Evolution(conArguments);
    var pieces := [VerdictIntro, topic, ProEvolution, pros, ConEvolution, cons, VerdictQuestions];
    FlattenContains(pieces, 1);
    FlattenContains(pieces, 3);
    FlattenContains(pieces, 5);
    var r := Flatten(pieces);
    ContainsTransitive(r, pros, Excerpt(proArguments[0]));
    ContainsTransitive(r, pros, Excerpt(proArguments[1]));
    ContainsTransitive(r, pros, Excerpt(proArguments[2]));
    ContainsTransitive(r, cons, Excerpt(conArguments[0]));
    ContainsTransitive(r, cons, Excerpt(conArguments[1]));
    ContainsTransitive(r, cons, Excerpt(conArguments[2]));
    r
  }

  /** What one `get_message` call asks for: which of the five prompts, with
      the values interpolated into it. */
  datatype Ask =
    | ArgumentAsk(topic: string, context: string, round: int)
    | ReflectionAsk(argument: string)
    | SummaryAsk(reflection: string)
    | RefinementAsk(topic: string, previous: string, summary: string, opponent: string, round: int)
    | VerdictAsk(topic: string, proArguments: seq<string>, conArguments: seq<string>)
  {
    /** The verdict prompt indexes three arguments of each side. */
    predicate WellFormed()
    {
      VerdictAsk? ==> |proArguments| >= 3 && |conArguments| >= 3
    }

    /** The system prompt sent with the request; blank when the source
        passes none. */
    function System(position: Position): string
    {
      match this
      case ArgumentAsk(_, _, _) => ArgumentSystemPrompt(position)
      case RefinementAsk(_, _, _, _, round) => RefinementSystemPrompt(position, round)
      case _ => ""
    }

    /** The user prompt sent with the request. */
    function Prompt(position: Position): string
      requires WellFormed()
    {
      match this
      case ArgumentAsk(topic, context, round) => ArgumentPrompt(position, topic, context, round)
      case ReflectionAsk(argument) => ReflectionPrompt(argument)
      case SummaryAsk(reflection) => SummaryPrompt(reflection)
      case RefinementAsk(topic, previous, summary, opponent, round) =>
        RefinementPrompt(position, topic, previous, summary, opponent, round)
      case VerdictAsk(topic, proArguments, conArguments) => VerdictPrompt(topic, proArguments, conArguments)
    }
  }

  /** The verdict sees nothing of an argument past its 200th character, and
      nothing of any argument after the third: arguments that agree on their
      excerpts give the same verdict prompt. */
  lemma VerdictSeesOnlyExcerpts(topic: string, pro1: seq<string>, con1: seq<string>,
                                pro2: seq<string>, con2: seq<string>)
    requires |pro1| >= 3 && |con1| >= 3 && |pro2| >= 3 && |con2| >= 3
    requires forall k :: 0 <= k < 3 ==> Excerpt(pro1[k]) == Excerpt(pro2[k])
    requires forall k :: 0 <= k < 3 ==> Excerpt(con1[k]) == Excerpt(con2[k])
    ensures VerdictPrompt(topic, pro1, con1) == VerdictPrompt(topic, pro2, con2)
  {
  }

  /** Text appended after the first 200 characters of an argument never
      reaches the verdict. */
  lemma ExcerptIgnoresTail(argument: string, tail: string)
    requires |argument| >= ExcerptLength
    ensures Excerpt(argument + tail) == Excerpt(argument)
  {
    assert (argument + tail)[..ExcerptLength] == argument[..ExcerptLength];
  }
}
