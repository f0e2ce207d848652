# AI Debate Arena: a verified model of the debate orchestration

This project models the core of the AI Debate Arena in Dafny:
- Two language-model agents, Pro and Con, argue a topic over three rounds.
- After each of the first two rounds they critique their own argument, condense the critique into a summary and refine their argument against the opponent's previous one.
- A final verdict call judges the exchange.

The model covers:

- **`DebateAgent`** (`agent.dfy`), a class.
  - Its append-only `argumentHistory` is a field that `GenerateArgument` and `RefineArgument` extend only when the provider call succeeds.
  - `GetMessage` builds the role-tagged message list.
  - The provider is an oracle `service: (nat, Call) -> Result<string>` fixed at construction. An exception becomes `Err(message)`.
  - Every call is logged in `exchanges` with what was asked (`Ask`) and what came back. The invariant `Valid()` says each logged reply is the oracle's answer to the request that was sent.
- **The prompts** (`prompts.dfy`).
  - Each prompt is an f-string: the concatenation of fixed texts and interpolated values.
  - The fixed English wording is left unspecified. What is proved is which values reach which prompt.
  - This includes the verdict prompt's 200-character excerpts of all six arguments.
- **`DebateOrchestrator`** (`orchestrator.dfy`) with its three runs. Each run is split into section methods, one per block of the source.
  - `RunMultiroundDebate` is `run_multiround_debate`.
  - `RunSplitScreenDebate` is `run_split_screen_debate`.
  - `RunMultiroundDebateStreaming` is `run_multiround_debate_streaming`.
  - Each section states what it adds to both agents' logs, as a relation between two `Snapshot`s of them.
  - For a completed run, `Completed` pins down every call of both agents: the cross-round wiring, the counts (three arguments, two reflections and two summaries per side, one verdict) and the growth of each history by exactly that side's three arguments.
  - For a failed run, `Raised` says the run stopped at the failing call. The calls alternated pro, con, pro, …; every call before the last returned a text; the last one failed with the message the run reports; and each history grew by exactly the argument texts its own earlier calls returned. A run whose first call failed therefore made no other call (`FirstCallRejected`).
  - `RunSimpleDebate` is `run_simple_debate`: the opening round, then both critiques.
- **The output buffers** (`channels.dfy`).
  - `format_pro`, `format_con` and `add_and_yield` each append one fragment and return the `"\n"`-join.
  - A generator is modelled by the finite sequence of values it yields (`yielded`). For the streaming transcript, the `i`-th value is the join of the first `i + 1` fragments, so every value is a prefix of every later one.
  - For the split screen, the con panel of the `i`-th triple is the join of the first `i + 1` con fragments. Every non-blank pro panel is the join of some prefix of the pro fragments. Every non-blank panel is a prefix of every later non-blank one. The verdict panel is blank in every triple but the last.
  - For completed runs, the exact fragments and the number of values yielded are stated: 27 triples for the split screen, 82 snapshots for the streaming run.
- **The web front end** (`app.dfy`).
  - `RunDebate` is `run_debate` as a function from the form and the debate's outcome to the values it yields.
  - `RunDebateWith` connects it to the orchestrator model.
  - `UpdateModelDropdown` is the provider-to-models lookup.

Behaviours of the code that the model keeps as written:
- `total_rounds` is accepted and ignored: every run has exactly three rounds, so a one-round debate does not exist.
- In round 1 of the split-screen run, the triple that shows the con argument has a blank pro panel (`""`, debate_engine.py:393) rather than the unchanged pro text.
- A failed provider call does not leave the transcript as it was before that step. The section banners and speaker labels printed before the call have already been yielded.
- The key check is "at least 10 characters after stripping", not merely non-empty.
- Once the form is accepted, the con panel's first line is the pro panel's line with every "Pro" replaced by "Con". That line names only the pro agent's provider and model, so with the offered choices the con panel shows the pro agent's configuration (`App.OfferedChoicesShowProConfig`).

## Model

| member | source | states |
|---|---|---|
| Text.Strip | app.py:30-40 | `str.strip()`: the result is the slice of the input between a whitespace-only head and a whitespace-only tail, and neither of its ends is whitespace |
| Text.JoinEnds | debate_engine.py:360-366 | `"\n".join`: no parts join to the empty text; otherwise the text starts with the first part and ends with the last |
| Text.JoinPrefix | debate_engine.py:529-532 | the join of the first `k` parts is a prefix of the join of all of them |
| Text.JoinContains | debate_engine.py:492 | every part occurs in the join |
| Text.ReplaceAll | app.py:44-45 | `str.replace`: replacing a pattern by itself leaves the text as it was |
| Text.ReplaceAllAbsent | app.py:44-45 | a text in which the pattern does not occur comes back unchanged |
| Text.ReplaceAllFirst | app.py:44-45 | the first occurrence of the pattern is replaced, the text before it is kept and the replacement continues after it; with `ReplaceAllAbsent` this determines `str.replace` on every text |
| Text.Truncate | debate_engine.py:503-510 | `s[:n]` is a prefix of `s` of length `min(n, len(s))` |
| Provider.Messages | debate_engine.py:92-95 | the message list has one or two entries; the user prompt is always last; a leading system message is present exactly when the system prompt is non-empty and the client is OpenAI's |
| Prompts.ShoutIsUpper | debate_engine.py:19-28 | the side named in the system prompts is `position.upper()` |
| Prompts.ArgumentSystemPrompt | debate_engine.py:19-29 | the argument system prompt is non-empty and names the agent's side in capitals |
| Prompts.ArgumentPrompt | debate_engine.py:32-35 | the argument prompt contains the topic, the context, the round number and the stance: "FOR" for the pro side, "AGAINST" for the con side |
| Prompts.ReflectionPrompt | debate_engine.py:44-86 | the critique prompt contains the argument being critiqued |
| Prompts.SummaryPrompt | debate_engine.py:115-122 | the summary prompt contains the critique being condensed |
| Prompts.RefinementSystemPrompt | debate_engine.py:129-137 | the refinement system prompt is non-empty and names the side and the round |
| Prompts.RefinementPrompt | debate_engine.py:139-150 | the refinement prompt contains the topic, the agent's previous argument, its summary, the opponent's argument, the previous round number and the stance: "supporting" for the pro side, "opposing" for the con side |
| Prompts.Evolution | debate_engine.py:503-511 | one side's block of the verdict prompt contains the 200-character excerpt of each of its three arguments |
| Prompts.VerdictPrompt | debate_engine.py:495-519 | the verdict prompt needs three arguments per side and contains the topic and all six excerpts |
| Prompts.VerdictSeesOnlyExcerpts | debate_engine.py:503-511 | arguments that agree on their first 200 characters give the same verdict prompt |
| Prompts.ExcerptIgnoresTail | debate_engine.py:503-511 | text after an argument's 200th character never reaches the verdict |
| Agent.DebateAgent.constructor | debate_engine.py:9-15 | the client kind is lower-cased; the binding is stored; the history starts empty |
| Agent.DebateAgent.GetMessage | debate_engine.py:90-111 | one provider call is made and logged; the reply is the provider's answer to this agent's request at this point of its log |
| Agent.DebateAgent.GenerateArgument | debate_engine.py:17-40 | one argument call; the history grows by the returned text when it succeeds and is unchanged when the call fails |
| Agent.DebateAgent.ReflectOnArgument | debate_engine.py:42-88 | one critique call of the given argument; the history is unchanged |
| Agent.DebateAgent.ExtractReflectionSummary | debate_engine.py:113-124 | one summary call of the given critique; the history is unchanged |
| Agent.DebateAgent.RefineArgument | debate_engine.py:126-154 | one refinement call with the topic, previous argument, summary and opponent argument; the history grows by the result on success and is unchanged on failure |
| Agent.Contribution | debate_engine.py:38-39 | a logged call adds a text to the history exactly when it was an argument or refinement call that returned, and then adds that text |
| Agent.ProducedAppend | debate_engine.py:39 | the texts produced by two runs of calls, one after the other, are those of the first followed by those of the second |
| Agent.LoggedReply | debate_engine.py:90-111 | any logged reply is the provider's answer to the logged request |
| Agent.ArgumentRequestShape | debate_engine.py:92-95 | an argument request sends its system prompt as a message exactly for OpenAI clients, and the prompt last |
| Agent.PlainRequestsSendOneMessage | debate_engine.py:87-95 | critique, summary and verdict requests carry no system prompt and send a single user message |
| Agent.RefinementRequestShowsOpponent | debate_engine.py:139-151 | a refinement request shows the model the opponent's argument, the agent's previous argument and its summary |
| Channels.SnapshotsGrow | debate_engine.py:529-532 | when each value is the join of the fragments so far, every value yielded is a prefix of every later one |
| Channels.PanelsGrow | debate_engine.py:360-366 | the `i`-th con panel is the join of the first `i + 1` con fragments; every non-blank pro panel is the join of a prefix of the pro fragments; every non-blank pro (con) panel is a prefix of every later non-blank one; the verdict panel is blank in all but the last triple |
| Channels.Transcript.constructor | debate_engine.py:527 | the fragment list starts empty and nothing has been yielded |
| Channels.Transcript.AddAndYield | debate_engine.py:529-532 | appends one fragment and yields the join of all fragments so far |
| Channels.Transcript.AddAndYieldAll | debate_engine.py:535-538 | one `yield add_and_yield(line)` per line: the fragments are extended by exactly those lines |
| Channels.TranscriptGrows | debate_engine.py:529-532 | the `i`-th value yielded is the join of the first `i + 1` fragments, and the values only grow |
| Channels.SplitScreen.constructor | debate_engine.py:356-358 | the three panel lists start empty |
| Channels.SplitScreen.FormatPro | debate_engine.py:360-362 | appends one fragment to the pro panel and returns its join |
| Channels.SplitScreen.FormatCon | debate_engine.py:364-366 | appends one fragment to the con panel and returns its join |
| Channels.SplitScreen.AppendVerdict | debate_engine.py:488 | appends one fragment to the verdict panel |
| Channels.SplitScreen.AppendVerdictLines | debate_engine.py:482-485 | appends the given fragments to the verdict panel, in order |
| Channels.SplitScreen.ShowFinale | debate_engine.py:488-492 | the verdict and footer go to the verdict panel; the closing line goes to both side panels; the last triple shows all three joins |
| Channels.SplitScreen.Yield | debate_engine.py:393 | records one triple whose con panel is the current con join and whose pro and verdict panels are blank or the current joins, keeping the panel invariant |
| Orchestrator.ImprovementComposes | debate_engine.py:229-279 | a reflection phase followed by a refinement round logs exactly one improvement round's calls |
| Orchestrator.RoundsMakeDebate | debate_engine.py:215-340 | the opening, both improvement rounds and the verdict call on the three arguments per side make a completed debate |
| Orchestrator.JudgePanelShowsVerdict | debate_engine.py:482-492 | the verdict panel shows the verdict text in full |
| Orchestrator.ShowBoth | debate_engine.py:376 | `yield format_pro(p), format_con(c), ""` appends one fragment to each side panel and yields both joins |
| Orchestrator.ShowBanner | debate_engine.py:382-384 | each banner line goes to both side panels, and exactly the `BannerTriples` are yielded: after the `k`-th line, both joins so far and a blank verdict |
| Orchestrator.ShowBannerLine | debate_engine.py:383-384 | one banner line: both panels grow by it and one triple of both joins is yielded |
| Orchestrator.BannerTriplesAt | debate_engine.py:382-384 | the `k`-th banner triple shows both panels with the first `k + 1` banner lines and a blank verdict |
| Orchestrator.PanelLength | debate_engine.py:376-492 | a completed split-screen run leaves 26 fragments in the pro panel and 27 in the con panel |
| Orchestrator.TranscriptPlaces | debate_engine.py:551-693 | in a completed streamed transcript every argument and the verdict stand in full on their own line; critiques are cut to 500 (round 2) or 400 (round 3) characters |
| Orchestrator.LastValueShowsAll | debate_engine.py:529-532 | the last value yielded contains every fragment appended |
| Orchestrator.StreamedDebateVisible | debate_engine.py:524-698 | the last value a completed streaming run yields shows all six arguments and the verdict |
| Orchestrator.TranscriptLength | debate_engine.py:535-698 | a completed streaming run yields 82 values |
| Orchestrator.DebateOrchestrator.constructor | debate_engine.py:160-162 | the pro and con agents are built with their own provider, model and key and the default budget |
| Orchestrator.DebateOrchestrator.GenerateVerdict | debate_engine.py:495-522 | one call through the pro agent with the verdict prompt; it needs three arguments per side |
| Orchestrator.DebateOrchestrator.OpeningRound | debate_engine.py:215-227 | pro, then con, make their round-1 argument call with no context; both histories grow by it |
| Orchestrator.DebateOrchestrator.ReflectionPhase | debate_engine.py:229-249 | each side critiques its own latest argument and condenses its own critique |
| Orchestrator.DebateOrchestrator.Summaries | debate_engine.py:247-249 | pro, then con, condense their own critique |
| Orchestrator.DebateOrchestrator.RefinementRound | debate_engine.py:252-279 | each side refines its own previous argument with its own summary against the opponent's previous argument |
| Orchestrator.DebateOrchestrator.ImprovementRound | debate_engine.py:229-279 | one reflection phase and one refinement round, with the round-N wiring |
| Orchestrator.DebateOrchestrator.PlayRounds | debate_engine.py:215-331 | the three rounds log the opening calls and two improvement rounds, each wired to the previous round's texts |
| Orchestrator.ProRaised | debate_engine.py:217-221 | a pro call that raised stops the section there |
| Orchestrator.ConRaised | debate_engine.py:223-227 | a con call that raised after a pro call that returned stops the section there, with the pro text in the pro history |
| Orchestrator.RaisedAfter | debate_engine.py:215-351 | a failure after sections whose calls all returned is a failure of the whole run, stopped at the failing call |
| Orchestrator.RaisedInRound2 | debate_engine.py:229-279 | a failure in round 2 after both openings returned stops the run at the failing call |
| Orchestrator.RaisedInRound3 | debate_engine.py:281-331 | a failure in round 3 after rounds 1 and 2 returned stops the run at the failing call |
| Orchestrator.RaisedAtVerdict | debate_engine.py:333-339 | a failed verdict call after the three rounds stops the run there, with every argument in its history |
| Orchestrator.FirstCallRejected | debate_engine.py:217-221 | a run whose first call failed made no other call and left both histories as they were |
| Orchestrator.DebateOrchestrator.RunSimpleDebate | debate_engine.py:164-199 | the two opening argument calls and the two critiques of those arguments, pro before con; both histories grow by the openings; a failure stops the run at the failing call |
| Orchestrator.DebateOrchestrator.Critiques | debate_engine.py:234-244 | pro, then con, critique the given argument; a failure stops there |
| Orchestrator.DebateOrchestrator.RunMultiroundDebate | debate_engine.py:201-351 | a completed run returns three arguments and two reflections per side and the verdict, exactly as the providers produced them; each history grew by its side's arguments; a failure stops the run at the failing call, with the calls alternating and every earlier call returned, and reports that call's message |
| Orchestrator.DebateOrchestrator.SplitOpening | debate_engine.py:376-394 | the panels' first lines, the round-1 banner and both opening arguments, with the waiting line on the con panel |
| Orchestrator.DebateOrchestrator.SplitArguments | debate_engine.py:386-394 | the pro argument with the con waiting line, then the con argument |
| Orchestrator.DebateOrchestrator.SplitProOpening | debate_engine.py:386-389 | the pro opening call; on success its text goes to the pro panel and the waiting line to the con panel; on failure only that call was made |
| Orchestrator.DebateOrchestrator.SplitConOpening | debate_engine.py:391-394 | the con opening call; on success the triple yielded has a blank pro panel; on failure only that call was made |
| Orchestrator.DebateOrchestrator.SplitReflection | debate_engine.py:396-412 | both critiques shown under the banner, then both summaries after the closing lines |
| Orchestrator.DebateOrchestrator.SplitCritique | debate_engine.py:397-407 | the banner, then both critique calls, shown together once both are in; a failure stops at the failing call |
| Orchestrator.DebateOrchestrator.SplitSummaries | debate_engine.py:410-412 | the closing lines, then both summary calls |
| Orchestrator.DebateOrchestrator.SplitRefinement | debate_engine.py:415-440 | both refinement calls with the cross-round wiring, shown together once both are in |
| Orchestrator.DebateOrchestrator.SplitImprovement | debate_engine.py:396-440 | one improvement round of the split screen: its calls and the exact fragments of both panels |
| Orchestrator.DebateOrchestrator.SplitVerdict | debate_engine.py:481-492 | the judge panel around the verdict call, and the last triple with the full judge panel; on failure only that call was made |
| Orchestrator.DebateOrchestrator.SplitRounds | debate_engine.py:376-479 | the three rounds of the split screen: their calls and the exact fragments of both panels |
| Orchestrator.DebateOrchestrator.SplitLaterRounds | debate_engine.py:396-479 | rounds 2 and 3 of the split screen, each wired to the previous round's arguments, with the exact fragments of both panels; a failure stops at the failing call |
| Orchestrator.DebateOrchestrator.SplitDebate | debate_engine.py:353-492 | a completed split-screen run: every call, the exact panel fragments, 27 triples and a last one showing the full judge panel; a failed one stopped at the failing call |
| Orchestrator.DebateOrchestrator.SplitClose | debate_engine.py:481-492 | after the three rounds, the verdict call completes the debate with the exact panel fragments, 27 triples and a last one with the full judge panel; a failed verdict call stops the run there |
| Orchestrator.DebateOrchestrator.RunSplitScreenDebate | debate_engine.py:353-492 | `run_split_screen_debate` on fresh panels: one triple per con fragment, each con panel exact and each non-blank pro panel a prefix join; a completed run is `Shown`: each panel's header and configuration line, the exact fragments, 27 triples and a last one with all three panels in full; a failed run stopped at the failing call |
| Orchestrator.DebateOrchestrator.StreamProOpening | debate_engine.py:551-556 | the pro label, the opening call, and its text; on failure only that call was made |
| Orchestrator.DebateOrchestrator.StreamConOpening | debate_engine.py:558-563 | the con label, the opening call, and its text; on failure only that call was made |
| Orchestrator.DebateOrchestrator.StreamOpening | debate_engine.py:546-563 | round 1 of the streamed transcript |
| Orchestrator.DebateOrchestrator.StreamProCritique | debate_engine.py:571-577 | the pro critique call, shown cut to the stage's excerpt length; on failure only that call was made |
| Orchestrator.DebateOrchestrator.StreamConCritique | debate_engine.py:579-585 | the con critique call, shown cut to the stage's excerpt length; on failure only that call was made |
| Orchestrator.DebateOrchestrator.StreamCritiques | debate_engine.py:566-585 | the reflection banner and both critique turns |
| Orchestrator.DebateOrchestrator.StreamReflection | debate_engine.py:566-591 | both critiques, the announcement line, then both summary calls |
| Orchestrator.DebateOrchestrator.StreamProRefinement | debate_engine.py:599-610 | the pro refinement call with its wiring, and its text; on failure only that call was made |
| Orchestrator.DebateOrchestrator.StreamConRefinement | debate_engine.py:612-623 | the con refinement call with its wiring, and its text; on failure only that call was made |
| Orchestrator.DebateOrchestrator.StreamRefinement | debate_engine.py:594-623 | the round banner and both refinement turns |
| Orchestrator.DebateOrchestrator.StreamImprovement | debate_engine.py:566-623 | one improvement round of the streamed transcript: its calls and its lines |
| Orchestrator.DebateOrchestrator.StreamRounds | debate_engine.py:546-683 | the three rounds of the streamed transcript: their calls and their lines |
| Orchestrator.DebateOrchestrator.StreamLaterRounds | debate_engine.py:566-683 | rounds 2 and 3 of the streamed transcript, each wired to the previous round's arguments, with their exact lines; a failure stops at the failing call |
| Orchestrator.DebateOrchestrator.StreamVerdict | debate_engine.py:686-698 | the verdict banner and announcement, the verdict call, the verdict and the closing banner; on failure only that call was made |
| Orchestrator.DebateOrchestrator.RunMultiroundDebateStreaming | debate_engine.py:524-698 | a completed streaming run makes every call of a whole debate, leaves exactly the transcript lines and yields 82 values; a failed run stopped at the failing call and reports its message |
| App.UpdateModelDropdown | app.py:21-24 | a known provider offers its models with the first selected; an unknown one offers nothing and selects nothing |
| App.KeyMessage | app.py:35-41 | a key message names the agent, Pro or Con, followed by its provider in parentheses |
| App.KeyMessagesDiffer | app.py:35-41 | the pro-key and con-key messages differ whatever the providers, so the message always tells which key to fix |
| App.Forward | app.py:60-61 | every triple of the debate is forwarded unchanged and in order |
| App.Relay | app.py:43-65 | an accepted form yields the configuration triple, the debate's triples, and one `("Error: " + message, same, "")` triple when the debate raised |
| App.RunDebate | app.py:26-65 | the topic, pro-key and con-key checks run in that order; the first that fails yields its message alone; a form passing all three is relayed |
| App.RejectedFormIgnoresDebate | app.py:29-41 | a rejected form yields one message whatever the debate would have done |
| App.FirstFailureDecides | app.py:30-41 | with a bad topic the keys do not matter; with a bad pro key the con key does not |
| App.CompletedDebateForwarded | app.py:59-61 | after the configuration triple, a debate that ran to its end is forwarded with nothing added |
| App.ConPanelShowsProConfig | app.py:44-45 | without a capital P in the provider or model, the con panel's configuration line equals the pro panel's |
| App.OfferedChoicesShowProConfig | app.py:7-45 | for every offered provider and model, the con panel opens with the pro agent's configuration |
| App.RunDebateWith | app.py:26-65 | no orchestrator is built for a rejected form; otherwise the agents get the stripped keys and the chosen providers and models, the debate runs on the stripped topic, the triples forwarded are exactly those the split screen yielded (27 of them, the last showing the verdict, when it completed), and the values yielded are `RunDebate` of that outcome |

## Left out

- The Anthropic and OpenAI clients and the network behind them (debate_engine.py:97-111). A provider is an oracle from the request to text or an exception message. Extracting the text from each SDK's response object belongs to that oracle.
- The English wording of the prompts and their word-count targets. The fixed texts are unspecified constants; only the interpolated values are modelled.
- All `print` output: the console narration of `run_simple_debate` and `run_multiround_debate`, and the `print` in `run_debate` (app.py:47). `RunSimpleDebate` returns the four texts `run_simple_debate` prints.
- The Gradio layout and event wiring (app.py:67-187), `dotenv` and the `__main__` blocks.
- Python generator laziness: each streaming run is modelled as run to its end, and its generator as the sequence of values it yielded. A consumer that stops pulling early sees a prefix of that sequence.
- `None` for a key, topic or provider. Inputs are strings, so `not key` is covered only by the empty string.
- `str.lower()` and `str.upper()` are modelled on ASCII letters only.
- Orchestrator.DebateOrchestrator.RunSplitScreenDebate: on an error it states exactly which calls were made, but for the panels only that they stay valid, the last triple shows no verdict and one triple was yielded per con fragment. It does not say exactly which fragments were emitted before the failing call.
- Orchestrator.DebateOrchestrator.RunMultiroundDebateStreaming: on an error it states exactly which calls were made, but for the transcript only that it stays valid. It does not say exactly which lines were yielded before the failing call.
- Orchestrator.DebateOrchestrator.RunMultiroundDebate: the reflection summaries it computes are returned as a ghost value, since the source's dictionary does not include them.
- App.RunDebateWith: the order of the configuration triple relative to building the orchestrator is not observable and is not modelled. An orchestrator that raised while being built is not modelled either; the constructor makes no calls and cannot raise.
