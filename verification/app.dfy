/** The web front end's logic: the model choices offered for each provider,
    and `run_debate`, which checks the form, announces the configuration and
    forwards the panels of a split-screen debate. The Gradio widgets and their
    wiring are not modelled; a generator is modelled by the sequence of values
    it yields. */
module App {
  import opened Text
  import opened Provider
  import opened Channels
  import opened Orchestrator

  /** `PROVIDER_MODELS`: the models offered for each provider, the dropdown
      default first. */
  const ProviderModels: map<string, seq<string>> := map[
    "Claude" := ["claude-sonnet-4-5-20250929", "claude-sonnet-4-20250514", "claude-opus-4-20250514",
                 "claude-haiku-4-5-20251001"],
    "OpenAI" := ["gpt-4o", "gpt-4-turbo", "gpt-3.5-turbo"]
  ]

  /** A model dropdown: its choices and the selected value, if any. */
  datatype Dropdown = Dropdown(choices: seq<string>, value: Option<string>)

  /** `update_model_dropdown`: the models of a known provider with the
      first of them selected; nothing, and no selection, for an unknown
      one. */
  function UpdateModelDropdown(provider: string): (d: Dropdown)
    ensures provider in ProviderModels ==> d.choices == ProviderModels[provider]
    ensures d.choices == [] <==> provider !in ProviderModels
    ensures d.value.None? <==> d.choices == []
    ensures d.value.Some? ==> d.value.value == d.choices[0]
  {
    var models := if provider in ProviderModels then ProviderModels[provider] else [];
    Dropdown(models, if models != [] then Some(models[0]) else None)
  }

  /** The seven inputs of the form. */
  datatype Form = Form(topic: string, proProvider: string, proModel: string, proApiKey: string,
                       conProvider: string, conModel: string, conApiKey: string)

  /** One value `run_debate` yields: a lone message, or the texts of the
      pro, con and verdict panels. */
  datatype Update = Notice(text: string) | Screen(pro: string, con: string, verdict: string)

  /** How the split-screen debate ended: every triple it yielded, and the
      message of the exception that stopped it, if one did. */
  datatype Outcome = Outcome(yielded: seq<Panels>, error: Option<string>)

  const TopicMessage := "Please enter a topic (at least 5 characters)"

  /** The message for a missing or too short key of the agent named
      `agent` ("Pro" or "Con"), naming its provider. */
  function KeyMessage(agent: string, provider: string): (m: string)
    ensures Contains(m, provider)
    ensures Contains(m, "Agent " + agent + " (" + provider + ")")
  {
    var named := "Agent " + agent + " (" + provider + ")";
    ContainsPrefix(provider + ")", provider);
    ContainsShifted("Agent " + agent + " (", provider + ")", provider);
    assert "Agent " + agent + " (" + (provider + ")") == named;
    ContainsPrefix(named, named);
    ContainsShifted("Please provide API key for ", named, named);
    ContainsTransitive("Please provide API key for " + named, named, provider);
    "Please provide API key for " + named
  }

  /** The pro-key and con-key messages never coincide, whatever the two
      providers: the user can always tell which key to fix. */
  lemma KeyMessagesDiffer(proProvider: string, conProvider: string)
    ensures KeyMessage("Pro", proProvider) != KeyMessage("Con", conProvider)
  {
    var lead := |"Please provide API key for Agent "|;
    assert KeyMessage("Pro", proProvider)[lead] == 'P';
    assert KeyMessage("Con", conProvider)[lead] == 'C';
  }

  /** The topic is long enough once stripped. */
  predicate TopicOk(form: Form)
  {
    |Strip(form.topic)| >= 5
  }

  /** A key is long enough once stripped. */
  predicate KeyOk(key: string)
  {
    |Strip(key)| >= 10
  }

  /** The checks of `run_debate`, in order: the message of the first that
      fails, if any. */
  function Validate(form: Form): Option<string>
  {
    if !TopicOk(form) then Some(TopicMessage)
    else if !KeyOk(form.proApiKey) then Some(KeyMessage("Pro", form.proProvider))
    else if !KeyOk(form.conApiKey) then Some(KeyMessage("Con", form.conProvider))
    else None
  }

  /** The first line both side panels show once the form is accepted. */
  function ConfigMessage(provider: string, model: string): string
  {
    "Using: " + provider + "/" + model + "\nInitializing..."
  }

  /** What an exception during the debate turns into: its message, prefixed,
      on both side panels, and a blank verdict panel. */
  function ErrorUpdate(message: string): Update
  {
    var text := "Error: " + message;
    Screen(text, text, "")
  }

  /** The triples of the debate, forwarded one by one. */
  function Forward(ys: seq<Panels>): (us: seq<Update>)
    ensures |us| == |ys|
    ensures forall i :: 0 <= i < |ys| ==> us[i] == Screen(ys[i].pro, ys[i].con, ys[i].verdict)
  {
    if ys == [] then [] else [Screen(ys[0].pro, ys[0].con, ys[0].verdict)] + Forward(ys[1..])
  }

  /** What an accepted form yields: the configuration line `config` on
      both side panels (on the con panel with every "Pro" replaced by
      "Con"), every triple of the debate unchanged and in order, and a final
      error triple when an exception ended it. */
  function Relay(config: string, outcome: Outcome): (us: seq<Update>)
    ensures |us| == 1 + |outcome.yielded| + (if outcome.error.Some? then 1 else 0)
    ensures us[0] == Screen(config, ReplaceAll(config, "Pro", "Con"), "")
    ensures forall i :: 0 <= i < |outcome.yielded| ==>
              us[1 + i] == Screen(outcome.yielded[i].pro, outcome.yielded[i].con, outcome.yielded[i].verdict)
    ensures outcome.error.Some? ==> us[|us| - 1] == ErrorUpdate(outcome.error.value)
  {
    [Screen(config, ReplaceAll(config, "Pro", "Con"), "")] + Forward(outcome.yielded)
      + (if outcome.error.Some? then [ErrorUpdate(outcome.error.value)] else [])
  }

  /** `run_debate`, given how the debate it starts would end: the checks run
      in order (topic, pro key, con key) and the first that fails yields its
      message alone; a form that passes all three is relayed. */
  function RunDebate(form: Form, outcome: Outcome): (us: seq<Update>)
    ensures !TopicOk(form) ==> us == [Notice(TopicMessage)]
    ensures TopicOk(form) && !KeyOk(form.proApiKey) ==> us == [Notice(KeyMessage("Pro", form.proProvider))]
    ensures TopicOk(form) && KeyOk(form.proApiKey) && !KeyOk(form.conApiKey) ==>
              us == [Notice(KeyMessage("Con", form.conProvider))]
    ensures TopicOk(form) && KeyOk(form.proApiKey) && KeyOk(form.conApiKey) ==>
              us == Relay(ConfigMessage(form.proProvider, form.proModel), outcome)
  {
    match Validate(form)
    case Some(message) => [Notice(message)]
    case None => Relay(ConfigMessage(form.proProvider, form.proModel), outcome)
  }

  /** A rejected form gets the same single message whatever the debate
      would have done: no debate is run. */
  lemma RejectedFormIgnoresDebate(form: Form, outcome1: Outcome, outcome2: Outcome)
    requires !(TopicOk(form) && KeyOk(form.proApiKey) && KeyOk(form.conApiKey))
    ensures RunDebate(form, outcome1) == RunDebate(form, outcome2)
    ensures |RunDebate(form, outcome1)| == 1 && RunDebate(form, outcome1)[0].Notice?
  {
  }

  /** The first failing check alone decides the message: with a bad topic
      the keys do not matter, and with a bad pro key the con key does not. */
  lemma FirstFailureDecides(form: Form, other: Form, outcome: Outcome)
    requires form.topic == other.topic
    requires !TopicOk(form) || (form.proApiKey == other.proApiKey && form.proProvider == other.proProvider
                                && !KeyOk(form.proApiKey))
    ensures RunDebate(form, outcome) == RunDebate(other, outcome)
  {
  }

  /** A debate that ran to its end is forwarded without any error triple:
      everything after the configuration triple is its output. */
  lemma CompletedDebateForwarded(form: Form, yielded: seq<Panels>)
    requires TopicOk(form) && KeyOk(form.proApiKey) && KeyOk(form.conApiKey)
    ensures RunDebate(form, Outcome(yielded, None))[1..] == Forward(yielded)
  {
  }

  /** The con panel's configuration line is the pro panel's with every
      "Pro" replaced; when neither the provider nor the model contains a
      capital P there is nothing to replace, so the con panel shows the pro
      agent's provider and model. */
  lemma ConPanelShowsProConfig(provider: string, model: string)
    requires 'P' !in provider && 'P' !in model
    ensures ReplaceAll(ConfigMessage(provider, model), "Pro", "Con") == ConfigMessage(provider, model)
  {
    var config := ConfigMessage(provider, model);
    assert 'P' !in config;
    forall k | 0 <= k <= |config|
      ensures !("Pro" <= config[k..])
    {
      if k < |config| {
        assert config[k..][0] == config[k];
      }
    }
    ReplaceAllAbsent(config, "Pro", "Con");
  }

  /** No provider or model offered by the dropdowns contains a capital P,
      so with the offered choices the con panel always opens with the pro
      agent's configuration. */
  lemma OfferedChoicesShowProConfig(provider: string, model: string)
    requires provider in ProviderModels && model in ProviderModels[provider]
    ensures ReplaceAll(ConfigMessage(provider, model), "Pro", "Con") == ConfigMessage(provider, model)
  {
    assert 'P' !in provider && 'P' !in model;
    ConPanelShowsProConfig(provider, model);
  }

  /** `run_debate` run against the split-screen debate model. `proService`
      and `conService` stand for the providers behind the two keys. When the
      form is accepted, an orchestrator is built with the stripped keys and
      the chosen providers and models, the debate runs on the stripped topic
      on `screen`, and `outcome` is every triple `screen` yielded and how the
      debate ended; the values yielded are `RunDebate(form, outcome)`. */
  method RunDebateWith(form: Form, proService: Service, conService: Service)
    returns (us: seq<Update>, orchestrator: DebateOrchestrator?, screen: SplitScreen?, outcome: Outcome,
             ghost trace: Trace)
    ensures us == RunDebate(form, outcome)
    ensures orchestrator == null <==> Validate(form).Some?
    ensures orchestrator == null ==> outcome == Outcome([], None)
    ensures orchestrator != null ==>
      && screen != null && fresh(screen) && screen.Valid()
      && outcome.yielded == screen.yielded
      && (outcome.error.None? ==> orchestrator.Shown(screen, Strip(form.topic), trace))
    ensures orchestrator != null ==>
      && fresh(orchestrator) && orchestrator.Valid()
      && orchestrator.agentPro.apiKey == Strip(form.proApiKey)
      && orchestrator.agentCon.apiKey == Strip(form.conApiKey)
      && orchestrator.agentPro.clientType == Lower(form.proProvider) && orchestrator.agentPro.model == form.proModel
      && orchestrator.agentCon.clientType == Lower(form.conProvider) && orchestrator.agentCon.model == form.conModel
      && (outcome.error.None? ==> Completed(Snapshot([], [], [], []), orchestrator.Now(), Strip(form.topic), trace))
      && (outcome.error.Some? ==> Raised(Snapshot([], [], [], []), orchestrator.Now(), outcome.error.value))
  {
    outcome := Outcome([], None);
    trace := Trace(Side([], [], []), Side([], [], []), "");
    orchestrator, screen := null, null;
    var rejection := Validate(form);
    if rejection.Some? {
      us := [Notice(rejection.value)];
      return;
    }
    var config := ConfigMessage(form.proProvider, form.proModel);
    orchestrator := new DebateOrchestrator(form.proProvider, form.proModel, form.conProvider, form.conModel,
                                           Strip(form.proApiKey), Strip(form.conApiKey), proService, conService);
    var r;
    screen, r, trace := orchestrator.RunSplitScreenDebate(Strip(form.topic), 3);
    outcome := Outcome(screen.yielded, if r.Err? then Some(r.message) else None);
    us := Relay(config, outcome);
  }
}
