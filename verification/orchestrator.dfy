/** `DebateOrchestrator`: two agents, pro and con, driven through the fixed
    three-round schedule
      generate -> reflect -> summarise -> refine -> reflect -> summarise -> refine -> verdict
    by three entry points that differ only in what they show while running:
    `run_multiround_debate` returns the collected texts,
    `run_split_screen_debate` yields pro/con/verdict panels, and
    `run_multiround_debate_streaming` yields one growing transcript. A
    provider failure aborts a run at the failing call, as the exception does
    in Python. */
module Orchestrator {
  import opened Text
  import opened Provider
  import opened Prompts
  import opened Agent
  import opened Channels

  /** The texts one side's provider produced in a completed run: three
      arguments, and the reflections and summaries of rounds 1 and 2. */
  datatype Side = Side(arguments: seq<string>, reflections: seq<string>, summaries: seq<string>)
  {
    predicate Complete()
    {
      |arguments| == 3 && |reflections| == 2 && |summaries| == 2
    }
  }

  /** A side's three arguments with the reflections of rounds 2 and 3. */
  function DebateSide(arguments: seq<string>, round2: Reflection, round3: Reflection): (side: Side)
    requires |arguments| == 3
    ensures side.Complete()
  {
    Side(arguments, [round2.reflection, round3.reflection], [round2.summary, round3.summary])
  }

  /** Everything both providers produced in a completed run. */
  datatype Trace = Trace(pro: Side, con: Side, verdict: string)

  /** The dictionary `run_multiround_debate` returns. */
  datatype DebateRecord = DebateRecord(proArguments: seq<string>, conArguments: seq<string>,
                                       proReflections: seq<string>, conReflections: seq<string>,
                                       verdict: string)

  /** The seven calls one agent makes in a completed debate, each with the
      text it got back. Round `n` (2 or 3) refines the agent's own round
      `n - 1` argument with its own round `n - 1` summary against the
      opponent's round `n - 1` argument `theirs[n - 2]`. */
  function RoundExchanges(topic: string, mine: Side, theirs: seq<string>): seq<Exchange>
    requires mine.Complete() && |theirs| >= 2
  {
    var a, r, s := mine.arguments, mine.reflections, mine.summaries;
    [ Exchange(ArgumentAsk(topic, "", 1), Ok(a[0])),
      Exchange(ReflectionAsk(a[0]), Ok(r[0])),
      Exchange(SummaryAsk(r[0]), Ok(s[0])),
      Exchange(RefinementAsk(topic, a[0], s[0], theirs[0], 2), Ok(a[1])),
      Exchange(ReflectionAsk(a[1]), Ok(r[1])),
      Exchange(SummaryAsk(r[1]), Ok(s[1])),
      Exchange(RefinementAsk(topic, a[1], s[1], theirs[1], 3), Ok(a[2])) ]
  }

  /** Both agents' exchange logs and argument histories at one moment. */
  datatype Snapshot = Snapshot(proExchanges: seq<Exchange>, proHistory: seq<string>,
                               conExchanges: seq<Exchange>, conHistory: seq<string>)

  /** From `s` to `t`, both logs and both histories only grew. */
  predicate Extended(s: Snapshot, t: Snapshot)
  {
    && s.proExchanges <= t.proExchanges && s.proHistory <= t.proHistory
    && s.conExchanges <= t.conExchanges && s.conHistory <= t.conHistory
  }

  /** `s` after the pro agent logged `proEntries` and produced
      `proArguments`, and the con agent likewise. */
  function Append(s: Snapshot, proEntries: seq<Exchange>, proArguments: seq<string>,
                  conEntries: seq<Exchange>, conArguments: seq<string>): Snapshot
  {
    Snapshot(s.proExchanges + proEntries, s.proHistory + proArguments,
             s.conExchanges + conEntries, s.conHistory + conArguments)
  }

  /** From `s` to `t`, the pro agent logged exactly `proEntries` and produced
      exactly `proArguments`, and the con agent likewise. */
  predicate Logged(s: Snapshot, t: Snapshot, proEntries: seq<Exchange>, proArguments: seq<string>,
                   conEntries: seq<Exchange>, conArguments: seq<string>)
  {
    t == Append(s, proEntries, proArguments, conEntries, conArguments)
  }

  /** From `s` to `t`, a whole debate ran: each agent made its seven calls
      (and the pro agent the verdict call) and got `trace`'s texts back, and
      each history grew by that agent's three arguments. */
  predicate Completed(s: Snapshot, t: Snapshot, topic: string, trace: Trace)
  {
    var pro, con := trace.pro, trace.con;
    && pro.Complete() && con.Complete()
    && Logged(s, t, RoundExchanges(topic, pro, con.arguments)
                      + [Exchange(VerdictAsk(topic, pro.arguments, con.arguments), Ok(trace.verdict))],
              pro.arguments,
              RoundExchanges(topic, con, pro.arguments), con.arguments)
  }

  /** Every call logged in `es` returned a text. */
  predicate AllOk(es: seq<Exchange>)
  {
    forall i :: 0 <= i < |es| ==> es[i].reply.Ok?
  }

  /** The last call logged in `es` raised `message`, and every earlier one
      returned a text. */
  predicate FailedLast(es: seq<Exchange>, message: string)
  {
    |es| > 0 && es[|es| - 1].reply == Err(message) && AllOk(es[..|es| - 1])
  }

  /** From `s` to `t`, both agents made as many calls, every call returned
      a text, and each history grew by the texts of that agent's argument
      calls. */
  predicate Balanced(s: Snapshot, t: Snapshot)
  {
    && Extended(s, t)
    && var pro, con := t.proExchanges[|s.proExchanges|..], t.conExchanges[|s.conExchanges|..];
       && |pro| == |con| && AllOk(pro) && AllOk(con)
       && t.proHistory == s.proHistory + Produced(pro) && t.conHistory == s.conHistory + Produced(con)
  }

  /** From `s` to `t`, the run stopped at the first call that raised, and
      that call raised `message`. The agents take turns, pro first, so
      either pro's last call raised after pro made one call more than con,
      or con's last call raised after con made as many calls as pro; every
      other call returned a text, and nothing was called after the failure.
      Each history grew by the texts of that agent's argument calls before
      the failure. */
  predicate Raised(s: Snapshot, t: Snapshot, message: string)
  {
    && Extended(s, t)
    && var pro, con := t.proExchanges[|s.proExchanges|..], t.conExchanges[|s.conExchanges|..];
       && Stopped(pro, con, message)
       && t.proHistory == s.proHistory + Produced(pro) && t.conHistory == s.conHistory + Produced(con)
  }

  /** `pro` and `con` are the calls of a run, taking turns with pro first,
      that stopped at the first call that raised, and that call raised
      `message`. */
  predicate Stopped(pro: seq<Exchange>, con: seq<Exchange>, message: string)
  {
    || (|pro| == |con| + 1 && FailedLast(pro, message) && AllOk(con))
    || (|pro| == |con| && FailedLast(con, message) && AllOk(pro))
  }

  /** One side's reflection phase: its critique and the summary of it. */
  datatype Reflection = Reflection(reflection: string, summary: string)

  /** The two calls of one side's reflection phase on `argument`. */
  function ReflectionExchanges(argument: string, r: Reflection): seq<Exchange>
  {
    [Exchange(ReflectionAsk(argument), Ok(r.reflection)), Exchange(SummaryAsk(r.reflection), Ok(r.summary))]
  }

  /** What the three rounds of a run produced: both opening arguments and
      both improvement rounds. */
  datatype Rounds = Rounds(proOpening: string, conOpening: string, round2: Improvement, round3: Improvement)

  /** One improvement round (2 or 3): both sides' reflection phases on their
      previous arguments, then their refined arguments. */
  datatype Improvement = Improvement(pro: Reflection, con: Reflection, proArgument: string, conArgument: string)

  /** The three calls of one side's improvement round: reflect on and
      summarise `previous`, then refine it with the summary against
      `opponent`. */
  function ImprovementExchanges(topic: string, previous: string, opponent: string, round: int,
                                reflection: Reflection, argument: string): seq<Exchange>
  {
    ReflectionExchanges(previous, reflection)
      + [Exchange(RefinementAsk(topic, previous, reflection.summary, opponent, round), Ok(argument))]
  }

  /** A reflection phase followed by a refinement round is one improvement
      round. */
  lemma ImprovementComposes(s0: Snapshot, s1: Snapshot, s2: Snapshot, topic: string,
                            proPrevious: string, conPrevious: string, round: int, i: Improvement)
    requires Logged(s0, s1, ReflectionExchanges(proPrevious, i.pro), [], ReflectionExchanges(conPrevious, i.con), [])
    requires Logged(s1, s2, [Exchange(RefinementAsk(topic, proPrevious, i.pro.summary, conPrevious, round), Ok(i.proArgument))],
                            [i.proArgument],
                            [Exchange(RefinementAsk(topic, conPrevious, i.con.summary, proPrevious, round), Ok(i.conArgument))],
                            [i.conArgument])
    ensures Logged(s0, s2, ImprovementExchanges(topic, proPrevious, conPrevious, round, i.pro, i.proArgument),
                           [i.proArgument],
                           ImprovementExchanges(topic, conPrevious, proPrevious, round, i.con, i.conArgument),
                           [i.conArgument])
  {
    assert s2.proExchanges == s0.proExchanges + ImprovementExchanges(topic, proPrevious, conPrevious, round, i.pro, i.proArgument);
    assert s2.conExchanges == s0.conExchanges + ImprovementExchanges(topic, conPrevious, proPrevious, round, i.con, i.conArgument);
  }

  /** The pro side's texts of the three rounds. */
  function ProSide(rs: Rounds): (side: Side)
    ensures side.Complete()
  {
    DebateSide([rs.proOpening, rs.round2.proArgument, rs.round3.proArgument], rs.round2.pro, rs.round3.pro)
  }

  /** The con side's texts of the three rounds. */
  function ConSide(rs: Rounds): (side: Side)
    ensures side.Complete()
  {
    DebateSide([rs.conOpening, rs.round2.conArgument, rs.round3.conArgument], rs.round2.con, rs.round3.con)
  }

  /** From `s0` to `s1` both agents made their opening calls, from `s1` to
      `s2` their round-2 calls and from `s2` to `s3` their round-3 calls,
      with the texts of `rs`. */
  predicate RoundsLogged(s0: Snapshot, s1: Snapshot, s2: Snapshot, s3: Snapshot, topic: string, rs: Rounds)
  {
    var Rounds(pro1, con1, round2, round3) := rs;
    && Logged(s0, s1, [Exchange(ArgumentAsk(topic, "", 1), Ok(pro1))], [pro1],
                      [Exchange(ArgumentAsk(topic, "", 1), Ok(con1))], [con1])
    && Logged(s1, s2, ImprovementExchanges(topic, pro1, con1, 2, round2.pro, round2.proArgument),
                      [round2.proArgument],
                      ImprovementExchanges(topic, con1, pro1, 2, round2.con, round2.conArgument),
                      [round2.conArgument])
    && Logged(s2, s3, ImprovementExchanges(topic, round2.proArgument, round2.conArgument, 3,
                                           round3.pro, round3.proArgument),
                      [round3.proArgument],
                      ImprovementExchanges(topic, round2.conArgument, round2.proArgument, 3,
                                           round3.con, round3.conArgument),
                      [round3.conArgument])
  }

  /** The calls of the three rounds followed by the verdict call on their
      arguments add up to a whole debate. */
  lemma {:induction false} RoundsMakeDebate(s0: Snapshot, s1: Snapshot, s2: Snapshot, s3: Snapshot, s4: Snapshot,
                                            topic: string, rs: Rounds, verdict: string)
    requires RoundsLogged(s0, s1, s2, s3, topic, rs)
    requires Logged(s3, s4, [Exchange(VerdictAsk(topic, ProSide(rs).arguments, ConSide(rs).arguments), Ok(verdict))],
                            [], [], [])
    ensures Completed(s0, s4, topic, Trace(ProSide(rs), ConSide(rs), verdict))
  {
    var Rounds(pro1, con1, round2, round3) := rs;
    var pro, con := ProSide(rs).arguments, ConSide(rs).arguments;
    var proRounds := RoundExchanges(topic, ProSide(rs), con);
    assert proRounds == [proRounds[0]] + ImprovementExchanges(topic, pro1, con1, 2, round2.pro, pro[1])
                        + ImprovementExchanges(topic, pro[1], con[1], 3, round3.pro, pro[2]);
    var conRounds := RoundExchanges(topic, ConSide(rs), pro);
    assert conRounds == [conRounds[0]] + ImprovementExchanges(topic, con1, pro1, 2, round2.con, con[1])
                        + ImprovementExchanges(topic, con[1], pro[1], 3, round3.con, con[2]);
    assert pro == [pro[0]] + [pro[1]] + [pro[2]];
    assert con == [con[0]] + [con[1]] + [con[2]];
  }

  /** A first pro call that raised stops the run. */
  lemma ProRaised(s: Snapshot, t: Snapshot, ask: Ask, message: string)
    requires Logged(s, t, [Exchange(ask, Err(message))], [], [], [])
    ensures Raised(s, t, message)
  {
    assert t.proExchanges[|s.proExchanges|..] == [Exchange(ask, Err(message))];
    assert t.conExchanges[|s.conExchanges|..] == [];
    ProducedSnoc([], Exchange(ask, Err(message)));
  }

  /** A con call that raised after a pro call that returned a text stops
      the run. */
  lemma ConRaised(s: Snapshot, m: Snapshot, t: Snapshot, proEntry: Exchange, proArguments: seq<string>,
                  ask: Ask, message: string)
    requires proEntry.reply.Ok? && proArguments == Contribution(proEntry)
    requires Logged(s, m, [proEntry], proArguments, [], [])
    requires Logged(m, t, [], [], [Exchange(ask, Err(message))], [])
    ensures Raised(s, t, message)
  {
    assert t.proExchanges[|s.proExchanges|..] == [proEntry];
    assert t.conExchanges[|s.conExchanges|..] == [Exchange(ask, Err(message))];
    ProducedSnoc([], proEntry);
    ProducedSnoc([], Exchange(ask, Err(message)));
  }

  /** Calls that all returned texts, as many for each agent. */
  lemma LoggedBalanced(s: Snapshot, t: Snapshot, proEntries: seq<Exchange>, proArguments: seq<string>,
                       conEntries: seq<Exchange>, conArguments: seq<string>)
    requires Logged(s, t, proEntries, proArguments, conEntries, conArguments)
    requires |proEntries| == |conEntries| && AllOk(proEntries) && AllOk(conEntries)
    requires proArguments == Produced(proEntries) && conArguments == Produced(conEntries)
    ensures Balanced(s, t)
  {
    assert t.proExchanges[|s.proExchanges|..] == proEntries;
    assert t.conExchanges[|s.conExchanges|..] == conEntries;
  }

  /** The calls logged from `a` to `c` are those from `a` to `b` followed
      by those from `b` to `c`, and so is what they produced. */
  lemma SinceThen(a: seq<Exchange>, b: seq<Exchange>, c: seq<Exchange>)
    requires a <= b <= c
    ensures c[|a|..] == b[|a|..] + c[|b|..]
    ensures Produced(c[|a|..]) == Produced(b[|a|..]) + Produced(c[|b|..])
  {
    assert c[|a|..] == b[|a|..] + c[|b|..];
    ProducedAppend(b[|a|..], c[|b|..]);
  }

  /** A failure in a later section, after sections whose calls all
      returned texts, is a failure of the whole run. */
  lemma RaisedAfter(s: Snapshot, m: Snapshot, t: Snapshot, message: string)
    requires Balanced(s, m) && Raised(m, t, message)
    ensures Raised(s, t, message)
  {
    StoppedThen(s.proExchanges, m.proExchanges, t.proExchanges, s.conExchanges, m.conExchanges, t.conExchanges,
                message);
    HistoryThen(s.proHistory, m.proHistory, t.proHistory, s.proExchanges, m.proExchanges, t.proExchanges);
    HistoryThen(s.conHistory, m.conHistory, t.conHistory, s.conExchanges, m.conExchanges, t.conExchanges);
  }

  /** A history that grew by what the calls from `a` to `b` produced, then
      by what the calls from `b` to `c` produced, grew by what the calls
      from `a` to `c` produced. */
  lemma HistoryThen(h0: seq<string>, h1: seq<string>, h2: seq<string>,
                    a: seq<Exchange>, b: seq<Exchange>, c: seq<Exchange>)
    requires a <= b <= c
    requires h1 == h0 + Produced(b[|a|..]) && h2 == h1 + Produced(c[|b|..])
    ensures h2 == h0 + Produced(c[|a|..])
  {
    SinceThen(a, b, c);
    GrewThen(h0, h1, h2, Produced(b[|a|..]), Produced(c[|b|..]), Produced(c[|a|..]));
  }

  /** Growing by `x` and then by `y` is growing by `x + y`. */
  lemma GrewThen(h0: seq<string>, h1: seq<string>, h2: seq<string>, x: seq<string>, y: seq<string>, z: seq<string>)
    requires h1 == h0 + x && h2 == h1 + y && z == x + y
    ensures h2 == h0 + z
  {
  }

  /** Turns that all returned texts, as many for each agent, followed by a
      run that stopped, make a run that stopped. */
  lemma StoppedThen(a: seq<Exchange>, b: seq<Exchange>, c: seq<Exchange>,
                    x: seq<Exchange>, y: seq<Exchange>, z: seq<Exchange>, message: string)
    requires a <= b <= c && x <= y <= z
    requires |b| - |a| == |y| - |x| && AllOk(b[|a|..]) && AllOk(y[|x|..])
    requires Stopped(c[|b|..], z[|y|..], message)
    ensures Stopped(c[|a|..], z[|x|..], message)
  {
    SinceThen(a, b, c);
    SinceThen(x, y, z);
    StoppedAfter(b[|a|..], y[|x|..], c[|b|..], z[|y|..], message);
  }

  /** `StoppedThen` on the calls themselves. */
  lemma StoppedAfter(pro1: seq<Exchange>, con1: seq<Exchange>, pro2: seq<Exchange>, con2: seq<Exchange>,
                     message: string)
    requires |pro1| == |con1| && AllOk(pro1) && AllOk(con1) && Stopped(pro2, con2, message)
    ensures Stopped(pro1 + pro2, con1 + con2, message)
  {
    if |pro2| == |con2| + 1 && FailedLast(pro2, message) && AllOk(con2) {
      assert (pro1 + pro2)[..|pro1 + pro2| - 1] == pro1 + pro2[..|pro2| - 1];
    } else {
      assert (con1 + con2)[..|con1 + con2| - 1] == con1 + con2[..|con2| - 1];
    }
  }

  /** One logged call produces its contribution. */
  lemma ProducedOne(e: Exchange)
    ensures Produced([e]) == Contribution(e)
  {
    ProducedSnoc([], e);
    assert [] + [e] == [e];
  }

  /** A reflection phase produces no argument. */
  lemma ReflectionProducesNothing(argument: string, r: Reflection)
    ensures Produced(ReflectionExchanges(argument, r)) == []
  {
    var e0, e1 := Exchange(ReflectionAsk(argument), Ok(r.reflection)), Exchange(SummaryAsk(r.reflection), Ok(r.summary));
    ProducedOne(e0);
    ProducedSnoc([e0], e1);
    assert [e0] + [e1] == ReflectionExchanges(argument, r);
  }

  /** An improvement round produces its refined argument. */
  lemma ImprovementProduces(topic: string, previous: string, opponent: string, round: int,
                            reflection: Reflection, argument: string)
    ensures Produced(ImprovementExchanges(topic, previous, opponent, round, reflection, argument)) == [argument]
  {
    ReflectionProducesNothing(previous, reflection);
    ProducedSnoc(ReflectionExchanges(previous, reflection),
                 Exchange(RefinementAsk(topic, previous, reflection.summary, opponent, round), Ok(argument)));
  }

  /** Two sections in a row whose calls all returned texts, as many for
      each agent. */
  lemma BalancedThen(s: Snapshot, m: Snapshot, t: Snapshot)
    requires Balanced(s, m) && Balanced(m, t)
    ensures Balanced(s, t)
  {
    AllOkThen(s.proExchanges, m.proExchanges, t.proExchanges);
    AllOkThen(s.conExchanges, m.conExchanges, t.conExchanges);
    HistoryThen(s.proHistory, m.proHistory, t.proHistory, s.proExchanges, m.proExchanges, t.proExchanges);
    HistoryThen(s.conHistory, m.conHistory, t.conHistory, s.conExchanges, m.conExchanges, t.conExchanges);
  }

  /** Calls from `a` to `b` and from `b` to `c` that all returned texts
      are calls from `a` to `c` that all returned texts. */
  lemma AllOkThen(a: seq<Exchange>, b: seq<Exchange>, c: seq<Exchange>)
    requires a <= b <= c && AllOk(b[|a|..]) && AllOk(c[|b|..])
    ensures AllOk(c[|a|..]) && |c[|a|..]| == |b[|a|..]| + |c[|b|..]|
  {
    SinceThen(a, b, c);
  }

  /** Both opening arguments returned: a balanced section. */
  lemma OpeningBalanced(s: Snapshot, t: Snapshot, topic: string, pro: string, con: string)
    requires Logged(s, t, [Exchange(ArgumentAsk(topic, "", 1), Ok(pro))], [pro],
                          [Exchange(ArgumentAsk(topic, "", 1), Ok(con))], [con])
    ensures Balanced(s, t)
  {
    ProducedOne(Exchange(ArgumentAsk(topic, "", 1), Ok(pro)));
    ProducedOne(Exchange(ArgumentAsk(topic, "", 1), Ok(con)));
    LoggedBalanced(s, t, [Exchange(ArgumentAsk(topic, "", 1), Ok(pro))], [pro],
                         [Exchange(ArgumentAsk(topic, "", 1), Ok(con))], [con]);
  }

  /** Both critiques returned: a balanced section. */
  lemma CritiquesBalanced(s: Snapshot, t: Snapshot, proArgument: string, conArgument: string,
                          proReflection: string, conReflection: string)
    requires Logged(s, t, [Exchange(ReflectionAsk(proArgument), Ok(proReflection))], [],
                          [Exchange(ReflectionAsk(conArgument), Ok(conReflection))], [])
    ensures Balanced(s, t)
  {
    ProducedOne(Exchange(ReflectionAsk(proArgument), Ok(proReflection)));
    ProducedOne(Exchange(ReflectionAsk(conArgument), Ok(conReflection)));
    LoggedBalanced(s, t, [Exchange(ReflectionAsk(proArgument), Ok(proReflection))], [],
                         [Exchange(ReflectionAsk(conArgument), Ok(conReflection))], []);
  }

  /** Both reflection phases returned: a balanced section. */
  lemma ReflectionBalanced(s: Snapshot, t: Snapshot, proArgument: string, conArgument: string,
                           pro: Reflection, con: Reflection)
    requires Logged(s, t, ReflectionExchanges(proArgument, pro), [], ReflectionExchanges(conArgument, con), [])
    ensures Balanced(s, t)
  {
    ReflectionProducesNothing(proArgument, pro);
    ReflectionProducesNothing(conArgument, con);
    LoggedBalanced(s, t, ReflectionExchanges(proArgument, pro), [], ReflectionExchanges(conArgument, con), []);
  }

  /** Both sides' improvement round returned: a balanced section. */
  lemma ImprovementBalanced(s: Snapshot, t: Snapshot, topic: string, proPrevious: string, conPrevious: string,
                            round: int, i: Improvement)
    requires Logged(s, t, ImprovementExchanges(topic, proPrevious, conPrevious, round, i.pro, i.proArgument),
                          [i.proArgument],
                          ImprovementExchanges(topic, conPrevious, proPrevious, round, i.con, i.conArgument),
                          [i.conArgument])
    ensures Balanced(s, t)
  {
    ImprovementProduces(topic, proPrevious, conPrevious, round, i.pro, i.proArgument);
    ImprovementProduces(topic, conPrevious, proPrevious, round, i.con, i.conArgument);
    LoggedBalanced(s, t, ImprovementExchanges(topic, proPrevious, conPrevious, round, i.pro, i.proArgument),
                         [i.proArgument],
                         ImprovementExchanges(topic, conPrevious, proPrevious, round, i.con, i.conArgument),
                         [i.conArgument]);
  }

  /** A failure in round 2, after both opening arguments returned, is a
      failure of the whole run. */
  lemma RaisedInRound2(s0: Snapshot, s1: Snapshot, t: Snapshot, topic: string, pro1: string, con1: string,
                       message: string)
    requires Logged(s0, s1, [Exchange(ArgumentAsk(topic, "", 1), Ok(pro1))], [pro1],
                            [Exchange(ArgumentAsk(topic, "", 1), Ok(con1))], [con1])
    requires Raised(s1, t, message)
    ensures Raised(s0, t, message)
  {
    OpeningBalanced(s0, s1, topic, pro1, con1);
    RaisedAfter(s0, s1, t, message);
  }

  /** A failure in round 3, after rounds 1 and 2 returned, is a failure of
      the whole run. */
  lemma RaisedInRound3(s0: Snapshot, s1: Snapshot, s2: Snapshot, t: Snapshot, topic: string,
                       pro1: string, con1: string, round2: Improvement, message: string)
    requires Logged(s0, s1, [Exchange(ArgumentAsk(topic, "", 1), Ok(pro1))], [pro1],
                            [Exchange(ArgumentAsk(topic, "", 1), Ok(con1))], [con1])
    requires Logged(s1, s2, ImprovementExchanges(topic, pro1, con1, 2, round2.pro, round2.proArgument),
                            [round2.proArgument],
                            ImprovementExchanges(topic, con1, pro1, 2, round2.con, round2.conArgument),
                            [round2.conArgument])
    requires Raised(s2, t, message)
    ensures Raised(s0, t, message)
  {
    OpeningBalanced(s0, s1, topic, pro1, con1);
    ImprovementBalanced(s1, s2, topic, pro1, con1, 2, round2);
    BalancedThen(s0, s1, s2);
    RaisedAfter(s0, s2, t, message);
  }

  /** A failed verdict call, after the three rounds returned, is a failure
      of the whole run. */
  lemma RaisedAtVerdict(s0: Snapshot, s1: Snapshot, s2: Snapshot, s3: Snapshot, t: Snapshot, topic: string,
                        rs: Rounds, message: string)
    requires RoundsLogged(s0, s1, s2, s3, topic, rs)
    requires Logged(s3, t, [Exchange(VerdictAsk(topic, ProSide(rs).arguments, ConSide(rs).arguments), Err(message))],
                           [], [], [])
    ensures Raised(s0, t, message)
  {
    ProRaised(s3, t, VerdictAsk(topic, ProSide(rs).arguments, ConSide(rs).arguments), message);
    RoundsBalanced(s0, s1, s2, s3, topic, rs);
    RaisedAfter(s0, s3, t, message);
  }

  /** The three rounds returned: a balanced section, and so are the first
      one and the first two. */
  lemma RoundsBalanced(s0: Snapshot, s1: Snapshot, s2: Snapshot, s3: Snapshot, topic: string, rs: Rounds)
    requires RoundsLogged(s0, s1, s2, s3, topic, rs)
    ensures Balanced(s0, s1) && Balanced(s0, s2) && Balanced(s0, s3)
  {
    OpeningBalanced(s0, s1, topic, rs.proOpening, rs.conOpening);
    ImprovementBalanced(s1, s2, topic, rs.proOpening, rs.conOpening, 2, rs.round2);
    ImprovementBalanced(s2, s3, topic, rs.round2.proArgument, rs.round2.conArgument, 3, rs.round3);
    BalancedThen(s0, s1, s2);
    BalancedThen(s0, s2, s3);
  }

  /** A run whose first call (pro's opening argument) was rejected made no
      other call and left both histories as they were. */
  lemma FirstCallRejected(s: Snapshot, t: Snapshot, message: string)
    requires Raised(s, t, message)
    requires |s.proExchanges| < |t.proExchanges| && t.proExchanges[|s.proExchanges|].reply.Err?
    ensures t == Append(s, [t.proExchanges[|s.proExchanges|]], [], [], [])
  {
    var pro := t.proExchanges[|s.proExchanges|..];
    assert pro[0] == t.proExchanges[|s.proExchanges|];
    assert pro == [pro[0]];
    assert Produced(pro) == [] by {
      assert pro[..0] == [];
    }
    assert t.conExchanges[|s.conExchanges|..] == [];
    assert t.proExchanges == s.proExchanges + [pro[0]];
    assert t.conExchanges == s.conExchanges;
  }

  /** The fragments of `verdict_output` before the verdict text. */
  function JudgeHeader(judge: DebateAgent): seq<string>
  {
    [ "FINAL VERDICT",
      SplitRule + "\n",
      "Judge: " + Upper(judge.clientType) + " Model " + judge.model + " (neutral task)\n",
      "Judge is analyzing all arguments...\n" ]
  }

  /** The fragments of `verdict_output` after the verdict text. */
  const JudgeFooter: seq<string> := ["\n\n" + SplitRule, "\nDebate Complete!"]

  /** The fragments of `verdict_output` in `run_split_screen_debate`. */
  function JudgePanel(judge: DebateAgent, verdict: string): seq<string>
  {
    JudgeHeader(judge) + [verdict] + JudgeFooter
  }

  /** The verdict panel shows the verdict text in full. */
  lemma JudgePanelShowsVerdict(judge: DebateAgent, verdict: string)
    ensures Contains(Join(JudgePanel(judge, verdict)), verdict)
  {
    JoinContains(JudgePanel(judge, verdict), |JudgeHeader(judge)|);
  }

  /** The banner every split-screen panel starts with. */
  function Header(topic: string): string
  {
    "AI DEBATE ARENA\n" + Repeat('\U{2501}', 51) + "\n" + "**Topic:** " + topic + "\n"
    + "**Pattern:** Reflection (from Andrew Ng's Agentic AI Course)\n" + Repeat('\U{2501}', 51) + "\n"
  }

  /** `yield format_pro(pro), format_con(con), ""`. */
  method ShowBoth(screen: SplitScreen, pro: string, con: string) returns (shown: Panels)
    requires screen.Valid() && screen.Open()
    modifies screen`proOutput, screen`conOutput, screen`yielded
    ensures screen.Valid() && screen.Open()
    ensures screen.proOutput == old(screen.proOutput) + [pro]
    ensures screen.conOutput == old(screen.conOutput) + [con]
    ensures screen.yielded == old(screen.yielded) + [shown]
    ensures shown == Panels(Join(screen.proOutput), Join(screen.conOutput), "")
  {
    var p := screen.FormatPro(pro);
    var c := screen.FormatCon(con);
    screen.Yield(p, c, "");
    shown := Panels(p, c, "");
  }

  /** `"=" * 50`, the rule of the split-screen panels. */
  const SplitRule: string := Repeat('=', 50)

  /** A three-line section banner: rule, title, rule. */
  function ShortBanner(title: string): seq<string>
  {
    ["\n" + SplitRule, title, SplitRule + "\n"]
  }

  /** A four-line section banner: rule, title, rule, introduction. */
  function LongBanner(title: string, intro: string): seq<string>
  {
    ["\n" + SplitRule, title, SplitRule, intro]
  }

  /** The banners of one improvement round of `run_split_screen_debate`:
      before the critiques, after them (before the summaries are asked
      for), and before the refined arguments. */
  datatype Banners = Banners(reflection: seq<string>, closing: seq<string>, refinement: seq<string>)

  const Round2Banners := Banners(LongBanner("REFLECTION: AI Critiques Itself", "Analyzing my own biases and flaws...\n"),
                                 ["\nLearning from mistakes...\n"],
                                 LongBanner("ROUND 2: IMPROVED ARGUMENT", "Fixing flaws from Round 1...\n"))

  const Round3Banners := Banners(ShortBanner("REFLECTION 2: Did I Improve?"), [],
                                 LongBanner("ROUND 3: FINAL ARGUMENT", "Most refined position...\n"))

  /** The line naming an agent's provider and model: `name` is "Agent Pro: "
      or "Agent Con: ". */
  function Config(name: string, agent: DebateAgent): string
  {
    name + Upper(agent.clientType) + " Model " + agent.model + "\n"
  }

  /** The line the con panel shows while the pro side argues round 1. */
  const Waiting := "Waiting for opponent...\n"

  /** The first line of a side's panel: the header and the side's
      configuration line. */
  function Intro(header: string, config: string): string
  {
    header + config + "Preparing to debate..."
  }

  /** The fragments a side's panel receives in round 1: its first line,
      the round banner, (for the con side, the waiting line,) and the
      opening argument. */
  function OpeningFragments(intro: string, waiting: seq<string>, argument: string): seq<string>
  {
    [intro] + ShortBanner("ROUND 1: OPENING ARGUMENT") + waiting + [argument + "\n"]
  }

  /** The fragments a side's panel receives in one improvement round: the
      critique and the refined argument, each under its banners. */
  function ImprovementFragments(banners: Banners, reflection: string, argument: string): seq<string>
  {
    banners.reflection + [reflection + "\n"] + banners.closing + banners.refinement + [argument + "\n"]
  }

  /** The last fragment of both side panels. */
  const Closing := "\nAll rounds complete!"

  /** The fragments one side's panel receives in the three rounds. */
  function RoundFragments(intro: string, waiting: seq<string>, side: Side): seq<string>
    requires side.Complete()
  {
    OpeningFragments(intro, waiting, side.arguments[0])
      + ImprovementFragments(Round2Banners, side.reflections[0], side.arguments[1])
      + ImprovementFragments(Round3Banners, side.reflections[1], side.arguments[2])
  }

  /** Every fragment one side's panel receives in a completed split-screen
      run, in order. */
  function PanelFragments(intro: string, waiting: seq<string>, side: Side): seq<string>
    requires side.Complete()
  {
    RoundFragments(intro, waiting, side) + [Closing]
  }

  /** The fragments of round 1 and of rounds 2 and 3, appended one after
      the other, are the fragments of the three rounds. */
  lemma RoundFragmentsCompose(o0: seq<string>, o1: seq<string>, o2: seq<string>, o3: seq<string>,
                              intro: string, waiting: seq<string>, opening: string,
                              round2: Reflection, argument2: string, round3: Reflection, argument3: string)
    requires o1 == o0 + OpeningFragments(intro, waiting, opening)
    requires o2 == o1 + ImprovementFragments(Round2Banners, round2.reflection, argument2)
    requires o3 == o2 + ImprovementFragments(Round3Banners, round3.reflection, argument3)
    ensures o3 == o0 + RoundFragments(intro, waiting, DebateSide([opening, argument2, argument3], round2, round3))
  {
    var side := DebateSide([opening, argument2, argument3], round2, round3);
    assert side.arguments[0] == opening && side.reflections[0] == round2.reflection;
    assert side.arguments[1] == argument2 && side.reflections[1] == round3.reflection;
    assert side.arguments[2] == argument3;
  }

  /** Both panels' fragments of round 1 and of rounds 2 and 3, appended one
      after the other, are the fragments of the three rounds of `rs`. */
  lemma RoundsFragments(pro0: seq<string>, pro1: seq<string>, pro3: seq<string>,
                        con0: seq<string>, con1: seq<string>, con3: seq<string>,
                        proIntro: string, conIntro: string, rs: Rounds)
    requires pro1 == pro0 + OpeningFragments(proIntro, [], rs.proOpening)
    requires pro3 == pro1 + ImprovementFragments(Round2Banners, rs.round2.pro.reflection, rs.round2.proArgument)
                          + ImprovementFragments(Round3Banners, rs.round3.pro.reflection, rs.round3.proArgument)
    requires con1 == con0 + OpeningFragments(conIntro, [Waiting], rs.conOpening)
    requires con3 == con1 + ImprovementFragments(Round2Banners, rs.round2.con.reflection, rs.round2.conArgument)
                          + ImprovementFragments(Round3Banners, rs.round3.con.reflection, rs.round3.conArgument)
    ensures pro3 == pro0 + RoundFragments(proIntro, [], ProSide(rs))
    ensures con3 == con0 + RoundFragments(conIntro, [Waiting], ConSide(rs))
  {
    var Rounds(pro, con, round2, round3) := rs;
    RoundFragmentsCompose(pro0, pro1, pro1 + ImprovementFragments(Round2Banners, round2.pro.reflection, round2.proArgument),
                          pro3, proIntro, [], pro, round2.pro, round2.proArgument, round3.pro, round3.proArgument);
    RoundFragmentsCompose(con0, con1, con1 + ImprovementFragments(Round2Banners, round2.con.reflection, round2.conArgument),
                          con3, conIntro, [Waiting], con, round2.con, round2.conArgument, round3.con, round3.conArgument);
  }

  /** The fragments of the three rounds on an empty panel, then the closing
      line, are the fragments of a completed run. */
  lemma PanelFragmentsCompose(o1: seq<string>, o2: seq<string>, intro: string, waiting: seq<string>, side: Side)
    requires side.Complete()
    requires o1 == [] + RoundFragments(intro, waiting, side)
    requires o2 == o1 + [Closing]
    ensures o2 == PanelFragments(intro, waiting, side)
  {
    assert o1 == RoundFragments(intro, waiting, side);
  }

  /** A completed run leaves 26 fragments and the waiting lines in a side
      panel: one per triple yielded. */
  lemma PanelLength(intro: string, waiting: seq<string>, side: Side)
    requires side.Complete()
    ensures |PanelFragments(intro, waiting, side)| == 26 + |waiting|
  {
  }

  /** The triples shown while the first `n` banner lines are appended to
      side panels holding `pro` and `con`: the `k`-th shows both panels up
      to and including line `k`. */
  function BannerTriples(pro: seq<string>, con: seq<string>, lines: seq<string>, n: nat): (r: seq<Panels>)
    requires n <= |lines|
    ensures |r| == n
  {
    if n == 0 then []
    else BannerTriples(pro, con, lines, n - 1) + [Panels(Join(pro + lines[..n]), Join(con + lines[..n]), "")]
  }

  /** The `k`-th banner triple shows both side panels up to and including
      banner line `k`. */
  lemma {:induction false} BannerTriplesAt(pro: seq<string>, con: seq<string>, lines: seq<string>, n: nat, k: nat)
    requires k < n <= |lines|
    ensures BannerTriples(pro, con, lines, n)[k] == Panels(Join(pro + lines[..k + 1]), Join(con + lines[..k + 1]), "")
  {
    if k < n - 1 {
      BannerTriplesAt(pro, con, lines, n - 1, k);
    }
  }

  /** `yield format_pro(line), format_con(line), ""` for each banner line:
      the `k`-th triple shows both side panels up to and including line `k`. */
  method ShowBanner(screen: SplitScreen, lines: seq<string>)
    requires screen.Valid() && screen.Open()
    modifies screen`proOutput, screen`conOutput, screen`yielded
    ensures screen.Valid() && screen.Open()
    ensures screen.proOutput == old(screen.proOutput) + lines
    ensures screen.conOutput == old(screen.conOutput) + lines
    ensures screen.yielded == old(screen.yielded) + BannerTriples(old(screen.proOutput), old(screen.conOutput), lines, |lines|)
  {
    ghost var y0, p0, c0 := screen.yielded, screen.proOutput, screen.conOutput;
    for i := 0 to |lines|
      invariant screen.Valid() && screen.Open()
      invariant screen.proOutput == p0 + lines[..i]
      invariant screen.conOutput == c0 + lines[..i]
      invariant screen.yielded == y0 + BannerTriples(p0, c0, lines, i)
    {
      ShowBannerLine(screen, lines, i, y0, p0, c0);
    }
    assert lines[..|lines|] == lines;
  }

  /** One step of `ShowBanner`: shows banner line `i` on both side panels. */
  method ShowBannerLine(screen: SplitScreen, lines: seq<string>, i: nat,
                        ghost y0: seq<Panels>, ghost p0: seq<string>, ghost c0: seq<string>)
    requires i < |lines|
    requires screen.Valid() && screen.Open()
    requires screen.proOutput == p0 + lines[..i] && screen.conOutput == c0 + lines[..i]
    requires screen.yielded == y0 + BannerTriples(p0, c0, lines, i)
    modifies screen`proOutput, screen`conOutput, screen`yielded
    ensures screen.Valid() && screen.Open()
    ensures screen.proOutput == p0 + lines[..i + 1] && screen.conOutput == c0 + lines[..i + 1]
    ensures screen.yielded == y0 + BannerTriples(p0, c0, lines, i + 1)
  {
    var shown := ShowBoth(screen, lines[i], lines[i]);
    assert lines[..i + 1] == lines[..i] + [lines[i]];
    assert screen.proOutput == p0 + lines[..i + 1] && screen.conOutput == c0 + lines[..i + 1];
    assert screen.yielded == y0 + (BannerTriples(p0, c0, lines, i) + [shown]);
  }

  /** `"=" * 70`, the rule of the streamed transcript. */
  const StreamRule: string := Repeat('=', 70)

  /** `"-" * 70`, the line under a speaker's label. */
  const StreamDash: string := Repeat('-', 70)

  /** A section banner of the streamed transcript: rule, title, rule, blank. */
  function StreamBanner(title: string): seq<string>
  {
    [StreamRule, title, StreamRule, ""]
  }

  /** The transcript's first lines. */
  function StreamHeader(topic: string): seq<string>
  {
    StreamBanner("MULTI-ROUND DEBATE: " + topic)
  }

  /** One speaker's turn: their label and the dashed line, then what is
      shown of their text. */
  function Turn(speaker: string, shown: seq<string>): seq<string>
  {
    [speaker, StreamDash] + shown
  }

  /** How a critique is shown: its first `excerpt` characters and an
      ellipsis, a note, and a blank line. */
  function CritiqueLines(reflection: string, excerpt: nat, note: string): seq<string>
  {
    [Truncate(reflection, excerpt) + "...", note, ""]
  }

  /** The texts of one improvement round of the streamed transcript. */
  datatype Stage = Stage(reflectionTitle: string, proReflects: string, conReflects: string, excerpt: nat,
                         note: string, extracting: string, roundTitle: string, proLabel: string, conLabel: string)

  const Stage2 := Stage("REFLECTION PHASE 1: Self-Critique", "AGENT PRO Reflects:", "AGENT CON Reflects:", 500,
                        "[Reflection continues...]", "Extracting key insights for Round 2...",
                        "ROUND 2: IMPROVED ARGUMENTS", "AGENT PRO (Improved):", "AGENT CON (Improved):")

  const Stage3 := Stage("REFLECTION PHASE 2: Did We Improve?", "AGENT PRO Reflects on Round 2:",
                        "AGENT CON Reflects on Round 2:", 400, "[Checking for remaining flaws...]",
                        "Extracting insights for final round...", "ROUND 3: FINAL POLISHED ARGUMENTS",
                        "AGENT PRO (Final):", "AGENT CON (Final):")

  /** The transcript lines of round 1. */
  function StreamOpeningLines(proArgument: string, conArgument: string): seq<string>
  {
    StreamBanner("ROUND 1: INITIAL ARGUMENTS") + Turn("AGENT PRO:", [proArgument, ""])
      + Turn("AGENT CON:", [conArgument, ""])
  }

  /** The transcript lines of the critiques of one improvement round. */
  function StreamCritiqueLines(stage: Stage, proReflection: string, conReflection: string): seq<string>
  {
    StreamBanner(stage.reflectionTitle)
      + Turn(stage.proReflects, CritiqueLines(proReflection, stage.excerpt, stage.note))
      + Turn(stage.conReflects, CritiqueLines(conReflection, stage.excerpt, stage.note))
  }

  /** The transcript lines of the refined arguments of one improvement round. */
  function StreamRefinementLines(stage: Stage, proArgument: string, conArgument: string): seq<string>
  {
    StreamBanner(stage.roundTitle) + Turn(stage.proLabel, [proArgument, ""]) + Turn(stage.conLabel, [conArgument, ""])
  }

  /** The transcript lines of one improvement round: the critiques, the
      line announcing the summaries, and the refined arguments. */
  function StreamImprovementLines(stage: Stage, proReflection: string, conReflection: string,
                                  proArgument: string, conArgument: string): seq<string>
  {
    StreamCritiqueLines(stage, proReflection, conReflection) + [stage.extracting, ""]
      + StreamRefinementLines(stage, proArgument, conArgument)
  }

  /** The transcript lines of the verdict and the closing banner. */
  function StreamVerdictLines(verdict: string): seq<string>
  {
    StreamBanner("FINAL VERDICT") + ["Generating final analysis...", verdict, "", StreamRule, "DEBATE COMPLETE!", StreamRule]
  }

  /** The transcript lines of the three rounds. */
  function StreamRoundLines(pro: Side, con: Side): seq<string>
    requires pro.Complete() && con.Complete()
  {
    StreamOpeningLines(pro.arguments[0], con.arguments[0])
      + StreamImprovementLines(Stage2, pro.reflections[0], con.reflections[0], pro.arguments[1], con.arguments[1])
      + StreamImprovementLines(Stage3, pro.reflections[1], con.reflections[1], pro.arguments[2], con.arguments[2])
  }

  /** Every fragment of the transcript of a completed streaming run, in
      order. */
  function TranscriptLines(topic: string, trace: Trace): seq<string>
    requires trace.pro.Complete() && trace.con.Complete()
  {
    StreamHeader(topic) + StreamRoundLines(trace.pro, trace.con) + StreamVerdictLines(trace.verdict)
  }

  /** The lines of round 1 and of rounds 2 and 3, appended one after the
      other, are the lines of the three rounds. */
  lemma StreamRoundLinesCompose(o0: seq<string>, o1: seq<string>, o3: seq<string>, rs: Rounds)
    requires o1 == o0 + StreamOpeningLines(rs.proOpening, rs.conOpening)
    requires o3 == o1 + StreamImprovementLines(Stage2, rs.round2.pro.reflection, rs.round2.con.reflection,
                                               rs.round2.proArgument, rs.round2.conArgument)
                      + StreamImprovementLines(Stage3, rs.round3.pro.reflection, rs.round3.con.reflection,
                                               rs.round3.proArgument, rs.round3.conArgument)
    ensures o3 == o0 + StreamRoundLines(ProSide(rs), ConSide(rs))
  {
    var pro, con := ProSide(rs), ConSide(rs);
    var opening := StreamOpeningLines(rs.proOpening, rs.conOpening);
    var round2 := StreamImprovementLines(Stage2, rs.round2.pro.reflection, rs.round2.con.reflection,
                                         rs.round2.proArgument, rs.round2.conArgument);
    var round3 := StreamImprovementLines(Stage3, rs.round3.pro.reflection, rs.round3.con.reflection,
                                         rs.round3.proArgument, rs.round3.conArgument);
    assert StreamRoundLines(pro, con) == opening + round2 + round3;
    AppendThree(o0, o1, o1 + round2, o3, opening, round2, round3);
  }

  /** Where a completed streaming run shows each text: every argument and
      the verdict in full on a line of its own, each critique cut to its
      stage's excerpt length with an ellipsis. */
  lemma TranscriptPlaces(topic: string, trace: Trace)
    requires trace.pro.Complete() && trace.con.Complete()
    ensures var lines := TranscriptLines(topic, trace);
      && |lines| == 82
      && lines[10] == trace.pro.arguments[0] && lines[14] == trace.con.arguments[0]
      && lines[38] == trace.pro.arguments[1] && lines[42] == trace.con.arguments[1]
      && lines[66] == trace.pro.arguments[2] && lines[70] == trace.con.arguments[2]
      && lines[77] == trace.verdict
      && lines[22] == Truncate(trace.pro.reflections[0], 500) + "..."
      && lines[27] == Truncate(trace.con.reflections[0], 500) + "..."
      && lines[50] == Truncate(trace.pro.reflections[1], 400) + "..."
      && lines[55] == Truncate(trace.con.reflections[1], 400) + "..."
  {
    var pro, con := trace.pro, trace.con;
    var header := StreamHeader(topic);
    var opening := StreamOpeningLines(pro.arguments[0], con.arguments[0]);
    var round2 := StreamImprovementLines(Stage2, pro.reflections[0], con.reflections[0], pro.arguments[1], con.arguments[1]);
    var round3 := StreamImprovementLines(Stage3, pro.reflections[1], con.reflections[1], pro.arguments[2], con.arguments[2]);
    var verdict := StreamVerdictLines(trace.verdict);
    assert TranscriptLines(topic, trace) == header + opening + round2 + round3 + verdict;
    assert |header| == 4 && |opening| == 12 && |round2| == 28 && |round3| == 28;
    assert round2[6] == Truncate(pro.reflections[0], 500) + "..." && round2[11] == Truncate(con.reflections[0], 500) + "...";
    assert round2[22] == pro.arguments[1] && round2[26] == con.arguments[1];
    assert round3[6] == Truncate(pro.reflections[1], 400) + "..." && round3[11] == Truncate(con.reflections[1], 400) + "...";
    assert round3[22] == pro.arguments[2] && round3[26] == con.arguments[2];
  }

  /** The last value a streaming run has yielded shows every fragment. */
  lemma LastValueShowsAll(t: Transcript)
    requires t.Valid() && t.output != []
    ensures forall i :: 0 <= i < |t.output| ==> Contains(t.yielded[|t.yielded| - 1], t.output[i])
  {
    var last := |t.output| - 1;
    assert t.Shows(last);
    assert t.output[..last + 1] == t.output;
    forall i | 0 <= i < |t.output|
      ensures Contains(t.yielded[last], t.output[i])
    {
      JoinContains(t.output, i);
    }
  }

  /** The last value a completed streaming run yields shows all six
      arguments and the verdict in full. */
  lemma StreamedDebateVisible(t: Transcript, topic: string, trace: Trace)
    requires t.Valid() && trace.pro.Complete() && trace.con.Complete()
    requires t.output == TranscriptLines(topic, trace)
    ensures |t.yielded| == 82
    ensures forall k :: 0 <= k < 3 ==> Contains(t.yielded[81], trace.pro.arguments[k])
    ensures forall k :: 0 <= k < 3 ==> Contains(t.yielded[81], trace.con.arguments[k])
    ensures Contains(t.yielded[81], trace.verdict)
  {
    TranscriptPlaces(topic, trace);
    LastValueShowsAll(t);
    assert t.output[10] == trace.pro.arguments[0] && t.output[14] == trace.con.arguments[0];
    assert t.output[38] == trace.pro.arguments[1] && t.output[42] == trace.con.arguments[1];
    assert t.output[66] == trace.pro.arguments[2] && t.output[70] == trace.con.arguments[2];
    assert t.output[77] == trace.verdict;
  }

  /** Appending two pieces one after the other appends their
      concatenation. */
  lemma AppendTwo<T>(o0: seq<T>, o1: seq<T>, o2: seq<T>, a: seq<T>, b: seq<T>)
    requires o1 == o0 + a && o2 == o1 + b
    ensures o2 == o0 + (a + b)
  {
  }

  /** Appending three pieces one after the other appends their
      concatenation. */
  lemma AppendThree<T>(o0: seq<T>, o1: seq<T>, o2: seq<T>, o3: seq<T>, a: seq<T>, b: seq<T>, c: seq<T>)
    requires o1 == o0 + a && o2 == o1 + b && o3 == o2 + c
    ensures o3 == o0 + (a + b + c)
  {
  }

  /** The header, the lines of the three rounds and the verdict lines, on an
      empty transcript, are the transcript of a completed run. */
  lemma TranscriptCompose(o0: seq<string>, o1: seq<string>, o2: seq<string>, topic: string, trace: Trace)
    requires trace.pro.Complete() && trace.con.Complete()
    requires o0 == [] + StreamHeader(topic)
    requires o1 == o0 + StreamRoundLines(trace.pro, trace.con)
    requires o2 == o1 + StreamVerdictLines(trace.verdict)
    ensures o2 == TranscriptLines(topic, trace)
  {
    assert o0 == StreamHeader(topic);
  }

  /** A completed streaming run yields 82 values. */
  lemma TranscriptLength(topic: string, trace: Trace)
    requires trace.pro.Complete() && trace.con.Complete()
    ensures |TranscriptLines(topic, trace)| == 82
  {
  }

  class DebateOrchestrator {
    const agentPro: DebateAgent
    const agentCon: DebateAgent

    ghost predicate Valid()
      reads agentPro, agentCon
    {
      && agentPro != agentCon
      && agentPro.position == Pro && agentCon.position == Con
      && agentPro.Valid() && agentCon.Valid()
    }

    /** What a completed split-screen run on `topic` that produced `trace`
        leaves on `screen`: each side panel's fragments, and 27 triples, the
        last showing both side panels whole and the judge panel. */
    ghost predicate Shown(screen: SplitScreen, topic: string, trace: Trace)
      reads screen
    {
      && trace.pro.Complete() && trace.con.Complete()
      && screen.proOutput == PanelFragments(Intro(Header(topic), Config("Agent Pro: ", agentPro)), [], trace.pro)
      && screen.conOutput == PanelFragments(Intro(Header(topic), Config("Agent Con: ", agentCon)), [Waiting], trace.con)
      && |screen.yielded| == 27
      && screen.yielded[26] == Panels(Join(screen.proOutput), Join(screen.conOutput),
                                      Join(JudgePanel(agentPro, trace.verdict)))
    }

    ghost function Now(): Snapshot
      reads agentPro, agentCon
    {
      Snapshot(agentPro.exchanges, agentPro.argumentHistory, agentCon.exchanges, agentCon.argumentHistory)
    }

    /** Builds the two agents with the default token budget; `proService`
        and `conService` stand for the provider behind each key. */
    constructor (proProvider: string, proModel: string, conProvider: string, conModel: string,
                 proApiKey: string, conApiKey: string, proService: Service, conService: Service)
      ensures Valid() && fresh(agentPro) && fresh(agentCon)
      ensures agentPro.clientType == Lower(proProvider) && agentPro.model == proModel
      ensures agentPro.apiKey == proApiKey && agentPro.maxTokens == DefaultMaxTokens
      ensures agentPro.service == proService
      ensures agentCon.clientType == Lower(conProvider) && agentCon.model == conModel
      ensures agentCon.apiKey == conApiKey && agentCon.maxTokens == DefaultMaxTokens
      ensures agentCon.service == conService
      ensures agentPro.argumentHistory == [] && agentPro.exchanges == []
      ensures agentCon.argumentHistory == [] && agentCon.exchanges == []
    {
      agentPro := new DebateAgent(Pro, proProvider, proModel, proApiKey, DefaultMaxTokens, proService);
      agentCon := new DebateAgent(Con, conProvider, conModel, conApiKey, DefaultMaxTokens, conService);
    }

    /** `generate_verdict`: one call through the pro agent's binding with no
        system prompt; it reads the first three arguments of each side. */
    method GenerateVerdict(topic: string, proArguments: seq<string>, conArguments: seq<string>)
      returns (r: Result<string>)
      requires Valid()
      requires |proArguments| >= 3 && |conArguments| >= 3
      modifies agentPro`exchanges
      ensures Valid()
      ensures Logged(old(Now()), Now(), [Exchange(VerdictAsk(topic, proArguments, conArguments), r)], [], [], [])
    {
      r := agentPro.GetMessage(VerdictAsk(topic, proArguments, conArguments));
    }

    /** Round 1 of every run: pro, then con, argue with no context. */
    method OpeningRound(topic: string) returns (r: Result<(string, string)>)
      requires Valid()
      modifies agentPro, agentCon
      ensures Valid() && Extended(old(Now()), Now())
      ensures r.Ok? ==> Logged(old(Now()), Now(), [Exchange(ArgumentAsk(topic, "", 1), Ok(r.value.0))], [r.value.0],
                                           [Exchange(ArgumentAsk(topic, "", 1), Ok(r.value.1))], [r.value.1])
      ensures r.Err? ==> Raised(old(Now()), Now(), r.message)
    {
      ghost var s0 := Now();
      var pro := agentPro.GenerateArgument(topic, "", 1);
      if pro.Err? { ProRaised(s0, Now(), ArgumentAsk(topic, "", 1), pro.message); return Err(pro.message); }
      ghost var s1 := Now();
      var con := agentCon.GenerateArgument(topic, "", 1);
      if con.Err? {
        ConRaised(s0, s1, Now(), Exchange(ArgumentAsk(topic, "", 1), pro), [pro.value], ArgumentAsk(topic, "", 1), con.message);
        return Err(con.message);
      }
      r := Ok((pro.value, con.value));
    }

    /** `run_simple_debate`: the opening round, then pro, then con, critique
        their own argument. The source prints the four texts and returns
        nothing; here they are the result, in the order printed. */
    method RunSimpleDebate(topic: string) returns (r: Result<(string, string, string, string)>)
      requires Valid()
      modifies agentPro, agentCon
      ensures Valid() && Extended(old(Now()), Now())
      ensures r.Ok? ==>
        var (proArgument, conArgument, proReflection, conReflection) := r.value;
        Logged(old(Now()), Now(),
               [Exchange(ArgumentAsk(topic, "", 1), Ok(proArgument)), Exchange(ReflectionAsk(proArgument), Ok(proReflection))],
               [proArgument],
               [Exchange(ArgumentAsk(topic, "", 1), Ok(conArgument)), Exchange(ReflectionAsk(conArgument), Ok(conReflection))],
               [conArgument])
      ensures r.Err? ==> Raised(old(Now()), Now(), r.message)
    {
      ghost var s0 := Now();
      var opening := OpeningRound(topic);
      if opening.Err? { return Err(opening.message); }
      var (proArgument, conArgument) := opening.value;
      ghost var s1 := Now();
      var critiques := Critiques(proArgument, conArgument);
      if critiques.Err? {
        OpeningBalanced(s0, s1, topic, proArgument, conArgument);
        RaisedAfter(s0, s1, Now(), critiques.message);
        return Err(critiques.message);
      }
      r := Ok((proArgument, conArgument, critiques.value.0, critiques.value.1));
    }

    /** A reflection phase of every run: pro, then con, critique their latest
        argument; then pro, then con, condense their critique. */
    method ReflectionPhase(proArgument: string, conArgument: string) returns (r: Result<(Reflection, Reflection)>)
      requires Valid()
      modifies agentPro, agentCon
      ensures Valid() && Extended(old(Now()), Now())
      ensures r.Ok? ==> Logged(old(Now()), Now(), ReflectionExchanges(proArgument, r.value.0), [],
                                           ReflectionExchanges(conArgument, r.value.1), [])
      ensures r.Err? ==> Raised(old(Now()), Now(), r.message)
    {
      ghost var s0 := Now();
      var critiques := Critiques(proArgument, conArgument);
      if critiques.Err? { return Err(critiques.message); }
      var (proReflection, conReflection) := critiques.value;
      ghost var s1 := Now();
      var summaries := Summaries(proReflection, conReflection);
      if summaries.Err? {
        CritiquesBalanced(s0, s1, proArgument, conArgument, proReflection, conReflection);
        RaisedAfter(s0, s1, Now(), summaries.message);
        return Err(summaries.message);
      }
      r := Ok((Reflection(proReflection, summaries.value.0), Reflection(conReflection, summaries.value.1)));
    }

    /** Pro, then con, critique their latest argument. */
    method Critiques(proArgument: string, conArgument: string) returns (r: Result<(string, string)>)
      requires Valid()
      modifies agentPro`exchanges, agentCon`exchanges
      ensures Valid() && Extended(old(Now()), Now())
      ensures r.Ok? ==> Logged(old(Now()), Now(), [Exchange(ReflectionAsk(proArgument), Ok(r.value.0))], [],
                                                  [Exchange(ReflectionAsk(conArgument), Ok(r.value.1))], [])
      ensures r.Err? ==> Raised(old(Now()), Now(), r.message)
    {
      ghost var s0 := Now();
      var pro := agentPro.ReflectOnArgument(proArgument);
      if pro.Err? { ProRaised(s0, Now(), ReflectionAsk(proArgument), pro.message); return Err(pro.message); }
      ghost var s1 := Now();
      var con := agentCon.ReflectOnArgument(conArgument);
      if con.Err? {
        ConRaised(s0, s1, Now(), Exchange(ReflectionAsk(proArgument), pro), [], ReflectionAsk(conArgument), con.message);
        return Err(con.message);
      }
      r := Ok((pro.value, con.value));
    }

    /** Pro, then con, condense their critique. */
    method Summaries(proReflection: string, conReflection: string) returns (r: Result<(string, string)>)
      requires Valid()
      modifies agentPro`exchanges, agentCon`exchanges
      ensures Valid() && Extended(old(Now()), Now())
      ensures r.Ok? ==> Logged(old(Now()), Now(), [Exchange(SummaryAsk(proReflection), Ok(r.value.0))], [],
                                                  [Exchange(SummaryAsk(conReflection), Ok(r.value.1))], [])
      ensures r.Err? ==> Raised(old(Now()), Now(), r.message)
    {
      ghost var s0 := Now();
      var pro := agentPro.ExtractReflectionSummary(proReflection);
      if pro.Err? { ProRaised(s0, Now(), SummaryAsk(proReflection), pro.message); return Err(pro.message); }
      ghost var s1 := Now();
      var con := agentCon.ExtractReflectionSummary(conReflection);
      if con.Err? {
        ConRaised(s0, s1, Now(), Exchange(SummaryAsk(proReflection), pro), [], SummaryAsk(conReflection), con.message);
        return Err(con.message);
      }
      r := Ok((pro.value, con.value));
    }

    /** Round 2 or 3 of every run: pro, then con, refine their previous
        argument with their summary against the other's previous argument. */
    method RefinementRound(topic: string, proPrevious: string, proSummary: string,
                           conPrevious: string, conSummary: string, round: int)
      returns (r: Result<(string, string)>)
      requires Valid()
      modifies agentPro, agentCon
      ensures Valid() && Extended(old(Now()), Now())
      ensures r.Ok? ==> Logged(old(Now()), Now(),
                          [Exchange(RefinementAsk(topic, proPrevious, proSummary, conPrevious, round), Ok(r.value.0))],
                          [r.value.0],
                          [Exchange(RefinementAsk(topic, conPrevious, conSummary, proPrevious, round), Ok(r.value.1))],
                          [r.value.1])
      ensures r.Err? ==> Raised(old(Now()), Now(), r.message)
    {
      ghost var s0 := Now();
      var proAsk := RefinementAsk(topic, proPrevious, proSummary, conPrevious, round);
      var pro := agentPro.RefineArgument(topic, proPrevious, proSummary, conPrevious, round);
      if pro.Err? { ProRaised(s0, Now(), proAsk, pro.message); return Err(pro.message); }
      ghost var s1 := Now();
      var con := agentCon.RefineArgument(topic, conPrevious, conSummary, proPrevious, round);
      if con.Err? {
        ConRaised(s0, s1, Now(), Exchange(proAsk, pro), [pro.value],
                  RefinementAsk(topic, conPrevious, conSummary, proPrevious, round), con.message);
        return Err(con.message);
      }
      r := Ok((pro.value, con.value));
    }

    /** Round 2 or 3 of `run_multiround_debate`: a reflection phase on the
        previous arguments, then the refinement round. */
    method ImprovementRound(topic: string, proPrevious: string, conPrevious: string, round: int)
      returns (r: Result<Improvement>)
      requires Valid()
      modifies agentPro, agentCon
      ensures Valid() && Extended(old(Now()), Now())
      ensures r.Ok? ==> Logged(old(Now()), Now(),
                          ImprovementExchanges(topic, proPrevious, conPrevious, round, r.value.pro, r.value.proArgument),
                          [r.value.proArgument],
                          ImprovementExchanges(topic, conPrevious, proPrevious, round, r.value.con, r.value.conArgument),
                          [r.value.conArgument])
      ensures r.Err? ==> Raised(old(Now()), Now(), r.message)
    {
      ghost var s0 := Now();
      var phase := ReflectionPhase(proPrevious, conPrevious);
      if phase.Err? { return Err(phase.message); }
      var (pro, con) := phase.value;
      ghost var s1 := Now();
      var refined := RefinementRound(topic, proPrevious, pro.summary, conPrevious, con.summary, round);
      if refined.Err? {
        ReflectionBalanced(s0, s1, proPrevious, conPrevious, pro, con);
        RaisedAfter(s0, s1, Now(), refined.message);
        return Err(refined.message);
      }
      r := Ok(Improvement(pro, con, refined.value.0, refined.value.1));
    }

    /** The three rounds of `run_multiround_debate`: the opening arguments,
        then improvement rounds 2 and 3. `s1` and `s2` are the logs after
        rounds 1 and 2. */
    method PlayRounds(topic: string) returns (r: Result<Rounds>, ghost s1: Snapshot, ghost s2: Snapshot)
      requires Valid()
      modifies agentPro, agentCon
      ensures Valid() && Extended(old(Now()), Now())
      ensures r.Ok? ==> RoundsLogged(old(Now()), s1, s2, Now(), topic, r.value)
      ensures r.Err? ==> Raised(old(Now()), Now(), r.message)
    {
      s1, s2 := Now(), Now();
      ghost var s0 := Now();
      var opening := OpeningRound(topic);
      if opening.Err? { return Err(opening.message), s1, s2; }
      var (pro1, con1) := opening.value;
      s1 := Now();
      var round2 := ImprovementRound(topic, pro1, con1, 2);
      if round2.Err? {
        RaisedInRound2(s0, s1, Now(), topic, pro1, con1, round2.message);
        return Err(round2.message), s1, s2;
      }
      s2 := Now();
      var round3 := ImprovementRound(topic, round2.value.proArgument, round2.value.conArgument, 3);
      if round3.Err? {
        RaisedInRound3(s0, s1, s2, Now(), topic, pro1, con1, round2.value, round3.message);
        return Err(round3.message), s1, s2;
      }
      r := Ok(Rounds(pro1, con1, round2.value, round3.value));
    }

    /** `run_multiround_debate`. `totalRounds` is accepted and ignored, as
        in the source: there are always three rounds. `summaries` holds the
        reflection summaries, which the source does not return. */
    method RunMultiroundDebate(topic: string, totalRounds: int)
      returns (r: Result<DebateRecord>, ghost summaries: (seq<string>, seq<string>))
      requires Valid()
      modifies agentPro, agentCon
      ensures Valid() && Extended(old(Now()), Now())
      ensures r.Ok? ==> Completed(old(Now()), Now(), topic,
                                  Trace(Side(r.value.proArguments, r.value.proReflections, summaries.0),
                                        Side(r.value.conArguments, r.value.conReflections, summaries.1),
                                        r.value.verdict))
      ensures r.Err? ==> Raised(old(Now()), Now(), r.message)
    {
      summaries := ([], []);
      ghost var s0 := Now();
      var rounds, s1, s2 := PlayRounds(topic);
      if rounds.Err? { return Err(rounds.message), summaries; }
      var rs := rounds.value;
      ghost var s3 := Now();
      var verdict := GenerateVerdict(topic, ProSide(rs).arguments, ConSide(rs).arguments);
      if verdict.Err? {
        RaisedAtVerdict(s0, s1, s2, s3, Now(), topic, rs, verdict.message);
        return Err(verdict.message), summaries;
      }
      RoundsMakeDebate(s0, s1, s2, s3, Now(), topic, rs, verdict.value);
      var pro, con := ProSide(rs), ConSide(rs);
      summaries := (pro.summaries, con.summaries);
      r := Ok(DebateRecord(pro.arguments, con.arguments, pro.reflections, con.reflections, verdict.value));
    }

    /** Round 1 of `run_split_screen_debate`: the first line of each panel
        (`proIntro`, `conIntro`), the round banner, then both opening
        arguments. */
    method SplitOpening(screen: SplitScreen, topic: string, proIntro: string, conIntro: string)
      returns (r: Result<(string, string)>)
      requires Valid() && screen.Valid() && screen.Open()
      modifies agentPro, agentCon, screen`proOutput, screen`conOutput, screen`yielded
      ensures Valid() && Extended(old(Now()), Now()) && screen.Valid() && screen.Open()
      ensures r.Ok? ==>
        && Logged(old(Now()), Now(), [Exchange(ArgumentAsk(topic, "", 1), Ok(r.value.0))], [r.value.0],
                                     [Exchange(ArgumentAsk(topic, "", 1), Ok(r.value.1))], [r.value.1])
        && screen.proOutput == old(screen.proOutput) + OpeningFragments(proIntro, [], r.value.0)
        && screen.conOutput == old(screen.conOutput) + OpeningFragments(conIntro, [Waiting], r.value.1)
      ensures r.Err? ==> Raised(old(Now()), Now(), r.message)
    {
      var _ := ShowBoth(screen, proIntro, conIntro);
      ShowBanner(screen, ShortBanner("ROUND 1: OPENING ARGUMENT"));
      r := SplitArguments(screen, topic);
    }

    /** The arguments of round 1 of `run_split_screen_debate`: the pro
        argument, shown with the waiting line on the con panel, then the con
        argument, shown with a blank pro panel. */
    method SplitArguments(screen: SplitScreen, topic: string) returns (r: Result<(string, string)>)
      requires Valid() && screen.Valid() && screen.Open()
      modifies agentPro, agentCon, screen`proOutput, screen`conOutput, screen`yielded
      ensures Valid() && Extended(old(Now()), Now()) && screen.Valid() && screen.Open()
      ensures r.Ok? ==>
        && Logged(old(Now()), Now(), [Exchange(ArgumentAsk(topic, "", 1), Ok(r.value.0))], [r.value.0],
                                     [Exchange(ArgumentAsk(topic, "", 1), Ok(r.value.1))], [r.value.1])
        && screen.proOutput == old(screen.proOutput) + [r.value.0 + "\n"]
        && screen.conOutput == old(screen.conOutput) + [Waiting] + [r.value.1 + "\n"]
      ensures r.Err? ==> Raised(old(Now()), Now(), r.message)
    {
      ghost var s0 := Now();
      var pro := SplitProOpening(screen, topic);
      if pro.Err? {
        ProRaised(s0, Now(), ArgumentAsk(topic, "", 1), pro.message);
        r := Err(pro.message);
      } else {
        ghost var s1 := Now();
        var con := SplitConOpening(screen, topic);
        if con.Err? {
          ConRaised(s0, s1, Now(), Exchange(ArgumentAsk(topic, "", 1), pro), [pro.value], ArgumentAsk(topic, "", 1),
                    con.message);
          r := Err(con.message);
        } else {
          r := Ok((pro.value, con.value));
        }
      }
    }

    /** The pro side's opening argument, shown with the waiting line on the
        con panel. */
    method SplitProOpening(screen: SplitScreen, topic: string) returns (r: Result<string>)
      requires Valid() && screen.Valid() && screen.Open()
      modifies agentPro, screen`proOutput, screen`conOutput, screen`yielded
      ensures Valid() && Extended(old(Now()), Now()) && screen.Valid() && screen.Open()
      ensures r.Ok? ==>
        && Logged(old(Now()), Now(), [Exchange(ArgumentAsk(topic, "", 1), Ok(r.value))], [r.value], [], [])
        && screen.proOutput == old(screen.proOutput) + [r.value + "\n"]
        && screen.conOutput == old(screen.conOutput) + [Waiting]
      ensures r.Err? ==> Logged(old(Now()), Now(), [Exchange(ArgumentAsk(topic, "", 1), Err(r.message))], [], [], [])
    {
      r := agentPro.GenerateArgument(topic, "", 1);
      if r.Ok? {
        var _ := ShowBoth(screen, r.value + "\n", Waiting);
      }
    }

    /** The con side's opening argument, shown with a blank pro panel. */
    method SplitConOpening(screen: SplitScreen, topic: string) returns (r: Result<string>)
      requires Valid() && screen.Valid() && screen.Open()
      modifies agentCon, screen`conOutput, screen`yielded
      ensures Valid() && Extended(old(Now()), Now()) && screen.Valid() && screen.Open()
      ensures r.Ok? ==>
        && Logged(old(Now()), Now(), [], [], [Exchange(ArgumentAsk(topic, "", 1), Ok(r.value))], [r.value])
        && screen.conOutput == old(screen.conOutput) + [r.value + "\n"]
        && screen.yielded == old(screen.yielded) + [Panels("", Join(screen.conOutput), "")]
      ensures r.Err? ==> Logged(old(Now()), Now(), [], [], [Exchange(ArgumentAsk(topic, "", 1), Err(r.message))], [])
    {
      r := agentCon.GenerateArgument(topic, "", 1);
      if r.Ok? {
        var con := screen.FormatCon(r.value + "\n");
        screen.Yield("", con, "");
      }
    }

    /** The reflection phase of `run_split_screen_debate`: the critiques
        under `banner`, then the summaries after the `closing` lines. */
    method SplitReflection(screen: SplitScreen, proArgument: string, conArgument: string,
                           banner: seq<string>, closing: seq<string>)
      returns (r: Result<(Reflection, Reflection)>)
      requires Valid() && screen.Valid() && screen.Open()
      modifies agentPro`exchanges, agentCon`exchanges, screen`proOutput, screen`conOutput, screen`yielded
      ensures Valid() && Extended(old(Now()), Now()) && screen.Valid() && screen.Open()
      ensures r.Ok? ==>
        && Logged(old(Now()), Now(), ReflectionExchanges(proArgument, r.value.0), [],
                                     ReflectionExchanges(conArgument, r.value.1), [])
        && screen.proOutput == old(screen.proOutput) + banner + [r.value.0.reflection + "\n"] + closing
        && screen.conOutput == old(screen.conOutput) + banner + [r.value.1.reflection + "\n"] + closing
      ensures r.Err? ==> Raised(old(Now()), Now(), r.message)
    {
      ghost var s0 := Now();
      var critiques := SplitCritique(screen, proArgument, conArgument, banner);
      if critiques.Err? { return Err(critiques.message); }
      ghost var s1 := Now();
      var summaries := SplitSummaries(screen, critiques.value.0, critiques.value.1, closing);
      if summaries.Err? {
        CritiquesBalanced(s0, s1, proArgument, conArgument, critiques.value.0, critiques.value.1);
        RaisedAfter(s0, s1, Now(), summaries.message);
        return Err(summaries.message);
      }
      r := Ok((Reflection(critiques.value.0, summaries.value.0), Reflection(critiques.value.1, summaries.value.1)));
    }

    /** Under `banner`, pro, then con, critique their argument; both
        critiques are shown together once both are in. */
    method SplitCritique(screen: SplitScreen, proArgument: string, conArgument: string, banner: seq<string>)
      returns (r: Result<(string, string)>)
      requires Valid() && screen.Valid() && screen.Open()
      modifies agentPro`exchanges, agentCon`exchanges, screen`proOutput, screen`conOutput, screen`yielded
      ensures Valid() && Extended(old(Now()), Now()) && screen.Valid() && screen.Open()
      ensures r.Ok? ==>
        && Logged(old(Now()), Now(), [Exchange(ReflectionAsk(proArgument), Ok(r.value.0))], [],
                                     [Exchange(ReflectionAsk(conArgument), Ok(r.value.1))], [])
        && screen.proOutput == old(screen.proOutput) + banner + [r.value.0 + "\n"]
        && screen.conOutput == old(screen.conOutput) + banner + [r.value.1 + "\n"]
      ensures r.Err? ==> Raised(old(Now()), Now(), r.message)
    {
      ShowBanner(screen, banner);
      r := Critiques(proArgument, conArgument);
      if r.Ok? {
        var _ := ShowBoth(screen, r.value.0 + "\n", r.value.1 + "\n");
      }
    }

    /** After the `closing` lines, pro, then con, condense their critique. */
    method SplitSummaries(screen: SplitScreen, proReflection: string, conReflection: string, closing: seq<string>)
      returns (r: Result<(string, string)>)
      requires Valid() && screen.Valid() && screen.Open()
      modifies agentPro`exchanges, agentCon`exchanges, screen`proOutput, screen`conOutput, screen`yielded
      ensures Valid() && Extended(old(Now()), Now()) && screen.Valid() && screen.Open()
      ensures screen.proOutput == old(screen.proOutput) + closing
      ensures screen.conOutput == old(screen.conOutput) + closing
      ensures r.Ok? ==> Logged(old(Now()), Now(), [Exchange(SummaryAsk(proReflection), Ok(r.value.0))], [],
                                                  [Exchange(SummaryAsk(conReflection), Ok(r.value.1))], [])
      ensures r.Err? ==> Raised(old(Now()), Now(), r.message)
    {
      ShowBanner(screen, closing);
      r := Summaries(proReflection, conReflection);
    }

    /** The refinement round of `run_split_screen_debate`: under `banner`,
        both refined arguments, shown together once both are in. */
    method SplitRefinement(screen: SplitScreen, topic: string, proPrevious: string, proSummary: string,
                           conPrevious: string, conSummary: string, round: int, banner: seq<string>)
      returns (r: Result<(string, string)>)
      requires Valid() && screen.Valid() && screen.Open()
      modifies agentPro, agentCon, screen`proOutput, screen`conOutput, screen`yielded
      ensures Valid() && Extended(old(Now()), Now()) && screen.Valid() && screen.Open()
      ensures r.Ok? ==>
        && Logged(old(Now()), Now(),
                  [Exchange(RefinementAsk(topic, proPrevious, proSummary, conPrevious, round), Ok(r.value.0))],
                  [r.value.0],
                  [Exchange(RefinementAsk(topic, conPrevious, conSummary, proPrevious, round), Ok(r.value.1))],
                  [r.value.1])
        && screen.proOutput == old(screen.proOutput) + banner + [r.value.0 + "\n"]
        && screen.conOutput == old(screen.conOutput) + banner + [r.value.1 + "\n"]
      ensures r.Err? ==> Raised(old(Now()), Now(), r.message)
    {
      ShowBanner(screen, banner);
      r := RefinementRound(topic, proPrevious, proSummary, conPrevious, conSummary, round);
      if r.Ok? {
        var _ := ShowBoth(screen, r.value.0 + "\n", r.value.1 + "\n");
      }
    }

    /** Round 2 or 3 of `run_split_screen_debate`: the reflection phase and
        the refinement round under `banners`. */
    method SplitImprovement(screen: SplitScreen, topic: string, proPrevious: string, conPrevious: string,
                            round: int, banners: Banners)
      returns (r: Result<Improvement>)
      requires Valid() && screen.Valid() && screen.Open()
      modifies agentPro, agentCon, screen`proOutput, screen`conOutput, screen`yielded
      ensures Valid() && Extended(old(Now()), Now()) && screen.Valid() && screen.Open()
      ensures r.Ok? ==>
        && Logged(old(Now()), Now(),
                  ImprovementExchanges(topic, proPrevious, conPrevious, round, r.value.pro, r.value.proArgument),
                  [r.value.proArgument],
                  ImprovementExchanges(topic, conPrevious, proPrevious, round, r.value.con, r.value.conArgument),
                  [r.value.conArgument])
        && screen.proOutput == old(screen.proOutput) + ImprovementFragments(banners, r.value.pro.reflection, r.value.proArgument)
        && screen.conOutput == old(screen.conOutput) + ImprovementFragments(banners, r.value.con.reflection, r.value.conArgument)
      ensures r.Err? ==> Raised(old(Now()), Now(), r.message)
    {
      ghost var s0 := Now();
      var phase := SplitReflection(screen, proPrevious, conPrevious, banners.reflection, banners.closing);
      if phase.Err? { return Err(phase.message); }
      var (pro, con) := phase.value;
      ghost var s1 := Now();
      var refined := SplitRefinement(screen, topic, proPrevious, pro.summary, conPrevious, con.summary, round,
                                     banners.refinement);
      if refined.Err? {
        ReflectionBalanced(s0, s1, proPrevious, conPrevious, pro, con);
        RaisedAfter(s0, s1, Now(), refined.message);
        return Err(refined.message);
      }
      var improvement := Improvement(pro, con, refined.value.0, refined.value.1);
      ImprovementComposes(s0, s1, Now(), topic, proPrevious, conPrevious, round, improvement);
      r := Ok(improvement);
    }

    /** The verdict of `run_split_screen_debate`: the judge panel is filled
        around the verdict call and shown, with the closing line of both
        side panels, in the last triple. */
    method SplitVerdict(screen: SplitScreen, topic: string, proArguments: seq<string>, conArguments: seq<string>)
      returns (r: Result<string>)
      requires Valid() && screen.Valid() && screen.Open() && screen.verdictOutput == []
      requires |proArguments| >= 3 && |conArguments| >= 3
      modifies agentPro`exchanges, screen
      ensures Valid() && Extended(old(Now()), Now()) && screen.Valid()
      ensures r.Ok? ==>
        && Logged(old(Now()), Now(), [Exchange(VerdictAsk(topic, proArguments, conArguments), Ok(r.value))], [], [], [])
        && screen.proOutput == old(screen.proOutput) + [Closing]
        && screen.conOutput == old(screen.conOutput) + [Closing]
        && screen.yielded == old(screen.yielded)
                             + [Panels(Join(screen.proOutput), Join(screen.conOutput), Join(JudgePanel(agentPro, r.value)))]
      ensures r.Err? ==>
        && Logged(old(Now()), Now(), [Exchange(VerdictAsk(topic, proArguments, conArguments), Err(r.message))], [], [], [])
        && screen.proOutput == old(screen.proOutput) && screen.conOutput == old(screen.conOutput)
        && screen.yielded == old(screen.yielded)
    {
      screen.AppendVerdictLines(JudgeHeader(agentPro));
      r := GenerateVerdict(topic, proArguments, conArguments);
      if r.Ok? {
        screen.ShowFinale(r.value, JudgeFooter, Closing);
        assert screen.verdictOutput == JudgePanel(agentPro, r.value);
      }
    }


    /** The three rounds of `run_split_screen_debate`: the opening
        arguments under the panels' first lines, then improvement rounds 2
        and 3. `s1` and `s2` are the logs after rounds 1 and 2. */
    method SplitRounds(screen: SplitScreen, topic: string, proIntro: string, conIntro: string)
      returns (r: Result<Rounds>, ghost s1: Snapshot, ghost s2: Snapshot)
      requires Valid() && screen.Valid() && screen.Open()
      modifies agentPro, agentCon, screen`proOutput, screen`conOutput, screen`yielded
      ensures Valid() && Extended(old(Now()), Now()) && screen.Valid() && screen.Open()
      ensures r.Ok? ==>
        && RoundsLogged(old(Now()), s1, s2, Now(), topic, r.value)
        && screen.proOutput == old(screen.proOutput) + RoundFragments(proIntro, [], ProSide(r.value))
        && screen.conOutput == old(screen.conOutput) + RoundFragments(conIntro, [Waiting], ConSide(r.value))
      ensures r.Err? ==> Raised(old(Now()), Now(), r.message)
    {
      s1, s2 := Now(), Now();
      ghost var s0 := Now();
      ghost var pro0, con0 := screen.proOutput, screen.conOutput;
      var opening := SplitOpening(screen, topic, proIntro, conIntro);
      if opening.Err? { return Err(opening.message), s1, s2; }
      var (pro1, con1) := opening.value;
      s1 := Now();
      ghost var pro1Output, con1Output := screen.proOutput, screen.conOutput;
      var later;
      later, s2 := SplitLaterRounds(screen, topic, pro1, con1);
      if later.Err? {
        RaisedInRound2(s0, s1, Now(), topic, pro1, con1, later.message);
        return Err(later.message), s1, s2;
      }
      r := Ok(Rounds(pro1, con1, later.value.0, later.value.1));
      RoundsFragments(pro0, pro1Output, screen.proOutput, con0, con1Output, screen.conOutput, proIntro, conIntro, r.value);
    }

    /** Rounds 2 and 3 of the split screen, after the opening arguments
        `pro1` and `con1`; `s2` is the state between them. */
    method SplitLaterRounds(screen: SplitScreen, topic: string, pro1: string, con1: string)
      returns (r: Result<(Improvement, Improvement)>, ghost s2: Snapshot)
      requires Valid() && screen.Valid() && screen.Open()
      modifies agentPro, agentCon, screen`proOutput, screen`conOutput, screen`yielded
      ensures Valid() && Extended(old(Now()), Now()) && screen.Valid() && screen.Open()
      ensures r.Ok? ==>
        var (round2, round3) := r.value;
        && Logged(old(Now()), s2, ImprovementExchanges(topic, pro1, con1, 2, round2.pro, round2.proArgument),
                                  [round2.proArgument],
                                  ImprovementExchanges(topic, con1, pro1, 2, round2.con, round2.conArgument),
                                  [round2.conArgument])
        && Logged(s2, Now(), ImprovementExchanges(topic, round2.proArgument, round2.conArgument, 3,
                                                  round3.pro, round3.proArgument),
                             [round3.proArgument],
                             ImprovementExchanges(topic, round2.conArgument, round2.proArgument, 3,
                                                  round3.con, round3.conArgument),
                             [round3.conArgument])
        && screen.proOutput == old(screen.proOutput) + ImprovementFragments(Round2Banners, round2.pro.reflection, round2.proArgument)
                                                     + ImprovementFragments(Round3Banners, round3.pro.reflection, round3.proArgument)
        && screen.conOutput == old(screen.conOutput) + ImprovementFragments(Round2Banners, round2.con.reflection, round2.conArgument)
                                                     + ImprovementFragments(Round3Banners, round3.con.reflection, round3.conArgument)
      ensures r.Err? ==> Raised(old(Now()), Now(), r.message)
    {
      s2 := Now();
      ghost var s1 := Now();
      var round2 := SplitImprovement(screen, topic, pro1, con1, 2, Round2Banners);
      if round2.Err? { return Err(round2.message), s2; }
      s2 := Now();
      var round3 := SplitImprovement(screen, topic, round2.value.proArgument, round2.value.conArgument, 3,
                                     Round3Banners);
      if round3.Err? {
        ImprovementBalanced(s1, s2, topic, pro1, con1, 2, round2.value);
        RaisedAfter(s1, s2, Now(), round3.message);
        return Err(round3.message), s2;
      }
      r := Ok((round2.value, round3.value));
    }

    /** `run_split_screen_debate` on a fresh `screen`, with `proIntro` and
        `conIntro` as the panels' first lines. */
    method SplitDebate(screen: SplitScreen, topic: string, proIntro: string, conIntro: string)
      returns (r: Result<()>, ghost trace: Trace)
      requires Valid() && screen.Valid() && screen.Open()
      requires screen.proOutput == screen.conOutput == screen.verdictOutput == [] && screen.yielded == []
      modifies agentPro, agentCon, screen
      ensures Valid() && Extended(old(Now()), Now()) && screen.Valid()
      ensures |screen.yielded| == |screen.conOutput|
      ensures r.Ok? ==>
        && Completed(old(Now()), Now(), topic, trace)
        && screen.proOutput == PanelFragments(proIntro, [], trace.pro)
        && screen.conOutput == PanelFragments(conIntro, [Waiting], trace.con)
        && |screen.yielded| == 27
        && screen.yielded[26] == Panels(Join(screen.proOutput), Join(screen.conOutput),
                                        Join(JudgePanel(agentPro, trace.verdict)))
      ensures r.Err? ==> Raised(old(Now()), Now(), r.message) && screen.Open()
    {
      trace := Trace(Side([], [], []), Side([], [], []), "");
      ghost var s0 := Now();
      var rounds, s1, s2 := SplitRounds(screen, topic, proIntro, conIntro);
      if rounds.Err? { return Err(rounds.message), trace; }
      r, trace := SplitClose(screen, topic, proIntro, conIntro, rounds.value, s0, s1, s2);
    }

    /** The verdict panel of `run_split_screen_debate`, after three rounds
        logged from `s0` that left their fragments on empty panels. */
    method SplitClose(screen: SplitScreen, topic: string, proIntro: string, conIntro: string, rs: Rounds,
                      ghost s0: Snapshot, ghost s1: Snapshot, ghost s2: Snapshot)
      returns (r: Result<()>, ghost trace: Trace)
      requires Valid() && screen.Valid() && screen.Open() && screen.verdictOutput == []
      requires RoundsLogged(s0, s1, s2, Now(), topic, rs)
      requires screen.proOutput == [] + RoundFragments(proIntro, [], ProSide(rs))
      requires screen.conOutput == [] + RoundFragments(conIntro, [Waiting], ConSide(rs))
      modifies agentPro`exchanges, screen
      ensures Valid() && Extended(old(Now()), Now()) && screen.Valid()
      ensures |screen.yielded| == |screen.conOutput|
      ensures r.Ok? ==>
        && Completed(s0, Now(), topic, trace)
        && screen.proOutput == PanelFragments(proIntro, [], trace.pro)
        && screen.conOutput == PanelFragments(conIntro, [Waiting], trace.con)
        && |screen.yielded| == 27
        && screen.yielded[26] == Panels(Join(screen.proOutput), Join(screen.conOutput),
                                        Join(JudgePanel(agentPro, trace.verdict)))
      ensures r.Err? ==> Raised(s0, Now(), r.message) && screen.Open()
    {
      trace := Trace(Side([], [], []), Side([], [], []), "");
      ghost var s3 := Now();
      ghost var pro1, con1 := screen.proOutput, screen.conOutput;
      var verdict := SplitVerdict(screen, topic, ProSide(rs).arguments, ConSide(rs).arguments);
      if verdict.Err? {
        RaisedAtVerdict(s0, s1, s2, s3, Now(), topic, rs, verdict.message);
        return Err(verdict.message), trace;
      }
      RoundsMakeDebate(s0, s1, s2, s3, Now(), topic, rs, verdict.value);
      trace := Trace(ProSide(rs), ConSide(rs), verdict.value);
      PanelFragmentsCompose(pro1, screen.proOutput, proIntro, [], trace.pro);
      PanelFragmentsCompose(con1, screen.conOutput, conIntro, [Waiting], trace.con);
      PanelLength(conIntro, [Waiting], trace.con);
      r := Ok(());
    }

    /** `run_split_screen_debate`, run to its end: `screen` holds the three
        panel buffers and every triple the generator yielded. `totalRounds`
        is accepted and ignored, as in the source. `trace` is what the
        providers produced; the source keeps it only in local variables. */
    method RunSplitScreenDebate(topic: string, totalRounds: int)
      returns (screen: SplitScreen, r: Result<()>, ghost trace: Trace)
      requires Valid()
      modifies agentPro, agentCon
      ensures fresh(screen) && Valid() && Extended(old(Now()), Now()) && screen.Valid()
      ensures |screen.yielded| == |screen.conOutput|
      ensures r.Ok? ==> Completed(old(Now()), Now(), topic, trace) && Shown(screen, topic, trace)
      ensures r.Err? ==> Raised(old(Now()), Now(), r.message) && screen.Open()
    {
      screen := new SplitScreen();
      var header := Header(topic);
      r, trace := SplitDebate(screen, topic, Intro(header, Config("Agent Pro: ", agentPro)),
                              Intro(header, Config("Agent Con: ", agentCon)));
    }

    /** The pro side's opening turn of `run_multiround_debate_streaming`. */
    method StreamProOpening(t: Transcript, topic: string) returns (r: Result<string>)
      requires Valid() && t.Valid()
      modifies agentPro, t
      ensures Valid() && Extended(old(Now()), Now()) && t.Valid()
      ensures r.Ok? ==>
        && Logged(old(Now()), Now(), [Exchange(ArgumentAsk(topic, "", 1), Ok(r.value))], [r.value], [], [])
        && t.output == old(t.output) + Turn("AGENT PRO:", [r.value, ""])
      ensures r.Err? ==> Logged(old(Now()), Now(), [Exchange(ArgumentAsk(topic, "", 1), Err(r.message))], [], [], [])
    {
      t.AddAndYieldAll(["AGENT PRO:", StreamDash]);
      r := agentPro.GenerateArgument(topic, "", 1);
      if r.Ok? {
        t.AddAndYieldAll([r.value, ""]);
      }
    }

    /** The con side's opening turn of `run_multiround_debate_streaming`. */
    method StreamConOpening(t: Transcript, topic: string) returns (r: Result<string>)
      requires Valid() && t.Valid()
      modifies agentCon, t
      ensures Valid() && Extended(old(Now()), Now()) && t.Valid()
      ensures r.Ok? ==>
        && Logged(old(Now()), Now(), [], [], [Exchange(ArgumentAsk(topic, "", 1), Ok(r.value))], [r.value])
        && t.output == old(t.output) + Turn("AGENT CON:", [r.value, ""])
      ensures r.Err? ==> Logged(old(Now()), Now(), [], [], [Exchange(ArgumentAsk(topic, "", 1), Err(r.message))], [])
    {
      t.AddAndYieldAll(["AGENT CON:", StreamDash]);
      r := agentCon.GenerateArgument(topic, "", 1);
      if r.Ok? {
        t.AddAndYieldAll([r.value, ""]);
      }
    }

    /** Round 1 of `run_multiround_debate_streaming`: the banner, then the
        pro turn and the con turn. */
    method StreamOpening(t: Transcript, topic: string) returns (r: Result<(string, string)>)
      requires Valid() && t.Valid()
      modifies agentPro, agentCon, t
      ensures Valid() && Extended(old(Now()), Now()) && t.Valid()
      ensures r.Ok? ==>
        && Logged(old(Now()), Now(), [Exchange(ArgumentAsk(topic, "", 1), Ok(r.value.0))], [r.value.0],
                                     [Exchange(ArgumentAsk(topic, "", 1), Ok(r.value.1))], [r.value.1])
        && t.output == old(t.output) + StreamOpeningLines(r.value.0, r.value.1)
      ensures r.Err? ==> Raised(old(Now()), Now(), r.message)
    {
      ghost var s0 := Now();
      t.AddAndYieldAll(StreamBanner("ROUND 1: INITIAL ARGUMENTS"));
      var pro := StreamProOpening(t, topic);
      if pro.Err? { ProRaised(s0, Now(), ArgumentAsk(topic, "", 1), pro.message); return Err(pro.message); }
      ghost var s1 := Now();
      var con := StreamConOpening(t, topic);
      if con.Err? {
        ConRaised(s0, s1, Now(), Exchange(ArgumentAsk(topic, "", 1), pro), [pro.value], ArgumentAsk(topic, "", 1),
                  con.message);
        return Err(con.message);
      }
      r := Ok((pro.value, con.value));
    }

    /** The pro side's critique turn: the excerpt of the critique and the
        stage's note. */
    method StreamProCritique(t: Transcript, stage: Stage, argument: string) returns (r: Result<string>)
      requires Valid() && t.Valid()
      modifies agentPro`exchanges, t
      ensures Valid() && Extended(old(Now()), Now()) && t.Valid()
      ensures r.Ok? ==>
        && Logged(old(Now()), Now(), [Exchange(ReflectionAsk(argument), Ok(r.value))], [], [], [])
        && t.output == old(t.output) + Turn(stage.proReflects, CritiqueLines(r.value, stage.excerpt, stage.note))
      ensures r.Err? ==> Logged(old(Now()), Now(), [Exchange(ReflectionAsk(argument), Err(r.message))], [], [], [])
    {
      t.AddAndYieldAll([stage.proReflects, StreamDash]);
      r := agentPro.ReflectOnArgument(argument);
      if r.Ok? {
        t.AddAndYieldAll(CritiqueLines(r.value, stage.excerpt, stage.note));
      }
    }

    /** The con side's critique turn. */
    method StreamConCritique(t: Transcript, stage: Stage, argument: string) returns (r: Result<string>)
      requires Valid() && t.Valid()
      modifies agentCon`exchanges, t
      ensures Valid() && Extended(old(Now()), Now()) && t.Valid()
      ensures r.Ok? ==>
        && Logged(old(Now()), Now(), [], [], [Exchange(ReflectionAsk(argument), Ok(r.value))], [])
        && t.output == old(t.output) + Turn(stage.conReflects, CritiqueLines(r.value, stage.excerpt, stage.note))
      ensures r.Err? ==> Logged(old(Now()), Now(), [], [], [Exchange(ReflectionAsk(argument), Err(r.message))], [])
    {
      t.AddAndYieldAll([stage.conReflects, StreamDash]);
      r := agentCon.ReflectOnArgument(argument);
      if r.Ok? {
        t.AddAndYieldAll(CritiqueLines(r.value, stage.excerpt, stage.note));
      }
    }

    /** The critiques of a reflection phase of the streaming run: the banner,
        then the pro turn and the con turn. */
    method StreamCritiques(t: Transcript, stage: Stage, proArgument: string, conArgument: string)
      returns (r: Result<(string, string)>)
      requires Valid() && t.Valid()
      modifies agentPro`exchanges, agentCon`exchanges, t
      ensures Valid() && Extended(old(Now()), Now()) && t.Valid()
      ensures r.Ok? ==>
        && Logged(old(Now()), Now(), [Exchange(ReflectionAsk(proArgument), Ok(r.value.0))], [],
                                     [Exchange(ReflectionAsk(conArgument), Ok(r.value.1))], [])
        && t.output == old(t.output) + StreamCritiqueLines(stage, r.value.0, r.value.1)
      ensures r.Err? ==> Raised(old(Now()), Now(), r.message)
    {
      ghost var s0 := Now();
      t.AddAndYieldAll(StreamBanner(stage.reflectionTitle));
      var pro := StreamProCritique(t, stage, proArgument);
      if pro.Err? { ProRaised(s0, Now(), ReflectionAsk(proArgument), pro.message); return Err(pro.message); }
      ghost var s1 := Now();
      var con := StreamConCritique(t, stage, conArgument);
      if con.Err? {
        ConRaised(s0, s1, Now(), Exchange(ReflectionAsk(proArgument), pro), [], ReflectionAsk(conArgument), con.message);
        return Err(con.message);
      }
      r := Ok((pro.value, con.value));
    }

    /** A reflection phase of the streaming run: the critiques, then the
        stage's announcement, then the two summaries, which are not shown. */
    method StreamReflection(t: Transcript, stage: Stage, proArgument: string, conArgument: string)
      returns (r: Result<(Reflection, Reflection)>)
      requires Valid() && t.Valid()
      modifies agentPro`exchanges, agentCon`exchanges, t
      ensures Valid() && Extended(old(Now()), Now()) && t.Valid()
      ensures r.Ok? ==>
        && Logged(old(Now()), Now(), ReflectionExchanges(proArgument, r.value.0), [],
                                     ReflectionExchanges(conArgument, r.value.1), [])
        && t.output == old(t.output) + StreamCritiqueLines(stage, r.value.0.reflection, r.value.1.reflection)
                                     + [stage.extracting, ""]
      ensures r.Err? ==> Raised(old(Now()), Now(), r.message)
    {
      ghost var s0 := Now();
      var critiques := StreamCritiques(t, stage, proArgument, conArgument);
      if critiques.Err? { return Err(critiques.message); }
      t.AddAndYieldAll([stage.extracting, ""]);
      ghost var s1 := Now();
      var summaries := Summaries(critiques.value.0, critiques.value.1);
      if summaries.Err? {
        CritiquesBalanced(s0, s1, proArgument, conArgument, critiques.value.0, critiques.value.1);
        RaisedAfter(s0, s1, Now(), summaries.message);
        return Err(summaries.message);
      }
      r := Ok((Reflection(critiques.value.0, summaries.value.0), Reflection(critiques.value.1, summaries.value.1)));
    }

    /** The pro side's refinement turn of the streaming run. */
    method StreamProRefinement(t: Transcript, stage: Stage, topic: string, previous: string, summary: string,
                               opponent: string, round: int)
      returns (r: Result<string>)
      requires Valid() && t.Valid()
      modifies agentPro, t
      ensures Valid() && Extended(old(Now()), Now()) && t.Valid()
      ensures r.Ok? ==>
        && Logged(old(Now()), Now(), [Exchange(RefinementAsk(topic, previous, summary, opponent, round), Ok(r.value))],
                  [r.value], [], [])
        && t.output == old(t.output) + Turn(stage.proLabel, [r.value, ""])
      ensures r.Err? ==> Logged(old(Now()), Now(), [Exchange(RefinementAsk(topic, previous, summary, opponent, round), Err(r.message))], [], [], [])
    {
      t.AddAndYieldAll([stage.proLabel, StreamDash]);
      r := agentPro.RefineArgument(topic, previous, summary, opponent, round);
      if r.Ok? {
        t.AddAndYieldAll([r.value, ""]);
      }
    }

    /** The con side's refinement turn of the streaming run. */
    method StreamConRefinement(t: Transcript, stage: Stage, topic: string, previous: string, summary: string,
                               opponent: string, round: int)
      returns (r: Result<string>)
      requires Valid() && t.Valid()
      modifies agentCon, t
      ensures Valid() && Extended(old(Now()), Now()) && t.Valid()
      ensures r.Ok? ==>
        && Logged(old(Now()), Now(), [], [],
                  [Exchange(RefinementAsk(topic, previous, summary, opponent, round), Ok(r.value))], [r.value])
        && t.output == old(t.output) + Turn(stage.conLabel, [r.value, ""])
      ensures r.Err? ==> Logged(old(Now()), Now(), [], [], [Exchange(RefinementAsk(topic, previous, summary, opponent, round), Err(r.message))], [])
    {
      t.AddAndYieldAll([stage.conLabel, StreamDash]);
      r := agentCon.RefineArgument(topic, previous, summary, opponent, round);
      if r.Ok? {
        t.AddAndYieldAll([r.value, ""]);
      }
    }

    /** The refined arguments of a round of the streaming run: the banner,
        then the pro turn and the con turn. */
    method StreamRefinement(t: Transcript, stage: Stage, topic: string, proPrevious: string, proSummary: string,
                            conPrevious: string, conSummary: string, round: int)
      returns (r: Result<(string, string)>)
      requires Valid() && t.Valid()
      modifies agentPro, agentCon, t
      ensures Valid() && Extended(old(Now()), Now()) && t.Valid()
      ensures r.Ok? ==>
        && Logged(old(Now()), Now(),
                  [Exchange(RefinementAsk(topic, proPrevious, proSummary, conPrevious, round), Ok(r.value.0))],
                  [r.value.0],
                  [Exchange(RefinementAsk(topic, conPrevious, conSummary, proPrevious, round), Ok(r.value.1))],
                  [r.value.1])
        && t.output == old(t.output) + StreamRefinementLines(stage, r.value.0, r.value.1)
      ensures r.Err? ==> Raised(old(Now()), Now(), r.message)
    {
      ghost var s0 := Now();
      t.AddAndYieldAll(StreamBanner(stage.roundTitle));
      var pro := StreamProRefinement(t, stage, topic, proPrevious, proSummary, conPrevious, round);
      if pro.Err? {
        ProRaised(s0, Now(), RefinementAsk(topic, proPrevious, proSummary, conPrevious, round), pro.message);
        return Err(pro.message);
      }
      ghost var s1 := Now();
      var con := StreamConRefinement(t, stage, topic, conPrevious, conSummary, proPrevious, round);
      if con.Err? {
        ConRaised(s0, s1, Now(), Exchange(RefinementAsk(topic, proPrevious, proSummary, conPrevious, round), pro),
                  [pro.value], RefinementAsk(topic, conPrevious, conSummary, proPrevious, round), con.message);
        return Err(con.message);
      }
      r := Ok((pro.value, con.value));
    }

    /** Round 2 or 3 of `run_multiround_debate_streaming`: the reflection
        phase and the refined arguments, shown with the `stage` texts. */
    method StreamImprovement(t: Transcript, stage: Stage, topic: string, proPrevious: string, conPrevious: string,
                             round: int)
      returns (r: Result<Improvement>)
      requires Valid() && t.Valid()
      modifies agentPro, agentCon, t
      ensures Valid() && Extended(old(Now()), Now()) && t.Valid()
      ensures r.Ok? ==>
        && Logged(old(Now()), Now(),
                  ImprovementExchanges(topic, proPrevious, conPrevious, round, r.value.pro, r.value.proArgument),
                  [r.value.proArgument],
                  ImprovementExchanges(topic, conPrevious, proPrevious, round, r.value.con, r.value.conArgument),
                  [r.value.conArgument])
        && t.output == old(t.output) + StreamImprovementLines(stage, r.value.pro.reflection, r.value.con.reflection,
                                                              r.value.proArgument, r.value.conArgument)
      ensures r.Err? ==> Raised(old(Now()), Now(), r.message)
    {
      ghost var s0 := Now();
      ghost var o0 := t.output;
      var phase := StreamReflection(t, stage, proPrevious, conPrevious);
      if phase.Err? { return Err(phase.message); }
      var (pro, con) := phase.value;
      ghost var s1 := Now();
      ghost var o1 := t.output;
      var refined := StreamRefinement(t, stage, topic, proPrevious, pro.summary, conPrevious, con.summary, round);
      if refined.Err? {
        ReflectionBalanced(s0, s1, proPrevious, conPrevious, pro, con);
        RaisedAfter(s0, s1, Now(), refined.message);
        return Err(refined.message);
      }
      var improvement := Improvement(pro, con, refined.value.0, refined.value.1);
      ImprovementComposes(s0, s1, Now(), topic, proPrevious, conPrevious, round, improvement);
      AppendTwo(o0, o1, t.output, StreamCritiqueLines(stage, pro.reflection, con.reflection) + [stage.extracting, ""],
                StreamRefinementLines(stage, improvement.proArgument, improvement.conArgument));
      r := Ok(improvement);
    }

    /** The three rounds of `run_multiround_debate_streaming`. `s1` and `s2`
        are the logs after rounds 1 and 2. */
    method StreamRounds(t: Transcript, topic: string) returns (r: Result<Rounds>, ghost s1: Snapshot, ghost s2: Snapshot)
      requires Valid() && t.Valid()
      modifies agentPro, agentCon, t
      ensures Valid() && Extended(old(Now()), Now()) && t.Valid()
      ensures r.Ok? ==>
        && RoundsLogged(old(Now()), s1, s2, Now(), topic, r.value)
        && t.output == old(t.output) + StreamRoundLines(ProSide(r.value), ConSide(r.value))
      ensures r.Err? ==> Raised(old(Now()), Now(), r.message)
    {
      s1, s2 := Now(), Now();
      ghost var s0 := Now();
      ghost var o0 := t.output;
      var opening := StreamOpening(t, topic);
      if opening.Err? { return Err(opening.message), s1, s2; }
      var (pro1, con1) := opening.value;
      s1 := Now();
      ghost var o1 := t.output;
      var later;
      later, s2 := StreamLaterRounds(t, topic, pro1, con1);
      if later.Err? {
        RaisedInRound2(s0, s1, Now(), topic, pro1, con1, later.message);
        return Err(later.message), s1, s2;
      }
      r := Ok(Rounds(pro1, con1, later.value.0, later.value.1));
      StreamRoundLinesCompose(o0, o1, t.output, r.value);
    }

    /** Rounds 2 and 3 of the streamed transcript, after the opening
        arguments `pro1` and `con1`; `s2` is the state between them. */
    method StreamLaterRounds(t: Transcript, topic: string, pro1: string, con1: string)
      returns (r: Result<(Improvement, Improvement)>, ghost s2: Snapshot)
      requires Valid() && t.Valid()
      modifies agentPro, agentCon, t
      ensures Valid() && Extended(old(Now()), Now()) && t.Valid()
      ensures r.Ok? ==>
        var (round2, round3) := r.value;
        && Logged(old(Now()), s2, ImprovementExchanges(topic, pro1, con1, 2, round2.pro, round2.proArgument),
                                  [round2.proArgument],
                                  ImprovementExchanges(topic, con1, pro1, 2, round2.con, round2.conArgument),
                                  [round2.conArgument])
        && Logged(s2, Now(), ImprovementExchanges(topic, round2.proArgument, round2.conArgument, 3,
                                                  round3.pro, round3.proArgument),
                             [round3.proArgument],
                             ImprovementExchanges(topic, round2.conArgument, round2.proArgument, 3,
                                                  round3.con, round3.conArgument),
                             [round3.conArgument])
        && t.output == old(t.output)
                       + StreamImprovementLines(Stage2, round2.pro.reflection, round2.con.reflection,
                                                round2.proArgument, round2.conArgument)
                       + StreamImprovementLines(Stage3, round3.pro.reflection, round3.con.reflection,
                                                round3.proArgument, round3.conArgument)
      ensures r.Err? ==> Raised(old(Now()), Now(), r.message)
    {
      s2 := Now();
      ghost var s1 := Now();
      var round2 := StreamImprovement(t, Stage2, topic, pro1, con1, 2);
      if round2.Err? { return Err(round2.message), s2; }
      s2 := Now();
      var round3 := StreamImprovement(t, Stage3, topic, round2.value.proArgument, round2.value.conArgument, 3);
      if round3.Err? {
        ImprovementBalanced(s1, s2, topic, pro1, con1, 2, round2.value);
        RaisedAfter(s1, s2, Now(), round3.message);
        return Err(round3.message), s2;
      }
      r := Ok((round2.value, round3.value));
    }

    /** The verdict of the streaming run: its banner and announcement, the
        verdict call, then the verdict and the closing banner. */
    method StreamVerdict(t: Transcript, topic: string, proArguments: seq<string>, conArguments: seq<string>)
      returns (r: Result<string>)
      requires Valid() && t.Valid()
      requires |proArguments| >= 3 && |conArguments| >= 3
      modifies agentPro`exchanges, t
      ensures Valid() && Extended(old(Now()), Now()) && t.Valid()
      ensures r.Ok? ==>
        && Logged(old(Now()), Now(), [Exchange(VerdictAsk(topic, proArguments, conArguments), Ok(r.value))], [], [], [])
        && t.output == old(t.output) + StreamVerdictLines(r.value)
      ensures r.Err? ==> Logged(old(Now()), Now(), [Exchange(VerdictAsk(topic, proArguments, conArguments), Err(r.message))], [], [], [])
    {
      t.AddAndYieldAll(StreamBanner("FINAL VERDICT") + ["Generating final analysis..."]);
      r := GenerateVerdict(topic, proArguments, conArguments);
      if r.Ok? {
        t.AddAndYieldAll([r.value, "", StreamRule, "DEBATE COMPLETE!", StreamRule]);
      }
    }

    /** `run_multiround_debate_streaming`, run to its end: `t` holds the
        fragment list and every value the generator yielded. `totalRounds`
        is accepted and ignored, as in the source. `trace` is what the
        providers produced. On an error the lines yielded before the failing
        call stay yielded. */
    method RunMultiroundDebateStreaming(topic: string, totalRounds: int)
      returns (t: Transcript, r: Result<()>, ghost trace: Trace)
      requires Valid()
      modifies agentPro, agentCon
      ensures fresh(t) && Valid() && Extended(old(Now()), Now()) && t.Valid()
      ensures r.Ok? ==>
        && Completed(old(Now()), Now(), topic, trace)
        && t.output == TranscriptLines(topic, trace)
        && |t.yielded| == 82
      ensures r.Err? ==> Raised(old(Now()), Now(), r.message)
    {
      trace := Trace(Side([], [], []), Side([], [], []), "");
      t := new Transcript();
      t.AddAndYieldAll(StreamHeader(topic));
      ghost var o0 := t.output;
      ghost var s0 := Now();
      var rounds, s1, s2 := StreamRounds(t, topic);
      if rounds.Err? { return t, Err(rounds.message), trace; }
      var rs := rounds.value;
      ghost var s3 := Now();
      ghost var o1 := t.output;
      var verdict := StreamVerdict(t, topic, ProSide(rs).arguments, ConSide(rs).arguments);
      if verdict.Err? {
        RaisedAtVerdict(s0, s1, s2, s3, Now(), topic, rs, verdict.message);
        return t, Err(verdict.message), trace;
      }
      RoundsMakeDebate(s0, s1, s2, s3, Now(), topic, rs, verdict.value);
      trace := Trace(ProSide(rs), ConSide(rs), verdict.value);
      TranscriptCompose(o0, o1, t.output, topic, trace);
      TranscriptLength(topic, trace);
      r := Ok(());
    }
  }
}
