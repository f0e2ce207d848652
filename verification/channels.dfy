/** The output buffers of the streaming debate runs. Each is a Python list to
    which one fragment is appended at a time; what the consumer sees is the
    `"\n"`-join of the fragments so far. A generator run is modelled by the
    finite sequence of values it yields, recorded here as `yielded`. */
module Channels {
  import opened Text

  /** One value yielded by `run_split_screen_debate`: the text of the pro, con
      and verdict panels. */
  datatype Panels = Panels(pro: string, con: string, verdict: string)

  /** Earlier snapshots are prefixes of later ones. */
  ghost predicate Grows(snapshots: seq<string>)
  {
    forall i, j :: 0 <= i <= j < |snapshots| ==> snapshots[i] <= snapshots[j]
  }

  /** Every non-blank pro panel extends every earlier non-blank pro panel. */
  ghost predicate ProGrows(ys: seq<Panels>)
  {
    forall i, j :: 0 <= i <= j < |ys| && ys[i].pro != "" && ys[j].pro != "" ==> ys[i].pro <= ys[j].pro
  }

  /** Every non-blank con panel extends every earlier non-blank con panel. */
  ghost predicate ConGrows(ys: seq<Panels>)
  {
    forall i, j :: 0 <= i <= j < |ys| && ys[i].con != "" && ys[j].con != "" ==> ys[i].con <= ys[j].con
  }

  /** The verdict panel is blank in every value but possibly the last. */
  ghost predicate VerdictOnlyAtEnd(ys: seq<Panels>)
  {
    forall i :: 0 <= i < |ys| - 1 ==> ys[i].verdict == ""
  }

  /** The `i`-th snapshot is the join of the first `i + 1` fragments. */
  ghost predicate Snapshots(output: seq<string>, yielded: seq<string>)
  {
    |yielded| == |output| && forall i :: 0 <= i < |yielded| ==> yielded[i] == Join(output[..i + 1])
  }

  /** The snapshots an `add_and_yield` run hands out never retract anything. */
  lemma {:induction false} SnapshotsGrow(output: seq<string>, yielded: seq<string>)
    requires Snapshots(output, yielded)
    ensures Grows(yielded)
  {
    forall i, j | 0 <= i <= j < |yielded|
      ensures yielded[i] <= yielded[j]
    {
      var upto := output[..j + 1];
      assert upto[..i + 1] == output[..i + 1];
      JoinPrefix(upto, i + 1);
    }
  }

  /** The triples a split-screen run has yielded only ever grow, only the
      last may show a verdict, the `i`-th con panel is the join of the first
      `i + 1` con fragments, and every pro panel is blank or the join of the
      pro fragments appended before it. */
  lemma PanelsGrow(screen: SplitScreen)
    requires screen.Valid()
    ensures ProGrows(screen.yielded) && ConGrows(screen.yielded) && VerdictOnlyAtEnd(screen.yielded)
    ensures forall i :: 0 <= i < |screen.yielded| ==> screen.yielded[i].con == Join(screen.conOutput[..i + 1])
    ensures forall i :: 0 <= i < |screen.yielded| && screen.yielded[i].pro != "" ==>
              exists m :: 0 <= m <= |screen.proOutput| && screen.yielded[i].pro == Join(screen.proOutput[..m])
  {
    var ys := screen.yielded;
    forall i, j | 0 <= i <= j < |ys| && ys[i].pro != "" && ys[j].pro != ""
      ensures ys[i].pro <= ys[j].pro
    {
      assert screen.Ordered(i, j);
    }
    forall i, j | 0 <= i <= j < |ys| && ys[i].con != "" && ys[j].con != ""
      ensures ys[i].con <= ys[j].con
    {
      assert screen.Ordered(i, j);
    }
    forall i | 0 <= i < |ys| - 1
      ensures screen.yielded[i].verdict == ""
    {
      assert screen.Ordered(i, i + 1);
    }
    forall i | 0 <= i < |ys|
      ensures ys[i].con == Join(screen.conOutput[..i + 1])
      ensures ys[i].pro != "" ==> exists m :: 0 <= m <= |screen.proOutput| && ys[i].pro == Join(screen.proOutput[..m])
    {
      assert screen.Current(i);
    }
  }

  /** The fragment list `output` of `run_multiround_debate_streaming` and the
      values its generator has yielded so far. */
  class Transcript {
    var output: seq<string>
    var yielded: seq<string>

    /** One value was yielded per fragment, the join of the fragments up to
        and including it. */
    ghost predicate Valid()
      reads this
    {
      |yielded| == |output| && forall i :: 0 <= i < |yielded| ==> Shows(i)
    }

    /** The `i`-th value yielded is the join of the first `i + 1` fragments. */
    ghost predicate Shows(i: nat)
      requires i < |yielded| <= |output|
      reads this
    {
      yielded[i] == Join(output[..i + 1])
    }

    constructor ()
      ensures Valid() && output == [] && yielded == []
    {
      output := [];
      yielded := [];
    }

    /** `yield add_and_yield(text)`: appends one fragment and yields the join
        of all fragments so far. */
    method AddAndYield(text: string) returns (snapshot: string)
      requires Valid()
      modifies this
      ensures Valid()
      ensures output == old(output) + [text]
      ensures snapshot == Join(output)
      ensures yielded == old(yielded) + [snapshot]
    {
      output := output + [text];
      snapshot := Join(output);
      yielded := yielded + [snapshot];
      assert output[..|output|] == output;
      assert Shows(|output| - 1);
      forall i | 0 <= i < |old(output)|
        ensures Shows(i)
      {
        assert output[..i + 1] == old(output)[..i + 1];
        assert old(Shows(i));
      }
    }

    /** `yield add_and_yield(line)` for each of `lines`. */
    method AddAndYieldAll(lines: seq<string>)
      requires Valid()
      modifies this
      ensures Valid()
      ensures output == old(output) + lines
    {
      for i := 0 to |lines|
        invariant Valid()
        invariant output == old(output) + lines[..i]
      {
        var _ := AddAndYield(lines[i]);
        assert lines[..i + 1] == lines[..i] + [lines[i]];
      }
      assert lines[..|lines|] == lines;
    }
  }

  /** The values a streaming run has yielded grow: each extends the one
      before it. */
  lemma TranscriptGrows(transcript: Transcript)
    requires transcript.Valid()
    ensures Snapshots(transcript.output, transcript.yielded)
    ensures Grows(transcript.yielded)
  {
    forall i | 0 <= i < |transcript.yielded|
      ensures transcript.yielded[i] == Join(transcript.output[..i + 1])
    {
      assert transcript.Shows(i);
    }
    SnapshotsGrow(transcript.output, transcript.yielded);
  }

  /** The lists `pro_output`, `con_output` and `verdict_output` of
      `run_split_screen_debate` and the triples its generator has yielded. */
  class SplitScreen {
    var proOutput: seq<string>
    var conOutput: seq<string>
    var verdictOutput: seq<string>
    var yielded: seq<Panels>

    /** Every yield comes with one con fragment, shown with all earlier ones;
        every pro panel is blank or the join of the pro fragments so far; and
        every later triple extends every earlier one. */
    ghost predicate Valid()
      reads this`proOutput, this`conOutput, this`yielded
    {
      && |yielded| <= |conOutput|
      && (forall i :: 0 <= i < |yielded| ==> Current(i))
      && (forall i, j :: 0 <= i <= j < |yielded| ==> Ordered(i, j))
    }

    /** The `i`-th con panel is the join of the first `i + 1` con fragments;
        the `i`-th pro panel is blank or the join of the first `m` pro
        fragments for some `m`. */
    ghost predicate Current(i: nat)
      requires i < |yielded| <= |conOutput|
      reads this`proOutput, this`conOutput, this`yielded
    {
      && (yielded[i].pro == "" || exists m :: 0 <= m <= |proOutput| && yielded[i].pro == Join(proOutput[..m]))
      && yielded[i].con == Join(conOutput[..i + 1])
    }

    /** The `j`-th triple extends the `i`-th where both are not blank, and
        the `i`-th shows no verdict when a later one was yielded. */
    ghost predicate Ordered(i: nat, j: nat)
      requires i <= j < |yielded|
      reads this`yielded
    {
      && (yielded[i].pro != "" && yielded[j].pro != "" ==> yielded[i].pro <= yielded[j].pro)
      && (yielded[i].con != "" && yielded[j].con != "" ==> yielded[i].con <= yielded[j].con)
      && (i < j ==> yielded[i].verdict == "")
    }

    /** No triple has been yielded after one that shows a verdict. */
    ghost predicate Quiet()
      reads this`yielded
    {
      yielded == [] || yielded[|yielded| - 1].verdict == ""
    }

    /** Between two yields of a running debate: every con fragment has been
        shown, and no verdict yet. */
    ghost predicate Open()
      reads this`conOutput, this`yielded
    {
      |conOutput| == |yielded| && Quiet()
    }

    constructor ()
      ensures Valid() && Open()
      ensures proOutput == [] && conOutput == [] && verdictOutput == [] && yielded == []
    {
      proOutput, conOutput, verdictOutput, yielded := [], [], [], [];
    }

    /** `format_pro(text)`: appends one fragment and returns the join. */
    method FormatPro(text: string) returns (snapshot: string)
      requires Valid()
      modifies this`proOutput
      ensures Valid()
      ensures proOutput == old(proOutput) + [text] && snapshot == Join(proOutput)
    {
      JoinExtends(proOutput, text);
      proOutput := proOutput + [text];
      snapshot := Join(proOutput);
      forall i | 0 <= i < |yielded|
        ensures Current(i)
      {
        assert old(Current(i));
        if yielded[i].pro != "" {
          var m :| 0 <= m <= |old(proOutput)| && yielded[i].pro == Join(old(proOutput)[..m]);
          assert proOutput[..m] == old(proOutput)[..m];
        }
      }
      forall i, j | 0 <= i <= j < |yielded|
        ensures Ordered(i, j)
      {
        assert old(Ordered(i, j));
      }
    }

    /** `format_con(text)`: appends one fragment and returns the join. */
    method FormatCon(text: string) returns (snapshot: string)
      requires Valid()
      modifies this`conOutput
      ensures Valid()
      ensures conOutput == old(conOutput) + [text] && snapshot == Join(conOutput)
    {
      JoinExtends(conOutput, text);
      conOutput := conOutput + [text];
      snapshot := Join(conOutput);
      forall i | 0 <= i < |yielded|
        ensures Current(i)
      {
        assert old(Current(i));
        assert conOutput[..i + 1] == old(conOutput)[..i + 1];
      }
      forall i, j | 0 <= i <= j < |yielded|
        ensures Ordered(i, j)
      {
        assert old(Ordered(i, j));
      }
    }

    /** `verdict_output.append(text)`. */
    method AppendVerdict(text: string)
      modifies this`verdictOutput
      ensures verdictOutput == old(verdictOutput) + [text]
    {
      verdictOutput := verdictOutput + [text];
    }

    /** `verdict_output.append(line)` for each of `lines`. */
    method AppendVerdictLines(lines: seq<string>)
      modifies this`verdictOutput
      ensures verdictOutput == old(verdictOutput) + lines
    {
      for i := 0 to |lines|
        invariant verdictOutput == old(verdictOutput) + lines[..i]
      {
        AppendVerdict(lines[i]);
        assert lines[..i + 1] == lines[..i] + [lines[i]];
      }
      assert lines[..|lines|] == lines;
    }

    /** The end of a split-screen run: the verdict and the `footer` lines go
        to the verdict panel, and the last triple shows the `closing` line of
        both side panels with the full verdict panel. */
    method ShowFinale(verdict: string, footer: seq<string>, closing: string)
      requires Valid() && Open()
      modifies this
      ensures Valid()
      ensures verdictOutput == old(verdictOutput) + [verdict] + footer
      ensures proOutput == old(proOutput) + [closing]
      ensures conOutput == old(conOutput) + [closing]
      ensures yielded == old(yielded) + [Panels(Join(proOutput), Join(conOutput), Join(verdictOutput))]
    {
      AppendVerdict(verdict);
      AppendVerdictLines(footer);
      var pro := FormatPro(closing);
      var con := FormatCon(closing);
      Yield(pro, con, Join(verdictOutput));
    }

    /** `yield pro, con, verdict` right after one con fragment was appended:
        the con panel is the current join, the pro panel blank or the
        current join, the verdict panel blank or the current join. */
    method Yield(pro: string, con: string, verdict: string)
      requires Valid() && Quiet() && |conOutput| == |yielded| + 1
      requires pro == "" || pro == Join(proOutput)
      requires con == Join(conOutput)
      requires verdict == "" || verdict == Join(verdictOutput)
      modifies this`yielded
      ensures Valid()
      ensures yielded == old(yielded) + [Panels(pro, con, verdict)]
    {
      yielded := yielded + [Panels(pro, con, verdict)];
      var last := |yielded| - 1;
      assert conOutput[..last + 1] == conOutput;
      assert proOutput[..|proOutput|] == proOutput;
      forall i | 0 <= i < |yielded|
        ensures Current(i)
      {
        if i < last {
          assert old(Current(i));
        }
      }
      forall i, j | 0 <= i <= j < |yielded|
        ensures Ordered(i, j)
      {
        if j < last {
          assert old(Ordered(i, j));
        } else if i < last {
          assert old(Current(i));
          assert old(Quiet());
          assert old(Ordered(i, last - 1));
          if yielded[i].pro != "" {
            var m :| 0 <= m <= |proOutput| && yielded[i].pro == Join(proOutput[..m]);
            JoinPrefix(proOutput, m);
          }
          JoinPrefix(conOutput, i + 1);
        }
      }
    }
  }
}
