/** `ExecuteProgram`: clear the panel, send the pen home, then run every line
    of both text boxes in order; a line that throws is reported and skipped. */
module Runner {
  import opened Results
  import opened Tokens
  import opened Drawing
  import opened Commands
  import opened Seqs

  /** One line executed against a state; the runner sees the interpreter only
      through this. */
  type LineStep = (State, string) -> Result<Effect, Error>

  /** The interpreter of a panel of the given size. */
  function Interpreter(panel: Panel): LineStep {
    (st: State, line: string) => ParseAndExecuteCommand(panel, st, line)
  }

  /** A reported failure: which line, its text, and what it threw. */
  datatype LineError = LineError(index: nat, line: string, error: Error)

  /** The outcome of a run: final state, everything drawn, every failure. */
  datatype Run = Run(state: State, ops: seq<DrawOp>, errors: seq<LineError>)

  /** The per-line loop with its `try`/`catch`: a failing line is recorded
      and the state and drawing stay as they were before it. */
  function RunLines(step: LineStep, s: State, lines: seq<string>): (r: Run)
    ensures |r.errors| <= |lines|
    ensures forall j :: 0 <= j < |r.errors| ==>
      r.errors[j].index < |lines| && lines[r.errors[j].index] == r.errors[j].line
    ensures forall j, k :: 0 <= j < k < |r.errors| ==> r.errors[j].index < r.errors[k].index
    decreases |lines|
  {
    if |lines| == 0 then Run(s, [], [])
    else
      var n := |lines| - 1;
      var before := RunLines(step, s, lines[..n]);
      match step(before.state, lines[n])
      case Success(e) => Run(e.state, before.ops + e.ops, before.errors)
      case Failure(err) => Run(before.state, before.ops, before.errors + [LineError(n, lines[n], err)])
  }

  /** The lines of a run that did not fail, in order. */
  function Kept(step: LineStep, s: State, lines: seq<string>): (kept: seq<string>)
    ensures |kept| <= |lines|
    decreases |lines|
  {
    if |lines| == 0 then []
    else
      var n := |lines| - 1;
      var before := RunLines(step, s, lines[..n]);
      match step(before.state, lines[n])
      case Success(_) => Kept(step, s, lines[..n]) + [lines[n]]
      case Failure(_) => Kept(step, s, lines[..n])
  }

  /** Strict execution, stopping at the first failing line: the reference
      for a run in which every line succeeds. */
  function ExecuteAll(step: LineStep, s: State, lines: seq<string>): Result<Effect, Error>
    decreases |lines|
  {
    if |lines| == 0 then Success(Effect(s, []))
    else
      var n := |lines| - 1;
      var before :- ExecuteAll(step, s, lines[..n]);
      var e :- step(before.state, lines[n]);
      Success(Effect(e.state, before.ops + e.ops))
  }

  /** A line that succeeds extends the run by its state and drawing. */
  lemma RunAppendsEffect(step: LineStep, s: State, lines: seq<string>, line: string, e: Effect)
    requires step(RunLines(step, s, lines).state, line) == Success(e)
    ensures var r := RunLines(step, s, lines);
      RunLines(step, s, lines + [line]) == Run(e.state, r.ops + e.ops, r.errors)
  {
    PrefixOfSnoc(lines, line);
  }

  /** A line that fails is reported with its position and text, and neither
      the state nor the drawing moves. */
  lemma RunSkipsFailingLine(step: LineStep, s: State, lines: seq<string>, line: string, err: Error)
    requires step(RunLines(step, s, lines).state, line) == Failure(err)
    ensures var r := RunLines(step, s, lines);
      RunLines(step, s, lines + [line]) == Run(r.state, r.ops, r.errors + [LineError(|lines|, line, err)])
  {
    PrefixOfSnoc(lines, line);
  }

  /** Every line either fails and is reported, or is kept. */
  lemma {:induction false} KeptAndErrorsPartition(step: LineStep, s: State, lines: seq<string>)
    ensures |Kept(step, s, lines)| + |RunLines(step, s, lines).errors| == |lines|
    decreases |lines|
  {
    if |lines| > 0 {
      KeptAndErrorsPartition(step, s, lines[..|lines| - 1]);
    }
  }

  /** The last line adds at most one report, with its own index, after the
      reports of the lines before it. */
  lemma LastLineExtends(step: LineStep, s: State, lines: seq<string>)
    requires |lines| >= 1
    ensures var n := |lines| - 1;
      var before, r := RunLines(step, s, lines[..n]), RunLines(step, s, lines);
      && r.errors[..|before.errors|] == before.errors
      && (step(before.state, lines[n]).Success? <==> |r.errors| == |before.errors|)
      && (step(before.state, lines[n]).Failure? ==>
            r.errors == before.errors + [LineError(n, lines[n], step(before.state, lines[n]).error)])
  {
  }

  /** Line `i` is reported exactly when it fails in the state the lines before
      it left, and its report carries the error it failed with. */
  lemma {:induction false} ReportedIffFailed(step: LineStep, s: State, lines: seq<string>, i: nat)
    requires i < |lines|
    ensures var r := RunLines(step, s, lines);
      (exists j :: 0 <= j < |r.errors| && r.errors[j].index == i)
        <==> step(RunLines(step, s, lines[..i]).state, lines[i]).Failure?
    ensures var r := RunLines(step, s, lines);
      forall j :: 0 <= j < |r.errors| && r.errors[j].index == i ==>
        step(RunLines(step, s, lines[..i]).state, lines[i]) == Failure(r.errors[j].error)
    decreases |lines|
  {
    var n := |lines| - 1;
    var before := RunLines(step, s, lines[..n]);
    var r := RunLines(step, s, lines);
    LastLineExtends(step, s, lines);
    if i < n {
      ReportedIffFailed(step, s, lines[..n], i);
      assert lines[..n][..i] == lines[..i];
      assert lines[..n][i] == lines[i];
      if step(before.state, lines[n]).Failure? {
        assert r.errors[|before.errors|].index == n;
      }
      forall j | 0 <= j < |before.errors| && before.errors[j].index == i
        ensures r.errors[j].index == i
      {
      }
    } else {
      assert lines[..i] == lines[..n];
      if step(before.state, lines[n]).Failure? {
        assert r.errors[|before.errors|].index == n;
      }
    }
  }

  /** Skipping failures is the same as strictly executing only the lines that
      succeeded: the final state and the drawing agree. */
  lemma {:induction false} RunIsStrictOverKept(step: LineStep, s: State, lines: seq<string>)
    ensures var r := RunLines(step, s, lines);
      ExecuteAll(step, s, Kept(step, s, lines)) == Success(Effect(r.state, r.ops))
    decreases |lines|
  {
    if |lines| > 0 {
      var n := |lines| - 1;
      RunIsStrictOverKept(step, s, lines[..n]);
      var kept := Kept(step, s, lines[..n]);
      if step(RunLines(step, s, lines[..n]).state, lines[n]).Success? {
        assert (kept + [lines[n]])[..|kept|] == kept;
      }
    }
  }

  /** A run reports no failure exactly when strict execution succeeds, and
      then both end in the same state with the same drawing. */
  lemma {:induction false} NoErrorsIffStrict(step: LineStep, s: State, lines: seq<string>)
    ensures var r := RunLines(step, s, lines);
      (r.errors == [] <==> ExecuteAll(step, s, lines).Success?)
      && (r.errors == [] ==> ExecuteAll(step, s, lines) == Success(Effect(r.state, r.ops)))
    decreases |lines|
  {
    if |lines| > 0 {
      NoErrorsIffStrict(step, s, lines[..|lines| - 1]);
    }
  }

  /** Error indices shifted past `offset` lines. */
  function ShiftErrors(errors: seq<LineError>, offset: nat): (r: seq<LineError>)
    ensures |r| == |errors|
    ensures forall j :: 0 <= j < |r| ==>
      r[j] == LineError(errors[j].index + offset, errors[j].line, errors[j].error)
  {
    seq(|errors|, j requires 0 <= j < |errors| => LineError(errors[j].index + offset, errors[j].line, errors[j].error))
  }

  lemma ShiftErrorsAppend(errors: seq<LineError>, e: LineError, offset: nat)
    ensures ShiftErrors(errors + [e], offset)
         == ShiftErrors(errors, offset) + [LineError(e.index + offset, e.line, e.error)]
  {
  }

  /** One step of `RunConcat` for a line that succeeds. */
  lemma RunConcatSuccess(step: LineStep, s: State, a: seq<string>, b: seq<string>, line: string, e: Effect,
                         ra: Run, rb: Run)
    requires ra == RunLines(step, s, a) && rb == RunLines(step, ra.state, b)
    requires RunLines(step, s, a + b) == Run(rb.state, ra.ops + rb.ops, ra.errors + ShiftErrors(rb.errors, |a|))
    requires step(rb.state, line) == Success(e)
    ensures RunLines(step, s, a + (b + [line]))
         == Run(RunLines(step, ra.state, b + [line]).state, ra.ops + RunLines(step, ra.state, b + [line]).ops,
                ra.errors + ShiftErrors(RunLines(step, ra.state, b + [line]).errors, |a|))
  {
    AppendAssoc(a, b, [line]);
    RunAppendsEffect(step, s, a + b, line, e);
    RunAppendsEffect(step, ra.state, b, line, e);
    AppendAssoc(ra.ops, rb.ops, e.ops);
  }

  /** One step of `RunConcat` for a line that fails. */
  lemma RunConcatFailure(step: LineStep, s: State, a: seq<string>, b: seq<string>, line: string, err: Error,
                         ra: Run, rb: Run)
    requires ra == RunLines(step, s, a) && rb == RunLines(step, ra.state, b)
    requires RunLines(step, s, a + b) == Run(rb.state, ra.ops + rb.ops, ra.errors + ShiftErrors(rb.errors, |a|))
    requires step(rb.state, line) == Failure(err)
    ensures RunLines(step, s, a + (b + [line]))
         == Run(RunLines(step, ra.state, b + [line]).state, ra.ops + RunLines(step, ra.state, b + [line]).ops,
                ra.errors + ShiftErrors(RunLines(step, ra.state, b + [line]).errors, |a|))
  {
    AppendAssoc(a, b, [line]);
    RunSkipsFailingLine(step, s, a + b, line, err);
    RunSkipsFailingLine(step, ra.state, b, line, err);
    ShiftErrorsAppend(rb.errors, LineError(|b|, line, err), |a|);
    AppendAssoc(ra.errors, ShiftErrors(rb.errors, |a|), [LineError(|a| + |b|, line, err)]);
  }

  /** Running `a + b` is running `a`, then running `b` from where `a` ended. */
  lemma {:induction false} RunConcat(step: LineStep, s: State, a: seq<string>, b: seq<string>)
    ensures var ra := RunLines(step, s, a);
      var rb := RunLines(step, ra.state, b);
      RunLines(step, s, a + b) == Run(rb.state, ra.ops + rb.ops, ra.errors + ShiftErrors(rb.errors, |a|))
    decreases |b|
  {
    if |b| == 0 {
      assert a + b == a;
      assert ShiftErrors([], |a|) == [];
    } else {
      var n := |b| - 1;
      RunConcat(step, s, a, b[..n]);
      var ra := RunLines(step, s, a);
      var rb := RunLines(step, ra.state, b[..n]);
      assert b[..n] + [b[n]] == b;
      match step(rb.state, b[n])
      case Success(e) => RunConcatSuccess(step, s, a, b[..n], b[n], e, ra, rb);
      case Failure(err) => RunConcatFailure(step, s, a, b[..n], b[n], err, ra, rb);
    }
  }

  /** Without `pen` and `fill` lines, colour and fill survive a run. */
  lemma {:induction false} RunKeepsPenAndFill(panel: Panel, s: State, lines: seq<string>)
    requires forall i :: 0 <= i < |lines| ==>
      KeywordOf(Split(lines[i])[0]) != Some(Pen) && KeywordOf(Split(lines[i])[0]) != Some(Fill)
    ensures RunLines(Interpreter(panel), s, lines).state.pen == s.pen
    ensures RunLines(Interpreter(panel), s, lines).state.fill == s.fill
    decreases |lines|
  {
    if |lines| > 0 {
      RunKeepsPenAndFill(panel, s, lines[..|lines| - 1]);
    }
  }

  /** `ExecuteProgram`: one clear, the pen back at the origin with colour and
      fill carried over, then the lines of `textBox1` followed by those of
      `txtProgram`. */
  function ExecuteProgram(panel: Panel, s: State, textBox1: seq<string>, txtProgram: seq<string>): (r: Run)
    ensures |r.ops| >= 1 && r.ops[0] == ClearOp(White)
    ensures |r.errors| <= |textBox1| + |txtProgram|
  {
    var start := ResetPenPosition(ClearDrawingArea(s).state).state;
    var run := RunLines(Interpreter(panel), start, textBox1 + txtProgram);
    Run(run.state, ClearDrawingArea(s).ops + run.ops, run.errors)
  }

  /** The program runs from the origin with the previous colour and fill,
      the first box before the second. */
  lemma ProgramRunsInOrder(panel: Panel, s: State, textBox1: seq<string>, txtProgram: seq<string>)
    ensures var start := State(Origin, s.pen, s.fill);
      var r1 := RunLines(Interpreter(panel), start, textBox1);
      var r2 := RunLines(Interpreter(panel), r1.state, txtProgram);
      ExecuteProgram(panel, s, textBox1, txtProgram)
        == Run(r2.state, [ClearOp(White)] + r1.ops + r2.ops, r1.errors + ShiftErrors(r2.errors, |textBox1|))
  {
    RunConcat(Interpreter(panel), State(Origin, s.pen, s.fill), textBox1, txtProgram);
  }

  /** The program's result does not depend on where the pen was before. */
  lemma ProgramIgnoresOldPosition(panel: Panel, s: State, p: Point, textBox1: seq<string>, txtProgram: seq<string>)
    ensures ExecuteProgram(panel, s, textBox1, txtProgram) == ExecuteProgram(panel, s.(pos := p), textBox1, txtProgram)
  {
  }
}
