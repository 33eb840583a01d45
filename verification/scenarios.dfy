/** Concrete runs: the behaviour the form's unit tests check, and three whole
    programs traced through the model as the code behaves. Lemmas about a
    literal line or program take it as a parameter pinned by `requires`: that
    keeps the literal out of the verifier's context until it is needed, which
    keeps each proof obligation small. */
module Scenarios {
  import opened Results
  import opened Tokens
  import opened Numbers
  import opened Drawing
  import opened Commands
  import opened CommandFacts
  import opened Runner
  import opened Seqs

  lemma TwoDigits(t: string, v: nat)
    requires |t| == 2 && IsDigit(t[0]) && IsDigit(t[1])
    requires v == DigitValue(t[0]) * 10 + DigitValue(t[1])
    ensures ParseNumber(t) == Some(v)
  {
    assert AllDigits(t);
    assert t[..1] == [t[0]];
    assert t[..1][..0] == "";
    assert DigitsValue(t[..1]) == DigitValue(t[0]);
  }

  lemma ThreeDigits(t: string, v: nat)
    requires |t| == 3 && IsDigit(t[0]) && IsDigit(t[1]) && IsDigit(t[2])
    requires v == DigitValue(t[0]) * 100 + DigitValue(t[1]) * 10 + DigitValue(t[2])
    ensures ParseNumber(t) == Some(v)
  {
    assert t[..2] == [t[0], t[1]];
    assert t[..2][..1] == [t[0]];
    assert t[..2][..1][..0] == "";
    assert DigitsValue(t[..2][..1]) == DigitValue(t[0]);
    assert DigitsValue(t[..2]) == DigitValue(t[0]) * 10 + DigitValue(t[1]);
  }

  /** `MoveTo` with tokens "100" and "200" puts the pen at (100, 200). */
  lemma MoveToHundredTwoHundred(s: State)
    ensures MoveTo(s, ["position", "100", "200"]) == Success(s.(pos := Point(100, 200)))
  {
    ThreeDigits("100", 100);
    ThreeDigits("200", 200);
  }

  /** `SetPenColor` with "Red" selects red. */
  lemma PenRed(s: State)
    ensures SetPenColor(s, ["pen", "Red"]) == Success(Effect(s.(pen := "Red"), []))
  {
  }

  /** `fill on` and, through lower-casing, `fill ON` both turn fill on. */
  lemma FillOn(s: State)
    ensures SetFillMode(s, ["fill", "on"]).value.state.fill
    ensures SetFillMode(s, ["fill", "ON"]).value.state.fill
    ensures !SetFillMode(s, ["fill", "off"]).value.state.fill
  {
  }

  /** `rectangle 50 100` drawn from (100, 100): fill stays off, and the pen
      ends at (50, 100), where the 50-by-100 rectangle is drawn. */
  lemma RectangleFiftyHundred(s: State)
    requires s == State(Point(100, 100), Black, false)
    ensures DrawRectangle(s, ["rectangle", "50", "100"])
         == Success(Effect(State(Point(50, 100), Black, false), [RectangleOp(false, Black, 50, 100, 50, 100)]))
  {
    TwoDigits("50", 50);
    ThreeDigits("100", 100);
  }

  /** `circle 30` alone: the radius parses, but `MoveTo` finds no second
      number and throws. */
  lemma CircleThirtyFails(s: State)
    ensures DrawCircle(s, ["circle", "30"]) == Failure(BadPosition)
  {
    TwoDigits("30", 30);
  }

  /** `draw 5`: the first coordinate parses, then `parts[2]` is out of range. */
  lemma DrawFiveMissing(s: State)
    ensures DrawTo(s, ["draw", "5"]) == Failure(MissingArgument(2))
  {
  }

  /** `rectangle 5`: the width parses, then `parts[2]` is out of range. */
  lemma RectangleFiveMissing(s: State)
    ensures DrawRectangle(s, ["rectangle", "5"]) == Failure(MissingArgument(2))
  {
  }

  /** `position +5 007`: a plus sign and leading zeros are read through. */
  lemma SignedPaddedPosition(s: State)
    ensures MoveTo(s, ["position", "+5", "007"]) == Success(s.(pos := Point(5, 7)))
  {
    SignAndZeros("5");
    SignAndZeros("07");
    SignAndZeros("7");
    assert "+5" == "+" + "5" && "007" == "0" + "07" && "07" == "0" + "7";
  }

  /** `ResetPenPosition` sends the pen home and keeps colour and fill. */
  lemma ResetGoesHome(s: State)
    ensures ResetPenPosition(s).state == State(Point(0, 0), s.pen, s.fill)
  {
  }

  lemma SplitPositionTen()
    ensures Split("position 10 10") == ["position", "10", "10"]
  {
    var parts := ["position", "10", "10"];
    assert Join(parts[2..]) == "10";
    assert Join(parts[1..]) == "10 10";
    assert Join(parts) == "position 10 10";
    SplitJoin(parts);
  }

  lemma SplitPenRed()
    ensures Split("pen Red") == ["pen", "Red"]
  {
    var parts := ["pen", "Red"];
    assert Join(parts[1..]) == "Red";
    assert Join(parts) == "pen Red";
    SplitJoin(parts);
  }

  lemma SplitFillOn()
    ensures Split("fill on") == ["fill", "on"]
  {
    var parts := ["fill", "on"];
    assert Join(parts[1..]) == "on";
    assert Join(parts) == "fill on";
    SplitJoin(parts);
  }

  lemma SplitRectangle()
    ensures Split("rectangle 20 30") == ["rectangle", "20", "30"]
  {
    var parts := ["rectangle", "20", "30"];
    assert Join(parts[2..]) == "30";
    assert Join(parts[1..]) == "20 30";
    assert Join(parts) == "rectangle 20 30";
    SplitJoin(parts);
  }

  lemma SplitTriangle()
    ensures Split("triangle") == ["triangle"]
  {
    assert Join(["triangle"]) == "triangle";
    SplitJoin(["triangle"]);
  }

  lemma SplitBogus()
    ensures Split("bogus 1 2") == ["bogus", "1", "2"]
  {
    var parts := ["bogus", "1", "2"];
    assert Join(parts[2..]) == "2";
    assert Join(parts[1..]) == "1 2";
    assert Join(parts) == "bogus 1 2";
    SplitJoin(parts);
  }

  lemma Keywords()
    ensures KeywordOf("position") == Some(Position)
    ensures KeywordOf("pen") == Some(Pen)
    ensures KeywordOf("fill") == Some(Fill)
    ensures KeywordOf("rectangle") == Some(Rectangle)
    ensures KeywordOf("triangle") == Some(Triangle)
    ensures KeywordOf("bogus") == None
  {
    assert Lower("position") == "position";
    assert Lower("pen") == "pen";
    assert Lower("fill") == "fill";
    assert Lower("rectangle") == "rectangle";
    assert Lower("triangle") == "triangle";
    assert Lower("bogus") == "bogus";
  }

  /** A line runs as the handler of its keyword on its tokens. */
  lemma Dispatched(panel: Panel, s: State, line: string, parts: seq<string>)
    requires Split(line) == parts
    ensures ParseAndExecuteCommand(panel, s, line) == Execute(panel, s, line, parts)
  {
  }

  lemma RectangleDispatch(panel: Panel, s: State, line: string, parts: seq<string>)
    requires |parts| >= 1 && KeywordOf(parts[0]) == Some(Rectangle)
    ensures Execute(panel, s, line, parts) == DrawRectangle(s, parts)
  {
  }

  lemma TriangleDispatch(panel: Panel, s: State, line: string, parts: seq<string>)
    requires |parts| >= 1 && KeywordOf(parts[0]) == Some(Triangle)
    ensures Execute(panel, s, line, parts) == DrawTriangle(panel, s)
  {
    HandledBy(panel, s, line, parts, Triangle);
  }

  lemma TenTen(s: State)
    ensures MoveTo(s, ["position", "10", "10"]) == Success(s.(pos := Point(10, 10)))
  {
    TwoDigits("10", 10);
  }

  lemma TwentyThirty(s: State)
    ensures DrawRectangle(s, ["rectangle", "20", "30"])
         == Success(Effect(s.(pos := Point(20, 30)), [RectangleOp(s.fill, s.pen, 20, 30, 20, 30)]))
  {
    TwoDigits("20", 20);
    TwoDigits("30", 30);
  }

  lemma PositionLineTen(s: State, line: string)
    requires line == "position 10 10"
    ensures ParseAndExecuteCommand(DesignerPanel, s, line) == Success(Effect(s.(pos := Point(10, 10)), []))
  {
    SplitPositionTen();
    Keywords();
    Dispatched(DesignerPanel, s, "position 10 10", ["position", "10", "10"]);
    TenTen(s);
  }

  lemma PenLineRed(s: State, line: string)
    requires line == "pen Red"
    ensures ParseAndExecuteCommand(DesignerPanel, s, line) == Success(Effect(s.(pen := "Red"), []))
  {
    SplitPenRed();
    Keywords();
    Dispatched(DesignerPanel, s, "pen Red", ["pen", "Red"]);
  }

  lemma FillLineOn(s: State, line: string)
    requires line == "fill on"
    ensures ParseAndExecuteCommand(DesignerPanel, s, line) == Success(Effect(s.(fill := true), []))
  {
    SplitFillOn();
    Keywords();
    FillLine(DesignerPanel, s, line);
  }

  lemma RectangleLineTwentyThirty(s: State, line: string)
    requires line == "rectangle 20 30"
    ensures ParseAndExecuteCommand(DesignerPanel, s, line)
         == Success(Effect(s.(pos := Point(20, 30)), [RectangleOp(s.fill, s.pen, 20, 30, 20, 30)]))
  {
    SplitRectangle();
    Keywords();
    Dispatched(DesignerPanel, s, "rectangle 20 30", ["rectangle", "20", "30"]);
    RectangleDispatch(DesignerPanel, s, "rectangle 20 30", ["rectangle", "20", "30"]);
    TwentyThirty(s);
  }

  lemma InitialTriangle(panel: Panel, s: State)
    requires panel == DesignerPanel && s == Initial
    ensures DrawTriangle(panel, s)
         == Success(Effect(State(Point(50, 0), Black, false), [PolygonOp(false, Black, [Point(50, 0), Point(100, 100), Point(0, 100)])]))
  {
    assert FitOffset(-50, 50, 800) == 50;
    assert FitOffset(0, 100, 450) == 0;
    assert Translate(TriangleVertices(Origin), 50, 0) == [Point(50, 0), Point(100, 100), Point(0, 100)];
  }

  lemma TriangleLine(panel: Panel, s: State, line: string)
    requires panel == DesignerPanel && s == Initial && line == "triangle"
    ensures ParseAndExecuteCommand(panel, s, line)
         == Success(Effect(State(Point(50, 0), Black, false), [PolygonOp(false, Black, [Point(50, 0), Point(100, 100), Point(0, 100)])]))
  {
    SplitTriangle();
    Keywords();
    Dispatched(panel, s, line, ["triangle"]);
    TriangleDispatch(panel, s, line, ["triangle"]);
    InitialTriangle(panel, s);
  }

  lemma BogusLine(panel: Panel, s: State, line: string)
    requires panel == DesignerPanel && s == Initial && line == "bogus 1 2"
    ensures ParseAndExecuteCommand(panel, s, line) == Failure(UnknownCommand(line))
  {
    SplitBogus();
    Keywords();
    Dispatched(panel, s, line, ["bogus", "1", "2"]);
  }

  /** A run of one line that succeeds is that line's effect. */
  lemma OneLine(panel: Panel, s: State, line: string, e: Effect)
    requires ParseAndExecuteCommand(panel, s, line) == Success(e)
    ensures RunLines(Interpreter(panel), s, [line]) == Run(e.state, e.ops, [])
  {
    assert [line][..0] == [];
  }

  /** A run of one line that fails is that line's report, nothing else. */
  lemma OneFailingLine(panel: Panel, s: State, line: string, err: Error)
    requires ParseAndExecuteCommand(panel, s, line) == Failure(err)
    ensures RunLines(Interpreter(panel), s, [line]) == Run(s, [], [LineError(0, line, err)])
  {
    assert [line][..0] == [];
  }

  /** A program run from the initial state is the run of its lines after one clear. */
  lemma ProgramFromInitial(panel: Panel, textBox1: seq<string>, txtProgram: seq<string>, r: Run)
    requires RunLines(Interpreter(panel), Initial, textBox1 + txtProgram) == r
    ensures ExecuteProgram(panel, Initial, textBox1, txtProgram) == Run(r.state, [ClearOp(White)] + r.ops, r.errors)
  {
    assert ResetPenPosition(ClearDrawingArea(Initial).state).state == Initial;
  }

  lemma ProgramOfOneBox(panel: Panel, txtProgram: seq<string>, r: Run)
    requires RunLines(Interpreter(panel), Initial, txtProgram) == r
    ensures ExecuteProgram(panel, Initial, [], txtProgram) == Run(r.state, [ClearOp(White)] + r.ops, r.errors)
  {
    EmptyAppend(txtProgram);
    ProgramFromInitial(panel, [], txtProgram, r);
  }

  lemma RectangleProgramFirst(a: string)
    requires a == "position 10 10"
    ensures RunLines(Interpreter(DesignerPanel), Initial, [a]) == Run(State(Point(10, 10), Black, false), [], [])
  {
    PositionLineTen(Initial, a);
    OneLine(DesignerPanel, Initial, a, Effect(State(Point(10, 10), Black, false), []));
  }

  lemma RectangleProgramSecond(a: string, b: string)
    requires a == "position 10 10" && b == "pen Red"
    ensures RunLines(Interpreter(DesignerPanel), Initial, [a, b]) == Run(State(Point(10, 10), "Red", false), [], [])
  {
    RectangleProgramFirst(a);
    PenLineRed(State(Point(10, 10), Black, false), b);
    RunAppendsEffect(Interpreter(DesignerPanel), Initial, [a], b, Effect(State(Point(10, 10), "Red", false), []));
    assert [a] + [b] == [a, b];
  }

  lemma RectangleProgramThird(a: string, b: string, c: string)
    requires a == "position 10 10" && b == "pen Red" && c == "fill on"
    ensures RunLines(Interpreter(DesignerPanel), Initial, [a, b, c]) == Run(State(Point(10, 10), "Red", true), [], [])
  {
    RectangleProgramSecond(a, b);
    FillLineOn(State(Point(10, 10), "Red", false), c);
    RunAppendsEffect(Interpreter(DesignerPanel), Initial, [a, b], c, Effect(State(Point(10, 10), "Red", true), []));
    assert [a, b] + [c] == [a, b, c];
  }

  lemma RectangleProgramLines(a: string, b: string, c: string, d: string)
    requires a == "position 10 10" && b == "pen Red" && c == "fill on" && d == "rectangle 20 30"
    ensures RunLines(Interpreter(DesignerPanel), Initial, [a, b, c, d])
         == Run(State(Point(20, 30), "Red", true), [RectangleOp(true, "Red", 20, 30, 20, 30)], [])
  {
    RectangleProgramThird(a, b, c);
    RectangleLineTwentyThirty(State(Point(10, 10), "Red", true), d);
    RunAppendsEffect(Interpreter(DesignerPanel), Initial, [a, b, c], d,
              Effect(State(Point(20, 30), "Red", true), [RectangleOp(true, "Red", 20, 30, 20, 30)]));
    assert [a, b, c] + [d] == [a, b, c, d];
  }

  /** position 10 10, pen Red, fill on, rectangle 20 30: the rectangle line
      moves the pen to (20, 30) and draws there, filled and red. */
  lemma FilledRectangleProgram(program: seq<string>)
    requires program == ["position 10 10", "pen Red", "fill on", "rectangle 20 30"]
    ensures ExecuteProgram(DesignerPanel, Initial, [], program)
         == Run(State(Point(20, 30), "Red", true),
                [ClearOp(White)] + [RectangleOp(true, "Red", 20, 30, 20, 30)],
                [])
  {
    RectangleProgramLines(program[0], program[1], program[2], program[3]);
    assert program == [program[0], program[1], program[2], program[3]];
    ProgramOfOneBox(DesignerPanel, program, Run(State(Point(20, 30), "Red", true), [RectangleOp(true, "Red", 20, 30, 20, 30)], []));
  }

  /** triangle from the start: the apex at the origin pokes out to the left,
      so the whole triangle shifts right by 50 and the pen follows the apex. */
  lemma TriangleProgram(textBox1: seq<string>)
    requires textBox1 == ["triangle"]
    ensures ExecuteProgram(DesignerPanel, Initial, textBox1, [])
         == Run(State(Point(50, 0), Black, false),
                [ClearOp(White), PolygonOp(false, Black, [Point(50, 0), Point(100, 100), Point(0, 100)])],
                [])
  {
    var tri := PolygonOp(false, Black, [Point(50, 0), Point(100, 100), Point(0, 100)]);
    var e := Effect(State(Point(50, 0), Black, false), [tri]);
    TriangleLine(DesignerPanel, Initial, textBox1[0]);
    OneLine(DesignerPanel, Initial, textBox1[0], e);
    assert textBox1 == [textBox1[0]];
    assert textBox1 + [] == textBox1;
    ProgramFromInitial(DesignerPanel, textBox1, [], Run(e.state, e.ops, []));
    assert [ClearOp(White)] + [tri] == [ClearOp(White), tri];
  }

  /** bogus 1 2: one unknown-command report naming the line, nothing drawn
      beyond the clear, and the state as it started. */
  lemma BogusProgram(txtProgram: seq<string>)
    requires txtProgram == ["bogus 1 2"]
    ensures ExecuteProgram(DesignerPanel, Initial, [], txtProgram)
         == Run(Initial, [ClearOp(White)], [LineError(0, "bogus 1 2", UnknownCommand("bogus 1 2"))])
  {
    var line := txtProgram[0];
    BogusLine(DesignerPanel, Initial, line);
    OneFailingLine(DesignerPanel, Initial, line, UnknownCommand(line));
    assert txtProgram == [line];
    ProgramOfOneBox(DesignerPanel, txtProgram, Run(Initial, [], [LineError(0, line, UnknownCommand(line))]));
    assert [ClearOp(White)] + [] == [ClearOp(White)];
  }
}
