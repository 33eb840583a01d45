/** Properties of whole command lines, stated through `ParseAndExecuteCommand`. */
module CommandFacts {
  import opened Results
  import opened Tokens
  import opened Numbers
  import opened Drawing
  import opened Commands
  import opened Seqs

  /** A line whose first token is a keyword runs that keyword's handler. */
  lemma HandledBy(panel: Panel, s: State, line: string, parts: seq<string>, k: Keyword)
    requires |parts| >= 1 && KeywordOf(parts[0]) == Some(k)
    ensures Execute(panel, s, line, parts) == Handle(panel, s, k, parts)
  {
  }

  /** The same, for a whole line. */
  lemma LineHandledBy(panel: Panel, s: State, line: string, k: Keyword)
    requires KeywordOf(Split(line)[0]) == Some(k)
    ensures ParseAndExecuteCommand(panel, s, line) == Handle(panel, s, k, Split(line))
  {
    HandledBy(panel, s, line, Split(line), k);
  }

  /** A line whose first token names no keyword is rejected with the whole
      line, and only such a line is rejected that way. */
  lemma UnknownKeywordRejected(panel: Panel, s: State, line: string)
    ensures ParseAndExecuteCommand(panel, s, line) == Failure(UnknownCommand(line))
        <==> forall k :: Lower(Split(line)[0]) != KeywordName(k)
  {
  }

  /** The empty line splits to one empty token, which is no keyword. */
  lemma EmptyLineRejected(panel: Panel, s: State)
    ensures ParseAndExecuteCommand(panel, s, "") == Failure(UnknownCommand(""))
  {
    assert Split("") == [""];
    assert Lower("") == "";
  }

  /** `position x y`: exactly (x, y) on success, `BadPosition` otherwise. */
  lemma PositionLine(panel: Panel, s: State, line: string)
    requires KeywordOf(Split(line)[0]) == Some(Position)
    ensures var parts, r := Split(line), ParseAndExecuteCommand(panel, s, line);
      && (r.Success? <==> |parts| >= 3 && IsNumeral(parts[1]) && IsNumeral(parts[2]))
      && (r.Failure? ==> r.error == BadPosition)
      && (r.Success? ==> r.value == Effect(State(Point(ParseNumber(parts[1]).value, ParseNumber(parts[2]).value), s.pen, s.fill), []))
  {
  }

  /** `MoveTo` reads only the two tokens after the keyword. */
  lemma MoveToIgnoresKeyword(s: State, p: seq<string>, q: seq<string>)
    requires |p| == |q| >= 1 && p[1..] == q[1..]
    ensures MoveTo(s, p) == MoveTo(s, q)
  {
    if |p| >= 3 {
      assert p[1] == p[1..][0] && q[1] == q[1..][0];
      assert p[2] == p[1..][1] && q[2] == q[1..][1];
    }
  }

  lemma PositionHandled(panel: Panel, s: State, parts: seq<string>)
    requires |parts| >= 1
    ensures Handle(panel, s, Position, parts)
         == if MoveTo(s, parts).Success? then Success(Effect(MoveTo(s, parts).value, [])) else Failure(BadPosition)
  {
  }

  lemma DrawHandled(panel: Panel, s: State, parts: seq<string>)
    requires |parts| >= 1
    ensures Handle(panel, s, Draw, parts) == DrawTo(s, parts)
  {
  }

  /** The `draw` and `position` handlers on tokens that differ only in the
      keyword agree whenever either succeeds. */
  lemma DrawTokensIsPosition(panel: Panel, s: State, dp: seq<string>, pp: seq<string>)
    requires |dp| == |pp| >= 1 && dp[1..] == pp[1..]
    ensures var d, p := Handle(panel, s, Draw, dp), Handle(panel, s, Position, pp);
      && (d.Success? <==> p.Success?)
      && (d.Success? ==> d == p)
  {
    DrawHandled(panel, s, dp);
    PositionHandled(panel, s, pp);
    MoveToIgnoresKeyword(s, dp, pp);
  }

  /** A `draw` line does what the `position` line with the same arguments
      does whenever either succeeds; they differ only in the error raised. */
  lemma DrawIsPosition(panel: Panel, s: State, drawLine: string, positionLine: string)
    requires KeywordOf(Split(drawLine)[0]) == Some(Draw)
    requires KeywordOf(Split(positionLine)[0]) == Some(Position)
    requires |Split(drawLine)| == |Split(positionLine)| && Split(drawLine)[1..] == Split(positionLine)[1..]
    ensures var d, p := ParseAndExecuteCommand(panel, s, drawLine), ParseAndExecuteCommand(panel, s, positionLine);
      && (d.Success? <==> p.Success?)
      && (d.Success? ==> d == p)
  {
    LineHandledBy(panel, s, drawLine, Draw);
    LineHandledBy(panel, s, positionLine, Position);
    DrawTokensIsPosition(panel, s, Split(drawLine), Split(positionLine));
  }

  /** `circle r` without a second number always fails, whatever `r` is. */
  lemma CircleNeedsTwoNumbers(panel: Panel, s: State, line: string)
    requires KeywordOf(Split(line)[0]) == Some(Circle)
    requires |Split(line)| < 3
    ensures ParseAndExecuteCommand(panel, s, line).Failure?
  {
  }

  /** A triangle whose bounding box already lies inside the panel is drawn
      where it is, and the pen stays put. */
  lemma TriangleInsideUnshifted(panel: Panel, s: State)
    requires 0 <= s.pos.x - 50 && s.pos.x + 50 <= panel.width
    requires 0 <= s.pos.y && s.pos.y + 100 <= panel.height
    ensures DrawTriangle(panel, s) == Success(Effect(s, [PolygonOp(s.fill, s.pen, TriangleVertices(s.pos))]))
  {
    assert Translate(TriangleVertices(s.pos), 0, 0) == TriangleVertices(s.pos);
  }

  predicate InPanel(panel: Panel, p: Point) {
    0 <= p.x <= panel.width && 0 <= p.y <= panel.height
  }

  /** An interval no longer than the limit lands inside [0, limit] once shifted. */
  lemma FitOffsetInside(lo: int, hi: int, limit: int)
    requires lo <= hi && hi - lo <= limit
    ensures 0 <= lo + FitOffset(lo, hi, limit) && hi + FitOffset(lo, hi, limit) <= limit
  {
  }

  /** The fitted vertices of a triangle lie inside a panel at least 100 by 100. */
  lemma FittedInside(panel: Panel, p: Point)
    requires panel.width >= 100 && panel.height >= 100
    ensures var pts := Translate(TriangleVertices(p),
                                 FitOffset(p.x - 50, p.x + 50, panel.width),
                                 FitOffset(p.y, p.y + 100, panel.height));
      |pts| == 3 && forall i :: 0 <= i < 3 ==> InPanel(panel, pts[i])
  {
    FitOffsetInside(p.x - 50, p.x + 50, panel.width);
    FitOffsetInside(p.y, p.y + 100, panel.height);
  }

  /** In a panel at least 100 by 100 the drawn triangle is fully visible:
      the shift brings every vertex inside, and the pen onto the apex. */
  lemma TriangleFitsPanel(panel: Panel, s: State)
    requires panel.width >= 100 && panel.height >= 100
    ensures var e := DrawTriangle(panel, s).value;
      && |e.ops| == 1 && e.ops[0].PolygonOp?
      && |e.ops[0].points| == 3
      && (forall i :: 0 <= i < 3 ==> InPanel(panel, e.ops[0].points[i]))
      && e.state.pos == e.ops[0].points[0]
  {
    FittedInside(panel, s.pos);
  }

  /** The triangle is the fixed shape from the apex wherever it is drawn. */
  lemma TriangleShape(panel: Panel, s: State)
    ensures var pts := DrawTriangle(panel, s).value.ops[0].points;
      && |pts| == 3
      && pts[1] == Point(pts[0].x + 50, pts[0].y + 100)
      && pts[2] == Point(pts[0].x - 50, pts[0].y + 100)
  {
  }

  /** Only a `pen` line changes the colour and only a `fill` line the fill. */
  lemma LineKeepsPenAndFill(panel: Panel, s: State, line: string)
    requires ParseAndExecuteCommand(panel, s, line).Success?
    ensures KeywordOf(Split(line)[0]) != Some(Pen) ==> ParseAndExecuteCommand(panel, s, line).value.state.pen == s.pen
    ensures KeywordOf(Split(line)[0]) != Some(Fill) ==> ParseAndExecuteCommand(panel, s, line).value.state.fill == s.fill
  {
  }

  /** The keyword is recognised in any letter case. */
  lemma KeywordIgnoresCase(token: string)
    ensures KeywordOf(token) == KeywordOf(Lower(token))
  {
    LowerIdempotent(token);
  }

  /** `reset` in any case, with any trailing tokens, sends the pen home and
      keeps colour and fill. */
  lemma ResetLine(panel: Panel, s: State, line: string)
    requires KeywordOf(Split(line)[0]) == Some(Reset)
    ensures ParseAndExecuteCommand(panel, s, line) == Success(Effect(State(Origin, s.pen, s.fill), []))
  {
  }

  /** `clear` paints the panel white and changes no state. */
  lemma ClearLine(panel: Panel, s: State, line: string)
    requires KeywordOf(Split(line)[0]) == Some(Clear)
    ensures ParseAndExecuteCommand(panel, s, line) == Success(Effect(s, [ClearOp(White)]))
  {
  }

  /** `pen c` takes the name as given; without it the line fails and nothing changes. */
  lemma PenLine(panel: Panel, s: State, line: string)
    requires KeywordOf(Split(line)[0]) == Some(Pen)
    ensures var parts, r := Split(line), ParseAndExecuteCommand(panel, s, line);
      && (|parts| < 2 <==> r == Failure(MissingArgument(1)))
      && (|parts| >= 2 ==> r == Success(Effect(State(s.pos, parts[1], s.fill), [])))
  {
  }

  /** `fill t` turns fill on exactly for "on" in any letter case, off for any
      other token, and fails without a token. */
  lemma FillLine(panel: Panel, s: State, line: string)
    requires KeywordOf(Split(line)[0]) == Some(Fill)
    ensures var parts, r := Split(line), ParseAndExecuteCommand(panel, s, line);
      && (|parts| < 2 <==> r == Failure(MissingArgument(1)))
      && (|parts| >= 2 ==> r == Success(Effect(State(s.pos, s.pen, parts[1] in {"on", "On", "oN", "ON"}), [])))
  {
  }

  /** `rectangle w h`: a missing, malformed or out-of-range size fails; on
      success the pen is at (w, h) and one w-by-h rectangle is drawn there. */
  lemma RectangleLine(panel: Panel, s: State, line: string)
    requires KeywordOf(Split(line)[0]) == Some(Rectangle)
    ensures var parts, r := Split(line), ParseAndExecuteCommand(panel, s, line);
      && (r.Success? <==> |parts| >= 3 && IsNumeral(parts[1]) && IsNumeral(parts[2])
                          && InInt32(ParseNumber(parts[1]).value) && InInt32(ParseNumber(parts[2]).value))
      && (r.Failure? ==> !r.error.BadPosition? && !r.error.UnknownCommand?)
      && (r.Success? ==>
            var w, h := ParseNumber(parts[1]).value, ParseNumber(parts[2]).value;
            r.value == Effect(State(Point(w, h), s.pen, s.fill), [RectangleOp(s.fill, s.pen, w, h, w, h)]))
  {
  }

  lemma CircleHandled(panel: Panel, s: State, parts: seq<string>)
    requires |parts| >= 1
    ensures Handle(panel, s, Circle, parts) == DrawCircle(s, parts)
  {
  }

  /** `DrawCircle` on the tokens: the outcome in terms of the numerals. */
  lemma CircleTokens(s: State, parts: seq<string>)
    ensures var r := DrawCircle(s, parts);
      && (r.Success? <==> |parts| >= 3 && IsNumeral(parts[1]) && IsNumeral(parts[2])
                          && InInt32(ParseNumber(parts[1]).value))
      && (r.Success? ==>
            var rad, y := ParseNumber(parts[1]).value, ParseNumber(parts[2]).value;
            r.value == Effect(State(Point(rad, y), s.pen, s.fill),
                              [EllipseOp(s.fill, s.pen, 0, y - rad, Wrap32(2 * rad), Wrap32(2 * rad))]))
  {
    var r := DrawCircle(s, parts);
    if r.Success? {
      assert r.value == Effect(r.value.state, r.value.ops);
    }
  }

  /** `circle r y`: the pen moves to (r, y) and the circle of radius r is
      drawn in the box from (0, y - r); the diameter wraps at 32 bits. */
  lemma CircleLine(panel: Panel, s: State, line: string)
    requires KeywordOf(Split(line)[0]) == Some(Circle)
    ensures var parts, r := Split(line), ParseAndExecuteCommand(panel, s, line);
      && (r.Success? <==> |parts| >= 3 && IsNumeral(parts[1]) && IsNumeral(parts[2])
                          && InInt32(ParseNumber(parts[1]).value))
      && (r.Success? ==>
            var rad, y := ParseNumber(parts[1]).value, ParseNumber(parts[2]).value;
            r.value == Effect(State(Point(rad, y), s.pen, s.fill),
                              [EllipseOp(s.fill, s.pen, 0, y - rad, Wrap32(2 * rad), Wrap32(2 * rad))]))
  {
    LineHandledBy(panel, s, line, Circle);
    CircleHandled(panel, s, Split(line));
    CircleTokens(s, Split(line));
  }
}
