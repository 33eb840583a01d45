/** The command interpreter of the main form: one handler per keyword and the
    dispatcher `ParseAndExecuteCommand`. Each handler either fails, leaving
    the state untouched, or yields the new state and the drawing operations
    it issued. */
module Commands {
  import opened Results
  import opened Tokens
  import opened Numbers
  import opened Drawing

  datatype Keyword = Position | Pen | Draw | Rectangle | Circle | Triangle | Clear | Reset | Fill

  /** The lower-case spelling the dispatcher's `switch` compares against. */
  function KeywordName(k: Keyword): string {
    match k
    case Position => "position"
    case Pen => "pen"
    case Draw => "draw"
    case Rectangle => "rectangle"
    case Circle => "circle"
    case Triangle => "triangle"
    case Clear => "clear"
    case Reset => "reset"
    case Fill => "fill"
  }

  /** The keyword a first token selects, compared after lower-casing. */
  function KeywordOf(token: string): (r: Option<Keyword>)
    ensures forall k :: r == Some(k) <==> Lower(token) == KeywordName(k)
  {
    var w := Lower(token);
    if w == "position" then Some(Position)
    else if w == "pen" then Some(Pen)
    else if w == "draw" then Some(Draw)
    else if w == "rectangle" then Some(Rectangle)
    else if w == "circle" then Some(Circle)
    else if w == "triangle" then Some(Triangle)
    else if w == "clear" then Some(Clear)
    else if w == "reset" then Some(Reset)
    else if w == "fill" then Some(Fill)
    else None
  }

  /** `float.Parse(parts[i])`. */
  function FloatArg(parts: seq<string>, i: nat): (r: Result<int, Error>)
    ensures r.Success? <==> i < |parts| && IsNumeral(parts[i])
    ensures r.Success? ==> ParseNumber(parts[i]) == Some(r.value)
    ensures r.Failure? ==> (r.error.MissingArgument? <==> i >= |parts|)
    ensures r.Failure? ==> (r.error.MissingArgument? || r.error.BadFormat?) && r.error.index == i
  {
    if i >= |parts| then Failure(MissingArgument(i))
    else match ParseNumber(parts[i])
      case None => Failure(BadFormat(i))
      case Some(v) => Success(v)
  }

  /** `int.Parse(parts[i])`: a numeral outside the 32-bit range overflows. */
  function IntArg(parts: seq<string>, i: nat): (r: Result<int, Error>)
    ensures r.Success? <==> i < |parts| && IsNumeral(parts[i]) && InInt32(ParseNumber(parts[i]).value)
    ensures r.Success? ==> ParseNumber(parts[i]) == Some(r.value)
    ensures r.Failure? ==> !r.error.BadPosition? && !r.error.UnknownCommand? && r.error.index == i
    ensures r.Failure? ==> (r.error.MissingArgument? <==> i >= |parts|)
    ensures r.Failure? ==> (r.error.Overflow? <==> i < |parts| && IsNumeral(parts[i]))
  {
    var v :- FloatArg(parts, i);
    if InInt32(v) then Success(v) else Failure(Overflow(i))
  }

  /** `MoveTo`: needs two numeric tokens after the keyword and moves there. */
  function MoveTo(s: State, parts: seq<string>): (r: Result<State, Error>)
    ensures r.Success? <==> |parts| >= 3 && IsNumeral(parts[1]) && IsNumeral(parts[2])
    ensures r.Failure? ==> r.error == BadPosition
    ensures r.Success? ==> r.value.pen == s.pen && r.value.fill == s.fill
    ensures r.Success? ==> Some(r.value.pos.x) == ParseNumber(parts[1]) && Some(r.value.pos.y) == ParseNumber(parts[2])
  {
    if |parts| >= 3 && ParseNumber(parts[1]).Some? && ParseNumber(parts[2]).Some? then
      Success(s.(pos := Point(ParseNumber(parts[1]).value, ParseNumber(parts[2]).value)))
    else
      Failure(BadPosition)
  }

  /** `SetPenColor`: any name is accepted, as `Color.FromName` never throws. */
  function SetPenColor(s: State, parts: seq<string>): (r: Result<Effect, Error>)
    ensures r.Success? <==> |parts| >= 2
    ensures r.Failure? ==> r.error == MissingArgument(1)
    ensures r.Success? ==> r.value == Effect(State(s.pos, parts[1], s.fill), [])
  {
    if |parts| < 2 then Failure(MissingArgument(1))
    else Success(Effect(s.(pen := parts[1]), []))
  }

  /** `DrawTo`: parses both coordinates, then hands their `ToString` to
      `MoveTo`; it relocates the pen without stroking a line. */
  function DrawTo(s: State, parts: seq<string>): (r: Result<Effect, Error>)
    ensures r.Success? <==> MoveTo(s, parts).Success?
    ensures r.Success? ==> r.value == Effect(MoveTo(s, parts).value, [])
    ensures r.Failure? ==> !r.error.BadPosition? && !r.error.UnknownCommand? && (r.error.index == 1 || r.error.index == 2)
    ensures r.Failure? ==> r.error == (if FloatArg(parts, 1).Failure? then FloatArg(parts, 1) else FloatArg(parts, 2)).error
  {
    var x :- FloatArg(parts, 1);
    var y :- FloatArg(parts, 2);
    ParseFormat(x);
    ParseFormat(y);
    match MoveTo(s, ["position", FormatInt(x), FormatInt(y)])
    case Failure(e) => Failure(e)
    case Success(t) => Success(Effect(t, []))
  }

  /** `DrawRectangle`: both sizes must be 32-bit integers; the call to
      `MoveTo(parts)` then moves the pen to (width, height) before drawing. */
  function DrawRectangle(s: State, parts: seq<string>): (r: Result<Effect, Error>)
    ensures r.Success? <==> IntArg(parts, 1).Success? && IntArg(parts, 2).Success?
    ensures r.Failure? ==> r.error == (if IntArg(parts, 1).Failure? then IntArg(parts, 1) else IntArg(parts, 2)).error
    ensures r.Success? ==>
      var w, h := IntArg(parts, 1).value, IntArg(parts, 2).value;
      && r.value.state == State(Point(w, h), s.pen, s.fill)
      && r.value.ops == [RectangleOp(s.fill, s.pen, w, h, w, h)]
  {
    var width :- IntArg(parts, 1);
    var height :- IntArg(parts, 2);
    match MoveTo(s, parts)
    case Failure(e) => Failure(e)
    case Success(t) => Success(Effect(t, [RectangleOp(t.fill, t.pen, t.pos.x, t.pos.y, width, height)]))
  }

  /** `DrawCircle`: the radius must be a 32-bit integer and `MoveTo(parts)`
      must succeed, so a third numeric token is needed; the pen moves to
      (radius, y), so the bounding box always starts at x = 0. `radius * 2`
      is unchecked 32-bit arithmetic. */
  function DrawCircle(s: State, parts: seq<string>): (r: Result<Effect, Error>)
    ensures r.Success? <==> IntArg(parts, 1).Success? && |parts| >= 3 && IsNumeral(parts[2])
    ensures r.Failure? && IntArg(parts, 1).Failure? ==> r.error == IntArg(parts, 1).error
    ensures r.Failure? && IntArg(parts, 1).Success? ==> r.error == BadPosition
    ensures r.Success? ==>
      var radius, y := IntArg(parts, 1).value, ParseNumber(parts[2]).value;
      && r.value.state == State(Point(radius, y), s.pen, s.fill)
      && r.value.ops == [EllipseOp(s.fill, s.pen, 0, y - radius, Wrap32(2 * radius), Wrap32(2 * radius))]
  {
    var radius :- IntArg(parts, 1);
    var t :- MoveTo(s, parts);
    var diameter := Wrap32(radius * 2);
    Success(Effect(t, [EllipseOp(t.fill, t.pen, t.pos.x - radius, t.pos.y - radius, diameter, diameter)]))
  }

  /** The triangle drawn from position `p`: apex, lower right, lower left. */
  function TriangleVertices(p: Point): (pts: seq<Point>)
    ensures |pts| == 3 && pts[0] == p
  {
    [p, Point(p.x + 50, p.y + 100), Point(p.x - 50, p.y + 100)]
  }

  function Xs(pts: seq<Point>): (xs: seq<int>)
    ensures |xs| == |pts|
    ensures forall i :: 0 <= i < |pts| ==> xs[i] == pts[i].x
  {
    seq(|pts|, i requires 0 <= i < |pts| => pts[i].x)
  }

  function Ys(pts: seq<Point>): (ys: seq<int>)
    ensures |ys| == |pts|
    ensures forall i :: 0 <= i < |pts| ==> ys[i] == pts[i].y
  {
    seq(|pts|, i requires 0 <= i < |pts| => pts[i].y)
  }

  /** `Enumerable.Min`. */
  function MinOf(xs: seq<int>): int
    requires |xs| >= 1
    decreases |xs|
  {
    if |xs| == 1 then xs[0]
    else
      var m := MinOf(xs[1..]);
      if xs[0] <= m then xs[0] else m
  }

  /** `Enumerable.Max`. */
  function MaxOf(xs: seq<int>): int
    requires |xs| >= 1
    decreases |xs|
  {
    if |xs| == 1 then xs[0]
    else
      var m := MaxOf(xs[1..]);
      if xs[0] >= m then xs[0] else m
  }

  /** `MinOf` is an element of the sequence and no element is below it. */
  lemma {:induction false} MinOfIsLeast(xs: seq<int>)
    requires |xs| >= 1
    ensures MinOf(xs) in xs
    ensures forall i :: 0 <= i < |xs| ==> MinOf(xs) <= xs[i]
    decreases |xs|
  {
    if |xs| > 1 {
      MinOfIsLeast(xs[1..]);
      assert forall i :: 1 <= i < |xs| ==> xs[i] == xs[1..][i - 1];
    }
  }

  /** `MaxOf` is an element of the sequence and no element is above it. */
  lemma {:induction false} MaxOfIsGreatest(xs: seq<int>)
    requires |xs| >= 1
    ensures MaxOf(xs) in xs
    ensures forall i :: 0 <= i < |xs| ==> xs[i] <= MaxOf(xs)
    decreases |xs|
  {
    if |xs| > 1 {
      MaxOfIsGreatest(xs[1..]);
      assert forall i :: 1 <= i < |xs| ==> xs[i] == xs[1..][i - 1];
    }
  }

  /** The shift along one axis that brings [lo, hi] into [0, limit]: a
      negative low end is lifted to 0, but an overshooting high end wins. */
  function FitOffset(lo: int, hi: int, limit: int): int {
    var offset := if lo < 0 then -lo else 0;
    if hi > limit then limit - hi else offset
  }

  /** Every point moved by (dx, dy). */
  function Translate(pts: seq<Point>, dx: int, dy: int): (r: seq<Point>)
    ensures |r| == |pts|
    ensures forall i :: 0 <= i < |pts| ==> r[i] == Point(pts[i].x + dx, pts[i].y + dy)
  {
    seq(|pts|, i requires 0 <= i < |pts| => Point(pts[i].x + dx, pts[i].y + dy))
  }

  /** A bounding box: the least and greatest X and Y of a point list. */
  datatype Box = Box(minX: int, maxX: int, minY: int, maxY: int)

  /** The bounding box of a non-empty point list, in one pass. */
  function BoxOf(pts: seq<Point>): Box
    requires |pts| >= 1
    decreases |pts|
  {
    if |pts| == 1 then Box(pts[0].x, pts[0].x, pts[0].y, pts[0].y)
    else
      var b := BoxOf(pts[1..]);
      Box(if pts[0].x <= b.minX then pts[0].x else b.minX,
          if pts[0].x >= b.maxX then pts[0].x else b.maxX,
          if pts[0].y <= b.minY then pts[0].y else b.minY,
          if pts[0].y >= b.maxY then pts[0].y else b.maxY)
  }

  /** `BoxOf` is what `Min(p => p.X)`, `Max(p => p.X)`, `Min(p => p.Y)` and
      `Max(p => p.Y)` return. */
  lemma {:induction false} BoxOfIsMinMax(pts: seq<Point>)
    requires |pts| >= 1
    ensures BoxOf(pts) == Box(MinOf(Xs(pts)), MaxOf(Xs(pts)), MinOf(Ys(pts)), MaxOf(Ys(pts)))
    decreases |pts|
  {
    if |pts| > 1 {
      BoxOfIsMinMax(pts[1..]);
      assert Xs(pts)[1..] == Xs(pts[1..]);
      assert Ys(pts)[1..] == Ys(pts[1..]);
    }
  }

  /** The bounding box of the triangle drawn from `p`. */
  lemma TriangleBounds(p: Point)
    ensures BoxOf(TriangleVertices(p)) == Box(p.x - 50, p.x + 50, p.y, p.y + 100)
  {
    var pts := TriangleVertices(p);
    assert pts[1..][1..] == [Point(p.x - 50, p.y + 100)];
    assert BoxOf(pts[1..][1..]) == Box(p.x - 50, p.x - 50, p.y + 100, p.y + 100);
    assert BoxOf(pts[1..]) == Box(p.x - 50, p.x + 50, p.y + 100, p.y + 100);
  }

  /** The vertices `DrawTriangle` hands to the panel: when the bounding box
      leaves [0, width] x [0, height], all three are shifted by one offset. */
  function FittedTriangle(panel: Panel, p: Point): (drawn: seq<Point>)
    ensures drawn == Translate(TriangleVertices(p),
                               FitOffset(p.x - 50, p.x + 50, panel.width),
                               FitOffset(p.y, p.y + 100, panel.height))
  {
    var points := TriangleVertices(p);
    var box := BoxOf(points);
    TriangleBounds(p);
    if box.minX < 0 || box.minY < 0 || box.maxX > panel.width || box.maxY > panel.height then
      Translate(points, FitOffset(box.minX, box.maxX, panel.width), FitOffset(box.minY, box.maxY, panel.height))
    else
      assert points == Translate(points, 0, 0);
      points
  }

  /** The `MoveTo` call on the apex's `ToString` text: the decimal round trip
      puts the pen exactly on the apex. */
  function MoveToPoint(s: State, p: Point): (r: Result<State, Error>)
    ensures r == Success(s.(pos := p))
  {
    ParseFormat(p.x);
    ParseFormat(p.y);
    MoveTo(s, ["position", FormatInt(p.x), FormatInt(p.y)])
  }

  /** `DrawTriangle`: draws the fixed triangle at the pen, fitted into the
      panel, and moves the pen to the apex actually drawn (through its
      `ToString`). It never fails. */
  function DrawTriangle(panel: Panel, s: State): (r: Result<Effect, Error>)
    ensures r.Success?
    ensures
      var p := s.pos;
      var dx := FitOffset(p.x - 50, p.x + 50, panel.width);
      var dy := FitOffset(p.y, p.y + 100, panel.height);
      && r.value.ops == [PolygonOp(s.fill, s.pen, Translate(TriangleVertices(p), dx, dy))]
      && r.value.state == State(Point(p.x + dx, p.y + dy), s.pen, s.fill)
  {
    var drawn := FittedTriangle(panel, s.pos);
    match MoveToPoint(s, drawn[0])
    case Failure(e) => Failure(e)
    case Success(t) => Success(Effect(t, [PolygonOp(t.fill, t.pen, drawn)]))
  }

  /** `ClearDrawingArea`: paints the panel white; the state is untouched. */
  function ClearDrawingArea(s: State): (r: Effect)
    ensures r.state == s && r.ops == [ClearOp(White)]
  {
    Effect(s, [ClearOp(White)])
  }

  /** `ResetPenPosition`: back to the origin, colour and fill kept. */
  function ResetPenPosition(s: State): (r: Effect)
    ensures r.state == State(Origin, s.pen, s.fill) && r.ops == []
  {
    Effect(s.(pos := Origin), [])
  }

  /** The four spellings that lower-case to "on". */
  lemma LowerIsOn(t: string)
    ensures Lower(t) == "on" <==> t in {"on", "On", "oN", "ON"}
  {
    if |t| == 2 {
      assert Lower(t) == [LowerChar(t[0]), LowerChar(t[1])];
      assert t == [t[0], t[1]];
    }
  }

  /** `SetFillMode`: fill is on exactly when the lower-cased token is "on". */
  function SetFillMode(s: State, parts: seq<string>): (r: Result<Effect, Error>)
    ensures r.Success? <==> |parts| >= 2
    ensures r.Failure? ==> r.error == MissingArgument(1)
    ensures r.Success? ==> r.value.ops == [] && r.value.state.pos == s.pos && r.value.state.pen == s.pen
    ensures r.Success? ==> (r.value.state.fill <==> parts[1] in {"on", "On", "oN", "ON"})
  {
    if |parts| < 2 then Failure(MissingArgument(1))
    else
      LowerIsOn(parts[1]);
      Success(Effect(s.(fill := Lower(parts[1]) == "on"), []))
  }

  /** The handler a keyword selects, run on the line's tokens. */
  function Handle(panel: Panel, s: State, k: Keyword, parts: seq<string>): (r: Result<Effect, Error>)
    requires |parts| >= 1
    ensures r.Failure? ==> !r.error.UnknownCommand?
    ensures r.Success? && k != Pen ==> r.value.state.pen == s.pen
    ensures r.Success? && k != Fill ==> r.value.state.fill == s.fill
  {
    match k
    case Position =>
      var t :- MoveTo(s, parts);
      Success(Effect(t, []))
    case Pen => SetPenColor(s, parts)
    case Draw => DrawTo(s, parts)
    case Rectangle => DrawRectangle(s, parts)
    case Circle => DrawCircle(s, parts)
    case Triangle => DrawTriangle(panel, s)
    case Clear => Success(ClearDrawingArea(s))
    case Reset => Success(ResetPenPosition(s))
    case Fill => SetFillMode(s, parts)
  }

  /** The `switch` over the lower-cased first token of an already split line;
      a token naming no keyword is rejected with the whole line. */
  function Execute(panel: Panel, s: State, line: string, parts: seq<string>): (r: Result<Effect, Error>)
    requires |parts| >= 1
    ensures r.Failure? && r.error.UnknownCommand? <==> KeywordOf(parts[0]).None?
    ensures r.Failure? && r.error.UnknownCommand? ==> r.error.line == line
    ensures r.Success? && KeywordOf(parts[0]) != Some(Pen) ==> r.value.state.pen == s.pen
    ensures r.Success? && KeywordOf(parts[0]) != Some(Fill) ==> r.value.state.fill == s.fill
  {
    match KeywordOf(parts[0])
    case None => Failure(UnknownCommand(line))
    case Some(k) => Handle(panel, s, k, parts)
  }

  /** `ParseAndExecuteCommand`: split the line on single spaces, then dispatch. */
  function ParseAndExecuteCommand(panel: Panel, s: State, line: string): (r: Result<Effect, Error>)
    ensures r.Failure? && r.error.UnknownCommand? <==> KeywordOf(Split(line)[0]).None?
    ensures r.Failure? && r.error.UnknownCommand? ==> r.error.line == line
  {
    Execute(panel, s, line, Split(line))
  }
}
