/** The drawing state the form keeps in its fields (`currentPosition`,
    `pen.Color`, `fillShape`), the errors a command can raise, and the
    drawing operations that stand for the calls on the panel's `Graphics`. */
module Drawing {

  datatype Point = Point(x: int, y: int)

  /** `PointF.Empty`. */
  const Origin: Point := Point(0, 0)

  /** A colour is kept as the name given to `Color.FromName`. */
  type ColorName = string

  const Black: ColorName := "Black"
  const White: ColorName := "White"

  datatype State = State(pos: Point, pen: ColorName, fill: bool)

  /** The state of a freshly created form. */
  const Initial: State := State(Origin, Black, false)

  /** Size of the drawing panel; the designer sets 800 by 450. */
  datatype Panel = Panel(width: int, height: int)

  const DesignerPanel: Panel := Panel(800, 450)

  /** One call on the panel's `Graphics`; `filled` chooses `Fill*` over `Draw*`. */
  datatype DrawOp =
    | ClearOp(background: ColorName)
    | RectangleOp(filled: bool, color: ColorName, x: int, y: int, width: int, height: int)
    | EllipseOp(filled: bool, color: ColorName, x: int, y: int, width: int, height: int)
    | PolygonOp(filled: bool, color: ColorName, points: seq<Point>)

  /** The exception a command throws. `index` names the token involved. */
  datatype Error =
    | UnknownCommand(line: string)  // ArgumentException "Invalid command"
    | BadPosition                   // ArgumentException from MoveTo
    | MissingArgument(index: nat)   // IndexOutOfRangeException
    | BadFormat(index: nat)         // FormatException
    | Overflow(index: nat)          // OverflowException

  /** What a successful command leaves behind. */
  datatype Effect = Effect(state: State, ops: seq<DrawOp>)
}
