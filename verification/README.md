# Turtle-graphics command interpreter of the Part1Gagan drawing form

This is a Dafny model of the command interpreter in the main form of the
Part1Gagan WinForms application. A program is a list of text lines, for
example `position 10 10`, `pen Red`, `fill on` or `rectangle 20 30`. Each line
is split on single spaces. Its first token is lower-cased and selects one of
nine commands, which change the pen's position, colour or fill mode, or draw
on the panel. `ExecuteProgram` clears the panel and sends the pen to the
origin. It then runs the lines of both text boxes in order. A line that throws
is reported, and the run goes on with the next line.

What the model does:

- The form's mutable fields (`currentPosition`, `pen`, `fillShape`) become an immutable `Drawing.State`.
- Every handler is a pure function. It returns either an `Error`, standing for the exception the code throws, or an `Effect`: the new state and the drawing operations issued (`DrawOp`).
- Pen colours are kept as the name given. `Color.FromName` accepts any string, so every name is accepted.
- The panel size is a parameter. The designer's default, 800 by 450, is `Drawing.DesignerPanel`.
- The runner `Runner.RunLines` takes the line interpreter as a parameter (`LineStep`). Its properties hold for any interpreter. `Runner.Interpreter` plugs in `ParseAndExecuteCommand`.

Modules, one per concern:

- `Results`: the `Option` and `Result` types.
- `Seqs`: small sequence facts.
- `Tokens`: `string.Split(' ')` and ASCII `ToLower`.
- `Numbers`: numeral parsing and formatting, and 32-bit wrap-around.
- `Drawing`: state, panel, drawing operations and errors.
- `Commands`: the handlers and the dispatcher.
- `CommandFacts`: properties of whole command lines.
- `Runner`: `ExecuteProgram`.
- `Scenarios`: the form's unit tests and three whole programs.

Where a plain reading of the commands' intent and the code differ, the model
follows the code:

- An empty line is an unknown command. It splits into one empty token.
- `fill` turns fill on for "on" in any letter case, such as `fill ON`, and off for any other token.
- `rectangle w h` and `circle r y` call `MoveTo(parts)`. The pen therefore moves to (w, h), or to (r, y), before drawing there.
- `circle r` with no second number fails.
- `draw x y` moves the pen and strokes nothing.
- `triangle` shifts the shape into the panel and moves the pen to the shifted apex.
- A failing line never changes the state: every handler does all its parsing before it changes anything, and the drawing calls, which come after the pen moves, are taken never to throw (see "## Left out").

## Model

| member | source | states |
|---|---|---|
| Tokens.Split | Form1.cs:63 | `Split(' ')` yields one more part than there are spaces, and no part contains a space |
| Tokens.JoinSplit | Form1.cs:63 | joining the parts with single spaces gives back the line, so splitting loses nothing, empty tokens included |
| Tokens.SplitJoin | Form1.cs:63 | space-free tokens joined with single spaces split back into exactly those tokens |
| Tokens.Lower | Form1.cs:65 | lower-casing keeps the length, maps each capital A-Z to its small letter, and leaves every other character alone |
| Tokens.LowerIdempotent | Form1.cs:65 | lower-casing twice is lower-casing once |
| Commands.KeywordOf | Form1.cs:65-96 | a first token selects keyword k exactly when its lower-cased form is k's spelling in the `switch`; any other token selects none |
| Numbers.ParseNumber | Form1.cs:103 | a token parses exactly when it is an optionally signed string of decimal digits |
| Numbers.LeadingZero | Form1.cs:103 | a leading zero does not change the value of a digit string |
| Numbers.SignAndZeros | Form1.cs:103 | `+d` and `0d` read as `d`, and `-d` as its negation, so with the canonical round trip every numeral's value is fixed |
| Numbers.ParseFormat | Form1.cs:124 | the decimal text of a number parses back to that number, so the `ToString` hand-off in `DrawTo` is lossless |
| Numbers.FormatParse | Form1.cs:186 | a canonical numeral is the text of the number it parses to |
| Numbers.Wrap32 | Form1.cs:147-149 | the unchecked 32-bit result lies in the int range, is congruent to the exact value modulo 2^32, and equals it when it fits |
| Commands.FloatArg | Form1.cs:121-122 | `float.Parse(parts[i])` succeeds exactly when token i exists and is a numeral; otherwise it fails with a missing-argument error when the token is absent and a format error when it is not a number |
| Commands.IntArg | Form1.cs:129-130 | `int.Parse(parts[i])` succeeds exactly when token i is a numeral within the 32-bit range; an absent token is a missing-argument error, a token that is no numeral a format error, and an in-grammar numeral outside the range overflows |
| Commands.MoveTo | Form1.cs:100-111 | succeeds exactly when there are at least three tokens and the second and third are numbers; the pen moves to them and colour and fill are kept; any other input throws the position-format error |
| Commands.SetPenColor | Form1.cs:113-117 | with a second token, the pen takes that name and nothing else changes; without one, the line fails on index 1 |
| Commands.DrawTo | Form1.cs:119-125 | succeeds exactly when `MoveTo` on the same tokens would, and then has the same state and draws nothing; on failure the error is that of the first failing `float.Parse`, token 1 before token 2, so a missing token is a missing-argument error and a non-number a format error, never the position-format error |
| Commands.DrawRectangle | Form1.cs:127-138 | succeeds exactly when both sizes are 32-bit integers; the first failing parse decides the error; on success the pen is at (w, h) and one w-by-h rectangle is drawn there with the current colour and fill |
| Commands.DrawCircle | Form1.cs:140-150 | succeeds exactly when the radius is a 32-bit integer and a third numeric token follows; a radius that fails `int.Parse` gives that error, and otherwise a failure is the position-format error from `MoveTo`; on success the pen moves to (r, y), and one ellipse is drawn from (0, y - r) with the wrapped diameter 2r |
| Commands.MinOfIsLeast | Form1.cs:163-164 | `Min` returns an element that no element is below |
| Commands.MaxOfIsGreatest | Form1.cs:165-166 | `Max` returns an element that no element is above |
| Commands.BoxOfIsMinMax | Form1.cs:163-166 | the one-pass bounding box equals the four `Min`/`Max` projections |
| Commands.TriangleBounds | Form1.cs:155-166 | the triangle from p spans x from p.x - 50 to p.x + 50 and y from p.y to p.y + 100 |
| Commands.FittedTriangle | Form1.cs:168-183 | the vertices drawn are the triangle's, each moved by the same offset per axis; the offset is 0 when the box fits, and otherwise lifts a negative low end to 0 unless the high end overshoots, which then wins |
| Commands.MoveToPoint | Form1.cs:186 | moving to the `ToString` text of a point always succeeds and puts the pen exactly on that point |
| Commands.DrawTriangle | Form1.cs:152-193 | never fails; draws one polygon with the fitted vertices in the current colour and fill, and leaves the pen on the fitted apex |
| Commands.ClearDrawingArea | Form1.cs:196-199 | paints the panel white and changes no state |
| Commands.ResetPenPosition | Form1.cs:201-204 | the pen goes to the origin, colour and fill are kept, nothing is drawn |
| Commands.LowerIsOn | Form1.cs:208 | a token lower-cases to "on" exactly when it is on, On, oN or ON |
| Commands.SetFillMode | Form1.cs:206-209 | with a second token, fill is on exactly when that token is "on" in some letter case, and nothing else changes; without one, the line fails on index 1 |
| Commands.Handle | Form1.cs:66-94 | a keyword's handler never fails as an unknown command; only `pen` changes the colour, and only `fill` changes the fill |
| Commands.Execute | Form1.cs:65-97 | a line is rejected as unknown, with its own text, exactly when its first token is no keyword; otherwise colour and fill change only for `pen` and `fill` lines |
| Commands.ParseAndExecuteCommand | Form1.cs:61-98 | on the split line: rejected as an unknown command, quoting the line, exactly when the first token is no keyword |
| CommandFacts.UnknownKeywordRejected | Form1.cs:95-96 | a line fails with "Invalid command" and its own text exactly when its lower-cased first token matches none of the nine spellings |
| CommandFacts.EmptyLineRejected | Form1.cs:63-96 | the empty line is an invalid command |
| CommandFacts.PositionLine | Form1.cs:68-70 | a `position` line moves the pen exactly to its two numbers, keeps colour and fill and draws nothing; without two numbers it throws the position-format error |
| CommandFacts.MoveToIgnoresKeyword | Form1.cs:100-111 | `MoveTo` reads only the tokens after the first |
| CommandFacts.DrawTokensIsPosition | Form1.cs:119-125 | on the same arguments the `draw` and `position` handlers succeed together and then agree |
| CommandFacts.DrawIsPosition | Form1.cs:74-76 | a `draw` line and a `position` line with the same arguments succeed together and then have the same effect |
| CommandFacts.CircleNeedsTwoNumbers | Form1.cs:140-150 | a `circle` line with fewer than three tokens always fails |
| CommandFacts.TriangleInsideUnshifted | Form1.cs:169 | a triangle whose box lies inside the panel is drawn where it is, and the pen stays put |
| CommandFacts.FitOffsetInside | Form1.cs:172-176 | an interval no longer than the panel side lands inside it once shifted |
| CommandFacts.FittedInside | Form1.cs:168-183 | in a panel at least 100 by 100, all three shifted vertices lie inside the panel |
| CommandFacts.TriangleFitsPanel | Form1.cs:152-193 | in a panel at least 100 by 100, a `triangle` draws one three-point polygon that lies wholly inside the panel, with the pen on its first vertex |
| CommandFacts.TriangleShape | Form1.cs:155-160 | wherever it is drawn, the triangle is the apex plus (+50, +100) and (-50, +100) |
| CommandFacts.LineKeepsPenAndFill | Form1.cs:61-98 | a successful line that is not `pen` keeps the colour, and one that is not `fill` keeps the fill |
| CommandFacts.KeywordIgnoresCase | Form1.cs:65 | a token and its lower-cased form select the same keyword |
| CommandFacts.ResetLine | Form1.cs:89-91 | a `reset` line, in any case and with any trailing tokens, sends the pen home and keeps colour and fill |
| CommandFacts.ClearLine | Form1.cs:86-88 | a `clear` line paints the panel white and changes no state |
| CommandFacts.PenLine | Form1.cs:71-73 | a `pen` line fails exactly when it has no second token; otherwise the colour becomes that token |
| CommandFacts.FillLine | Form1.cs:92-94 | a `fill` line fails exactly when it has no second token; otherwise fill becomes "token is on in some letter case" |
| CommandFacts.RectangleLine | Form1.cs:77-79 | a `rectangle` line succeeds exactly when both sizes are 32-bit numerals, and then moves the pen to (w, h) and draws one w-by-h rectangle there |
| CommandFacts.CircleTokens | Form1.cs:140-150 | the circle handler's outcome, stated in terms of the numerals |
| CommandFacts.CircleLine | Form1.cs:80-82 | a `circle` line succeeds exactly when it carries a 32-bit radius and a second number, moves the pen to (r, y) and draws the circle in the box from (0, y - r) with a wrapped diameter |
| Runner.RunLines | Form1.cs:47-57 | at most one report per line; each report names a line that exists and quotes its text; reports come in line order |
| Runner.RunAppendsEffect | Form1.cs:49-52 | a line that succeeds extends the run by its state and its drawing |
| Runner.RunSkipsFailingLine | Form1.cs:53-56 | a line that throws is reported with its index and text, and neither state nor drawing moves |
| Runner.KeptAndErrorsPartition | Form1.cs:47-57 | the numbers of kept lines and of reported lines add up to the number of lines |
| Runner.LastLineExtends | Form1.cs:47-57 | the last line keeps the earlier reports in place and adds exactly one report, carrying its index, text and error, exactly when it fails |
| Runner.ReportedIffFailed | Form1.cs:49-56 | line i is reported exactly when it throws in the state the lines before it left, and its report carries that error |
| Runner.RunIsStrictOverKept | Form1.cs:47-57 | the run equals strict execution of exactly the lines that succeeded: same final state, same drawing |
| Runner.NoErrorsIffStrict | Form1.cs:47-57 | a run reports nothing exactly when strict, stop-at-first-failure execution succeeds, and then both agree |
| Runner.ShiftErrorsAppend | Form1.cs:47-57 | shifting report indices commutes with appending a report |
| Runner.RunConcatSuccess | Form1.cs:49-52 | running two line lists back to back extends by a succeeding line as a single run does |
| Runner.RunConcatFailure | Form1.cs:53-56 | running two line lists back to back extends by a failing line as a single run does |
| Runner.RunConcat | Form1.cs:43-47 | running a + b is running a, then b from where a ended, with b's report indices shifted by the length of a |
| Runner.RunKeepsPenAndFill | Form1.cs:47-57 | a program with no `pen` and no `fill` lines ends with the colour and fill it started with |
| Runner.ExecuteProgram | Form1.cs:38-58 | the drawing starts with one white clear; there are no more reports than lines |
| Runner.ProgramRunsInOrder | Form1.cs:38-58 | the program runs from the origin with the previous colour and fill, `textBox1`'s lines before `txtProgram`'s, and indices continue across the boxes |
| Runner.ProgramIgnoresOldPosition | Form1.cs:40-41 | the outcome of a program does not depend on where the pen was before it |
| Scenarios.MoveToHundredTwoHundred | UnitTest1.cs:20-30 | `MoveTo` with "100" and "200" puts the pen at (100, 200) |
| Scenarios.PenRed | UnitTest1.cs:33-43 | `SetPenColor` with "Red" selects Red |
| Scenarios.RectangleFiftyHundred | UnitTest1.cs:46-58 | `rectangle 50 100` from (100, 100) keeps fill off, moves the pen to (50, 100) and draws there |
| Scenarios.CircleThirtyFails | UnitTest1.cs:60-73 | `circle 30` throws the position-format error, so that test's call does not complete |
| Scenarios.DrawFiveMissing | Form1.cs:121-122 | `draw 5` parses the first coordinate, then fails with a missing-argument error on token 2 |
| Scenarios.RectangleFiveMissing | Form1.cs:129-130 | `rectangle 5` parses the width, then fails with a missing-argument error on token 2 |
| Scenarios.SignedPaddedPosition | Form1.cs:103-105 | `position +5 007` puts the pen at (5, 7) |
| Scenarios.ResetGoesHome | UnitTest1.cs:98-105 | `ResetPenPosition` puts the pen at (0, 0) |
| Scenarios.FillOn | UnitTest1.cs:108-118 | "on" and "ON" turn fill on and "off" turns it off |
| Scenarios.InitialTriangle | UnitTest1.cs:76-84 | a triangle from the fresh form in the 800 by 450 panel shifts right by 50, keeps fill off and leaves the pen at (50, 0) |
| Scenarios.OneLine | Form1.cs:47-57 | a one-line run of a succeeding line is that line's effect |
| Scenarios.OneFailingLine | Form1.cs:47-57 | a one-line run of a failing line is its report alone |
| Scenarios.ProgramFromInitial | Form1.cs:38-45 | from the fresh form, a program is one clear followed by the run of both boxes' lines |
| Scenarios.FilledRectangleProgram | Form1.cs:38-58 | position 10 10, pen Red, fill on, rectangle 20 30 draws one filled red rectangle at (20, 30) and leaves the pen there |
| Scenarios.TriangleProgram | Form1.cs:38-58 | a lone `triangle` draws the triangle shifted right by 50 and leaves the pen at (50, 0) |
| Scenarios.BogusProgram | Form1.cs:38-58 | `bogus 1 2` gives one unknown-command report quoting the line and draws nothing beyond the clear |

## Left out

- Saving and loading programs (Form1.cs:211-245): file dialogs and file I/O.
- Error dialogs (`MessageBox.Show`, Form1.cs:55): a failing line is recorded as a `LineError` instead.
- Rendering: GDI+ calls are recorded as `DrawOp` values, and pixels are not modelled.
- Colours: `Color.FromName` is not modelled, and a pen colour is the name as written. For an unknown name .NET returns a named colour with ARGB value 0, which is transparent and not `IsEmpty`; the model keeps the name only.
- Lower-casing: culture-dependent `ToLower` is modelled for ASCII capitals only.
- The panel size: `drawingPanel` is docked to fill the form (Form1.Designer.cs:47), so its size is a parameter of the model.
- Numbers.ParseNumber: accepts only an optional sign followed by decimal digits. The decimal point, exponents, surrounding white space, thousands separators, culture settings, "Infinity" and "NaN", which `float.TryParse` also accepts, are not modelled.
- Commands.MoveTo: coordinates are exact integers rather than single-precision floats. Rounding and float range are not modelled.
- Commands.FloatArg: has the same integer grammar as `ParseNumber`. Out-of-range input to `float.Parse` is not modelled: .NET Framework throws `OverflowException`, while .NET Core 3.0 and later return plus or minus infinity.
- Commands.IntArg: the leading and trailing white space that `int.Parse` accepts, and the culture-dependent sign symbols, are not modelled. The grammar of an optional sign and digits and the 32-bit range are.
- Commands.DrawTo: `x.ToString()` is modelled as exact decimal text. Float formatting, such as exponent notation for large values, and the precision it loses are not modelled.
- Commands.DrawTriangle: vertex arithmetic and offsets are exact integers, not floats, so rounding of large coordinates is not modelled.
- Runner.ExecuteProgram: its contract states only the first operation and the report bound. The full outcome is stated by Runner.ProgramRunsInOrder.
- Event handlers: `button1_Click` (Form1.cs:23-26) only calls `ExecuteProgram`; `button3_Click` and `button4_Click` (Form1.cs:28-36) call the load and save code left out above; `button2_Click`, wired at Form1.Designer.cs:71, is not defined in Form1.cs; the `TextChanged` handlers are empty.
- Text boxes: `ExecuteProgram` reads `textBox1` and `txtProgram` (Form1.cs:44-45), but the designer file declares only `programTextBox` (Form1.Designer.cs:36, 122). The two lists of lines are therefore parameters of `Runner.ExecuteProgram`.
- Drawing calls: the GDI+ calls are taken never to throw. In the code the pen moves before the call in `DrawRectangle` (Form1.cs:132, then 135 or 137), `DrawCircle` (144, then 147 or 149) and `DrawTriangle` (186, then 190 or 192); a call that threw, for example on extreme coordinates, would be reported at Form1.cs:53-56 with the pen already moved. The model does not cover that case.
