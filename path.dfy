/**
 * Vector paths of the recursive converter (src/design-api.js): anchor points
 * become move/line/cubic/close commands, and a tokenised SVG path-data text
 * (the M/L/C/Z subset of section 8.3 of SVG 1.1, with their relative
 * lowercase forms and no implicit repetition) is read back into commands.
 * Numbers are exact reals on both sides: the four-decimal printing of the
 * emitted text is not modelled.
 */
module PathTranslator {
  import opened JsValues
  import opened DesignNode

  /** A path command over absolute coordinates; `CurveTo` lists control point 1, control point 2, end point. */
  datatype PathCommand<N> =
    | MoveTo(x: N, y: N)
    | LineTo(x: N, y: N)
    | CurveTo(c1x: N, c1y: N, c2x: N, c2y: N, x: N, y: N)
    | ClosePath

  /* ---------- convertPointsToSVGPath ---------- */

  /**
   * A control or anchor coordinate scaled by the frame size: an object's
   * `(x || 0) * width`, a matched `{x, y}` text's values times the size, and
   * `fallback` when the coordinate is absent or its text does not match.
   */
  function Resolve(c: Option<Coord>, width: real, height: real, fallback: Point2): Point2
  {
    match c
    case None => fallback
    case Some(CoordObject(x, y)) => Point2(Or(x, 0.0) * width, Or(y, 0.0) * height)
    case Some(CoordText(parsed)) =>
      if parsed.Some? then Point2(parsed.value.x * width, parsed.value.y * height) else fallback
  }

  /** The anchor of a point; (0, 0) when it has none. */
  function Anchor(pt: PathPoint, width: real, height: real): Point2
  {
    Resolve(pt.point, width, height, Point2(0.0, 0.0))
  }

  /** `(curveMode || 1) === 1`: the segment reaching this point is straight. */
  predicate Straight(pt: PathPoint)
  {
    Or(pt.curveMode, 1.0) == 1.0
  }

  /** `isClosed !== false`, with `None` for an absent argument. */
  predicate Closes(isClosed: Option<bool>)
  {
    isClosed != Some(false)
  }

  /**
   * `convertPointsToSVGPath`: one command per point, plus a closing one
   * unless `isClosed` is `false`. The first command moves to the first
   * anchor; each later point gives a line when its segment is straight and
   * otherwise a cubic whose first control point is the previous point's
   * `curveTo` and second is this point's `curveFrom`, both falling back to
   * this point's anchor. The emitted text, once tokenised, parses back to
   * the same commands.
   */
  method ConvertPointsToSVGPath(points: seq<PathPoint>, width: real, height: real, isClosed: Option<bool>)
    returns (cmds: seq<PathCommand<real>>)
    ensures points == [] ==> cmds == []
    ensures points != [] ==> |cmds| == |points| + (if Closes(isClosed) then 1 else 0)
    ensures points != [] ==>
      var a := Anchor(points[0], width, height); cmds[0] == MoveTo(a.x, a.y)
    ensures forall i :: 0 < i < |points| ==> (cmds[i].LineTo? <==> Straight(points[i]))
    ensures forall i :: 0 < i < |points| && Straight(points[i]) ==>
      var a := Anchor(points[i], width, height); cmds[i] == LineTo(a.x, a.y)
    ensures forall i :: 0 < i < |points| && !Straight(points[i]) ==>
      var a := Anchor(points[i], width, height);
      var c1 := Resolve(points[i - 1].curveTo, width, height, a);
      var c2 := Resolve(points[i].curveFrom, width, height, a);
      cmds[i] == CurveTo(c1.x, c1.y, c2.x, c2.y, a.x, a.y)
    ensures points != [] && Closes(isClosed) ==> cmds[|points|] == ClosePath
    ensures ParsePath(Tokens(cmds)) == Lift(cmds)
  {
    if points == [] {
      ParseTokens([], Start);
      return [];
    }
    cmds := [];
    var i := 0;
    while i < |points|
      invariant 0 <= i <= |points| && |cmds| == i
      invariant i > 0 ==> var a := Anchor(points[0], width, height); cmds[0] == MoveTo(a.x, a.y)
      invariant forall k :: 0 < k < i ==> (cmds[k].LineTo? <==> Straight(points[k]))
      invariant forall k :: 0 < k < i && Straight(points[k]) ==>
        var a := Anchor(points[k], width, height); cmds[k] == LineTo(a.x, a.y)
      invariant forall k :: 0 < k < i && !Straight(points[k]) ==>
        var a := Anchor(points[k], width, height);
        var c1 := Resolve(points[k - 1].curveTo, width, height, a);
        var c2 := Resolve(points[k].curveFrom, width, height, a);
        cmds[k] == CurveTo(c1.x, c1.y, c2.x, c2.y, a.x, a.y)
    {
      var pt := points[i];
      var p := Anchor(pt, width, height);
      var curveFrom := Resolve(pt.curveFrom, width, height, p);
      if i == 0 {
        cmds := cmds + [MoveTo(p.x, p.y)];
      } else {
        var prevCurveTo := Resolve(points[i - 1].curveTo, width, height, p);
        if Or(pt.curveMode, 1.0) == 1.0 {
          cmds := cmds + [LineTo(p.x, p.y)];
        } else {
          cmds := cmds + [CurveTo(prevCurveTo.x, prevCurveTo.y, curveFrom.x, curveFrom.y, p.x, p.y)];
        }
      }
      i := i + 1;
    }
    if isClosed != Some(false) {
      cmds := cmds + [ClosePath];
    }
    ParseTokens(cmds, Start);
  }

  /* ---------- tokens ---------- */

  /** One token of path-data text: a command letter or a number. */
  datatype Token = Letter(c: char) | Number(v: real)

  /** The tokens of one emitted command (absolute, upper case). */
  function CommandTokens(cmd: PathCommand<real>): seq<Token>
  {
    match cmd
    case MoveTo(x, y) => [Letter('M'), Number(x), Number(y)]
    case LineTo(x, y) => [Letter('L'), Number(x), Number(y)]
    case CurveTo(c1x, c1y, c2x, c2y, x, y) =>
      [Letter('C'), Number(c1x), Number(c1y), Number(c2x), Number(c2y), Number(x), Number(y)]
    case ClosePath => [Letter('Z')]
  }

  /** The tokens of the text `convertPointsToSVGPath` joins. */
  function Tokens(cmds: seq<PathCommand<real>>): seq<Token>
  {
    if cmds == [] then [] else CommandTokens(cmds[0]) + Tokens(cmds[1..])
  }

  /* ---------- parseSVGPathManually ---------- */

  /** A number as `parseFloat` yields it: `NaN` for a letter or a missing token. */
  datatype JsNumber = Finite(v: real) | NaN

  function Add(a: JsNumber, b: JsNumber): JsNumber
  {
    if a.Finite? && b.Finite? then Finite(a.v + b.v) else NaN
  }

  /** Current point and start of the current subpath. */
  datatype Cursor = Cursor(cx: JsNumber, cy: JsNumber, sx: JsNumber, sy: JsNumber)

  const Start := Cursor(Finite(0.0), Finite(0.0), Finite(0.0), Finite(0.0))

  /** `parseFloat(tokens[k])` */
  function Arg(t: seq<Token>, k: nat): JsNumber
  {
    if k < |t| && t[k].Number? then Finite(t[k].v) else NaN
  }

  /** The tokens after the first `n`; none when fewer remain. */
  function Drop(t: seq<Token>, n: nat): seq<Token>
  {
    if n <= |t| then t[n..] else []
  }

  /** A coordinate read after a command letter: relative forms add the current point. */
  function Offset(a: JsNumber, current: JsNumber, relative: bool): JsNumber
  {
    if relative then Add(a, current) else a
  }

  /** What one command reads: the commands it emits, the tokens it consumes, the cursor after it. */
  datatype Step = Step(out: seq<PathCommand<JsNumber>>, used: nat, next: Cursor)

  /**
   * The command at the head of a non-empty token sequence: M/L read two
   * numbers, C six, Z none and returns to the subpath start; any other
   * token is skipped on its own.
   */
  function StepAt(t: seq<Token>, cur: Cursor): (s: Step)
    requires t != []
    ensures s.used >= 1
  {
    if t[0] == Letter('M') || t[0] == Letter('m') then
      var rel := t[0] == Letter('m');
      var x := Offset(Arg(t, 1), cur.cx, rel);
      var y := Offset(Arg(t, 2), cur.cy, rel);
      Step([MoveTo(x, y)], 3, Cursor(x, y, x, y))
    else if t[0] == Letter('L') || t[0] == Letter('l') then
      var rel := t[0] == Letter('l');
      var x := Offset(Arg(t, 1), cur.cx, rel);
      var y := Offset(Arg(t, 2), cur.cy, rel);
      Step([LineTo(x, y)], 3, cur.(cx := x, cy := y))
    else if t[0] == Letter('C') || t[0] == Letter('c') then
      var rel := t[0] == Letter('c');
      var c1x := Offset(Arg(t, 1), cur.cx, rel);
      var c1y := Offset(Arg(t, 2), cur.cy, rel);
      var c2x := Offset(Arg(t, 3), cur.cx, rel);
      var c2y := Offset(Arg(t, 4), cur.cy, rel);
      var x := Offset(Arg(t, 5), cur.cx, rel);
      var y := Offset(Arg(t, 6), cur.cy, rel);
      Step([CurveTo(c1x, c1y, c2x, c2y, x, y)], 7, cur.(cx := x, cy := y))
    else if t[0] == Letter('Z') || t[0] == Letter('z') then
      Step([ClosePath], 1, Cursor(cur.sx, cur.sy, cur.sx, cur.sy))
    else
      Step([], 1, cur)
  }

  /** The commands a token sequence denotes, read from cursor `cur`. */
  function ParseFrom(t: seq<Token>, cur: Cursor): seq<PathCommand<JsNumber>>
    decreases |t|
  {
    if t == [] then []
    else
      var s := StepAt(t, cur);
      s.out + ParseFrom(Drop(t, s.used), s.next)
  }

  function ParsePath(t: seq<Token>): seq<PathCommand<JsNumber>>
  {
    ParseFrom(t, Start)
  }

  /**
   * `parseSVGPathManually`: a loop over the token index with the current
   * point and subpath start as state; it yields the commands `ParsePath`
   * denotes.
   */
  method ParseSVGPathManually(t: seq<Token>) returns (path: seq<PathCommand<JsNumber>>)
    ensures path == ParsePath(t)
  {
    path := [];
    var i := 0;
    var currentX, currentY := Finite(0.0), Finite(0.0);
    var startX, startY := Finite(0.0), Finite(0.0);
    while i < |t|
      invariant path + ParseFrom(Drop(t, i), Cursor(currentX, currentY, startX, startY)) == ParsePath(t)
      decreases |t| - i
    {
      ghost var rest := Drop(t, i);
      var cur := Cursor(currentX, currentY, startX, startY);
      ghost var before := path;
      var emitted, j, next := ReadCommand(t, i, cur);
      path := path + emitted;
      i := j;
      currentX, currentY, startX, startY := next.cx, next.cy, next.sx, next.sy;
      StepMatches(t, i, rest, cur, before, path, next);
    }
  }

  /**
   * One turn of the loop of `parseSVGPathManually`: the command letter at
   * `i`, then its arguments, each read at the next index (past the end, a
   * read gives `NaN`); relative forms add the current point. A token that
   * is not a known command letter is skipped.
   */
  method ReadCommand(t: seq<Token>, i: nat, cur: Cursor) returns (emitted: seq<PathCommand<JsNumber>>, j: nat, next: Cursor)
    requires i < |t|
    ensures j > i && Step(emitted, j - i, next) == StepAt(Drop(t, i), cur)
  {
    ghost var rest := Drop(t, i);
    assert rest != [] && rest[0] == t[i];
    ArgsAfter(t, i, rest);
    var cmd := t[i];
    j := i;
    if cmd == Letter('M') || cmd == Letter('m') {
      j := j + 1;
      var x := Arg(t, j);
      j := j + 1;
      var y := Arg(t, j);
      j := j + 1;
      if cmd == Letter('m') {
        x := Add(x, cur.cx);
        y := Add(y, cur.cy);
      }
      emitted := [MoveTo(x, y)];
      next := Cursor(x, y, x, y);
    } else if cmd == Letter('L') || cmd == Letter('l') {
      j := j + 1;
      var x := Arg(t, j);
      j := j + 1;
      var y := Arg(t, j);
      j := j + 1;
      if cmd == Letter('l') {
        x := Add(x, cur.cx);
        y := Add(y, cur.cy);
      }
      emitted := [LineTo(x, y)];
      next := cur.(cx := x, cy := y);
    } else if cmd == Letter('C') || cmd == Letter('c') {
      j := j + 1;
      var cp1x := Arg(t, j);
      j := j + 1;
      var cp1y := Arg(t, j);
      j := j + 1;
      var cp2x := Arg(t, j);
      j := j + 1;
      var cp2y := Arg(t, j);
      j := j + 1;
      var x := Arg(t, j);
      j := j + 1;
      var y := Arg(t, j);
      j := j + 1;
      if cmd == Letter('c') {
        cp1x := Add(cp1x, cur.cx);
        cp1y := Add(cp1y, cur.cy);
        cp2x := Add(cp2x, cur.cx);
        cp2y := Add(cp2y, cur.cy);
        x := Add(x, cur.cx);
        y := Add(y, cur.cy);
      }
      emitted := [CurveTo(cp1x, cp1y, cp2x, cp2y, x, y)];
      next := cur.(cx := x, cy := y);
    } else if cmd == Letter('Z') || cmd == Letter('z') {
      emitted := [ClosePath];
      next := Cursor(cur.sx, cur.sy, cur.sx, cur.sy);
      j := j + 1;
    } else {
      emitted := [];
      next := cur;
      j := j + 1;
    }
  }

  /** Whether the arguments of the command at the head of `rest` are those at positions after `i` of `t`. */
  lemma StepMatches(t: seq<Token>, i: nat, rest: seq<Token>, cur: Cursor,
                    before: seq<PathCommand<JsNumber>>, after: seq<PathCommand<JsNumber>>, next: Cursor)
    requires rest != [] && i >= StepAt(rest, cur).used
    requires rest == Drop(t, i - StepAt(rest, cur).used)
    requires after == before + StepAt(rest, cur).out && next == StepAt(rest, cur).next
    ensures after + ParseFrom(Drop(t, i), next) == before + ParseFrom(rest, cur)
  {
    var s := StepAt(rest, cur);
    DropDrop(t, i - s.used, s.used);
    var tail := ParseFrom(Drop(t, i), next);
    assert ParseFrom(rest, cur) == s.out + tail;
    Associative(before, s.out, tail);
  }

  lemma Associative<T>(a: seq<T>, b: seq<T>, c: seq<T>)
    ensures (a + b) + c == a + (b + c)
  {
  }

  /** The arguments read after position `j` of `t` are those after the head of `Drop(t, j)`. */
  lemma ArgsAfter(t: seq<Token>, j: nat, rest: seq<Token>)
    requires rest == Drop(t, j)
    ensures forall k :: 1 <= k <= 6 ==> Arg(rest, k) == Arg(t, j + k)
  {
  }

  lemma DropDrop(t: seq<Token>, a: nat, b: nat)
    ensures Drop(Drop(t, a), b) == Drop(t, a + b)
  {
    if a + b <= |t| {
      assert t[a..][b..] == t[a + b..];
    }
  }

  /* ---------- properties ---------- */

  function LiftCommand(cmd: PathCommand<real>): PathCommand<JsNumber>
  {
    match cmd
    case MoveTo(x, y) => MoveTo(Finite(x), Finite(y))
    case LineTo(x, y) => LineTo(Finite(x), Finite(y))
    case CurveTo(c1x, c1y, c2x, c2y, x, y) =>
      CurveTo(Finite(c1x), Finite(c1y), Finite(c2x), Finite(c2y), Finite(x), Finite(y))
    case ClosePath => ClosePath
  }

  /** The commands as `parseFloat`-level numbers. */
  function Lift(cmds: seq<PathCommand<real>>): (r: seq<PathCommand<JsNumber>>)
    ensures |r| == |cmds| && forall i :: 0 <= i < |cmds| ==> r[i] == LiftCommand(cmds[i])
  {
    if cmds == [] then [] else [LiftCommand(cmds[0])] + Lift(cmds[1..])
  }

  /** Absolute emitted commands parse back to themselves, from any cursor. */
  lemma {:induction false} ParseTokens(cmds: seq<PathCommand<real>>, cur: Cursor)
    ensures ParseFrom(Tokens(cmds), cur) == Lift(cmds)
    decreases |cmds|
  {
    if cmds != [] {
      var head := CommandTokens(cmds[0]);
      var t := Tokens(cmds);
      assert t == head + Tokens(cmds[1..]);
      HeadStep(cmds[0], Tokens(cmds[1..]), cur);
      assert Drop(t, |head|) == Tokens(cmds[1..]);
      ParseTokens(cmds[1..], After(cmds[0], cur));
      assert ParseFrom(t, cur) == [LiftCommand(cmds[0])] + ParseFrom(Tokens(cmds[1..]), After(cmds[0], cur));
    }
  }

  /** The cursor after an emitted absolute command has been read back. */
  function After(cmd: PathCommand<real>, cur: Cursor): Cursor
  {
    match cmd
    case MoveTo(x, y) => Cursor(Finite(x), Finite(y), Finite(x), Finite(y))
    case LineTo(x, y) => cur.(cx := Finite(x), cy := Finite(y))
    case CurveTo(_, _, _, _, x, y) => cur.(cx := Finite(x), cy := Finite(y))
    case ClosePath => Cursor(cur.sx, cur.sy, cur.sx, cur.sy)
  }

  /** An emitted command at the head of the tokens is read back whole, whatever follows it. */
  lemma HeadStep(cmd: PathCommand<real>, rest: seq<Token>, cur: Cursor)
    ensures StepAt(CommandTokens(cmd) + rest, cur) == Step([LiftCommand(cmd)], |CommandTokens(cmd)|, After(cmd, cur))
  {
    var t := CommandTokens(cmd) + rest;
    assert t[0] == CommandTokens(cmd)[0];
    match cmd
    case MoveTo(x, y) =>
      assert Arg(t, 1) == Finite(x) && Arg(t, 2) == Finite(y);
    case LineTo(x, y) =>
      assert Arg(t, 1) == Finite(x) && Arg(t, 2) == Finite(y);
    case CurveTo(c1x, c1y, c2x, c2y, x, y) =>
      assert Arg(t, 1) == Finite(c1x) && Arg(t, 2) == Finite(c1y);
      assert Arg(t, 3) == Finite(c2x) && Arg(t, 4) == Finite(c2y);
      assert Arg(t, 5) == Finite(x) && Arg(t, 6) == Finite(y);
    case ClosePath =>
  }

  /**
   * The same commands written in the relative lowercase forms, as offsets
   * from the current point `(cx, cy)`; `(sx, sy)` is the subpath start that
   * a close returns to.
   */
  function RelativeTokens(cmds: seq<PathCommand<real>>, cx: real, cy: real, sx: real, sy: real): seq<Token>
    decreases |cmds|
  {
    if cmds == [] then []
    else
      var c := cmds[0];
      RelativeCommand(c, cx, cy, sx, sy) +
      match c
      case MoveTo(x, y) => RelativeTokens(cmds[1..], x, y, x, y)
      case ClosePath => RelativeTokens(cmds[1..], sx, sy, sx, sy)
      case _ => RelativeTokens(cmds[1..], c.x, c.y, sx, sy)
  }

  /**
   * Lowercase commands add the current point and a close returns it to the
   * subpath start: the relative spelling of a path parses to the same
   * absolute commands as the absolute one.
   */
  lemma {:induction false} RelativeParse(cmds: seq<PathCommand<real>>, cx: real, cy: real, sx: real, sy: real)
    ensures ParseFrom(RelativeTokens(cmds, cx, cy, sx, sy), Cursor(Finite(cx), Finite(cy), Finite(sx), Finite(sy)))
         == Lift(cmds)
    decreases |cmds|
  {
    if cmds != [] {
      var t := RelativeTokens(cmds, cx, cy, sx, sy);
      var cur := Cursor(Finite(cx), Finite(cy), Finite(sx), Finite(sy));
      var c := cmds[0];
      var nx, ny, nsx, nsy :=
        if c.ClosePath? then sx else c.x, if c.ClosePath? then sy else c.y,
        if c.MoveTo? then c.x else sx, if c.MoveTo? then c.y else sy;
      var n := |CommandTokens(c)|;
      assert t == RelativeCommand(c, cx, cy, sx, sy) + RelativeTokens(cmds[1..], nx, ny, nsx, nsy);
      RelativeStep(c, cx, cy, sx, sy, t);
      assert Drop(t, n) == RelativeTokens(cmds[1..], nx, ny, nsx, nsy);
      RelativeParse(cmds[1..], nx, ny, nsx, nsy);
      assert ParseFrom(t, cur) == [LiftCommand(c)] + ParseFrom(Drop(t, n), StepAt(t, cur).next);
    }
  }

  /** The relative tokens of one command. */
  function RelativeCommand(c: PathCommand<real>, cx: real, cy: real, sx: real, sy: real): (t: seq<Token>)
    ensures |t| == |CommandTokens(c)|
  {
    match c
    case MoveTo(x, y) => [Letter('m'), Number(x - cx), Number(y - cy)]
    case LineTo(x, y) => [Letter('l'), Number(x - cx), Number(y - cy)]
    case CurveTo(c1x, c1y, c2x, c2y, x, y) =>
      [Letter('c'), Number(c1x - cx), Number(c1y - cy), Number(c2x - cx), Number(c2y - cy),
       Number(x - cx), Number(y - cy)]
    case ClosePath => [Letter('z')]
  }

  /** Reading one relative command restores its absolute coordinates and moves the cursor as the path does. */
  lemma RelativeStep(c: PathCommand<real>, cx: real, cy: real, sx: real, sy: real, t: seq<Token>)
    requires |t| >= |CommandTokens(c)| && t[..|CommandTokens(c)|] == RelativeCommand(c, cx, cy, sx, sy)
    ensures var s := StepAt(t, Cursor(Finite(cx), Finite(cy), Finite(sx), Finite(sy)));
      s.out == [LiftCommand(c)] && s.used == |CommandTokens(c)| &&
      s.next == (match c
        case MoveTo(x, y) => Cursor(Finite(x), Finite(y), Finite(x), Finite(y))
        case ClosePath => Cursor(Finite(sx), Finite(sy), Finite(sx), Finite(sy))
        case _ => Cursor(Finite(c.x), Finite(c.y), Finite(sx), Finite(sy)))
  {
    var n := |CommandTokens(c)|;
    assert forall k :: 0 <= k < n ==> t[k] == RelativeCommand(c, cx, cy, sx, sy)[k];
  }

  /**
   * Numbers with no command letter before them are skipped one by one: a
   * stray number run in front of a path changes nothing.
   */
  lemma {:induction false} StrayNumbersSkipped(vs: seq<real>, t: seq<Token>, cur: Cursor)
    ensures ParseFrom(NumberTokens(vs) + t, cur) == ParseFrom(t, cur)
    decreases |vs|
  {
    if vs != [] {
      var u := NumberTokens(vs) + t;
      assert u[0] == Number(vs[0]);
      assert u[1..] == NumberTokens(vs[1..]) + t;
      assert StepAt(u, cur) == Step([], 1, cur);
      assert Drop(u, 1) == NumberTokens(vs[1..]) + t;
      assert ParseFrom(u, cur) == ParseFrom(Drop(u, 1), cur);
      StrayNumbersSkipped(vs[1..], t, cur);
    } else {
      assert NumberTokens(vs) + t == t;
    }
  }

  function NumberTokens(vs: seq<real>): (t: seq<Token>)
    ensures |t| == |vs|
  {
    if vs == [] then [] else [Number(vs[0])] + NumberTokens(vs[1..])
  }

  /** A command letter with too few numbers after it reads `NaN` for the missing ones. */
  lemma TruncatedLine(x: real)
    ensures ParsePath([Letter('L'), Number(x)]) == [LineTo(Finite(x), NaN)]
  {
    var t := [Letter('L'), Number(x)];
    assert Arg(t, 1) == Finite(x) && Arg(t, 2) == NaN;
    assert StepAt(t, Start).out == [LineTo(Finite(x), NaN)];
    assert Drop(t, 3) == [];
    assert ParseFrom(t, Start) == StepAt(t, Start).out + ParseFrom([], StepAt(t, Start).next);
  }
}
