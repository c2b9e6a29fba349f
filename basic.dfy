/**
 * The basic generator (`compute_fractal_lines` in golomb_basic.py): every
 * mark scales the branch by 1 / 1.5 and keeps its direction, and the colour
 * blends the remaining depth with the branch angle.
 */
module GolombBasic {
  import opened Fractal

  /** The per-mark step: the length shrinks by 1.5 whatever the mark, the direction is kept. */
  function Branch(length: real, angle: real, mark: int): Step
  {
    Step(length / 1.5, angle)
  }

  /**
   * `((depth / max_depth) + (angle / (2 * pi))) % 1.0`, or None where
   * `max_depth == 0` makes the division raise ZeroDivisionError.
   */
  function Color(depth: nat, maxDepth: int, angle: real): (c: Option<real>)
    ensures c.None? <==> maxDepth == 0
    ensures c.Some? ==> 0.0 <= c.value < 1.0
    ensures c.Some? ==> IsWhole(depth as real / maxDepth as real + angle / (2.0 * Pi) - c.value)
  {
    if maxDepth == 0 then None else Some(Frac(depth as real / maxDepth as real + angle / (2.0 * Pi)))
  }

  /** The basic variant as a traversal scheme for a ruler and a `max_depth`. */
  function Rules(ruler: seq<int>, maxDepth: int, cos: real -> real, sin: real -> real): Scheme
  {
    Scheme(Marks(ruler), Branch, (d: nat, a: real, m: int) => Color(d, maxDepth, a), cos, sin)
  }

  /** The frame the traversal starts from. */
  function Root(start: (real, real), angle: real, length: real, depth: nat): Frame
  {
    Frame(start.0, start.1, angle, length, depth)
  }

  /**
   * Segment geometry of the basic variant: a segment starts at the popped
   * frame's origin and ends `mark` steps of `length / 1.5` along the frame's
   * own angle; its two children start at that end point, turned by +pi/6 and
   * -pi/6, with the shortened length and one level less depth.
   */
  lemma Geometry(ruler: seq<int>, maxDepth: int, cos: real -> real, sin: real -> real, f: Frame, mark: int)
    requires f.depth > 0
    ensures var s := Rules(ruler, maxDepth, cos, sin);
            var l := f.length / 1.5;
            var e := Emit(s, f, mark);
            && e == Emission(f.x, f.y, f.x + l * cos(f.angle) * mark as real, f.y + l * sin(f.angle) * mark as real,
                             f.depth, f.angle, mark)
            && Children(s, f, mark) == [Frame(e.x2, e.y2, f.angle + Pi / 6.0, l, f.depth - 1),
                                        Frame(e.x2, e.y2, f.angle - Pi / 6.0, l, f.depth - 1)]
  {
  }

  /** The scale does not depend on the mark: every mark of a frame steps by the same length in the same direction. */
  lemma ScaleIndependentOfMark(ruler: seq<int>, maxDepth: int, cos: real -> real, sin: real -> real, f: Frame, m1: int, m2: int)
    ensures var s := Rules(ruler, maxDepth, cos, sin);
            s.step(f.length, f.angle, m1) == s.step(f.length, f.angle, m2)
  {
  }

  /** The colour of every segment the basic variant produces is defined exactly when `max_depth != 0`. */
  lemma ColorsDefinedIff(ruler: seq<int>, maxDepth: int, cos: real -> real, sin: real -> real, root: Frame, n: nat)
    requires n <= |Out(Rules(ruler, maxDepth, cos, sin), root)|
    ensures ColorsDefined(Rules(ruler, maxDepth, cos, sin), Out(Rules(ruler, maxDepth, cos, sin), root), n) <==> (n == 0 || maxDepth != 0)
  {
    var s := Rules(ruler, maxDepth, cos, sin);
    var es := Out(s, root);
    if n > 0 && maxDepth == 0 {
      assert s.color(es[0].depth, es[0].angle, es[0].mark).None?;
    }
  }

  /**
   * `main` passes the chosen depth both as `depth` and as `max_depth`, so the
   * colour division is never by zero: every row it would write has a colour.
   */
  lemma MainCallColorsDefined(ruler: seq<int>, depth: nat, maxLines: nat, cos: real -> real, sin: real -> real)
    ensures var s := Rules(ruler, depth, cos, sin);
            var es := Out(s, Root((0.0, 0.0), Pi / 2.0, 10.0, depth));
            ColorsDefined(s, es, Min(|es|, maxLines))
  {
    var s := Rules(ruler, depth, cos, sin);
    var root := Root((0.0, 0.0), Pi / 2.0, 10.0, depth);
    var es := Out(s, root);
    OutEmpty(s, root);
    ColorsDefinedIff(ruler, depth, cos, sin, root, Min(|es|, maxLines));
  }

  /**
   * `compute_fractal_lines` of the basic variant. It fails (the source
   * raises ZeroDivisionError) exactly when a segment is to be written while
   * `max_depth == 0`; otherwise the first `min(|Out|, max_lines)` rows hold
   * the traversal's segments in order, each colour lies in [0, 1), and the
   * remaining rows stay zero.
   */
  method ComputeFractalLines(start: (real, real), angle: real, length: real, depth: nat, ruler: seq<int>,
                             maxLines: nat, maxDepth: int, cos: real -> real, sin: real -> real)
    returns (ok: bool, axLines: array2<real>, colors: array<real>, lineCount: nat)
    ensures fresh(axLines) && fresh(colors)
    ensures axLines.Length0 == maxLines && axLines.Length1 == 4 && colors.Length == maxLines
    ensures ok <==> !(maxDepth == 0 && maxLines > 0 && depth > 0 && |ruler| > 1)
    ensures ok ==> lineCount == Min(|Out(Rules(ruler, maxDepth, cos, sin), Root(start, angle, length, depth))|, maxLines)
    ensures ok ==> lineCount <= maxLines
    ensures ok && (depth == 0 || |ruler| <= 1) ==> lineCount == 0
    ensures ok ==> forall i :: 0 <= i < lineCount ==>
              RowHolds(Rules(ruler, maxDepth, cos, sin), axLines, colors, i, Out(Rules(ruler, maxDepth, cos, sin), Root(start, angle, length, depth))[i])
    ensures ok ==> forall i :: 0 <= i < lineCount ==> 0.0 <= colors[i] < 1.0
    ensures ok ==> Blank(axLines, colors, lineCount)
  {
    var s := Rules(ruler, maxDepth, cos, sin);
    var root := Root(start, angle, length, depth);
    ghost var expanded, pushed;
    ok, axLines, colors, lineCount, expanded, pushed := Generate(s, root, maxLines);
    ghost var es := Out(s, root);
    OutEmpty(s, root);
    ColorsDefinedIff(ruler, maxDepth, cos, sin, root, Min(|es|, maxLines));
    if ok {
      forall i | 0 <= i < lineCount
        ensures 0.0 <= colors[i] < 1.0
      {
        assert RowHolds(s, axLines, colors, i, es[i]);
      }
    }
  }

  /**
   * A worked run: the 5-mark ruler from the origin, pointing up, length 10,
   * depth 1, produces four segments, and the first one (mark 1) ends
   * `10 / 1.5` along the starting direction.
   */
  lemma FirstSegmentOfFiveMarkRuler(maxDepth: int, cos: real -> real, sin: real -> real)
    ensures var s := Rules([0, 1, 4, 9, 11], maxDepth, cos, sin);
            var es := Out(s, Frame(0.0, 0.0, Pi / 2.0, 10.0, 1));
            && |es| == 4
            && es[0] == Emission(0.0, 0.0, 10.0 / 1.5 * cos(Pi / 2.0), 10.0 / 1.5 * sin(Pi / 2.0), 1, Pi / 2.0, 1)
  {
    var s := Rules([0, 1, 4, 9, 11], maxDepth, cos, sin);
    var root := Frame(0.0, 0.0, Pi / 2.0, 10.0, 1);
    assert s.marks == [1, 4, 9, 11];
    LastLevelLength(s, root);
    var es := Out(s, root);
    OutStartsWithOwnSegments(s, root, 0);
    assert s.step(10.0, Pi / 2.0, 1) == Step(10.0 / 1.5, Pi / 2.0);
    assert es[0] == Emit(s, root, 1);
  }
}
