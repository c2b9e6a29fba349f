/**
 * The enhanced generator (`compute_fractal_lines` in golomb_enhanced.py):
 * each mark scales the branch by 1.2 (even mark) or 1.5 (odd mark), turns
 * it by `((mark % 3) - 1) * pi / 6`, and adds `mark / max(ruler)` to the
 * colour.
 */
module GolombEnhanced {
  import opened Fractal
  import Rulers

  /**
   * The per-mark step: `scale_factor = 1.2 + (mark % 2) * 0.3` and
   * `new_angle = angle + ((mark % 3) - 1) * (pi / 6)`. Python's `%` by a
   * positive divisor agrees with Dafny's.
   */
  function Branch(length: real, angle: real, mark: int): (st: Step)
    ensures st.length == length / (if mark % 2 == 0 then 1.2 else 1.5)
    ensures mark % 3 == 0 ==> st.angle == angle - Spread
    ensures mark % 3 == 1 ==> st.angle == angle
    ensures mark % 3 == 2 ==> st.angle == angle + Spread
  {
    var scale := 1.2 + (mark % 2) as real * 0.3;
    Step(length / scale, angle + ((mark % 3) - 1) as real * (Pi / 6.0))
  }

  /** `max(ruler)`: the largest mark. */
  function Max(ruler: seq<int>): (m: int)
    requires ruler != []
    ensures m in ruler
    ensures forall x :: x in ruler ==> x <= m
    decreases |ruler|
  {
    if |ruler| == 1 then ruler[0]
    else
      var rest := Max(ruler[1..]);
      assert ruler == [ruler[0]] + ruler[1..];
      if ruler[0] >= rest then ruler[0] else rest
  }

  /**
   * `((depth / max_depth) + (new_angle / (2 * pi)) + (mark / max(ruler))) % 1.0`,
   * or None where one of the two divisions is by zero (ZeroDivisionError).
   */
  function Color(depth: nat, maxDepth: int, angle: real, mark: int, top: int): (c: Option<real>)
    ensures c.None? <==> maxDepth == 0 || top == 0
    ensures c.Some? ==> 0.0 <= c.value < 1.0
    ensures c.Some? ==> IsWhole(depth as real / maxDepth as real + angle / (2.0 * Pi) + mark as real / top as real - c.value)
  {
    if maxDepth == 0 || top == 0 then None
    else Some(Frac(depth as real / maxDepth as real + angle / (2.0 * Pi) + mark as real / top as real))
  }

  /**
   * The value `max(ruler)` takes where the colour is computed. The colour is
   * only computed inside the mark loop, which an empty ruler never enters,
   * so the value chosen for it (0) is never consulted.
   */
  function Top(ruler: seq<int>): (t: int)
    ensures ruler == [] ==> t == 0
    ensures ruler != [] ==> t in ruler && forall x :: x in ruler ==> x <= t
  {
    if ruler == [] then 0 else Max(ruler)
  }

  /** The enhanced variant as a traversal scheme for a ruler and a `max_depth`. */
  function Rules(ruler: seq<int>, maxDepth: int, cos: real -> real, sin: real -> real): Scheme
  {
    Scheme(Marks(ruler), Branch, (d: nat, a: real, m: int) => Color(d, maxDepth, a, m, Top(ruler)), cos, sin)
  }

  /** The frame the traversal starts from. */
  function Root(start: (real, real), angle: real, length: real, depth: nat): Frame
  {
    Frame(start.0, start.1, angle, length, depth)
  }

  /** Mark 4 is even and leaves the direction unchanged: the step is `length / 1.2` along the same angle. */
  lemma MarkFourKeepsAngle(length: real, angle: real)
    ensures Branch(length, angle, 4) == Step(length / 1.2, angle)
  {
  }

  /**
   * Segment geometry of the enhanced variant: a segment runs from the popped
   * frame's origin `mark` steps of the mark's new length along the mark's new
   * angle; its two children start at that end point, at the new angle plus
   * and minus pi/6, with the new length and one level less depth.
   */
  lemma Geometry(ruler: seq<int>, maxDepth: int, cos: real -> real, sin: real -> real, f: Frame, mark: int)
    requires f.depth > 0
    ensures var s := Rules(ruler, maxDepth, cos, sin);
            var st := Branch(f.length, f.angle, mark);
            var e := Emit(s, f, mark);
            && e == Emission(f.x, f.y, f.x + st.length * cos(st.angle) * mark as real,
                             f.y + st.length * sin(st.angle) * mark as real, f.depth, st.angle, mark)
            && Children(s, f, mark) == [Frame(e.x2, e.y2, st.angle + Pi / 6.0, st.length, f.depth - 1),
                                        Frame(e.x2, e.y2, st.angle - Pi / 6.0, st.length, f.depth - 1)]
  {
  }

  /** For a ruler that starts at 0 and increases, with at least one mark after the 0, `max(ruler)` is positive. */
  lemma IncreasingRulerTopPositive(ruler: seq<int>)
    requires |ruler| >= 2 && ruler[0] == 0 && Rulers.StrictlyIncreasing(ruler)
    ensures Top(ruler) > 0
  {
    assert ruler[1] in ruler;
    assert ruler[0] < ruler[1];
  }

  /** Every table ruler has a positive largest mark, so for them only `max_depth == 0` can make the colour fail. */
  lemma TableRulerTopPositive(n: int)
    ensures Top(Rulers.SelectRuler(n)) > 0
  {
    Rulers.SelectedRulerIsGolomb(n);
    IncreasingRulerTopPositive(Rulers.SelectRuler(n));
  }

  /** The colour of every segment the enhanced variant produces is defined exactly when `max_depth != 0` and `max(ruler) != 0`. */
  lemma ColorsDefinedIff(ruler: seq<int>, maxDepth: int, cos: real -> real, sin: real -> real, root: Frame, n: nat)
    requires n <= |Out(Rules(ruler, maxDepth, cos, sin), root)|
    ensures ColorsDefined(Rules(ruler, maxDepth, cos, sin), Out(Rules(ruler, maxDepth, cos, sin), root), n)
            <==> (n == 0 || (maxDepth != 0 && Top(ruler) != 0))
  {
    var s := Rules(ruler, maxDepth, cos, sin);
    var es := Out(s, root);
    if n > 0 && (maxDepth == 0 || Top(ruler) == 0) {
      assert s.color(es[0].depth, es[0].angle, es[0].mark).None?;
    }
  }

  /**
   * `main` passes the chosen depth both as `depth` and as `max_depth` and a
   * ruler from the table, whose largest mark is positive, so neither division
   * is by zero: every row it would write has a colour.
   */
  lemma MainCallColorsDefined(n: int, depth: nat, maxLines: nat, cos: real -> real, sin: real -> real)
    ensures var s := Rules(Rulers.SelectRuler(n), depth, cos, sin);
            var es := Out(s, Root((0.0, 0.0), Pi / 2.0, 10.0, depth));
            ColorsDefined(s, es, Min(|es|, maxLines))
  {
    var ruler := Rulers.SelectRuler(n);
    var s := Rules(ruler, depth, cos, sin);
    var root := Root((0.0, 0.0), Pi / 2.0, 10.0, depth);
    var es := Out(s, root);
    OutEmpty(s, root);
    TableRulerTopPositive(n);
    ColorsDefinedIff(ruler, depth, cos, sin, root, Min(|es|, maxLines));
  }

  /**
   * `compute_fractal_lines` of the enhanced variant. It fails (the source
   * raises ZeroDivisionError) exactly when a segment is to be written while
   * `max_depth == 0` or `max(ruler) == 0`; otherwise the first
   * `min(|Out|, max_lines)` rows hold the traversal's segments in order, each
   * colour lies in [0, 1), and the remaining rows stay zero.
   */
  method ComputeFractalLines(start: (real, real), angle: real, length: real, depth: nat, ruler: seq<int>,
                             maxLines: nat, maxDepth: int, cos: real -> real, sin: real -> real)
    returns (ok: bool, axLines: array2<real>, colors: array<real>, lineCount: nat)
    ensures fresh(axLines) && fresh(colors)
    ensures axLines.Length0 == maxLines && axLines.Length1 == 4 && colors.Length == maxLines
    ensures ok <==> !(maxLines > 0 && depth > 0 && |ruler| > 1 && (maxDepth == 0 || Max(ruler) == 0))
    ensures ok ==> lineCount == Min(|Out(Rules(ruler, maxDepth, cos, sin), Root(start, angle, length, depth))|, maxLines)
    ensures ok ==> lineCount <= maxLines
    ensures ok && (depth == 0 || |ruler| <= 1) ==> lineCount == 0
    ensures ok ==> forall i :: 0 <= i < lineCount ==>
              RowHolds(Rules(ruler, maxDepth, cos, sin), axLines, colors, i, Out(Rules(ruler, maxDepth, cos, sin), Root(start, angle, length, depth))[i])
    ensures ok ==> forall i :: 0 <= i < lineCount ==> 0.0 <= colors[i] < 1.0
    ensures ok ==> Blank(axLines, colors, lineCount)
  {
    var s := Rules(ruler, maxDepth, cos, sin);
    var root := Root(start, angle, length, depth);
    ghost var expanded, pushed;
    ok, axLines, colors, lineCount, expanded, pushed := Generate(s, root, maxLines);
    ghost var es := Out(s, root);
    OutEmpty(s, root);
    ColorsDefinedIff(ruler, maxDepth, cos, sin, root, Min(|es|, maxLines));
    if ok {
      forall i | 0 <= i < lineCount
        ensures 0.0 <= colors[i] < 1.0
      {
        assert RowHolds(s, axLines, colors, i, es[i]);
      }
    }
  }

  /**
   * A worked run: the 5-mark ruler from the origin, pointing up, length 10,
   * depth 1, produces four segments; the second one is for mark 4, which
   * keeps the upward direction and steps `10 / 1.2` four times.
   */
  lemma MarkFourSegmentOfFiveMarkRuler(maxDepth: int, cos: real -> real, sin: real -> real)
    ensures var s := Rules([0, 1, 4, 9, 11], maxDepth, cos, sin);
            var es := Out(s, Frame(0.0, 0.0, Pi / 2.0, 10.0, 1));
            && |es| == 4
            && es[1] == Emission(0.0, 0.0, 10.0 / 1.2 * cos(Pi / 2.0) * 4.0, 10.0 / 1.2 * sin(Pi / 2.0) * 4.0, 1, Pi / 2.0, 4)
  {
    var s := Rules([0, 1, 4, 9, 11], maxDepth, cos, sin);
    var root := Frame(0.0, 0.0, Pi / 2.0, 10.0, 1);
    assert s.marks == [1, 4, 9, 11];
    LastLevelLength(s, root);
    var es := Out(s, root);
    OutStartsWithOwnSegments(s, root, 1);
    MarkFourKeepsAngle(10.0, Pi / 2.0);
    assert s.step(10.0, Pi / 2.0, 4) == Step(10.0 / 1.2, Pi / 2.0);
    assert es[1] == Emit(s, root, 4);
  }
}
