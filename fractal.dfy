/**
 * The depth-bounded explicit-stack traversal that both fractal generators
 * share (`compute_fractal_lines` in golomb_basic.py and golomb_enhanced.py).
 *
 * A variant is a `Scheme`: the ruler marks it iterates over, its per-mark
 * step rule (new length and the angle the branch is drawn along), its colour
 * rule, and the trigonometric functions, which are left uninterpreted.
 *
 * `Out` is the specification: the full sequence of segments the traversal
 * produces from one frame, in stack-pop order, with no capacity bound.
 * `Generate` is the imperative algorithm, proved to write exactly the first
 * `maxLines` rows of `Out` into its buffers.
 */
module Fractal {

  datatype Option<T> = None | Some(value: T)

  /** np.pi: the float64 value both generators use for the constant pi. */
  const Pi: real := 3.141592653589793

  /** The turn between a branch and each of its two children (pi / 6). */
  const Spread: real := Pi / 6.0

  /** One work-stack entry: a pending branch origin with its direction, length and remaining depth. */
  datatype Frame = Frame(x: real, y: real, angle: real, length: real, depth: nat)

  /** What a variant derives from a frame's length and angle and one ruler mark. */
  datatype Step = Step(length: real, angle: real)

  /**
   * One segment produced while expanding a frame for one mark, together with
   * the traversal state its colour is computed from.
   */
  datatype Emission = Emission(x1: real, y1: real, x2: real, y2: real, depth: nat, angle: real, mark: int)

  /**
   * A generator variant. `step(length, angle, mark)` gives the child length and
   * the propagation angle; `color(depth, angle, mark)` gives the colour value,
   * or None where the source's colour expression divides by zero.
   */
  datatype Scheme = Scheme(
    marks: seq<int>,
    step: (real, real, int) -> Step,
    color: (nat, real, int) -> Option<real>,
    cos: real -> real,
    sin: real -> real)

  function Min(a: int, b: int): int
  {
    if a <= b then a else b
  }

  /** `ruler[1:]`: every mark except the leading one (empty for a ruler of at most one mark). */
  function Marks(ruler: seq<int>): (ms: seq<int>)
    ensures |ms| == if |ruler| <= 1 then 0 else |ruler| - 1
    ensures forall j :: 0 <= j < |ms| ==> ms[j] == ruler[j + 1]
  {
    if |ruler| <= 1 then [] else ruler[1..]
  }

  /** `x - floor(x)`, the value of the float expression `x % 1.0` over the reals. */
  function Frac(x: real): (r: real)
    ensures 0.0 <= r < 1.0
    ensures IsWhole(x - r)
  {
    x - x.Floor as real
  }

  predicate IsWhole(x: real)
  {
    x == x.Floor as real
  }

  /** The segment of frame `f` for one mark: from the frame's origin, `mark` times the step along the step's angle. */
  function Emit(s: Scheme, f: Frame, mark: int): Emission
  {
    var st := s.step(f.length, f.angle, mark);
    var dx := st.length * s.cos(st.angle);
    var dy := st.length * s.sin(st.angle);
    Emission(f.x, f.y, f.x + dx * mark as real, f.y + dy * mark as real, f.depth, st.angle, mark)
  }

  /** The two frames pushed for one mark, in push order: turned by +pi/6 first, by -pi/6 on top. */
  function Children(s: Scheme, f: Frame, mark: int): (c: seq<Frame>)
    requires f.depth > 0
    ensures |c| == 2
    ensures c[0].depth == f.depth - 1 && c[1].depth == f.depth - 1
  {
    var st := s.step(f.length, f.angle, mark);
    var e := Emit(s, f, mark);
    [Frame(e.x2, e.y2, st.angle + Spread, st.length, f.depth - 1),
     Frame(e.x2, e.y2, st.angle - Spread, st.length, f.depth - 1)]
  }

  /** The segments frame `f` emits itself, one per mark of `ms`, in mark order. */
  function Emits(s: Scheme, f: Frame, ms: seq<int>): seq<Emission>
    decreases |ms|
  {
    if ms == [] then [] else [Emit(s, f, ms[0])] + Emits(s, f, ms[1..])
  }

  /**
   * What the children pushed for the marks `ms` produce once popped: the
   * children of the last mark come first, and of each pair the -pi/6 child
   * (pushed last) before the +pi/6 one.
   */
  function KidsOut(s: Scheme, f: Frame, ms: seq<int>): seq<Emission>
    requires f.depth > 0
    decreases f.depth, |ms|
  {
    if ms == [] then []
    else
      var c := Children(s, f, ms[0]);
      KidsOut(s, f, ms[1..]) + Out(s, c[1]) + Out(s, c[0])
  }

  /** Everything the traversal emits for frame `f` and the subtree below it, in write order. */
  function Out(s: Scheme, f: Frame): seq<Emission>
    decreases f.depth, |s.marks| + 1
  {
    if f.depth == 0 then [] else Emits(s, f, s.marks) + KidsOut(s, f, s.marks)
  }

  /** Everything the traversal emits while it empties `stack`, whose top is its last element. */
  function Drain(s: Scheme, stack: seq<Frame>): seq<Emission>
    decreases |stack|
  {
    if stack == [] then [] else Out(s, stack[|stack| - 1]) + Drain(s, stack[..|stack| - 1])
  }

  /** Frames that a subtree rooted at depth `d` puts through the stack, its root included, for `k` marks. */
  function Size(k: nat, d: nat): (n: nat)
    ensures n >= 1
  {
    if d == 0 then 1 else 1 + 2 * k * Size(k, d - 1)
  }

  /** Frames still to be popped while the stack holds `stack`; it drops by one at every pop. */
  function Weight(k: nat, stack: seq<Frame>): nat
    decreases |stack|
  {
    if stack == [] then 0 else Weight(k, stack[..|stack| - 1]) + Size(k, stack[|stack| - 1].depth)
  }

  /** Non-terminal frames in a subtree rooted at depth `d`, for `k` marks. */
  function Expansions(k: nat, d: nat): nat
  {
    if d == 0 then 0 else 1 + 2 * k * Expansions(k, d - 1)
  }

  // Properties of the specification

  lemma {:induction false} EmitsLength(s: Scheme, f: Frame, ms: seq<int>)
    ensures |Emits(s, f, ms)| == |ms|
    decreases |ms|
  {
    if ms != [] {
      EmitsLength(s, f, ms[1..]);
    }
  }

  /** A frame's own segments are one per mark, in mark order. */
  lemma {:induction false} EmitsAt(s: Scheme, f: Frame, ms: seq<int>, j: nat)
    requires j < |ms|
    ensures |Emits(s, f, ms)| == |ms| && Emits(s, f, ms)[j] == Emit(s, f, ms[j])
    decreases |ms|
  {
    EmitsLength(s, f, ms);
    if j > 0 {
      EmitsAt(s, f, ms[1..], j - 1);
    }
  }

  /** Every non-terminal frame adds exactly one segment per mark, so the output has `k * Expansions(k, depth)` segments. */
  lemma {:induction false} OutLength(s: Scheme, f: Frame)
    ensures |Out(s, f)| == |s.marks| * Expansions(|s.marks|, f.depth)
    decreases f.depth, 1, 0
  {
    if f.depth > 0 {
      var k := |s.marks|;
      var e := Expansions(k, f.depth - 1);
      EmitsLength(s, f, s.marks);
      KidsOutLength(s, f, s.marks);
      calc {
        |Out(s, f)|;
        k + k * (2 * (k * e));
        { assert k * (2 * (k * e)) == k * (2 * k * e); }
        k * (1 + 2 * k * e);
        k * Expansions(k, f.depth);
      }
    }
  }

  /** A frame one level above the leaves emits exactly one segment per mark. */
  lemma LastLevelLength(s: Scheme, f: Frame)
    requires f.depth == 1
    ensures |Out(s, f)| == |s.marks|
  {
    OutLength(s, f);
    assert Expansions(|s.marks|, f.depth) == 1;
  }

  lemma {:induction false} KidsOutLength(s: Scheme, f: Frame, ms: seq<int>)
    requires f.depth > 0
    ensures |KidsOut(s, f, ms)| == |ms| * (2 * (|s.marks| * Expansions(|s.marks|, f.depth - 1)))
    decreases f.depth, 0, |ms|
  {
    if ms != [] {
      var c := Children(s, f, ms[0]);
      KidsOutLength(s, f, ms[1..]);
      OutLength(s, c[0]);
      OutLength(s, c[1]);
      MulSucc(|ms| - 1, 2 * (|s.marks| * Expansions(|s.marks|, f.depth - 1)));
    }
  }

  lemma {:induction false} ExpansionsPositive(k: nat, d: nat)
    ensures d > 0 <==> Expansions(k, d) >= 1
  {
  }

  /** A frame produces nothing exactly when it is terminal or the ruler has no mark after the leading one. */
  lemma OutEmpty(s: Scheme, f: Frame)
    ensures Out(s, f) == [] <==> f.depth == 0 || s.marks == []
  {
    OutLength(s, f);
    ExpansionsPositive(|s.marks|, f.depth);
    var k, e := |s.marks|, Expansions(|s.marks|, f.depth);
    if f.depth > 0 && k > 0 {
      assert k * e >= k * 1;
    }
  }

  /**
   * A non-terminal frame writes its own segments first, one per mark in
   * ruler order, before anything from its children; in particular the first
   * segment is the one for the first mark after the leading 0.
   */
  lemma OutStartsWithOwnSegments(s: Scheme, f: Frame, j: nat)
    requires f.depth > 0 && j < |s.marks|
    ensures |Out(s, f)| > j && Out(s, f)[j] == Emit(s, f, s.marks[j])
  {
    EmitsAt(s, f, s.marks, j);
  }

  /**
   * Last-spawned-first-processed: the children of the LAST mark are drained
   * first, the -pi/6 child before the +pi/6 one, and the children of the
   * first mark come last.
   */
  lemma {:induction false} KidsOutLastFirst(s: Scheme, f: Frame, ms: seq<int>)
    requires f.depth > 0 && ms != []
    ensures var c := Children(s, f, ms[|ms| - 1]);
            KidsOut(s, f, ms) == Out(s, c[1]) + Out(s, c[0]) + KidsOut(s, f, ms[..|ms| - 1])
    decreases |ms|
  {
    var c := Children(s, f, ms[|ms| - 1]);
    var front := ms[..|ms| - 1];
    if |ms| == 1 {
      assert front == [];
      assert KidsOut(s, f, ms[1..]) == [];
    } else {
      var c0 := Children(s, f, ms[0]);
      var last := Out(s, c[1]) + Out(s, c[0]);
      var o1, o0 := Out(s, c0[1]), Out(s, c0[0]);
      KidsOutLastFirst(s, f, ms[1..]);
      assert ms[1..][|ms[1..]| - 1] == ms[|ms| - 1];
      assert ms[1..][..|ms[1..]| - 1] == front[1..];
      var middle := KidsOut(s, f, front[1..]);
      assert KidsOut(s, f, ms[1..]) == last + middle;
      assert front[0] == ms[0];
      assert KidsOut(s, f, front) == middle + o1 + o0;
      assert KidsOut(s, f, ms) == last + middle + o1 + o0;
      Regroup(last, middle, o1, o0);
    }
  }

  lemma Regroup<T>(a: seq<T>, b: seq<T>, c: seq<T>, d: seq<T>)
    ensures a + b + c + d == a + (b + c + d)
  {
  }

  /** Every segment in a frame's output comes from a non-terminal frame at or below it: depths lie in 1..depth. */
  lemma {:induction false} OutDepths(s: Scheme, f: Frame)
    ensures forall e :: e in Out(s, f) ==> 1 <= e.depth <= f.depth
    decreases f.depth, 1, 0
  {
    if f.depth > 0 {
      EmitsDepths(s, f, s.marks);
      KidsOutDepths(s, f, s.marks);
    }
  }

  lemma {:induction false} EmitsDepths(s: Scheme, f: Frame, ms: seq<int>)
    ensures forall e :: e in Emits(s, f, ms) ==> e.depth == f.depth
    decreases |ms|
  {
    if ms != [] {
      EmitsDepths(s, f, ms[1..]);
    }
  }

  lemma {:induction false} KidsOutDepths(s: Scheme, f: Frame, ms: seq<int>)
    requires f.depth > 0
    ensures forall e :: e in KidsOut(s, f, ms) ==> 1 <= e.depth < f.depth
    decreases f.depth, 0, |ms|
  {
    if ms != [] {
      var c := Children(s, f, ms[0]);
      KidsOutDepths(s, f, ms[1..]);
      OutDepths(s, c[0]);
      OutDepths(s, c[1]);
    }
  }

  /** The colour of every one of the first `n` emissions is defined. */
  ghost predicate ColorsDefined(s: Scheme, es: seq<Emission>, n: nat)
    requires n <= |es|
  {
    forall i :: 0 <= i < n ==> s.color(es[i].depth, es[i].angle, es[i].mark).Some?
  }

  /** Row `i` of the buffers holds emission `e`: its four coordinates and its colour. */
  ghost predicate RowHolds(s: Scheme, lines: array2<real>, colors: array<real>, i: nat, e: Emission)
    reads lines, colors
    requires lines.Length1 == 4 && i < lines.Length0 && i < colors.Length
  {
    && lines[i, 0] == e.x1 && lines[i, 1] == e.y1
    && lines[i, 2] == e.x2 && lines[i, 3] == e.y2
    && s.color(e.depth, e.angle, e.mark) == Some(colors[i])
  }

  /** Every row from `n` on still holds the zeros the buffers were allocated with. */
  ghost predicate Blank(lines: array2<real>, colors: array<real>, n: nat)
    reads lines, colors
    requires lines.Length1 == 4 && lines.Length0 == colors.Length
  {
    && (forall i, j :: n <= i < lines.Length0 && 0 <= j < 4 ==> lines[i, j] == 0.0)
    && (forall i :: n <= i < colors.Length ==> colors[i] == 0.0)
  }

  /** Stores one row; every other row is left as it was. */
  method WriteRow(lines: array2<real>, colors: array<real>, i: nat, x1: real, y1: real, x2: real, y2: real, c: real)
    requires lines.Length1 == 4 && i < lines.Length0 && i < colors.Length
    modifies lines, colors
    ensures lines[i, 0] == x1 && lines[i, 1] == y1 && lines[i, 2] == x2 && lines[i, 3] == y2
    ensures colors[i] == c
    ensures forall r, q :: 0 <= r < lines.Length0 && 0 <= q < 4 && r != i ==> lines[r, q] == old(lines[r, q])
    ensures forall r :: 0 <= r < colors.Length && r != i ==> colors[r] == old(colors[r])
  {
    lines[i, 0] := x1;
    lines[i, 1] := y1;
    lines[i, 2] := x2;
    lines[i, 3] := y2;
    colors[i] := c;
  }

  /**
   * What is still to be emitted while frame `f` is being expanded: its own
   * segments for the marks `ms` not yet visited, then the children of those
   * marks, then everything the current stack produces.
   */
  function Pending(s: Scheme, f: Frame, ms: seq<int>, stack: seq<Frame>): seq<Emission>
    requires f.depth > 0
  {
    Emits(s, f, ms) + KidsOut(s, f, ms) + Drain(s, stack)
  }

  lemma AppendAssoc<T>(a: seq<T>, b: seq<T>, c: seq<T>)
    ensures a + (b + c) == (a + b) + c
  {
  }

  lemma SplitLast<T>(a: seq<T>)
    requires a != []
    ensures a == a[..|a| - 1] + [a[|a| - 1]]
  {
  }

  lemma SliceNext<T>(a: seq<T>, j: nat)
    requires j < |a|
    ensures a[j..] != [] && a[j..][0] == a[j] && a[j..][1..] == a[j + 1..]
  {
  }

  lemma SliceEnds<T>(a: seq<T>)
    ensures a[0..] == a && a[|a|..] == []
  {
  }

  lemma ConsAt<T>(a: seq<T>, x: T, b: seq<T>)
    ensures |a + ([x] + b)| > |a| && (a + ([x] + b))[|a|] == x
  {
  }

  lemma RegroupPush<T>(x: T, a: seq<T>, b: seq<T>, o1: seq<T>, o0: seq<T>, d: seq<T>)
    ensures [x] + a + (b + o1 + o0) + d == [x] + (a + b + (o1 + (o0 + d)))
  {
  }

  /** LIFO: pushing `g` puts its whole output in front of what the stack below it produces. */
  lemma DrainPush(s: Scheme, stack: seq<Frame>, g: Frame)
    ensures Drain(s, stack + [g]) == Out(s, g) + Drain(s, stack)
  {
    assert (stack + [g])[..|stack|] == stack;
  }

  /** A terminal frame popped from the stack contributes nothing. */
  lemma PopTerminal(s: Scheme, rest: seq<Frame>, f: Frame)
    requires f.depth == 0
    ensures Drain(s, rest + [f]) == Drain(s, rest)
  {
    DrainPush(s, rest, f);
  }

  /** Popping the top frame of a non-terminal frame starts its expansion with every mark pending. */
  lemma PopExpand(s: Scheme, rest: seq<Frame>, f: Frame)
    requires f.depth > 0
    ensures Drain(s, rest + [f]) == Pending(s, f, s.marks, rest)
  {
    DrainPush(s, rest, f);
    AppendAssoc(Emits(s, f, s.marks), KidsOut(s, f, s.marks), Drain(s, rest));
  }

  /** With every mark visited, only the stack's own output is pending. */
  lemma PendingDone(s: Scheme, f: Frame, stack: seq<Frame>)
    requires f.depth > 0
    ensures Pending(s, f, [], stack) == Drain(s, stack)
  {
  }

  /** One mark of the expansion: emit its segment, then push its two children. */
  lemma PushStep(s: Scheme, f: Frame, ms: seq<int>, stack: seq<Frame>)
    requires f.depth > 0 && ms != []
    ensures Pending(s, f, ms, stack) == [Emit(s, f, ms[0])] + Pending(s, f, ms[1..], stack + Children(s, f, ms[0]))
  {
    var c := Children(s, f, ms[0]);
    DrainPush(s, stack, c[0]);
    assert stack + c == (stack + [c[0]]) + [c[1]];
    DrainPush(s, stack + [c[0]], c[1]);
    var a, b, d, o1, o0 := Emits(s, f, ms[1..]), KidsOut(s, f, ms[1..]), Drain(s, stack), Out(s, c[1]), Out(s, c[0]);
    RegroupPush(Emit(s, f, ms[0]), a, b, o1, o0, d);
  }

  lemma MulSucc(a: int, b: int)
    ensures a * b + b == (a + 1) * b && b * a + b == b * (a + 1)
  {
  }

  /** Popping the top frame removes its own weight. */
  lemma Weigh(k: nat, before: seq<Frame>, stack: seq<Frame>, f: Frame)
    requires before == stack + [f] && f.depth > 0
    ensures Weight(k, before) == Weight(k, stack) + k * (2 * Size(k, f.depth - 1)) + 1
  {
    assert before[..|stack|] == stack;
    calc {
      Weight(k, before);
      Weight(k, stack) + Size(k, f.depth);
      Weight(k, stack) + 1 + 2 * k * Size(k, f.depth - 1);
      { assert 2 * k * Size(k, f.depth - 1) == k * (2 * Size(k, f.depth - 1)); }
      Weight(k, stack) + k * (2 * Size(k, f.depth - 1)) + 1;
    }
  }

  /** Weight bookkeeping for one push of two children at depth `d - 1`. */
  lemma WeightPush(k: nat, stack: seq<Frame>, c: seq<Frame>, d: nat)
    requires |c| == 2 && c[0].depth == d && c[1].depth == d
    ensures Weight(k, stack + c) == Weight(k, stack) + 2 * Size(k, d)
  {
    assert (stack + c)[..|stack| + 1] == stack + [c[0]];
    assert (stack + [c[0]])[..|stack|] == stack;
  }

  /** The mark loop's weight bookkeeping: after `j + 1` pushes of two children the weight has grown by `j + 1` child pairs. */
  lemma WeightVisit(k: nat, w0: nat, before: seq<Frame>, c: seq<Frame>, d: nat, j: nat)
    requires |c| == 2 && c[0].depth == d && c[1].depth == d
    requires Weight(k, before) == w0 + j * (2 * Size(k, d))
    ensures Weight(k, before + c) == w0 + (j + 1) * (2 * Size(k, d))
  {
    WeightPush(k, before, c, d);
    MulSucc(j, 2 * Size(k, d));
  }

  /** The buffer invariant: the first `lineCount` rows hold the first emissions, the rest are zero. */
  ghost predicate Buffered(s: Scheme, lines: array2<real>, colors: array<real>, lineCount: nat, emitted: seq<Emission>, maxLines: nat)
    reads lines, colors
  {
    && lines.Length0 == maxLines && lines.Length1 == 4 && colors.Length == maxLines
    && lineCount == Min(|emitted|, maxLines)
    && ColorsDefined(s, emitted, lineCount)
    && (forall i :: 0 <= i < lineCount ==> RowHolds(s, lines, colors, i, emitted[i]))
    && Blank(lines, colors, lineCount)
  }

  /**
   * The capacity-guarded write of one segment: while `lineCount < maxLines`
   * the row and its colour are stored and the count goes up by one; once the
   * buffers are full nothing is written. Fails where the colour is undefined.
   */
  method Record(s: Scheme, lines: array2<real>, colors: array<real>, lineCount: nat, ghost emitted: seq<Emission>, maxLines: nat, e: Emission)
    returns (ok: bool, count: nat, ghost emitted': seq<Emission>)
    requires Buffered(s, lines, colors, lineCount, emitted, maxLines)
    modifies lines, colors
    ensures emitted' == emitted + [e]
    ensures ok <==> (lineCount < maxLines ==> s.color(e.depth, e.angle, e.mark).Some?)
    ensures ok ==> Buffered(s, lines, colors, count, emitted', maxLines)
    ensures !ok ==> count == lineCount == |emitted| < maxLines
  {
    emitted' := emitted + [e];
    count := lineCount;
    ok := true;
    if lineCount < maxLines {
      var c := s.color(e.depth, e.angle, e.mark);
      if c.None? {
        ok := false;
        return;
      }
      WriteRow(lines, colors, lineCount, e.x1, e.y1, e.x2, e.y2, c.value);
      count := lineCount + 1;
    }
  }

  /**
   * One iteration of the mark loop: the capacity-guarded write of the
   * segment for the first pending mark, then the push of its two children.
   */
  method VisitMark(s: Scheme, f: Frame, j: nat, lines: array2<real>, colors: array<real>, lineCount: nat,
                   ghost emitted: seq<Emission>, maxLines: nat, stack: seq<Frame>, ghost goal: seq<Emission>, ghost w0: nat)
    returns (ok: bool, count: nat, stack': seq<Frame>, ghost emitted': seq<Emission>)
    requires f.depth > 0 && j < |s.marks|
    requires Buffered(s, lines, colors, lineCount, emitted, maxLines)
    requires emitted + Pending(s, f, s.marks[j..], stack) == goal
    requires Weight(|s.marks|, stack) == w0 + j * (2 * Size(|s.marks|, f.depth - 1))
    modifies lines, colors
    ensures ok ==> Buffered(s, lines, colors, count, emitted', maxLines)
    ensures ok ==> emitted' + Pending(s, f, s.marks[j + 1..], stack') == goal
    ensures ok ==> |emitted'| == |emitted| + 1 && stack' == stack + Children(s, f, s.marks[j])
    ensures ok ==> Weight(|s.marks|, stack') == w0 + (j + 1) * (2 * Size(|s.marks|, f.depth - 1))
    ensures !ok ==> count < maxLines && count < |goal| && s.color(goal[count].depth, goal[count].angle, goal[count].mark).None?
    ensures !ok ==> ColorsDefined(s, goal, count)
  {
    SliceNext(s.marks, j);
    var mark := s.marks[j];
    var e := Emit(s, f, mark);
    var children := Children(s, f, mark);
    PushStep(s, f, s.marks[j..], stack);
    ghost var next := Pending(s, f, s.marks[j + 1..], stack + children);
    AppendAssoc(emitted, [e], next);
    ok, count, emitted' := Record(s, lines, colors, lineCount, emitted, maxLines, e);
    stack' := stack;
    if !ok {
      ConsAt(emitted, e, next);
      return;
    }
    stack' := stack + children;
    WeightVisit(|s.marks|, w0, stack, children, f.depth - 1, j);
  }

  /**
   * The mark loop of one non-terminal frame (`for mark in ruler[1:]`): it
   * visits every mark in order, so it emits `|s.marks|` segments and pushes
   * `2 * |s.marks|` frames.
   */
  method Expand(s: Scheme, f: Frame, lines: array2<real>, colors: array<real>, lineCount: nat, ghost emitted: seq<Emission>,
                maxLines: nat, stack: seq<Frame>, ghost goal: seq<Emission>)
    returns (ok: bool, count: nat, stack': seq<Frame>, ghost emitted': seq<Emission>)
    requires f.depth > 0
    requires Buffered(s, lines, colors, lineCount, emitted, maxLines)
    requires emitted + Pending(s, f, s.marks, stack) == goal
    modifies lines, colors
    ensures ok ==> Buffered(s, lines, colors, count, emitted', maxLines)
    ensures ok ==> emitted' + Drain(s, stack') == goal
    ensures ok ==> |emitted'| == |emitted| + |s.marks| && |stack'| == |stack| + 2 * |s.marks|
    ensures ok ==> Weight(|s.marks|, stack') == Weight(|s.marks|, stack) + |s.marks| * (2 * Size(|s.marks|, f.depth - 1))
    ensures !ok ==> count < maxLines && count < |goal| && s.color(goal[count].depth, goal[count].angle, goal[count].mark).None?
    ensures !ok ==> ColorsDefined(s, goal, count)
  {
    var k := |s.marks|;
    ghost var childWeight := 2 * Size(k, f.depth - 1);
    count, stack', emitted' := lineCount, stack, emitted;
    ok := true;
    SliceEnds(s.marks);
    var j := 0;
    while j < |s.marks|
      invariant 0 <= j <= k
      invariant Buffered(s, lines, colors, count, emitted', maxLines)
      invariant emitted' + Pending(s, f, s.marks[j..], stack') == goal
      invariant |emitted'| == |emitted| + j && |stack'| == |stack| + 2 * j
      invariant Weight(k, stack') == Weight(k, stack) + j * childWeight
    {
      ok, count, stack', emitted' := VisitMark(s, f, j, lines, colors, count, emitted', maxLines, stack', goal, Weight(k, stack));
      if !ok {
        return;
      }
      j := j + 1;
    }
    PendingDone(s, f, stack');
  }

  /**
   * The traversal. On success (`ok`) the buffers hold the first
   * `min(|Out(s, root)|, maxLines)` segments of the specification, in order,
   * and zeros after them. The run fails exactly when one of the rows it would
   * write has an undefined colour (the source raises ZeroDivisionError).
   * `expanded` counts the non-terminal frames popped and `pushed` the frames
   * pushed: each expansion adds one segment and two frames per mark.
   */
  method Generate(s: Scheme, root: Frame, maxLines: nat)
    returns (ok: bool, lines: array2<real>, colors: array<real>, lineCount: nat, ghost expanded: nat, ghost pushed: nat)
    ensures fresh(lines) && fresh(colors)
    ensures lines.Length0 == maxLines && lines.Length1 == 4 && colors.Length == maxLines
    ensures ok <==> ColorsDefined(s, Out(s, root), Min(|Out(s, root)|, maxLines))
    ensures ok ==> lineCount == Min(|Out(s, root)|, maxLines)
    ensures ok ==> forall i :: 0 <= i < lineCount ==> RowHolds(s, lines, colors, i, Out(s, root)[i])
    ensures ok ==> Blank(lines, colors, lineCount)
    ensures ok ==> |Out(s, root)| == |s.marks| * expanded && pushed == 2 * |s.marks| * expanded
  {
    lines := new real[maxLines, 4]((_, _) => 0.0);
    colors := new real[maxLines](_ => 0.0);
    lineCount, expanded, pushed := 0, 0, 0;
    ok := true;
    var k := |s.marks|;
    var stack := [root];
    ghost var goal := Out(s, root);
    ghost var emitted: seq<Emission> := [];
    DrainPush(s, [], root);
    while stack != []
      invariant Buffered(s, lines, colors, lineCount, emitted, maxLines)
      invariant emitted + Drain(s, stack) == goal
      invariant |emitted| == k * expanded && pushed == 2 * k * expanded
      decreases Weight(k, stack)
    {
      ghost var before := stack;
      var f := stack[|stack| - 1];
      stack := stack[..|stack| - 1];
      SplitLast(before);
      if f.depth == 0 {
        PopTerminal(s, stack, f);
        continue;
      }
      PopExpand(s, stack, f);
      Weigh(k, before, stack, f);
      ghost var height := |stack|;
      ok, lineCount, stack, emitted := Expand(s, f, lines, colors, lineCount, emitted, maxLines, stack, goal);
      if !ok {
        return;
      }
      pushed := pushed + (|stack| - height);
      MulSucc(expanded, k);
      MulSucc(expanded, 2 * k);
      expanded := expanded + 1;
    }
  }
}
