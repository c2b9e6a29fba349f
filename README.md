# Golomb-ruler fractal generator in Dafny

This project models `compute_fractal_lines` from the two generators of the
Golomb fractal repository, golomb_basic.py and golomb_enhanced.py. It also
models their shared table of Golomb rulers and the rule that picks a ruler
for a requested key.

`compute_fractal_lines` draws a branching fractal without recursion:

- It keeps an explicit LIFO stack of frames `(x, y, angle, length, depth)`.
- It pops a frame and skips it when `depth == 0`.
- Otherwise, for every ruler mark after the leading 0, it emits one segment
  and pushes two children at `depth - 1`, turned by +π/6 and −π/6.
- Segments and their colour values go into two preallocated buffers of
  `max_lines` rows. A row is written only while `line_count < max_lines`,
  and the traversal goes on after the buffers are full.

The two variants differ only in the per-mark step and in the colour:

- **Basic:** every branch is `length / 1.5` along the frame's own angle.
- **Enhanced:** the length is divided by 1.2 for even marks and 1.5 for odd
  ones. The angle is turned by `((mark % 3) - 1) · π/6`. The colour gains a
  `mark / max(ruler)` term.

## Layout

- `fractal.dfy`, module `Fractal`: the shared traversal.
  - `Scheme` describes a variant: its marks, its step rule, its colour rule,
    and `cos`/`sin`.
  - `Out(s, f)` is the specification: every segment frame `f` produces, in
    the order the stack pops them, with no capacity limit.
  - `Generate` is the imperative algorithm. Its loop pops the stack. `Expand`
    is the `for mark in ruler[1:]` loop, `VisitMark` one iteration of it, and
    `Record` the capacity-guarded write into an `array2<real>` and an
    `array<real>`.
  - `Generate` is proved to fill its buffers with exactly the first
    `min(|Out|, max_lines)` segments of `Out`, and to leave the other rows
    zero.
  - Termination is proved with a weight: the number of frames still to pass
    through the stack.
- `basic.dfy`, module `GolombBasic`: the basic step and colour rules and the
  basic `ComputeFractalLines`.
- `enhanced.dfy`, module `GolombEnhanced`: the enhanced step and colour
  rules, `max(ruler)`, and the enhanced `ComputeFractalLines`.
- `rulers.dfy`, module `Rulers`: the `GOLOMB_RULERS` table, the
  fallback-to-5 lookup, and a proof that each table ruler is a Golomb ruler.
  That proof uses a recursive check the verifier can evaluate on the literal
  rulers, plus lemmas that the check is sound.

Modelling decisions:

- **ZeroDivisionError.** A colour rule returns `None` where the source divides
  by zero: `max_depth == 0`, and in the enhanced variant also
  `max(ruler) == 0`. The traversal then returns `ok == false`.
  `ComputeFractalLines` states exactly which inputs cause this. The error
  only happens when a row is actually written: the colour is computed only
  inside `if line_count < max_lines`.
- **Reals instead of floats.** Numbers are reals. `x % 1.0` is
  `x - floor(x)`. `np.pi` is the literal 3.141592653589793.
- **Trigonometry.** `np.cos` and `np.sin` are uninterpreted function
  parameters.
- **Python `%`.** `%` on a mark has a positive divisor, where Python's
  result agrees with Dafny's.
- **max_depth == 0.** golomb_basic.py:49 and golomb_enhanced.py:39 divide by
  `max_depth` without a guard. So `max_depth == 0` raises ZeroDivisionError
  at the first row written, and the model returns `ok == false` there.

## Model

| member | source | states |
|---|---|---|
| Fractal.Generate | golomb_basic.py:22-57 | Fresh `max_lines`×4 and `max_lines` buffers. It succeeds iff every row it would write has a defined colour. On success: `line_count == min(|Out|, max_lines)`; row i holds segment i of `Out` and its colour; later rows stay 0; `|Out|` is `k` segments per expanded frame and `2k` pushed frames per expanded frame, where k = `len(ruler) - 1` |
| Fractal.Expand | golomb_basic.py:34-55 | The mark loop visits every mark once, in order. It emits `k` segments and pushes `2k` frames. What is still pending afterwards is exactly what the new stack produces. On failure, it names the row where the source raises: its colour is undefined and every earlier row's colour is defined |
| Fractal.VisitMark | golomb_basic.py:35-55 | One mark: record its segment, then push its two children. The pending output advances by one mark and the stack grows by `Children`. On failure, the row due has an undefined colour and every earlier one a defined colour |
| Fractal.Record | golomb_basic.py:42-51 | Writes the row and its colour and adds one to the count only while `line_count < max_lines`. A full buffer is left unchanged. It fails only when a row is due and its colour is undefined |
| Fractal.WriteRow | golomb_basic.py:43-49 | Row i gets `(x, y, new_x, new_y)` and colour c. Every other row keeps its value |
| Fractal.Marks | golomb_basic.py:34 | `ruler[1:]`: one element fewer than the ruler (none for a ruler of at most one mark), each equal to the next ruler element |
| Fractal.Frac | golomb_basic.py:49 | `x % 1.0` over the reals lies in [0, 1) and differs from x by a whole number |
| Fractal.Children | golomb_basic.py:54-55 | Exactly two frames are pushed per mark, both at `depth - 1` |
| Fractal.Emit | golomb_basic.py:36-39 | Computes a segment from the frame's origin to `mark` steps along the step's direction. `GolombBasic.Geometry` and `GolombEnhanced.Geometry` state the endpoint for each variant |
| Fractal.Out | golomb_basic.py:28-55 | The segments one frame produces, in pop order. `Fractal.OutLength`, `Fractal.OutEmpty`, `Fractal.OutStartsWithOwnSegments` and `Fractal.KidsOutLastFirst` state its length, when it is empty, and its order |
| Fractal.Drain | golomb_basic.py:22-29 | The segments a whole stack produces, top frame first. `Fractal.DrainPush` states the LIFO order; with an empty stack below it gives `Drain([root]) == Out(root)`, the loop invariant `Fractal.Generate` starts from |
| Fractal.PopTerminal | golomb_basic.py:31-32 | A popped frame with `depth == 0` adds nothing to the output |
| Fractal.PushStep | golomb_basic.py:34-55 | Expanding one mark emits its segment first; what follows is the rest of the marks, then the two children pushed on top of the stack |
| Fractal.DrainPush | golomb_basic.py:28-29 | LIFO: all of a pushed frame's output comes before what the frames below it produce |
| Fractal.KidsOutLastFirst | golomb_basic.py:53-55 | The children of the last mark are processed first, the −π/6 child before the +π/6 one; the children of earlier marks come after |
| Fractal.OutLength | golomb_basic.py:28-55 | The output has `k · E(depth)` segments, where `E(0) = 0` and `E(d) = 1 + 2k·E(d-1)` counts the expanded frames |
| Fractal.LastLevelLength | golomb_basic.py:31-55 | A frame at depth 1 produces exactly one segment per mark |
| Fractal.OutEmpty | golomb_basic.py:31-34 | No segment is produced iff `depth == 0` or the ruler has no mark after the leading 0 |
| Fractal.OutStartsWithOwnSegments | golomb_basic.py:34-51 | A frame's own segments come first, one per mark in ruler order, before any child's |
| Fractal.OutDepths | golomb_basic.py:31-32 | Every segment comes from a frame with `1 <= depth <= ` the starting depth |
| Fractal.WeightVisit | golomb_basic.py:54-55 | Each mark's two pushes raise the count of frames still to process by two subtrees of `depth - 1`; with one pop per iteration this bounds the `while stack` loop |
| GolombBasic.Branch | golomb_basic.py:35 | The basic step: `length / 1.5` along the frame's own angle. `GolombBasic.Geometry` and `GolombBasic.ScaleIndependentOfMark` state it |
| GolombBasic.Color | golomb_basic.py:49 | `None` iff `max_depth == 0` (ZeroDivisionError). Otherwise a value in [0, 1) that differs from `depth/max_depth + angle/2π` by a whole number |
| GolombBasic.Geometry | golomb_basic.py:35-39 | A segment runs from the frame's `(x, y)` to `(x, y) + mark · (length/1.5) · (cos angle, sin angle)`. Its children start at the end point, at `angle ± π/6`, with length `length/1.5` and `depth - 1` |
| GolombBasic.ScaleIndependentOfMark | golomb_basic.py:35 | Within a frame, every mark gets the same step length and direction |
| GolombBasic.ColorsDefinedIff | golomb_basic.py:49 | The first n colours of the output are all defined iff `n == 0` or `max_depth != 0` |
| GolombBasic.ComputeFractalLines | golomb_basic.py:14-57 | Fails iff `max_depth == 0`, `max_lines > 0`, `depth > 0` and the ruler has two or more marks. On success: `line_count == min(|Out|, max_lines) <= max_lines`, and it is 0 when `depth == 0` or the ruler has at most one mark; the rows hold the segments of `Out` in order, every colour lies in [0, 1), and the rest stay zero |
| GolombBasic.MainCallColorsDefined | golomb_basic.py:116-118 | With `depth` passed as both `depth` and `max_depth`, as `main` does, every row written has a colour |
| GolombBasic.FirstSegmentOfFiveMarkRuler | golomb_basic.py:34-46 | Ruler `[0,1,4,9,11]`, start `(0,0)`, angle π/2, length 10, depth 1: four segments. The first runs from `(0,0)` to `(10/1.5)·(cos, sin)(π/2)` |
| GolombEnhanced.Branch | golomb_enhanced.py:26-28 | New length is `length/1.2` for even marks and `length/1.5` for odd ones. New angle is `angle − π/6`, `angle`, `angle + π/6` for `mark % 3` equal to 0, 1, 2 |
| GolombEnhanced.MarkFourKeepsAngle | golomb_enhanced.py:26-28 | Mark 4 gives length `length/1.2` and an unchanged angle |
| GolombEnhanced.Max | golomb_enhanced.py:39 | `max(ruler)` is an element of the ruler and no element exceeds it |
| GolombEnhanced.Top | golomb_enhanced.py:39 | The `max(ruler)` divisor the colour uses: for a non-empty ruler an element no other element exceeds; 0 for an empty ruler, which the mark loop never enters |
| GolombEnhanced.Color | golomb_enhanced.py:39 | `None` iff `max_depth == 0` or `max(ruler) == 0`. Otherwise a value in [0, 1) that differs from `depth/max_depth + new_angle/2π + mark/max(ruler)` by a whole number |
| GolombEnhanced.Geometry | golomb_enhanced.py:29-43 | A segment runs from `(x, y)` to `(x, y) + mark · new_length · (cos, sin)(new_angle)`. Its children start at the end point, at `new_angle ± π/6`, with `new_length` and `depth - 1` |
| GolombEnhanced.IncreasingRulerTopPositive | golomb_enhanced.py:25-39 | For a ruler that starts at 0, increases strictly and has a mark after the 0, `max(ruler) > 0` |
| GolombEnhanced.TableRulerTopPositive | golomb_enhanced.py:73-77 | Every ruler the lookup returns has `max(ruler) > 0` |
| GolombEnhanced.ColorsDefinedIff | golomb_enhanced.py:39 | The first n colours are all defined iff `n == 0`, or both `max_depth` and `max(ruler)` are non-zero |
| GolombEnhanced.ComputeFractalLines | golomb_enhanced.py:14-45 | Fails iff `max_lines > 0`, `depth > 0`, the ruler has two or more marks, and `max_depth == 0` or `max(ruler) == 0`. On success it has the same buffer contents, count bound and colour range as the basic variant |
| GolombEnhanced.MainCallColorsDefined | golomb_enhanced.py:86-88 | With `depth` as both depths and a ruler from the table, as `main` does, every row written has a colour |
| GolombEnhanced.MarkFourSegmentOfFiveMarkRuler | golomb_enhanced.py:25-38 | Ruler `[0,1,4,9,11]`, start `(0,0)`, angle π/2, length 10, depth 1: four segments. The second, for mark 4, keeps angle π/2 and ends at `4 · (10/1.2) · (cos, sin)(π/2)` |
| Rulers.ResolveKey | golomb_basic.py:95-97 | The key used is always in the table. It is the requested key if registered, else 5 |
| Rulers.SelectRuler | golomb_basic.py:95-99 | A registered key N yields its ruler, which has N marks. Any other key yields the 5-mark ruler |
| Rulers.SelectedRulerIsGolomb | golomb_basic.py:95-99 | Whatever the key, the returned ruler is a Golomb ruler with at least five marks |
| Rulers.TableRulersAreGolomb | golomb_basic.py:6-11 | Every table ruler starts at 0, increases strictly, has pairwise-distinct differences, and has as many marks as its key |
| Rulers.Ruler5 | golomb_basic.py:7 | `[0, 1, 4, 9, 11]` is a Golomb ruler |
| Rulers.Ruler6 | golomb_basic.py:8 | `[0, 1, 4, 10, 12, 17]` is a Golomb ruler |
| Rulers.Ruler7 | golomb_basic.py:9 | `[0, 1, 4, 10, 18, 23, 25]` is a Golomb ruler |
| Rulers.Ruler8 | golomb_basic.py:10 | `[0, 1, 4, 9, 15, 22, 32, 34]` is a Golomb ruler |
| Rulers.AllPairsGolomb | golomb_basic.py:6-11 | A ruler that passes the evaluable pairwise check has distinct differences |

## Left out

- `plot_fractal` (golomb_basic.py:59-79, golomb_enhanced.py:48-62): matplotlib rendering, an external library.
- The I/O in `get_user_input` and `main`: printing, reading the key and the depth with `input` and `int`. The lookup is modelled with the key as a parameter. `main`'s call is modelled by the two `MainCallColorsDefined` lemmas.
- The duplicated table in golomb_enhanced.py:6-11 is identical to golomb_basic.py:6-11, so it is modelled once. Its lookup at golomb_enhanced.py:73-77 is the same rule as `Rulers.SelectRuler`.
- `@njit` compilation and numpy allocation: the buffers are Dafny arrays created zero-filled.
- A negative `max_lines`: `np.zeros` at golomb_basic.py:24-25 and golomb_enhanced.py:16-17 raises ValueError for it. The model takes `max_lines` as a natural number, so it does not model that error path.
- Floating point: every quantity is a real. No rounding is modelled. For example, a float `x % 1.0` for a tiny negative x can round to 1.0, but the real version lies strictly below 1. Integer overflow of `line_count` is also not modelled.
- `np.cos` and `np.sin` are uninterpreted parameters: no trigonometric identity is used.
- Negative `depth`: the model takes depth as a natural number, so it covers no negative-depth call. In the source, a negative depth never reaches `depth == 0` (golomb_basic.py:31, golomb_enhanced.py:22), but such a call still ends in two cases:
  - with a ruler of at most one mark, no segment is emitted and `line_count == 0` is returned;
  - with `max_lines > 0`, two or more marks, and a zero divisor (`max_depth == 0`, or in the enhanced variant `max(ruler) == 0`), the first row written raises ZeroDivisionError.
  In every other case the stack keeps growing and the call does not end.
- The contents of the buffers after a ZeroDivisionError: the source raises and returns nothing, so the model promises nothing about them when `ok` is false.
- The size of the work stack and the memory it needs are not bounded; only termination is proved.
- `max(ruler)` of an empty ruler, which raises ValueError in Python, is never evaluated: the mark loop does not run for such a ruler. `GolombEnhanced.Top` gives 0 there, a value no colour computation reads.
