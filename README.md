# Simple circuit simulation — verified model of the calculator and the schematic

The application is a small web form. It takes a comma-separated list of
resistances and a circuit type, `series` or `parallel`. It draws a schematic
of the resistors plus one trailing capacitor, and titles the picture with the
total resistance. This project models the two parts of `app.py` that carry
that logic, and proves what they compute:

- `resistance.dfy` (module `Resistance`) models `calculate_total_resistance`.
  A series circuit gives the plain sum. A parallel circuit gives the reciprocal
  of the sum of reciprocals, and resistors of value 0 are skipped. Any other
  circuit type raises an error. The model returns a `Result`: `Ok(total)`,
  `Err(InvalidCircuitType)` for the `ValueError`, or `Err(DivByZero)` for the
  `ZeroDivisionError` of `1 / 0`.
- `schematic.dfy` (module `Schematic`) models `draw_circuit` as the sequence of
  drawing calls it makes on the axes:
  - each `ax.plot` becomes a `Line`;
  - each `Rectangle` patch becomes a `Rect`;
  - each `ax.text` becomes a `Label`, whose kind is `ResistorLabel(ordinal, value)` or `CapacitorLabel`.

  `DrawSeries` and `DrawParallel` are the two loops, written as methods that
  append to the drawn sequence. Each is proved against the reference
  function `Layout`. `DrawCircuit` draws first and then computes the total,
  in the same order as the source. On an error it returns that error and no
  figure.

Resistances are exact reals of any sign. The bound lemmas (at least each
resistor in series, at most each in parallel) assume non-negative values.

Three behaviours of the source are modelled exactly as written:

- `draw_circuit` issues its drawing calls (app.py:22-55) before it computes
  the total (app.py:60). When the calculator raises, the calls have already
  been made and no buffer is returned. `DrawCircuit` draws, then returns the
  error with no figure.
- `draw_circuit` and `calculate_total_resistance` accept an empty list:
  series gives 0, and parallel divides by zero. The web handler never passes
  one, because `float('')` fails first (app.py:75-77).
- The parallel branch skips zero resistors (app.py:12). The code marks this
  "Avoid division by zero", so it is deliberate. Its departure from circuit
  physics is stated by `Resistance.ParallelZeroResistorIgnored` and by an
  example in `Resistance.Examples`.

## Model

| member | source | states |
|---|---|---|
| Resistance.TotalResistance | app.py:8-14 | Fails with the invalid-type error exactly when the type is neither "series" nor "parallel". Fails with division by zero exactly when the type is parallel and the reciprocal sum is 0. A parallel total multiplied by the reciprocal sum is 1. |
| Resistance.SeriesAddsResistor | app.py:9-10 | An empty series circuit totals 0, and appending a resistor adds its value, so the series total is the sum of the inputs. |
| Resistance.SumAppend | app.py:10 | The sum of a concatenation is the sum of the two sums. |
| Resistance.SeriesAtLeastEach | app.py:9-10 | With non-negative resistors, the series total succeeds and is at least every resistor. |
| Resistance.SumNonNegative | app.py:10 | A sum of non-negative values is non-negative. |
| Resistance.NonZeroMembers | app.py:12 | The `r != 0` filter keeps exactly the non-zero values of the input. |
| Resistance.ReciprocalsOfKept | app.py:12 | The generator yields, in order, 1/r for each kept resistor and nothing else. |
| Resistance.ParallelIgnoresZeros | app.py:11-12 | The parallel outcome, value or error, is the same as for the input with every zero removed. |
| Resistance.ReciprocalsOfNonZero | app.py:12 | Filtering zeros first does not change the generated reciprocals. |
| Resistance.ParallelAddsResistor | app.py:12 | The reciprocal sum of no resistors is 0. Appending r adds 1/r, or nothing when r is 0. |
| Resistance.ReciprocalsAppend | app.py:12 | The reciprocals of a concatenation are the concatenation of the reciprocals. |
| Resistance.ParallelZeroResistorIgnored | app.py:12 | Putting a 0-ohm resistor in parallel leaves the outcome unchanged. Physically it would short the circuit. |
| Resistance.ParallelAllZero | app.py:12 | If every resistor is 0, or there are none, the parallel computation divides by zero. |
| Resistance.ParallelFailsIffAllZero | app.py:11-12 | With non-negative resistors, the parallel computation divides by zero if and only if every resistor is 0. |
| Resistance.ReciprocalSumAtLeast | app.py:12 | With non-negative resistors, the reciprocal sum is at least 1/r for each non-zero r, so it is positive. |
| Resistance.ReciprocalSumNonNegative | app.py:12 | With non-negative resistors, the reciprocal sum is non-negative. |
| Resistance.ParallelAtMostEach | app.py:11-12 | With non-negative resistors and one non-zero resistor r, the parallel total succeeds and lies in (0, r]. |
| Resistance.ParallelSingle | app.py:11-12 | If exactly one resistor is non-zero, the parallel total is that resistor. |
| Resistance.ParallelEqual | app.py:11-12 | n ≥ 1 equal non-zero resistors r in parallel give r / n. |
| Resistance.ReciprocalSumOfCopies | app.py:12 | n equal non-zero resistors r have reciprocal sum n · (1/r). |
| Resistance.Examples | app.py:8-14 | Worked cases: [10, 10] and [10, 20] in series give 20 and 30. [10, 10] and [5] in parallel give 5. An unknown type fails. An empty parallel list divides by zero. [0, 10] in parallel gives 10. |
| Schematic.Components | app.py:19-20 | The component list has n + 1 entries: resistor i carries the i-th input value, and the single capacitor is the last entry. It is a new value, so the caller's list is unchanged. |
| Schematic.SeriesPart | app.py:30-39 | A series iteration draws four calls for the capacitor and three for a resistor. |
| Schematic.ParallelPart | app.py:45-53 | A parallel iteration draws four calls for the capacitor and three for a resistor. |
| Schematic.DrawSeries | app.py:22-41 | The series branch draws exactly `Layout(Series, components)`: the top wire and the two sides, then each component's calls in order, then the bottom wire. |
| Schematic.DrawParallel | app.py:43-55 | The parallel branch draws exactly `Layout(Parallel, components)`: each component's calls in order, then the two rails. |
| Schematic.DrawCircuit | app.py:16-66 | `draw_circuit` returns the figure described by `Render`: the selected branch's drawing titled with the type and the total, or the calculator's error and no figure. |
| Schematic.Render | app.py:59-66 | An unknown type gives the invalid-type error. A figure's title reports the same total the calculator returns. Any other error is the calculator's error. |
| Schematic.PartContents | app.py:28-53 | Every loop iteration draws exactly one label: "C" for the capacitor, or R(i+1) with its value for a resistor. It draws one rectangle for a resistor and none for the capacitor. |
| Schematic.PartsLength | app.py:28-39 | The first k iterations over resistors draw 3k calls. |
| Schematic.PartsLabels | app.py:28-53 | The loop's labels are exactly one per component, in component order. |
| Schematic.PartsRects | app.py:28-53 | The loop's first k resistor iterations draw the rectangles of resistors 0 … k-1 in order. |
| Schematic.PartAt | app.py:22-55 | Component i is drawn by exactly its own iteration's calls. They come right after the lines drawn before the loop and the three calls of each earlier resistor. |
| Schematic.FrameCarriesNothing | app.py:24-26 | The lines drawn outside the loop (frame or rails) carry no label and no rectangle. |
| Schematic.LabelsInOrder | app.py:28-53 | The labels of either layout are R1 … Rn with the input values in input order, followed by exactly one "C". |
| Schematic.RectanglesInOrder | app.py:28-53 | Either layout has exactly n rectangles, one per resistor in input order. In series they sit side by side at x = i + 0.25 on y = 0. In parallel they are stacked at y = -i. |
| Schematic.SeriesComponentAt | app.py:28-39 | Series component i has its wire from x = i to x = i + 1 at y = 0. A resistor then has its rectangle and its label R(i+1). The capacitor has two tick lines at x = i + 0.45 and x = i + 0.55, and "C". |
| Schematic.ParallelComponentAt | app.py:44-53 | Parallel component i is the branch from x = 0 to x = 1 at y = -i. A resistor then has its rectangle and its label R(i+1). The capacitor has two tick lines and "C". |
| Schematic.SeriesFrame | app.py:24-41 | A series drawing has 3n + 8 calls. The first three are the top wire from x = 0 to x = n + 2 at y = 0 and the sides at x = 0 and x = n + 2 from y = 0 to y = -1. The last is the bottom wire at y = -1. |
| Schematic.ParallelFrame | app.py:54-55 | A parallel drawing has 3n + 6 calls. The last two are the rails at x = 0 and x = 1, from y = 0 down to y = -n. |
| Schematic.SeriesInsideLoop | app.py:22-41 | Everything drawn in series lies between x = 0 and x = n + 2. Every horizontal line is the top (y = 0) or the bottom (y = -1). |
| Schematic.ParallelInsideRails | app.py:43-55 | Everything drawn in parallel lies between the rails x = 0 and x = 1. Every branch lies within the rails' span y ∈ [-n, 0]. |
| Schematic.InvalidCircuitTypeDrawsNothing | app.py:22-60 | For an unknown type neither branch draws anything, and the result is the invalid-type error. |
| Schematic.SeriesExample | app.py:16-61 | Series [10, 20] gives a figure titled with total 30, labelled R1 = 10, R2 = 20 and C, with two rectangles. |

## Left out

- Flask routing, templates and the entry point (app.py:1, 6, 68-70, 72-83) are web-framework glue and are not modelled.
- Parsing the form with `float()` (app.py:75-77) is not modelled. A parse failure yields a fixed message string in place of an image.
- When the calculator raises inside `draw_circuit`, the exception propagates out of the Flask handler. The model stops at the `Err` result.
- The matplotlib figure and axes are not modelled: `subplots`, `set_aspect`, colours, line widths, `axis('off')` and the global title state (app.py:17-18, 57). The axes object the source mutates is represented by the sequence of drawing calls made on it.
- Text formatting is not modelled: the `{component}Ω` label text, `capitalize()` and the `:.2f` total in the title (app.py:39, 53, 61). A label is kept as its ordinal and value, and the title as the circuit type and the exact total.
- PNG encoding into `io.BytesIO` (app.py:63-66) is not modelled. The returned buffer is represented by the `Figure` it shows.
- IEEE-754 floating-point arithmetic is not modelled. Sums, reciprocals and coordinates are exact reals, so no exact float results are claimed. This leaves out rounding, and also the special values `float()` accepts from the form: infinities, NaN, and overflow to infinity. Inputs that involve them are outside the model. For example, in parallel `[inf]` raises ZeroDivisionError because 1/inf is 0.0; `nan` passes the `r != 0` filter and gives a NaN total with no error; and `[5e-324]` gives 0.0 because 1/5e-324 overflows to inf.
- The Python test `component == 'C'` is modelled by the `Component` datatype, with resistors as `Resistor(value)` and the capacitor as `Capacitor`. A float never equals `'C'`, so the two agree.
- In the two drawing loops, each iteration's symbol calls are collected in a local sequence and appended after its wire. The drawn order is the same as the source's one-call-at-a-time order.
