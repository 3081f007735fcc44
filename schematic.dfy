/**
  The schematic that draw_circuit lays out (app.py:16-66), as the sequence of
  drawing calls it issues on the axes: ax.plot becomes a Line, ax.add_patch of
  a Rectangle a Rect, ax.text a Label. Coordinates are exact reals; styling,
  the figure itself and the PNG encoding are not modelled, and the returned
  buffer is represented by the Figure the calls describe.
 */
module Schematic {

  import opened Resistance

  /** An entry of `resistances + ['C']`: a resistor with its value, or the trailing capacitor. */
  datatype Component = Resistor(value: real) | Capacitor

  /** The text of a label: "R{ordinal} = {value}Ω" for a resistor, "C" for the capacitor. */
  datatype LabelKind = ResistorLabel(ordinal: nat, value: real) | CapacitorLabel

  datatype Primitive =
    | Line(x1: real, x2: real, y1: real, y2: real)  // ax.plot([x1, x2], [y1, y2])
    | Rect(x: real, y: real, w: real, h: real)      // Rectangle((x, y), w, h)
    | Label(x: real, y: real, kind: LabelKind)      // ax.text(x, y, ...)

  /** The plot title: the circuit type and the total resistance it reports. */
  datatype Title = Title(circuitType: string, total: real)

  /** What the returned buffer shows. */
  datatype Figure = Figure(primitives: seq<Primitive>, title: Title)

  datatype Topology = Series | Parallel

  /** The component sequence: every resistance in input order, then one capacitor. */
  function Components(rs: seq<real>): (cs: seq<Component>)
    ensures |cs| == |rs| + 1
    ensures forall i :: 0 <= i < |rs| ==> cs[i] == Resistor(rs[i])
    ensures forall i :: 0 <= i < |cs| ==> (cs[i] == Capacitor <==> i == |rs|)
  {
    seq(|rs|, i requires 0 <= i < |rs| => Resistor(rs[i])) + [Capacitor]
  }

  /** What the series loop body draws for component i: its wire on y = 0, then
      its symbol and label. */
  function SeriesPart(i: nat, c: Component): (p: seq<Primitive>)
    ensures |p| == if c.Capacitor? then 4 else 3
  {
    var x := i as real;
    [Line(x, x + 1.0, 0.0, 0.0)] +
    match c
    case Capacitor =>
      [Line(x + 0.45, x + 0.45, -0.1, 0.1),
       Line(x + 0.55, x + 0.55, -0.1, 0.1),
       Label(x + 0.5, -0.4, CapacitorLabel)]
    case Resistor(v) =>
      [Rect(x + 0.25, -0.1, 0.5, 0.2),
       Label(x + 0.5, -0.4, ResistorLabel(i + 1, v))]
  }

  /** What the parallel loop body draws for component i: its branch on y = -i,
      then its symbol and label. */
  function ParallelPart(i: nat, c: Component): (p: seq<Primitive>)
    ensures |p| == if c.Capacitor? then 4 else 3
  {
    var y := -(i as real);
    [Line(0.0, 1.0, y, y)] +
    match c
    case Capacitor =>
      [Line(0.45, 0.45, y + 0.1, y - 0.1),
       Line(0.55, 0.55, y + 0.1, y - 0.1),
       Label(0.5, y - 0.4, CapacitorLabel)]
    case Resistor(v) =>
      [Rect(0.25, y - 0.1, 0.5, 0.2),
       Label(0.5, y - 0.4, ResistorLabel(i + 1, v))]
  }

  function Part(t: Topology, i: nat, c: Component): (p: seq<Primitive>)
    ensures |p| == if c.Capacitor? then 4 else 3
  {
    match t
    case Series => SeriesPart(i, c)
    case Parallel => ParallelPart(i, c)
  }

  /** What the first k iterations of `for i, component in enumerate(cs)` draw. */
  function Parts(t: Topology, cs: seq<Component>, k: nat): seq<Primitive>
    requires k <= |cs|
  {
    if k == 0 then [] else Parts(t, cs, k - 1) + Part(t, k - 1, cs[k - 1])
  }

  /** The three lines drawn before the series loop: the top wire and the two sides. */
  function SeriesOpening(m: nat): seq<Primitive>
  {
    var right := (m + 1) as real;
    [Line(0.0, right, 0.0, 0.0), Line(0.0, 0.0, 0.0, -1.0), Line(right, right, 0.0, -1.0)]
  }

  /** The line drawn after the series loop: the bottom wire. */
  function SeriesClosing(m: nat): seq<Primitive>
  {
    [Line(0.0, (m + 1) as real, -1.0, -1.0)]
  }

  /** The two rails drawn after the parallel loop. */
  function ParallelRails(m: nat): seq<Primitive>
  {
    var bottom := -(m as real) + 1.0;
    [Line(0.0, 0.0, 0.0, bottom), Line(1.0, 1.0, 0.0, bottom)]
  }

  /** The lines drawn before the loop: the top wire and the two sides in series, none in parallel. */
  function Before(t: Topology, m: nat): (ps: seq<Primitive>)
    ensures |ps| == if t == Series then 3 else 0
  {
    match t
    case Series => SeriesOpening(m)
    case Parallel => []
  }

  /** The lines drawn after the loop: the bottom wire in series, the two rails in parallel. */
  function After(t: Topology, m: nat): seq<Primitive>
  {
    match t
    case Series => SeriesClosing(m)
    case Parallel => ParallelRails(m)
  }

  /** Everything one layout branch draws for the component list cs (m = total_components). */
  function Layout(t: Topology, cs: seq<Component>): seq<Primitive>
  {
    Before(t, |cs|) + Parts(t, cs, |cs|) + After(t, |cs|)
  }

  /** What draw_circuit puts on the axes for a circuit type: nothing for an unknown one. */
  function Drawing(rs: seq<real>, circuitType: string): seq<Primitive>
  {
    if circuitType == SERIES then Layout(Series, Components(rs))
    else if circuitType == PARALLEL then Layout(Parallel, Components(rs))
    else []
  }

  /** draw_circuit(rs, circuitType): the figure, or the error the total computation raised. */
  function Render(rs: seq<real>, circuitType: string): (r: Result<Figure>)
    ensures circuitType != SERIES && circuitType != PARALLEL ==> r == Err(InvalidCircuitType)
    ensures r.Ok? ==> TotalResistance(rs, circuitType) == Ok(r.value.title.total)
    ensures r.Err? ==> TotalResistance(rs, circuitType) == Err(r.error)
  {
    match TotalResistance(rs, circuitType)
    case Err(e) => Err(e)
    case Ok(total) => Ok(Figure(Drawing(rs, circuitType), Title(circuitType, total)))
  }

  /** The series branch of draw_circuit: the top wire and the two sides, one
      wire and symbol per component from left to right, then the bottom wire. */
  method DrawSeries(components: seq<Component>) returns (drawn: seq<Primitive>)
    ensures drawn == Layout(Series, components)
  {
    var totalComponents := |components|;
    var right := (totalComponents + 1) as real;
    drawn := [Line(0.0, right, 0.0, 0.0), Line(0.0, 0.0, 0.0, -1.0), Line(right, right, 0.0, -1.0)];
    var i := 0;
    while i < |components|
      invariant 0 <= i <= |components|
      invariant drawn == Before(Series, totalComponents) + Parts(Series, components, i)
    {
      ghost var before := drawn;
      var x := i as real;
      var wire := [Line(x, x + 1.0, 0.0, 0.0)];
      drawn := drawn + wire;
      var symbol: seq<Primitive>;
      match components[i] {
        case Capacitor =>
          symbol := [Line(x + 0.45, x + 0.45, -0.1, 0.1),
                     Line(x + 0.55, x + 0.55, -0.1, 0.1),
                     Label(x + 0.5, -0.4, CapacitorLabel)];
        case Resistor(v) =>
          symbol := [Rect(x + 0.25, -0.1, 0.5, 0.2),
                     Label(x + 0.5, -0.4, ResistorLabel(i + 1, v))];
      }
      drawn := drawn + symbol;
      AppendPart(Series, components, i, before, wire, symbol, drawn);
      i := i + 1;
    }
    ghost var loop := drawn;
    drawn := drawn + [Line(0.0, right, -1.0, -1.0)];
    assert drawn == loop + After(Series, totalComponents);
  }

  /** The parallel branch of draw_circuit: one branch wire and symbol per
      component from the top down, then the left and right rails. */
  method DrawParallel(components: seq<Component>) returns (drawn: seq<Primitive>)
    ensures drawn == Layout(Parallel, components)
  {
    var totalComponents := |components|;
    drawn := [];
    var i := 0;
    while i < |components|
      invariant 0 <= i <= |components|
      invariant drawn == Before(Parallel, totalComponents) + Parts(Parallel, components, i)
    {
      ghost var before := drawn;
      var y := -(i as real);
      var wire := [Line(0.0, 1.0, y, y)];
      drawn := drawn + wire;
      var symbol: seq<Primitive>;
      match components[i] {
        case Capacitor =>
          symbol := [Line(0.45, 0.45, y + 0.1, y - 0.1),
                     Line(0.55, 0.55, y + 0.1, y - 0.1),
                     Label(0.5, y - 0.4, CapacitorLabel)];
        case Resistor(v) =>
          symbol := [Rect(0.25, y - 0.1, 0.5, 0.2),
                     Label(0.5, y - 0.4, ResistorLabel(i + 1, v))];
      }
      drawn := drawn + symbol;
      AppendPart(Parallel, components, i, before, wire, symbol, drawn);
      i := i + 1;
    }
    ghost var loop := drawn;
    var bottom := -(totalComponents as real) + 1.0;
    drawn := drawn + [Line(0.0, 0.0, 0.0, bottom), Line(1.0, 1.0, 0.0, bottom)];
    assert drawn == loop + After(Parallel, totalComponents);
  }

  /** One loop iteration, its wire and then its symbol, extends what is drawn
      by that iteration's calls. */
  lemma AppendPart(t: Topology, cs: seq<Component>, i: nat, before: seq<Primitive>,
                   wire: seq<Primitive>, symbol: seq<Primitive>, drawn: seq<Primitive>)
    requires i < |cs|
    requires before == Before(t, |cs|) + Parts(t, cs, i)
    requires wire + symbol == Part(t, i, cs[i])
    requires drawn == before + wire + symbol
    ensures drawn == Before(t, |cs|) + Parts(t, cs, i + 1)
  {
    Regroup(Before(t, |cs|), Parts(t, cs, i), wire, symbol, drawn);
  }

  lemma Regroup<T>(pre: seq<T>, loop: seq<T>, wire: seq<T>, symbol: seq<T>, drawn: seq<T>)
    requires drawn == pre + loop + wire + symbol
    ensures drawn == pre + (loop + (wire + symbol))
  {
  }

  /** draw_circuit as the source runs it: build the component list, issue the
      drawing calls of the selected branch, then compute the total for the
      title; an error there means no buffer is produced. */
  method DrawCircuit(rs: seq<real>, circuitType: string) returns (out: Result<Figure>)
    ensures out == Render(rs, circuitType)
  {
    var components := Components(rs);
    var drawn: seq<Primitive> := [];
    if circuitType == SERIES {
      drawn := DrawSeries(components);
    } else if circuitType == PARALLEL {
      drawn := DrawParallel(components);
    }
    assert drawn == Drawing(rs, circuitType);

    var total := TotalResistance(rs, circuitType);
    match total {
      case Err(e) =>
        out := Err(e);
      case Ok(t) =>
        out := Ok(Figure(drawn, Title(circuitType, t)));
    }
  }

  // ------------------------------------------------------------ what is drawn

  /** The label kind a single drawing call shows, if it is a label. */
  function LabelOf(p: Primitive): seq<LabelKind>
  {
    if p.Label? then [p.kind] else []
  }

  /** The label kinds, in drawing order. */
  function LabelsOf(ps: seq<Primitive>): seq<LabelKind>
  {
    if ps == [] then [] else LabelOf(ps[0]) + LabelsOf(ps[1..])
  }

  /** A single drawing call, if it is a rectangle. */
  function RectOf(p: Primitive): seq<Primitive>
  {
    if p.Rect? then [p] else []
  }

  /** The rectangles, in drawing order. */
  function RectsOf(ps: seq<Primitive>): seq<Primitive>
  {
    if ps == [] then [] else RectOf(ps[0]) + RectsOf(ps[1..])
  }

  lemma {:induction false} LabelsOfConcat(a: seq<Primitive>, b: seq<Primitive>)
    ensures LabelsOf(a + b) == LabelsOf(a) + LabelsOf(b)
  {
    if a == [] {
      assert a + b == b;
    } else {
      calc {
        LabelsOf(a + b);
        { assert (a + b)[0] == a[0]; assert (a + b)[1..] == a[1..] + b; }
        LabelOf(a[0]) + LabelsOf(a[1..] + b);
        { LabelsOfConcat(a[1..], b); }
        LabelOf(a[0]) + (LabelsOf(a[1..]) + LabelsOf(b));
        (LabelOf(a[0]) + LabelsOf(a[1..])) + LabelsOf(b);
      }
    }
  }

  lemma {:induction false} RectsOfConcat(a: seq<Primitive>, b: seq<Primitive>)
    ensures RectsOf(a + b) == RectsOf(a) + RectsOf(b)
  {
    if a == [] {
      assert a + b == b;
    } else {
      calc {
        RectsOf(a + b);
        { assert (a + b)[0] == a[0]; assert (a + b)[1..] == a[1..] + b; }
        RectOf(a[0]) + RectsOf(a[1..] + b);
        { RectsOfConcat(a[1..], b); }
        RectOf(a[0]) + (RectsOf(a[1..]) + RectsOf(b));
        (RectOf(a[0]) + RectsOf(a[1..])) + RectsOf(b);
      }
    }
  }

  /** The rectangle drawn for resistor i. */
  function ResistorBody(t: Topology, i: nat): Primitive
  {
    match t
    case Series => Rect(i as real + 0.25, -0.1, 0.5, 0.2)
    case Parallel => Rect(0.25, -(i as real) - 0.1, 0.5, 0.2)
  }

  /** The label a component's iteration draws. */
  function LabelFor(i: nat, c: Component): LabelKind
  {
    match c
    case Capacitor => CapacitorLabel
    case Resistor(v) => ResistorLabel(i + 1, v)
  }

  /** Each loop iteration draws exactly one label, and a rectangle exactly when
      the component is a resistor. */
  lemma PartContents(t: Topology, i: nat, c: Component)
    ensures LabelsOf(Part(t, i, c)) == [LabelFor(i, c)]
    ensures RectsOf(Part(t, i, c)) == if c.Capacitor? then [] else [ResistorBody(t, i)]
  {
    var p := Part(t, i, c);
    var n := |p|;
    assert p[n..] == [];
    assert p[n - 1..][1..] == p[n..];
    assert p[n - 2..][1..] == p[n - 1..];
    assert p[n - 3..][1..] == p[n - 2..];
    assert p[0..] == p;
    assert LabelsOf(p[n - 1..]) == [LabelFor(i, c)];
    assert LabelsOf(p[n - 2..]) == [LabelFor(i, c)];
    assert LabelsOf(p[n - 3..]) == [LabelFor(i, c)];
    assert RectsOf(p[n - 1..]) == [];
    assert RectsOf(p[n - 2..]) == if c.Capacitor? then [] else [ResistorBody(t, i)];
    assert RectsOf(p[n - 3..]) == if c.Capacitor? then [] else [ResistorBody(t, i)];
    if c.Capacitor? {
      assert p[0..][1..] == p[1..];
    }
  }

  /** Lines alone carry no label and no rectangle. */
  lemma {:induction false} OnlyLines(ps: seq<Primitive>)
    requires forall k :: 0 <= k < |ps| ==> ps[k].Line?
    ensures LabelsOf(ps) == [] && RectsOf(ps) == []
  {
    if ps != [] {
      OnlyLines(ps[1..]);
    }
  }

  /** The first k iterations, all over resistors, draw three primitives each. */
  lemma {:induction false} PartsLength(t: Topology, cs: seq<Component>, k: nat)
    requires k <= |cs|
    requires forall j :: 0 <= j < k ==> cs[j].Resistor?
    ensures |Parts(t, cs, k)| == 3 * k
  {
    if k > 0 {
      PartsLength(t, cs, k - 1);
    }
  }

  /** The label each of the first k components is drawn with, in order. */
  function LabelsFor(cs: seq<Component>, k: nat): (labels: seq<LabelKind>)
    requires k <= |cs|
    ensures |labels| == k
  {
    seq(k, i requires 0 <= i < k => LabelFor(i, cs[i]))
  }

  /** The rectangles of resistors 0 … k-1, in order. */
  function Bodies(t: Topology, k: nat): (rects: seq<Primitive>)
    ensures |rects| == k
  {
    seq(k, i requires 0 <= i < k => ResistorBody(t, i))
  }

  lemma LabelsForStep(cs: seq<Component>, k: nat)
    requires 0 < k <= |cs|
    ensures LabelsFor(cs, k) == LabelsFor(cs, k - 1) + [LabelFor(k - 1, cs[k - 1])]
  {
    assert forall i :: 0 <= i < k - 1 ==> LabelsFor(cs, k)[i] == LabelsFor(cs, k - 1)[i];
  }

  lemma BodiesStep(t: Topology, k: nat)
    requires 0 < k
    ensures Bodies(t, k) == Bodies(t, k - 1) + [ResistorBody(t, k - 1)]
  {
    assert forall i :: 0 <= i < k - 1 ==> Bodies(t, k)[i] == Bodies(t, k - 1)[i];
  }

  /** The first k iterations draw one label per component, in component order. */
  lemma {:induction false} PartsLabels(t: Topology, cs: seq<Component>, k: nat)
    requires k <= |cs|
    ensures LabelsOf(Parts(t, cs, k)) == LabelsFor(cs, k)
  {
    if k > 0 {
      PartsLabels(t, cs, k - 1);
      LabelsOfIteration(t, cs, k - 1);
      LabelsForStep(cs, k);
    }
  }

  /** Iteration i adds its one label after those drawn before it. */
  lemma LabelsOfIteration(t: Topology, cs: seq<Component>, i: nat)
    requires i < |cs|
    ensures LabelsOf(Parts(t, cs, i + 1)) == LabelsOf(Parts(t, cs, i)) + [LabelFor(i, cs[i])]
  {
    var before, part := Parts(t, cs, i), Part(t, i, cs[i]);
    assert Parts(t, cs, i + 1) == before + part;
    LabelsOfConcat(before, part);
    PartContents(t, i, cs[i]);
  }

  /** The first k iterations, all over resistors, draw the rectangles of
      resistors 0 … k-1 in order. */
  lemma {:induction false} PartsRects(t: Topology, cs: seq<Component>, k: nat)
    requires k <= |cs|
    requires forall j :: 0 <= j < k ==> cs[j].Resistor?
    ensures RectsOf(Parts(t, cs, k)) == Bodies(t, k)
  {
    if k > 0 {
      PartsRects(t, cs, k - 1);
      RectsOfIteration(t, cs, k - 1);
      BodiesStep(t, k);
    }
  }

  /** Iteration i adds its rectangle, if it draws a resistor, after those drawn before it. */
  lemma RectsOfIteration(t: Topology, cs: seq<Component>, i: nat)
    requires i < |cs|
    ensures RectsOf(Parts(t, cs, i + 1))
            == RectsOf(Parts(t, cs, i)) + if cs[i].Capacitor? then [] else [ResistorBody(t, i)]
  {
    var before, part := Parts(t, cs, i), Part(t, i, cs[i]);
    assert Parts(t, cs, i + 1) == before + part;
    RectsOfConcat(before, part);
    PartContents(t, i, cs[i]);
  }

  /** What the first j iterations draw is where the first k begin. */
  lemma {:induction false} PartsPrefix(t: Topology, cs: seq<Component>, j: nat, k: nat)
    requires j <= k <= |cs|
    ensures |Parts(t, cs, j)| <= |Parts(t, cs, k)|
    ensures Parts(t, cs, k)[..|Parts(t, cs, j)|] == Parts(t, cs, j)
  {
    if j < k {
      PartsPrefix(t, cs, j, k - 1);
      PrefixOfAppend(Parts(t, cs, k), Parts(t, cs, k - 1), Part(t, k - 1, cs[k - 1]), Parts(t, cs, j));
    }
  }

  /** Component i of the layout is drawn by exactly the calls of its loop
      iteration, right after the lines drawn before the loop and the three
      calls of each earlier resistor. */
  lemma PartAt(t: Topology, cs: seq<Component>, i: nat)
    requires i < |cs|
    requires forall j :: 0 <= j < i ==> cs[j].Resistor?
    ensures |Before(t, |cs|)| + 3 * i + |Part(t, i, cs[i])| <= |Layout(t, cs)|
    ensures Layout(t, cs)[|Before(t, |cs|)| + 3 * i..|Before(t, |cs|)| + 3 * i + |Part(t, i, cs[i])|] == Part(t, i, cs[i])
  {
    PartInLoop(t, cs, i);
    SliceOfMiddle(Layout(t, cs), Before(t, |cs|), Parts(t, cs, |cs|), After(t, |cs|), 3 * i, Part(t, i, cs[i]));
  }

  /** Iteration i's calls sit at 3 * i in what the whole loop draws, when every
      earlier component is a resistor. */
  lemma PartInLoop(t: Topology, cs: seq<Component>, i: nat)
    requires i < |cs|
    requires forall j :: 0 <= j < i ==> cs[j].Resistor?
    ensures 3 * i + |Part(t, i, cs[i])| <= |Parts(t, cs, |cs|)|
    ensures Parts(t, cs, |cs|)[3 * i..3 * i + |Part(t, i, cs[i])|] == Part(t, i, cs[i])
  {
    var whole, prefix, part := Parts(t, cs, |cs|), Parts(t, cs, i), Part(t, i, cs[i]);
    PartsLength(t, cs, i);
    PartsBeginWith(t, cs, i);
    SliceAfterPrefix(whole, prefix, part);
  }

  /** The whole loop's calls begin with those of its first i + 1 iterations. */
  lemma PartsBeginWith(t: Topology, cs: seq<Component>, i: nat)
    requires i < |cs|
    ensures |Parts(t, cs, i)| + |Part(t, i, cs[i])| <= |Parts(t, cs, |cs|)|
    ensures Parts(t, cs, |cs|)[..|Parts(t, cs, i)| + |Part(t, i, cs[i])|] == Parts(t, cs, i) + Part(t, i, cs[i])
  {
    PartsPrefix(t, cs, i + 1, |cs|);
    assert Parts(t, cs, i + 1) == Parts(t, cs, i) + Part(t, i, cs[i]);
  }

  /** A prefix of p is a prefix of p + q. */
  lemma PrefixOfAppend<T>(s: seq<T>, p: seq<T>, q: seq<T>, r: seq<T>)
    requires s == p + q
    requires |r| <= |p| && p[..|r|] == r
    ensures |r| <= |s| && s[..|r|] == r
  {
    assert forall k :: 0 <= k < |r| ==> s[k] == p[k];
  }

  /** What follows a known prefix in a sequence that starts with prefix + part. */
  lemma SliceAfterPrefix<T>(s: seq<T>, prefix: seq<T>, part: seq<T>)
    requires |prefix| + |part| <= |s| && s[..|prefix| + |part|] == prefix + part
    ensures s[|prefix|..|prefix| + |part|] == part
  {
    forall k | 0 <= k < |part|
      ensures s[|prefix|..|prefix| + |part|][k] == part[k]
    {
      assert s[|prefix| + k] == s[..|prefix| + |part|][|prefix| + k];
    }
  }

  /** A slice of the middle part of a three-part sequence. */
  lemma SliceOfMiddle<T>(whole: seq<T>, pre: seq<T>, mid: seq<T>, post: seq<T>, lo: nat, part: seq<T>)
    requires whole == pre + mid + post
    requires lo + |part| <= |mid| && mid[lo..lo + |part|] == part
    ensures |pre| + lo + |part| <= |whole|
    ensures whole[|pre| + lo..|pre| + lo + |part|] == part
  {
    forall k | 0 <= k < |part|
      ensures whole[|pre| + lo..|pre| + lo + |part|][k] == part[k]
    {
      assert whole[|pre| + lo + k] == mid[lo + k];
    }
  }

  /** The lines drawn around the loop add no label and no rectangle. */
  lemma FrameCarriesNothing(t: Topology, cs: seq<Component>)
    ensures LabelsOf(Layout(t, cs)) == LabelsOf(Parts(t, cs, |cs|))
    ensures RectsOf(Layout(t, cs)) == RectsOf(Parts(t, cs, |cs|))
  {
    var m, loop := |cs|, Parts(t, cs, |cs|);
    OnlyLines(Before(t, m));
    OnlyLines(After(t, m));
    LabelsOfConcat(Before(t, m), loop);
    LabelsOfConcat(Before(t, m) + loop, After(t, m));
    RectsOfConcat(Before(t, m), loop);
    RectsOfConcat(Before(t, m) + loop, After(t, m));
  }

  /** The labels of a layout, in order: R1 … Rn with the input values, then the single "C". */
  lemma LabelsInOrder(t: Topology, rs: seq<real>)
    ensures |LabelsOf(Layout(t, Components(rs)))| == |rs| + 1
    ensures forall i :: 0 <= i < |rs| ==> LabelsOf(Layout(t, Components(rs)))[i] == ResistorLabel(i + 1, rs[i])
    ensures LabelsOf(Layout(t, Components(rs)))[|rs|] == CapacitorLabel
  {
    var cs := Components(rs);
    PartsLabels(t, cs, |rs| + 1);
    FrameCarriesNothing(t, Components(rs));
    assert LabelsOf(Layout(t, Components(rs))) == LabelsFor(cs, |rs| + 1);
  }

  /** One rectangle per resistor, in input order, and none for the capacitor:
      side by side on y = 0 in series, stacked at y = -i in parallel. */
  lemma RectanglesInOrder(t: Topology, rs: seq<real>)
    ensures |RectsOf(Layout(t, Components(rs)))| == |rs|
    ensures t == Series ==> forall i :: 0 <= i < |rs| ==>
      RectsOf(Layout(t, Components(rs)))[i] == Rect(i as real + 0.25, -0.1, 0.5, 0.2)
    ensures t == Parallel ==> forall i :: 0 <= i < |rs| ==>
      RectsOf(Layout(t, Components(rs)))[i] == Rect(0.25, -(i as real) - 0.1, 0.5, 0.2)
  {
    PartsRects(t, Components(rs), |rs|);
    FrameCarriesNothing(t, Components(rs));
    RectsOfIteration(t, Components(rs), |rs|);
    assert RectsOf(Layout(t, Components(rs))) == Bodies(t, |rs|);
  }

  /** Series component i sits on the wire from x = i to x = i + 1 at y = 0: a
      resistor as a rectangle labelled R(i+1) with its value, the capacitor as
      two tick lines labelled "C". */
  lemma SeriesComponentAt(rs: seq<real>, i: nat)
    requires i <= |rs|
    ensures 3 * i + 6 < |Layout(Series, Components(rs))|
    ensures Layout(Series, Components(rs))[3 * i + 3] == Line(i as real, i as real + 1.0, 0.0, 0.0)
    ensures i < |rs| ==>
      Layout(Series, Components(rs))[3 * i + 4] == Rect(i as real + 0.25, -0.1, 0.5, 0.2) &&
      Layout(Series, Components(rs))[3 * i + 5] == Label(i as real + 0.5, -0.4, ResistorLabel(i + 1, rs[i]))
    ensures i == |rs| ==>
      Layout(Series, Components(rs))[3 * i + 4] == Line(i as real + 0.45, i as real + 0.45, -0.1, 0.1) &&
      Layout(Series, Components(rs))[3 * i + 5] == Line(i as real + 0.55, i as real + 0.55, -0.1, 0.1) &&
      Layout(Series, Components(rs))[3 * i + 6] == Label(i as real + 0.5, -0.4, CapacitorLabel)
  {
    var part := Part(Series, i, Components(rs)[i]);
    PartAt(Series, Components(rs), i);
    SeriesFrame(rs);
    assert Layout(Series, Components(rs))[3 * i + 3] == part[0];
    assert Layout(Series, Components(rs))[3 * i + 4] == part[1];
    assert Layout(Series, Components(rs))[3 * i + 5] == part[2];
    if i == |rs| {
      assert Layout(Series, Components(rs))[3 * i + 6] == part[3];
    }
  }

  /** Parallel component i is the branch from x = 0 to x = 1 at y = -i, with its
      rectangle and label R(i+1), or for the capacitor its two ticks and "C". */
  lemma ParallelComponentAt(rs: seq<real>, i: nat)
    requires i <= |rs|
    ensures 3 * i + 3 < |Layout(Parallel, Components(rs))|
    ensures Layout(Parallel, Components(rs))[3 * i] == Line(0.0, 1.0, -(i as real), -(i as real))
    ensures i < |rs| ==>
      Layout(Parallel, Components(rs))[3 * i + 1] == Rect(0.25, -(i as real) - 0.1, 0.5, 0.2) &&
      Layout(Parallel, Components(rs))[3 * i + 2] == Label(0.5, -(i as real) - 0.4, ResistorLabel(i + 1, rs[i]))
    ensures i == |rs| ==>
      Layout(Parallel, Components(rs))[3 * i + 1] == Line(0.45, 0.45, -(i as real) + 0.1, -(i as real) - 0.1) &&
      Layout(Parallel, Components(rs))[3 * i + 2] == Line(0.55, 0.55, -(i as real) + 0.1, -(i as real) - 0.1) &&
      Layout(Parallel, Components(rs))[3 * i + 3] == Label(0.5, -(i as real) - 0.4, CapacitorLabel)
  {
    var part := Part(Parallel, i, Components(rs)[i]);
    PartAt(Parallel, Components(rs), i);
    ParallelFrame(rs);
    assert Layout(Parallel, Components(rs))[3 * i] == part[0];
    assert Layout(Parallel, Components(rs))[3 * i + 1] == part[1];
    assert Layout(Parallel, Components(rs))[3 * i + 2] == part[2];
    if i == |rs| {
      assert Layout(Parallel, Components(rs))[3 * i + 3] == part[3];
    }
  }

  /** The series loop: top wire, left and right sides first, bottom wire last,
      all reaching x = n + 2. */
  lemma SeriesFrame(rs: seq<real>)
    ensures |Layout(Series, Components(rs))| == 3 * |rs| + 8
    ensures var right := |rs| as real + 2.0;
      Layout(Series, Components(rs))[..3] == [Line(0.0, right, 0.0, 0.0), Line(0.0, 0.0, 0.0, -1.0), Line(right, right, 0.0, -1.0)] &&
      Layout(Series, Components(rs))[3 * |rs| + 7] == Line(0.0, right, -1.0, -1.0)
  {
    PartsLength(Series, Components(rs), |rs|);
  }

  /** The parallel rails: drawn last, at x = 0 and x = 1, from y = 0 down to y = -n. */
  lemma ParallelFrame(rs: seq<real>)
    ensures |Layout(Parallel, Components(rs))| == 3 * |rs| + 6
    ensures Layout(Parallel, Components(rs))[3 * |rs| + 4] == Line(0.0, 0.0, 0.0, -(|rs| as real))
    ensures Layout(Parallel, Components(rs))[3 * |rs| + 5] == Line(1.0, 1.0, 0.0, -(|rs| as real))
  {
    PartsLength(Parallel, Components(rs), |rs|);
  }

  /** The horizontal extent of a primitive lies within [lo, hi]. */
  predicate WithinX(p: Primitive, lo: real, hi: real)
  {
    match p
    case Line(x1, x2, _, _) => lo <= x1 <= x2 <= hi
    case Rect(x, _, w, _) => lo <= x && x + w <= hi
    case Label(x, _, _) => lo <= x <= hi
  }

  lemma {:induction false} SeriesPartsInside(cs: seq<Component>, k: nat)
    requires k <= |cs|
    ensures forall p :: p in Parts(Series, cs, k) ==>
      WithinX(p, 0.0, k as real) && (p.Line? && p.y1 == p.y2 ==> p.y1 == 0.0)
  {
    if k > 0 {
      SeriesPartsInside(cs, k - 1);
      var before, part := Parts(Series, cs, k - 1), SeriesPart(k - 1, cs[k - 1]);
      assert Parts(Series, cs, k) == before + part;
      forall p | p in before + part
        ensures WithinX(p, 0.0, k as real) && (p.Line? && p.y1 == p.y2 ==> p.y1 == 0.0)
      {
        if p in before {
          assert WithinX(p, 0.0, (k - 1) as real);
        } else {
          SeriesPartInside(k - 1, cs[k - 1], p);
        }
      }
    }
  }

  lemma {:induction false} ParallelPartsInside(cs: seq<Component>, k: nat)
    requires k <= |cs|
    ensures forall p :: p in Parts(Parallel, cs, k) ==>
      WithinX(p, 0.0, 1.0) && (p.Line? && p.y1 == p.y2 ==> 1.0 - (k as real) <= p.y1 <= 0.0)
  {
    if k > 0 {
      ParallelPartsInside(cs, k - 1);
      var before, part := Parts(Parallel, cs, k - 1), ParallelPart(k - 1, cs[k - 1]);
      assert Parts(Parallel, cs, k) == before + part;
      forall p | p in before + part
        ensures WithinX(p, 0.0, 1.0) && (p.Line? && p.y1 == p.y2 ==> 1.0 - (k as real) <= p.y1 <= 0.0)
      {
        if p !in before {
          ParallelPartInside(k - 1, cs[k - 1], p);
        }
      }
    }
  }

  lemma SeriesPartInside(i: nat, c: Component, p: Primitive)
    requires p in SeriesPart(i, c)
    ensures WithinX(p, i as real, i as real + 1.0) && (p.Line? && p.y1 == p.y2 ==> p.y1 == 0.0)
  {
  }

  lemma ParallelPartInside(i: nat, c: Component, p: Primitive)
    requires p in ParallelPart(i, c)
    ensures WithinX(p, 0.0, 1.0) && (p.Line? && p.y1 == p.y2 ==> p.y1 == -(i as real))
  {
  }

  /** Everything in a series drawing lies between the sides x = 0 and x = n + 2,
      and every horizontal wire is the top (y = 0) or the bottom (y = -1). */
  lemma SeriesInsideLoop(rs: seq<real>)
    ensures forall p :: p in Layout(Series, Components(rs)) ==>
      WithinX(p, 0.0, |rs| as real + 2.0) && (p.Line? && p.y1 == p.y2 ==> p.y1 == 0.0 || p.y1 == -1.0)
  {
    SeriesPartsInside(Components(rs), |rs| + 1);
  }

  /** Everything in a parallel drawing lies between the rails x = 0 and x = 1,
      and every branch wire lies between the rails' ends y = 0 and y = -n. */
  lemma ParallelInsideRails(rs: seq<real>)
    ensures forall p :: p in Layout(Parallel, Components(rs)) ==>
      WithinX(p, 0.0, 1.0) && (p.Line? && p.y1 == p.y2 ==> -(|rs| as real) <= p.y1 <= 0.0)
  {
    ParallelPartsInside(Components(rs), |rs| + 1);
  }

  /** An unknown circuit type draws nothing and yields no figure. */
  lemma InvalidCircuitTypeDrawsNothing(rs: seq<real>, circuitType: string)
    requires circuitType != SERIES && circuitType != PARALLEL
    ensures Drawing(rs, circuitType) == []
    ensures Render(rs, circuitType) == Err(InvalidCircuitType)
  {
  }

  /** Series resistors [10, 20]: three labelled components (R1, R2 and C), two
      rectangles, and a title reporting 30. */
  lemma SeriesExample()
    ensures Render([10.0, 20.0], SERIES).Ok?
    ensures Render([10.0, 20.0], SERIES).value.title == Title(SERIES, 30.0)
    ensures LabelsOf(Render([10.0, 20.0], SERIES).value.primitives)
      == [ResistorLabel(1, 10.0), ResistorLabel(2, 20.0), CapacitorLabel]
    ensures |RectsOf(Render([10.0, 20.0], SERIES).value.primitives)| == 2
  {
    var rs := [10.0, 20.0];
    Resistance.Examples();
    LabelsInOrder(Series, rs);
    RectanglesInOrder(Series, rs);
  }
}
