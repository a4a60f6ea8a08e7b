/** The themed chart surface (`MplCanvas`): one matplotlib figure with one axes,
    abstracted to the scene it shows. A `Scene` records the two background colours,
    the axes title, the marks drawn (bars, lines, pie wedges) and the grid, legend
    and aspect switches. The pure functions `Cleared`, `AfterBar`, `AfterLines` and
    `AfterPie` say what each drawing operation leaves on screen; the `Canvas` class
    performs the operations step by step and is proved to reach exactly that scene. */
module Charts {
  import opened Python

  const THEME_BG: string := "#111426"
  const GRID: string := "#262a40"
  const TEXT: string := "#cbd5e1"

  /** The seven-colour palette that bars, lines and wedges cycle through. */
  const COLORS: seq<string> := ["#6366f1", "#8b5cf6", "#ec4899", "#f59e0b", "#10b981", "#3b82f6", "#fb7185"]

  /** `COLORS[i % len(COLORS)]`: defined for every index, always a palette entry. */
  function PaletteColor(i: nat): (c: string)
    ensures c in COLORS
  {
    COLORS[i % |COLORS|]
  }

  /** Two indexes get the same colour exactly when they are congruent modulo the
      palette size: neighbours never share a colour, and the cycle repeats after 7. */
  lemma PaletteColorsCoincide(i: nat, j: nat)
    ensures PaletteColor(i) == PaletteColor(j) <==> i % 7 == j % 7
  {
  }

  /** `[COLORS[i % len(COLORS)] for i in range(n)]`. */
  function ColorList(n: nat): (r: seq<string>)
    ensures |r| == n
    ensures forall i :: 0 <= i < n ==> r[i] == COLORS[i % 7]
  {
    seq(n, i requires 0 <= i => PaletteColor(i))
  }

  /** Something drawn on the axes. */
  datatype Mark =
    | BarMark(category: string, height: PyValue, color: string)
    | LineMark(name: string, xs: seq<string>, ys: seq<PyValue>, color: string)
    | Wedge(category: string, size: PyValue, color: string)

  /** What the canvas shows. */
  datatype Scene = Scene(
    figureFace: string,   // fig.patch facecolor
    axesFace: string,     // ax facecolor
    title: string,        // axes title; "" when none is set
    marks: seq<Mark>,
    grid: bool,
    legend: bool,
    equalAspect: bool)

  /** The scene of a freshly constructed canvas. */
  const InitialScene: Scene := Scene(THEME_BG, THEME_BG, "", [], false, false, false)

  /** Both backgrounds carry the theme colour. */
  predicate Themed(s: Scene) {
    s.figureFace == THEME_BG && s.axesFace == THEME_BG
  }

  /** `ax.clear()`: title, marks, grid, legend and aspect are reset; the stored
      face colours survive. */
  function AxesCleared(s: Scene): (r: Scene)
    ensures r.figureFace == s.figureFace && r.axesFace == s.axesFace
    ensures r.title == "" && r.marks == [] && !r.grid && !r.legend && !r.equalAspect
  {
    s.(title := "", marks := [], grid := false, legend := false, equalAspect := false)
  }

  /** One bar per label, bar `i` coloured `COLORS[i % 7]` (`ax.bar` with the
      palette list). */
  function Bars(labels: seq<string>, values: seq<PyValue>): (r: seq<Mark>)
    requires |labels| == |values|
    ensures |r| == |labels|
    ensures forall i :: 0 <= i < |r| ==> r[i] == BarMark(labels[i], values[i], COLORS[i % 7])
  {
    var colors := ColorList(|labels|);
    seq(|labels|, i requires 0 <= i < |labels| => BarMark(labels[i], values[i], colors[i]))
  }

  /** One wedge per value, labelled and coloured by position (`ax.pie`). */
  function Wedges(labels: seq<string>, values: seq<PyValue>): (r: seq<Mark>)
    requires |labels| == |values|
    ensures |r| == |values|
    ensures forall i :: 0 <= i < |r| ==> r[i] == Wedge(labels[i], values[i], COLORS[i % 7])
  {
    var colors := ColorList(|labels|);
    seq(|values|, i requires 0 <= i < |values| => Wedge(labels[i], values[i], colors[i]))
  }

  /** One line per named series, in enumeration order, all sharing `xlabels`. */
  function LineMarks(xlabels: seq<string>, series: seq<(string, seq<PyValue>)>): (r: seq<Mark>)
    ensures |r| == |series|
    ensures forall i :: 0 <= i < |r| ==>
      r[i] == LineMark(series[i].0, xlabels, series[i].1, COLORS[i % 7])
  {
    seq(|series|, i requires 0 <= i < |series| => LineMark(series[i].0, xlabels, series[i].1, PaletteColor(i)))
  }

  /** Matplotlib refuses bars or wedges whose label and value lists differ in
      length; an empty list on either side never reaches it. */
  predicate Drawable(labels: seq<string>, values: seq<PyValue>) {
    labels == [] || values == [] || |labels| == |values|
  }

  /** Each line's y-values must match the shared x-labels in length. */
  predicate Aligned(xlabels: seq<string>, series: seq<(string, seq<PyValue>)>) {
    forall i :: 0 <= i < |series| ==> |series[i].1| == |xlabels|
  }

  /** The scene `clear(title)` leaves. */
  function Cleared(s: Scene, title: string): (r: Scene)
    ensures r.marks == [] && r.title == title && r.axesFace == THEME_BG
    ensures r.figureFace == s.figureFace && !r.grid && !r.legend && !r.equalAspect
  {
    AxesCleared(s).(axesFace := THEME_BG, title := title)
  }

  /** The scene `bar(labels, values, title)` leaves: themed and titled in every
      case, bars only when both lists are non-empty. */
  function AfterBar(s: Scene, labels: seq<string>, values: seq<PyValue>, title: string): (r: Scene)
    requires Drawable(labels, values)
    ensures r.axesFace == THEME_BG && r.figureFace == s.figureFace && r.title == title
    ensures !r.grid && !r.legend && !r.equalAspect
    ensures labels == [] || values == [] ==> r.marks == []
    ensures labels != [] && values != [] ==>
      |r.marks| == |labels| &&
      forall i :: 0 <= i < |labels| ==> r.marks[i] == BarMark(labels[i], values[i], COLORS[i % 7])
  {
    var marks := if labels != [] && values != [] then Bars(labels, values) else [];
    AxesCleared(s).(axesFace := THEME_BG, marks := marks, title := title)
  }

  /** The scene `lines(xlabels, series, title)` leaves. */
  function AfterLines(s: Scene, xlabels: seq<string>, series: seq<(string, seq<PyValue>)>, title: string): (r: Scene)
    requires Aligned(xlabels, series)
    ensures r.axesFace == THEME_BG && r.figureFace == s.figureFace && r.title == title
    ensures r.grid && r.legend && !r.equalAspect
    ensures |r.marks| == |series|
    ensures forall i :: 0 <= i < |series| ==>
      r.marks[i] == LineMark(series[i].0, xlabels, series[i].1, COLORS[i % 7])
  {
    AxesCleared(s).(axesFace := THEME_BG, marks := LineMarks(xlabels, series), grid := true, legend := true, title := title)
  }

  /** The scene `pie(labels, values, title)` leaves: on empty input the axes stay
      cleared and untitled; otherwise one wedge per value and the title. */
  function AfterPie(s: Scene, labels: seq<string>, values: seq<PyValue>, title: string): (r: Scene)
    requires Drawable(labels, values)
    ensures r.figureFace == THEME_BG && r.axesFace == s.axesFace
    ensures !r.grid && !r.legend
    ensures labels == [] || values == [] ==> r.marks == [] && r.title == "" && !r.equalAspect
    ensures labels != [] && values != [] ==>
      r.title == title && r.equalAspect && |r.marks| == |values| &&
      forall i :: 0 <= i < |values| ==> r.marks[i] == Wedge(labels[i], values[i], COLORS[i % 7])
  {
    var cleared := AxesCleared(s).(figureFace := THEME_BG);
    if labels == [] || values == [] then cleared
    else cleared.(marks := Wedges(labels, values), title := title, equalAspect := true)
  }

  /** Calling `clear(t)` twice leaves what calling it once leaves. */
  lemma ClearIdempotent(s: Scene, title: string)
    ensures Cleared(Cleared(s, title), title) == Cleared(s, title)
  {
  }

  /** Every operation starts from `ax.clear()`: what was on the axes before (title,
      marks, grid, legend, aspect) has no influence on what is shown after; only
      the background colours carry over. */
  lemma NoResidue(s1: Scene, s2: Scene, labels: seq<string>, values: seq<PyValue>,
                  xlabels: seq<string>, series: seq<(string, seq<PyValue>)>, title: string)
    requires s1.figureFace == s2.figureFace && s1.axesFace == s2.axesFace
    requires Drawable(labels, values) && Aligned(xlabels, series)
    ensures Cleared(s1, title) == Cleared(s2, title)
    ensures AfterBar(s1, labels, values, title) == AfterBar(s2, labels, values, title)
    ensures AfterLines(s1, xlabels, series, title) == AfterLines(s2, xlabels, series, title)
    ensures AfterPie(s1, labels, values, title) == AfterPie(s2, labels, values, title)
  {
  }

  /** A themed canvas stays themed whatever it is asked to draw. */
  lemma ThemeKept(s: Scene, labels: seq<string>, values: seq<PyValue>,
                  xlabels: seq<string>, series: seq<(string, seq<PyValue>)>, title: string)
    requires Themed(s) && Drawable(labels, values) && Aligned(xlabels, series)
    ensures Themed(Cleared(s, title))
    ensures Themed(AfterBar(s, labels, values, title))
    ensures Themed(AfterLines(s, xlabels, series, title))
    ensures Themed(AfterPie(s, labels, values, title))
  {
  }

  /** `MplCanvas`: the figure and axes are flattened into the fields of `Scene`. */
  class Canvas {
    var figureFace: string
    var axesFace: string
    var title: string
    var marks: seq<Mark>
    var grid: bool
    var legend: bool
    var equalAspect: bool

    function State(): Scene
      reads this
    {
      Scene(figureFace, axesFace, title, marks, grid, legend, equalAspect)
    }

    /** `__init__`: both faces set to the theme colour, nothing drawn. */
    constructor ()
      ensures State() == InitialScene
    {
      figureFace, axesFace := THEME_BG, THEME_BG;
      title, marks := "", [];
      grid, legend, equalAspect := false, false, false;
    }

    /** `self.ax.clear()`. */
    method ClearAxes()
      modifies this
      ensures State() == AxesCleared(old(State()))
    {
      title, marks := "", [];
      grid, legend, equalAspect := false, false, false;
    }

    /** `_style(title)`: sets the title (tick and spine colours are not modelled). */
    method Style(t: string)
      modifies this
      ensures State() == old(State()).(title := t)
    {
      title := t;
    }

    method Clear(t: string)
      modifies this
      ensures State() == Cleared(old(State()), t)
    {
      ClearAxes();
      axesFace := THEME_BG;
      Style(t);
    }

    method Bar(labels: seq<string>, values: seq<PyValue>, t: string)
      requires Drawable(labels, values)
      modifies this
      ensures State() == AfterBar(old(State()), labels, values, t)
    {
      ClearAxes();
      axesFace := THEME_BG;
      if labels != [] && values != [] {
        marks := marks + Bars(labels, values);
      }
      Style(t);
    }

    method Lines(xlabels: seq<string>, series: seq<(string, seq<PyValue>)>, t: string)
      requires Aligned(xlabels, series)
      modifies this
      ensures State() == AfterLines(old(State()), xlabels, series, t)
    {
      ClearAxes();
      axesFace := THEME_BG;
      var i := 0;
      while i < |series|
        invariant 0 <= i <= |series|
        invariant marks == LineMarks(xlabels, series[..i])
        invariant State() == AxesCleared(old(State())).(axesFace := THEME_BG, marks := marks)
      {
        var (name, y) := series[i];
        marks := marks + [LineMark(name, xlabels, y, PaletteColor(i))];
        i := i + 1;
      }
      assert series[..i] == series;
      grid := true;
      legend := true;
      Style(t);
    }

    method Pie(labels: seq<string>, values: seq<PyValue>, t: string)
      requires Drawable(labels, values)
      modifies this
      ensures State() == AfterPie(old(State()), labels, values, t)
    {
      ClearAxes();
      figureFace := THEME_BG;
      if labels == [] || values == [] {
        return;
      }
      marks := marks + Wedges(labels, values);
      title := t;
      equalAspect := true;
    }
  }
}
