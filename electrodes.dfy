/**
 * The electrode visualiser of the viewer page: for each electrode chosen,
 * a circular marker given by its bounding box on the brain picture and
 * its fill colour string. Drawing and compositing the picture are not
 * modelled; the list of markers is what they are handed.
 */
module Electrodes {

  /** `list(electrode_colors.keys())`, in the dictionary's insertion order. */
  const ELECTRODE_OPTIONS: seq<string> := ["FP1", "AF3", "AF7", "FZ", "F1"]

  /** `electrode_colors`. */
  const ELECTRODE_COLORS: map<string, string> := map[
    "FP1" := "red", "AF3" := "blue", "AF7" := "green", "FZ" := "orange", "F1" := "purple"
  ]

  /** `electrode_coords`, in pixels of the 850 x 655 picture. */
  const ELECTRODE_COORDS: map<string, (int, int)> := map[
    "FP1" := (310, 90), "AF3" := (340, 125), "AF7" := (280, 130), "FZ" := (425, 150), "F1" := (385, 140)
  ]

  /**
   * The same colours as `#rrggbb` strings (the CSS values Pillow gives
   * these names), which turn into `#rrggbbaa` once the alpha is appended.
   */
  const ELECTRODE_HEX_COLORS: map<string, string> := map[
    "FP1" := "#ff0000", "AF3" := "#0000ff", "AF7" := "#008000", "FZ" := "#ffa500", "F1" := "#800080"
  ]

  const MARKER_RADIUS := 15
  const ALPHA_SUFFIX := "80"
  const IMAGE_WIDTH := 850
  const IMAGE_HEIGHT := 655

  /** `(x0, y0, x1, y1)` as `draw.ellipse` takes it. */
  datatype Box = Box(left: int, top: int, right: int, bottom: int)

  /** One `draw.ellipse` call: its bounding box and its `fill`. */
  datatype Marker = Marker(box: Box, fill: string)

  /** The multiselect offers exactly the electrodes that have a colour and a position. */
  lemma OptionsMatchTables()
    ensures (set e | e in ELECTRODE_OPTIONS) == ELECTRODE_COLORS.Keys
    ensures ELECTRODE_COLORS.Keys == ELECTRODE_COORDS.Keys
    ensures ELECTRODE_COLORS.Keys == ELECTRODE_HEX_COLORS.Keys
    ensures forall i, j :: 0 <= i < j < |ELECTRODE_OPTIONS| ==> ELECTRODE_OPTIONS[i] != ELECTRODE_OPTIONS[j]
  {
  }

  /** The box of the circle of radius 15 around `centre`. */
  function BoundingBox(centre: (int, int)): (b: Box)
    ensures b.right - b.left == 2 * MARKER_RADIUS && b.bottom - b.top == 2 * MARKER_RADIUS
    ensures b.left + MARKER_RADIUS == centre.0 && b.top + MARKER_RADIUS == centre.1
  {
    var (x, y) := centre;
    Box(x - MARKER_RADIUS, y - MARKER_RADIUS, x + MARKER_RADIUS, y + MARKER_RADIUS)
  }

  /** `colour + "80"`: the colour with the alpha digits appended. */
  function Fill(colour: string): (r: string)
    ensures |r| == |colour| + 2 && r[..|colour|] == colour && r[|colour|..] == ALPHA_SUFFIX
  {
    colour + ALPHA_SUFFIX
  }

  /**
   * The marker `draw.ellipse` is called with for electrode `e`: the box
   * around its position, which lies inside the picture, and its colour
   * with the alpha digits appended.
   */
  function MarkerOf(e: string, colours: map<string, string>): (m: Marker)
    requires e in ELECTRODE_COORDS && e in colours
    ensures m.box == BoundingBox(ELECTRODE_COORDS[e])
    ensures 0 <= m.box.left && m.box.right <= IMAGE_WIDTH && 0 <= m.box.top && m.box.bottom <= IMAGE_HEIGHT
    ensures |m.fill| == |colours[e]| + |ALPHA_SUFFIX|
    ensures m.fill[..|colours[e]|] == colours[e] && m.fill[|colours[e]|..] == ALPHA_SUFFIX
  {
    Marker(BoundingBox(ELECTRODE_COORDS[e]), Fill(colours[e]))
  }

  /**
   * The drawing loop: one marker per selected electrode, in selection
   * order, and none for an empty selection. `colours` is the colour table
   * the loop reads.
   */
  method Markers(selected: seq<string>, colours: map<string, string>) returns (markers: seq<Marker>)
    requires forall e :: e in selected ==> e in ELECTRODE_COORDS && e in colours
    ensures |markers| == |selected|
    ensures forall i :: 0 <= i < |selected| ==>
      selected[i] in ELECTRODE_COORDS && selected[i] in colours && markers[i] == MarkerOf(selected[i], colours)
  {
    markers := [];
    for i := 0 to |selected|
      invariant |markers| == i
      invariant forall k :: 0 <= k < i ==>
        selected[k] in ELECTRODE_COORDS && selected[k] in colours && markers[k] == MarkerOf(selected[k], colours)
    {
      assert selected[i] in selected;
      markers := markers + [MarkerOf(selected[i], colours)];
    }
  }

  /**
   * The markers of two different electrodes never overlap: their boxes are
   * apart horizontally or vertically (at most sharing an edge), so no
   * marker hides another whatever the selection.
   */
  lemma MarkersApart(e1: string, e2: string)
    requires e1 in ELECTRODE_COORDS && e2 in ELECTRODE_COORDS && e1 != e2
    ensures var b1 := BoundingBox(ELECTRODE_COORDS[e1]);
      var b2 := BoundingBox(ELECTRODE_COORDS[e2]);
      b1.right <= b2.left || b2.right <= b1.left || b1.bottom <= b2.top || b2.bottom <= b1.top
  {
  }

  predicate IsLetter(c: char) {
    ('a' <= c <= 'z') || ('A' <= c <= 'Z')
  }

  predicate IsHexDigit(c: char) {
    ('0' <= c <= '9') || ('a' <= c <= 'f') || ('A' <= c <= 'F')
  }

  predicate IsColourName(s: string) {
    s != [] && forall i :: 0 <= i < |s| ==> IsLetter(s[i])
  }

  /**
   * What Pillow's `ImageColor.getrgb` accepts at the least: a colour name
   * (letters only), a string starting with `#`, or a functional form such
   * as `rgb(...)`, which holds a `(`. Every string it accepts passes this
   * test, so a string that fails it is refused.
   */
  predicate MayBeColourSpec(s: string) {
    IsColourName(s) || (s != [] && s[0] == '#') || '(' in s
  }

  /** The `#rrggbbaa` form: eight hexadecimal digits after `#`. */
  predicate IsHexRgba(s: string) {
    |s| == 9 && s[0] == '#' && forall i :: 1 <= i < 9 ==> IsHexDigit(s[i])
  }

  /** Appending the alpha digits to a colour name leaves no colour string. */
  lemma NameWithAlphaRejected(name: string)
    requires IsColourName(name)
    ensures !MayBeColourSpec(Fill(name))
  {
    var f := Fill(name);
    assert f[|f| - 1] == '0' && !IsLetter(f[|f| - 1]);
    assert f[0] == name[0] && IsLetter(f[0]);
    assert forall i :: 0 <= i < |name| ==> f[i] == name[i];
    assert f[|name|] == '8' && f[|name| + 1] == '0';
    assert '(' !in f by {
      forall i | 0 <= i < |f| ensures f[i] != '(' {
        if i < |name| {
          assert IsLetter(name[i]);
        }
      }
    }
  }

  /**
   * As written, every fill the loop passes to `draw.ellipse` ("red80",
   * "blue80", ...) is a string Pillow cannot read as a colour.
   */
  lemma AsWrittenFillsRejected(e: string)
    requires e in ELECTRODE_COLORS
    ensures !MayBeColourSpec(Fill(ELECTRODE_COLORS[e]))
  {
    var c := ELECTRODE_COLORS[e];
    assert IsColourName(c) by {
      if e == "FP1" { assert c == "red"; }
      else if e == "AF3" { assert c == "blue"; }
      else if e == "AF7" { assert c == "green"; }
      else if e == "FZ" { assert c == "orange"; }
      else { assert c == "purple"; }
    }
    NameWithAlphaRejected(c);
  }

  /** A `#rrggbb` colour with the alpha digits appended is a `#rrggbbaa` colour. */
  lemma HexWithAlphaAccepted(hex: string)
    requires |hex| == 7 && hex[0] == '#' && forall i :: 1 <= i < 7 ==> IsHexDigit(hex[i])
    ensures IsHexRgba(Fill(hex))
  {
  }

  /**
   * With the colours written as `#rrggbb`, every fill is `#rrggbb80`: the
   * colour at alpha 0x80, the half-transparent fill the loop is after.
   */
  lemma CorrectedFillsAccepted(e: string)
    requires e in ELECTRODE_HEX_COLORS
    ensures IsHexRgba(Fill(ELECTRODE_HEX_COLORS[e]))
    ensures Fill(ELECTRODE_HEX_COLORS[e])[7..] == ALPHA_SUFFIX
  {
  }
}
