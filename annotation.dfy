/**
 * The annotation page: the chosen shape name selects which drawing helper runs,
 * the picked colour is parsed by `hex_to_rgb` and handed to the helper as its
 * `color` tuple, and each helper lets an OpenCV primitive draw into the decoded
 * image in place before returning the image with its channel axis reversed.
 */
module Annotation {
  import opened HexColor
  import opened Channels

  /** The options of the annotation select box, in display order. */
  const Options: seq<string> := ["Line", "Circle", "Rectangle", "Text"]

  /** Python's `a in b` on two strings: `a` occurs in `b` as a contiguous run. */
  predicate Contains(b: string, a: string)
    ensures |a| == 0 ==> Contains(b, a)
    ensures Contains(b, a) ==> |a| <= |b|
    decreases |b|
  {
    (|a| <= |b| && a == b[..|a|]) || (|b| > 0 && Contains(b[1..], a))
  }

  /** `a` occurs in `b` at offset `i`. */
  predicate OccursAt(b: string, a: string, i: int) {
    0 <= i <= |b| - |a| && b[i..i + |a|] == a
  }

  /** `Contains` agrees with the textbook definition of a substring, both ways. */
  lemma {:induction false} ContainsIff(b: string, a: string)
    ensures Contains(b, a) <==> exists i :: OccursAt(b, a, i)
    decreases |b|
  {
    if |a| <= |b| && a == b[..|a|] {
      assert OccursAt(b, a, 0);
    } else if |b| > 0 {
      ContainsIff(b[1..], a);
      if Contains(b[1..], a) {
        var i :| OccursAt(b[1..], a, i);
        assert b[i + 1..i + 1 + |a|] == b[1..][i..i + |a|];
        assert OccursAt(b, a, i + 1);
      }
      if exists i :: OccursAt(b, a, i) {
        var i :| OccursAt(b, a, i);
        assert i != 0;
        assert b[1..][i - 1..i - 1 + |a|] == b[i..i + |a|];
        assert OccursAt(b[1..], a, i - 1);
      }
    } else {
      assert forall i :: !OccursAt(b, a, i);
    }
  }

  /** A string whose first character does not appear in `b` does not occur in `b`. */
  lemma {:induction false} FirstCharacterAbsent(b: string, a: string)
    requires |a| > 0 && a[0] !in b
    ensures !Contains(b, a)
    decreases |b|
  {
    if |b| > 0 {
      assert b[0] in b;
      assert forall ch :: ch in b[1..] ==> ch in b;
      FirstCharacterAbsent(b[1..], a);
    }
  }

  /** A colour as the drawing helpers receive it: a Python 3-tuple. */
  type ColourTuple = (int, int, int)

  /** The parsed triple as a tuple, in the order `hex_to_rgb` produced it. */
  function AsTuple(c: Rgb): ColourTuple {
    (c.red, c.green, c.blue)
  }

  /** One call of a drawing helper, with the arguments `main` passes to it. */
  datatype Call =
    | DrawLine(x1: int, y1: int, x2: int, y2: int, thickness: int, color: ColourTuple)
    | DrawCircle(x: int, y: int, rad: int, color: ColourTuple, thickness: int)
    | DrawRectangle(x1: int, y1: int, x2: int, y2: int, thickness: int, color: ColourTuple)
    | WriteText(text: string, x: int, y: int, thickness: int, color: ColourTuple)

  /**
   * The values the page's number and text inputs return: the two corners of a
   * line or rectangle, the centre and radius of a circle, and the origin and
   * string of a text.
   */
  datatype Inputs = Inputs(
    x1: int, y1: int, x2: int, y2: int,
    cx: int, cy: int, radius: int,
    tx: int, ty: int, text: string)

  /**
   * The helpers `main` calls for `choice`, in the order it calls them: the
   * membership test in ["Line", "Rectangle"] with its equality test for "Line",
   * then the substring tests `choice in "Circle"` and `choice in "Text"`.
   * Every helper receives the thickness and the colour tuple unchanged.
   */
  function Dispatch(choice: string, thickness: int, color: ColourTuple, inp: Inputs): (calls: seq<Call>)
    ensures |calls| <= 3
    ensures forall k :: 0 <= k < |calls| ==> calls[k].color == color && calls[k].thickness == thickness
  {
    LineOrRectangleCalls(choice, thickness, color, inp) +
    CircleCalls(choice, thickness, color, inp) +
    TextCalls(choice, thickness, color, inp)
  }

  /** Lines 110-118: `draw_line` or `draw_rectangle` when the choice is one of those two. */
  function LineOrRectangleCalls(choice: string, thickness: int, color: ColourTuple, inp: Inputs): (calls: seq<Call>)
    ensures |calls| <= 1
    ensures |calls| == 1 <==> choice == "Line" || choice == "Rectangle"
    ensures |calls| == 1 ==> (calls[0].DrawLine? <==> choice == "Line") && (calls[0].DrawRectangle? <==> choice == "Rectangle")
  {
    if choice in ["Line", "Rectangle"] then
      if choice == "Line" then [DrawLine(inp.x1, inp.y1, inp.x2, inp.y2, thickness, color)]
      else [DrawRectangle(inp.x1, inp.y1, inp.x2, inp.y2, thickness, color)]
    else []
  }

  /** Lines 121-125: `draw_circle` when the choice is a substring of "Circle". */
  function CircleCalls(choice: string, thickness: int, color: ColourTuple, inp: Inputs): (calls: seq<Call>)
    ensures |calls| <= 1
    ensures |calls| == 1 <==> exists i :: OccursAt("Circle", choice, i)
    ensures |calls| == 1 ==> calls[0].DrawCircle? && calls[0].rad == inp.radius
  {
    ContainsIff("Circle", choice);
    if Contains("Circle", choice) then [DrawCircle(inp.cx, inp.cy, inp.radius, color, thickness)] else []
  }

  /** Lines 127-131: `write_text` when the choice is a substring of "Text". */
  function TextCalls(choice: string, thickness: int, color: ColourTuple, inp: Inputs): (calls: seq<Call>)
    ensures |calls| <= 1
    ensures |calls| == 1 <==> exists i :: OccursAt("Text", choice, i)
    ensures |calls| == 1 ==> calls[0].WriteText? && calls[0].text == inp.text
  {
    ContainsIff("Text", choice);
    if Contains("Text", choice) then [WriteText(inp.text, inp.tx, inp.ty, thickness, color)] else []
  }

  /** The four annotation kinds as a closed enumeration. */
  datatype Kind = Line | Circle | Rectangle | Text

  /** The select-box label of each kind. */
  function Name(k: Kind): (s: string)
    ensures s in Options
  {
    match k
    case Line => "Line"
    case Circle => "Circle"
    case Rectangle => "Rectangle"
    case Text => "Text"
  }

  /** The one helper each kind is meant to run, chosen by equality on the kind. */
  function Intended(k: Kind, thickness: int, color: ColourTuple, inp: Inputs): Call {
    match k
    case Line => DrawLine(inp.x1, inp.y1, inp.x2, inp.y2, thickness, color)
    case Circle => DrawCircle(inp.cx, inp.cy, inp.radius, color, thickness)
    case Rectangle => DrawRectangle(inp.x1, inp.y1, inp.x2, inp.y2, thickness, color)
    case Text => WriteText(inp.text, inp.tx, inp.ty, thickness, color)
  }

  /** Every option of the select box is the label of exactly one kind. */
  lemma OptionsAreNames(choice: string)
    requires choice in Options
    ensures exists k :: Name(k) == choice
    ensures forall k, k' :: Name(k) == choice && Name(k') == choice ==> k == k'
  {
    if choice == "Line" { assert Name(Line) == choice; }
    else if choice == "Circle" { assert Name(Circle) == choice; }
    else if choice == "Rectangle" { assert Name(Rectangle) == choice; }
    else { assert Name(Text) == choice; }
  }

  /**
   * For each option exactly one helper runs, and it is the intended one: the
   * substring tests pick out the same option as equality would.
   */
  lemma ExactlyOneHelper(k: Kind, thickness: int, color: ColourTuple, inp: Inputs)
    ensures Dispatch(Name(k), thickness, color, inp) == [Intended(k, thickness, color, inp)]
  {
    match k
    case Line =>
      FirstCharacterAbsent("Circle", "Line");
      FirstCharacterAbsent("Text", "Line");
    case Circle =>
      assert !Contains("Text", "Circle");
      assert Contains("Circle", "Circle");
    case Rectangle =>
      assert !Contains("Circle", "Rectangle");
      assert !Contains("Text", "Rectangle");
    case Text =>
      FirstCharacterAbsent("Circle", "Text");
      assert Contains("Text", "Text");
  }

  /**
   * The substring tests are weaker than equality: an empty choice, which the
   * select box never offers, would run both the circle and the text helper.
   */
  lemma EmptyChoiceRunsTwoHelpers(thickness: int, color: ColourTuple, inp: Inputs)
    ensures Dispatch("", thickness, color, inp) ==
      [DrawCircle(inp.cx, inp.cy, inp.radius, color, thickness),
       WriteText(inp.text, inp.tx, inp.ty, thickness, color)]
  {
    assert Contains("Circle", "") && Contains("Text", "");
  }

  /**
   * Lines 104-131 of `main`: the picked colour is parsed and its triple passed on
   * unchanged, in red, green, blue order, as the `color` of every helper call;
   * an unparsable colour raises before any helper runs.
   */
  function AnnotationCalls(choice: string, thickness: int, hex: string, inp: Inputs): (r: Option<seq<Call>>)
    requires WellFormed(hex)
    ensures r.None? <==> HexToRgb(hex).None?
    ensures r.Some? ==> forall k :: 0 <= k < |r.value| ==>
      r.value[k].color == (HexToRgb(hex).value.red, HexToRgb(hex).value.green, HexToRgb(hex).value.blue)
  {
    match HexToRgb(hex)
    case None => None
    case Some(c) => Some(Dispatch(choice, thickness, AsTuple(c), inp))
  }

  /** The image after the primitives of `calls` have drawn into `g`, one after another. */
  function PaintAll(paint: (Call, Grid) -> Grid, calls: seq<Call>, g: Grid): Grid
    decreases |calls|
  {
    if calls == [] then g else paint(calls[|calls| - 1], PaintAll(paint, calls[..|calls| - 1], g))
  }

  /** Drawing `a` and then `b` leaves the image that drawing `b` onto the result of `a` does. */
  lemma {:induction false} PaintAllAppend(paint: (Call, Grid) -> Grid, a: seq<Call>, b: seq<Call>, g: Grid)
    ensures PaintAll(paint, a + b, g) == PaintAll(paint, b, PaintAll(paint, a, g))
    decreases |b|
  {
    if b == [] {
      assert a + b == a;
    } else {
      var n := |b| - 1;
      assert (a + b)[..|a + b| - 1] == a + b[..n];
      assert (a + b)[|a + b| - 1] == b[n];
      PaintAllAppend(paint, a, b[..n], g);
    }
  }

  /** The views the helpers of `calls` return, one after each drawing, starting from `g`. */
  function Views(paint: (Call, Grid) -> Grid, calls: seq<Call>, g: Grid): (views: seq<Grid>)
    ensures |views| == |calls|
    decreases |calls|
  {
    if calls == [] then []
    else Views(paint, calls[..|calls| - 1], g) + [ReverseChannels(PaintAll(paint, calls, g))]
  }

  /** A single helper call draws once and yields one view. */
  lemma SingleCall(paint: (Call, Grid) -> Grid, call: Call, g: Grid)
    ensures PaintAll(paint, [call], g) == paint(call, g)
    ensures Views(paint, [call], g) == [ReverseChannels(paint(call, g))]
  {
    assert [call][..0] == [];
  }

  /** Drawing never changes the image's shape. */
  ghost predicate KeepsShape(paint: (Call, Grid) -> Grid) {
    forall c, g :: SameShape(g, paint(c, g))
  }

  /** After any number of shape-keeping primitives the image has its old shape. */
  lemma {:induction false} PaintAllKeepsShape(paint: (Call, Grid) -> Grid, calls: seq<Call>, g: Grid)
    requires KeepsShape(paint)
    ensures SameShape(g, PaintAll(paint, calls, g))
    decreases |calls|
  {
    if calls != [] {
      PaintAllKeepsShape(paint, calls[..|calls| - 1], g);
    }
  }

  /** The view shown after call `k` is the image after calls 0 to `k`, channel-reversed. */
  lemma {:induction false} ViewAt(paint: (Call, Grid) -> Grid, calls: seq<Call>, g: Grid, k: nat)
    requires k < |calls|
    ensures Views(paint, calls, g)[k] ==
      ReverseChannels(paint(calls[k], PaintAll(paint, calls[..k], g)))
    decreases |calls|
  {
    var n := |calls| - 1;
    assert calls[..k + 1][..k] == calls[..k];
    if k < n {
      assert calls[..n][k] == calls[k];
      assert calls[..n][..k] == calls[..k];
      ViewAt(paint, calls[..n], g, k);
    }
  }

  /** All three components of a colour tuple are 8-bit values. */
  predicate TupleInRange(color: ColourTuple) {
    0 <= color.0 < 256 && 0 <= color.1 < 256 && 0 <= color.2 < 256
  }

  /** The pixel a colour tuple gives: component k in channel k, in the array's own order. */
  function SolidPixel(color: ColourTuple): (p: Pixel)
    requires TupleInRange(color)
    ensures |p| == 3 && p[0] == color.0 && p[1] == color.1 && p[2] == color.2
  {
    [color.0, color.1, color.2]
  }

  /**
   * What is assumed of OpenCV's primitives: they keep the image's shape, and on a
   * three-channel image a pixel `covers` says the stroke of a call covers
   * completely is set to the call's colour tuple, whatever was there before.
   */
  ghost predicate PaintsSolid(paint: (Call, Grid) -> Grid, covers: (Call, int, int) -> bool) {
    KeepsShape(paint) &&
    forall c: Call, g: Grid, i: int, j: int {:trigger covers(c, i, j), paint(c, g)} ::
      TupleInRange(c.color) && IsColourImage(g) && 0 <= i < |g| && 0 <= j < |g[i]| && covers(c, i, j) ==>
        paint(c, g)[i][j] == SolidPixel(c.color)
  }

  /** A primitive that floods every pixel of a three-channel image with the call's colour. */
  function Flood(c: Call, g: Grid): (r: Grid)
    ensures SameShape(g, r)
  {
    seq(|g|, i requires 0 <= i < |g| =>
      seq(|g[i]|, j requires 0 <= j < |g[i]| =>
        if |g[i][j]| == 3 && TupleInRange(c.color) then SolidPixel(c.color) else g[i][j]))
  }

  /** `PaintsSolid` can be met: flooding covers every pixel completely. */
  lemma FloodPaintsSolid()
    ensures PaintsSolid(Flood, (c: Call, i: int, j: int) => true)
  {
    assert KeepsShape(Flood);
  }

  /**
   * A pixel that the stroke of call `k` covers completely is displayed, in the
   * view that helper returns, as the call's colour tuple reversed.
   */
  lemma ShownAtCovered(paint: (Call, Grid) -> Grid, covers: (Call, int, int) -> bool,
                       calls: seq<Call>, g: Grid, k: nat, i: nat, j: nat)
    requires PaintsSolid(paint, covers) && IsColourImage(g)
    requires k < |calls| && i < |g| && j < |g[i]|
    requires TupleInRange(calls[k].color) && covers(calls[k], i, j)
    ensures var v := Views(paint, calls, g)[k];
      i < |v| && j < |v[i]| && v[i][j] == ReversePixel(SolidPixel(calls[k].color))
    ensures var v, t := Views(paint, calls, g)[k], calls[k].color;
      i < |v| && j < |v[i]| && v[i][j] == [t.2, t.1, t.0]
  {
    ViewAt(paint, calls, g, k);
    var before := PaintAll(paint, calls[..k], g);
    PaintAllKeepsShape(paint, calls[..k], g);
    assert IsColourImage(before);
    assert i < |before| && j < |before[i]|;
    assert paint(calls[k], before)[i][j] == SolidPixel(calls[k].color);
    var t, p := calls[k].color, ReversePixel(SolidPixel(calls[k].color));
    assert p[0] == t.2 && p[1] == t.1 && p[2] == t.0;
  }

  /**
   * As written, the image array is in blue, green, red order but receives the
   * colour in red, green, blue order, so every fully covered pixel of every view
   * shown is displayed with red and blue exchanged.
   */
  lemma ShownSwapped(paint: (Call, Grid) -> Grid, covers: (Call, int, int) -> bool,
                     choice: string, thickness: int, hex: string, inp: Inputs, g: Grid, k: nat, i: nat, j: nat)
    requires PaintsSolid(paint, covers) && IsColourImage(g)
    requires WellFormed(hex) && HexToRgb(hex).Some?
    requires k < |AnnotationCalls(choice, thickness, hex, inp).value| && i < |g| && j < |g[i]|
    requires covers(AnnotationCalls(choice, thickness, hex, inp).value[k], i, j)
    ensures var c, v := HexToRgb(hex).value, Views(paint, AnnotationCalls(choice, thickness, hex, inp).value, g)[k];
      i < |v| && j < |v[i]| && v[i][j] == [c.blue, c.green, c.red]
  {
    var c, calls := HexToRgb(hex).value, AnnotationCalls(choice, thickness, hex, inp).value;
    assert calls[k].color == (c.red, c.green, c.blue);
    ShownAtCovered(paint, covers, calls, g, k, i, j);
  }

  /**
   * The concrete case: for every option, a pixel the stroke covers for the
   * picked "#FF0000" (red) is shown as (0, 0, 255), blue.
   */
  lemma PickedColourShownSwapped(paint: (Call, Grid) -> Grid, covers: (Call, int, int) -> bool,
                                 k: Kind, thickness: int, inp: Inputs, g: Grid, i: nat, j: nat)
    requires PaintsSolid(paint, covers) && IsColourImage(g)
    requires i < |g| && j < |g[i]|
    requires covers(Intended(k, thickness, (255, 0, 0), inp), i, j)
    ensures WellFormed("#FF0000") && HexToRgb("#FF0000") == Some(Rgb(255, 0, 0))
    ensures var views := Views(paint, AnnotationCalls(Name(k), thickness, "#FF0000", inp).value, g);
      |views| == 1 && i < |views[0]| && j < |views[0][i]| && views[0][i][j] == [0, 0, 255]
  {
    PureRed();
    ExactlyOneHelper(k, thickness, (255, 0, 0), inp);
    var calls := AnnotationCalls(Name(k), thickness, "#FF0000", inp).value;
    assert calls == [Intended(k, thickness, (255, 0, 0), inp)];
    ShownSwapped(paint, covers, Name(k), thickness, "#FF0000", inp, g, 0, i, j);
  }

  /** The picked colour of the example above: pure red. */
  lemma PureRed()
    ensures WellFormed("#FF0000") && HexToRgb("#FF0000") == Some(Rgb(255, 0, 0))
  {
    PickerFormat("#FF0000");
    assert DigitValue('0') == 0 && DigitValue('F') == 15;
  }

  /** The triple reordered to the array's blue, green, red channel order. */
  function AsBgrTuple(c: Rgb): (t: ColourTuple)
    ensures t.0 == c.blue && t.1 == c.green && t.2 == c.red
  {
    (c.blue, c.green, c.red)
  }

  /** `AnnotationCalls` with the colour converted to the array's channel order. */
  function AnnotationCallsBgr(choice: string, thickness: int, hex: string, inp: Inputs): (r: Option<seq<Call>>)
    requires WellFormed(hex)
    ensures r.None? <==> HexToRgb(hex).None?
    ensures r.Some? ==> forall k :: 0 <= k < |r.value| ==> r.value[k].color == AsBgrTuple(HexToRgb(hex).value)
  {
    match HexToRgb(hex)
    case None => None
    case Some(c) => Some(Dispatch(choice, thickness, AsBgrTuple(c), inp))
  }

  /**
   * With the reordering, every fully covered pixel of every view shown is
   * displayed in exactly the colour that was picked.
   */
  lemma CorrectedColourShownAsPicked(paint: (Call, Grid) -> Grid, covers: (Call, int, int) -> bool,
                                     choice: string, thickness: int, hex: string, inp: Inputs,
                                     g: Grid, k: nat, i: nat, j: nat)
    requires PaintsSolid(paint, covers) && IsColourImage(g)
    requires WellFormed(hex) && HexToRgb(hex).Some?
    requires k < |AnnotationCallsBgr(choice, thickness, hex, inp).value| && i < |g| && j < |g[i]|
    requires covers(AnnotationCallsBgr(choice, thickness, hex, inp).value[k], i, j)
    ensures var c, v := HexToRgb(hex).value, Views(paint, AnnotationCallsBgr(choice, thickness, hex, inp).value, g)[k];
      i < |v| && j < |v[i]| && v[i][j] == [c.red, c.green, c.blue]
  {
    var c, calls := HexToRgb(hex).value, AnnotationCallsBgr(choice, thickness, hex, inp).value;
    assert calls[k].color == (c.blue, c.green, c.red);
    ShownAtCovered(paint, covers, calls, g, k, i, j);
  }

  /**
   * The colour lemmas apply to real images: a red line flooded onto a one-pixel
   * black image is shown as blue.
   */
  lemma FloodedRedLineShownBlue(thickness: int, inp: Inputs)
    ensures WellFormed("#FF0000") && AnnotationCalls("Line", thickness, "#FF0000", inp).Some?
    ensures var views := Views(Flood, AnnotationCalls("Line", thickness, "#FF0000", inp).value, [[[0, 0, 0]]]);
      |views| == 1 && 0 < |views[0]| && 0 < |views[0][0]| && views[0][0][0] == [0, 0, 255]
  {
    FloodPaintsSolid();
    var g: Grid := [[[0, 0, 0]]];
    assert IsColourImage(g);
    PickedColourShownSwapped(Flood, (c: Call, i: int, j: int) => true, Line, thickness, inp, g, 0, 0);
  }

  /** With the reordering, the same red line on the same image is shown red. */
  lemma FloodedRedLineShownRed(thickness: int, inp: Inputs)
    ensures WellFormed("#FF0000") && AnnotationCallsBgr("Line", thickness, "#FF0000", inp).Some?
    ensures var views := Views(Flood, AnnotationCallsBgr("Line", thickness, "#FF0000", inp).value, [[[0, 0, 0]]]);
      |views| == 1 && 0 < |views[0]| && 0 < |views[0][0]| && views[0][0][0] == [255, 0, 0]
  {
    PureRed();
    FloodPaintsSolid();
    var g: Grid := [[[0, 0, 0]]];
    assert IsColourImage(g);
    var calls := AnnotationCallsBgr("Line", thickness, "#FF0000", inp).value;
    ExactlyOneHelper(Line, thickness, (0, 0, 255), inp);
    assert |calls| == 1;
    CorrectedColourShownAsPicked(Flood, (c: Call, i: int, j: int) => true, "Line", thickness, "#FF0000", inp, g, 0, 0, 0);
  }

  /**
   * The decoded image that the drawing helpers draw into. `paint` stands for the
   * OpenCV primitive (`cv2.line`, `cv2.circle`, `cv2.rectangle`, `cv2.putText`)
   * that a call runs; what it draws is not part of this model, only that it
   * keeps the array's shape.
   */
  class Canvas {
    var pixels: Grid

    ghost predicate Valid()
      reads this
    {
      IsColourImage(pixels)
    }

    constructor (decoded: Grid)
      requires IsColourImage(decoded)
      ensures Valid() && pixels == decoded
    {
      pixels := decoded;
    }

    /**
     * One drawing helper: the primitive draws into the image in place and the
     * helper returns `image[:,:,::-1]`, the display-ordered view of the new image.
     */
    method Draw(call: Call, paint: (Call, Grid) -> Grid) returns (view: Grid)
      requires Valid()
      requires SameShape(pixels, paint(call, pixels))
      modifies this
      ensures Valid() && pixels == paint(call, old(pixels))
      ensures view == ReverseChannels(pixels)
      ensures SameShape(old(pixels), view) && BgrToRgb(view) == pixels
    {
      pixels := paint(call, pixels);
      view := ReverseChannels(pixels);
      ReverseIsBgrToRgb(view);
      ReverseChannelsTwice(pixels);
    }

    /**
     * Lines 108-131 of `main` for a parsable colour: the helpers run in the order
     * `Dispatch` lists them, each drawing into the same image, and every view they
     * return is shown. For each select-box option exactly one view is shown.
     */
    method Annotate(choice: string, thickness: int, hex: string, inp: Inputs, paint: (Call, Grid) -> Grid)
      returns (shown: seq<Grid>)
      requires Valid() && WellFormed(hex) && HexToRgb(hex).Some?
      requires KeepsShape(paint)
      modifies this
      ensures Valid()
      ensures var calls := AnnotationCalls(choice, thickness, hex, inp).value;
        pixels == PaintAll(paint, calls, old(pixels)) && shown == Views(paint, calls, old(pixels))
      ensures forall k :: choice == Name(k) ==>
        var call := Intended(k, thickness, AsTuple(HexToRgb(hex).value), inp);
        pixels == paint(call, old(pixels)) && shown == [ReverseChannels(pixels)]
    {
      var color := AsTuple(HexToRgb(hex).value);
      ghost var calls := Dispatch(choice, thickness, color, inp);
      ghost var start := pixels;
      ghost var done: seq<Call> := [];
      shown := [];
      if choice in ["Line", "Rectangle"] {
        var call := if choice == "Line" then DrawLine(inp.x1, inp.y1, inp.x2, inp.y2, thickness, color)
                    else DrawRectangle(inp.x1, inp.y1, inp.x2, inp.y2, thickness, color);
        shown, done := Step(call, paint, shown, done, start);
      }
      assert done == LineOrRectangleCalls(choice, thickness, color, inp);
      if Contains("Circle", choice) {
        var call := DrawCircle(inp.cx, inp.cy, inp.radius, color, thickness);
        shown, done := Step(call, paint, shown, done, start);
      }
      assert done == LineOrRectangleCalls(choice, thickness, color, inp) + CircleCalls(choice, thickness, color, inp);
      if Contains("Text", choice) {
        var call := WriteText(inp.text, inp.tx, inp.ty, thickness, color);
        shown, done := Step(call, paint, shown, done, start);
      }
      assert done == calls;
      forall k | choice == Name(k)
        ensures calls == [Intended(k, thickness, color, inp)]
        ensures pixels == paint(calls[0], start) && shown == [ReverseChannels(pixels)]
      {
        ExactlyOneHelper(k, thickness, color, inp);
        SingleCall(paint, calls[0], start);
      }
    }

    /**
     * Runs one helper after the helpers `done` have drawn into the image that was
     * `start`, and appends the view it returns to `shown`.
     */
    method Step(call: Call, paint: (Call, Grid) -> Grid, shown: seq<Grid>, ghost done: seq<Call>, ghost start: Grid)
      returns (shown': seq<Grid>, ghost done': seq<Call>)
      requires Valid() && KeepsShape(paint)
      requires pixels == PaintAll(paint, done, start) && shown == Views(paint, done, start)
      modifies this
      ensures Valid() && done' == done + [call]
      ensures pixels == PaintAll(paint, done', start) && shown' == Views(paint, done', start)
    {
      var view := Draw(call, paint);
      shown', done' := shown + [view], done + [call];
      assert done'[..|done'| - 1] == done;
    }
  }
}
