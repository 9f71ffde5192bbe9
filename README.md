# Image processing demo: colour parsing, channel reversal and annotation dispatch

The demo is a Streamlit page that decodes an uploaded image with OpenCV and
shows it after one chosen operation. Almost everything on the page is widget
wiring or a single OpenCV call. This model covers the three parts of `main.py`
that have logic of their own:

- `hex_to_rgb` (module `HexColor`, `hex_color.dfy`). It strips every leading
  `#`, cuts the rest into Python slices at offsets 0, 2 and 4, and reads each
  slice with `int(…, 16)`. Python slices are clamped at the end of the string.
  So a stripped string of five characters still parses, with a one-digit last
  component. A shorter one makes `int("", 16)` raise, which the model returns as
  `None`. A formatter `FormatHex` is a right inverse of the parser: parsing what it formats gives the triple back.
- The channel reversal `image[:,:,::-1]` that every drawing helper returns, and
  the BGR-to-RGB conversion of `RGB_image` (module `Channels`, `channels.dfy`).
  An image is a `seq` of rows of pixels of 8-bit channel values.
- The annotation page (module `Annotation`, `annotation.dfy`). `Dispatch`
  lists the helper calls `main` makes for a select-box choice. It keeps the
  membership test, the equality test and the two substring tests
  (`choice in "Circle"`, `choice in "Text"`) exactly as written. The closed
  enumeration `Kind` with `Intended` is the reference it is proved against. The
  class `Canvas` holds the decoded image, which the drawing helpers change in
  place. The OpenCV drawing primitive is a function parameter `paint`.

## Model

| member | source | states |
|---|---|---|
| `HexColor.HexToRgb` | main.py:104-106 | succeeds exactly when at least five characters remain after stripping `#`; every component of the result is in [0,255] |
| `HexColor.StripHashes` | main.py:105 | `lstrip('#')`: the input is some number of `#` followed by the result, and the result does not start with `#` |
| `HexColor.ParseGroups` | main.py:106 | components come in order from the characters at [0,2), [2,4), [4,6) of the stripped string; fails exactly when it has fewer than five characters; components are in [0,255] |
| `HexColor.Slice` | main.py:106 | Python's `s[i:j]` clamped at the end of the string: its length is `j - i`, or what is left of `s` from `i`, or 0, and character k is `s[i + k]` |
| `HexColor.ParseSlice` | main.py:106 | `int(s, 16)` on a slice fails exactly when the slice is empty, and otherwise gives a value below 16^n |
| `HexColor.ParseHex` | main.py:106 | `int(s, 16)` on n hex digits is below 16^n |
| `HexColor.SliceValue` | main.py:106 | a one- or two-character slice reads as the digit value of its group, below 256 |
| `HexColor.SlicesParse` | main.py:106 | the three slices are all non-empty exactly when the stripped string has at least five characters, and each reads as its group's value |
| `HexColor.DigitValue` | main.py:106 | a hex digit in either case has a value below 16 |
| `HexColor.LeadingHashesIgnored` | main.py:105 | any number of leading `#` is removed and does not change the parse |
| `HexColor.NoHashParsedUnchanged` | main.py:105 | a string not starting with `#` is parsed unchanged |
| `HexColor.StripHashesAppend` | main.py:105 | stripping leaves text appended after a non-empty remainder in place |
| `HexColor.TrailingCharactersIgnored` | main.py:106 | characters from offset 6 of the stripped string on do not change the result |
| `HexColor.PickerFormat` | main.py:104-106 | a string in the picker's format, `#` and six hex digits, parses pair by pair into its three components |
| `HexColor.DefaultColour` | main.py:100-106 | the picker's default `"#00FFAA"` parses to (0, 255, 170) |
| `HexColor.HexDigit` | main.py:106 | the formatter's digit is a hex digit that the parser reads back as the same value, in either case |
| `HexColor.FormatHex` | main.py:104-106 | the formatter writes `#` and six hex digits |
| `HexColor.RoundTrip` | main.py:104-106 | formatting a triple in [0,255] with upper- or lower-case digits and parsing gives the triple back |
| `Channels.ReversePixel` | main.py:32 | one pixel's channels in the opposite order: channel k of the result is channel c-1-k of the input |
| `Channels.ReverseChannels` | main.py:32 | `[:,:,::-1]` keeps the number of rows, row lengths and channel counts, and maps every pixel to its reversal |
| `Channels.ReverseKeepsShape` | main.py:40 | an h x w x c image stays h x w x c |
| `Channels.ReverseAt` | main.py:48 | output (i, j, k) is input (i, j, c-1-k), which is (i, j, 2-k) for a colour image |
| `Channels.ReversePixelTwice` | main.py:32 | reversing a pixel twice gives it back |
| `Channels.ReverseChannelsTwice` | main.py:56 | reversing the channel axis twice gives back the original image |
| `Channels.BgrToRgb` | main.py:6-7 | BGR-to-RGB conversion keeps the shape and three channels per pixel |
| `Channels.ReverseIsBgrToRgb` | main.py:7 | on a colour image the `[:,:,::-1]` view equals the BGR-to-RGB conversion |
| `Channels.BgrToRgbTwice` | main.py:6-7 | the BGR-to-RGB conversion undoes itself |
| `Annotation.Contains` | main.py:121-127 | Python's `a in b` on strings: the empty string is in every string, and a string is in `b` only if it is no longer than `b` |
| `Annotation.ContainsIff` | main.py:121 | Python's `a in b` on strings holds exactly when `a` occurs at some offset of `b` |
| `Annotation.FirstCharacterAbsent` | main.py:127 | a string whose first character is not in `b` is not a substring of `b` |
| `Annotation.Dispatch` | main.py:110-131 | at most three helpers run, and each receives the thickness and the colour tuple unchanged, with no reordering to BGR |
| `Annotation.LineOrRectangleCalls` | main.py:110-118 | a helper runs exactly when the choice is "Line" or "Rectangle": `draw_line` for "Line", `draw_rectangle` for "Rectangle" |
| `Annotation.CircleCalls` | main.py:121-125 | `draw_circle` runs, with the page's radius, exactly when the choice occurs somewhere in "Circle" |
| `Annotation.TextCalls` | main.py:127-131 | `write_text` runs, with the page's text, exactly when the choice occurs somewhere in "Text" |
| `Annotation.Name` | main.py:99 | each kind's label is one of the select-box options |
| `Annotation.OptionsAreNames` | main.py:99 | every select-box option is the label of exactly one kind |
| `Annotation.ExactlyOneHelper` | main.py:110-131 | for "Line", "Circle", "Rectangle" and "Text", exactly one helper runs: `draw_line`, `draw_circle`, `draw_rectangle`, `write_text` respectively, with the page's inputs |
| `Annotation.EmptyChoiceRunsTwoHelpers` | main.py:121-131 | the substring tests are weaker than equality: an empty choice would run both the circle and the text helper |
| `Annotation.AnnotationCalls` | main.py:108-131 | fails exactly when the colour does not parse; otherwise every helper call gets the parsed triple in red, green, blue order |
| `Annotation.SolidPixel` | main.py:31 | the pixel a colour tuple paints holds component k of the tuple in channel k of the array |
| `Annotation.PureRed` | main.py:104-106 | `"#FF0000"` parses to (255, 0, 0) |
| `Annotation.PickedColourShownSwapped` | main.py:108-131 | as written, for every option exactly one view is shown, and a pixel the stroke covers for the picked `"#FF0000"` (red) is displayed in it as (0, 0, 255) |
| `Annotation.AsBgrTuple` | main.py:108 | the reordered tuple holds blue, green, red |
| `Annotation.AnnotationCallsBgr` | main.py:108-131 | the corrected page passes the triple in the array's blue, green, red order to every helper |
| `Annotation.CorrectedColourShownAsPicked` | main.py:108-131 | with the reordering, every pixel a stroke covers is displayed, in the view its helper returns, in exactly the picked colour |
| `Annotation.Views` | main.py:116-131 | one displayed view per helper call |
| `Annotation.SingleCall` | main.py:29-32 | a single helper call draws once into the image and yields its channel-reversed view |
| `Annotation.PaintAll` | main.py:116-131 | the image after the helpers' primitives have drawn into it in place, one after another |
| `Annotation.PaintAllAppend` | main.py:116-131 | drawing one run of calls and then another leaves the image that drawing the second run onto the result of the first does |
| `Annotation.PaintAllKeepsShape` | main.py:31 | if every primitive keeps the array's shape, so does any sequence of them |
| `Annotation.ViewAt` | main.py:116-131 | the view shown after helper k is the image after helpers 0 to k have drawn, channel-reversed |
| `Annotation.PaintsSolid` | main.py:29-56 | the assumption about the primitives: they keep the array's shape, and on a three-channel image a completely covered pixel is set to the call's colour tuple |
| `Annotation.FloodPaintsSolid` | main.py:29-56 | the assumption can be met: a primitive that floods the whole three-channel image satisfies it |
| `Annotation.FloodedRedLineShownBlue` | main.py:108-116 | as written, a red line flooded onto a one-pixel black image is shown as (0, 0, 255) |
| `Annotation.FloodedRedLineShownRed` | main.py:108-116 | with the reordering, the same line on the same image is shown as (255, 0, 0) |
| `Annotation.ShownAtCovered` | main.py:29-56 | a pixel the stroke of helper k covers is displayed in that helper's view as the call's colour tuple reversed |
| `Annotation.ShownSwapped` | main.py:108-131 | as written, every pixel a stroke covers is displayed, in the view its helper returns, as the picked colour with red and blue exchanged |
| `Annotation.Canvas.constructor` | main.py:67-68 | the canvas holds the decoded three-channel image |
| `Annotation.Canvas.Draw` | main.py:29-56 | the primitive changes the image in place; the helper returns its channel-reversed view, whose BGR-to-RGB conversion is the new image |
| `Annotation.Canvas.Annotate` | main.py:110-131 | the helpers run in `Dispatch` order on the same image and every returned view is shown; for each option exactly one primitive draws and exactly one view is shown |
| `Annotation.Canvas.Step` | main.py:116-131 | one helper call draws into the image and appends its view |

## Left out

- The Streamlit page (`st.*` calls, sliders, select boxes, file upload, rendering). It is user-interface plumbing. Widget values become parameters (`Inputs`, `choice`, `thickness`, `hex`).
- Image decoding with `cv2.imdecode` (main.py:67-68). It is a foreign library call on uploaded bytes. `Canvas.constructor` takes the decoded image as a parameter.
- `grayscale_image`, `threshold_image` and `brightness_contrast` (main.py:10-24). They are single OpenCV calls whose fixed-point weights, comparison rules, floating-point gain and saturating rounding are not in the source.
- Rasterisation by `cv2.line`, `cv2.circle`, `cv2.rectangle` and `cv2.putText`. It is anti-aliased drawing in an unseen library. `paint` stands for it. The canvas assumes that it keeps the array's shape. It is also modelled as a total function that never fails, so the primitives' errors are not modelled. For example, `cv2.circle` raises on a negative radius, which the radius input (main.py:124) does not rule out; the page then shows no view, while `Canvas.Annotate` promises one. The colour lemmas also assume `PaintsSolid`: a pixel that `covers` marks as completely covered is set to the call's colour tuple. Partly covered, anti-aliased edge pixels are not described.
- Aliasing: `image[:,:,::-1]` is a numpy view that shares memory with the image. The model returns it as a separate value.
- HexColor.HexToRgb: requires the characters it reads to be hexadecimal digits. Python's `int(…, 16)` also accepts a sign, surrounding whitespace (non-ASCII whitespace included), underscores between digits and any Unicode decimal digit (for example Arabic-Indic digits). The precondition excludes all of these, so none of them is modelled.
- Annotation.Canvas.Annotate: requires a colour that parses. The picker always delivers `#` and six digits. The exception `hex_to_rgb` raises otherwise is modelled only by `AnnotationCalls` returning `None`.
- Annotation.Canvas.Annotate: follows the source and passes the triple in red, green, blue order. The corrected order is modelled by `AnnotationCallsBgr` alone.

The colour picker delivers `#` and six digits. `hex_to_rgb` also accepts five (the last component is then one digit) and ignores everything after the sixth (main.py:106). The model follows the code on both.

## Findings

| source | as written | input that shows it | evidently intended | confidence | as-written member | corrected member |
|---|---|---|---|---|---|---|
| main.py:108-131 | the red, green, blue triple from `hex_to_rgb` is passed as `color` to OpenCV primitives that write into a blue, green, red array, and the array is then shown channel-reversed | picked colour `"#FF0000"`: a fully painted pixel is shown as (0, 0, 255), blue | strokes are shown in the picked colour | not executed | `Annotation.PickedColourShownSwapped` | `Annotation.CorrectedColourShownAsPicked` |
