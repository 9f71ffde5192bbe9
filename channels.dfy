/**
 * Images are height x width x channels arrays of 8-bit values, as `cv2.imdecode`
 * returns them (channel order blue, green, red). Every drawing helper returns
 * `image[:,:,::-1]`, the same array with the channel axis reversed, and
 * `RGB_image` asks OpenCV for the BGR-to-RGB conversion, which swaps the first
 * and last channel of every pixel.
 */
module Channels {

  type Byte = x: int | 0 <= x < 256

  /** The channel values of one pixel, in the array's own order. */
  type Pixel = seq<Byte>

  /** Rows of pixels: `g[i][j][k]` is channel `k` of the pixel in row `i`, column `j`. */
  type Grid = seq<seq<Pixel>>

  /** `g` is a dense h x w x c array. */
  predicate HasShape(g: Grid, h: nat, w: nat, c: nat) {
    |g| == h &&
    forall i :: 0 <= i < h ==> |g[i]| == w && forall j :: 0 <= j < w ==> |g[i][j]| == c
  }

  /** Two grids have the same rows, row lengths and channel counts. */
  predicate SameShape(a: Grid, b: Grid) {
    |a| == |b| &&
    forall i :: 0 <= i < |a| ==>
      |a[i]| == |b[i]| && forall j :: 0 <= j < |a[i]| ==> |a[i][j]| == |b[i][j]|
  }

  /** Every pixel has three channels, as a colour image decoded by OpenCV does. */
  predicate IsColourImage(g: Grid) {
    forall i, j :: 0 <= i < |g| && 0 <= j < |g[i]| ==> |g[i][j]| == 3
  }

  /** One pixel with its channels in the opposite order: `p[::-1]`. */
  function ReversePixel(p: Pixel): (q: Pixel)
    ensures |q| == |p|
    ensures forall k :: 0 <= k < |p| ==> q[k] == p[|p| - 1 - k]
  {
    seq(|p|, k requires 0 <= k < |p| => p[|p| - 1 - k])
  }

  /** `image[:,:,::-1]`: every pixel's channels reversed, nothing else moved. */
  function ReverseChannels(g: Grid): (r: Grid)
    ensures SameShape(g, r)
    ensures forall i, j :: 0 <= i < |g| && 0 <= j < |g[i]| ==> r[i][j] == ReversePixel(g[i][j])
  {
    seq(|g|, i requires 0 <= i < |g| =>
      seq(|g[i]|, j requires 0 <= j < |g[i]| => ReversePixel(g[i][j])))
  }

  /**
   * `cv2.cvtColor(img, cv2.COLOR_BGR2RGB)` on a three-channel image: each pixel
   * (b, g, r) becomes (r, g, b).
   */
  function BgrToRgb(g: Grid): (r: Grid)
    requires IsColourImage(g)
    ensures SameShape(g, r) && IsColourImage(r)
  {
    seq(|g|, i requires 0 <= i < |g| =>
      seq(|g[i]|, j requires 0 <= j < |g[i]| => [g[i][j][2], g[i][j][1], g[i][j][0]]))
  }

  /** Reversing the channel axis keeps the h x w x c shape. */
  lemma ReverseKeepsShape(g: Grid, h: nat, w: nat, c: nat)
    requires HasShape(g, h, w, c)
    ensures HasShape(ReverseChannels(g), h, w, c)
  {
  }

  /** Output pixel (i, j, k) is input pixel (i, j, c - 1 - k); for colour images c - 1 = 2. */
  lemma ReverseAt(g: Grid, i: nat, j: nat, k: nat)
    requires i < |g| && j < |g[i]| && k < |g[i][j]|
    ensures j < |ReverseChannels(g)[i]| && k < |ReverseChannels(g)[i][j]|
    ensures ReverseChannels(g)[i][j][k] == g[i][j][|g[i][j]| - 1 - k]
    ensures |g[i][j]| == 3 ==> ReverseChannels(g)[i][j][k] == g[i][j][2 - k]
  {
  }

  lemma {:induction false} ReversePixelTwice(p: Pixel)
    ensures ReversePixel(ReversePixel(p)) == p
  {
    var q := ReversePixel(ReversePixel(p));
    assert forall k :: 0 <= k < |p| ==> q[k] == p[k];
  }

  /** Reversing the channel axis twice gives back the original image. */
  lemma {:induction false} ReverseChannelsTwice(g: Grid)
    ensures ReverseChannels(ReverseChannels(g)) == g
  {
    var r := ReverseChannels(ReverseChannels(g));
    assert |r| == |g|;
    forall i | 0 <= i < |g|
      ensures r[i] == g[i]
    {
      assert |r[i]| == |g[i]|;
      forall j | 0 <= j < |g[i]|
        ensures r[i][j] == g[i][j]
      {
        ReversePixelTwice(g[i][j]);
      }
    }
  }

  /** On a colour image the display reversal is exactly OpenCV's BGR-to-RGB conversion. */
  lemma {:induction false} ReverseIsBgrToRgb(g: Grid)
    requires IsColourImage(g)
    ensures ReverseChannels(g) == BgrToRgb(g)
  {
    var r, b := ReverseChannels(g), BgrToRgb(g);
    forall i | 0 <= i < |g|
      ensures r[i] == b[i]
    {
      forall j | 0 <= j < |g[i]|
        ensures r[i][j] == b[i][j]
      {
        assert r[i][j] == ReversePixel(g[i][j]);
      }
    }
  }

  /** The conversion used for display undoes itself. */
  lemma BgrToRgbTwice(g: Grid)
    requires IsColourImage(g)
    ensures BgrToRgb(BgrToRgb(g)) == g
  {
    ReverseIsBgrToRgb(g);
    ReverseIsBgrToRgb(ReverseChannels(g));
    ReverseChannelsTwice(g);
  }
}
