/** The image preprocessor of ui.py (preprocess_image): reorder the colour
    channels, take the green channel, enhance it with CLAHE and replicate the
    enhanced plane into three identical channels. */
module Preprocessor {
  import opened Outcomes

  newtype byte = x: int | 0 <= x < 256

  /** A pixel lists its channel values in the image's channel order. */
  type Pixel = seq<byte>
  /** An image is a sequence of rows of pixels (height x width x channels). */
  type Image = seq<seq<Pixel>>
  /** A single-channel image: rows of intensities. */
  type Plane = seq<seq<byte>>

  /** Index of the green channel, in RGB order and in BGR order alike. */
  const Green: nat := 1

  function Height<T>(g: seq<seq<T>>): nat { |g| }

  function Width<T>(g: seq<seq<T>>): nat { if |g| == 0 then 0 else |g[0]| }

  /** Every row has the same length. */
  predicate IsRect<T>(g: seq<seq<T>>)
  {
    forall i :: 0 <= i < |g| ==> |g[i]| == Width(g)
  }

  /** A rectangular image whose every pixel has exactly c channels. */
  predicate HasChannels(img: Image, c: nat)
  {
    IsRect(img) &&
    forall i, j :: 0 <= i < |img| && 0 <= j < |img[i]| ==> |img[i][j]| == c
  }

  /** The channel count of the first pixel (0 for an empty image). */
  function Depth(img: Image): nat
  {
    if |img| == 0 || |img[0]| == 0 then 0 else |img[0][0]|
  }

  /** What the RGB-to-BGR conversion accepts: at least one pixel, and three
      channels or four (the fourth, alpha, is dropped). */
  predicate WellFormed(img: Image)
  {
    Height(img) > 0 && Width(img) > 0 && (Depth(img) == 3 || Depth(img) == 4) && HasChannels(img, Depth(img))
  }

  /** The parameters ui.py passes to cv2.createCLAHE. */
  datatype ClaheConfig = ClaheConfig(clipLimit: real, tileRows: nat, tileCols: nat)

  const SourceClahe := ClaheConfig(5.0, 8, 8)

  /** CLAHE is library code whose internals are not modelled: it is a
      parameter, of which the model only uses that it keeps a plane's shape. */
  type Enhancer = (ClaheConfig, Plane) -> Plane

  ghost predicate KeepsShape(clahe: Enhancer)
  {
    forall cfg, g :: IsRect(g) ==>
      IsRect(clahe(cfg, g)) && Height(clahe(cfg, g)) == Height(g) && Width(clahe(cfg, g)) == Width(g)
  }

  /** cv2.cvtColor(image, COLOR_RGB2BGR): the first and third channel of every
      pixel trade places; an alpha channel, if any, is dropped. */
  function SwapRB(img: Image, c: nat): (out: Image)
    requires HasChannels(img, c) && 3 <= c
    ensures HasChannels(out, 3) && Height(out) == Height(img) && Width(out) == Width(img)
    ensures forall i, j :: 0 <= i < |img| && 0 <= j < |img[i]| ==>
      out[i][j][0] == img[i][j][2] && out[i][j][2] == img[i][j][0]
    ensures forall i, j :: 0 <= i < |img| && 0 <= j < |img[i]| ==> out[i][j][1] == img[i][j][1]
  {
    seq(|img|, i requires 0 <= i < |img| =>
      seq(|img[i]|, j requires 0 <= j < |img[i]| => [img[i][j][2], img[i][j][1], img[i][j][0]]))
  }

  /** image[:, :, k]: the plane of channel k. */
  function Channel(img: Image, c: nat, k: nat): (p: Plane)
    requires HasChannels(img, c) && k < c
    ensures IsRect(p) && Height(p) == Height(img) && Width(p) == Width(img)
    ensures forall i, j :: 0 <= i < |img| && 0 <= j < |img[i]| ==> p[i][j] == img[i][j][k]
  {
    seq(|img|, i requires 0 <= i < |img| =>
      seq(|img[i]|, j requires 0 <= j < |img[i]| => img[i][j][k]))
  }

  /** cv2.merge([p, p, p]): three channels, each a copy of the plane. */
  function Merge3(p: Plane): (out: Image)
    requires IsRect(p)
    ensures HasChannels(out, 3) && Height(out) == Height(p) && Width(out) == Width(p)
    ensures forall i, j, k :: 0 <= i < |p| && 0 <= j < |p[i]| && 0 <= k < 3 ==> out[i][j][k] == p[i][j]
  {
    seq(|p|, i requires 0 <= i < |p| =>
      seq(|p[i]|, j requires 0 <= j < |p[i]| => [p[i][j], p[i][j], p[i][j]]))
  }

  /** preprocess_image. An input the colour conversion rejects is InvalidImage.
      Otherwise the result has the input's height and width and three channels,
      and every one of those channels is CLAHE (clip 5.0, 8x8 tiles) applied to
      the input's own green channel. */
  function Preprocess(img: Image, clahe: Enhancer): (r: Result<Image>)
    requires KeepsShape(clahe)
    ensures r.Ok? <==> WellFormed(img)
    ensures r.Err? ==> r.error == InvalidImage
    ensures r.Ok? ==> HasChannels(r.value, 3) && Height(r.value) == Height(img) && Width(r.value) == Width(img)
    ensures r.Ok? ==> forall k :: 0 <= k < 3 ==>
      Channel(r.value, 3, k) == clahe(SourceClahe, Channel(img, Depth(img), Green))
  {
    if !WellFormed(img) then Err(InvalidImage)
    else
      var bgr := SwapRB(img, Depth(img));
      var green := Channel(bgr, 3, Green);
      SwapKeepsGreen(img, Depth(img));
      var enhanced := clahe(SourceClahe, green);
      var out := Merge3(enhanced);
      forall k | 0 <= k < 3 ensures Channel(out, 3, k) == enhanced {
        MergeThenChannel(enhanced, k);
      }
      Ok(out)
  }

  /** The channel swap leaves the middle channel where it was, so index 1 of
      the reordered image is still the input's green channel. */
  lemma SwapKeepsGreen(img: Image, c: nat)
    requires HasChannels(img, c) && 3 <= c
    ensures Channel(SwapRB(img, c), 3, Green) == Channel(img, c, Green)
  {
    var a, b := Channel(SwapRB(img, c), 3, Green), Channel(img, c, Green);
    assert |a| == |b|;
    forall i | 0 <= i < |a| ensures a[i] == b[i] {
      assert |a[i]| == |b[i]|;
    }
  }

  /** Converting a 3-channel image from RGB to BGR twice gives it back. */
  lemma SwapRBInvolutive(img: Image)
    requires HasChannels(img, 3)
    ensures SwapRB(SwapRB(img, 3), 3) == img
  {
    var twice := SwapRB(SwapRB(img, 3), 3);
    assert |twice| == |img|;
    forall i | 0 <= i < |img| ensures twice[i] == img[i] {
      assert |twice[i]| == |img[i]|;
      forall j | 0 <= j < |img[i]| ensures twice[i][j] == img[i][j] {
        assert |twice[i][j]| == 3;
      }
    }
  }

  /** Any channel of the merged image is the plane that was merged. */
  lemma MergeThenChannel(p: Plane, k: nat)
    requires IsRect(p) && k < 3
    ensures Channel(Merge3(p), 3, k) == p
  {
    var q := Channel(Merge3(p), 3, k);
    assert |q| == |p|;
    forall i | 0 <= i < |p| ensures q[i] == p[i] {
      assert |q[i]| == |p[i]|;
    }
  }

  /** Preprocessing depends on the input only through its green channel:
      images that agree there are preprocessed to the same image. */
  lemma PreprocessOnlyReadsGreen(a: Image, b: Image, clahe: Enhancer)
    requires KeepsShape(clahe) && WellFormed(a) && WellFormed(b)
    requires Channel(a, Depth(a), Green) == Channel(b, Depth(b), Green)
    ensures Preprocess(a, clahe) == Preprocess(b, clahe)
  {
    SwapKeepsGreen(a, Depth(a));
    SwapKeepsGreen(b, Depth(b));
  }
}
