/** The pixel measures of the vegetation analyzer (api/api/vision/analyzer.py):
    the green filter check_green, the white-pixel percentage treePer, the affine
    parameters chosen by apply_brightness_contrast, and the area figures of
    getImageByXYZ. OpenCV's own operations are not part of this model. */
module Analyzer {
  import opened Errors

  /** An 8-bit channel or grey value (numpy uint8). */
  newtype byte = x: int | 0 <= x < 256

  /** A pixel of a colour image in OpenCV's channel order. check_green unpacks it as
      `r, g, b`, so its `r` holds blue and its `b` holds red. */
  datatype Pixel = Pixel(blue: byte, green: byte, red: byte)

  const Black: Pixel := Pixel(0, 0, 0)

  /** uint8 addition as NumPy 2 evaluates `g + 10` on a uint8 channel (NEP 50): the
      sum wraps around modulo 256. Under NumPy 1.x the sum is promoted to int64 and
      does not wrap; `BlackenedWithoutWrap` gives that test for green below 246. */
  function AddU8(a: byte, b: byte): (r: byte)
    ensures r as int == (a as int + b as int) % 256
  {
    var s := a as int + b as int;
    (if s < 256 then s else s - 256) as byte
  }

  // ---------------------------------------------------------------------------
  // check_green

  /** check_green's test on one pixel, on the values read before any write: green is
      below both other channels, or green + 10 (in uint8) is below either of them. */
  predicate Blackened(p: Pixel)
  {
    || (p.green < p.blue && p.green < p.red)
    || AddU8(p.green, 10) < p.blue
    || AddU8(p.green, 10) < p.red
  }

  /** What check_green leaves in one pixel. */
  function GreenFilter(p: Pixel): Pixel
  {
    if Blackened(p) then Black else p
  }

  /** check_green: blackens, in place, every pixel that fails the green test and leaves
      the others and the array's shape alone; returns the same array. */
  method CheckGreen(img: array2<Pixel>) returns (out: array2<Pixel>)
    modifies img
    ensures out == img
    ensures forall x, y :: 0 <= x < img.Length0 && 0 <= y < img.Length1 ==>
              img[x, y] == GreenFilter(old(img[x, y]))
  {
    for x := 0 to img.Length0
      invariant forall i, j :: 0 <= i < x && 0 <= j < img.Length1 ==>
                  img[i, j] == GreenFilter(old(img[i, j]))
      invariant forall i, j :: x <= i < img.Length0 && 0 <= j < img.Length1 ==>
                  img[i, j] == old(img[i, j])
    {
      for y := 0 to img.Length1
        invariant forall i, j :: 0 <= i < x && 0 <= j < img.Length1 ==>
                    img[i, j] == GreenFilter(old(img[i, j]))
        invariant forall j :: 0 <= j < y ==> img[x, j] == GreenFilter(old(img[x, j]))
        invariant forall i, j :: x <= i < img.Length0 && 0 <= j < img.Length1 && i != x ==>
                    img[i, j] == old(img[i, j])
        invariant forall j :: y <= j < img.Length1 ==> img[x, j] == old(img[x, j])
      {
        var r, g, b := img[x, y].blue, img[x, y].green, img[x, y].red;
        if g < r && g < b {
          img[x, y] := Black;
        }
        if AddU8(g, 10) < r || AddU8(g, 10) < b {
          img[x, y] := Black;
        }
      }
    }
    out := img;
  }

  /** Filtering twice is filtering once: a blackened pixel passes the test, and an
      untouched pixel passes it again. */
  lemma GreenFilterIdempotent(p: Pixel)
    ensures GreenFilter(GreenFilter(p)) == GreenFilter(p)
  {
  }

  /** The test treats the first and third channel alike, so reading OpenCV's
      blue-green-red pixel as red-green-blue changes nothing. */
  lemma BlackenedIgnoresChannelOrder(p: Pixel)
    ensures Blackened(Pixel(p.red, p.green, p.blue)) == Blackened(p)
  {
  }

  /** For green values below 246, g + 10 does not wrap and the test is the plain
      integer comparison. */
  lemma BlackenedWithoutWrap(p: Pixel)
    requires p.green < 246
    ensures Blackened(p) <==>
      || (p.green < p.blue && p.green < p.red)
      || p.green as int + 10 < p.blue as int
      || p.green as int + 10 < p.red as int
  {
  }

  /** For green values of 246 and more, g + 10 wraps under NumPy 2's uint8 rules: a
      pixel whose green channel dominates by 50 is still blackened. (Under NumPy 1.x
      the sum is promoted to int64 and this pixel is kept.) */
  lemma WrapBlackensGreenPixel()
    ensures Blackened(Pixel(200, 250, 200))
    ensures var p := Pixel(200, 250, 200);
      !(|| (p.green < p.blue && p.green < p.red)
        || p.green as int + 10 < p.blue as int
        || p.green as int + 10 < p.red as int)
  {
  }

  // ---------------------------------------------------------------------------
  // treePer

  /** Pixels equal to 255 in the first `n` columns of row `x`. */
  function WhiteInRow(img: array2<byte>, x: nat, n: nat): (c: nat)
    reads img
    requires x < img.Length0 && n <= img.Length1
    ensures c <= n
  {
    if n == 0 then 0 else WhiteInRow(img, x, n - 1) + (if img[x, n - 1] == 255 then 1 else 0)
  }

  /** Pixels equal to 255 in the first `m` rows; never more than the pixels there. */
  function WhiteInRows(img: array2<byte>, m: nat): (c: nat)
    reads img
    requires m <= img.Length0
    ensures c <= m * img.Length1
  {
    if m == 0 then 0
    else
      assert (m - 1) * img.Length1 + img.Length1 == m * img.Length1;
      WhiteInRows(img, m - 1) + WhiteInRow(img, m - 1, img.Length1)
  }

  /** treePer: the percentage of pixels equal to 255. An image with no row or no
      column divides by zero. */
  method TreePer(img: array2<byte>) returns (r: Result<real>)
    ensures r.Err? <==> img.Length0 == 0 || img.Length1 == 0
    ensures r.Err? ==> r.error == ZeroDivision
    ensures r.Ok? ==> r.value * (img.Length0 * img.Length1) as real
                      == (100 * WhiteInRows(img, img.Length0)) as real
    ensures r.Ok? ==> 0.0 <= r.value <= 100.0
  {
    var white := 0;
    for x := 0 to img.Length0
      invariant white == WhiteInRows(img, x)
    {
      for y := 0 to img.Length1
        invariant white == WhiteInRows(img, x) + WhiteInRow(img, x, y)
      {
        if img[x, y] == 255 {
          white := white + 1;
        }
      }
    }
    var size := img.Length0 * img.Length1;
    if size == 0 {
      return Err(ZeroDivision);
    }
    assert 0 < img.Length0 && 0 < img.Length1;
    PercentageBounds(white, size);
    r := Ok((white * 100) as real / size as real);
  }

  lemma PercentageBounds(part: nat, whole: nat)
    requires 0 < whole && part <= whole
    ensures 0.0 <= (part * 100) as real / whole as real <= 100.0
  {
    var q := (part * 100) as real / whole as real;
    assert q * whole as real == (part * 100) as real;
    assert (part * 100) as real <= 100.0 * whole as real;
  }

  /** An image whose every pixel is 255 counts every pixel. */
  lemma {:induction false} AllWhiteRows(img: array2<byte>, m: nat)
    requires m <= img.Length0
    requires forall x, y :: 0 <= x < img.Length0 && 0 <= y < img.Length1 ==> img[x, y] == 255
    ensures WhiteInRows(img, m) == m * img.Length1
  {
    if m > 0 {
      AllWhiteRows(img, m - 1);
      AllWhiteRow(img, m - 1, img.Length1);
      assert (m - 1) * img.Length1 + img.Length1 == m * img.Length1;
    }
  }

  lemma {:induction false} AllWhiteRow(img: array2<byte>, x: nat, n: nat)
    requires x < img.Length0 && n <= img.Length1
    requires forall y :: 0 <= y < img.Length1 ==> img[x, y] == 255
    ensures WhiteInRow(img, x, n) == n
  {
    if n > 0 {
      AllWhiteRow(img, x, n - 1);
    }
  }

  // ---------------------------------------------------------------------------
  // apply_brightness_contrast: parameter selection

  /** cv2.addWeighted(src, alpha, src, 0, gamma) on one intensity, before OpenCV
      rounds and saturates: alpha * v + gamma. */
  datatype Affine = Affine(alpha: real, gamma: real)

  function Apply(a: Affine, v: real): real
  {
    a.alpha * v + a.gamma
  }

  /** The brightness step: none for brightness 0 (the image is copied); otherwise the
      map that sends black and white to the new shadow and highlight. */
  function BrightnessStep(brightness: real): (s: Option<Affine>)
    ensures s.None? <==> brightness == 0.0
    ensures 0.0 < brightness ==> Apply(s.value, 0.0) == brightness && Apply(s.value, 255.0) == 255.0
    ensures brightness < 0.0 ==> Apply(s.value, 0.0) == 0.0 && Apply(s.value, 255.0) == 255.0 + brightness
  {
    if brightness == 0.0 then None
    else
      var shadow := if 0.0 < brightness then brightness else 0.0;
      var highlight := if 0.0 < brightness then 255.0 else 255.0 + brightness;
      Some(Affine((highlight - shadow) / 255.0, shadow))
  }

  /** The contrast step: none for contrast 0; a division by zero for contrast 131;
      otherwise a map that keeps mid-grey 127 fixed. */
  function ContrastStep(contrast: real): (s: Result<Option<Affine>>)
    ensures s.Err? <==> contrast == 131.0
    ensures s.Err? ==> s.error == ZeroDivision
    ensures s.Ok? ==> (s.value.None? <==> contrast == 0.0)
    ensures s.Ok? && s.value.Some? ==> Apply(s.value.value, 127.0) == 127.0
  {
    if contrast == 0.0 then Ok(None)
    else if contrast == 131.0 then Err(ZeroDivision)
    else
      var f := 131.0 * (contrast + 127.0) / (127.0 * (131.0 - contrast));
      Ok(Some(Affine(f, 127.0 * (1.0 - f))))
  }

  /** apply_brightness_contrast on one intensity, before rounding and saturation: the
      brightness step, then the contrast step. */
  function BrightnessContrast(brightness: real, contrast: real, v: real): (r: Result<real>)
    ensures r.Err? <==> contrast == 131.0
    ensures brightness == 0.0 && contrast == 0.0 ==> r == Ok(v)
  {
    var bright := match BrightnessStep(brightness)
                  case None => v
                  case Some(a) => Apply(a, v);
    match ContrastStep(contrast)
    case Err(e) => Err(e)
    case Ok(None) => Ok(bright)
    case Ok(Some(a)) => Ok(Apply(a, bright))
  }

  /** A positive brightness lifts the whole range [0, 255] into [brightness, 255]
      without reversing it. */
  lemma BrightnessRange(brightness: real, v: real, w: real)
    requires 0.0 < brightness <= 255.0
    requires 0.0 <= v <= w <= 255.0
    ensures var a := BrightnessStep(brightness).value;
            brightness <= Apply(a, v) <= Apply(a, w) <= 255.0
  {
    var a := BrightnessStep(brightness).value;
    assert a.alpha == (255.0 - brightness) / 255.0;
    AffineMonotone(a, 0.0, v);
    AffineMonotone(a, v, w);
    AffineMonotone(a, w, 255.0);
  }

  lemma AffineMonotone(a: Affine, v: real, w: real)
    requires 0.0 <= a.alpha && v <= w
    ensures Apply(a, v) <= Apply(a, w)
  {
    assert a.alpha * (w - v) >= 0.0;
  }

  /** Positive contrast (below 131) stretches intensities away from 127; negative
      contrast (above -127) compresses them towards it. */
  lemma ContrastSlope(contrast: real)
    requires -127.0 < contrast < 131.0 && contrast != 0.0
    ensures var a := ContrastStep(contrast).value.value;
            && 0.0 < a.alpha
            && (0.0 < contrast ==> 1.0 < a.alpha)
            && (contrast < 0.0 ==> a.alpha < 1.0)
  {
    var num := 131.0 * (contrast + 127.0);
    var den := 127.0 * (131.0 - contrast);
    var f := num / den;
    assert 0.0 < den && 0.0 < num;
    assert f * den == num;
    assert num - den == 258.0 * contrast;
  }

  // ---------------------------------------------------------------------------
  // getImageByXYZ: area figures

  /** The figures getImageByXYZ reports for one tile: its vegetation percentage, the
      vegetation area and the tile's total area. The image URLs are not modelled. */
  datatype TileFigures = TileFigures(perc: real, area: real, totalArea: real)

  /** A tile whose figures are related as getImageByXYZ relates them. */
  predicate Consistent(t: TileFigures)
  {
    0.0 <= t.perc <= 100.0 && 0.0 <= t.totalArea && t.area * 100.0 == t.totalArea * t.perc
  }

  /** getImageByXYZ's arithmetic for a tile of ground area `ratio` (getRatio's value)
      and vegetation percentage `perc`: the vegetation area is that percentage of the
      tile's area, so it never exceeds it. */
  function TileFiguresFor(ratio: real, perc: real): (t: TileFigures)
    ensures t.perc == perc && t.totalArea == ratio
    ensures t.area * 100.0 == t.totalArea * t.perc
    ensures 0.0 <= perc <= 100.0 && 0.0 <= ratio ==> Consistent(t) && 0.0 <= t.area <= t.totalArea
  {
    var t := TileFigures(perc, ratio * perc / 100.0, ratio);
    assert 0.0 <= perc <= 100.0 && 0.0 <= ratio ==> ratio * perc <= ratio * 100.0;
    t
  }
}
