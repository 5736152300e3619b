/** The arithmetic of `standardizeImage` in App.tsx: an uploaded image is
    drawn, aspect preserved, onto a black 1080 x 1920 canvas. JavaScript
    numbers are idealised as reals. */
module Letterbox {

  const TargetWidth: real := 1080.0
  const TargetHeight: real := 1920.0

  /** Where the image is drawn: `drawImage(img, x, y, width, height)`. */
  datatype Placement = Placement(scale: real, x: real, y: real, width: real, height: real)

  function Min(a: real, b: real): real
  {
    if a <= b then a else b
  }

  /** The scale is the smaller of the two ratios; the image is centred. */
  function Fit(imageWidth: real, imageHeight: real): Placement
    requires imageWidth > 0.0 && imageHeight > 0.0
  {
    var scale := Min(TargetWidth / imageWidth, TargetHeight / imageHeight);
    Placement(
      scale,
      TargetWidth / 2.0 - (imageWidth / 2.0) * scale,
      TargetHeight / 2.0 - (imageHeight / 2.0) * scale,
      imageWidth * scale,
      imageHeight * scale)
  }

  /** The drawn image lies inside the canvas, touches it on at least one
      axis, keeps the source's aspect ratio and is centred. */
  lemma FitIsContained(w: real, h: real)
    requires w > 0.0 && h > 0.0
    ensures var p := Fit(w, h);
      && p.scale > 0.0
      && p.width == w * p.scale && p.height == h * p.scale
      && 0.0 < p.width <= TargetWidth && 0.0 < p.height <= TargetHeight
      && (p.width == TargetWidth || p.height == TargetHeight)
      && p.width * h == p.height * w
      && p.x >= 0.0 && p.y >= 0.0
      && p.x + p.width + p.x == TargetWidth
      && p.y + p.height + p.y == TargetHeight
  {
    var p := Fit(w, h);
    var sw, sh := TargetWidth / w, TargetHeight / h;
    assert sw * w == TargetWidth && sh * h == TargetHeight;
    if sw <= sh {
      assert p.scale == sw;
      assert p.height == h * sw <= h * sh;
    } else {
      assert p.scale == sh;
      assert p.width == w * sh <= w * sw;
    }
    assert p.width * h == (w * h) * p.scale == p.height * w;
  }
}
