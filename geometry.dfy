/** Per-clip crop, zoom and flip decisions of playActiveClip
    (script.js:286-322). Pixel sizes, the canvas's included, are positive
    reals, and each Math.random() draw is a parameter in [0, 1). */
module Geometry {
  import Planner

  /** A source rectangle: top-left corner and size, in video pixels. */
  datatype Rect = Rect(x: real, y: real, w: real, h: real)

  /** `inner` lies entirely inside `outer`. */
  predicate Inside(inner: Rect, outer: Rect) {
    outer.x <= inner.x && inner.x + inner.w <= outer.x + outer.w &&
    outer.y <= inner.y && inner.y + inner.h <= outer.y + outer.h
  }

  /** The whole frame of a video. */
  function Frame(videoWidth: real, videoHeight: real): Rect {
    Rect(0.0, 0.0, videoWidth, videoHeight)
  }

  /** The centred crop with the canvas aspect ratio (script.js:292-305): full
      height when the video is wider than the canvas, full width otherwise. */
  function BaseCrop(videoWidth: real, videoHeight: real, canvasWidth: real, canvasHeight: real): (r: Rect)
    requires videoWidth > 0.0 && videoHeight > 0.0 && canvasWidth > 0.0 && canvasHeight > 0.0
    ensures Inside(r, Frame(videoWidth, videoHeight))
    ensures r.w > 0.0 && r.h > 0.0
    ensures r.w * canvasHeight == r.h * canvasWidth
    ensures r.w == videoWidth || r.h == videoHeight
    ensures r.x + r.x + r.w == videoWidth && r.y + r.y + r.h == videoHeight
  {
    var videoAspect := videoWidth / videoHeight;
    var canvasAspect := canvasWidth / canvasHeight;
    DivMul(canvasWidth, canvasHeight);
    if videoAspect > canvasAspect then
      var baseSW := videoHeight * canvasAspect;
      WiderCropFits(videoWidth, videoHeight, canvasAspect);
      Rect((videoWidth - baseSW) / 2.0, 0.0, baseSW, videoHeight)
    else
      var baseSH := videoWidth / canvasAspect;
      TallerCropFits(videoWidth, videoHeight, canvasAspect);
      Rect(0.0, (videoHeight - baseSH) / 2.0, videoWidth, baseSH)
  }

  lemma DivMul(a: real, b: real)
    requires b > 0.0
    ensures (a / b) * b == a
    ensures a > 0.0 ==> a / b > 0.0
  {
  }

  lemma WiderCropFits(vw: real, vh: real, aspect: real)
    requires vw > 0.0 && vh > 0.0 && aspect > 0.0 && vw / vh > aspect
    ensures 0.0 < vh * aspect < vw
  {
    DivMul(vw, vh);
    assert (vw / vh - aspect) * vh > 0.0;
  }

  lemma TallerCropFits(vw: real, vh: real, aspect: real)
    requires vw > 0.0 && vh > 0.0 && aspect > 0.0 && vw / vh <= aspect
    ensures 0.0 < vw / aspect <= vh
    ensures (vw / aspect) * aspect == vw
  {
    DivMul(vw, vh);
    DivMul(vw, aspect);
    var h := vw / aspect;
    assert (aspect - vw / vh) * vh >= 0.0;
    assert (vh - h) * aspect == vh * aspect - vw;
    FactorSign(vh - h, aspect);
    FactorSign(h, aspect);
  }

  lemma FactorSign(a: real, b: real)
    requires b > 0.0
    ensures a * b >= 0.0 ==> a >= 0.0
    ensures a * b > 0.0 ==> a > 0.0
  {
  }

  lemma InsideTrans(a: Rect, b: Rect, c: Rect)
    requires Inside(a, b) && Inside(b, c)
    ensures Inside(a, c)
  {
  }

  /** The zoom factor drawn once per clip (script.js:308): uniform in
      [minZoom%, maxZoom%). */
  function ZoomFactor(minZoom: real, maxZoom: real, r: real): (f: real)
    requires 0.0 <= r < 1.0
    ensures minZoom == maxZoom ==> f == minZoom / 100.0
    ensures minZoom < maxZoom ==> minZoom / 100.0 <= f < maxZoom / 100.0
    ensures minZoom <= maxZoom ==> minZoom / 100.0 <= f
  {
    Planner.Lerp(minZoom / 100.0, (maxZoom - minZoom) / 100.0, r)
  }

  /** The zoom window (script.js:309-314): the base crop shrunk by the factor,
      placed at a random offset in the room the base crop leaves. */
  function ZoomWindow(base: Rect, factor: real, rx: real, ry: real): (z: Rect)
    requires factor != 0.0 && 0.0 <= rx < 1.0 && 0.0 <= ry < 1.0
    ensures z.w * factor == base.w && z.h * factor == base.h
  {
    var zoomedSW := base.w / factor;
    var zoomedSH := base.h / factor;
    Rect(base.x + rx * (base.w - zoomedSW), base.y + ry * (base.h - zoomedSH), zoomedSW, zoomedSH)
  }

  /** A factor of at least 1 keeps the zoom window inside the base crop. */
  lemma ZoomWindowInside(base: Rect, factor: real, rx: real, ry: real)
    requires base.w >= 0.0 && base.h >= 0.0
    requires factor >= 1.0 && 0.0 <= rx < 1.0 && 0.0 <= ry < 1.0
    ensures Inside(ZoomWindow(base, factor, rx, ry), base)
  {
    var z := ZoomWindow(base, factor, rx, ry);
    ShrinkFits(base.w, factor, rx);
    ShrinkFits(base.h, factor, ry);
  }

  lemma ShrinkFits(len: real, factor: real, r: real)
    requires len >= 0.0 && factor >= 1.0 && 0.0 <= r < 1.0
    ensures 0.0 <= len / factor <= len
    ensures 0.0 <= r * (len - len / factor)
    ensures r * (len - len / factor) + len / factor <= len
  {
    var s := len / factor;
    assert s * factor == len;
    assert s * factor - s == s * (factor - 1.0);
    MulNonNeg(s, factor - 1.0);
    OffsetFits(len, s, r);
  }

  lemma MulNonNeg(a: real, b: real)
    requires a >= 0.0 && b >= 0.0
    ensures a * b >= 0.0
  {
  }

  /** An offset drawn from the room a length-s window leaves in a length-len
      span keeps the window inside the span. */
  lemma OffsetFits(len: real, s: real, r: real)
    requires 0.0 <= s <= len && 0.0 <= r < 1.0
    ensures 0.0 <= r * (len - s)
    ensures r * (len - s) + s <= len
  {
    MulNonNeg(r, len - s);
    MulNonNeg(1.0 - r, len - s);
    assert (1.0 - r) * (len - s) == (len - s) - r * (len - s);
  }

  /** A factor below 1 (a minimum zoom under 100%) makes the window larger
      than the base crop in both dimensions. */
  lemma ZoomBelowOneOverflows(base: Rect, factor: real, rx: real, ry: real)
    requires base.w > 0.0 && base.h > 0.0
    requires 0.0 < factor < 1.0 && 0.0 <= rx < 1.0 && 0.0 <= ry < 1.0
    ensures ZoomWindow(base, factor, rx, ry).w > base.w
    ensures ZoomWindow(base, factor, rx, ry).h > base.h
  {
    DivGrows(base.w, factor);
    DivGrows(base.h, factor);
  }

  /** Hence a factor below 1 draws from outside the video frame: the base
      crop already spans the frame's full width or full height. */
  lemma ZoomBelowOneLeavesFrame(videoWidth: real, videoHeight: real, canvasWidth: real, canvasHeight: real,
                                factor: real, rx: real, ry: real)
    requires videoWidth > 0.0 && videoHeight > 0.0 && canvasWidth > 0.0 && canvasHeight > 0.0
    requires 0.0 < factor < 1.0 && 0.0 <= rx < 1.0 && 0.0 <= ry < 1.0
    ensures !Inside(ZoomWindow(BaseCrop(videoWidth, videoHeight, canvasWidth, canvasHeight), factor, rx, ry),
                    Frame(videoWidth, videoHeight))
  {
    ZoomBelowOneOverflows(BaseCrop(videoWidth, videoHeight, canvasWidth, canvasHeight), factor, rx, ry);
  }

  /** Dividing a positive length by a factor in (0, 1) enlarges it. */
  lemma DivGrows(len: real, factor: real)
    requires len > 0.0 && 0.0 < factor < 1.0
    ensures len / factor > len
  {
    DivMul(len, factor);
    Grows(len / factor, factor, len);
  }

  lemma Grows(q: real, factor: real, len: real)
    requires q > 0.0 && 0.0 < factor < 1.0 && q * factor == len
    ensures len < q
  {
    Planner.ScaledBelow(factor, q);
  }

  /** The process-wide effect settings, as percentages. */
  datatype Effects = Effects(zoomProbability: real, minZoom: real, maxZoom: real, flipProbability: real)

  /** Everything decided once per clip before its frames are drawn. */
  datatype Transform = Transform(crop: Rect, zoomApplied: bool, flipApplied: bool)

  /** The per-clip decisions in the source's order of draws: apply zoom,
      zoom factor, horizontal and vertical offset (only when zooming), flip. */
  function ClipTransform(effects: Effects, videoWidth: real, videoHeight: real,
                         canvasWidth: real, canvasHeight: real,
                         rZoom: real, rFactor: real, rx: real, ry: real, rFlip: real): (t: Transform)
    requires videoWidth > 0.0 && videoHeight > 0.0 && canvasWidth > 0.0 && canvasHeight > 0.0
    requires 0.0 <= rZoom < 1.0 && 0.0 <= rFactor < 1.0 && 0.0 <= rx < 1.0 && 0.0 <= ry < 1.0
    requires 0.0 <= rFlip < 1.0
    requires rZoom < effects.zoomProbability / 100.0 ==>
      ZoomFactor(effects.minZoom, effects.maxZoom, rFactor) != 0.0
    ensures t.zoomApplied <==> rZoom < effects.zoomProbability / 100.0
    ensures t.flipApplied <==> rFlip < effects.flipProbability / 100.0
  {
    var applyZoom := rZoom < effects.zoomProbability / 100.0;
    var base := BaseCrop(videoWidth, videoHeight, canvasWidth, canvasHeight);
    var factor := ZoomFactor(effects.minZoom, effects.maxZoom, rFactor);
    var flipClip := rFlip < effects.flipProbability / 100.0;
    Transform(Crop(base, applyZoom, factor, rx, ry), applyZoom, flipClip)
  }

  /** The rectangle drawn from: the zoom window when zooming, else the base crop. */
  function Crop(base: Rect, zoomed: bool, factor: real, rx: real, ry: real): Rect
    requires zoomed ==> factor != 0.0
    requires 0.0 <= rx < 1.0 && 0.0 <= ry < 1.0
  {
    if zoomed then ZoomWindow(base, factor, rx, ry) else base
  }

  /** With a minimum zoom of at least 100% the sampled rectangle always lies
      inside the base crop, hence inside the video frame, and keeps the canvas
      aspect ratio. */
  lemma CropInsideFrame(effects: Effects, videoWidth: real, videoHeight: real,
                        canvasWidth: real, canvasHeight: real,
                        rZoom: real, rFactor: real, rx: real, ry: real, rFlip: real)
    requires videoWidth > 0.0 && videoHeight > 0.0 && canvasWidth > 0.0 && canvasHeight > 0.0
    requires 0.0 <= rZoom < 1.0 && 0.0 <= rFactor < 1.0 && 0.0 <= rx < 1.0 && 0.0 <= ry < 1.0
    requires 0.0 <= rFlip < 1.0
    requires 100.0 <= effects.minZoom <= effects.maxZoom
    ensures var base := BaseCrop(videoWidth, videoHeight, canvasWidth, canvasHeight);
      var t := ClipTransform(effects, videoWidth, videoHeight, canvasWidth, canvasHeight, rZoom, rFactor, rx, ry, rFlip);
      Fits(t.crop, base, Frame(videoWidth, videoHeight), canvasWidth, canvasHeight)
  {
    CropFits(BaseCrop(videoWidth, videoHeight, canvasWidth, canvasHeight), Frame(videoWidth, videoHeight),
             rZoom < effects.zoomProbability / 100.0, ZoomFactor(effects.minZoom, effects.maxZoom, rFactor),
             rx, ry, canvasWidth, canvasHeight);
  }

  /** `crop` lies inside `base` and inside `frame`, with aspect ratio cw:ch. */
  predicate Fits(crop: Rect, base: Rect, frame: Rect, cw: real, ch: real) {
    Inside(crop, base) && Inside(crop, frame) && crop.w * ch == crop.h * cw
  }

  /** The crop case split of CropInsideFrame, over an arbitrary base crop. */
  lemma CropFits(base: Rect, frame: Rect, zoomed: bool, f: real, rx: real, ry: real, cw: real, ch: real)
    requires Inside(base, frame) && base.w >= 0.0 && base.h >= 0.0 && base.w * ch == base.h * cw
    requires 0.0 <= rx < 1.0 && 0.0 <= ry < 1.0
    requires zoomed ==> f >= 1.0
    ensures Fits(Crop(base, zoomed, f, rx, ry), base, frame, cw, ch)
  {
    if zoomed {
      ZoomedCropFits(base, f, rx, ry, cw, ch);
    }
    InsideTrans(Crop(base, zoomed, f, rx, ry), base, frame);
  }

  lemma ZoomedCropFits(base: Rect, f: real, rx: real, ry: real, cw: real, ch: real)
    requires base.w >= 0.0 && base.h >= 0.0 && base.w * ch == base.h * cw
    requires f >= 1.0 && 0.0 <= rx < 1.0 && 0.0 <= ry < 1.0
    ensures Inside(ZoomWindow(base, f, rx, ry), base)
    ensures ZoomWindow(base, f, rx, ry).w * ch == ZoomWindow(base, f, rx, ry).h * cw
  {
    var z := ZoomWindow(base, f, rx, ry);
    ZoomWindowInside(base, f, rx, ry);
    AspectKept(base, f, z, cw, ch);
  }

  lemma AspectKept(base: Rect, f: real, z: Rect, cw: real, ch: real)
    requires f > 0.0 && z.w * f == base.w && z.h * f == base.h
    requires base.w * ch == base.h * cw
    ensures z.w * ch == z.h * cw
  {
    assert (z.w * ch - z.h * cw) * f == base.w * ch - base.h * cw;
    FactorSign(z.w * ch - z.h * cw, f);
    FactorSign(z.h * cw - z.w * ch, f);
  }

  /** Whatever the probabilities, a clip that is not zoomed is drawn from the
      base crop. */
  lemma UnzoomedCropIsBase(effects: Effects, videoWidth: real, videoHeight: real,
                           canvasWidth: real, canvasHeight: real,
                           rZoom: real, rFactor: real, rx: real, ry: real, rFlip: real)
    requires videoWidth > 0.0 && videoHeight > 0.0 && canvasWidth > 0.0 && canvasHeight > 0.0
    requires 0.0 <= rZoom < 1.0 && 0.0 <= rFactor < 1.0 && 0.0 <= rx < 1.0 && 0.0 <= ry < 1.0
    requires 0.0 <= rFlip < 1.0
    requires rZoom < effects.zoomProbability / 100.0 ==>
      ZoomFactor(effects.minZoom, effects.maxZoom, rFactor) != 0.0
    ensures var t := ClipTransform(effects, videoWidth, videoHeight, canvasWidth, canvasHeight, rZoom, rFactor, rx, ry, rFlip);
      !t.zoomApplied ==> t.crop == BaseCrop(videoWidth, videoHeight, canvasWidth, canvasHeight)
  {
  }

  /** Zero probabilities: neither zoom nor flip, and the base crop is drawn. */
  lemma NoEffectsAtZeroProbability(effects: Effects, videoWidth: real, videoHeight: real,
                                   canvasWidth: real, canvasHeight: real,
                                   rZoom: real, rFactor: real, rx: real, ry: real, rFlip: real)
    requires videoWidth > 0.0 && videoHeight > 0.0 && canvasWidth > 0.0 && canvasHeight > 0.0
    requires 0.0 <= rZoom < 1.0 && 0.0 <= rFactor < 1.0 && 0.0 <= rx < 1.0 && 0.0 <= ry < 1.0
    requires 0.0 <= rFlip < 1.0
    requires effects.zoomProbability == 0.0 && effects.flipProbability == 0.0
    ensures var t := ClipTransform(effects, videoWidth, videoHeight, canvasWidth, canvasHeight, rZoom, rFactor, rx, ry, rFlip);
      !t.zoomApplied && !t.flipApplied && t.crop == BaseCrop(videoWidth, videoHeight, canvasWidth, canvasHeight)
  {
  }

  /** Zoom probability 100 with minimum and maximum zoom 150: every clip is
      zoomed, by exactly 1.5, to a window two thirds of the base crop. */
  lemma FixedZoomAlwaysApplied(effects: Effects, videoWidth: real, videoHeight: real,
                               canvasWidth: real, canvasHeight: real,
                               rZoom: real, rFactor: real, rx: real, ry: real, rFlip: real)
    requires videoWidth > 0.0 && videoHeight > 0.0 && canvasWidth > 0.0 && canvasHeight > 0.0
    requires 0.0 <= rZoom < 1.0 && 0.0 <= rFactor < 1.0 && 0.0 <= rx < 1.0 && 0.0 <= ry < 1.0
    requires 0.0 <= rFlip < 1.0
    requires effects.zoomProbability == 100.0 && effects.minZoom == 150.0 && effects.maxZoom == 150.0
    ensures var base := BaseCrop(videoWidth, videoHeight, canvasWidth, canvasHeight);
      var t := ClipTransform(effects, videoWidth, videoHeight, canvasWidth, canvasHeight, rZoom, rFactor, rx, ry, rFlip);
      t.zoomApplied && t.crop.w * 1.5 == base.w && t.crop.h * 1.5 == base.h && Inside(t.crop, base)
  {
    var base := BaseCrop(videoWidth, videoHeight, canvasWidth, canvasHeight);
    assert ZoomFactor(effects.minZoom, effects.maxZoom, rFactor) == 1.5;
    ZoomWindowInside(base, 1.5, rx, ry);
  }
}
