/**
 * The geometry the card render computes, over the reals: the photo frame,
 * the "cover" placement of the user photo inside it, the size and place of
 * the caption overlay, the anchor points of the text fields and the QR
 * code, and the height of the exported page. Fractions in the layout
 * table are taken against the template's natural pixel size.
 */
module Layout {

  function Min(a: real, b: real): real {
    if a <= b then a else b
  }

  datatype Point = Point(x: real, y: real)

  /** A rectangle by its top-left corner and its size. */
  datatype Rect = Rect(x: real, y: real, width: real, height: real)

  /** Placement of a text field: fractions of the template width and height. */
  datatype FieldPlace = FieldPlace(x: real, y: real)

  /** The photo frame: centre as fractions of width and height, radius as a fraction of width. */
  datatype PhotoConfig = PhotoConfig(centerX: real, centerY: real, radius: real)

  /** An overlay image's configured pixel position and size; a size of 0 means "not set". */
  datatype OverlayConfig = OverlayConfig(x: real, y: real, width: real, height: real)

  /** The layout table: every fractional placement on the card. */
  datatype LayoutConfig = LayoutConfig(
    photo: PhotoConfig,
    deputyNameY: real,
    header: FieldPlace,
    responsibleName: FieldPlace,
    phone: FieldPlace,
    qr: FieldPlace,
    qrSize: real,
    captionY: real)

  const DefaultLayout: LayoutConfig := LayoutConfig(
    PhotoConfig(0.35, 0.43, 0.17),
    0.65,
    FieldPlace(0.03, 0.86),
    FieldPlace(0.03, 0.90),
    FieldPlace(0.03, 0.94),
    FieldPlace(0.695, 0.215),
    0.18,
    205.0)

  const NadpisConfig: OverlayConfig := OverlayConfig(30.0, 50.0, 600.0, 1000.0)

  // ---- the photo frame ----

  /** The square the photo is clipped to, with its centre and corner radius. */
  datatype Frame = Frame(centerX: real, centerY: real, size: real, box: Rect, cornerRadius: real)

  /**
   * The frame: a square of side `2 * radius * w` centred at
   * `(centerX * w, centerY * h)`, corners rounded by 8% of the side.
   */
  function PhotoFrame(w: real, h: real, cfg: PhotoConfig): (f: Frame)
    ensures f.box.width == f.size && f.box.height == f.size
    ensures f.size == 2.0 * cfg.radius * w
    ensures f.box.x + f.size / 2.0 == w * cfg.centerX && f.box.y + f.size / 2.0 == h * cfg.centerY
    ensures f.centerX == w * cfg.centerX && f.centerY == h * cfg.centerY
    ensures f.cornerRadius == 0.08 * f.size
  {
    var centerX := w * cfg.centerX;
    var centerY := h * cfg.centerY;
    var size := w * cfg.radius * 2.0;
    Frame(centerX, centerY, size, Rect(centerX - size / 2.0, centerY - size / 2.0, size, size), size * 0.08)
  }

  function ScaleRect(r: Rect, k: real): Rect {
    Rect(k * r.x, k * r.y, k * r.width, k * r.height)
  }

  /** The frame scales with the template: double the template, double the frame. */
  lemma PhotoFrameScales(w: real, h: real, cfg: PhotoConfig, k: real)
    ensures var f, g := PhotoFrame(w, h, cfg), PhotoFrame(k * w, k * h, cfg);
            g.box == ScaleRect(f.box, k) && g.size == k * f.size
            && g.centerX == k * f.centerX && g.centerY == k * f.centerY
  {
    var f, g := PhotoFrame(w, h, cfg), PhotoFrame(k * w, k * h, cfg);
    assert g.size == k * f.size;
    assert g.box.x == k * f.box.x;
    assert g.box.y == k * f.box.y;
  }

  // ---- the cover fit of the user photo ----

  /**
   * Where the user photo is drawn: a wide photo gets height
   * `size * scale`, any other width `size * scale`, the other side follows
   * the photo's aspect ratio; the result is centred on the frame and moved
   * by the pan offset.
   */
  function CoverRect(frame: Frame, imgW: real, imgH: real, scale: real, offsetX: real, offsetY: real): (r: Rect)
    requires imgW > 0.0 && imgH > 0.0
    ensures r.width * imgH == r.height * imgW
    ensures imgW > imgH ==> r.height == frame.size * scale
    ensures imgW <= imgH ==> r.width == frame.size * scale
    ensures r.x + r.width / 2.0 == frame.centerX + offsetX
    ensures r.y + r.height / 2.0 == frame.centerY + offsetY
  {
    var ratio := imgW / imgH;
    var drawW, drawH :=
      if ratio > 1.0 then (frame.size * scale) * ratio else frame.size * scale,
      if ratio > 1.0 then frame.size * scale else (frame.size * scale) / ratio;
    RatioAboveOne(imgW, imgH);
    Rect(frame.centerX - drawW / 2.0 + offsetX, frame.centerY - drawH / 2.0 + offsetY, drawW, drawH)
  }

  lemma MulGrows(a: real, b: real)
    requires a > 1.0 && b > 0.0
    ensures a * b > b
  {
  }

  lemma MulShrinks(a: real, b: real)
    requires a <= 1.0 && b > 0.0
    ensures a * b <= b
  {
  }

  /** A photo is wide (ratio above 1) exactly when it is wider than tall. */
  lemma RatioAboveOne(imgW: real, imgH: real)
    requires imgW > 0.0 && imgH > 0.0
    ensures imgW / imgH > 1.0 <==> imgW > imgH
  {
    var ratio := imgW / imgH;
    assert ratio * imgH == imgW;
    if ratio > 1.0 { MulGrows(ratio, imgH); } else { MulShrinks(ratio, imgH); }
  }

  /** The shorter side of the drawn photo is the frame side times the zoom. */
  lemma CoverShorterSide(frame: Frame, imgW: real, imgH: real, scale: real, offsetX: real, offsetY: real)
    requires imgW > 0.0 && imgH > 0.0
    requires frame.size >= 0.0 && scale > 0.0
    ensures var r := CoverRect(frame, imgW, imgH, scale, offsetX, offsetY);
            Min(r.width, r.height) == frame.size * scale
  {
    var r := CoverRect(frame, imgW, imgH, scale, offsetX, offsetY);
    var s := frame.size * scale;
    assert s >= 0.0;
    if imgW > imgH {
      assert r.width * imgH == s * imgW;
      assert s * imgW >= s * imgH;
      assert r.width >= s;
    } else {
      assert s * imgH >= s * imgW;
      assert r.height * imgW >= s * imgW;
      assert r.height >= s;
    }
  }

  predicate Contains(outer: Rect, inner: Rect) {
    outer.x <= inner.x && inner.x + inner.width <= outer.x + outer.width
    && outer.y <= inner.y && inner.y + inner.height <= outer.y + outer.height
  }

  /**
   * The cover property: at zoom 1 or more, and with a pan that moves the
   * photo by no more than its overhang, the photo covers the whole frame
   * (no letterboxing). At zero pan this always holds for zoom >= 1.
   */
  lemma CoverCoversFrame(frame: Frame, imgW: real, imgH: real, scale: real, offsetX: real, offsetY: real)
    requires imgW > 0.0 && imgH > 0.0
    requires frame.size >= 0.0 && scale >= 1.0
    requires frame.box == Rect(frame.centerX - frame.size / 2.0, frame.centerY - frame.size / 2.0, frame.size, frame.size)
    requires var r := CoverRect(frame, imgW, imgH, scale, 0.0, 0.0);
             2.0 * (if offsetX < 0.0 then -offsetX else offsetX) <= r.width - frame.size
             && 2.0 * (if offsetY < 0.0 then -offsetY else offsetY) <= r.height - frame.size
    ensures Contains(CoverRect(frame, imgW, imgH, scale, offsetX, offsetY), frame.box)
  {
    var r0 := CoverRect(frame, imgW, imgH, scale, 0.0, 0.0);
    var r := CoverRect(frame, imgW, imgH, scale, offsetX, offsetY);
    assert r.width == r0.width && r.height == r0.height;
  }

  /** With no pan, zoom 1 or more always covers the frame. */
  lemma CoverAtRestCoversFrame(frame: Frame, imgW: real, imgH: real, scale: real)
    requires imgW > 0.0 && imgH > 0.0
    requires frame.size >= 0.0 && scale >= 1.0
    requires frame.box == Rect(frame.centerX - frame.size / 2.0, frame.centerY - frame.size / 2.0, frame.size, frame.size)
    ensures Contains(CoverRect(frame, imgW, imgH, scale, 0.0, 0.0), frame.box)
  {
    CoverShorterSide(frame, imgW, imgH, scale, 0.0, 0.0);
    var r := CoverRect(frame, imgW, imgH, scale, 0.0, 0.0);
    assert frame.size * scale >= frame.size;
    CoverCoversFrame(frame, imgW, imgH, scale, 0.0, 0.0);
  }

  // ---- the caption overlay ----

  /**
   * The caption overlay image: a non-zero configured width wins and the
   * height follows the aspect ratio (the configured height is then
   * ignored); else a non-zero height wins; else the natural size. It is
   * centred horizontally on the photo column, at the configured `y`.
   */
  function OverlayRect(w: real, photo: PhotoConfig, cfg: OverlayConfig, imgW: real, imgH: real): (r: Rect)
    requires imgW > 0.0 && imgH > 0.0
    ensures cfg.width != 0.0 ==> r.width == cfg.width
    ensures cfg.width == 0.0 && cfg.height != 0.0 ==> r.height == cfg.height
    ensures cfg.width == 0.0 && cfg.height == 0.0 ==> r.width == imgW && r.height == imgH
    ensures r.width * imgH == r.height * imgW
    ensures r.x + r.width / 2.0 == w * photo.centerX
    ensures r.y == cfg.y
  {
    var aspect := imgW / imgH;
    var size :=
      if cfg.width != 0.0 && cfg.height != 0.0 then (cfg.width, cfg.width / aspect)
      else if cfg.width != 0.0 then (cfg.width, cfg.width / aspect)
      else if cfg.height != 0.0 then (cfg.height * aspect, cfg.height)
      else (imgW, imgH);
    Rect(w * photo.centerX - size.0 / 2.0, cfg.y, size.0, size.1)
  }

  /** When a width is configured, the configured height makes no difference. */
  lemma OverlayIgnoresHeight(w: real, photo: PhotoConfig, cfg: OverlayConfig, imgW: real, imgH: real, otherHeight: real)
    requires imgW > 0.0 && imgH > 0.0 && cfg.width != 0.0
    ensures OverlayRect(w, photo, cfg, imgW, imgH) == OverlayRect(w, photo, cfg.(height := otherHeight), imgW, imgH)
  {
    var r1, r2 := OverlayRect(w, photo, cfg, imgW, imgH), OverlayRect(w, photo, cfg.(height := otherHeight), imgW, imgH);
    assert r1.width == r2.width;
    assert r1.height * imgW == r2.height * imgW;
  }

  /**
   * The caption image as configured: 600 pixels wide whatever its natural
   * size, its height from its own aspect ratio (the configured 1000 is not
   * used), 50 pixels from the top and centred on the photo column.
   */
  lemma DefaultCaptionOverlay(w: real, imgW: real, imgH: real)
    requires imgW > 0.0 && imgH > 0.0
    ensures var r := OverlayRect(w, DefaultLayout.photo, NadpisConfig, imgW, imgH);
            r.width == 600.0 && r.height * imgW == 600.0 * imgH
            && r.y == 50.0 && r.x == 0.35 * w - 300.0
  {
    var r := OverlayRect(w, DefaultLayout.photo, NadpisConfig, imgW, imgH);
    assert r.x + r.width / 2.0 == w * 0.35;
  }

  // ---- text and QR anchors ----

  /** Where each text field and the QR code are drawn. */
  datatype Anchors = Anchors(
    caption: Point, deputyName: Point, header: Point, responsibleName: Point, phone: Point,
    qr: Point, qrSize: real)

  /**
   * Every anchor resolved against the template: the caption and the
   * deputy name are centred on the photo column; the rest are left edges.
   * The caption's `y` is a pixel value, not a fraction.
   */
  function ResolveAnchors(w: real, h: real, cfg: LayoutConfig): (a: Anchors)
    ensures a.caption == Point(w * cfg.photo.centerX, cfg.captionY)
    ensures a.deputyName == Point(w * cfg.photo.centerX, h * cfg.deputyNameY)
    ensures a.header == Point(w * cfg.header.x, h * cfg.header.y)
    ensures a.responsibleName == Point(w * cfg.responsibleName.x, h * cfg.responsibleName.y)
    ensures a.phone == Point(w * cfg.phone.x, h * cfg.phone.y)
    ensures a.qr == Point(w * cfg.qr.x, h * cfg.qr.y) && a.qrSize == w * cfg.qrSize
  {
    Anchors(
      Point(w * cfg.photo.centerX, cfg.captionY),
      Point(w * cfg.photo.centerX, h * cfg.deputyNameY),
      Point(w * cfg.header.x, h * cfg.header.y),
      Point(w * cfg.responsibleName.x, h * cfg.responsibleName.y),
      Point(w * cfg.phone.x, h * cfg.phone.y),
      Point(w * cfg.qr.x, h * cfg.qr.y),
      w * cfg.qrSize)
  }

  /**
   * The caption, the deputy name, the photo frame and the caption overlay
   * share one vertical axis, whatever the configuration.
   */
  lemma PhotoColumnShared(w: real, h: real, cfg: LayoutConfig, o: OverlayConfig, imgW: real, imgH: real)
    requires imgW > 0.0 && imgH > 0.0
    ensures var a, f, r := ResolveAnchors(w, h, cfg), PhotoFrame(w, h, cfg.photo), OverlayRect(w, cfg.photo, o, imgW, imgH);
            a.caption.x == a.deputyName.x == f.centerX == f.box.x + f.size / 2.0 == r.x + r.width / 2.0
  {
  }

  lemma ScaleTimes(k: real, w: real, f: real)
    ensures (k * w) * f == k * (w * f)
  {
  }

  function ScalePoint(p: Point, k: real): Point {
    Point(k * p.x, k * p.y)
  }

  lemma ScalePlace(w: real, h: real, fx: real, fy: real, k: real)
    ensures Point((k * w) * fx, (k * h) * fy) == ScalePoint(Point(w * fx, h * fy), k)
  {
    ScaleTimes(k, w, fx);
    ScaleTimes(k, h, fy);
  }

  /**
   * Fractional placements scale with the template: for a template `k`
   * times larger every anchor moves `k` times further, except the
   * caption's pixel `y`, which stays where it is.
   */
  lemma AnchorsScale(w: real, h: real, cfg: LayoutConfig, k: real)
    ensures var a, b := ResolveAnchors(w, h, cfg), ResolveAnchors(k * w, k * h, cfg);
            b.deputyName == ScalePoint(a.deputyName, k) && b.header == ScalePoint(a.header, k)
            && b.responsibleName == ScalePoint(a.responsibleName, k) && b.phone == ScalePoint(a.phone, k)
            && b.qr == ScalePoint(a.qr, k) && b.qrSize == k * a.qrSize
            && b.caption == Point(k * a.caption.x, a.caption.y)
  {
    var a, b := ResolveAnchors(w, h, cfg), ResolveAnchors(k * w, k * h, cfg);
    assert b.deputyName == ScalePoint(a.deputyName, k) by {
      ScalePlace(w, h, cfg.photo.centerX, cfg.deputyNameY, k);
    }
    assert b.header == ScalePoint(a.header, k) by {
      ScalePlace(w, h, cfg.header.x, cfg.header.y, k);
    }
    assert b.responsibleName == ScalePoint(a.responsibleName, k) by {
      ScalePlace(w, h, cfg.responsibleName.x, cfg.responsibleName.y, k);
    }
    assert b.phone == ScalePoint(a.phone, k) by {
      ScalePlace(w, h, cfg.phone.x, cfg.phone.y, k);
    }
    assert b.qr == ScalePoint(a.qr, k) && b.qrSize == k * a.qrSize by {
      ScalePlace(w, h, cfg.qr.x, cfg.qr.y, k);
      ScaleTimes(k, w, cfg.qrSize);
    }
    assert b.caption == Point(k * a.caption.x, a.caption.y) by {
      ScaleTimes(k, w, cfg.photo.centerX);
    }
  }

  /**
   * On the default card the deputy's name sits under the photo, centred on
   * its column, and the responsible person's header, name and phone follow
   * top to bottom below it, flush on one left edge.
   */
  lemma DefaultLayoutOrder(w: real, h: real)
    requires w > 0.0 && h > 0.0
    ensures var a := ResolveAnchors(w, h, DefaultLayout);
            a.deputyName.x == PhotoFrame(w, h, DefaultLayout.photo).centerX
            && PhotoFrame(w, h, DefaultLayout.photo).centerY < a.deputyName.y
            && a.deputyName.y < a.header.y < a.responsibleName.y < a.phone.y < h
            && a.header.x == a.responsibleName.x == a.phone.x
  {
  }

  // ---- the exported page ----

  /** The page width in millimetres. */
  const PdfWidth: real := 148.0

  /** The page height in millimetres: the template's aspect ratio at the fixed width. */
  function PdfHeight(templateW: real, templateH: real): (r: real)
    requires templateW > 0.0
    ensures r * templateW == PdfWidth * templateH
    ensures templateH > 0.0 ==> r > 0.0
  {
    PdfWidth * (templateH / templateW)
  }

  /** The page height depends only on the template's shape, not its resolution. */
  lemma PdfHeightScaleFree(templateW: real, templateH: real, k: real)
    requires templateW > 0.0 && k > 0.0
    ensures PdfHeight(k * templateW, k * templateH) == PdfHeight(templateW, templateH)
  {
    var a, b := PdfHeight(templateW, templateH), PdfHeight(k * templateW, k * templateH);
    assert b * k * templateW == a * k * templateW;
  }
}
