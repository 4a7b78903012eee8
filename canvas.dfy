/** The 2D drawing context the generator paints on, reduced to the state the
    generator sets (font, alignment, baseline, fill colour) and a log of the
    draw calls it makes, in order. Pixels, glyphs and PNG encoding are not
    modelled: the log says which image or text is drawn where and how. */
module Canvas {

  /** An axis-aligned rectangle: top-left corner, width and height. */
  datatype Rect = Rect(x: real, y: real, w: real, h: real)

  /** The value `${size}px ${family}` assigned to `ctx.font`. */
  datatype Font = Font(size: nat, family: string)

  datatype TextAlign = Start | Left | Center

  datatype TextBaseline = Alphabetic | Top | Middle

  /** The two bitmaps the generator draws. */
  datatype Image = Template | PasPhoto

  /** One recorded call on the context. */
  datatype DrawCmd =
    | ImageCmd(image: Image, dst: Rect)             // drawImage(img, dx, dy, dw, dh)
    | CropCmd(image: Image, src: Rect, dst: Rect)   // drawImage(img, sx, sy, sw, sh, dx, dy, dw, dh)
    | TextCmd(text: string, x: real, y: real, font: Font,
              align: TextAlign, baseline: TextBaseline, fill: string)

  const Black: string := "#000000"

  /** r lies inside the box (edges may touch). */
  predicate Inside(r: Rect, box: Rect) {
    box.x <= r.x && box.y <= r.y && r.x + r.w <= box.x + box.w && r.y + r.h <= box.y + box.h
  }

  /** r lies inside the box without touching any of its edges. */
  predicate StrictlyInside(r: Rect, box: Rect) {
    box.x < r.x && box.y < r.y && r.x + r.w < box.x + box.w && r.y + r.h < box.y + box.h
  }

  /** A canvas and its 2D context. */
  class Context {
    const width: nat
    const height: nat
    var font: Font
    var textAlign: TextAlign
    var textBaseline: TextBaseline
    var fillStyle: string
    /** Every draw call made so far, oldest first. */
    var log: seq<DrawCmd>

    /** createCanvas(width, height).getContext('2d'): nothing drawn yet, and
        the context holds the defaults of an HTML canvas. */
    constructor (width: nat, height: nat)
      ensures this.width == width && this.height == height
      ensures font == Font(10, "sans-serif") && textAlign == Start
      ensures textBaseline == Alphabetic && fillStyle == Black
      ensures log == []
    {
      this.width := width;
      this.height := height;
      font := Font(10, "sans-serif");
      textAlign := Start;
      textBaseline := Alphabetic;
      fillStyle := Black;
      log := [];
    }

    /** drawImage(image, dx, dy, dw, dh): the whole image scaled into dst. */
    method DrawImage(image: Image, dst: Rect)
      modifies this`log
      ensures log == old(log) + [ImageCmd(image, dst)]
    {
      log := log + [ImageCmd(image, dst)];
    }

    /** drawImage(image, sx, sy, sw, sh, dx, dy, dw, dh): the part src of the
        image scaled into dst. */
    method DrawImageCrop(image: Image, src: Rect, dst: Rect)
      modifies this`log
      ensures log == old(log) + [CropCmd(image, src, dst)]
    {
      log := log + [CropCmd(image, src, dst)];
    }

    /** fillText(text, x, y): drawn with the font, alignment, baseline and
        colour the context holds at the time of the call. */
    method FillText(text: string, x: real, y: real)
      modifies this`log
      ensures log == old(log) + [TextCmd(text, x, y, font, textAlign, textBaseline, fillStyle)]
    {
      log := log + [TextCmd(text, x, y, font, textAlign, textBaseline, fillStyle)];
    }
  }
}
