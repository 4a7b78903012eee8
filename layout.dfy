/** The card itself: the template, the photo and the fixed catalog of text
    lines, drawn in that order on a 720 x 463 canvas. The catalog is a
    declarative table; KtpGen draws it the way the generator does, by setting
    the context's font, alignment and baseline and calling fillText. */
module Layout {
  import opened Canvas
  import opened Text
  import opened PhotoFit

  /** The request fields the generator reads, all present as strings. */
  datatype KtpData = KtpData(
    nama: string, nik: string, ttl: string, jenisKelamin: string,
    golonganDarah: string, alamat: string, rtRw: string, kelDesa: string,
    kecamatan: string, agama: string, status: string, pekerjaan: string,
    kewarganegaraan: string, masaBerlaku: string, provinsi: string,
    kota: string, terbuat: string)

  datatype Field =
    | Nama | Nik | Ttl | JenisKelamin | GolonganDarah | Alamat | RtRw | KelDesa
    | Kecamatan | Agama | Status | Pekerjaan | Kewarganegaraan | MasaBerlaku
    | Provinsi | Kota | Terbuat

  function Value(d: KtpData, f: Field): string {
    match f
    case Nama => d.nama
    case Nik => d.nik
    case Ttl => d.ttl
    case JenisKelamin => d.jenisKelamin
    case GolonganDarah => d.golonganDarah
    case Alamat => d.alamat
    case RtRw => d.rtRw
    case KelDesa => d.kelDesa
    case Kecamatan => d.kecamatan
    case Agama => d.agama
    case Status => d.status
    case Pekerjaan => d.pekerjaan
    case Kewarganegaraan => d.kewarganegaraan
    case MasaBerlaku => d.masaBerlaku
    case Provinsi => d.provinsi
    case Kota => d.kota
    case Terbuat => d.terbuat
  }

  /** How a line's text is obtained from the request. */
  datatype Content =
    | Verbatim(field: Field)                 // the value as given
    | Uppercased(field: Field)               // upper(value)
    | Labelled(prefix: string, field: Field) // prefix + upper(value)
    | SignatureOfName                        // Signature(nama)

  function Resolve(c: Content, d: KtpData): string {
    match c
    case Verbatim(f) => Value(d, f)
    case Uppercased(f) => Upper(Value(d, f))
    case Labelled(p, f) => p + Upper(Value(d, f))
    case SignatureOfName => Signature(d.nama)
  }

  /** One line of the catalog: anchor, font, alignment and content. */
  datatype TextSpec = TextSpec(x: real, y: real, font: Font, align: TextAlign, content: Content)

  const Arrial := "ArrialKTP"
  const Ocr := "OcrKTP"
  const Sign := "SignKTP"

  /** A 16px upper-cased detail line in the left column. */
  function Detail(y: real, f: Field): TextSpec {
    TextSpec(190.0, y, Font(16, Arrial), Left, Uppercased(f))
  }

  /** The province and city headers, centred at the top. */
  const Headers: seq<TextSpec> := [
    TextSpec(380.0, 45.0, Font(25, Arrial), Center, Labelled("PROVINSI ", Provinsi)),
    TextSpec(380.0, 70.0, Font(25, Arrial), Center, Labelled("KOTA ", Kota))
  ]

  /** The NIK, verbatim, in the 32px OCR font. */
  const NikLine: TextSpec := TextSpec(170.0, 105.0, Font(32, Ocr), Left, Verbatim(Nik))

  /** Name, place and date of birth, sex and (further right) blood type. */
  const IdentityLines: seq<TextSpec> := [
    Detail(145.0, Nama),
    Detail(168.0, Ttl),
    Detail(191.0, JenisKelamin),
    TextSpec(463.0, 190.0, Font(16, Arrial), Left, Uppercased(GolonganDarah))
  ]

  /** Address, RT/RW, village and district. */
  const AddressLines: seq<TextSpec> := [
    Detail(212.0, Alamat),
    Detail(234.0, RtRw),
    Detail(257.0, KelDesa),
    Detail(279.0, Kecamatan)
  ]

  /** Religion, marital status, occupation, nationality and validity. */
  const StatusLines: seq<TextSpec> := [
    Detail(300.0, Agama),
    Detail(323.0, Status),
    Detail(346.0, Pekerjaan),
    Detail(369.0, Kewarganegaraan),
    Detail(390.0, MasaBerlaku)
  ]

  /** City and date of issue, 12px, above the signature. */
  const IssueLines: seq<TextSpec> := [
    TextSpec(553.0, 345.0, Font(12, Arrial), Left, Labelled("KOTA ", Kota)),
    TextSpec(570.0, 365.0, Font(12, Arrial), Left, Verbatim(Terbuat))
  ]

  /** The signature, 40px script. */
  const SignatureLine: TextSpec := TextSpec(540.0, 395.0, Font(40, Sign), Left, SignatureOfName)

  /** The text lines of the card, in drawing order. */
  const Catalog: seq<TextSpec> :=
    Headers + [NikLine] + IdentityLines + AddressLines + StatusLines + IssueLines + [SignatureLine]

  /** Left-aligned text hangs from its anchor, centred text is centred on it. */
  function BaselineFor(align: TextAlign): TextBaseline {
    match align
    case Center => Middle
    case Left => Top
    case Start => Alphabetic
  }

  function Render(spec: TextSpec, d: KtpData): DrawCmd {
    TextCmd(Resolve(spec.content, d), spec.x, spec.y, spec.font, spec.align, BaselineFor(spec.align), Black)
  }

  /** The fillText calls a list of catalog lines stands for, in order. */
  function RenderAll(specs: seq<TextSpec>, d: KtpData): seq<DrawCmd> {
    seq(|specs|, i requires 0 <= i < |specs| => Render(specs[i], d))
  }

  lemma RenderAllAppend(a: seq<TextSpec>, b: seq<TextSpec>, d: KtpData)
    ensures RenderAll(a + b, d) == RenderAll(a, d) + RenderAll(b, d)
  {
  }

  /** The text layer of the card. */
  function TextLayer(d: KtpData): seq<DrawCmd> {
    RenderAll(Catalog, d)
  }

  /** The text layer is the sections' lines, section by section. */
  lemma CatalogLayer(d: KtpData)
    ensures TextLayer(d) == RenderAll(Headers, d) + RenderAll([NikLine], d) + RenderAll(IdentityLines, d)
      + RenderAll(AddressLines, d) + RenderAll(StatusLines, d) + RenderAll(IssueLines, d)
      + RenderAll([SignatureLine], d)
  {
    RenderAllAppend(Headers, [NikLine], d);
    RenderAllAppend(Headers + [NikLine], IdentityLines, d);
    RenderAllAppend(Headers + [NikLine] + IdentityLines, AddressLines, d);
    RenderAllAppend(Headers + [NikLine] + IdentityLines + AddressLines, StatusLines, d);
    RenderAllAppend(Headers + [NikLine] + IdentityLines + AddressLines + StatusLines, IssueLines, d);
    RenderAllAppend(Headers + [NikLine] + IdentityLines + AddressLines + StatusLines + IssueLines, [SignatureLine], d);
  }

  lemma Regroup<T>(base: seq<T>, a: seq<T>, b: seq<T>, c: seq<T>, d: seq<T>, e: seq<T>, f: seq<T>, g: seq<T>)
    ensures base + a + b + c + d + e + f + g == base + (a + b + c + d + e + f + g)
  {
  }

  /** The card has nineteen text lines, drawn in catalog order; a centred
      line hangs on the middle of its text, a left-aligned one on its top,
      and every line is black with its anchor on the 720 x 463 card. */
  lemma TextLayerPolicy(d: KtpData)
    ensures |TextLayer(d)| == 19
    ensures forall i :: 0 <= i < |TextLayer(d)| ==>
      var c := TextLayer(d)[i];
      c.TextCmd? && c.fill == Black
      && (c.align == Center || c.align == Left)
      && (c.align == Center ==> c.baseline == Middle)
      && (c.align == Left ==> c.baseline == Top)
      && 0.0 <= c.x <= 720.0 && 0.0 <= c.y <= 463.0
  {
  }

  /** The headers read "PROVINSI " and "KOTA " followed by the upper-cased
      province and city, centred at (380, 45) and (380, 70) in 25px. */
  lemma HeaderLines(d: KtpData)
    ensures TextLayer(d)[0] == TextCmd("PROVINSI " + Upper(d.provinsi), 380.0, 45.0, Font(25, Arrial), Center, Middle, Black)
    ensures TextLayer(d)[1] == TextCmd("KOTA " + Upper(d.kota), 380.0, 70.0, Font(25, Arrial), Center, Middle, Black)
  {
  }

  /** The NIK and the issue date are drawn as given: the NIK at (170, 105)
      in 32px OcrKTP, the date at (570, 365) in 12px. */
  lemma VerbatimLines(d: KtpData)
    ensures TextLayer(d)[2] == TextCmd(d.nik, 170.0, 105.0, Font(32, Ocr), Left, Top, Black)
    ensures TextLayer(d)[17] == TextCmd(d.terbuat, 570.0, 365.0, Font(12, Arrial), Left, Top, Black)
  {
  }

  /** The NIK is the only line in the OCR font. */
  lemma OcrFontOnlyForNik(d: KtpData, i: nat)
    requires i < |TextLayer(d)| && TextLayer(d)[i].font.family == Ocr
    ensures i == 2
  {
    assert TextLayer(d)[i].font == Catalog[i].font;
  }

  /** The signature comes last, at (540, 395) in 40px SignKTP. */
  lemma SignatureLineLast(d: KtpData)
    ensures TextLayer(d)[18] == TextCmd(Signature(d.nama), 540.0, 395.0, Font(40, Sign), Left, Top, Black)
  {
  }

  /** Every line but the NIK, the issue date and the signature is upper case:
      none of them holds a lower-case letter whatever the request says. */
  lemma UpperCaseLines(d: KtpData, i: nat)
    requires i < |TextLayer(d)| && i != 2 && i != 17 && i != 18
    ensures NoLower(TextLayer(d)[i].text)
  {
    var c := Catalog[i].content;
    assert c.Uppercased? || c == Labelled("PROVINSI ", Provinsi) || c == Labelled("KOTA ", Kota);
    UpperHasNoLower(Value(d, c.field));
  }

  /** No field of the request is left off the card: each one is the
      source of some line of the catalog (the name of two: its own line and
      the signature). */
  lemma EveryFieldShown(f: Field)
    ensures exists i :: 0 <= i < |Catalog| && !Catalog[i].content.SignatureOfName? && Catalog[i].content.field == f
  {
    var i := match f
      case Provinsi => 0
      case Kota => 1
      case Nik => 2
      case Nama => 3
      case Ttl => 4
      case JenisKelamin => 5
      case GolonganDarah => 6
      case Alamat => 7
      case RtRw => 8
      case KelDesa => 9
      case Kecamatan => 10
      case Agama => 11
      case Status => 12
      case Pekerjaan => 13
      case Kewarganegaraan => 14
      case MasaBerlaku => 15
      case Terbuat => 17;
    assert Catalog[i].content.field == f;
  }

  /** A left-aligned upper-cased line shows the upper case of its field,
      hung from its top, in black. */
  lemma UppercasedLinesRendered(specs: seq<TextSpec>, d: KtpData)
    ensures forall i :: 0 <= i < |specs| && specs[i].content.Uppercased? && specs[i].align == Left ==>
      RenderAll(specs, d)[i]
      == TextCmd(Upper(Value(d, specs[i].content.field)), specs[i].x, specs[i].y, specs[i].font, Left, Top, Black)
  {
  }

  /** `drawTextLeft(x, y, text, font, size)`. */
  method DrawTextLeft(ctx: Context, x: real, y: real, text: string, family: string, size: nat)
    modifies ctx
    ensures ctx.font == Font(size, family) && ctx.textAlign == Left
    ensures ctx.textBaseline == Top && ctx.fillStyle == Black
    ensures ctx.log == old(ctx.log) + [TextCmd(text, x, y, Font(size, family), Left, Top, Black)]
  {
    ctx.font := Font(size, family);
    ctx.textAlign := Left;
    ctx.textBaseline := Top;
    ctx.fillStyle := Black;
    ctx.FillText(text, x, y);
  }

  /** `drawTextCenter(x, y, text, font, size)`. */
  method DrawTextCenter(ctx: Context, x: real, y: real, text: string, family: string, size: nat)
    modifies ctx
    ensures ctx.font == Font(size, family) && ctx.textAlign == Center
    ensures ctx.textBaseline == Middle && ctx.fillStyle == Black
    ensures ctx.log == old(ctx.log) + [TextCmd(text, x, y, Font(size, family), Center, Middle, Black)]
  {
    ctx.font := Font(size, family);
    ctx.textAlign := Center;
    ctx.textBaseline := Middle;
    ctx.fillStyle := Black;
    ctx.FillText(text, x, y);
  }

  // The section methods below state only the fill and the log they leave.
  // The font, alignment and baseline they leave behind are not stated: every
  // line sets all three again before its fillText reads them.

  /** The province and city headers. */
  method DrawHeaders(ctx: Context, data: KtpData)
    modifies ctx
    ensures ctx.fillStyle == Black
    ensures ctx.log == old(ctx.log) + RenderAll(Headers, data)
  {
    DrawTextCenter(ctx, 380.0, 45.0, "PROVINSI " + Upper(data.provinsi), Arrial, 25);
    DrawTextCenter(ctx, 380.0, 70.0, "KOTA " + Upper(data.kota), Arrial, 25);
  }

  /** The NIK block: the context is set by hand, not through drawTextLeft. */
  method DrawNik(ctx: Context, data: KtpData)
    modifies ctx
    ensures ctx.fillStyle == Black
    ensures ctx.log == old(ctx.log) + RenderAll([NikLine], data)
  {
    ctx.font := Font(32, Ocr);
    ctx.textAlign := Left;
    ctx.textBaseline := Top;
    ctx.fillStyle := Black;
    ctx.FillText(data.nik, 170.0, 105.0);
  }

  /** Name, place and date of birth, sex and blood type. */
  method DrawIdentity(ctx: Context, data: KtpData)
    modifies ctx
    ensures ctx.fillStyle == Black
    ensures ctx.log == old(ctx.log) + RenderAll(IdentityLines, data)
  {
    DrawTextLeft(ctx, 190.0, 145.0, Upper(data.nama), Arrial, 16);
    DrawTextLeft(ctx, 190.0, 168.0, Upper(data.ttl), Arrial, 16);
    DrawTextLeft(ctx, 190.0, 191.0, Upper(data.jenisKelamin), Arrial, 16);
    DrawTextLeft(ctx, 463.0, 190.0, Upper(data.golonganDarah), Arrial, 16);
    UppercasedLinesRendered(IdentityLines, data);
  }

  /** Address, RT/RW, village and district. */
  method DrawAddress(ctx: Context, data: KtpData)
    modifies ctx
    ensures ctx.fillStyle == Black
    ensures ctx.log == old(ctx.log) + RenderAll(AddressLines, data)
  {
    DrawTextLeft(ctx, 190.0, 212.0, Upper(data.alamat), Arrial, 16);
    DrawTextLeft(ctx, 190.0, 234.0, Upper(data.rtRw), Arrial, 16);
    DrawTextLeft(ctx, 190.0, 257.0, Upper(data.kelDesa), Arrial, 16);
    DrawTextLeft(ctx, 190.0, 279.0, Upper(data.kecamatan), Arrial, 16);
    UppercasedLinesRendered(AddressLines, data);
  }

  /** Religion, marital status, occupation, nationality and validity. */
  method DrawStatus(ctx: Context, data: KtpData)
    modifies ctx
    ensures ctx.fillStyle == Black
    ensures ctx.log == old(ctx.log) + RenderAll(StatusLines, data)
  {
    DrawTextLeft(ctx, 190.0, 300.0, Upper(data.agama), Arrial, 16);
    DrawTextLeft(ctx, 190.0, 323.0, Upper(data.status), Arrial, 16);
    DrawTextLeft(ctx, 190.0, 346.0, Upper(data.pekerjaan), Arrial, 16);
    DrawTextLeft(ctx, 190.0, 369.0, Upper(data.kewarganegaraan), Arrial, 16);
    DrawTextLeft(ctx, 190.0, 390.0, Upper(data.masaBerlaku), Arrial, 16);
    UppercasedLinesRendered(StatusLines, data);
    assert |RenderAll(StatusLines, data)| == 5;
  }

  /** City and date of issue. */
  method DrawIssue(ctx: Context, data: KtpData)
    modifies ctx
    ensures ctx.fillStyle == Black
    ensures ctx.log == old(ctx.log) + RenderAll(IssueLines, data)
  {
    DrawTextLeft(ctx, 553.0, 345.0, "KOTA " + Upper(data.kota), Arrial, 12);
    DrawTextLeft(ctx, 570.0, 365.0, data.terbuat, Arrial, 12);
  }

  /** The signature block sets no colour of its own: it draws with the black left by the line before it. */
  method DrawSignature(ctx: Context, data: KtpData)
    requires ctx.fillStyle == Black
    modifies ctx
    ensures ctx.fillStyle == Black
    ensures ctx.log == old(ctx.log) + RenderAll([SignatureLine], data)
  {
    var sign := Signature(data.nama);
    ctx.font := Font(40, Sign);
    ctx.textAlign := Left;
    ctx.textBaseline := Top;
    ctx.FillText(sign, 540.0, 395.0);
  }

  /** The text part of ktpgen: the catalog's lines, section by section. */
  method DrawText(ctx: Context, data: KtpData)
    modifies ctx
    ensures ctx.log == old(ctx.log) + TextLayer(data)
  {
    ghost var base := ctx.log;
    DrawHeaders(ctx, data);
    DrawNik(ctx, data);
    DrawIdentity(ctx, data);
    DrawAddress(ctx, data);
    DrawStatus(ctx, data);
    DrawIssue(ctx, data);
    DrawSignature(ctx, data);
    CatalogLayer(data);
    Regroup(base, RenderAll(Headers, data), RenderAll([NikLine], data), RenderAll(IdentityLines, data),
      RenderAll(AddressLines, data), RenderAll(StatusLines, data), RenderAll(IssueLines, data),
      RenderAll([SignatureLine], data));
  }

  /** `ktpgen(data)` once the template and the photo (photoWidth x
      photoHeight) are loaded: the template over the whole canvas, then the
      cropped photo in its fixed box, then the catalog's text lines. */
  method KtpGen(data: KtpData, photoWidth: real, photoHeight: real) returns (ctx: Context)
    requires photoWidth > 0.0 && photoHeight > 0.0
    ensures fresh(ctx) && ctx.width == 720 && ctx.height == 463
    ensures |ctx.log| == 2 + |Catalog|
    ensures ctx.log[0] == ImageCmd(Template, CardBounds)
    ensures ctx.log[1].CropCmd? && ctx.log[1].image == PasPhoto
    ensures IsCentredFill(ctx.log[1].src, photoWidth, photoHeight)
    ensures ctx.log[1].dst == PhotoBox
    ensures ctx.log[2..] == TextLayer(data)
  {
    ctx := new Context(720, 463);

    ctx.DrawImage(Template, Rect(0.0, 0.0, 720.0, 463.0));

    var srcX, srcY, srcW, srcH := CropToFrame(photoWidth, photoHeight);
    var dst := PhotoDest(srcW, srcH);
    ctx.DrawImageCrop(PasPhoto, Rect(srcX, srcY, srcW, srcH), dst);
    DrawText(ctx, data);
  }
}
