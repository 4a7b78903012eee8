# Fake KTP card generator — Dafny model

This project models the core of a serverless function that renders an
Indonesian identity card (KTP) as a PNG: `ktpgen` and the request checks of
its HTTP handler, both in `api/index.js`.

`ktpgen` paints a 720 x 463 canvas in a fixed order:

1. the card template over the whole canvas;
2. the passport photo (`pas_photo`), cropped to fill the 200 x 280 frame at
   (520, 80) and then shrunk by 0.78 and moved 15 units left;
3. nineteen text lines. Each is drawn by setting the context's font,
   alignment and baseline, and then calling `fillText`. The first eighteen
   also set the colour to black. The signature block (api/index.js:129-134)
   sets no colour and draws with the black left by the line before it.

The handler checks the request before `ktpgen` runs. The fields `nama`,
`nik`, `pas_photo`, `provinsi` and `kota` must be present and non-empty.
The NIK must be exactly sixteen ASCII digits.

The model has five modules:

- `Canvas` (canvas.dfy): the 2D context as a class. Its fields are the font,
  alignment, baseline and fill colour that `fillText` reads. Its draw methods
  append to a command log instead of changing pixels.
- `Text` (text.dfy): `upper` and the signature, the first space-separated
  word of the name.
- `PhotoFit` (photo_fit.dfy): the crop block, written as a method that
  assigns `srcX`, `srcY`, `srcW`, `srcH` in two branches. Also the scale and
  destination expressions, as functions over exact reals.
- `Layout` (layout.dfy): the text lines as a declarative table (`Catalog`).
  `TextLayer` turns it into the `fillText` commands it stands for. The
  methods `DrawTextLeft`, `DrawTextCenter` and `KtpGen` replay the source's
  sequence of context updates. `KtpGen` is proved to log the template, the
  fitted photo and then exactly `TextLayer(data)`.
- `Validation` (validation.dfy): the missing-field filter, the `^\d{16}$`
  test and the handler's verdict.

Some consequences of the code that the model makes explicit:

- A square photo has aspect 1, which is more than 200/280. So it takes the
  first branch (api/index.js:76-80): full height, cut on both sides.
- The signature is `nama.split(' ')[0] || nama`. Only the space character
  separates words, so a tab does not. A name that starts with a space is
  drawn whole.
- The code does not check the photo's size. A zero-size photo makes the
  aspect and scale divisions give Infinity or NaN. The model states positive
  photo dimensions as a precondition.
- The card has nineteen text lines. The city appears twice, and the name
  appears both as a line and as the signature.

## Model

| member | source | states |
|---|---|---|
| `Canvas.Context.constructor` | api/index.js:34-35 | a new 720 x 463 canvas has an empty log and the default font, alignment, baseline and black fill |
| `Canvas.Context.DrawImage` | api/index.js:63 | drawImage with a destination box appends exactly that command and changes nothing else |
| `Canvas.Context.DrawImageCrop` | api/index.js:98 | drawImage with source and destination boxes appends exactly that command |
| `Canvas.Context.FillText` | api/index.js:49 | fillText logs the text and anchor with the font, alignment, baseline and fill the context holds at that moment |
| `Text.UpperChar` | api/index.js:60 | the result is never a lower-case ASCII letter; a-z map to A-Z at the same offset, everything else is unchanged |
| `Text.Upper` | api/index.js:60 | upper keeps the length and upper-cases each character in place |
| `Text.UpperHasNoLower` | api/index.js:60 | an upper-cased string contains no lower-case letter |
| `Text.UpperIdempotent` | api/index.js:60 | upper-casing twice gives the same string as upper-casing once |
| `Text.UpperFixesUpperCase` | api/index.js:101-102 | a string with no lower-case letter, such as the labels "PROVINSI " and "KOTA ", is its own upper case |
| `Text.UpperAppend` | api/index.js:60 | upper of a concatenation is the concatenation of the uppers |
| `Text.FirstWord` | api/index.js:130 | split(' ')[0] is a prefix of the name, contains no space, and is followed by a space or the end of the name |
| `Text.FirstWordUnique` | api/index.js:130 | any string with those three properties is the first word, so the three properties define it |
| `Text.Signature` | api/index.js:130 | a name with no space, an empty name or one that starts with a space is drawn whole; otherwise the result is the non-empty run before the first space |
| `Text.SignatureExamples` | api/index.js:130 | "Budi Santoso" signs as "Budi"; "Siti" and " Budi" are kept whole; a tab does not split "Budi\tSantoso" |
| `PhotoFit.WiderByCrossMultiplication` | api/index.js:71-76 | imgAspect > frameAspect exactly when width * 280 > height * 200 |
| `PhotoFit.CropToFrame` | api/index.js:71-86 | the crop lies inside the photo, is non-empty, has aspect 200:280, is centred and spans the photo on one axis. A wider photo keeps its full height with srcY = 0; any other keeps its full width with srcX = 0; a square photo takes the full-height branch |
| `PhotoFit.CentredFillUnique` | api/index.js:74-86 | there is at most one such crop per photo, so both branches give the same crop when the aspects are equal |
| `PhotoFit.CropExamples` | api/index.js:76-86 | a 400 x 600 photo takes the full-width branch with crop (0, 20, 400, 560); a square takes the full-height branch |
| `PhotoFit.BaseScale` | api/index.js:88 | the scale fits the crop in the frame and fills it on one axis; for a crop with the frame's aspect it maps the crop onto exactly 200 x 280 |
| `PhotoFit.PhotoDest` | api/index.js:88-96 | the destination lies strictly inside the frame and on the canvas, at most 156 x 218.4; for a crop with the frame's aspect it is always (527, 110.8, 156, 218.4) |
| `Layout.TextLayer` | api/index.js:101-134 | the text part of the card as the catalog's nineteen fillText calls in drawing order, each with its font, anchor, alignment, matching baseline and black fill |
| `Layout.TextLayerPolicy` | api/index.js:44-58 | the card has 19 text lines. Each is black and centre- or left-aligned; centred text uses baseline middle and left-aligned text uses baseline top. Every anchor lies on the 720 x 463 canvas |
| `Layout.HeaderLines` | api/index.js:101-102 | the headers are "PROVINSI " + upper(provinsi) at (380, 45) and "KOTA " + upper(kota) at (380, 70), centred, 25px ArrialKTP |
| `Layout.VerbatimLines` | api/index.js:105-127 | the NIK is drawn unchanged at (170, 105) in 32px OcrKTP, and the issue date unchanged at (570, 365) in 12px |
| `Layout.OcrFontOnlyForNik` | api/index.js:105-109 | no line other than the NIK uses the OCR font |
| `Layout.SignatureLineLast` | api/index.js:129-134 | the last line is the signature of nama at (540, 395) in 40px SignKTP, left/top, black |
| `Layout.UpperCaseLines` | api/index.js:101-126 | every line other than the NIK, issue date and signature contains no lower-case letter, whatever the request holds |
| `Layout.EveryFieldShown` | api/index.js:101-127 | each of the 17 request fields feeds some catalog line |
| `Layout.DrawTextLeft` | api/index.js:44-50 | sets a left/top black font and logs one fillText with those settings |
| `Layout.DrawTextCenter` | api/index.js:52-58 | sets a centre/middle black font and logs one fillText with those settings |
| `Layout.DrawHeaders` | api/index.js:101-102 | logs the catalog's two header lines |
| `Layout.DrawNik` | api/index.js:104-109 | the hand-set NIK block logs exactly the catalog's NIK line |
| `Layout.DrawIdentity` | api/index.js:112-115 | logs the name, birth, sex and blood-type lines of the catalog |
| `Layout.DrawAddress` | api/index.js:116-119 | logs the address, RT/RW, village and district lines |
| `Layout.DrawStatus` | api/index.js:120-124 | logs the religion, marital status, occupation, nationality and validity lines |
| `Layout.DrawIssue` | api/index.js:126-127 | logs the 12px city and issue-date lines |
| `Layout.DrawSignature` | api/index.js:129-134 | the signature block sets no colour of its own but still draws black, because the previous line left the fill black |
| `Layout.DrawText` | api/index.js:100-134 | the text part of ktpgen appends exactly the catalog's lines, in catalog order |
| `Layout.KtpGen` | api/index.js:31-137 | the log is the template at (0, 0, 720, 463), then the photo, then the 19 text lines of TextLayer(data). The photo is a centred crop-to-fill crop drawn into (527, 110.8, 156, 218.4) |
| `Validation.IsMissing` | api/index.js:180 | `!body[field]` on a string value: the field is absent or holds the empty string, the only falsy string |
| `Validation.MissingFields` | api/index.js:179-180 | the result lists exactly the given fields that are absent or empty, in the given order (a subsequence of the input), each as many times as it is given |
| `Validation.IsValidNik` | api/index.js:191 | the NIK passes the pattern test exactly when it has sixteen characters and each is an ASCII digit '0'-'9' |
| `Validation.MatchesDigits` | api/index.js:191 | the anchored digit pattern matches exactly the strings of length n made only of '0'-'9' |
| `Validation.Validate` | api/index.js:178-197 | rendering is reached exactly when all five required fields are non-empty and the NIK is 16 ASCII digits. Missing fields are reported, in order, before the NIK is checked |

## Left out

- Font download, registration under the names ArrialKTP, OcrKTP and SignKTP, and the `fontsLoaded` load-once flag: network I/O and a process-wide font registry. A failed download is rethrown (api/index.js:25-28) and the handler answers 500. The model uses the font names only as labels in the log.
- Loading the template and the photo, rasterising images and glyphs, and PNG encoding: foreign library calls. The photo enters only through its width and height. Each draw call is an entry in the command log.
- The HTTP side of the handler: CORS headers, the OPTIONS and 405 answers, JSON parsing, status codes, the error message texts (including the comma-joined list of missing fields), logging, and the catch that turns a thrown error into a 500.
- Floating point: the crop, scale and destination are exact reals. The source computes 200/280, 0.78 and the divisions in IEEE-754 doubles, so its results may differ in the last bits.
- PhotoFit.CropToFrame: requires a positive width and height. The source does not check this; a zero-size photo yields Infinity or NaN there.
- Text.Upper, Text.UpperChar: map only ASCII a-z. JavaScript's toUpperCase maps every Unicode lower-case letter and can change the length of a string (for example, ß becomes SS).
- Validation.IsMissing: JSON values are modelled as strings only. The falsiness of 0, false and null, and the string conversion that the regex test applies to a non-string NIK, are not modelled.
- Layout.KtpGen: the renderer receives every field as a present string. In the source, a missing optional field such as `ttl` makes `upper` throw, and the handler then answers 500. The conversion from the request body to the renderer's record is not modelled.
- The `pas_photo` URL is not modelled: only the decoded photo's dimensions are.
