# Deputy ID-card editor — verified model of its core

The editor is a single browser page. A user uploads a portrait, types a
deputy's name, a responsible person's name and a phone number, then
downloads a PDF of the finished card. This project models the computations
behind that page, in Dafny, and proves what they guarantee:

- **Phone mask** (`PhoneMask`). The phone input keeps only digits. It forces the
  country code 7 to the front and cuts the number to 11 digits. It then lays the
  digits out as `+7 (###) ###-##-##`, showing the pattern up to the last digit.
  Once a group is complete, the separator after it appears at once: 4 digits
  show `+7 (001) `, 7 digits end in `-`, and so do 9.
- **Text fields** (`TextFields`, with `Chars` for ECMAScript white space,
  `trim` and lower-casing):
  - the trimmed value or a dimmed placeholder;
  - the deputy name split into a surname line and a given-names line;
  - the file name `id-card-<slug>.pdf`.
- **Photo transform** (`PhotoTransform`). This is the state that the reset
  button, a photo upload, mouse drag, wheel zoom and touch drag/pinch
  change. It has two forms:
  - one pure function per event (`OnReset`, `OnUpload`, `OnWheel`, …), with
    `Step`/`Run` over event sequences;
  - the class `PhotoEditor`, whose fields are the page's state variables.
    Each event handler is a method proved to leave exactly the state the
    pure step gives.
  The zoom always stays within `[0.3, 3]`.
- **Geometry** (`Layout`), over the reals:
  - the rounded photo frame;
  - the "cover" placement of the photo in it;
  - the caption overlay's size and position;
  - the text and QR anchors;
  - the height of the exported page.

The mask (`src/main.js:631-633`) puts a 7 in front of any digit string that
does not already start with 7. It does not replace a leading 8: the 8 is kept
behind the 7 and the last digit falls off. `PhoneMask.MaskLeadingEight`
proves `"87001234567"` → `"+7 (870) 012-34-56"`. A leading 7 is taken as the
country code, and `PhoneMask.MaskPartial` proves `"70012"` → `"+7 (001) 2"`.

## Model

| member | source | states |
|---|---|---|
| Chars.Trim | src/main.js:343 | The trimmed text has no white space at either end, and it is empty exactly when the input is all white space. |
| Chars.TrimIsSlice | src/main.js:343 | `trim` keeps one contiguous slice of the input. Only white space lies before and after it. |
| Chars.TrimIdempotent | src/main.js:343 | Trimming twice is trimming once. |
| Chars.ToLowerChar | src/main.js:673 | `A`–`Z` and `А`–`Я` map to the lower-case letter at the same offset. Lower-case letters and digits are left alone, and only `-` maps to `-`. |
| Chars.ToLower | src/main.js:673 | Lower-casing keeps the length and maps each character independently. |
| Chars.ToLowerCharKeepsWhitespace | src/main.js:673 | Lower-casing never turns a character into or out of white space, so the slug stays free of white space. |
| Chars.ToLowerCharIdempotent | src/main.js:673 | Lower-casing a lower-cased character changes nothing. |
| PhoneMask.Substring | src/main.js:633 | `substring(start, end)` clamps both ends to the length. Each character of the result is the source character at the same offset from `start`. |
| PhoneMask.KeepDigits | src/main.js:631 | `replace(/\D/g, '')` leaves only ASCII digits and never lengthens the string. |
| PhoneMask.KeepDigitsAppend | src/main.js:631 | Digit filtering distributes over concatenation. |
| PhoneMask.KeepDigitsOfDigits | src/main.js:631 | A string of digits passes through unchanged. |
| PhoneMask.Normalize | src/main.js:631-633 | The normalised number is digits only, at most 11 long and starts with 7. It is empty exactly when the input has no digit. |
| PhoneMask.NormalizeKeepsDigits | src/main.js:631-633 | The normalised number is a prefix of the typed digits, or 7 followed by a prefix of them when the first typed digit is not 7. |
| PhoneMask.NormalizeFixesNormalized | src/main.js:632-633 | An already normalised number is left as it is. |
| PhoneMask.Layout | src/main.js:635-640 | The `formatted +=` chain. It has no contract of its own; `LayoutFitsPattern`, `LayoutKeepsDigits` and `LayoutClosesGroup` state what it produces. |
| PhoneMask.LayoutFitsPattern | src/main.js:635-640 | The formatted text matches `+7 (###) ###-##-##` position by position, digits in the `#` places. |
| PhoneMask.LayoutKeepsDigits | src/main.js:635-640 | The digits of the formatted text are exactly the normalised number, in order. No digit is lost or invented. |
| PhoneMask.Mask | src/main.js:630-642 | The whole `input` handler, `Layout` of `Normalize`. It has no contract of its own; `MaskShape`, `MaskIdempotent` and `MaskIgnoresNonDigit` state its properties. |
| PhoneMask.LayoutClosesGroup | src/main.js:635-640 | One digit shows just `+7`. After 4, 7 or 9 digits, the text already ends in the next group's separator: `+7 (ddd) `, then `… ddd-`, then `… dd-`. |
| PhoneMask.SeparatorReappears | src/main.js:630-642 | Deleting that trailing separator does not stick: masking the shortened text gives the full text back. |
| PhoneMask.MaskRestoresSeparator | src/main.js:630-642 | `"+7 (001)"` is masked back to `"+7 (001) "`. |
| PhoneMask.MaskShape | src/main.js:630-642 | The displayed value holds exactly the normalised digits and fits the pattern. It is empty exactly when nothing typed was a digit, and it is the full 18-character pattern when 11 digits are kept. |
| PhoneMask.MaskIdempotent | src/main.js:630-642 | Re-running the mask on its own output (the next `input` event) changes nothing. |
| PhoneMask.MaskIgnoresNonDigit | src/main.js:631 | Inserting a non-digit character anywhere does not change the displayed value. |
| PhoneMask.MaskLeadingEight | src/main.js:630-640 | `"87001234567"` is shown as `"+7 (870) 012-34-56"`. |
| PhoneMask.MaskPartial | src/main.js:630-640 | `"70012"` is shown as the partial `"+7 (001) 2"`. |
| TextFields.FieldOrPlaceholder | src/main.js:343-344 | A field is the dimmed placeholder exactly when its value is blank. Otherwise it is the trimmed value, which is non-empty and trimmed at both ends. |
| TextFields.DeputyNameText | src/main.js:342-343 | The deputy name field with its placeholder `АСАНОВ БЕРИК`; `FieldOrPlaceholder` and `FieldsNeverEmpty` state its contract. |
| TextFields.ResponsibleNameText | src/main.js:392-393 | The responsible name field with its placeholder `Серикова Алия`; `FieldOrPlaceholder` and `FieldsNeverEmpty` state its contract. |
| TextFields.PhoneText | src/main.js:407-408 | The phone field with its placeholder `+7 (700) 123-45-67`; `FieldOrPlaceholder`, `FieldsNeverEmpty` and `PhonePlaceholderIsMasked` state its contract. |
| TextFields.FieldsNeverEmpty | src/main.js:392-395 | Deputy name, responsible name and phone always have text to draw. The deputy field is a placeholder exactly when the trimmed input is empty. |
| TextFields.PhonePlaceholderIsMasked | src/main.js:407 | The phone placeholder `+7 (700) 123-45-67` is a fixed point of the phone mask. |
| TextFields.Join | src/main.js:365 | `parts.join(' ')`. It has no contract of its own; `Split` states `Join(Split(s)) == s` and `SplitJoin` the other direction. |
| TextFields.SplitJoin | src/main.js:362-365 | Joining separator-free parts and splitting the result gives the same parts back. |
| TextFields.Split | src/main.js:362 | `split(' ')` gives one more part than there are separators. No part contains the separator, and joining the parts restores the string. |
| TextFields.CountPositive | src/main.js:363 | The separator count is non-zero exactly when the separator occurs. |
| TextFields.SplitUnique | src/main.js:362 | Any cut of the string into separator-free parts that joins back to it is the split. |
| TextFields.SplitDeputyName | src/main.js:362-379 | Two lines are drawn exactly when the name contains a space. The surname has no space, and surname + `' '` + given names is the name. Otherwise the whole name is the one line. |
| TextFields.SurnameBeforeFirstSpace | src/main.js:362-365 | The surname is the text before the first space, and the given names are everything after it. |
| TextFields.NameLinesNotEmpty | src/main.js:343-365 | For the drawn (trimmed or placeholder) name, neither line of a two-line name is empty. |
| TextFields.TrimmedNameLines | src/main.js:362-365 | A name that neither starts nor ends with white space never gives an empty surname or an empty given-names line. |
| TextFields.SplitThreeWords | src/main.js:362-365 | `"Asanov Berik Nurlanovich"` becomes `"Asanov"` over `"Berik Nurlanovich"`. |
| TextFields.SplitOneWord | src/main.js:375-378 | A one-word name stays a single line. |
| TextFields.DashRuns | src/main.js:673 | `replace(/\s+/g, '-')` leaves no white space and never lengthens the string. White-space-free text is unchanged. |
| TextFields.DashRunsKeepsVisible | src/main.js:673 | Apart from white space and hyphens, the characters survive the replacement in order. |
| TextFields.DashRunsOfRun | src/main.js:673 | A white-space run of any length after a word becomes exactly one hyphen, and the rest of the text is rewritten on its own. |
| TextFields.DashRunsAfterWord | src/main.js:673 | A word without white space is copied unchanged, whatever follows it. |
| TextFields.DashRunsOfTwoWords | src/main.js:673 | A white-space run of any length between two words becomes exactly one hyphen. |
| TextFields.Slug | src/main.js:672-673 | The slug is never empty and contains no white space. |
| TextFields.ExportFileName | src/main.js:672-674 | The file name is `id-card-` + a non-empty, white-space-free slug + `.pdf`. |
| TextFields.BlankNameFileName | src/main.js:672-673 | A blank deputy name gives `id-card-` + `open-deputy` + `.pdf`. |
| TextFields.FileNameOfTwoWords | src/main.js:672-673 | Two words separated by white space give `id-card-` + the lower-cased `first-second` + `.pdf`. |
| Layout.PhotoFrame | src/main.js:281-288 | The frame is a square of side `2 * radius * w`, centred at `(centerX * w, centerY * h)`, with corners rounded by 8% of the side. |
| Layout.PhotoFrameScales | src/main.js:281-288 | The frame scales linearly with the template size. |
| Layout.CoverRect | src/main.js:308-322 | The drawn photo keeps the photo's aspect ratio. Its height is `size * scale` for a wide photo and its width is `size * scale` otherwise. It is centred on the frame, shifted by the pan offset. |
| Layout.RatioAboveOne | src/main.js:312 | The branch `imgRatio > 1` is taken exactly when the photo is wider than tall. |
| Layout.CoverShorterSide | src/main.js:308-318 | The shorter drawn side is the frame side times the zoom. |
| Layout.CoverCoversFrame | src/main.js:308-322 | At zoom of at least 1, a pan within the overhang leaves no part of the frame uncovered. |
| Layout.CoverAtRestCoversFrame | src/main.js:308-322 | At zoom of at least 1 and no pan, the photo covers the frame. |
| Layout.OverlayRect | src/main.js:237-259 | The overlay keeps its aspect ratio. A configured width wins; otherwise a configured height wins; otherwise the overlay has its natural size. It is centred on the photo's axis at the configured `y`. |
| Layout.OverlayIgnoresHeight | src/main.js:238-245 | When a width is configured, the configured height makes no difference. |
| Layout.DefaultCaptionOverlay | src/main.js:126-262 | With the default caption settings the image is 600 pixels wide, keeps its own aspect ratio (the configured height 1000 is unused), sits 50 pixels from the top and is centred on the photo column. |
| Layout.ResolveAnchors | src/main.js:349-431 | Where each anchor is drawn; its own ensures only spell out each field's fraction of the template. What the placement guarantees is stated by `PhotoColumnShared`, `AnchorsScale` and `DefaultLayoutOrder`. |
| Layout.PhotoColumnShared | src/main.js:256-355 | For every configuration, the caption, the deputy name, the photo frame's centre and the caption overlay's centre lie on one vertical axis. |
| Layout.AnchorsScale | src/main.js:9-63 | All fractional anchors scale with the template. The exception is the caption's `y`, which is in pixels. |
| Layout.DefaultLayoutOrder | src/main.js:15-63 | With the default table, the deputy name sits on the photo's axis, below the photo's centre. The responsible block is header, then name, then phone, top to bottom, all below the deputy name, above the bottom edge and left-aligned together. |
| Layout.PdfHeight | src/main.js:657-659 | The page is 148 mm wide, with the template's aspect ratio (`height * tw == 148 * th`), and positive in height. |
| Layout.PdfHeightScaleFree | src/main.js:657-659 | The page height depends on the template's shape only, not its resolution. |
| PhotoTransform.Clamp | src/main.js:569 | `max(0.3, min(3, v))` always lies in `[0.3, 3]`, equals `v` inside that range and the nearer bound outside it. |
| PhotoTransform.OnReset | src/main.js:498-503 | Reset gives zoom 1 and no pan, and keeps the photo and any gesture state. |
| PhotoTransform.IsImageType | src/main.js:506 | `type.startsWith('image/')`. It has no contract of its own; `ImageTypeIsPrefix` and `ImageTypeExamples` state what it accepts. |
| PhotoTransform.ImageTypeIsPrefix | src/main.js:506 | Every type `image/<subtype>` passes, and a type that passes is `image/` followed by its subtype. |
| PhotoTransform.ImageTypeExamples | src/main.js:506 | `image/png` passes; `Image/png`, `image` and `application/pdf` are refused. The test is case-sensitive. |
| PhotoTransform.OnUpload | src/main.js:505-522 | A file whose type does not start with `image/` changes nothing. An image becomes the photo, with the transform reset. |
| PhotoTransform.OnDragStart | src/main.js:534-542 | With a photo, pressing starts a drag that records the pointer and the current pan; the zoom, pan, photo and pinch distance stay. Without a photo, nothing changes. |
| PhotoTransform.OnDragMove | src/main.js:545-553 | During a drag, the pan moves from its starting value by the pointer's displacement; the zoom, photo, drag origin, starting pan and pinch distance stay. Otherwise nothing changes. |
| PhotoTransform.OnDragEnd | src/main.js:556-562 | Mouse up and mouse leave end the drag and change nothing else. |
| PhotoTransform.OnWheel | src/main.js:565-571 | With a photo, scrolling down zooms out by 0.05 and scrolling up zooms in by 0.05, within the clamp. Without a photo, nothing changes. |
| PhotoTransform.OnTouchStart | src/main.js:576-591 | One finger starts a drag, and two fingers record their distance. Other counts, or no photo, change nothing. |
| PhotoTransform.OnTouchMove | src/main.js:593-618 | One finger during a drag pans. Two fingers zoom by `(dist - last) * 0.005`, clamped, once a distance is known, and always record the new distance; nothing else changes. Any other finger count, or no photo, changes nothing. |
| PhotoTransform.OnTouchEnd | src/main.js:620-623 | Lifting the fingers ends the drag and forgets the pinch distance. |
| PhotoTransform.StepPreservesValid | src/main.js:565-618 | No event moves the zoom outside `[0.3, 3]`. |
| PhotoTransform.RunPreservesValid | src/main.js:565-618 | After any sequence of events, the zoom is still in `[0.3, 3]`. |
| PhotoTransform.InitialValid | src/main.js:141-150 | The initial state has no photo and a zoom within range. |
| PhotoTransform.ZoomInsSaturate | src/main.js:565-571 | `n` zoom-in notches give the clamped `zoom + 0.05 * n`: exactly that sum while it stays at most 3, and 3 beyond it. |
| PhotoTransform.NoPhotoGesturesInert | src/main.js:534-623 | Without a photo, no mouse, wheel or touch events change the zoom or the pan. |
| PhotoTransform.DragFollowsPointer | src/main.js:534-553 | After pressing at a point and moving, the pan is the old pan plus the last position minus the pressed position. The zoom is unchanged. |
| PhotoTransform.DragMoves | src/main.js:545-553 | Through any number of moves, the pan follows the latest pointer position from where the drag began. |
| PhotoTransform.MoveAfterDragEnd | src/main.js:545-562 | After the drag ends, moving the pointer changes nothing. |
| PhotoTransform.PinchZoom | src/main.js:581-618 | A two-finger start at distance `d0` and a move to `d1` zoom by `(d1 - d0) * 0.005`, clamped, when `d0 > 0`. The pan is unchanged. |
| PhotoTransform.PinchAfterTouchEnd | src/main.js:606-623 | After the fingers lift, the first two-finger move does not zoom. |
| PhotoTransform.RefusedUploadChangesNothing | src/main.js:505-509 | A non-image file leaves the whole state untouched. |
| PhotoTransform.AcceptedUploadResets | src/main.js:505-522 | An accepted image is shown at zoom 1 with no pan, whatever came before. |
| PhotoTransform.PhotoEditor.constructor | src/main.js:141-150 | The page starts in the initial state. |
| PhotoTransform.PhotoEditor.ResetPhotoSettings | src/main.js:498-503 | Performs the reset step in place and keeps the zoom in range. |
| PhotoTransform.PhotoEditor.HandlePhotoFile | src/main.js:505-522 | Reports whether the file is an image, and performs the upload step in place. |
| PhotoTransform.PhotoEditor.MouseDown | src/main.js:534-542 | Performs the drag-start step in place. |
| PhotoTransform.PhotoEditor.MouseMove | src/main.js:545-553 | Performs the drag-move step in place. |
| PhotoTransform.PhotoEditor.MouseUp | src/main.js:556-562 | Performs the drag-end step (mouse up and mouse leave) in place. |
| PhotoTransform.PhotoEditor.Wheel | src/main.js:565-571 | Performs the wheel step in place and keeps the zoom in range. |
| PhotoTransform.PhotoEditor.TouchStart | src/main.js:576-591 | Performs the touch-start step in place. |
| PhotoTransform.PhotoEditor.TouchMove | src/main.js:593-618 | Performs the touch-move step in place and keeps the zoom in range. |
| PhotoTransform.PhotoEditor.TouchEnd | src/main.js:620-623 | Performs the touch-end step in place. |

## Left out

- DOM lookups, listener wiring, the settings panel, alerts and all canvas drawing (clipping, fills, fonts, colours, the silhouette path): the model keeps the numbers and strings these consume, not the pixels.
- The QR code and its library call, jsPDF and `canvas.toDataURL`: these are foreign libraries. Only the page width, the page height and the file name are modelled.
- Asynchronous loading (`FileReader`, `Image.onload`, the template and overlay images): an accepted upload is modelled as one step that already has the decoded photo's size.
- `getCanvasScale` and client-to-canvas conversion: pointer positions enter the model already in canvas coordinates.
- `Math.sqrt` of the finger offsets: the pinch distance enters the model as a measured value in `Touches.dist`.
- `Math.round` of font sizes and the second name line's offset `fontSize * 1.2`: these only affect typography.
- IEEE floating point (rounding, NaN, infinities): geometry and zoom are exact reals. `Clamp` therefore does not model what `Math.max`/`Math.min` do with NaN.
- Chars.ToLower: maps ASCII, Latin-1 and the Cyrillic block (U+0400–U+04FF) only. Every character outside these blocks is left unchanged (Latin Extended letters among them), and multi-character expansions such as `İ` are not modelled, because the full Unicode case tables are out of reach. JavaScript strings are UTF-16 code units; the model's characters are code points.
- Layout.OverlayRect: does not use the overlay's configured `x`, because the code never reads it either — the overlay is always centred on the photo's axis.
- The photo shape option (circle, square, rounded square) only changes the clip path. The frame square and its corner radius are modelled; the shape is not.
