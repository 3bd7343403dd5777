# ghfetch in Dafny

ghfetch is a terminal tool. It looks up a GitHub user, organization or
repository and prints the entity's avatar as coloured block glyphs, with
its metadata written row by row beside the art. This project models the
logic of that tool and proves properties of the model:

- `LanguageStats` covers `create_languages_stat`. It folds the languages
  mapping to at most four entries, the fourth being "Other". It then turns
  each byte count into a truncated percentage with one decimal, kept here
  as integer tenths.
- `Records` covers `fetch_main`, `fetch_repo`, `fetch_user` and
  `correct_formatting`. They turn the API's reply (status code and JSON
  body) into one record per kind of entity. Every empty-string value
  becomes None. Status codes and exceptions are explicit outcomes.
- `Glyphs` covers `rgb_to_hex` and the row loop of `image_to_unicode`.
  Each pixel becomes a 20-character markup glyph `[#rrggbb]█[/#rrggbb]`.
  Every 35 glyphs form a row that ends in a tab, and a trailing partial
  row is dropped.
- `Compositor` covers `print_output`. It appends text to fixed rows of the
  canvas, an `array<string>`, using one layout per kind of record. For a
  fork, a "Forked from" row shifts the rest of the repository layout down
  by one.
- `AsciiArt` covers the earlier prototype `image_to_ascii` in the root
  `main.py`. Grey levels map to `ASCII_CHARS[p // 25]`, and the joined
  string is cut into rows of 75.
- `Text` renders decimal integers as `str()` does, and reads them back as `int()` does.
- `Wrappers` holds the `Option` type.

The model follows the code throughout:

- The canvas is never padded.
- The statuses passed back unchanged are 401, 404 and 429.
- There is no retry, pagination or commit count.
- An unknown account type gives no record.

## Model

| member | source | states |
|---|---|---|
| LanguageStats.Union | ghfetch/main.py:48 | `d \| {k: v}`: a key already present keeps its position and takes the new value; a new key is appended |
| LanguageStats.Total | ghfetch/main.py:50 | `sum(d.values())`: the byte counts added up; `TotalAppend` proves it adds over concatenation |
| LanguageStats.TotalAppend | ghfetch/main.py:48-50 | the total of two mappings laid end to end is the sum of their totals |
| LanguageStats.Fold | ghfetch/main.py:46-48 | at most 4 entries; a mapping of at most 4 is untouched; otherwise the first three in order, then "Other" holding the sum of the rest, which overwrites an "Other" among the first three |
| LanguageStats.FoldTotal | ghfetch/main.py:46-50 | the fold keeps the total byte count, except that an "Other" among the first three loses its own bytes, by exactly its value |
| LanguageStats.Tenths | ghfetch/main.py:52 | the percentage in tenths is truncated, not rounded: `q*T <= v*1000 < (q+1)*T`, and at most 1000 when `v <= T` |
| LanguageStats.FormatTenths | ghfetch/main.py:52 | the rendered percentage `"<q//10>.<q%10>%"` reads back as `q` tenths |
| LanguageStats.Percentages | ghfetch/main.py:50-52 | same keys in the same order; each value reads back as the truncated tenths of its byte count against the total, within 0..1000 |
| LanguageStats.PercentagesSum | ghfetch/main.py:50-52 | the truncated percentages add up to at most 100.0, and fall short of it by less than one tenth per entry |
| LanguageStats.SumTenthsBounds | ghfetch/main.py:52 | the truncated tenths sum, scaled by the total, falls short of the exact sum by less than one tenth per entry |
| LanguageStats.LanguagesStat | ghfetch/main.py:37-52 | a non-200 status is returned as it is; an empty mapping gives an empty table; a non-empty mapping with zero bytes raises ZeroDivisionError; otherwise the table is `Percentages` of the folded mapping: at most 4 entries, with the folded keys |
| Records.ApiUrl | ghfetch/main.py:22-26 | the URL is the API base, then `repos/` exactly when the name contains a slash (else `users/`), then the name |
| Records.Normalize | ghfetch/main.py:95 | `''` becomes None and every other value is kept |
| Records.NormalizeAll | ghfetch/main.py:94-95 | keys kept in order; a value becomes None iff it was None or `''`; other values unchanged; no `''` is left |
| Records.NormalizeAllIdempotent | ghfetch/main.py:94-95 | formatting a formatted dict changes nothing |
| Records.CorrectFormatting | ghfetch/main.py:94-102 | formatting a record keeps its kind, its archived flag, its languages and whether it has a fork parent |
| Records.CorrectFormattingFields | ghfetch/main.py:94-95 | formatting a record does to its key/value view exactly what the dict comprehension does |
| Records.FieldNormalized | ghfetch/main.py:95 | each key of the record's view is formatted by the per-value rule |
| Records.CorrectFormattingNormalizes | ghfetch/main.py:94-95 | after formatting no value of the record is `''` |
| Records.CorrectFormattingIdempotent | ghfetch/main.py:94-95 | formatting a record twice is formatting it once |
| Records.DatePrefix | ghfetch/main.py:91 | `created_at[:10]`: the first ten characters, or the whole of a shorter string |
| Records.FetchMain | ghfetch/main.py:54-102 | 401, 404 and 429 come back unchanged and are the only codes that do; any other non-200 status raises; a 200 repository reply gives a record unless its languages divide by zero, when it raises; a 200 User or Organization reply gives a record, and any other type gives none; the record is normalized, is a Repo iff the name has a slash, and otherwise has the reply's type; its shared fields are the normalized avatar, description (`bio` for accounts), website (`blog` for accounts), name, URL and the date cut to 10; a repository keeps the normalized owner, stars, watchers and forks, the archived flag and `create_languages_stat`'s result, has a fork parent iff `fork` (the normalized parent URL), keeps the normalized licence name, which is None iff the license object is null or its name is null or `''`; an account keeps its normalized login, email, location, counts and, for a user, company |
| Text.ParseNatToString | ghfetch/main.py:52 | the decimal rendering used in the percentages reads back as the number, so it is injective |
| Text.NatToString | ghfetch/main.py:52 | `str(n)` for `n >= 0`: at least one decimal digit, with a leading zero only for 0 |
| Text.IntToString | ghfetch/main.py:177-180 | `str(i)`: starts with a minus sign exactly when `i` is negative |
| Text.IntToStringInjective | ghfetch/main.py:177-180 | two integers print the same only when they are equal |
| Records.Show | ghfetch/main.py:171-182 | the f-string `{value}` of a JSON value: `None`, the string itself, `str(i)` of an integer, `True`/`False`; `Text.IntToStringInjective` shows integers print apart |
| Glyphs.RgbToHex | ghfetch/main.py:104-105 | `#` and exactly six lower-case hexadecimal digits |
| Glyphs.ParseRgbToHex | ghfetch/main.py:104-105 | decoding the colour string gives the three channels back |
| Glyphs.RgbToHexInjective | ghfetch/main.py:104-105 | different colours never share a colour string |
| Glyphs.Hex2 | ghfetch/main.py:105 | `f'{x:02x}'`: the two digits of one channel; `Hex2ReadsBack` states them |
| Glyphs.Hex2ReadsBack | ghfetch/main.py:105 | a channel is written as exactly two lower-case hexadecimal digits that read back as its value |
| Glyphs.Glyph | ghfetch/main.py:137-140 | every glyph is exactly 20 characters, whether the pixel has 3 or 4 channels |
| Glyphs.GlyphColour | ghfetch/main.py:137-140 | a glyph is `[#rrggbb]█[/#rrggbb]` with the same colour twice, and its colour reads back as the pixel's first three channels, with the alpha dropped |
| Glyphs.RunGlyphAt | ghfetch/main.py:135-140 | in the accumulated line, characters `20j .. 20j+19` are the glyph of the `j`-th pixel of the run |
| Glyphs.Run | ghfetch/main.py:135-140 | the `line` accumulator after pixels `a .. b-1`: their glyphs in order, 20 characters each |
| Glyphs.RowOf | ghfetch/main.py:142-143 | the row appended for pixels `35k .. 35k+34`: their glyphs followed by a tab; `RowLayout` pins it character by character |
| Glyphs.RowLayout | ghfetch/main.py:140-143 | every row is 700 characters then a tab; glyph `j` of row `k` shows pixel `35k + j` (row-major order) |
| Glyphs.ImageToUnicode | ghfetch/main.py:132-148 | the loop emits `floor(n/35)` rows, dropping fewer than 35 leftover pixels, and row `k` is the glyphs of pixels `35k .. 35k+34` followed by a tab |
| Compositor.Dashes | ghfetch/main.py:170 | `'-' * n`: `n` characters, all dashes |
| Compositor.TagsEnclose | ghfetch/main.py:155-162 | `title`, `text` and `archived` each put the text, unchanged, between a 9-character opening tag of their colour and a 10-character closing tag |
| Compositor.Title | ghfetch/main.py:155-156 | `[#068FFF]text[/#068FFF]`; `TagsEnclose` states its shape |
| Compositor.TextTag | ghfetch/main.py:158-159 | `[#EEEEEE]text[/#EEEEEE]`; `TagsEnclose` states its shape |
| Compositor.ArchivedTag | ghfetch/main.py:161-162 | `[#F48024]text[/#F48024]`; `TagsEnclose` states its shape |
| Compositor.Labelled | ghfetch/main.py:171 | a field row `f'{title(caption)}: {text(value)}'` |
| Compositor.FullName | ghfetch/main.py:201 | `f'{owner}/{name}'` |
| Compositor.Join | ghfetch/main.py:219-222 | `', '.join(parts)`; `JoinSplit` proves how it splits |
| Compositor.LanguageItems | ghfetch/main.py:219 | one `f"{title(k)}: {text(v)}"` per language, in table order, as many as the table has entries |
| Compositor.UserTexts | ghfetch/main.py:168-182 | the fourteen texts of the user layout, in row order: username, underline of its length, then the twelve labelled fields |
| Compositor.OrganizationTexts | ghfetch/main.py:184-197 | the thirteen texts of the organization layout, in row order; the repository and gist counts have no space after the colon |
| Compositor.RepoHeaderRow | ghfetch/main.py:200-205 | row 1: optional archived tag and the title; row 2: the underline, 11 dashes longer when archived; row 3 for a fork: "Forked from" |
| Compositor.RepoFieldTexts | ghfetch/main.py:208-215 | the eight labelled fields of the repository layout, from the owner to the URL |
| Compositor.LanguageRow | ghfetch/main.py:216-222 | the caption row, then at most two languages per row; `LanguageBlock` states how they split |
| Compositor.RepoRow | ghfetch/main.py:199-222 | the repository layout's text for row `i`: header rows, then the fields and languages below the fork shift; `RepoRowBlocks` splits it |
| Compositor.RowText | ghfetch/main.py:168-222 | the text appended to row `i` for the record's kind; `LayoutWithinMinRows` bounds the rows it writes |
| Compositor.ShownDescription | ghfetch/main.py:172 | None or a description of at most 50 characters is unchanged; a longer one becomes its first 50 characters then `...`; the shown string never exceeds 53 characters |
| Compositor.AppendRows | ghfetch/main.py:168-182 | a run of `output[base+k] += rows[k]`: those rows grow by their texts and every other row is unchanged |
| Compositor.AppendRow | ghfetch/main.py:200-201 | `output[k] += text`: row `k` grows by `text` and every other row is unchanged |
| Compositor.WriteRepoHeader | ghfetch/main.py:200-206 | row 1 gets the optional archived tag then the title; row 2 gets the underline; for a fork, row 3 gets the parent and the shift `n` becomes 1; every other row is unchanged |
| Compositor.ComposeRepoHeader | ghfetch/main.py:199-206 | after the header writes, rows below `n+3` have their repository-layout text appended and the rest are unchanged; `n` is 1 exactly for a fork |
| Compositor.ComposeRepoFields | ghfetch/main.py:208-215 | the eight labelled fields go to rows `n+3 .. n+10`, and every other row is unchanged |
| Compositor.ComposeLanguages | ghfetch/main.py:216-222 | the caption and the language rows go to rows from `n+11` on, and every other row is unchanged |
| Compositor.ComposeUser | ghfetch/main.py:168-182 | the user layout appends its fourteen texts to rows 0 to 13 |
| Compositor.ComposeOrganization | ghfetch/main.py:184-197 | the organization layout appends its thirteen texts to rows 1 to 13, leaving row 0 |
| Compositor.ComposeRepo | ghfetch/main.py:199-222 | the repository layout appends every row's text: header, fields, then languages |
| Compositor.Compose | ghfetch/main.py:168-222 | each row of the canvas is its old text followed by the layout's text for that row, and only text is appended |
| Compositor.PrintOutput | ghfetch/main.py:150-222 | the output has one row per 35 pixels, and row `i` is the avatar's row `i` followed by the record's text for row `i` |
| Compositor.RepoRowBlocks | ghfetch/main.py:199-222 | each repository row falls in exactly one block: header below `n+3`, fields in `n+3 .. n+10`, languages from `n+11` |
| Compositor.JoinSplit | ghfetch/main.py:219-220 | splitting a `', '.join` after item `k` and joining the halves with `', '` gives the whole join |
| Compositor.LanguageBlock | ghfetch/main.py:216-222 | with more than two languages the two rows together hold the whole join; otherwise one row holds it and the next is empty; the caption is empty iff there are no languages |
| Compositor.ForkShiftsRows | ghfetch/main.py:204-215 | a fork needs one more row than the same repository without a parent; row 3 is "Forked from"; rows above it are the same, and every later row moves down by one |
| Compositor.ForkShiftsDetail | ghfetch/main.py:206-215 | below the fork row, row `i+1` of a fork is row `i` of the same repository without a parent |
| Compositor.LayoutWithinMinRows | ghfetch/main.py:164-222 | every row a layout writes lies below `MinRows` (14 for a user or organization; 13 for a repository, plus one for a fork and one for more than two languages); the last of them is written; every other row gets no text |
| AsciiArt.CharIndex | main.py:47 | `pixel // 25` always indexes the eleven entries of `ASCII_CHARS` |
| AsciiArt.CharIndexMonotone | main.py:47 | the character index never decreases as the grey level grows |
| AsciiArt.CharStrings | main.py:47 | `[ASCII_CHARS[pixel//25] for pixel in pixels]`: one entry per pixel |
| AsciiArt.Joined | main.py:47-48 | `''.join` of those characters; `JoinedOneCharPerPixel` states it |
| AsciiArt.Slices | main.py:53 | `[s[index:index + 75] for index in range(0, len(s), 75)]`: `RowCount(s)` rows; `SlicesConcat` and `SliceLengths` state them |
| AsciiArt.ImageToAscii | main.py:27-57 | `image_to_ascii` without its I/O: the slices of the joined string; `ImageToAsciiShape` states its shape |
| AsciiArt.AsciiCharsSingle | main.py:13 | every entry of `ASCII_CHARS` is one character |
| AsciiArt.JoinedOneCharPerPixel | main.py:47-48 | the joined string has one character per pixel, the one its grey level picks |
| AsciiArt.RowCount | main.py:53 | the row count is the ceiling of the length over 75 |
| AsciiArt.SlicesPrefix | main.py:53 | the first `j` rows joined are the first `75j` characters |
| AsciiArt.SlicesConcat | main.py:53 | joining the rows gives back the string exactly |
| AsciiArt.SliceLengths | main.py:41-53 | no rows iff the string is empty; every row but the last has 75 characters; the last has 1 to 75 |
| AsciiArt.ImageToAsciiShape | main.py:41-53 | the art has `ceil(n/75)` rows, full but for the last, and read row after row it is the joined string |

## Left out

- HTTP (`api_call`, the languages request, the avatar download), `asyncio.run`, file writes and `Path.unlink`, and `startup()` are I/O. The replies are inputs instead: `ApiResponse`, `LangResponse`, the pixel stream.
- PIL (`Image.open`, `resize`, `convert`, `getdata`) is a foreign library. The resized pixels are an input sequence.
- The height formulas `int(aspect_ratio * 35 * 0.45)` and `aspect_ratio * 75 * 0.5` use floating point and are not modelled.
- The final print loop, `rich`/`termcolor` colouring and `main()` (argv check and messages) are output only. The markup strings are built, but the model does not interpret them.
- LanguageStats.Tenths: percentages are integer tenths `floor(v*1000/T)`. Python computes `floor(v/T*1000)` in floating point, which can differ in rare rounding cases.
- Records.FetchMain: the JSON body is a flat record of the keys the code reads. A missing key (KeyError) and values other than null, strings, integers and booleans are not modelled. `created_at` is always a string here; a null one makes `None[:10]` raise TypeError at line 91, and the model does not cover that.
- Records.Show: Python's `str()` is modelled only for null, strings, integers and booleans.
- Compositor.PrintOutput: requires `Printable` and at least `MinRows` avatar rows. Where the source raises instead, the model does not cover it:
  - the source never pads the canvas, so a short avatar raises IndexError;
  - a None username raises TypeError;
  - a description that is neither None nor a string makes `len()` raise TypeError at lines 172, 188 and 209;
  - a languages status code, where a table is expected, raises AttributeError.
- Compositor.Compose: the user, organization and repository-field layouts are straight-line `+=` statements in the source. The model keeps their texts in tables (`UserTexts`, `OrganizationTexts`, `RepoFieldTexts`) and applies them with one `AppendRows` loop. The rows written and the texts appended are the same.
- Glyphs.ImageToUnicode: the height comes from the input length, not from the resize.
- Glyphs.ImageToUnicode: a pixel is a 3- or 4-tuple of channels. For "L" or "P" images `getdata()` yields plain integers, and for "LA" images 2-tuples. On those, line 137 of ghfetch/main.py raises, and the model does not cover that case.
