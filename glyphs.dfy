/**
 * The avatar renderer of ghfetch/main.py: `rgb_to_hex` and the loop of
 * `image_to_unicode` that turns the resized pixel stream into rows of
 * colour-tagged block glyphs. Downloading, decoding and resizing the
 * image are outside the model; the pixel stream is the input.
 */
module Glyphs {
  import opened Wrappers

  /** One colour channel as PIL reports it. */
  type Byte = x: int | 0 <= x < 256

  /** A pixel from `getdata()`: RGB, or RGBA whose alpha is ignored. */
  type Pixel = p: seq<Byte> | |p| == 3 || |p| == 4 witness [0, 0, 0]

  const IMAGE_WIDTH := 35
  /** Characters of one glyph `[#rrggbb]█[/#rrggbb]`. */
  const COLORED_CHAR_LENGTH := 20
  const UNICODE_BLOCK_CHAR := '█'

  predicate IsHexDigit(c: char) {
    '0' <= c <= '9' || 'a' <= c <= 'f'
  }

  /** The lower-case hexadecimal digit of `d`, as `:x` prints it. */
  function HexDigit(d: nat): (c: char)
    requires d < 16
    ensures IsHexDigit(c)
  {
    if d < 10 then (48 + d) as char else (87 + d) as char
  }

  function HexValue(c: char): (d: nat)
    requires IsHexDigit(c)
    ensures d < 16
  {
    if c <= '9' then (c as int) - 48 else (c as int) - 87
  }

  /** `f'{x:02x}'` for a channel value: always exactly two digits. */
  function Hex2(x: Byte): string {
    [HexDigit(x / 16), HexDigit(x % 16)]
  }

  /** `rgb_to_hex` (ghfetch/main.py:104-105). */
  function RgbToHex(r: Byte, g: Byte, b: Byte): (h: string)
    ensures |h| == 7 && h[0] == '#'
    ensures forall i :: 1 <= i < 7 ==> IsHexDigit(h[i])
  {
    "#" + Hex2(r) + Hex2(g) + Hex2(b)
  }

  /** Reads `#rrggbb` back into its three channels. */
  function ParseHex(h: string): Option<(Byte, Byte, Byte)> {
    if |h| == 7 && h[0] == '#' && forall i :: 1 <= i < 7 ==> IsHexDigit(h[i]) then
      Some((HexValue(h[1]) * 16 + HexValue(h[2]),
            HexValue(h[3]) * 16 + HexValue(h[4]),
            HexValue(h[5]) * 16 + HexValue(h[6])))
    else None
  }

  lemma HexDigitValue(d: nat)
    requires d < 16
    ensures HexValue(HexDigit(d)) == d
  {
  }

  /** `:02x` writes two hexadecimal digits that read back as the channel value. */
  lemma Hex2ReadsBack(x: Byte)
    ensures var s := Hex2(x);
            |s| == 2 && IsHexDigit(s[0]) && IsHexDigit(s[1]) && HexValue(s[0]) * 16 + HexValue(s[1]) == x
  {
    HexDigitValue(x / 16);
    HexDigitValue(x % 16);
  }

  /** Decoding the colour string gives the channels back. */
  lemma ParseRgbToHex(r: Byte, g: Byte, b: Byte)
    ensures ParseHex(RgbToHex(r, g, b)) == Some((r, g, b))
  {
    var h := RgbToHex(r, g, b);
    HexDigitValue(r / 16); HexDigitValue(r % 16);
    HexDigitValue(g / 16); HexDigitValue(g % 16);
    HexDigitValue(b / 16); HexDigitValue(b % 16);
    assert h[1..3] == Hex2(r) && h[3..5] == Hex2(g) && h[5..7] == Hex2(b);
  }

  /** Different colours never share a colour string. */
  lemma RgbToHexInjective(r: Byte, g: Byte, b: Byte, r': Byte, g': Byte, b': Byte)
    requires RgbToHex(r, g, b) == RgbToHex(r', g', b')
    ensures r == r' && g == g' && b == b'
  {
    ParseRgbToHex(r, g, b);
    ParseRgbToHex(r', g', b');
  }

  /** The markup `[#rrggbb]█[/#rrggbb]` for one pixel, alpha dropped (ghfetch/main.py:137-140). */
  function Glyph(p: Pixel): (s: string)
    ensures |s| == COLORED_CHAR_LENGTH
  {
    var hex := RgbToHex(p[0], p[1], p[2]);
    "[" + hex + "]" + [UNICODE_BLOCK_CHAR] + "[/" + hex + "]"
  }

  /** A glyph is a block character tagged with the pixel's colour, which can be read back. */
  lemma GlyphColour(p: Pixel)
    ensures var s := Glyph(p);
            ParseHex(s[1..8]) == Some((p[0], p[1], p[2])) && s[9] == UNICODE_BLOCK_CHAR &&
            s[..2] == "[#" && s[8..11] == "]" + [UNICODE_BLOCK_CHAR] + "[" && s[11..] == "/" + s[1..8] + "]"
  {
    var s := Glyph(p);
    var hex := RgbToHex(p[0], p[1], p[2]);
    assert s[1..8] == hex;
    ParseRgbToHex(p[0], p[1], p[2]);
  }

  /** The glyphs of pixels `a .. b - 1`, concatenated in order. */
  function Run(pixels: seq<Pixel>, a: nat, b: nat): (s: string)
    requires a <= b <= |pixels|
    ensures |s| == 20 * (b - a)
    decreases b - a
  {
    if a == b then "" else Run(pixels, a, b - 1) + Glyph(pixels[b - 1])
  }

  /** Row `k` of the canvas: the glyphs of pixels `35k .. 35k + 34` and a tab. */
  function RowOf(pixels: seq<Pixel>, k: nat): string
    requires 35 * (k + 1) <= |pixels|
  {
    Run(pixels, 35 * k, 35 * k + 35) + "\t"
  }

  /** Glyph `j` of a run is the glyph of pixel `a + j`, at characters `20j .. 20j + 19`. */
  lemma {:induction false} RunGlyphAt(pixels: seq<Pixel>, a: nat, b: nat, j: nat)
    requires a <= b <= |pixels| && a + j < b
    ensures Run(pixels, a, b)[20 * j .. 20 * j + 20] == Glyph(pixels[a + j])
    decreases b - a
  {
    var prefix := Run(pixels, a, b - 1);
    assert Run(pixels, a, b) == prefix + Glyph(pixels[b - 1]);
    if a + j == b - 1 {
      assert (prefix + Glyph(pixels[b - 1]))[20 * j .. 20 * j + 20] == Glyph(pixels[b - 1]);
    } else {
      RunGlyphAt(pixels, a, b - 1, j);
      assert (prefix + Glyph(pixels[b - 1]))[20 * j .. 20 * j + 20] == prefix[20 * j .. 20 * j + 20];
    }
  }

  /** Every row is 35 glyphs of 20 characters and a tab; glyph `j` of row `k` shows pixel `35k + j`. */
  lemma RowLayout(pixels: seq<Pixel>, k: nat, j: nat)
    requires 35 * (k + 1) <= |pixels| && j < IMAGE_WIDTH
    ensures |RowOf(pixels, k)| == COLORED_CHAR_LENGTH * IMAGE_WIDTH + 1
    ensures RowOf(pixels, k)[COLORED_CHAR_LENGTH * IMAGE_WIDTH] == '\t'
    ensures RowOf(pixels, k)[20 * j .. 20 * j + 20] == Glyph(pixels[35 * k + j])
  {
    RunGlyphAt(pixels, 35 * k, 35 * k + 35, j);
    var run := Run(pixels, 35 * k, 35 * k + 35);
    assert (run + "\t")[20 * j .. 20 * j + 20] == run[20 * j .. 20 * j + 20];
  }

  /**
   * The row loop of `image_to_unicode` (ghfetch/main.py:132-148): one
   * row per 35 pixels, in row-major order; a trailing partial row is
   * dropped.
   */
  method ImageToUnicode(pixels: seq<Pixel>) returns (rows: seq<string>)
    ensures |rows| == |pixels| / IMAGE_WIDTH
    ensures forall k :: 0 <= k < |rows| ==> rows[k] == RowOf(pixels, k)
  {
    var line := "";
    rows := [];
    ghost var column := 0;
    for i := 0 to |pixels|
      invariant 0 <= column < IMAGE_WIDTH && i == 35 * |rows| + column
      invariant forall k :: 0 <= k < |rows| ==> rows[k] == RowOf(pixels, k)
      invariant line == Run(pixels, 35 * |rows|, i)
    {
      line := line + Glyph(pixels[i]);
      if |line| == COLORED_CHAR_LENGTH * IMAGE_WIDTH {
        assert column == IMAGE_WIDTH - 1;
        rows := rows + [line + "\t"];
        line := "";
        column := 0;
      } else {
        column := column + 1;
      }
    }
    DivideRows(|pixels|, |rows|, column);
  }

  lemma DivideRows(n: nat, q: nat, r: nat)
    requires r < IMAGE_WIDTH && n == 35 * q + r
    ensures n / IMAGE_WIDTH == q
  {
  }
}
