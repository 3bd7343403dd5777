/**
 * The earlier ASCII prototype `image_to_ascii` (main.py:27-57): each grey
 * level of the resized avatar picks a character of `ASCII_CHARS`, the
 * characters are joined into one string, and the string is cut into
 * rows of 75. Downloading and resizing the image are outside the model;
 * the grey levels are the input.
 */
module AsciiArt {
  /** A grey level as PIL's "L" mode reports it. */
  type Grey = x: int | 0 <= x < 256

  /** main.py:13, in the order `pixel // 25` indexes them. */
  const ASCII_CHARS: seq<string> := ["B", "S", "#", "&", "@", "$", "%", "*", "!", ":", "."]
  /** Characters per row of the ASCII art (main.py:41). */
  const NEW_WIDTH := 75

  /** `pixel // 25`: the position of the character for a grey level. */
  function CharIndex(p: Grey): (i: nat)
    ensures i < |ASCII_CHARS|
  {
    p / 25
  }

  /** The character index never decreases as the grey level grows. */
  lemma CharIndexMonotone(p: Grey, q: Grey)
    requires p <= q
    ensures CharIndex(p) <= CharIndex(q)
  {
    var a, b := p / 25, q / 25;
    assert p == 25 * a + p % 25 && q == 25 * b + q % 25;
  }

  /** The list comprehension `[ASCII_CHARS[pixel//25] for pixel in pixels]` (main.py:47). */
  function CharStrings(pixels: seq<Grey>): (cs: seq<string>)
    ensures |cs| == |pixels|
  {
    seq(|pixels|, i requires 0 <= i < |pixels| => ASCII_CHARS[CharIndex(pixels[i])])
  }

  /** `''.join(parts)`. */
  function Concat(parts: seq<string>): string {
    if parts == [] then "" else Concat(parts[..|parts| - 1]) + parts[|parts| - 1]
  }

  /** The joined character string (main.py:47-48). */
  function Joined(pixels: seq<Grey>): string {
    Concat(CharStrings(pixels))
  }

  /** Every entry of `ASCII_CHARS` is one character. */
  lemma AsciiCharsSingle(i: nat)
    requires i < |ASCII_CHARS|
    ensures |ASCII_CHARS[i]| == 1
  {
  }

  /** The joined string has one character per pixel: the one its grey level picks. */
  lemma {:induction false} JoinedOneCharPerPixel(pixels: seq<Grey>)
    ensures |Joined(pixels)| == |pixels|
    ensures forall i :: 0 <= i < |pixels| ==> Joined(pixels)[i] == ASCII_CHARS[CharIndex(pixels[i])][0]
  {
    if pixels != [] {
      var init := pixels[..|pixels| - 1];
      JoinedOneCharPerPixel(init);
      var cs := CharStrings(pixels);
      assert cs[..|cs| - 1] == CharStrings(init);
      AsciiCharsSingle(CharIndex(pixels[|pixels| - 1]));
      assert Joined(pixels) == Joined(init) + cs[|cs| - 1];
    }
  }

  function Min(a: int, b: int): int {
    if a <= b then a else b
  }

  /** Number of rows: the ceiling of `|s| / 75`. */
  function RowCount(s: string): (m: nat)
    ensures 75 * (m - 1) < |s| <= 75 * m
  {
    (|s| + 74) / 75
  }

  /**
   * `[s[index:index + 75] for index in range(0, len(s), 75)]` (main.py:53):
   * Python's slice stops at the end of the string, so the last row may be short.
   */
  function Slices(s: string): (rows: seq<string>)
    ensures |rows| == RowCount(s)
  {
    seq(RowCount(s), k requires 0 <= k < RowCount(s) => s[75 * k .. Min(75 * k + 75, |s|)])
  }

  /** `image_to_ascii` without its I/O: the rows of ASCII art for the grey levels. */
  function ImageToAscii(pixels: seq<Grey>): seq<string> {
    Slices(Joined(pixels))
  }

  /** The first `j` rows joined are the first `75 j` characters. */
  lemma {:induction false} SlicesPrefix(s: string, j: nat)
    requires j <= RowCount(s)
    ensures Concat(Slices(s)[..j]) == s[..Min(75 * j, |s|)]
  {
    if j > 0 {
      var rows := Slices(s);
      SlicesPrefix(s, j - 1);
      assert rows[..j][..j - 1] == rows[..j - 1];
      assert Concat(rows[..j]) == Concat(rows[..j - 1]) + rows[j - 1];
      assert s[..75 * (j - 1)] + s[75 * (j - 1) .. Min(75 * j, |s|)] == s[..Min(75 * j, |s|)];
    }
  }

  /** Joining the rows gives back the string exactly. */
  lemma SlicesConcat(s: string)
    ensures Concat(Slices(s)) == s
  {
    var rows := Slices(s);
    SlicesPrefix(s, |rows|);
    assert rows[..|rows|] == rows;
  }

  /**
   * Every row but the last has 75 characters, the last has between 1
   * and 75, and there are no rows for an empty string.
   */
  lemma SliceLengths(s: string)
    ensures var rows := Slices(s);
            && (|rows| == 0 <==> |s| == 0)
            && (forall k :: 0 <= k < |rows| - 1 ==> |rows[k]| == NEW_WIDTH)
            && (|rows| > 0 ==> 1 <= |rows[|rows| - 1]| <= NEW_WIDTH)
  {
  }

  /**
   * The ASCII art has `ceil(|pixels| / 75)` rows, full but for the last,
   * and read row after row it is the joined character string.
   */
  lemma ImageToAsciiShape(pixels: seq<Grey>)
    ensures var rows := ImageToAscii(pixels);
            && |rows| == (|pixels| + 74) / 75
            && Concat(rows) == Joined(pixels)
            && (forall k :: 0 <= k < |rows| - 1 ==> |rows[k]| == NEW_WIDTH)
  {
    JoinedOneCharPerPixel(pixels);
    SlicesConcat(Joined(pixels));
    SliceLengths(Joined(pixels));
  }
}
