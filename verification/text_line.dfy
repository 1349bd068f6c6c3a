/** `Text_Line`: a row of `maxSize` unit squares, 1.5 apart, whose texture
    coordinates pick glyphs out of a 16 x 16 atlas of 32-pixel cells in a
    512-pixel texture. */
module TextLine {

  /** A texture coordinate. */
  datatype UV = UV(u: real, v: real)

  /** Pixels trimmed from the left and top of a cell. */
  const Skip: int := 3
  /** The side of a cell in pixels. */
  const Size: int := 32
  /** The side of the atlas in pixels. */
  const Dim: real := 512.0
  /** The code `set_string` shows past the end of the line: a space. */
  const Space: nat := 32

  /** The atlas row and column of character `code`. */
  function Row(code: nat): nat { code / 16 }
  function Column(code: nat): nat { code % 16 }

  /** The four corners of glyph `code`: lower left, lower right, upper left,
      upper right, with v counted from the bottom of the texture. The lower
      edge lies 5 pixels further down than the cell's own bottom edge. */
  function GlyphQuad(code: nat): (q: seq<UV>)
    ensures |q| == 4
  {
    var left := (Column(code) * Size + Skip) as real / Dim;
    var right := (Column(code) * Size + Size - Skip) as real / Dim;
    var top := (Row(code) * Size + Skip) as real / Dim;
    var bottom := (Row(code) * Size + Size - Skip + 5) as real / Dim;
    [UV(left, 1.0 - bottom), UV(right, 1.0 - bottom), UV(left, 1.0 - top), UV(right, 1.0 - top)]
  }

  /** The code shown at place `i`: the line's own character, or a space past
      its end. */
  function CodeAt(line: string, i: nat): nat
  {
    if i < |line| then line[i] as nat else Space
  }

  /** The texture coordinates of the first `n` places of `line`. */
  function TexCoords(line: string, n: nat): (uv: seq<UV>)
    ensures |uv| == 4 * n
  {
    if n == 0 then [] else TexCoords(line, n - 1) + GlyphQuad(CodeAt(line, n - 1))
  }

  // ---------------------------------------------------------------- properties

  /** Place `i` shows the glyph of `CodeAt(line, i)` in coordinates
      `4 * i` to `4 * i + 3`. */
  lemma {:induction false} TexCoordsAt(line: string, n: nat, i: nat)
    requires i < n
    ensures TexCoords(line, n)[4 * i..4 * i + 4] == GlyphQuad(CodeAt(line, i))
  {
    var prefix := TexCoords(line, n - 1);
    if i < n - 1 {
      TexCoordsAt(line, n - 1, i);
      assert TexCoords(line, n)[..4 * (n - 1)] == prefix;
      assert TexCoords(line, n)[4 * i..4 * i + 4] == prefix[4 * i..4 * i + 4];
    } else {
      assert TexCoords(line, n)[4 * i..] == GlyphQuad(CodeAt(line, i));
    }
  }

  /** Two lines with the same codes in the first `n` places get the same
      texture coordinates. */
  lemma {:induction false} SameCodes(a: string, b: string, n: nat)
    requires forall i :: 0 <= i < n ==> CodeAt(a, i) == CodeAt(b, i)
    ensures TexCoords(a, n) == TexCoords(b, n)
  {
    if n > 0 {
      SameCodes(a, b, n - 1);
    }
  }

  /** Characters past the first `n` are never shown. */
  lemma Truncates(line: string, n: nat)
    requires n <= |line|
    ensures TexCoords(line, n) == TexCoords(line[..n], n)
  {
    SameCodes(line, line[..n], n);
  }

  /** A short line shows as if padded with spaces. */
  lemma PadsWithSpaces(line: string, n: nat)
    requires |line| <= n
    ensures TexCoords(line, n) == TexCoords(line + seq(n - |line|, _ => ' '), n)
  {
    var padded := line + seq(n - |line|, _ => ' ');
    assert forall i :: 0 <= i < n ==> CodeAt(line, i) == CodeAt(padded, i) by {
      forall i | 0 <= i < n
        ensures CodeAt(line, i) == CodeAt(padded, i)
      {
        if i >= |line| {
          assert padded[i] == ' ';
        }
      }
    }
    SameCodes(line, padded, n);
  }

  /** Different codes show different glyphs. */
  lemma GlyphInjective(c1: nat, c2: nat)
    requires GlyphQuad(c1) == GlyphQuad(c2)
    ensures c1 == c2
  {
    var q1, q2 := GlyphQuad(c1), GlyphQuad(c2);
    assert q1[0].u == q2[0].u && q1[2].v == q2[2].v;
    assert Column(c1) == Column(c2);
    assert Row(c1) == Row(c2);
  }

  /** Rows 0 to 14 of the atlas lie inside the texture, and each glyph's
      upper left corner lies above and to the left of its lower right one. */
  lemma GlyphInTexture(code: nat)
    requires code < 240
    ensures forall k :: 0 <= k < 4 ==> 0.0 <= GlyphQuad(code)[k].u <= 1.0 && 0.0 <= GlyphQuad(code)[k].v <= 1.0
    ensures GlyphQuad(code)[0].u < GlyphQuad(code)[1].u && GlyphQuad(code)[0].v < GlyphQuad(code)[2].v
  {
    assert Row(code) <= 14;
  }

  /** The bottom edge of a glyph in row 15 lies 2 pixels below the texture. */
  lemma LastRowOverhang(code: nat)
    requires 240 <= code < 256
    ensures GlyphQuad(code)[0].v == -2.0 / Dim
  {
    assert Row(code) == 15;
  }

  /** The text shape: one square per place and the texture coordinates of
      the string last set. */
  class Line {
    const maxSize: nat
    /** The horizontal offset of each place's square. */
    const offsets: seq<real>
    var texCoords: seq<UV>

    constructor (maxSize: nat)
      ensures this.maxSize == maxSize
      ensures |offsets| == maxSize && forall i :: 0 <= i < maxSize ==> offsets[i] == 1.5 * i as real
      ensures texCoords == []
    {
      var placed: seq<real> := [];
      var x := 0.0;
      var i := 0;
      while i < maxSize
        invariant i <= maxSize && |placed| == i
        invariant x == 1.5 * i as real
        invariant forall k :: 0 <= k < i ==> placed[k] == 1.5 * k as real
      {
        placed := placed + [x];
        x := x + 1.5;
        i := i + 1;
      }
      this.maxSize := maxSize;
      offsets := placed;
      texCoords := [];
    }

    /** `set_string`: overwrite the texture coordinates with those of `line`. */
    method SetString(line: string)
      modifies this
      ensures texCoords == TexCoords(line, maxSize)
    {
      texCoords := [];
      var i := 0;
      while i < maxSize
        invariant i <= maxSize
        invariant texCoords == TexCoords(line, i)
      {
        var code := if i < |line| then line[i] as nat else Space;
        texCoords := texCoords + GlyphQuad(code);
        i := i + 1;
      }
    }
  }
}
