/**
 * The two integer colourisers: `colorizer` maps an escape count to the colour of
 * a pixel of the main image, `colorizePixelDiff` maps a difference of counts to
 * a colour of a difference image. A colour channel is an unsigned char, so a
 * value assigned to it is kept modulo 256.
 */
module Palette {

  /** raylib's Color: four unsigned-char channels. */
  datatype Color = Color(r: int, g: int, b: int, a: int)

  /** raylib's BLACK: (0, 0, 0, 255). */
  const Black: Color := Color(0, 0, 0, 255)

  /** Assignment of an int to an unsigned char keeps it modulo 256. */
  function UChar(x: int): (r: int)
    ensures 0 <= r < 256
    ensures x % 256 == r
  {
    x % 256
  }

  /** colorizer: black for a count of 0 (never escaped) or less; otherwise the red
      channel cycles every 16 counts, green every 512 and blue every 8192. */
  function Colorizer(iter: int): (c: Color)
    ensures c.a == 255 && 0 <= c.r < 256 && 0 <= c.g < 256 && 0 <= c.b < 256
  {
    if iter <= 0 then Black
    else Color(UChar(64 + 12 * (iter % 16)), UChar(8 * ((iter / 16) % 32)), UChar(16 * ((iter / 512) % 32)), 255)
  }

  /** Every colour is opaque and a positive count never gets the black of "inside the set". */
  lemma ColorizerOpaque(iter: int)
    ensures Colorizer(iter).a == 255
    ensures iter <= 0 <==> Colorizer(iter) == Black
    ensures iter > 0 ==> 64 <= Colorizer(iter).r <= 244 && (Colorizer(iter).r - 64) % 12 == 0
  {
    if iter > 0 {
      var m := iter % 16;
      DivModOf(64 + 12 * m, 256, 0, 64 + 12 * m);
      DivModOf(12 * m, 12, m, 0);
    }
  }

  /** The position of a count in the palette: iter modulo 8192, read back from its colour. */
  function PaletteIndex(c: Color): int
  {
    (c.r - 64) / 12 + 16 * (c.g / 8) + 512 * (c.b / 16)
  }

  /** The channels encode iter % 16, (iter / 16) % 32 and (iter / 512) % 16: reading them
      back gives the count modulo 8192. */
  lemma PaletteIndexOfColorizer(iter: int)
    requires iter > 0
    ensures PaletteIndex(Colorizer(iter)) == iter % 8192
  {
    ColorizerOfIndex(iter);
    var k := iter % 8192;
    var q, a := k / 16, k % 16;
    DivModOf(k, 512, q / 32, 16 * (q % 32) + a);
    DivModOf(12 * a, 12, a, 0);
    DivModOf(8 * (q % 32), 8, q % 32, 0);
    DivModOf(16 * (k / 512), 16, k / 512, 0);
  }

  lemma {:induction false} MulAtLeast(d: int, n: int)
    requires d > 0 && n >= 1
    ensures d * n >= d
  {
    if n > 1 {
      MulAtLeast(d, n - 1);
      assert d * n == d * (n - 1) + d;
    }
  }

  /** Quotient and remainder are determined by x == d * q + r with 0 <= r < d. */
  lemma DivModOf(x: int, d: int, q: int, r: int)
    requires 0 < d && 0 <= r < d && x == d * q + r
    ensures x / d == q && x % d == r
  {
    var q', r' := x / d, x % d;
    assert x == d * q' + r';
    assert d * (q - q') == r' - r;
    if q > q' {
      MulAtLeast(d, q - q');
    } else if q < q' {
      MulAtLeast(d, q' - q);
    }
  }

  /** Red channel digit: iter mod 16 is read from iter mod 8192. */
  lemma RedDigit(iter: int)
    ensures iter % 16 == (iter % 8192) % 16
  {
    var k, q := iter % 8192, iter / 8192;
    DivModOf(iter, 16, 512 * q + k / 16, k % 16);
  }

  /** Green channel digit: (iter / 16) mod 32 is read from iter mod 8192. */
  lemma GreenDigit(iter: int)
    ensures (iter / 16) % 32 == ((iter % 8192) / 16) % 32
  {
    var k, q := iter % 8192, iter / 8192;
    DivModOf(iter, 16, 512 * q + k / 16, k % 16);
    DivModOf(512 * q + k / 16, 32, 16 * q + k / 16 / 32, (k / 16) % 32);
  }

  /** Blue channel: the unsigned-char truncation drops the fifth bit of (iter / 512) mod 32,
      leaving (iter mod 8192) / 512. */
  lemma BlueDigit(iter: int)
    ensures UChar(16 * ((iter / 512) % 32)) == 16 * ((iter % 8192) / 512)
  {
    var k, q := iter % 8192, iter / 8192;
    var h := k / 512;
    DivModOf(iter, 512, 16 * q + h, k % 512);
    DivModOf(16 * q + h, 32, q / 2, 16 * (q % 2) + h);
    DivModOf(16 * (16 * (q % 2) + h), 256, q % 2, 16 * h);
  }

  /** The colour of a positive count is a function of the count modulo 8192. */
  lemma ColorizerOfIndex(iter: int)
    requires iter > 0
    ensures var k := iter % 8192;
            Colorizer(iter) == Color(64 + 12 * (k % 16), 8 * ((k / 16) % 32), 16 * (k / 512), 255)
  {
    RedDigit(iter);
    GreenDigit(iter);
    BlueDigit(iter);
  }

  /** Two positive counts share a colour exactly when they agree modulo 8192. */
  lemma ColorizerPeriod(i: int, j: int)
    requires i > 0 && j > 0
    ensures Colorizer(i) == Colorizer(j) <==> i % 8192 == j % 8192
  {
    PaletteIndexOfColorizer(i);
    PaletteIndexOfColorizer(j);
    ColorizerOfIndex(i);
    ColorizerOfIndex(j);
  }

  /** colorizePixelDiff: black for no difference, a green shade when the second image
      has the larger count, a red shade when it has the smaller one. The shade is
      128 + 31 * (|i| mod 4). */
  function PixelDiffColor(i: int): (c: Color)
    ensures c.a == 255 && c.b == 0 && (c.r == 0 || c.g == 0)
  {
    if i > 0 then Black.(g := UChar(128 + 31 * (i % 4)))
    else if i < 0 then Black.(r := UChar(128 + 31 * ((-i) % 4)))
    else Black
  }

  /** The sign of a difference decides the channel: green for positive, red for
      negative, black for zero; the shade is one of 128, 159, 190, 221. */
  lemma PixelDiffSign(i: int)
    ensures PixelDiffColor(i).b == 0 && PixelDiffColor(i).a == 255
    ensures i == 0 <==> PixelDiffColor(i) == Black
    ensures i > 0 ==> PixelDiffColor(i).r == 0 && PixelDiffColor(i).g in {128, 159, 190, 221}
    ensures i < 0 ==> PixelDiffColor(i).g == 0 && PixelDiffColor(i).r in {128, 159, 190, 221}
  {
  }

  /** Swapping the two images (negating every difference) swaps red and green. */
  lemma PixelDiffAntisymmetric(i: int)
    ensures PixelDiffColor(-i).r == PixelDiffColor(i).g
    ensures PixelDiffColor(-i).g == PixelDiffColor(i).r
  {
  }

  /** The shade depends only on |i| mod 4: differences 4 apart look the same. */
  lemma PixelDiffPeriod(i: int)
    requires i > 0
    ensures PixelDiffColor(i + 4) == PixelDiffColor(i)
    ensures PixelDiffColor(-i - 4) == PixelDiffColor(-i)
  {
  }
}
