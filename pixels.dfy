/**
 * Conversion of RGBA 8888 pixels read back from the frame buffer into colours
 * (DrawContext.java: readPixelColor, readPixelColors). Pixel bytes are Java's signed
 * bytes; each component is masked to its unsigned value and divided by 255.
 */
module PixelReadback {
  import opened Gles

  /** A value of Java's signed byte type. */
  predicate IsJavaByte(b: int)
  {
    -128 <= b < 128
  }

  /** A buffer of signed bytes holding at least pixelCount tightly packed RGBA pixels. */
  predicate HoldsPixels(bytes: seq<int>, pixelCount: int)
  {
    4 * pixelCount <= |bytes| && forall i :: 0 <= i < |bytes| ==> IsJavaByte(bytes[i])
  }

  /** The unsigned value of a signed byte, as the mask 0xFF computes it. */
  function UnsignedByte(b: int): (r: int)
    requires IsJavaByte(b)
    ensures 0 <= r < 256
    ensures b >= 0 ==> r == b
    ensures b < 0 ==> r == b + 256
  {
    if b < 0 then b + 256 else b
  }

  /** One colour component: the unsigned byte scaled into [0, 1]. */
  function Component(b: int): (r: real)
    requires IsJavaByte(b)
    ensures 0.0 <= r <= 1.0
  {
    UnsignedByte(b) as real / 255.0
  }

  /** The colour of the pixel at byte offset 4*i. */
  function PixelColor(bytes: seq<int>, i: int): Color
    requires 0 <= i && HoldsPixels(bytes, i + 1)
  {
    Color(Component(bytes[4 * i]), Component(bytes[4 * i + 1]),
          Component(bytes[4 * i + 2]), Component(bytes[4 * i + 3]))
  }

  /** The colours of the first pixelCount pixels, without repetition. */
  ghost function DistinctColors(bytes: seq<int>, pixelCount: int): set<Color>
    requires HoldsPixels(bytes, pixelCount)
  {
    set i | 0 <= i < pixelCount :: PixelColor(bytes, i)
  }

  /** Two bytes scale to the same component exactly when they are the same byte. */
  lemma ComponentInjective(a: int, b: int)
    requires IsJavaByte(a) && IsJavaByte(b)
    ensures Component(a) == Component(b) <==> a == b
  {
    if Component(a) == Component(b) {
      assert UnsignedByte(a) as real == Component(a) * 255.0;
      assert UnsignedByte(b) as real == Component(b) * 255.0;
    }
  }

  /** Two pixels give equal colours exactly when their four bytes are equal. */
  lemma SameColorIffSameBytes(bytes: seq<int>, i: int, j: int)
    requires 0 <= i && 0 <= j && HoldsPixels(bytes, i + 1) && HoldsPixels(bytes, j + 1)
    ensures PixelColor(bytes, i) == PixelColor(bytes, j) <==> bytes[4 * i..4 * i + 4] == bytes[4 * j..4 * j + 4]
  {
    ComponentInjective(bytes[4 * i], bytes[4 * j]);
    ComponentInjective(bytes[4 * i + 1], bytes[4 * j + 1]);
    ComponentInjective(bytes[4 * i + 2], bytes[4 * j + 2]);
    ComponentInjective(bytes[4 * i + 3], bytes[4 * j + 3]);
    if bytes[4 * i..4 * i + 4] == bytes[4 * j..4 * j + 4] {
      assert bytes[4 * i..4 * i + 4][1] == bytes[4 * j..4 * j + 4][1];
      assert bytes[4 * i..4 * i + 4][2] == bytes[4 * j..4 * j + 4][2];
      assert bytes[4 * i..4 * i + 4][3] == bytes[4 * j..4 * j + 4][3];
    }
  }

  /** A buffer that holds n pixels holds every shorter prefix of them. */
  lemma HoldsFewerPixels(bytes: seq<int>, n: int, m: int)
    requires HoldsPixels(bytes, n) && m <= n
    ensures HoldsPixels(bytes, m)
  {
  }

  /**
   * The accumulation loop of readPixelColors: every pixel's colour is added to a set,
   * so the result holds each colour that occurs once, and no other.
   */
  method CollectColors(bytes: seq<int>, pixelCount: int) returns (colors: set<Color>)
    requires HoldsPixels(bytes, pixelCount)
    ensures pixelCount >= 0 ==> colors == DistinctColors(bytes, pixelCount)
    ensures pixelCount < 0 ==> colors == {}
    ensures forall c :: c in colors <==> exists i :: 0 <= i < pixelCount && PixelColor(bytes, i) == c
  {
    colors := {};
    var idx := 0;
    while idx < pixelCount
      invariant 0 <= idx && (idx == 0 || idx <= pixelCount)
      invariant colors == set i | 0 <= i < idx :: PixelColor(bytes, i)
    {
      var result := PixelColor(bytes, idx);
      colors := colors + {result};
      idx := idx + 1;
    }
  }

  /** The set never has more colours than there are pixels, and every component lies in [0, 1]. */
  lemma {:induction false} DistinctColorsBounded(bytes: seq<int>, pixelCount: nat)
    requires HoldsPixels(bytes, pixelCount)
    ensures |DistinctColors(bytes, pixelCount)| <= pixelCount
    ensures forall c :: c in DistinctColors(bytes, pixelCount) ==>
      0.0 <= c.red <= 1.0 && 0.0 <= c.green <= 1.0 && 0.0 <= c.blue <= 1.0 && 0.0 <= c.alpha <= 1.0
    decreases pixelCount
  {
    if pixelCount > 0 {
      HoldsFewerPixels(bytes, pixelCount, pixelCount - 1);
      DistinctColorsBounded(bytes, pixelCount - 1);
      assert DistinctColors(bytes, pixelCount) ==
        DistinctColors(bytes, pixelCount - 1) + {PixelColor(bytes, pixelCount - 1)};
    }
  }

  /** A frame of one colour reads back as exactly that colour. */
  lemma UniformFrame(bytes: seq<int>, pixelCount: int)
    requires pixelCount >= 1 && HoldsPixels(bytes, pixelCount)
    requires forall i :: 0 <= i < pixelCount ==> bytes[4 * i..4 * i + 4] == bytes[0..4]
    ensures DistinctColors(bytes, pixelCount) == {PixelColor(bytes, 0)}
  {
    forall i | 0 <= i < pixelCount
      ensures PixelColor(bytes, i) == PixelColor(bytes, 0)
    {
      SameColorIffSameBytes(bytes, i, 0);
    }
  }
}
