/** Counting "background-visible" pixels in the sampled window.

    The window's pixels arrive as an RGBA byte buffer (`ImageData.data`):
    four bytes per pixel, red, green, blue, alpha, so its length is always a
    multiple of four. A pixel counts when it is strongly green and weakly red
    and blue: the colour the canvas was filled with before the layers were
    drawn, visible only where neither layer covers it. */
module Pixels {

  import Geometry

  type Byte = x: int | 0 <= x < 256

  /** The colour test of the counting loop: G > 200, R < 100, B < 100. */
  predicate IsGreen(r: Byte, g: Byte, b: Byte)
    ensures IsGreen(r, g, b) ==> g > r + 100 && g > b + 100
  {
    g > 200 && r < 100 && b < 100
  }

  /** The canvas's fill colour `#00FF00` passes the test; fully transparent
      black (what a read outside the canvas gives), opaque black and white
      do not. */
  lemma FillColourCountsAsGap()
    ensures IsGreen(0, 255, 0)
    ensures !IsGreen(0, 0, 0) && !IsGreen(255, 255, 255)
  {
  }

  /** Pixel `p` of the buffer (bytes 4p .. 4p+3) passes the colour test. */
  predicate GreenAt(data: seq<Byte>, p: nat)
    requires 4 * p + 4 <= |data|
  {
    IsGreen(data[4 * p], data[4 * p + 1], data[4 * p + 2])
  }

  /** Number of green pixels, peeling the last pixel off the buffer. */
  function CountGreen(data: seq<Byte>): (n: nat)
    requires |data| % 4 == 0
    ensures n <= |data| / 4
    decreases |data|
  {
    if |data| == 0 then 0
    else
      var k := |data| - 4;
      CountGreen(data[..k]) + (if IsGreen(data[k], data[k + 1], data[k + 2]) then 1 else 0)
  }

  /** Reference definition: the indices of the green pixels. */
  function GreenPixels(data: seq<Byte>): set<nat>
    requires |data| % 4 == 0
  {
    set p: nat | p < |data| / 4 && GreenAt(data, p)
  }

  /** Removing the last pixel removes at most its own index from the set. */
  lemma GreenPixelsOfPrefix(data: seq<Byte>)
    requires |data| % 4 == 0 && |data| > 0
    ensures (|data| - 4) / 4 !in GreenPixels(data[..|data| - 4])
    ensures GreenPixels(data) ==
      GreenPixels(data[..|data| - 4]) + (if GreenAt(data, (|data| - 4) / 4) then {(|data| - 4) / 4} else {})
  {
    var prefix := data[..|data| - 4];
    var last := (|data| - 4) / 4;
    forall p: nat | p < last
      ensures GreenAt(data, p) == GreenAt(prefix, p)
    {
    }
  }

  /** The count is the number of pixels that pass the colour test. */
  lemma {:induction false} CountIsGreenPixels(data: seq<Byte>)
    requires |data| % 4 == 0
    ensures CountGreen(data) == |GreenPixels(data)|
    decreases |data|
  {
    if |data| > 0 {
      var k := |data| - 4;
      CountIsGreenPixels(data[..k]);
      GreenPixelsOfPrefix(data);
      assert 4 * (k / 4) == k;
    }
  }

  /** A buffer in which every pixel is green counts every pixel. */
  lemma {:induction false} AllGreenCountsAll(data: seq<Byte>)
    requires |data| % 4 == 0
    requires forall p: nat :: p < |data| / 4 ==> GreenAt(data, p)
    ensures CountGreen(data) == |data| / 4
    decreases |data|
  {
    if |data| > 0 {
      var k := |data| - 4;
      var prefix := data[..k];
      forall p: nat | p < |prefix| / 4
        ensures GreenAt(prefix, p)
      {
        assert GreenAt(data, p);
      }
      AllGreenCountsAll(prefix);
      assert GreenAt(data, k / 4);
    }
  }

  /** A buffer with no green pixel counts zero. */
  lemma {:induction false} NoGreenCountsZero(data: seq<Byte>)
    requires |data| % 4 == 0
    requires forall p: nat :: p < |data| / 4 ==> !GreenAt(data, p)
    ensures CountGreen(data) == 0
    decreases |data|
  {
    if |data| > 0 {
      var k := |data| - 4;
      var prefix := data[..k];
      forall p: nat | p < |prefix| / 4
        ensures !GreenAt(prefix, p)
      {
        assert !GreenAt(data, p);
      }
      NoGreenCountsZero(prefix);
      assert !GreenAt(data, k / 4);
    }
  }

  /** Bytes in one full scan window: `ScanSize * ScanSize` pixels of four bytes. */
  const WindowBytes: nat := 4 * Geometry.ScanSize * Geometry.ScanSize

  /** A 30 x 30 window that shows only background green counts exactly 900. */
  lemma FullGreenWindow(data: seq<Byte>)
    requires |data| == WindowBytes
    requires forall p: nat :: p < |data| / 4 ==> GreenAt(data, p)
    ensures CountGreen(data) == 900
  {
    AllGreenCountsAll(data);
  }

  /** The counting loop of the gap checker, stepping four bytes at a time. */
  method CountGreenPixels(data: seq<Byte>) returns (count: nat)
    requires |data| % 4 == 0
    ensures count == CountGreen(data)
    ensures count == |GreenPixels(data)|
    ensures count <= |data| / 4
  {
    count := 0;
    var i := 0;
    while i < |data|
      invariant 0 <= i <= |data| && i % 4 == 0
      invariant count == CountGreen(data[..i])
    {
      assert data[..i + 4][..i] == data[..i];
      if data[i + 1] > 200 && data[i] < 100 && data[i + 2] < 100 {
        count := count + 1;
      }
      i := i + 4;
    }
    assert data[..i] == data;
    CountIsGreenPixels(data);
  }
}
