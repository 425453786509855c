/**
  How the Kinect cameras resample a 640x480 sensor frame to the configured size
  (kinect/KinectCamera.cpp, kinect/KinectDepthCamera.cpp): nearest neighbour by integer division, into a
  row-major buffer that a column-major double loop fills.
*/
module KinectSampling {
  import opened Basics

  const SENSOR_WIDTH: nat := 640
  const SENSOR_HEIGHT: nat := 480
  const INT_MAX := 0x7fff_ffff

  // ---------------------------------------------------------------- one axis

  /** The sensor coordinate (of n) that coordinate x (of w) is taken from. */
  function Scale(x: nat, w: nat, n: nat): nat
    requires w > 0
  {
    (x * n) / w
  }

  lemma ScaleMeaning(x: nat, w: nat, n: nat)
    requires w > 0
    ensures Scale(x, w, n) * w <= x * n < Scale(x, w, n) * w + w
  {
    DivMeaning(x * n, w);
  }

  lemma ScaleIs(x: nat, w: nat, n: nat, q: nat)
    requires w > 0 && q * w <= x * n < q * w + w
    ensures Scale(x, w, n) == q
  {
    ScaleMeaning(x, w, n);
    MulLe(Scale(x, w, n) + 1, q, w);
    MulLe(q + 1, Scale(x, w, n), w);
  }

  lemma ScaleBound(x: nat, w: nat, n: nat)
    requires x < w && n > 0
    ensures Scale(x, w, n) < n
  {
    ScaleMeaning(x, w, n);
    MulLe(x + 1, w, n);
    MulLe(n, Scale(x, w, n), w);
    assert w * n == n * w;
  }

  lemma ScaleMonotone(x: nat, y: nat, w: nat, n: nat)
    requires w > 0 && x <= y
    ensures Scale(x, w, n) <= Scale(y, w, n)
  {
    ScaleMeaning(x, w, n);
    ScaleMeaning(y, w, n);
    MulLe(x, y, n);
    MulLe(Scale(y, w, n) + 1, Scale(x, w, n), w);
  }

  lemma ScaleStep(x: nat, w: nat, n: nat)
    requires 0 < w <= n
    ensures Scale(x, w, n) < Scale(x + 1, w, n)
  {
    ScaleMeaning(x, w, n);
    ScaleMeaning(x + 1, w, n);
    assert (x + 1) * n == x * n + n;
    MulLe(Scale(x + 1, w, n), Scale(x, w, n), w);
  }

  lemma ScaleIdentity(x: nat, n: nat)
    requires n > 0
    ensures Scale(x, n, n) == x
  {
    ScaleIs(x, n, n, x);
  }

  ghost predicate Injective(w: nat, n: nat) {
    forall x, y :: 0 <= x < y < w ==> Scale(x, w, n) != Scale(y, w, n)
  }

  ghost predicate Hit(t: nat, w: nat, n: nat) {
    exists x: nat :: x < w && Scale(x, w, n) == t
  }

  ghost predicate Onto(w: nat, n: nat) {
    forall t: nat :: t < n ==> Hit(t, w, n)
  }

  lemma {:induction false} InjectiveGrows(x: nat, w: nat, n: nat)
    requires x < w && Injective(w, n)
    ensures Scale(x, w, n) >= x
  {
    if x > 0 {
      InjectiveGrows(x - 1, w, n);
      ScaleMonotone(x - 1, x, w, n);
    }
  }

  /** No two coordinates share a sensor coordinate exactly when the image is not wider than the sensor. */
  lemma InjectiveIff(w: nat, n: nat)
    requires w > 0 && n > 0
    ensures Injective(w, n) <==> w <= n
  {
    if w <= n {
      forall x, y | 0 <= x < y < w
        ensures Scale(x, w, n) != Scale(y, w, n)
      {
        ScaleStep(x, w, n);
        ScaleMonotone(x + 1, y, w, n);
      }
    } else if Injective(w, n) {
      InjectiveGrows(w - 1, w, n);
      ScaleBound(w - 1, w, n);
    }
  }

  /** Every sensor coordinate is used exactly when the image is not narrower than the sensor. */
  lemma OntoIff(w: nat, n: nat)
    requires w > 0 && n > 0
    ensures Onto(w, n) <==> w >= n
  {
    if w >= n {
      forall t: nat | t < n
        ensures Hit(t, w, n)
      {
        var x := Preimage(t, w, n);
      }
    } else {
      forall x: nat | x < w
        ensures Scale(x, w, n) != n - 1
      {
        ScaleMeaning(x, w, n);
        MulLe(x, w - 1, n);
        assert (w - 1) * n == w * n - n && (n - 1) * w == w * n - w;
      }
      assert !Hit(n - 1, w, n);
    }
  }

  lemma Preimage(t: nat, w: nat, n: nat) returns (x: nat)
    requires t < n <= w
    ensures x < w && Scale(x, w, n) == t
  {
    var a := t * w + (n - 1);
    x := a / n;
    assert a == n * x + a % n;
    MulLe(t + 1, n, w);
    MulLe(w, x, n);
    assert x * n == n * x && w * n == n * w;
    ScaleIs(x, w, n, t);
  }

  // ---------------------------------------------------------------- two axes

  function SourceIndex(x: nat, y: nat, w: nat, h: nat): nat
    requires w > 0 && h > 0
  {
    Scale(x, w, SENSOR_WIDTH) + Scale(y, h, SENSOR_HEIGHT) * SENSOR_WIDTH
  }

  function DestIndex(x: nat, y: nat, w: nat): nat {
    x + y * w
  }

  lemma SourceInBounds(x: nat, y: nat, w: nat, h: nat)
    requires x < w && y < h
    ensures SourceIndex(x, y, w, h) < SENSOR_WIDTH * SENSOR_HEIGHT
  {
    ScaleBound(x, w, SENSOR_WIDTH);
    ScaleBound(y, h, SENSOR_HEIGHT);
  }

  /** (u, v) is the sensor pixel that contains the corner of (x, y); rows are 640 apart. */
  lemma SourceMeaning(x: nat, y: nat, w: nat, h: nat, u: nat, v: nat)
    requires w > 0 && h > 0
    requires u * w <= x * 640 < (u + 1) * w && v * h <= y * 480 < (v + 1) * h
    ensures SourceIndex(x, y, w, h) == u + v * 640
  {
    assert (u + 1) * w == u * w + w && (v + 1) * h == v * h + h;
    ScaleIs(x, w, SENSOR_WIDTH, u);
    ScaleIs(y, h, SENSOR_HEIGHT, v);
  }

  lemma DestInBounds(x: nat, y: nat, w: nat, h: nat)
    requires x < w && y < h
    ensures DestIndex(x, y, w) < w * h
  {
    MulLe(y + 1, h, w);
    assert h * w == w * h;
  }

  lemma DestInjective(x: nat, y: nat, x': nat, y': nat, w: nat)
    requires x < w && x' < w && DestIndex(x, y, w) == DestIndex(x', y', w)
    ensures x == x' && y == y'
  {
    MulLe(y + 1, y', w);
    MulLe(y' + 1, y, w);
  }

  lemma DestOnto(d: nat, w: nat, h: nat) returns (x: nat, y: nat)
    requires d < w * h
    ensures x < w && y < h && DestIndex(x, y, w) == d
  {
    assert w != 0;
    x, y := d % w, d / w;
    assert d == w * y + x && w * y == y * w && w * h == h * w;
    MulLe(h, y, w);
  }

  /** Every destination cell is written for exactly one (x, y). */
  lemma EachCellOnce(d: nat, w: nat, h: nat)
    requires d < w * h
    ensures exists x: nat, y: nat :: x < w && y < h && DestIndex(x, y, w) == d
    ensures forall x: nat, y: nat, x': nat, y': nat ::
      x < w && x' < w && DestIndex(x, y, w) == d && DestIndex(x', y', w) == d ==> x == x' && y == y'
  {
    var x, y := DestOnto(d, w, h);
    forall x: nat, y: nat, x': nat, y': nat |
      x < w && x' < w && DestIndex(x, y, w) == d && DestIndex(x', y', w) == d
      ensures x == x' && y == y'
    {
      DestInjective(x, y, x', y', w);
    }
  }

  ghost predicate DistinctSamples(w: nat, h: nat)
    requires w > 0 && h > 0
  {
    forall x: nat, y: nat, x': nat, y': nat ::
      x < w && y < h && x' < w && y' < h && SourceIndex(x, y, w, h) == SourceIndex(x', y', w, h)
      ==> x == x' && y == y'
  }

  /** A row and a column determine an index, and the other way round. */
  lemma SplitUnique(u: nat, v: nat, u': nat, v': nat)
    requires u < SENSOR_WIDTH && u' < SENSOR_WIDTH
    ensures u + v * SENSOR_WIDTH == u' + v' * SENSOR_WIDTH <==> u == u' && v == v'
  {
  }

  lemma SourceParts(x: nat, y: nat, x': nat, y': nat, w: nat, h: nat)
    requires x < w && y < h && x' < w && y' < h
    ensures SourceIndex(x, y, w, h) == SourceIndex(x', y', w, h) <==>
      Scale(x, w, SENSOR_WIDTH) == Scale(x', w, SENSOR_WIDTH) &&
      Scale(y, h, SENSOR_HEIGHT) == Scale(y', h, SENSOR_HEIGHT)
  {
    ScaleBound(x, w, SENSOR_WIDTH);
    ScaleBound(x', w, SENSOR_WIDTH);
    SplitUnique(Scale(x, w, SENSOR_WIDTH), Scale(y, h, SENSOR_HEIGHT),
                Scale(x', w, SENSOR_WIDTH), Scale(y', h, SENSOR_HEIGHT));
  }

  /** No sensor pixel is used twice exactly when the image fits in the sensor in both directions. */
  lemma DistinctSamplesIff(w: nat, h: nat)
    requires w > 0 && h > 0
    ensures DistinctSamples(w, h) <==> w <= SENSOR_WIDTH && h <= SENSOR_HEIGHT
  {
    InjectiveIff(w, SENSOR_WIDTH);
    InjectiveIff(h, SENSOR_HEIGHT);
    if w <= SENSOR_WIDTH && h <= SENSOR_HEIGHT {
      forall x: nat, y: nat, x': nat, y': nat |
        x < w && y < h && x' < w && y' < h && SourceIndex(x, y, w, h) == SourceIndex(x', y', w, h)
        ensures x == x' && y == y'
      {
        SourceParts(x, y, x', y', w, h);
      }
    } else if DistinctSamples(w, h) {
      forall x, x' | 0 <= x < x' < w
        ensures Scale(x, w, SENSOR_WIDTH) != Scale(x', w, SENSOR_WIDTH)
      {
        SourceParts(x, 0, x', 0, w, h);
      }
      forall y, y' | 0 <= y < y' < h
        ensures Scale(y, h, SENSOR_HEIGHT) != Scale(y', h, SENSOR_HEIGHT)
      {
        SourceParts(0, y, 0, y', w, h);
      }
    }
  }

  ghost predicate Sampled(s: nat, w: nat, h: nat)
    requires w > 0 && h > 0
  {
    exists x: nat, y: nat :: x < w && y < h && SourceIndex(x, y, w, h) == s
  }

  /** Every sensor pixel is used exactly when the image covers the sensor in both directions. */
  lemma AllSampledIff(w: nat, h: nat)
    requires w > 0 && h > 0
    ensures (forall s: nat :: s < SENSOR_WIDTH * SENSOR_HEIGHT ==> Sampled(s, w, h)) <==>
      w >= SENSOR_WIDTH && h >= SENSOR_HEIGHT
  {
    if w >= SENSOR_WIDTH && h >= SENSOR_HEIGHT {
      forall s: nat | s < SENSOR_WIDTH * SENSOR_HEIGHT
        ensures Sampled(s, w, h)
      {
        var x := Preimage(s % SENSOR_WIDTH, w, SENSOR_WIDTH);
        var y := Preimage(s / SENSOR_WIDTH, h, SENSOR_HEIGHT);
        assert SourceIndex(x, y, w, h) == s;
      }
    } else if forall s: nat :: s < SENSOR_WIDTH * SENSOR_HEIGHT ==> Sampled(s, w, h) {
      OntoIff(w, SENSOR_WIDTH);
      OntoIff(h, SENSOR_HEIGHT);
      forall u: nat | u < SENSOR_WIDTH
        ensures Hit(u, w, SENSOR_WIDTH)
      {
        var x, y := SampleOf(u, 0, w, h);
      }
      forall v: nat | v < SENSOR_HEIGHT
        ensures Hit(v, h, SENSOR_HEIGHT)
      {
        var x, y := SampleOf(0, v, w, h);
      }
    }
  }

  lemma SampleOf(u: nat, v: nat, w: nat, h: nat) returns (x: nat, y: nat)
    requires w > 0 && h > 0 && u < SENSOR_WIDTH && v < SENSOR_HEIGHT
    requires Sampled(u + v * SENSOR_WIDTH, w, h)
    ensures x < w && y < h && Scale(x, w, SENSOR_WIDTH) == u && Scale(y, h, SENSOR_HEIGHT) == v
  {
    x, y :| x < w && y < h && SourceIndex(x, y, w, h) == u + v * SENSOR_WIDTH;
    ScaleBound(x, w, SENSOR_WIDTH);
    SplitUnique(Scale(x, w, SENSOR_WIDTH), Scale(y, h, SENSOR_HEIGHT), u, v);
  }

  /** At the sensor's own size the image is the sensor frame. */
  lemma IdentityAtSensorSize(x: nat, y: nat)
    requires x < SENSOR_WIDTH && y < SENSOR_HEIGHT
    ensures SourceIndex(x, y, SENSOR_WIDTH, SENSOR_HEIGHT) == DestIndex(x, y, SENSOR_WIDTH)
  {
    ScaleIdentity(x, SENSOR_WIDTH);
    ScaleIdentity(y, SENSOR_HEIGHT);
  }

  // ---------------------------------------------------------------- the loops

  /** 0xBBGGRR becomes 0xRRGGBB; the top byte is dropped. */
  function SwapChannels(c: bv32): bv32 {
    ((c & 0xff) << 16) | (c & 0xff00) | ((c & 0xff0000) >> 16)
  }

  /** A colour value by its four bytes, the lowest first. */
  predicate HasBytes(c: bv32, b0: bv32, b1: bv32, b2: bv32, b3: bv32) {
    b0 == c & 0xff && b1 == (c >> 8) & 0xff && b2 == (c >> 16) & 0xff && b3 == c >> 24
  }

  /** d has the bytes of c with the first and the third exchanged and the fourth cleared. */
  predicate Swapped(c: bv32, d: bv32) {
    HasBytes(d, (c >> 16) & 0xff, (c >> 8) & 0xff, c & 0xff, 0)
  }

  lemma SwapMeaning(c: bv32)
    ensures Swapped(c, SwapChannels(c))
  {
  }

  /** There is only one such value. */
  lemma SwappedUnique(c: bv32, d: bv32)
    requires Swapped(c, d)
    ensures d == SwapChannels(c)
  {
  }

  lemma SwapTwice(c: bv32)
    ensures SwapChannels(SwapChannels(c)) == c & 0xffffff
  {
  }

  /** What the loops compute with int does not overflow. */
  predicate NoOverflow(w: nat, h: nat) {
    w * h <= INT_MAX && (w > 0 && h > 0 ==> (w - 1) * SENSOR_WIDTH <= INT_MAX && (h - 1) * SENSOR_HEIGHT <= INT_MAX)
  }

  ghost predicate ColourCell(out: seq<bv32>, bits: seq<bv32>, x: nat, y: nat, w: nat, h: nat)
    requires w > 0 && h > 0
  {
    && x + y * w < |out| && SourceIndex(x, y, w, h) < |bits|
    && Swapped(bits[SourceIndex(x, y, w, h)], out[x + y * w])
  }

  lemma ColourCellKept(out: seq<bv32>, out': seq<bv32>, bits: seq<bv32>,
                       x: nat, y: nat, x': nat, y': nat, w: nat, h: nat, c: bv32)
    requires x < w && x' < w && h > 0 && (x, y) != (x', y')
    requires DestIndex(x, y, w) < |out| && out' == out[DestIndex(x, y, w) := c]
    requires ColourCell(out, bits, x', y', w, h)
    ensures ColourCell(out', bits, x', y', w, h)
  {
    if DestIndex(x, y, w) == DestIndex(x', y', w) {
      DestInjective(x, y, x', y', w);
    }
  }

  /** The colour camera: every cell of the row-major buffer has the swapped bytes of the sample for its (x, y). */
  method ResampleColour(bits: array<bv32>, w: nat, h: nat) returns (rgb: array<bv32>)
    requires bits.Length == SENSOR_WIDTH * SENSOR_HEIGHT && NoOverflow(w, h)
    ensures rgb.Length == w * h
    ensures forall x: nat, y: nat :: x < w && y < h ==> ColourCell(rgb[..], bits[..], x, y, w, h)
  {
    rgb := new bv32[w * h];
    ghost var frame := bits[..];
    var x := 0;
    while x < w
      invariant x <= w && bits[..] == frame
      invariant forall x': nat, y': nat :: x' < x && y' < h ==> ColourCell(rgb[..], bits[..], x', y', w, h)
    {
      var y := 0;
      while y < h
        invariant y <= h && bits[..] == frame
        invariant forall x': nat, y': nat :: (x' < x && y' < h) || (x' == x && y' < y) ==>
          ColourCell(rgb[..], bits[..], x', y', w, h)
      {
        SourceInBounds(x, y, w, h);
        DestInBounds(x, y, w, h);
        assert x * SENSOR_WIDTH <= INT_MAX && y * SENSOR_HEIGHT <= INT_MAX && DestIndex(x, y, w) <= INT_MAX;
        var src := SourceIndex(x, y, w, h);
        var dst := DestIndex(x, y, w);
        ghost var out := rgb[..];
        SwapMeaning(bits[src]);
        rgb[dst] := SwapChannels(bits[src]);
        forall x': nat, y': nat | (x' < x && y' < h) || (x' == x && y' < y)
          ensures ColourCell(rgb[..], bits[..], x', y', w, h)
        {
          ColourCellKept(out, rgb[..], bits[..], x, y, x', y', w, h, SwapChannels(bits[src]));
        }
        y := y + 1;
      }
      x := x + 1;
    }
  }

  /** The depth camera: every element of the matrix is the depth sampled for its (x, y). */
  method ResampleDepth(bits: array<bv16>, w: nat, h: nat) returns (encode: array2<bv16>)
    requires bits.Length == SENSOR_WIDTH * SENSOR_HEIGHT && NoOverflow(w, h)
    ensures encode.Length0 == h && encode.Length1 == w
    ensures forall x: nat, y: nat :: x < w && y < h ==>
      SourceIndex(x, y, w, h) < bits.Length && encode[y, x] == bits[SourceIndex(x, y, w, h)]
  {
    encode := new bv16[h, w];
    var x := 0;
    while x < w
      invariant x <= w
      invariant forall x': nat, y': nat :: x' < x && y' < h ==>
        SourceIndex(x', y', w, h) < bits.Length && encode[y', x'] == bits[SourceIndex(x', y', w, h)]
    {
      var y := 0;
      while y < h
        invariant y <= h
        invariant forall x': nat, y': nat :: (x' < x && y' < h) || (x' == x && y' < y) ==>
          SourceIndex(x', y', w, h) < bits.Length && encode[y', x'] == bits[SourceIndex(x', y', w, h)]
      {
        SourceInBounds(x, y, w, h);
        assert x * SENSOR_WIDTH <= INT_MAX && y * SENSOR_HEIGHT <= INT_MAX;
        encode[y, x] := bits[SourceIndex(x, y, w, h)];
        y := y + 1;
      }
      x := x + 1;
    }
  }
}
