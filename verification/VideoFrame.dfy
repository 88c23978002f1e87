/**
 Buffer size in 64-bit and plane layout in 32-bit arithmetic (src/video_frame.cpp), and packing planes back together.
 */
module VideoFrame {
  import opened Common

  const WORD32 := 0x1_0000_0000
  const WORD64 := 0x1_0000_0000_0000_0000

  /** `int` in the source. */
  type Dimension = n: int | -0x8000_0000 <= n < 0x8000_0000

  /** Unsupported stands for every value that the two switches leave to their default. */
  datatype VideoBufferType = ARGB | ABGR | RGBA | BGRA | RGB24 | I420 | I420A | I422 | I444 | I010 | NV12 | Unsupported

  datatype Error = NotPositive | UnsupportedType | DataTooSmall

  // ---------------------------------------------------------------- machine arithmetic

  function Mul32(a: nat, b: nat): nat { a * b % WORD32 }

  /** A conversion to 32 bits. */
  function Low32(n: nat): nat { n % WORD32 }

  function Mul64(a: nat, b: nat): nat { a * b % WORD64 }

  function Add64(a: nat, b: nat): nat { (a + b) % WORD64 }

  lemma MulMod(a: nat, b: nat)
    ensures Mul32(a % WORD32, b) == Mul32(a, b)
  {
    var q, r := a / WORD32, a % WORD32;
    assert a == q * WORD32 + r;
    assert a * b == (q * b) * WORD32 + r * b;
    ModPlus(q * b, r * b);
  }

  lemma ModPlus(k: nat, n: nat)
    ensures (k * WORD32 + n) % WORD32 == n % WORD32
  {
    assert k * WORD32 + n == (k + n / WORD32) * WORD32 + n % WORD32;
  }

  // ---------------------------------------------------------------- the formats

  /** One plane: `rows` rows of `stride` bytes. */
  datatype Shape = Shape(stride: nat, rows: nat)
  {
    function Size(): nat { stride * rows }
  }

  function Half(n: nat): nat { (n + 1) / 2 }

  /** Halving rounds up: sample `c` exists exactly if some pixel of the two it stands for does. */
  lemma HalfCovers(n: nat, c: nat)
    ensures c < Half(n) <==> 2 * c < n
    ensures 2 * Half(n) == if n % 2 == 0 then n else n + 1
  {
    assert n == 2 * (n / 2) + n % 2;
  }

  /** What each format's planes are, in exact arithmetic. */
  function Shapes(t: VideoBufferType, w: nat, h: nat): seq<Shape> {
    match t
    case ARGB | ABGR | RGBA | BGRA => [Shape(w * 4, h)]
    case RGB24 => [Shape(w * 3, h)]
    case I420 => [Shape(w, h), Shape(Half(w), Half(h)), Shape(Half(w), Half(h))]
    case I420A => [Shape(w, h), Shape(Half(w), Half(h)), Shape(Half(w), Half(h)), Shape(w, h)]
    case I422 => [Shape(w, h), Shape(Half(w), h), Shape(Half(w), h)]
    case I444 => [Shape(w, h), Shape(w, h), Shape(w, h)]
    case I010 => [Shape(w * 2, h), Shape(Half(w) * 2, Half(h)), Shape(Half(w) * 2, Half(h))]
    case NV12 => [Shape(w, h), Shape(Half(w) * 2, Half(h))]
    case Unsupported => []
  }

  function TotalSize(shapes: seq<Shape>): nat {
    if shapes == [] then 0 else shapes[0].Size() + TotalSize(shapes[1..])
  }

  /** computeBufferSize, every operation reduced to 64 bits. */
  function BufferSize(width: Dimension, height: Dimension, t: VideoBufferType): Result<nat, Error> {
    if width <= 0 || height <= 0 then Err(NotPositive)
    else
      var w, h := width as nat, height as nat;
      var cw, ch := Half(w), Half(h);
      match t
      case ARGB | ABGR | RGBA | BGRA => Ok(Mul64(Mul64(w, h), 4))
      case RGB24 | I444 => Ok(Mul64(Mul64(w, h), 3))
      case I420 | NV12 => Ok(Add64(Mul64(w, h), Mul64(Mul64(cw, ch), 2)))
      case I010 => Ok(Add64(Mul64(Mul64(w, h), 2), Mul64(Mul64(cw, ch), 4)))
      case I420A => Ok(Add64(Mul64(Mul64(w, h), 2), Mul64(Mul64(cw, ch), 2)))
      case I422 => Ok(Add64(Mul64(w, h), Mul64(Mul64(cw, h), 2)))
      case Unsupported => Err(UnsupportedType)
  }

  lemma ProductBound(a: nat, b: nat, bound: nat)
    requires a <= bound && b <= bound
    ensures a * b <= bound * bound
  {
    assert a * b <= a * bound;
    assert a * bound <= bound * bound;
  }

  lemma TotalOfOne(a: Shape)
    ensures TotalSize([a]) == a.Size()
  {
  }

  lemma TotalOfTwo(a: Shape, b: Shape)
    ensures TotalSize([a, b]) == a.Size() + b.Size()
  {
    assert [a, b][1..] == [b];
    TotalOfOne(b);
  }

  lemma TotalOfThree(a: Shape, b: Shape, c: Shape)
    ensures TotalSize([a, b, c]) == a.Size() + b.Size() + c.Size()
  {
    assert [a, b, c][1..] == [b, c];
    TotalOfTwo(b, c);
  }

  lemma TotalOfFour(a: Shape, b: Shape, c: Shape, d: Shape)
    ensures TotalSize([a, b, c, d]) == a.Size() + b.Size() + c.Size() + d.Size()
  {
    assert [a, b, c, d][1..] == [b, c, d];
    TotalOfThree(b, c, d);
  }

  lemma Scale(w: nat, h: nat, k: nat)
    ensures (w * k) * h == (w * h) * k
  {
  }

  /** The total of the planes, as the polynomial that computeBufferSize evaluates. */
  lemma TotalIs(t: VideoBufferType, w: nat, h: nat)
    ensures var p, q, r := w * h, Half(w) * Half(h), Half(w) * h;
            TotalSize(Shapes(t, w, h)) ==
            match t
            case ARGB | ABGR | RGBA | BGRA => p * 4
            case RGB24 | I444 => p * 3
            case I420 | NV12 => p + q * 2
            case I010 => p * 2 + q * 4
            case I420A => p * 2 + q * 2
            case I422 => p + r * 2
            case Unsupported => 0
  {
    var cw, ch := Half(w), Half(h);
    Scale(w, h, 4);
    Scale(w, h, 3);
    Scale(w, h, 2);
    Scale(cw, ch, 2);
    hide TotalSize, Half;
    match t {
      case ARGB | ABGR | RGBA | BGRA => TotalOfOne(Shape(w * 4, h));
      case RGB24 => TotalOfOne(Shape(w * 3, h));
      case I420 => TotalOfThree(Shape(w, h), Shape(cw, ch), Shape(cw, ch));
      case I420A => TotalOfFour(Shape(w, h), Shape(cw, ch), Shape(cw, ch), Shape(w, h));
      case I422 => TotalOfThree(Shape(w, h), Shape(cw, h), Shape(cw, h));
      case I444 => TotalOfThree(Shape(w, h), Shape(w, h), Shape(w, h));
      case I010 => TotalOfThree(Shape(w * 2, h), Shape(cw * 2, ch), Shape(cw * 2, ch));
      case NV12 => TotalOfTwo(Shape(w, h), Shape(cw * 2, ch));
      case Unsupported => TotalOfNone();
    }
  }

  lemma TotalOfNone()
    ensures TotalSize([]) == 0
  {
  }

  /** Products of the bounded sizes stay exact in 64 bits. */
  lemma Exact64(a: nat, b: nat, n: nat)
    requires n == a * b < WORD64
    ensures Mul64(a, b) == n
  {
  }

  lemma Sum64(a: nat, b: nat)
    requires a + b < WORD64
    ensures Add64(a, b) == a + b
  {
  }

  lemma Bounds(w: nat, h: nat)
    requires w <= 0x7FFF_FFFF && h <= 0x7FFF_FFFF
    ensures w * h <= 0x3FFF_FFFF_0000_0001
    ensures Half(w) * Half(h) <= 0x1000_0000_0000_0000
    ensures Half(w) * h <= 0x2000_0000_0000_0000
  {
    ProductBound(w, h, 0x7FFF_FFFF);
    ProductBound(Half(w), Half(h), 0x4000_0000);
    assert Half(w) * h <= 0x4000_0000 * h;
  }

  /** For every supported format and all positive 31-bit sizes no 64-bit operation wraps: the result is exact. */
  lemma BufferSizeIsExact(width: Dimension, height: Dimension, t: VideoBufferType)
    requires width > 0 && height > 0 && t != Unsupported
    ensures BufferSize(width, height, t) == Ok(TotalSize(Shapes(t, width, height)))
  {
    var w, h := width as nat, height as nat;
    var cw, ch := Half(w), Half(h);
    var p, q, r := w * h, cw * ch, cw * h;
    Bounds(w, h);
    TotalIs(t, w, h);
    Exact64(w, h, p);
    Exact64(cw, ch, q);
    Exact64(cw, h, r);
    Exact64(p, 4, p * 4);
    Exact64(p, 3, p * 3);
    Exact64(p, 2, p * 2);
    Exact64(q, 4, q * 4);
    Exact64(q, 2, q * 2);
    Exact64(r, 2, r * 2);
    Sum64(p, q * 2);
    Sum64(p * 2, q * 4);
    Sum64(p * 2, q * 2);
    Sum64(p, r * 2);
    hide TotalSize, Shapes, Half, Mul64, Add64;
  }

  // ---------------------------------------------------------------- planes

  datatype Plane = Plane(ptr: nat, stride: nat, size: nat)

  /** Planes one behind the other, in exact arithmetic. */
  function Layout(base: nat, shapes: seq<Shape>): (planes: seq<Plane>)
    ensures |planes| == |shapes|
    decreases |shapes|
  {
    if shapes == [] then []
    else
      var s := shapes[0];
      [Plane(base, s.stride, s.Size())] + Layout(base + s.Size(), shapes[1..])
  }

  /** The same with 32-bit strides and sizes and 64-bit addresses. */
  function Layout32(base: nat, shapes: seq<Shape>): (planes: seq<Plane>)
    ensures |planes| == |shapes|
    decreases |shapes|
  {
    if shapes == [] then []
    else
      var s := shapes[0];
      var size := Mul32(s.stride, s.rows);
      [Plane(base, Low32(s.stride), size)] + Layout32(Add64(base, size), shapes[1..])
  }

  /** What computePlaneInfos returns. */
  function PlaneInfos(base: nat, width: Dimension, height: Dimension, t: VideoBufferType): seq<Plane> {
    if base == 0 || width <= 0 || height <= 0 then [] else Layout32(base, Shapes(t, width, height))
  }

  /** The plane that a shape gets at `ptr`. */
  function PlaneAt(ptr: nat, s: Shape): Plane { Plane(ptr, Low32(s.stride), Mul32(s.stride, s.rows)) }

  lemma LayoutOfOne(base: nat, a: Shape)
    ensures Layout32(base, [a]) == [PlaneAt(base, a)]
  {
    assert Layout32(Add64(base, Mul32(a.stride, a.rows)), [a][1..]) == [];
  }

  lemma LayoutOfMore(base: nat, a: Shape, rest: seq<Shape>)
    ensures Layout32(base, [a] + rest) ==
            [PlaneAt(base, a)] + Layout32(Add64(base, Mul32(a.stride, a.rows)), rest)
  {
    assert ([a] + rest)[1..] == rest;
  }

  lemma LayoutOfTwo(base: nat, a: Shape, b: Shape)
    ensures var next := Add64(base, Mul32(a.stride, a.rows));
            Layout32(base, [a, b]) ==
            [PlaneAt(base, a), PlaneAt(next, b)]
  {
    var next := Add64(base, Mul32(a.stride, a.rows));
    assert [a, b] == [a] + [b];
    LayoutOfMore(base, a, [b]);
    LayoutOfOne(next, b);
  }

  lemma LayoutOfThree(base: nat, a: Shape, b: Shape, c: Shape)
    ensures var next := Add64(base, Mul32(a.stride, a.rows));
            var last := Add64(next, Mul32(b.stride, b.rows));
            Layout32(base, [a, b, c]) ==
            [PlaneAt(base, a), PlaneAt(next, b),
             PlaneAt(last, c)]
  {
    assert [a, b, c] == [a] + [b, c];
    LayoutOfMore(base, a, [b, c]);
    LayoutOfTwo(Add64(base, Mul32(a.stride, a.rows)), b, c);
  }

  lemma LayoutOfFour(base: nat, a: Shape, b: Shape, c: Shape, d: Shape)
    ensures var second := Add64(base, Mul32(a.stride, a.rows));
            var third := Add64(second, Mul32(b.stride, b.rows));
            var last := Add64(third, Mul32(c.stride, c.rows));
            Layout32(base, [a, b, c, d]) ==
            [PlaneAt(base, a), PlaneAt(second, b),
             PlaneAt(third, c), PlaneAt(last, d)]
  {
    assert [a, b, c, d] == [a] + [b, c, d];
    LayoutOfMore(base, a, [b, c, d]);
    LayoutOfThree(Add64(base, Mul32(a.stride, a.rows)), b, c, d);
  }

  /** A size computed as (w * h) * k in 32 bits is the size of rows of w * k bytes. */
  lemma ScaledMod(w: nat, h: nat, k: nat)
    ensures Mul32(Mul32(w, h), k) == Mul32(w * k, h)
    ensures Mul32(Mul32(w, k), h) == Mul32(w * k, h)
    ensures Mul32(w, k) == Low32(w * k)
  {
    MulMod(w * h, k);
    MulMod(w * k, h);
    Scale(w, h, k);
  }

  lemma Fits(w: nat)
    requires w < WORD32
    ensures Low32(w) == w && Low32(Half(w)) == Half(w)
  {
  }

  lemma PackedPlanes(base: nat, t: VideoBufferType, w: nat, h: nat)
    requires t in {ARGB, ABGR, RGBA, BGRA} && w < WORD32
    ensures var s0 := Mul32(Mul32(w, 4), h);
            Layout32(base, Shapes(t, w, h)) ==
            [Plane(base, Mul32(w, 4), s0)]
  {
    ScaledMod(w, h, 4);
    Fits(w);
    hide Layout32, Add64, Mul32, Low32, Half;
    LayoutOfOne(base, Shape(w * 4, h));
  }

  lemma Rgb24Planes(base: nat, w: nat, h: nat)
    requires w < WORD32
    ensures var s0 := Mul32(Mul32(w, 3), h);
            Layout32(base, Shapes(RGB24, w, h)) ==
            [Plane(base, Mul32(w, 3), s0)]
  {
    ScaledMod(w, h, 3);
    Fits(w);
    hide Layout32, Add64, Mul32, Low32, Half;
    LayoutOfOne(base, Shape(w * 3, h));
  }

  lemma I420Planes(base: nat, w: nat, h: nat)
    requires w < WORD32
    ensures var cw, ch := Half(w), Half(h);
            var s0 := Mul32(w, h);
            var p1 := Add64(base, s0);
            var s1 := Mul32(cw, ch);
            var p2 := Add64(p1, s1);
            var s2 := Mul32(cw, ch);
            Layout32(base, Shapes(I420, w, h)) ==
            [Plane(base, w, s0), Plane(p1, cw, s1), Plane(p2, cw, s2)]
  {
    var cw, ch := Half(w), Half(h);
    Fits(w);
    hide Layout32, Add64, Mul32, Low32, Half;
    LayoutOfThree(base, Shape(w, h), Shape(cw, ch), Shape(cw, ch));
  }

  lemma I420APlanes(base: nat, w: nat, h: nat)
    requires w < WORD32
    ensures var cw, ch := Half(w), Half(h);
            var s0 := Mul32(w, h);
            var p1 := Add64(base, s0);
            var s1 := Mul32(cw, ch);
            var p2 := Add64(p1, s1);
            var s2 := Mul32(cw, ch);
            var p3 := Add64(p2, s2);
            var s3 := Mul32(w, h);
            Layout32(base, Shapes(I420A, w, h)) ==
            [Plane(base, w, s0), Plane(p1, cw, s1), Plane(p2, cw, s2), Plane(p3, w, s3)]
  {
    var cw, ch := Half(w), Half(h);
    Fits(w);
    hide Layout32, Add64, Mul32, Low32, Half;
    LayoutOfFour(base, Shape(w, h), Shape(cw, ch), Shape(cw, ch), Shape(w, h));
  }

  lemma I422Planes(base: nat, w: nat, h: nat)
    requires w < WORD32
    ensures var cw, ch := Half(w), Half(h);
            var s0 := Mul32(w, h);
            var p1 := Add64(base, s0);
            var s1 := Mul32(cw, h);
            var p2 := Add64(p1, s1);
            var s2 := Mul32(cw, h);
            Layout32(base, Shapes(I422, w, h)) ==
            [Plane(base, w, s0), Plane(p1, cw, s1), Plane(p2, cw, s2)]
  {
    var cw, ch := Half(w), Half(h);
    Fits(w);
    hide Layout32, Add64, Mul32, Low32, Half;
    LayoutOfThree(base, Shape(w, h), Shape(cw, h), Shape(cw, h));
  }

  lemma I444Planes(base: nat, w: nat, h: nat)
    requires w < WORD32
    ensures var s0 := Mul32(w, h);
            var p1 := Add64(base, s0);
            var s1 := Mul32(w, h);
            var p2 := Add64(p1, s1);
            var s2 := Mul32(w, h);
            Layout32(base, Shapes(I444, w, h)) ==
            [Plane(base, w, s0), Plane(p1, w, s1), Plane(p2, w, s2)]
  {
    Fits(w);
    hide Layout32, Add64, Mul32, Low32, Half;
    LayoutOfThree(base, Shape(w, h), Shape(w, h), Shape(w, h));
  }

  lemma I010Planes(base: nat, w: nat, h: nat)
    requires w < WORD32
    ensures var cw, ch := Half(w), Half(h);
            var s0 := Mul32(Mul32(w, h), 2);
            var p1 := Add64(base, s0);
            var s1 := Mul32(Mul32(cw, ch), 2);
            var p2 := Add64(p1, s1);
            var s2 := Mul32(Mul32(cw, ch), 2);
            Layout32(base, Shapes(I010, w, h)) ==
            [Plane(base, Mul32(w, 2), s0), Plane(p1, Mul32(cw, 2), s1), Plane(p2, Mul32(cw, 2), s2)]
  {
    var cw, ch := Half(w), Half(h);
    ScaledMod(cw, ch, 2);
    ScaledMod(w, h, 2);
    Fits(w);
    hide Layout32, Add64, Mul32, Low32, Half;
    LayoutOfThree(base, Shape(w * 2, h), Shape(cw * 2, ch), Shape(cw * 2, ch));
  }

  lemma Nv12Planes(base: nat, w: nat, h: nat)
    requires w < WORD32
    ensures var cw, ch := Half(w), Half(h);
            var s0 := Mul32(w, h);
            var p1 := Add64(base, s0);
            var s1 := Mul32(Mul32(cw, ch), 2);
            Layout32(base, Shapes(NV12, w, h)) ==
            [Plane(base, w, s0), Plane(p1, Mul32(cw, 2), s1)]
  {
    var cw, ch := Half(w), Half(h);
    ScaledMod(cw, ch, 2);
    Fits(w);
    hide Layout32, Add64, Mul32, Low32, Half;
    LayoutOfTwo(base, Shape(w, h), Shape(cw * 2, ch));
  }

  method ComputePlaneInfos(base: nat, width: Dimension, height: Dimension, t: VideoBufferType)
    returns (planes: seq<Plane>)
    requires base < WORD64
    ensures planes == PlaneInfos(base, width, height, t)
  {
    planes := [];
    if base == 0 || width <= 0 || height <= 0 {
      return;
    }
    var w, h := width as nat, height as nat;
    var cw, ch := Half(w), Half(h);
    hide Layout32, Shapes, Half, Mul32, Add64;
    match t {
      case ARGB | ABGR | RGBA | BGRA =>
        var stride := Mul32(w, 4);
        var size := Mul32(stride, h);
        planes := planes + [Plane(base, stride, size)];
        PackedPlanes(base, t, w, h);
      case RGB24 =>
        var stride := Mul32(w, 3);
        var size := Mul32(stride, h);
        planes := planes + [Plane(base, stride, size)];
        Rgb24Planes(base, w, h);
      case I420 =>
        var ySize := Mul32(w, h);
        planes := planes + [Plane(base, w, ySize)];
        var uSize := Mul32(cw, ch);
        var uPtr := Add64(base, ySize);
        planes := planes + [Plane(uPtr, cw, uSize)];
        var vSize := Mul32(cw, ch);
        var vPtr := Add64(uPtr, uSize);
        planes := planes + [Plane(vPtr, cw, vSize)];
        I420Planes(base, w, h);
      case I420A =>
        var ySize := Mul32(w, h);
        planes := planes + [Plane(base, w, ySize)];
        var uSize := Mul32(cw, ch);
        var uPtr := Add64(base, ySize);
        planes := planes + [Plane(uPtr, cw, uSize)];
        var vSize := Mul32(cw, ch);
        var vPtr := Add64(uPtr, uSize);
        planes := planes + [Plane(vPtr, cw, vSize)];
        var aSize := Mul32(w, h);
        var aPtr := Add64(vPtr, vSize);
        planes := planes + [Plane(aPtr, w, aSize)];
        I420APlanes(base, w, h);
      case I422 =>
        var ySize := Mul32(w, h);
        planes := planes + [Plane(base, w, ySize)];
        var uSize := Mul32(cw, h);
        var uPtr := Add64(base, ySize);
        planes := planes + [Plane(uPtr, cw, uSize)];
        var vSize := Mul32(cw, h);
        var vPtr := Add64(uPtr, uSize);
        planes := planes + [Plane(vPtr, cw, vSize)];
        I422Planes(base, w, h);
      case I444 =>
        var ySize := Mul32(w, h);
        planes := planes + [Plane(base, w, ySize)];
        var uSize := Mul32(w, h);
        var uPtr := Add64(base, ySize);
        planes := planes + [Plane(uPtr, w, uSize)];
        var vSize := Mul32(w, h);
        var vPtr := Add64(uPtr, uSize);
        planes := planes + [Plane(vPtr, w, vSize)];
        I444Planes(base, w, h);
      case I010 =>
        var ySize := Mul32(Mul32(w, h), 2);
        planes := planes + [Plane(base, Mul32(w, 2), ySize)];
        var uSize := Mul32(Mul32(cw, ch), 2);
        var uPtr := Add64(base, ySize);
        planes := planes + [Plane(uPtr, Mul32(cw, 2), uSize)];
        var vSize := Mul32(Mul32(cw, ch), 2);
        var vPtr := Add64(uPtr, uSize);
        planes := planes + [Plane(vPtr, Mul32(cw, 2), vSize)];
        I010Planes(base, w, h);
      case NV12 =>
        var ySize := Mul32(w, h);
        planes := planes + [Plane(base, w, ySize)];
        var uvSize := Mul32(Mul32(cw, ch), 2);
        var uvPtr := Add64(base, ySize);
        planes := planes + [Plane(uvPtr, Mul32(cw, 2), uvSize)];
        Nv12Planes(base, w, h);
      case Unsupported =>
        NoPlanes(base, w, h);
    }
  }

  lemma NoPlanes(base: nat, w: nat, h: nat)
    ensures Layout32(base, Shapes(Unsupported, w, h)) == []
  {
  }

  // ---------------------------------------------------------------- when the 32-bit layout is right

  predicate Positive(shapes: seq<Shape>) { forall s | s in shapes :: s.stride > 0 && s.rows > 0 }

  /** Every plane's size, not only their total, is a 32-bit number. */
  predicate AllFit(shapes: seq<Shape>) { forall s | s in shapes :: s.Size() < WORD32 }

  lemma SizeAtLeastStride(s: Shape)
    requires s.stride > 0 && s.rows > 0
    ensures s.Size() >= s.stride && s.Size() > 0
  {
    assert s.stride * s.rows >= s.stride * 1;
  }

  lemma {:induction false} PositiveTotal(shapes: seq<Shape>)
    requires Positive(shapes) && shapes != []
    ensures TotalSize(shapes) >= shapes[0].Size() > 0
    decreases |shapes|
  {
    SizeAtLeastStride(shapes[0]);
  }

  lemma LayoutsUnfold(base: nat, shapes: seq<Shape>)
    requires shapes != []
    ensures var s, rest := shapes[0], shapes[1..];
            var size := Mul32(s.stride, s.rows);
            && Layout(base, shapes) == [Plane(base, s.stride, s.Size())] + Layout(base + s.Size(), rest)
            && Layout32(base, shapes) == [Plane(base, Low32(s.stride), size)] + Layout32(Add64(base, size), rest)
  {
  }

  lemma ConsEqual(p: Plane, q: Plane, x: seq<Plane>, y: seq<Plane>)
    ensures [p] + x == [q] + y <==> p == q && x == y
  {
    if [p] + x == [q] + y {
      assert ([p] + x)[0] == ([q] + y)[0];
      assert ([p] + x)[1..] == ([q] + y)[1..];
    }
  }

  lemma FittingPlane(base: nat, s: Shape, after: nat)
    requires s.stride > 0 && s.rows > 0 && s.Size() < WORD32 && base + s.Size() + after <= WORD64
    ensures Mul32(s.stride, s.rows) == s.Size() && Low32(s.stride) == s.stride
    ensures after > 0 ==> Add64(base, s.Size()) == base + s.Size()
  {
    SizeAtLeastStride(s);
    var size := s.stride * s.rows;
    assert size % WORD32 == size;
  }

  lemma WideningPlane(s: Shape)
    requires s.Size() >= WORD32
    ensures Mul32(s.stride, s.rows) != s.Size()
  {
  }

  /** The 32-bit layout is the exact one if and only if every plane fits. */
  lemma {:induction false} LayoutExactIff(base: nat, shapes: seq<Shape>)
    requires Positive(shapes) && base + TotalSize(shapes) <= WORD64
    ensures Layout32(base, shapes) == Layout(base, shapes) <==> AllFit(shapes)
    decreases |shapes|
  {
    if shapes != [] {
      var s, rest := shapes[0], shapes[1..];
      var size, next := Mul32(s.stride, s.rows), base + s.Size();
      assert forall x | x in rest :: x in shapes;
      assert forall x | x in shapes :: x == s || x in rest;
      SizeAtLeastStride(s);
      LayoutExactIff(next, rest);
      LayoutsUnfold(base, shapes);
      ConsEqual(Plane(base, Low32(s.stride), size), Plane(base, s.stride, s.Size()), Layout32(Add64(base, size), rest),
                Layout(next, rest));
      assert rest == [] ==> Layout32(Add64(base, size), rest) == Layout32(next, rest);
      if rest != [] {
        PositiveTotal(rest);
      }
      assert TotalSize(shapes) == s.Size() + TotalSize(rest);
      hide Layout, Layout32, Positive, TotalSize, Mul32, Low32, Add64;
      if s.Size() < WORD32 {
        FittingPlane(base, s, TotalSize(rest));
      } else {
        WideningPlane(s);
      }
    }
  }

  /** From `from` to `to` without gap or overlap. */
  ghost predicate Tiles(planes: seq<Plane>, from: nat, to: nat) {
    if planes == [] then from == to
    else planes[0].ptr == from && Tiles(planes[1..], from + planes[0].size, to)
  }

  lemma {:induction false} LayoutTiles(base: nat, shapes: seq<Shape>)
    ensures Tiles(Layout(base, shapes), base, base + TotalSize(shapes))
    ensures forall i | 0 <= i < |shapes| ::
              Layout(base, shapes)[i].stride == shapes[i].stride && Layout(base, shapes)[i].size == shapes[i].Size()
    decreases |shapes|
  {
    if shapes != [] {
      LayoutTiles(base + shapes[0].Size(), shapes[1..]);
      var rest := Layout(base + shapes[0].Size(), shapes[1..]);
      assert Layout(base, shapes)[1..] == rest;
      forall i | 0 <= i < |shapes|
        ensures Layout(base, shapes)[i].stride == shapes[i].stride && Layout(base, shapes)[i].size == shapes[i].Size()
      {
        if i > 0 {
          assert Layout(base, shapes)[i] == rest[i - 1] && shapes[i] == shapes[1..][i - 1];
        }
      }
    }
  }

  lemma {:induction false} TilesSeparate(planes: seq<Plane>, from: nat, to: nat, i: nat, j: nat)
    requires Tiles(planes, from, to) && i < j < |planes|
    ensures from <= planes[i].ptr && planes[i].ptr + planes[i].size <= planes[j].ptr
    ensures planes[j].ptr + planes[j].size <= to
    decreases |planes|
  {
    TilesInside(planes[1..], from + planes[0].size, to, j - 1);
    if i > 0 {
      TilesSeparate(planes[1..], from + planes[0].size, to, i - 1, j - 1);
    }
  }

  lemma {:induction false} TilesInside(planes: seq<Plane>, from: nat, to: nat, i: nat)
    requires Tiles(planes, from, to) && i < |planes|
    ensures from <= planes[i].ptr && planes[i].ptr + planes[i].size <= to
    decreases |planes|
  {
    if i > 0 {
      TilesInside(planes[1..], from + planes[0].size, to, i - 1);
    } else {
      TilesForward(planes[1..], from + planes[0].size, to);
    }
  }

  lemma {:induction false} TilesForward(planes: seq<Plane>, from: nat, to: nat)
    requires Tiles(planes, from, to)
    ensures from <= to
    decreases |planes|
  {
    if planes != [] {
      TilesForward(planes[1..], from + planes[0].size, to);
    }
  }

  lemma ShapesPositive(t: VideoBufferType, w: nat, h: nat)
    requires w > 0 && h > 0
    ensures Positive(Shapes(t, w, h))
  {
    assert Half(w) > 0 && Half(h) > 0;
    hide Half;
  }

  lemma {:induction false} SmallTotalFits(shapes: seq<Shape>)
    requires TotalSize(shapes) < WORD32
    ensures AllFit(shapes)
    decreases |shapes|
  {
    if shapes != [] {
      SmallTotalFits(shapes[1..]);
      assert forall s | s in shapes :: s == shapes[0] || s in shapes[1..];
    }
  }

  /**
   The planes computed in 32 bits have exactly the format's strides and sizes if and only if every plane's size is
   below 2^32; then they start at the base, follow each other without gap or overlap and end with the buffer. A buffer
   below 2^32 bytes suffices.
   */
  ghost predicate ExactIff(base: nat, width: Dimension, height: Dimension, t: VideoBufferType, total: nat)
    requires width > 0 && height > 0
  {
    var shapes, planes := Shapes(t, width, height), PlaneInfos(base, width, height, t);
    && (planes == Layout(base, shapes) <==> AllFit(shapes))
    && (AllFit(shapes) ==> Tiles(planes, base, base + total))
    && (total < WORD32 ==> AllFit(shapes))
  }

  /** For every supported format, all positive 31-bit sizes and every buffer of computeBufferSize bytes. */
  lemma PlanesAreExactIff(base: nat, width: Dimension, height: Dimension, t: VideoBufferType)
    requires base > 0 && width > 0 && height > 0 && t != Unsupported
    ensures BufferSize(width, height, t).Ok?
    ensures var total := BufferSize(width, height, t).value;
            base + total <= WORD64 ==> ExactIff(base, width, height, t, total)
  {
    hide Shapes, BufferSize, Layout, Layout32, Tiles, AllFit, Positive, TotalSize, Half;
    var shapes := Shapes(t, width, height);
    BufferSizeIsExact(width, height, t);
    ShapesPositive(t, width, height);
    var total := TotalSize(shapes);
    if base + total <= WORD64 {
      LayoutExactIff(base, shapes);
      LayoutTiles(base, shapes);
      if total < WORD32 {
        SmallTotalFits(shapes);
      }
    }
  }

  /** A format whose planes do not fit: the first plane of a 65536 by 65536 I420 frame gets size 0. */
  lemma LargePlaneWraps(base: nat)
    requires 0 < base
    ensures var planes := PlaneInfos(base, 65536, 65536, I420);
            |planes| == 3 && planes[0].size == 0 && planes[1].ptr == base % WORD64
  {
    var a, b := Shape(65536, 65536), Shape(32768, 32768);
    assert Half(65536) == 32768;
    LayoutOfThree(base, a, b, b);
  }

  /** Whatever the size, no plane reaches outside the buffer. */
  lemma {:induction false} Layout32Inside(base: nat, shapes: seq<Shape>, i: nat)
    requires Positive(shapes) && base + TotalSize(shapes) <= WORD64 && i < |shapes|
    ensures var p := Layout32(base, shapes)[i]; base <= p.ptr && p.ptr + p.size <= base + TotalSize(shapes)
    decreases |shapes|
  {
    var s, rest := shapes[0], shapes[1..];
    var size := Mul32(s.stride, s.rows);
    assert size <= s.Size();
    if i > 0 {
      PositiveTotal(rest);
      assert Add64(base, size) == base + size;
      Layout32Inside(base + size, rest, i - 1);
    }
  }

  // ---------------------------------------------------------------- frames

  datatype VideoFrame = VideoFrame(width: Dimension, height: Dimension, t: VideoBufferType, data: Bytes)

  /** The checking constructor. */
  method Make(width: Dimension, height: Dimension, t: VideoBufferType, data: Bytes)
    returns (r: Result<VideoFrame, Error>)
    ensures match r
            case Ok(frame) =>
              && frame == VideoFrame(width, height, t, data)
              && width > 0 && height > 0 && t != Unsupported
              && TotalSize(Shapes(t, width, height)) <= |data|
            case Err(NotPositive) => width <= 0 || height <= 0
            case Err(UnsupportedType) => width > 0 && height > 0 && t == Unsupported
            case Err(DataTooSmall) => width > 0 && height > 0 && |data| < TotalSize(Shapes(t, width, height))
  {
    if width > 0 && height > 0 && t != Unsupported {
      BufferSizeIsExact(width, height, t);
    }
    var expected := BufferSize(width, height, t);
    match expected {
      case Err(error) => r := Err(error);
      case Ok(size) =>
        if |data| < size {
          return Err(DataTooSmall);
        }
        r := Ok(VideoFrame(width, height, t, data));
    }
  }

  /** Every plane of a frame that passed the check lies in its data, for every size that can be checked. */
  lemma PlanesStayInside(base: nat, frame: VideoFrame, i: nat)
    requires frame.width > 0 && frame.height > 0 && frame.t != Unsupported
    requires TotalSize(Shapes(frame.t, frame.width, frame.height)) <= |frame.data|
    requires base + |frame.data| <= WORD64
    requires i < |PlaneInfos(base, frame.width, frame.height, frame.t)|
    ensures var p := PlaneInfos(base, frame.width, frame.height, frame.t)[i];
            base <= p.ptr && p.ptr + p.size <= base + |frame.data|
  {
    var shapes := Shapes(frame.t, frame.width, frame.height);
    ShapesPositive(frame.t, frame.width, frame.height);
    Layout32Inside(base, shapes, i);
  }

  // ---------------------------------------------------------------- packing

  type Memory = nat -> Byte

  function Region(mem: Memory, from: nat, n: nat): (bytes: Bytes)
    ensures |bytes| == n
  {
    seq(n, i requires 0 <= i < n => mem(from + i))
  }

  function Packed(mem: Memory, planes: seq<Plane>): Bytes {
    if planes == [] then [] else Region(mem, planes[0].ptr, planes[0].size) + Packed(mem, planes[1..])
  }

  lemma {:induction false} PackedAppend(mem: Memory, planes: seq<Plane>, p: Plane)
    ensures Packed(mem, planes + [p]) == Packed(mem, planes) + Region(mem, p.ptr, p.size)
    decreases |planes|
  {
    if planes == [] {
      assert Packed(mem, [p]) == Region(mem, p.ptr, p.size) + [];
    } else {
      assert (planes + [p])[1..] == planes[1..] + [p];
      PackedAppend(mem, planes[1..], p);
    }
  }

  /** fromOwnedInfo's two loops: the planes' sizes summed, then each plane copied behind the ones before it. */
  method PackPlanes(mem: Memory, components: seq<Plane>) returns (buffer: array<Byte>)
    ensures fresh(buffer) && buffer[..] == Packed(mem, components)
  {
    var total := 0;
    for i := 0 to |components|
      invariant total == |Packed(mem, components[..i])|
    {
      assert components[..i + 1] == components[..i] + [components[i]];
      PackedAppend(mem, components[..i], components[i]);
      total := total + components[i].size;
    }
    assert components[..|components|] == components;
    buffer := new Byte[total](_ => 0);
    var offset := 0;
    for i := 0 to |components|
      invariant offset == |Packed(mem, components[..i])| <= total
      invariant buffer[..offset] == Packed(mem, components[..i])
    {
      var p := components[i];
      assert components[..i + 1] == components[..i] + [p];
      PackedAppend(mem, components[..i], p);
      PackedPrefix(mem, components, i + 1);
      CopyInto(buffer, offset, mem, p);
      offset := offset + p.size;
    }
  }

  lemma {:induction false} PackedPrefix(mem: Memory, planes: seq<Plane>, k: nat)
    requires k <= |planes|
    ensures |Packed(mem, planes[..k])| <= |Packed(mem, planes)|
    decreases |planes| - k
  {
    if k < |planes| {
      assert planes[..k + 1] == planes[..k] + [planes[k]];
      PackedAppend(mem, planes[..k], planes[k]);
      PackedPrefix(mem, planes, k + 1);
    } else {
      assert planes[..k] == planes;
    }
  }

  /** memcpy of one plane. */
  method CopyInto(buffer: array<Byte>, offset: nat, mem: Memory, p: Plane)
    requires offset + p.size <= buffer.Length
    modifies buffer
    ensures buffer[..offset] == old(buffer[..offset])
    ensures buffer[..offset + p.size] == old(buffer[..offset]) + Region(mem, p.ptr, p.size)
  {
    for k := 0 to p.size
      invariant buffer[..offset + k] == old(buffer[..offset]) + Region(mem, p.ptr, k)
    {
      ghost var before := buffer[..offset + k];
      buffer[offset + k] := mem(p.ptr + k);
      assert Region(mem, p.ptr, k + 1) == Region(mem, p.ptr, k) + [mem(p.ptr + k)];
      assert buffer[..offset + k + 1] == before + [mem(p.ptr + k)];
    }
    assert buffer[..offset] == buffer[..offset + p.size][..offset];
  }

  lemma {:induction false} PackedTiles(mem: Memory, planes: seq<Plane>, from: nat, to: nat)
    requires Tiles(planes, from, to)
    ensures from <= to && Packed(mem, planes) == Region(mem, from, to - from)
    decreases |planes|
  {
    if planes != [] {
      var p := planes[0];
      PackedTiles(mem, planes[1..], from + p.size, to);
      assert Region(mem, from, to - from) == Region(mem, from, p.size) + Region(mem, from + p.size, to - from - p.size);
    }
  }

  /** The planes' sizes add up to the format's total only if no plane's size wrapped. */
  lemma {:induction false} PackedLength(mem: Memory, base: nat, shapes: seq<Shape>)
    ensures |Packed(mem, Layout32(base, shapes))| <= TotalSize(shapes)
    ensures |Packed(mem, Layout32(base, shapes))| == TotalSize(shapes) ==> AllFit(shapes)
    decreases |shapes|
  {
    if shapes != [] {
      var s, rest := shapes[0], shapes[1..];
      var size := Mul32(s.stride, s.rows);
      PackedLength(mem, Add64(base, size), rest);
      assert Layout32(base, shapes)[1..] == Layout32(Add64(base, size), rest);
      WrappedIsLess(s);
      assert forall x | x in shapes :: x == s || x in rest;
      hide Mul32, Add64;
    }
  }

  lemma WrappedIsLess(s: Shape)
    ensures Mul32(s.stride, s.rows) <= s.Size()
    ensures Mul32(s.stride, s.rows) == s.Size() ==> s.Size() < WORD32
  {
  }

  /** Packing a frame's own planes back to back gives its buffer again if and only if every plane fits. */
  lemma PackingRestoresBufferIff(mem: Memory, base: nat, width: Dimension, height: Dimension, t: VideoBufferType)
    requires base > 0 && width > 0 && height > 0 && t != Unsupported
    ensures BufferSize(width, height, t).Ok?
    ensures var total := BufferSize(width, height, t).value;
            base + total <= WORD64 ==>
              (Packed(mem, PlaneInfos(base, width, height, t)) == Region(mem, base, total) <==>
               AllFit(Shapes(t, width, height)))
  {
    PlanesAreExactIff(base, width, height, t);
    BufferSizeIsExact(width, height, t);
    PackedLength(mem, base, Shapes(t, width, height));
    assert PlaneInfos(base, width, height, t) == Layout32(base, Shapes(t, width, height));
    hide Packed, Shapes, BufferSize, PlaneInfos, Layout32, Tiles, AllFit, TotalSize;
    var total := BufferSize(width, height, t).value;
    if base + total <= WORD64 && AllFit(Shapes(t, width, height)) {
      PackedTiles(mem, PlaneInfos(base, width, height, t), base, base + total);
    }
  }
}
