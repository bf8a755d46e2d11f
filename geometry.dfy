/**
 * Integer window geometry of src/window/data.rs: `PhysicalPosition` (two i32
 * coordinates), `PhysicalSize` (two u32 extents), their tuple and array
 * conversions, and the `Position`/`Size` unions of a logical (floating-point)
 * and a physical value.
 *
 * Rust arrays `[T; 2]` are sequences of length two. Logical values carry
 * `real` coordinates; the floating-point scaling between the two kinds is not
 * modelled and enters the conversions as a function parameter.
 */
module Geometry {
  import opened Bits

  datatype PhysicalPosition = PhysicalPosition(x: i32, y: i32)

  datatype PhysicalSize = PhysicalSize(width: u32, height: u32)

  datatype LogicalPosition = LogicalPosition(x: real, y: real)

  datatype LogicalSize = LogicalSize(width: real, height: real)

  datatype Position = LogicalPos(logical: LogicalPosition) | PhysicalPos(physical: PhysicalPosition)

  datatype Size = LogicalSz(logical: LogicalSize) | PhysicalSz(physical: PhysicalSize)

  /** The default position is the origin. */
  function DefaultPosition(): (p: PhysicalPosition)
    ensures IsZero(p)
  {
    PhysicalPosition(0, 0)
  }

  function IsPositive(p: PhysicalPosition): (r: bool)
    ensures r ==> !IsNegative(p) && !IsZero(p)
  {
    p.x > 0 && p.y > 0
  }

  function IsNegative(p: PhysicalPosition): (r: bool)
    ensures r ==> !IsZero(p)
  {
    p.x < 0 && p.y < 0
  }

  /** `is_zero`: the position is the origin, the default position. */
  function IsZero(p: PhysicalPosition): (r: bool)
    ensures r <==> p == PhysicalPosition(0, 0)
  {
    p.x == 0 && p.y == 0
  }

  /** Each sign test holds of some position and fails on another. */
  lemma PositionSignsWitnessed()
    ensures IsPositive(PhysicalPosition(1, 1)) && !IsPositive(PhysicalPosition(1, 0))
    ensures IsNegative(PhysicalPosition(-1, -1)) && !IsNegative(PhysicalPosition(-1, 1))
  {
  }

  /** The all-zero test holds of the empty size and is stricter than the any-zero test. */
  lemma SizeZeroTestsWitnessed()
    ensures IsAllZero(PhysicalSize(0, 0)) && !IsAllZero(PhysicalSize(0, 1)) && IsAnyZero(PhysicalSize(0, 1))
  {
  }

  /** `is_any_zero`: the size covers no area. */
  function IsAnyZero(s: PhysicalSize): (r: bool)
    ensures r <==> s.width * s.height == 0
  {
    s.width == 0 || s.height == 0
  }

  function IsAllZero(s: PhysicalSize): (r: bool)
    ensures r ==> IsAnyZero(s)
  {
    s.width == 0 && s.height == 0
  }

  // PhysicalPosition <-> (i32, i32) and [i32; 2].

  function PositionFromPair(t: (i32, i32)): (p: PhysicalPosition)
    ensures p.x == t.0 && p.y == t.1
  {
    PhysicalPosition(t.0, t.1)
  }

  function PositionToPair(p: PhysicalPosition): (t: (i32, i32))
    ensures t.0 == p.x && t.1 == p.y
  {
    (p.x, p.y)
  }

  function PositionFromArray(a: seq<i32>): (p: PhysicalPosition)
    requires |a| == 2
    ensures p.x == a[0] && p.y == a[1]
  {
    PhysicalPosition(a[0], a[1])
  }

  function PositionToArray(p: PhysicalPosition): (a: seq<i32>)
    ensures |a| == 2 && a[0] == p.x && a[1] == p.y
  {
    [p.x, p.y]
  }

  /** `(u32, u32)::from(pos)`: each coordinate reinterpreted as unsigned; no bit is lost. */
  function PositionToUnsignedPair(p: PhysicalPosition): (t: (u32, u32))
    ensures WrapI32(t.0) == p.x && WrapI32(t.1) == p.y
    ensures p.x >= 0 ==> t.0 == p.x
    ensures p.y >= 0 ==> t.1 == p.y
    ensures p.x < 0 ==> t.0 == p.x + 0x1_0000_0000
  {
    (WrapU32(p.x), WrapU32(p.y))
  }

  /** `[u32; 2]::from(pos)`: the same reinterpretation as the pair form. */
  function PositionToUnsignedArray(p: PhysicalPosition): (a: seq<u32>)
    ensures |a| == 2
    ensures WrapI32(a[0]) == p.x && WrapI32(a[1]) == p.y
  {
    [WrapU32(p.x), WrapU32(p.y)]
  }

  lemma PositionPairRoundTrip(p: PhysicalPosition, t: (i32, i32))
    ensures PositionFromPair(PositionToPair(p)) == p
    ensures PositionToPair(PositionFromPair(t)) == t
  {
  }

  lemma PositionArrayRoundTrip(p: PhysicalPosition, a: seq<i32>)
    requires |a| == 2
    ensures PositionFromArray(PositionToArray(p)) == p
    ensures PositionToArray(PositionFromArray(a)) == a
  {
  }

  // PhysicalSize <-> (u32, u32) and [u32; 2].

  function SizeFromPair(t: (u32, u32)): (s: PhysicalSize)
    ensures s.width == t.0 && s.height == t.1
  {
    PhysicalSize(t.0, t.1)
  }

  function SizeToPair(s: PhysicalSize): (t: (u32, u32))
    ensures t.0 == s.width && t.1 == s.height
  {
    (s.width, s.height)
  }

  function SizeFromArray(a: seq<u32>): (s: PhysicalSize)
    requires |a| == 2
    ensures s.width == a[0] && s.height == a[1]
  {
    PhysicalSize(a[0], a[1])
  }

  function SizeToArray(s: PhysicalSize): (a: seq<u32>)
    ensures |a| == 2 && a[0] == s.width && a[1] == s.height
  {
    [s.width, s.height]
  }

  /** `(i32, i32)::from(size)`: each extent reinterpreted as signed; no bit is lost. */
  function SizeToSignedPair(s: PhysicalSize): (t: (i32, i32))
    ensures WrapU32(t.0) == s.width && WrapU32(t.1) == s.height
    ensures s.width < 0x8000_0000 ==> t.0 == s.width
    ensures s.height < 0x8000_0000 ==> t.1 == s.height
    ensures s.width >= 0x8000_0000 ==> t.0 < 0
  {
    (WrapI32(s.width), WrapI32(s.height))
  }

  /** `[i32; 2]::from(size)`: the same reinterpretation as the pair form. */
  function SizeToSignedArray(s: PhysicalSize): (a: seq<i32>)
    ensures |a| == 2
    ensures WrapU32(a[0]) == s.width && WrapU32(a[1]) == s.height
  {
    [WrapI32(s.width), WrapI32(s.height)]
  }

  lemma SizePairRoundTrip(s: PhysicalSize, t: (u32, u32))
    ensures SizeFromPair(SizeToPair(s)) == s
    ensures SizeToPair(SizeFromPair(t)) == t
  {
  }

  lemma SizeArrayRoundTrip(s: PhysicalSize, a: seq<u32>)
    requires |a| == 2
    ensures SizeFromArray(SizeToArray(s)) == s
    ensures SizeToArray(SizeFromArray(a)) == a
  {
  }

  // The Position and Size unions. `scaleUp`/`scaleDown` stand for the
  // floating-point conversions between the logical and the physical kind.

  function PositionAsLogical(p: Position, scaleFactor: real,
                             scaleDown: (PhysicalPosition, real) -> LogicalPosition): (r: LogicalPosition)
    ensures p.LogicalPos? ==> r == p.logical
  {
    match p
    case LogicalPos(l) => l
    case PhysicalPos(q) => scaleDown(q, scaleFactor)
  }

  function PositionAsPhysical(p: Position, scaleFactor: real,
                              scaleUp: (LogicalPosition, real) -> PhysicalPosition): (r: PhysicalPosition)
    ensures p.PhysicalPos? ==> r == p.physical
  {
    match p
    case LogicalPos(l) => scaleUp(l, scaleFactor)
    case PhysicalPos(q) => q
  }

  function SizeAsLogical(s: Size, scaleFactor: real,
                         scaleDown: (PhysicalSize, real) -> LogicalSize): (r: LogicalSize)
    ensures s.LogicalSz? ==> r == s.logical
  {
    match s
    case LogicalSz(l) => l
    case PhysicalSz(q) => scaleDown(q, scaleFactor)
  }

  function SizeAsPhysical(s: Size, scaleFactor: real,
                          scaleUp: (LogicalSize, real) -> PhysicalSize): (r: PhysicalSize)
    ensures s.PhysicalSz? ==> r == s.physical
  {
    match s
    case LogicalSz(l) => scaleUp(l, scaleFactor)
    case PhysicalSz(q) => q
  }

  /** `Position::from((i32, i32))` is the physical position of that pair, whatever the scale factor. */
  lemma PositionFromPairIsPhysical(t: (i32, i32), scaleFactor: real,
                                   scaleUp: (LogicalPosition, real) -> PhysicalPosition)
    ensures PositionAsPhysical(PhysicalPos(PositionFromPair(t)), scaleFactor, scaleUp) == PhysicalPosition(t.0, t.1)
  {
  }
}
