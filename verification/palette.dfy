/** The block palette of src/Loader.js: `setBaseMesh` resolves an integer type
    code to a primitive solid and `setMeshRotation` resolves an integer rotation
    code to a quarter turn about one axis. Both are total: an unknown code falls
    back to a default instead of failing. */
module Palette {
  import opened Common

  /** The arguments the loader hands to the rendering library's box, cone and
      cylinder geometry constructors. Arguments the loader omits carry the
      library's documented defaults. */
  datatype Shape =
    | Box(width: real, height: real, depth: real)
    | Cone(radius: real, height: real, radialSegments: nat, heightSegments: nat,
           openEnded: bool, thetaStart: real)
    | Cylinder(radiusTop: real, radiusBottom: real, height: real, radialSegments: nat,
               heightSegments: nat, openEnded: bool, thetaStart: real)

  /** Circumradius of a unit square, so that a four-sided cone has a 1x1 base. */
  const HalfDiagonal: real := 0.707106
  /** Circumradius of a half-unit square. */
  const QuarterDiagonal: real := 0.353553
  /** Start angle that turns a four-sided cone so its base edges are axis-aligned. */
  const EighthTurn: real := 0.7853982
  /** The zero-size placeholder returned for every unknown type code. */
  const EmptyBox: Shape := Box(0.0, 0.0, 0.0)

  /** A solid that encloses no volume. */
  predicate Degenerate(s: Shape) {
    match s
    case Box(w, h, d) => w == 0.0 || h == 0.0 || d == 0.0
    case Cone(r, h, _, _, _, _) => r == 0.0 || h == 0.0
    case Cylinder(rt, rb, h, _, _, _, _) => (rt == 0.0 && rb == 0.0) || h == 0.0
  }

  predicate IsPaletteCode(code: int) {
    0 <= code <= 5
  }

  /** setBaseMesh: cube, square pyramid, flat-top frustum, half-width block,
      cylinder, half-width pyramid; anything else is the empty box. */
  function BaseMesh(code: int): (s: Shape)
    ensures IsPaletteCode(code) <==> !Degenerate(s)
    ensures !IsPaletteCode(code) ==> s == EmptyBox
  {
    match code
    case 0 => Box(1.0, 1.0, 1.0)
    case 1 => Cone(HalfDiagonal, 1.0, 4, 1, false, EighthTurn)
    case 2 => Cylinder(HalfDiagonal, QuarterDiagonal, 1.0, 4, 1, false, EighthTurn)
    case 3 => Box(0.5, 0.5, 1.0)
    case 4 => Cylinder(0.5, 0.5, 1.0, 8, 1, false, 0.0)
    case 5 => Cone(QuarterDiagonal, 1.0, 4, 1, false, EighthTurn)
    case _ => EmptyBox
  }

  /** Reads a descriptor back as the palette code that produces it, if any. */
  function ShapeCode(s: Shape): (r: Option<int>)
    ensures r.Some? ==> IsPaletteCode(r.value) && BaseMesh(r.value) == s
    ensures r.None? ==> forall code :: IsPaletteCode(code) ==> BaseMesh(code) != s
  {
    if s == Box(1.0, 1.0, 1.0) then Some(0)
    else if s == Cone(HalfDiagonal, 1.0, 4, 1, false, EighthTurn) then Some(1)
    else if s == Cylinder(HalfDiagonal, QuarterDiagonal, 1.0, 4, 1, false, EighthTurn) then Some(2)
    else if s == Box(0.5, 0.5, 1.0) then Some(3)
    else if s == Cylinder(0.5, 0.5, 1.0, 8, 1, false, 0.0) then Some(4)
    else if s == Cone(QuarterDiagonal, 1.0, 4, 1, false, EighthTurn) then Some(5)
    else None
  }

  /** Every palette code is recovered from its descriptor, and every other code
      yields a descriptor that no palette code yields: the six entries are
      pairwise distinct and distinct from the placeholder. */
  lemma ShapeCodeRoundTrip(code: int)
    ensures IsPaletteCode(code) ==> ShapeCode(BaseMesh(code)) == Some(code)
    ensures !IsPaletteCode(code) ==> ShapeCode(BaseMesh(code)) == None
  {
  }

  /** Two codes give the same descriptor exactly when both are palette codes and
      equal, or both fall back to the placeholder. */
  lemma BaseMeshInjective(c1: int, c2: int)
    ensures BaseMesh(c1) == BaseMesh(c2) <==>
              (c1 == c2 || (!IsPaletteCode(c1) && !IsPaletteCode(c2)))
  {
    ShapeCodeRoundTrip(c1);
    ShapeCodeRoundTrip(c2);
  }

  // ---------------------------------------------------------------------------
  // Rotations

  datatype Axis = X | Y | Z

  /** A single rotation by `angle` radians about one coordinate axis. */
  datatype Rotation = Rotation(axis: Axis, angle: real)

  /** The loader's literal for a quarter turn (pi/2 to six decimals). */
  const QuarterTurn: real := 1.570796

  /** The rotation code the switch falls back to for every unlisted value. */
  const DefaultRotationCode: int := 5

  /** The rotation that undoes `r`. */
  function Inverse(r: Rotation): Rotation {
    Rotation(r.axis, -r.angle)
  }

  /** setMeshRotation: codes 0/1 turn about X, 2/3 about Y, 4 about Z, even codes
      positively and odd codes negatively; any other code turns -90 degrees about Z. */
  function MeshRotation(code: int): (r: Rotation)
    ensures r.angle == QuarterTurn || r.angle == -QuarterTurn
    ensures code in {0, 1} ==> r.axis == X
    ensures code in {2, 3} ==> r.axis == Y
    ensures code in {0, 2, 4} <==> r.angle == QuarterTurn
    ensures !(0 <= code <= 4) ==> r == Rotation(Z, -QuarterTurn)
  {
    match code
    case 0 => Rotation(X, QuarterTurn)
    case 1 => Rotation(X, -QuarterTurn)
    case 2 => Rotation(Y, QuarterTurn)
    case 3 => Rotation(Y, -QuarterTurn)
    case 4 => Rotation(Z, QuarterTurn)
    case _ => Rotation(Z, -QuarterTurn)
  }

  /** Reads a rotation back as the canonical code (0..5) that produces it. */
  function RotationCode(r: Rotation): (c: Option<int>)
    ensures c.Some? ==> 0 <= c.value <= 5 && MeshRotation(c.value) == r
    ensures c.None? ==> forall code :: MeshRotation(code) != r
  {
    var positive := r.angle == QuarterTurn;
    var negative := r.angle == -QuarterTurn;
    match r.axis
    case X => if positive then Some(0) else if negative then Some(1) else None
    case Y => if positive then Some(2) else if negative then Some(3) else None
    case Z => if positive then Some(4) else if negative then Some(5) else None
  }

  /** Each code maps to the rotation of its canonical code: itself for 0..5,
      and the default for everything else. */
  lemma RotationCodeRoundTrip(code: int)
    ensures RotationCode(MeshRotation(code)) ==
              Some(if 0 <= code <= 5 then code else DefaultRotationCode)
  {
  }

  /** The codes pair up as mutual inverses: 0 undoes 1, 2 undoes 3, 4 undoes 5
      (and so every unlisted code). */
  lemma PairedCodesAreInverse(code: int)
    requires code in {0, 2, 4}
    ensures Inverse(MeshRotation(code)) == MeshRotation(code + 1)
    ensures Inverse(MeshRotation(code + 1)) == MeshRotation(code)
    ensures MeshRotation(code).axis == MeshRotation(code + 1).axis
    ensures MeshRotation(code).axis == (if code == 0 then X else if code == 2 then Y else Z)
    ensures MeshRotation(code).angle == QuarterTurn
  {
  }
}
