/** Light and camera placement of src/Loader.js: `addLights` puts four side
    lights at the corners of a square around the scene and one light overhead,
    with intensities that fall off towards radius 12 and height 12; `addCamera`
    places the camera behind and above the scene, looking at the origin. */
module Staging {
  import opened Common
  import Island

  datatype Vec3 = Vec3(x: real, y: real, z: real)

  /** A point light: colour (a 24-bit RGB number), intensity and position. */
  datatype PointLight = PointLight(color: int, intensity: real, position: Vec3)

  /** The four side lights in creation order, and the top light. */
  datatype LightRig = LightRig(sides: seq<PointLight>, top: PointLight)

  /** The radius and height a placement is computed from. */
  datatype Placement = Placement(radius: real, height: real)

  datatype Sign = Plus | Minus

  function Signed(s: Sign, a: real): real {
    match s
    case Plus => a
    case Minus => -a
  }

  /** The side-light position in the quadrant picked by the two signs. */
  function Corner(sx: Sign, sz: Sign, reach: real, y: real): Vec3 {
    Vec3(Signed(sx, reach), y, Signed(sz, reach))
  }

  function Positions(lights: seq<PointLight>): seq<Vec3> {
    seq(|lights|, i requires 0 <= i < |lights| => lights[i].position)
  }

  /** Intensity 0.05 * |12 - x|: dark at 12, brighter farther from it. */
  function FalloffIntensity(x: real): (r: real)
    ensures 0.0 <= r
    ensures r == 0.0 <==> x == 12.0
  {
    0.05 * Abs(12.0 - x)
  }

  /** Radii (or heights) equally far either side of 12 light equally. */
  lemma FalloffSymmetric(d: real)
    ensures FalloffIntensity(12.0 + d) == FalloffIntensity(12.0 - d)
  {
  }

  /** addLights: the side lights sit at reach 1 + radius on both horizontal axes
      at height 1 + height / 2; the top light sits at height 2 + height. */
  function AddLights(color: int, radius: real, height: real): (rig: LightRig)
    ensures |rig.sides| == 4
    ensures forall i :: 0 <= i < 4 ==>
              && rig.sides[i].color == color
              && rig.sides[i].intensity == FalloffIntensity(radius)
              && rig.sides[i].position.y == 1.0 + height / 2.0
    ensures var reach, y := 1.0 + radius, 1.0 + height / 2.0;
            forall sx, sz :: Corner(sx, sz, reach, y) in Positions(rig.sides)
    ensures var reach, y := 1.0 + radius, 1.0 + height / 2.0;
            forall i :: 0 <= i < |rig.sides| ==>
              exists sx, sz :: rig.sides[i].position == Corner(sx, sz, reach, y)
    ensures rig.top == PointLight(color, FalloffIntensity(height), Vec3(0.0, 2.0 + height, 0.0))
  {
    var intensity := FalloffIntensity(radius);
    var x := 1.0 + radius;
    var y := 1.0 + height / 2.0;
    var z := 1.0 + radius;
    var sides := [
      PointLight(color, intensity, Vec3(x, y, z)),
      PointLight(color, intensity, Vec3(-x, y, -z)),
      PointLight(color, intensity, Vec3(x, y, -z)),
      PointLight(color, intensity, Vec3(-x, y, z))
    ];
    assert Positions(sides) == [Corner(Plus, Plus, x, y), Corner(Minus, Minus, x, y),
                                Corner(Plus, Minus, x, y), Corner(Minus, Plus, x, y)];
    LightRig(sides, PointLight(color, FalloffIntensity(height), Vec3(0.0, 2.0 + height, 0.0)))
  }

  /** Unless the reach is zero, the four side lights occupy four distinct
      corners: one light per quadrant. */
  lemma SideLightsDistinct(color: int, radius: real, height: real)
    requires radius != -1.0
    ensures var p := Positions(AddLights(color, radius, height).sides);
            forall i, j :: 0 <= i < j < 4 ==> p[i] != p[j]
  {
  }

  /** Mirroring a side light across either vertical axis plane lands on
      another side light. */
  lemma SideLightsMirrorSymmetric(color: int, radius: real, height: real, i: int)
    requires 0 <= i < 4
    ensures var p := Positions(AddLights(color, radius, height).sides);
            && Vec3(-p[i].x, p[i].y, p[i].z) in p
            && Vec3(p[i].x, p[i].y, -p[i].z) in p
  {
    var p := Positions(AddLights(color, radius, height).sides);
    var a := 1.0 + radius;
    var y := 1.0 + height / 2.0;
    assert p == [Vec3(a, y, a), Vec3(-a, y, -a), Vec3(a, y, -a), Vec3(-a, y, a)];
  }

  /** The rig's parameters are recoverable: reach from a side light, height
      from the top light. */
  function RigParameters(rig: LightRig): Placement
    requires |rig.sides| > 0
  {
    Placement(rig.sides[0].position.x - 1.0, rig.top.position.y - 2.0)
  }

  lemma RigParametersRoundTrip(color: int, radius: real, height: real)
    ensures RigParameters(AddLights(color, radius, height)) == Placement(radius, height)
  {
  }

  /** addCamera: on the positive z side, 8 + radius out and 4 + height / 12 up. */
  function AddCamera(radius: real, height: real): (position: Vec3)
    ensures position.x == 0.0
    ensures CameraParameters(position) == Placement(radius, height)
  {
    Vec3(0.0, 4.0 + height / 12.0, 8.0 + radius)
  }

  /** Reads a camera position back as the radius and height that place it. */
  function CameraParameters(position: Vec3): Placement {
    Placement(position.z - 8.0, 12.0 * (position.y - 4.0))
  }

  /** Every position on the x = 0 plane is where addCamera puts the camera for
      exactly one radius and height. */
  lemma CameraPlacementRoundTrip(position: Vec3)
    requires position.x == 0.0
    ensures var placement := CameraParameters(position);
            AddCamera(placement.radius, placement.height) == position
  {
  }

  // ---------------------------------------------------------------------------
  // The island scene

  /** createIsland stages the island with lights at 1.2 and the camera at 1.5
      times the grass radius, heights 2 and 24, and white light. */
  const White: int := 0xffffff
  const IslandLightRadius: real := Island.GrassRadius * 1.2
  const IslandLightHeight: real := 2.0
  const IslandCameraRadius: real := Island.GrassRadius * 1.5
  const IslandCameraHeight: real := 24.0

  lemma IslandStaging()
    ensures AddCamera(IslandCameraRadius, IslandCameraHeight) == Vec3(0.0, 6.0, 26.0)
    ensures var rig := AddLights(White, IslandLightRadius, IslandLightHeight);
            && Positions(rig.sides) == [Vec3(15.4, 2.0, 15.4), Vec3(-15.4, 2.0, -15.4),
                                        Vec3(15.4, 2.0, -15.4), Vec3(-15.4, 2.0, 15.4)]
            && rig.sides[0].intensity == 0.12
            && rig.top == PointLight(White, 0.5, Vec3(0.0, 4.0, 0.0))
  {
  }

  /** Whatever the draws, the camera stands farther from the island axis than
      any point of the island's outlines. */
  lemma CameraOutsideIsland(s: Island.Sample, sqrt: real -> real)
    requires Island.ValidSample(s) && Island.IsSqrt(sqrt)
    ensures Island.Distance(sqrt, Island.SampleColumn(s, sqrt).grass)
              < AddCamera(IslandCameraRadius, IslandCameraHeight).z
    ensures Island.Distance(sqrt, Island.SampleColumn(s, sqrt).dirt)
              < AddCamera(IslandCameraRadius, IslandCameraHeight).z
    ensures Island.Distance(sqrt, Island.SampleColumn(s, sqrt).stone)
              < AddCamera(IslandCameraRadius, IslandCameraHeight).z
  {
    Island.StoneWithinMaxRadius(s, sqrt);
  }
}
