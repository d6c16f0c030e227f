/**
 * LVRGridCube: a diagnostic grid of cubes toggled by the F key. The grid
 * spans the integer cells [-6,6] x [-4,4] x [-6,6]; the centre cube, the
 * cubes on the three axes and the others differ in colour and size, and
 * the non-axis cubes turn blue while the headset is not position-tracked.
 *
 * A cube is its grid cell (its position is the cell times the grid scale,
 * 0.3), its material colour and its local scale. The key reading and the
 * tracker's isPositionTracked are parameters of UpdateCubeGrid; the
 * warnings printed and the button string sent to LVR3DText are entries of
 * a log. The GameObject under which the cubes are created is the `cubes`
 * field, and `gridExists` says whether it is non-null. Of the camera rig
 * only whether it is null matters (`controllerSet`): creating the grid
 * reads its layer.
 */
module GridCube {

  const GridSizeX: int := 6
  const GridSizeY: int := 4
  const GridSizeZ: int := 6
  const CubeScale: real := 0.03

  /** The material colours the component uses. */
  datatype Color = Red | White | Yellow | Blue

  datatype Cube = Cube(x: int, y: int, z: int, color: Color, scale: real)

  /** What the component prints (Debug.LogWarning) or hands to LVR3DText. */
  datatype LogEntry = Warning(message: string) | ButtonString(text: string)

  // ---------------------------------------------------------------------
  // Cube classification
  // ---------------------------------------------------------------------

  /** How many of the three coordinates are zero. */
  function ZeroCount(x: int, y: int, z: int): nat
  {
    (if x == 0 then 1 else 0) + (if y == 0 then 1 else 0) + (if z == 0 then 1 else 0)
  }

  /** The cube type: 2 for the centre cube, 1 for an axis cube, 0 for any other. */
  function CubeType(x: int, y: int, z: int): (t: int)
    ensures t == 2 <==> ZeroCount(x, y, z) == 3
    ensures t == 1 <==> ZeroCount(x, y, z) == 2
    ensures t == 0 <==> ZeroCount(x, y, z) <= 1
  {
    if (x == 0 && y == 0) || (x == 0 && z == 0) || (y == 0 && z == 0) then
      if x == 0 && y == 0 && z == 0 then 2 else 1
    else 0
  }

  /** The material colour a new cube of type `t` gets. */
  function CubeColor(t: int): Color
  {
    if t == 0 then Red else if t == 1 then White else Yellow
  }

  /** The size factor of a cube of type `t`: axis cubes are bigger, the centre cube the largest. */
  function ScaleFactor(t: int): real
  {
    if t == 2 then 2.0 else if t == 1 then 1.0 else 0.7
  }

  /** The cube the grid gets at cell (x, y, z). */
  function MakeCube(x: int, y: int, z: int): Cube
  {
    var t := CubeType(x, y, z);
    Cube(x, y, z, CubeColor(t), CubeScale * ScaleFactor(t))
  }

  /** The centre cube is yellow and twice the size, axis cubes white and full size, the others red at 0.7. */
  lemma CubeAppearance(x: int, y: int, z: int)
    ensures var c := MakeCube(x, y, z);
      && (ZeroCount(x, y, z) == 3 ==> c.color == Yellow && c.scale == CubeScale * 2.0)
      && (ZeroCount(x, y, z) == 2 ==> c.color == White && c.scale == CubeScale * 1.0)
      && (ZeroCount(x, y, z) <= 1 ==> c.color == Red && c.scale == CubeScale * 0.7)
  {
  }

  // ---------------------------------------------------------------------
  // The grid the triple loop builds
  // ---------------------------------------------------------------------

  /** The cubes of row (x, y) for z from -GridSizeZ up to, not including, `z`. */
  function RowTo(x: int, y: int, z: int): seq<Cube>
    decreases z + GridSizeZ
  {
    if z <= -GridSizeZ then [] else RowTo(x, y, z - 1) + [MakeCube(x, y, z - 1)]
  }

  /** The full rows of plane x for y from -GridSizeY up to, not including, `y`. */
  function PlaneTo(x: int, y: int): seq<Cube>
    decreases y + GridSizeY
  {
    if y <= -GridSizeY then [] else PlaneTo(x, y - 1) + RowTo(x, y - 1, GridSizeZ + 1)
  }

  /** The full planes for x from -GridSizeX up to, not including, `x`. */
  function GridTo(x: int): seq<Cube>
    decreases x + GridSizeX
  {
    if x <= -GridSizeX then [] else GridTo(x - 1) + PlaneTo(x - 1, GridSizeY + 1)
  }

  /** The children of a newly created grid, in creation order. */
  function FullGrid(): seq<Cube>
  {
    GridTo(GridSizeX + 1)
  }

  /** The position of cell z within a row. */
  function RowPos(z: int): int
  {
    z + GridSizeZ
  }

  /** The position of cell (y, z) within a plane: 13 cubes per row. */
  function PlanePos(y: int, z: int): int
  {
    13 * (y + GridSizeY) + RowPos(z)
  }

  /** The position of cell (x, y, z) within the grid: 9 rows of 13 per plane. */
  function GridPos(x: int, y: int, z: int): int
  {
    117 * (x + GridSizeX) + PlanePos(y, z)
  }

  lemma {:induction false} RowIndex(x: int, y: int, z: int)
    requires -GridSizeZ <= z
    ensures |RowTo(x, y, z)| == z + GridSizeZ
    ensures forall cz :: -GridSizeZ <= cz < z ==> RowTo(x, y, z)[RowPos(cz)] == MakeCube(x, y, cz)
    decreases z + GridSizeZ
  {
    if z > -GridSizeZ {
      RowIndex(x, y, z - 1);
    }
  }

  lemma {:induction false} PlaneIndex(x: int, y: int)
    requires -GridSizeY <= y
    ensures |PlaneTo(x, y)| == 13 * (y + GridSizeY)
    ensures forall cy, cz :: -GridSizeY <= cy < y && -GridSizeZ <= cz <= GridSizeZ ==>
      PlaneTo(x, y)[PlanePos(cy, cz)] == MakeCube(x, cy, cz)
    decreases y + GridSizeY
  {
    if y > -GridSizeY {
      PlaneIndex(x, y - 1);
      RowIndex(x, y - 1, GridSizeZ + 1);
      var front := PlaneTo(x, y - 1);
      var row := RowTo(x, y - 1, GridSizeZ + 1);
      forall cy, cz | -GridSizeY <= cy < y && -GridSizeZ <= cz <= GridSizeZ
        ensures PlaneTo(x, y)[PlanePos(cy, cz)] == MakeCube(x, cy, cz)
      {
        if cy < y - 1 {
          assert (front + row)[PlanePos(cy, cz)] == front[PlanePos(cy, cz)];
        } else {
          assert (front + row)[PlanePos(cy, cz)] == row[RowPos(cz)];
        }
      }
    }
  }

  lemma {:induction false} GridIndex(x: int)
    requires -GridSizeX <= x
    ensures |GridTo(x)| == 117 * (x + GridSizeX)
    ensures forall cx, cy, cz :: -GridSizeX <= cx < x && -GridSizeY <= cy <= GridSizeY && -GridSizeZ <= cz <= GridSizeZ ==>
      GridTo(x)[GridPos(cx, cy, cz)] == MakeCube(cx, cy, cz)
    decreases x + GridSizeX
  {
    if x > -GridSizeX {
      GridIndex(x - 1);
      PlaneIndex(x - 1, GridSizeY + 1);
      var front := GridTo(x - 1);
      var plane := PlaneTo(x - 1, GridSizeY + 1);
      forall cx, cy, cz | -GridSizeX <= cx < x && -GridSizeY <= cy <= GridSizeY && -GridSizeZ <= cz <= GridSizeZ
        ensures GridTo(x)[GridPos(cx, cy, cz)] == MakeCube(cx, cy, cz)
      {
        if cx < x - 1 {
          assert (front + plane)[GridPos(cx, cy, cz)] == front[GridPos(cx, cy, cz)];
        } else {
          assert (front + plane)[GridPos(cx, cy, cz)] == plane[PlanePos(cy, cz)];
        }
      }
    }
  }

  /**
   * The grid holds 13 * 9 * 13 = 1521 cubes, and cell (x, y, z) of the box
   * is the cube at position GridPos(x, y, z): the triple loop creates one
   * cube per cell, each exactly once, in x-major order.
   */
  lemma GridCells()
    ensures |FullGrid()| == 1521
    ensures forall x, y, z :: -GridSizeX <= x <= GridSizeX && -GridSizeY <= y <= GridSizeY && -GridSizeZ <= z <= GridSizeZ ==>
      FullGrid()[GridPos(x, y, z)] == MakeCube(x, y, z)
  {
    GridIndex(GridSizeX + 1);
    forall x, y, z | -GridSizeX <= x <= GridSizeX && -GridSizeY <= y <= GridSizeY && -GridSizeZ <= z <= GridSizeZ
      ensures FullGrid()[GridPos(x, y, z)] == MakeCube(x, y, z)
    {
      assert GridTo(GridSizeX + 1)[GridPos(x, y, z)] == MakeCube(x, y, z);
    }
  }

  /** Distinct cells have distinct positions, all within the grid. */
  lemma GridPosInjective(x: int, y: int, z: int, x': int, y': int, z': int)
    requires -GridSizeX <= x <= GridSizeX && -GridSizeY <= y <= GridSizeY && -GridSizeZ <= z <= GridSizeZ
    requires -GridSizeX <= x' <= GridSizeX && -GridSizeY <= y' <= GridSizeY && -GridSizeZ <= z' <= GridSizeZ
    ensures 0 <= GridPos(x, y, z) < 1521
    ensures GridPos(x, y, z) == GridPos(x', y', z') ==> x == x' && y == y' && z == z'
  {
  }

  /** The number of cubes of `s` whose cell has type `t`. */
  function CountType(s: seq<Cube>, t: int): nat
  {
    if s == [] then 0
    else CountType(s[..|s| - 1], t) + (if CubeType(s[|s| - 1].x, s[|s| - 1].y, s[|s| - 1].z) == t then 1 else 0)
  }

  lemma {:induction false} CountTypeAppend(a: seq<Cube>, b: seq<Cube>, t: int)
    ensures CountType(a + b, t) == CountType(a, t) + CountType(b, t)
    decreases |b|
  {
    if b == [] {
      assert a + b == a;
    } else {
      assert (a + b)[..|a + b| - 1] == a + b[..|b| - 1];
      CountTypeAppend(a, b[..|b| - 1], t);
    }
  }

  lemma {:induction false} RowCounts(x: int, y: int, z: int)
    requires -GridSizeZ <= z
    ensures CountType(RowTo(x, y, z), 2) == (if x == 0 && y == 0 && z > 0 then 1 else 0)
    ensures CountType(RowTo(x, y, z), 1) ==
      if x == 0 && y == 0 then z + GridSizeZ - (if z > 0 then 1 else 0)
      else if x == 0 || y == 0 then (if z > 0 then 1 else 0)
      else 0
    decreases z + GridSizeZ
  {
    if z > -GridSizeZ {
      var s := RowTo(x, y, z);
      assert s[..|s| - 1] == RowTo(x, y, z - 1);
      RowCounts(x, y, z - 1);
    }
  }

  lemma {:induction false} PlaneCounts(x: int, y: int)
    requires -GridSizeY <= y
    ensures CountType(PlaneTo(x, y), 2) == (if x == 0 && y > 0 then 1 else 0)
    ensures CountType(PlaneTo(x, y), 1) ==
      if x == 0 then y + GridSizeY - (if y > 0 then 1 else 0) + (if y > 0 then 12 else 0)
      else (if y > 0 then 1 else 0)
    decreases y + GridSizeY
  {
    if y > -GridSizeY {
      PlaneCounts(x, y - 1);
      RowCounts(x, y - 1, GridSizeZ + 1);
      CountTypeAppend(PlaneTo(x, y - 1), RowTo(x, y - 1, GridSizeZ + 1), 1);
      CountTypeAppend(PlaneTo(x, y - 1), RowTo(x, y - 1, GridSizeZ + 1), 2);
    }
  }

  lemma {:induction false} GridCounts(x: int)
    requires -GridSizeX <= x
    ensures CountType(GridTo(x), 2) == (if x > 0 then 1 else 0)
    ensures CountType(GridTo(x), 1) == x + GridSizeX - (if x > 0 then 1 else 0) + (if x > 0 then 20 else 0)
    decreases x + GridSizeX
  {
    if x > -GridSizeX {
      GridCounts(x - 1);
      PlaneCounts(x - 1, GridSizeY + 1);
      CountTypeAppend(GridTo(x - 1), PlaneTo(x - 1, GridSizeY + 1), 1);
      CountTypeAppend(GridTo(x - 1), PlaneTo(x - 1, GridSizeY + 1), 2);
    }
  }

  /** Of the 1521 cubes, one is the centre cube and 32 are axis cubes. */
  lemma GridTypeCounts()
    ensures CountType(FullGrid(), 2) == 1
    ensures CountType(FullGrid(), 1) == 32
  {
    GridCounts(GridSizeX + 1);
  }

  /** Every cube of the grid is the one MakeCube builds for its own cell. */
  lemma {:induction false} GridMade(x: int)
    ensures forall n :: 0 <= n < |GridTo(x)| ==>
      var c := GridTo(x)[n]; c == MakeCube(c.x, c.y, c.z)
    decreases x + GridSizeX
  {
    if x > -GridSizeX {
      GridMade(x - 1);
      PlaneMade(x - 1, GridSizeY + 1);
    }
  }

  lemma {:induction false} PlaneMade(x: int, y: int)
    ensures forall n :: 0 <= n < |PlaneTo(x, y)| ==>
      var c := PlaneTo(x, y)[n]; c == MakeCube(c.x, c.y, c.z)
    decreases y + GridSizeY
  {
    if y > -GridSizeY {
      PlaneMade(x, y - 1);
      RowMade(x, y - 1, GridSizeZ + 1);
    }
  }

  lemma {:induction false} RowMade(x: int, y: int, z: int)
    ensures forall n :: 0 <= n < |RowTo(x, y, z)| ==>
      var c := RowTo(x, y, z)[n]; c == MakeCube(c.x, c.y, c.z)
    decreases z + GridSizeZ
  {
    if z > -GridSizeZ {
      RowMade(x, y, z - 1);
    }
  }

  // ---------------------------------------------------------------------
  // Recolouring
  // ---------------------------------------------------------------------

  /** One child in CubeGridSwitchColor: a red or blue cube takes colour `c`, others keep theirs. */
  function Recolored(cube: Cube, c: Color): Cube
  {
    if cube.color == Red || cube.color == Blue then cube.(color := c) else cube
  }

  /** Every child of the grid after CubeGridSwitchColor with colour `c`. */
  function Recolor(s: seq<Cube>, c: Color): (r: seq<Cube>)
    ensures |r| == |s|
  {
    seq(|s|, i requires 0 <= i < |s| => Recolored(s[i], c))
  }

  /** The target colour of CubeGridSwitchColor: blue while not tracked, red otherwise. */
  function SwitchTarget(cubeSwitchColor: bool): Color
  {
    if cubeSwitchColor then Blue else Red
  }

  /**
   * Recolouring touches only red and blue cubes: white and yellow cubes,
   * every cell and every scale stay, and each red or blue cube ends with the
   * target colour.
   */
  lemma RecolorTouchesOnlyRedBlue(s: seq<Cube>, c: Color, i: int)
    requires 0 <= i < |s|
    requires c == Red || c == Blue
    ensures Recolor(s, c)[i].(color := s[i].color) == s[i]
    ensures s[i].color == White || s[i].color == Yellow ==> Recolor(s, c)[i] == s[i]
    ensures s[i].color == Red || s[i].color == Blue ==> Recolor(s, c)[i].color == c
  {
  }

  /** Only the last recolouring matters. */
  lemma RecolorLast(s: seq<Cube>, a: Color, b: Color)
    requires a == Red || a == Blue
    ensures Recolor(Recolor(s, a), b) == Recolor(s, b)
  {
  }

  /** A fresh grid has no blue cube, so recolouring it red leaves it as created. */
  lemma {:induction false} FreshGridIsRed()
    ensures Recolor(FullGrid(), Red) == FullGrid()
  {
    GridMade(GridSizeX + 1);
    var g := FullGrid();
    forall n | 0 <= n < |g|
      ensures Recolor(g, Red)[n] == g[n]
    {
      var c := g[n];
      assert c == MakeCube(c.x, c.y, c.z);
    }
  }

  // ---------------------------------------------------------------------
  // The component
  // ---------------------------------------------------------------------

  /** The KeyCode of the unused GridKey field. */
  datatype KeyCode = G

  class LVRGridCube {
    /** GridKey: declared, but UpdateCubeGrid tests the F key instead. */
    const gridKey: KeyCode
    var gridExists: bool
    var gridActive: bool
    var cubes: seq<Cube>
    var cubeGridOn: bool
    var cubeSwitchColorOld: bool
    var cubeSwitchColor: bool
    var log: seq<LogEntry>
    /** Whether CameraController is non-null. */
    var controllerSet: bool

    /**
     * The grid is shown exactly when CubeGridOn is set, and, once it
     * exists, it is either empty (its creation threw before the loop) or
     * the full grid whose non-axis cubes carry the colour for the tracking
     * state last seen.
     */
    predicate Valid()
      reads this
    {
      && (!gridExists ==> cubes == [] && !gridActive && !cubeGridOn && !cubeSwitchColorOld)
      && (gridExists ==> gridActive == cubeGridOn)
      && (gridExists && cubes != [] ==> cubes == Recolor(FullGrid(), SwitchTarget(cubeSwitchColorOld)))
    }

    constructor()
      ensures Valid()
      ensures !gridExists && !cubeGridOn && !cubeSwitchColorOld && !cubeSwitchColor && log == []
      ensures !controllerSet
    {
      gridKey := G;
      controllerSet := false;
      gridExists := false;
      gridActive := false;
      cubes := [];
      cubeGridOn := false;
      cubeSwitchColorOld := false;
      cubeSwitchColor := false;
      log := [];
    }

    /** SetLVRCameraController: keeps the camera rig handed in, which may be null. */
    method SetLVRCameraController(nonNull: bool)
      modifies this`controllerSet
      ensures controllerSet == nonNull
    {
      controllerSet := nonNull;
    }

    /**
     * CreateCubeGrid: a new active grid GameObject, filled by the triple
     * loop. Without a camera controller, reading its layer throws once the
     * empty GameObject exists; `ok` is false then.
     */
    method CreateCubeGrid() returns (ok: bool)
      modifies this`gridExists, this`gridActive, this`cubes, this`log
      ensures ok == controllerSet
      ensures gridExists && gridActive
      ensures cubes == if controllerSet then FullGrid() else []
      ensures log == old(log) + [Warning("Create CubeGrid")]
    {
      log := log + [Warning("Create CubeGrid")];
      gridExists := true;
      gridActive := true;
      cubes := [];
      if !controllerSet {
        return false;
      }
      cubes := BuildGrid();
      ok := true;
    }

    /**
     * The triple loop of CreateCubeGrid: one cube per cell, x outermost and
     * z innermost; the body of the x loop is CreatePlane.
     */
    static method BuildGrid() returns (children: seq<Cube>)
      ensures children == FullGrid()
    {
      children := [];
      var x := -GridSizeX;
      while x <= GridSizeX
        invariant -GridSizeX <= x <= GridSizeX + 1
        invariant children == GridTo(x)
      {
        var plane := CreatePlane(x);
        children := children + plane;
        x := x + 1;
      }
    }

    /** The y and z loops for one value of x: the cubes of plane x, row by row. */
    static method CreatePlane(x: int) returns (plane: seq<Cube>)
      ensures plane == PlaneTo(x, GridSizeY + 1)
    {
      plane := [];
      var y := -GridSizeY;
      while y <= GridSizeY
        invariant -GridSizeY <= y <= GridSizeY + 1
        invariant plane == PlaneTo(x, y)
      {
        ghost var beforeRow := plane;
        var z := -GridSizeZ;
        while z <= GridSizeZ
          invariant -GridSizeZ <= z <= GridSizeZ + 1
          invariant plane == beforeRow + RowTo(x, y, z)
        {
          var cubeType := CubeType(x, y, z);
          plane := plane + [Cube(x, y, z, CubeColor(cubeType), CubeScale * ScaleFactor(cubeType))];
          assert RowTo(x, y, z + 1) == RowTo(x, y, z) + [MakeCube(x, y, z)];
          z := z + 1;
        }
        y := y + 1;
      }
    }

    /** CubeGridSwitchColor: every red or blue child takes the target colour; the others are skipped. */
    method CubeGridSwitchColor(switchColor: bool)
      modifies this`cubes
      ensures cubes == Recolor(old(cubes), SwitchTarget(switchColor))
    {
      var c := Red;
      if switchColor {
        c := Blue;
      }
      var i := 0;
      while i < |cubes|
        invariant 0 <= i <= |cubes| == |old(cubes)|
        invariant forall k :: 0 <= k < i ==> cubes[k] == Recolored(old(cubes)[k], c)
        invariant forall k :: i <= k < |cubes| ==> cubes[k] == old(cubes)[k]
      {
        if cubes[i].color == Red || cubes[i].color == Blue {
          cubes := cubes[i := cubes[i].(color := c)];
        }
        i := i + 1;
      }
    }

    /**
     * UpdateCubeGrid: the F key flips CubeGridOn, creating the grid the
     * first time it is shown and otherwise only activating or
     * deactivating it; while the grid exists, a change in the tracking
     * state recolours it. `ok` is false where creating the grid throws,
     * which skips the colour update of this tick.
     */
    method UpdateCubeGrid(fDown: bool, positionTracked: bool) returns (ok: bool)
      requires Valid()
      modifies this`gridExists, this`gridActive, this`cubes, this`cubeGridOn,
               this`cubeSwitchColorOld, this`cubeSwitchColor, this`log
      ensures Valid()
      ensures ok <==> !(fDown && !old(cubeGridOn) && !old(gridExists) && !controllerSet)
      ensures cubeGridOn == (old(cubeGridOn) != fDown)
      ensures gridExists == (old(gridExists) || (fDown && !old(cubeGridOn)))
      ensures ok && gridExists ==> cubeSwitchColor == !positionTracked && cubeSwitchColorOld == !positionTracked
      ensures !ok || !gridExists ==> cubeSwitchColor == old(cubeSwitchColor) && cubeSwitchColorOld == old(cubeSwitchColorOld)
      ensures old(gridExists) && old(cubeSwitchColorOld) == !positionTracked ==> cubes == old(cubes)
      ensures old(gridExists) ==> (cubes == [] <==> old(cubes) == [])
      ensures !old(gridExists) && gridExists ==> (cubes == [] <==> !controllerSet)
      ensures log == old(log) +
        (if !fDown then []
         else [ButtonString("Button A Is Pressed")] +
              (if old(cubeGridOn) then [Warning("CubeGrid OFF")]
               else [Warning("CubeGrid ON")] + (if old(gridExists) then [] else [Warning("Create CubeGrid")])))
    {
      ok := true;
      if fDown {
        log := log + [ButtonString("Button A Is Pressed")];
        if cubeGridOn == false {
          cubeGridOn := true;
          log := log + [Warning("CubeGrid ON")];
          if gridExists {
            gridActive := true;
          } else {
            ok := CreateCubeGrid();
            if !ok {
              return;
            }
            FreshGridIsRed();
            GridCells();
          }
        } else {
          cubeGridOn := false;
          log := log + [Warning("CubeGrid OFF")];
          if gridExists {
            gridActive := false;
          }
        }
      }

      if gridExists {
        cubeSwitchColor := !positionTracked;
        if cubeSwitchColor != cubeSwitchColorOld {
          CubeGridSwitchColor(cubeSwitchColor);
          RecolorLast(FullGrid(), SwitchTarget(cubeSwitchColorOld), SwitchTarget(cubeSwitchColor));
        }
        cubeSwitchColorOld := cubeSwitchColor;
      }
    }
  }
}
