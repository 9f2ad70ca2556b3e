/** The CSV importer with metaball placement (blender_import_pretenst.py):
    joints and intervals read from the rows of `joints.csv` and
    `intervals.csv`, and one scene object per interval placed at the
    interval's midpoint, scaled by its span and its elasticity. */
module PretenstCsv {
  import opened Common
  import opened Geometry
  import opened Naming
  import opened CsvFormat

  datatype Joint = Joint(index: int, co: Vec3)

  /** `type` of the source is `intervalType` here. */
  datatype Interval = Interval(
    alpha: Joint, omega: Joint, intervalType: string,
    strain: real, elasticity: real, linearDensity: real, role: string, length: real)

  function JointIndex(j: Joint): int {
    j.index
  }

  /** Whether a row of `joints.csv` describes a joint. */
  predicate JointReadable(row: Row, parseInt: string -> Option<int>, parseFloat: string -> Option<real>) {
    && "x" in row && parseFloat(DecimalPoint(row["x"])).Some?
    && "y" in row && parseFloat(DecimalPoint(row["y"])).Some?
    && "z" in row && parseFloat(DecimalPoint(row["z"])).Some?
    && "index" in row && parseInt(row["index"]).Some?
  }

  /** `joint_csv_to_dataclass`: `x`, `y`, `z` through `float_comma`, then
      `int` of `index`. */
  function JointFromRow(row: Row, parseInt: string -> Option<int>, parseFloat: string -> Option<real>): (r: Result<Joint>)
    ensures r.Ok? <==> JointReadable(row, parseInt, parseFloat)
    ensures r.Ok? ==>
      && parseInt(row["index"]) == Some(r.value.index)
      && parseFloat(DecimalPoint(row["x"])) == Some(r.value.co.x)
      && parseFloat(DecimalPoint(row["y"])) == Some(r.value.co.y)
      && parseFloat(DecimalPoint(row["z"])) == Some(r.value.co.z)
    ensures "x" !in row ==> r == Err(MissingColumn("x"))
  {
    var xText :- Cell(row, "x");
    var x :- FloatComma(parseFloat, xText);
    var yText :- Cell(row, "y");
    var y :- FloatComma(parseFloat, yText);
    var zText :- Cell(row, "z");
    var z :- FloatComma(parseFloat, zText);
    var indexText :- Cell(row, "index");
    var index :- IntOf(parseInt, indexText);
    Ok(Joint(index, Vec3(x, y, z)))
  }

  /** `[joint_csv_to_dataclass(row) for row in joints_csv]` */
  function ParseJoints(rows: seq<Row>, parseInt: string -> Option<int>, parseFloat: string -> Option<real>): (r: Result<seq<Joint>>)
    ensures r.Ok? <==> forall i :: 0 <= i < |rows| ==> JointReadable(rows[i], parseInt, parseFloat)
    ensures r.Ok? ==> |r.value| == |rows|
    ensures r.Ok? ==> forall i :: 0 <= i < |rows| ==> JointFromRow(rows[i], parseInt, parseFloat) == Ok(r.value[i])
  {
    TryMap(rows, (_, row) => JointFromRow(row, parseInt, parseFloat))
  }

  /** `{joint.index: joint for joint in joints}` */
  function JointsDict(joints: seq<Joint>): (m: map<int, Joint>)
    ensures m.Keys == set i | 0 <= i < |joints| :: joints[i].index
    ensures forall k :: k in m ==> m[k].index == k && m[k] in joints
  {
    IndexBy(joints, JointIndex)
  }

  /** On a repeated index the last joint in list order wins. */
  lemma JointsDictLastWins(joints: seq<Joint>, i: nat)
    requires i < |joints|
    requires forall j :: i < j < |joints| ==> joints[j].index != joints[i].index
    ensures JointsDict(joints)[joints[i].index] == joints[i]
  {
    IndexByLastWins(joints, JointIndex, i);
  }

  /** `interval_csv_to_dataclass`: the endpoints by the decoded indices,
      then the other fields. */
  function IntervalFromRow(row: Row, joints: map<int, Joint>, parseInt: string -> Option<int>,
                           parseFloat: string -> Option<real>): (r: Result<Interval>)
    ensures r.Ok? <==>
      && EndpointKeys(row, parseInt).Some?
      && EndpointKeys(row, parseInt).value.0 in joints && EndpointKeys(row, parseInt).value.1 in joints
      && AttributesReadable(row, parseFloat)
    ensures r.Ok? ==>
      && r.value.alpha == joints[EndpointKeys(row, parseInt).value.0]
      && r.value.omega == joints[EndpointKeys(row, parseInt).value.1]
      && r.value.intervalType == row["type"] && r.value.role == row["role"]
      && parseFloat(DecimalPoint(row["strain"])) == Some(r.value.strain)
      && parseFloat(DecimalPoint(row["elasticity"])) == Some(r.value.elasticity)
      && parseFloat(DecimalPoint(row["linear density"])) == Some(r.value.linearDensity)
      && parseFloat(DecimalPoint(row["length"])) == Some(r.value.length)
    ensures EndpointKeys(row, parseInt).Some? && EndpointKeys(row, parseInt).value.0 !in joints ==>
      r == Err(UnknownJoint(EndpointKeys(row, parseInt).value.0 as real))
  {
    var ends :- Endpoints(row, joints, parseInt);
    var at :- ReadAttributes(row, parseFloat);
    Ok(Interval(ends.0, ends.1, at.intervalType, at.strain, at.elasticity, at.linearDensity, at.role, at.length))
  }

  /** `load_intervals_from_csv`, from the rows of the two tables on: all
      joints first, then the intervals in row order; the first failure
      aborts the load. */
  function LoadIntervals(jointRows: seq<Row>, intervalRows: seq<Row>, parseInt: string -> Option<int>,
                         parseFloat: string -> Option<real>): (r: Result<seq<Interval>>)
    ensures r.Ok? <==>
      && ParseJoints(jointRows, parseInt, parseFloat).Ok?
      && forall i :: 0 <= i < |intervalRows| ==>
           IntervalFromRow(intervalRows[i], JointsDict(ParseJoints(jointRows, parseInt, parseFloat).value),
                           parseInt, parseFloat).Ok?
    ensures r.Ok? ==> |r.value| == |intervalRows|
    ensures r.Ok? ==> forall i :: 0 <= i < |intervalRows| ==>
      IntervalFromRow(intervalRows[i], JointsDict(ParseJoints(jointRows, parseInt, parseFloat).value),
                      parseInt, parseFloat) == Ok(r.value[i])
    ensures r.Ok? ==> forall i :: 0 <= i < |r.value| ==>
      && r.value[i].alpha in ParseJoints(jointRows, parseInt, parseFloat).value
      && r.value[i].omega in ParseJoints(jointRows, parseInt, parseFloat).value
      && EndpointKeys(intervalRows[i], parseInt) == Some((r.value[i].alpha.index, r.value[i].omega.index))
  {
    var joints :- ParseJoints(jointRows, parseInt, parseFloat);
    var dict := JointsDict(joints);
    TryMap(intervalRows, (_, row) => IntervalFromRow(row, dict, parseInt, parseFloat))
  }

  /** An interval row naming a joint index that no joint row carries makes
      the whole load fail: no interval list with a dangling endpoint. */
  lemma DanglingEndpointFails(jointRows: seq<Row>, intervalRows: seq<Row>, parseInt: string -> Option<int>,
                              parseFloat: string -> Option<real>, i: nat, key: int)
    requires i < |intervalRows|
    requires EndpointKeys(intervalRows[i], parseInt).Some?
    requires key == EndpointKeys(intervalRows[i], parseInt).value.0 || key == EndpointKeys(intervalRows[i], parseInt).value.1
    requires ParseJoints(jointRows, parseInt, parseFloat).Ok?
    requires forall j :: 0 <= j < |jointRows| ==> ParseJoints(jointRows, parseInt, parseFloat).value[j].index != key
    ensures LoadIntervals(jointRows, intervalRows, parseInt, parseFloat).Err?
  {
    var joints := ParseJoints(jointRows, parseInt, parseFloat).value;
    assert key !in JointsDict(joints);
  }

  /** The location, scale and rotation of an object after one iteration of
      the placement loop; the rotation is the host's `rotation_difference`. */
  datatype Placement = Placement(location: Vec3, scale: Vec3, rotationMode: RotationMode, rotation: Quaternion)

  /** The cross-section of the metaball: twice the root of the elasticity,
      a quarter of that for a `"Pull"` interval. `math.sqrt` accepts a
      non-negative elasticity only; `Place` fails before using this value
      otherwise. */
  function Thickness(intv: Interval, sqrt: real -> real): (t: real)
    ensures intv.intervalType == "Pull" ==> t * 4.0 == sqrt(intv.elasticity) * 2.0
    ensures intv.intervalType != "Pull" ==> t == sqrt(intv.elasticity) * 2.0
  {
    var t := sqrt(intv.elasticity) * 2.0;
    if intv.intervalType == "Pull" then t / 4.0 else t
  }

  /** The thickness depends on the elasticity and on whether the type is
      `"Pull"` only, and a `"Pull"` is a quarter of any other type. */
  lemma ThicknessRule(a: Interval, b: Interval, sqrt: real -> real)
    requires a.elasticity == b.elasticity
    ensures (a.intervalType == "Pull") == (b.intervalType == "Pull") ==> Thickness(a, sqrt) == Thickness(b, sqrt)
    ensures a.intervalType == "Pull" && b.intervalType != "Pull" ==> Thickness(a, sqrt) * 4.0 == Thickness(b, sqrt)
  {
  }

  /** Where one iteration of the placement loop puts the object of an
      interval: as thick in y as in z, turned from the x axis onto the span. */
  function CsvPlacement(intv: Interval, sqrt: real -> real,
                        rotationDifference: (Vec3, Vec3) -> Quaternion): (p: Placement)
    ensures p.scale.y == p.scale.z == Thickness(intv, sqrt)
    ensures p.rotationMode == QUATERNION && p.rotation == rotationDifference(UnitX, Sub(intv.omega.co, intv.alpha.co))
  {
    var arrow := Sub(intv.omega.co, intv.alpha.co);
    Placement(
      Lerp(intv.alpha.co, intv.omega.co, 0.5),
      Vec3(Length(arrow, sqrt) / 2.3, Thickness(intv, sqrt), Thickness(intv, sqrt)),
      QUATERNION,
      rotationDifference(UnitX, arrow))
  }

  /** The object sits at the midpoint of the interval, equally far from
      both ends, and is stretched along its x axis by the span over 2.3. */
  lemma CsvPlacementShape(intv: Interval, sqrt: real -> real, rotationDifference: (Vec3, Vec3) -> Quaternion)
    ensures var p := CsvPlacement(intv, sqrt, rotationDifference);
      && p.location == Vec3((intv.alpha.co.x + intv.omega.co.x) / 2.0,
                            (intv.alpha.co.y + intv.omega.co.y) / 2.0,
                            (intv.alpha.co.z + intv.omega.co.z) / 2.0)
      && Sub(p.location, intv.alpha.co) == Sub(intv.omega.co, p.location)
      && p.scale.x * 2.3 == Length(Sub(intv.omega.co, intv.alpha.co), sqrt)
  {
    LerpHalfIsMidpoint(intv.alpha.co, intv.omega.co);
  }

  /** What an iteration leaves behind when `math.sqrt` raises on a negative
      elasticity: the new object is already at the midpoint, but still has
      the unit scale and no rotation it was created with. */
  function CsvPartialPlacement(intv: Interval): (p: Placement)
    ensures p.location == Vec3((intv.alpha.co.x + intv.omega.co.x) / 2.0,
                               (intv.alpha.co.y + intv.omega.co.y) / 2.0,
                               (intv.alpha.co.z + intv.omega.co.z) / 2.0)
    ensures p.scale == Ones && p.rotationMode == XYZ && p.rotation == Quaternion(1.0, 0.0, 0.0, 0.0)
  {
    LerpHalfIsMidpoint(intv.alpha.co, intv.omega.co);
    Placement(Lerp(intv.alpha.co, intv.omega.co, 0.5), Ones, XYZ, Quaternion(1.0, 0.0, 0.0, 0.0))
  }

  /** A metaball object created in the host scene; the importer never
      renames it. */
  class SceneObject {
    const name: string
    var location: Vec3
    var scale: Vec3
    var rotationMode: RotationMode
    var rotation: Quaternion

    /** `bpy.data.objects.new(name, ...)`: a new object at the origin, unit
        scale, no rotation. */
    constructor (name: string)
      ensures this.name == name && location == Vec3(0.0, 0.0, 0.0) && scale == Ones
      ensures rotationMode == XYZ && rotation == Quaternion(1.0, 0.0, 0.0, 0.0)
    {
      this.name := name;
      location := Vec3(0.0, 0.0, 0.0);
      scale := Ones;
      rotationMode := XYZ;
      rotation := Quaternion(1.0, 0.0, 0.0, 0.0);
    }

    function State(): Placement
      reads this
    {
      Placement(location, scale, rotationMode, rotation)
    }
  }

  /** The body of the placement loop on a freshly created object: move it
      to the midpoint, then take the thickness, which raises on a negative
      elasticity; otherwise scale it by span and thickness and turn the x
      axis onto the span. */
  method Place(obj: SceneObject, intv: Interval, sqrt: real -> real,
               rotationDifference: (Vec3, Vec3) -> Quaternion)
    returns (outcome: Outcome)
    modifies obj
    ensures intv.elasticity < 0.0 ==>
      && outcome == Fail(MathDomain(intv.elasticity))
      && obj.State() == old(obj.State()).(location := Lerp(intv.alpha.co, intv.omega.co, 0.5))
    ensures 0.0 <= intv.elasticity ==>
      outcome == Pass && obj.State() == CsvPlacement(intv, sqrt, rotationDifference)
  {
    var arrow := Sub(intv.omega.co, intv.alpha.co);
    var rot := rotationDifference(UnitX, arrow);
    obj.location := Lerp(intv.alpha.co, intv.omega.co, 0.5);
    if intv.elasticity < 0.0 {
      return Fail(MathDomain(intv.elasticity));
    }
    var thickness := sqrt(intv.elasticity) * 2.0;
    if intv.intervalType == "Pull" {
      thickness := thickness / 4.0;
    }
    obj.scale := Vec3(Length(arrow, sqrt) / 2.3, thickness, thickness);
    obj.rotationMode := QUATERNION;
    obj.rotation := rot;
    outcome := Pass;
  }

  /** What an iteration of the placement loop leaves of the interval: the full
      placement, or the half placement when the elasticity is negative. */
  function Placed(intv: Interval, sqrt: real -> real, rotationDifference: (Vec3, Vec3) -> Quaternion): (p: Placement)
    ensures p.location == Lerp(intv.alpha.co, intv.omega.co, 0.5)
    ensures p.rotationMode == QUATERNION <==> 0.0 <= intv.elasticity
    ensures 0.0 <= intv.elasticity ==> p.scale.y == p.scale.z == Thickness(intv, sqrt)
    ensures intv.elasticity < 0.0 ==> p.scale == Ones
  {
    if intv.elasticity < 0.0 then CsvPartialPlacement(intv)
    else CsvPlacement(intv, sqrt, rotationDifference)
  }

  /** One iteration of the placement loop: create the object named after
      the interval and place it. */
  method CreateAndPlace(name: string, intv: Interval, sqrt: real -> real,
                        rotationDifference: (Vec3, Vec3) -> Quaternion)
    returns (obj: SceneObject, outcome: Outcome)
    ensures fresh(obj) && obj.name == name
    ensures outcome == (if intv.elasticity < 0.0 then Fail(MathDomain(intv.elasticity)) else Pass)
    ensures obj.State() == Placed(intv, sqrt, rotationDifference)
  {
    obj := new SceneObject(name);
    outcome := Place(obj, intv, sqrt, rotationDifference);
  }

  /** The position of the first interval with a negative elasticity, or the
      number of intervals when there is none. */
  function FirstNegative(intervals: seq<Interval>): (k: nat)
    ensures k <= |intervals|
    ensures forall i :: 0 <= i < k ==> 0.0 <= intervals[i].elasticity
    ensures k < |intervals| ==> intervals[k].elasticity < 0.0
  {
    if intervals == [] || intervals[0].elasticity < 0.0 then 0
    else 1 + FirstNegative(intervals[1..])
  }

  /** The loop of `read_pretenst_csv`, given the name of each interval's
      object and, as a ghost, what `Placed` makes of each interval: one new
      object per interval, in order, carrying its name and left as expected.
      The first interval with a negative elasticity aborts the loop, leaving
      its object half placed and every earlier object in the scene. */
  method PlaceAll(intervals: seq<Interval>, names: seq<string>, ghost expected: seq<Placement>,
                  sqrt: real -> real, rotationDifference: (Vec3, Vec3) -> Quaternion)
    returns (objects: seq<SceneObject>, outcome: Outcome)
    requires |names| == |expected| == |intervals|
    requires forall j {:trigger Placed(intervals[j], sqrt, rotationDifference)} ::
      0 <= j < |intervals| ==> expected[j] == Placed(intervals[j], sqrt, rotationDifference)
    ensures var k := FirstNegative(intervals);
      && |objects| == (if k < |intervals| then k + 1 else |intervals|)
      && outcome == (if k < |intervals| then Fail(MathDomain(intervals[k].elasticity)) else Pass)
    ensures forall i :: 0 <= i < |objects| ==> fresh(objects[i])
    ensures forall i :: 0 <= i < |objects| ==> objects[i].name == names[i]
    ensures forall i :: 0 <= i < |objects| ==> objects[i].State() == expected[i]
    ensures forall i, j :: 0 <= i < j < |objects| ==> objects[i] != objects[j]
  {
    objects := [];
    outcome := Pass;
    var i := 0;
    while i < |intervals| && outcome.Pass?
      invariant i <= |intervals| && |objects| == i
      invariant outcome.Pass? ==> i <= FirstNegative(intervals)
      invariant outcome.Fail? ==>
        0 < i && FirstNegative(intervals) == i - 1 && outcome == Fail(MathDomain(intervals[i - 1].elasticity))
      invariant forall j :: 0 <= j < i ==> fresh(objects[j])
      invariant forall j :: 0 <= j < i ==> objects[j].name == names[j]
      invariant forall j :: 0 <= j < i ==> objects[j].State() == expected[j]
      invariant forall j, k :: 0 <= j < k < i ==> objects[j] != objects[k]
    {
      var obj;
      obj, outcome := CreateAndPlace(names[i], intervals[i], sqrt, rotationDifference);
      objects := objects + [obj];
      i := i + 1;
    }
  }

  /** The object names the loop of `read_pretenst_csv` gives, one per
      interval, each naming its interval's position. */
  function IntervalNames(intervals: seq<Interval>): (names: seq<string>)
    ensures |names| == |intervals|
    ensures forall i :: 0 <= i < |intervals| ==>
      names[i] == IntervalName(i, intervals[i].role, intervals[i].alpha.index, intervals[i].omega.index)
  {
    seq(|intervals|, i requires 0 <= i < |intervals| =>
      IntervalName(i, intervals[i].role, intervals[i].alpha.index, intervals[i].omega.index))
  }

  /** What the loop of `read_pretenst_csv` leaves of each interval, were it
      to run to the end. */
  ghost function Placements(intervals: seq<Interval>, sqrt: real -> real,
                            rotationDifference: (Vec3, Vec3) -> Quaternion): (expected: seq<Placement>)
    ensures |expected| == |intervals|
    ensures forall i :: 0 <= i < |intervals| ==> expected[i] == Placed(intervals[i], sqrt, rotationDifference)
  {
    seq(|intervals|, i requires 0 <= i < |intervals| => Placed(intervals[i], sqrt, rotationDifference))
  }

  /** What the loop of `read_pretenst_csv` leaves for `intervals`: one
      object per interval up to and including the first one with a negative
      elasticity, whose `math.sqrt` fails the loop, or one per interval when
      there is none. Each object is distinct, named after its position, and
      left as `Placed` says. */
  ghost predicate LoopResult(intervals: seq<Interval>, objects: seq<SceneObject>, outcome: Outcome,
                             sqrt: real -> real, rotationDifference: (Vec3, Vec3) -> Quaternion)
    reads set o | o in objects
  {
    var k := FirstNegative(intervals);
    && |objects| == (if k < |intervals| then k + 1 else |intervals|)
    && outcome == (if k < |intervals| then Fail(MathDomain(intervals[k].elasticity)) else Pass)
    && (forall i :: 0 <= i < |objects| ==>
          objects[i].name == IntervalName(i, intervals[i].role, intervals[i].alpha.index, intervals[i].omega.index))
    && (forall i :: 0 <= i < |objects| ==> objects[i].State() == Placed(intervals[i], sqrt, rotationDifference))
    && (forall i, j :: 0 <= i < j < |objects| ==> objects[i] != objects[j])
  }

  /** The loop of `read_pretenst_csv`: one new object per interval, in
      order, each named after its position and left as `Placed` says. The
      first interval with a negative elasticity aborts the loop, leaving its
      object half placed and every earlier object in the scene. */
  method PlaceIntervals(intervals: seq<Interval>, sqrt: real -> real,
                        rotationDifference: (Vec3, Vec3) -> Quaternion)
    returns (objects: seq<SceneObject>, outcome: Outcome)
    ensures forall i :: 0 <= i < |objects| ==> fresh(objects[i])
    ensures LoopResult(intervals, objects, outcome, sqrt, rotationDifference)
  {
    var names := IntervalNames(intervals);
    ghost var expected := Placements(intervals, sqrt, rotationDifference);
    objects, outcome := PlaceAll(intervals, names, expected, sqrt, rotationDifference);
  }

  /** `read_pretenst_csv`, from the rows of the two tables on: load the
      intervals, then place them. A failed load creates nothing; a failed
      placement leaves the objects placed so far. */
  method ReadPretenstCsv(jointRows: seq<Row>, intervalRows: seq<Row>, parseInt: string -> Option<int>,
                         parseFloat: string -> Option<real>, sqrt: real -> real,
                         rotationDifference: (Vec3, Vec3) -> Quaternion)
    returns (objects: seq<SceneObject>, outcome: Outcome)
    ensures var loaded := LoadIntervals(jointRows, intervalRows, parseInt, parseFloat);
      loaded.Err? ==> objects == [] && outcome == Fail(loaded.error)
    ensures var loaded := LoadIntervals(jointRows, intervalRows, parseInt, parseFloat);
      loaded.Ok? ==>
      var intervals := loaded.value;
      && |intervals| == |intervalRows|
      && (forall i :: 0 <= i < |objects| ==> fresh(objects[i]))
      && LoopResult(intervals, objects, outcome, sqrt, rotationDifference)
  {
    var loaded := LoadIntervals(jointRows, intervalRows, parseInt, parseFloat);
    if loaded.Err? {
      return [], Fail(loaded.error);
    }
    objects, outcome := PlaceIntervals(loaded.value, sqrt, rotationDifference);
  }
}
