/** The JSON importer (blender_import_json.py): joints and intervals read
    from the decoded document, and the placement of the node copied for an
    interval or a joint. JSON numbers are reals; Python's `int()` on a
    number truncates toward zero. */
module PretenstJson {
  import opened Common
  import opened Geometry
  import opened Naming

  /** An object of the document's `joints` array. */
  datatype JointRecord = JointRecord(index: real, x: real, y: real, z: real)

  /** An object of the document's `intervals` array; `type` of the source
      is `intervalType` here. */
  datatype IntervalRecord = IntervalRecord(
    joints: seq<real>, intervalType: string, strain: real, stiffness: real,
    linearDensity: real, role: string, length: real)

  /** The decoded document. */
  datatype Fabric = Fabric(joints: seq<JointRecord>, intervals: seq<IntervalRecord>)

  datatype Joint = Joint(index: int, co: Vec3)

  datatype Interval = Interval(
    index: nat, alpha: Joint, omega: Joint, intervalType: string,
    strain: real, stiffness: real, linearDensity: real, role: string, length: real)

  predicate IsIntegral(r: real) {
    r.Floor as real == r
  }

  /** `int(r)` for a number: its integer part, rounded toward zero. */
  function Trunc(r: real): (n: int)
    ensures 0.0 <= r ==> n as real <= r < n as real + 1.0
    ensures r < 0.0 ==> n as real - 1.0 < r <= n as real
  {
    if r >= 0.0 then r.Floor else -((-r).Floor)
  }

  /** `int()` of an integral number is that number. */
  lemma TruncIntegral(r: real)
    requires IsIntegral(r)
    ensures Trunc(r) as real == r
  {
    if r < 0.0 {
      var k := r.Floor;
      assert (-k) as real == -r;
      assert (-r).Floor == -k;
    }
  }

  /** `track_axis_to_vector`: the three positive axis names and nothing else. */
  function TrackAxisToVector(axis: string): (r: Result<Vec3>)
    ensures r.Ok? <==> axis == "POS_X" || axis == "POS_Y" || axis == "POS_Z"
    ensures r.Ok? ==> r.value == UnitX || r.value == UnitY || r.value == UnitZ
    ensures r.Err? ==> r.error == UnknownTrackAxis(axis)
  {
    if axis == "POS_X" then Ok(UnitX)
    else if axis == "POS_Y" then Ok(UnitY)
    else if axis == "POS_Z" then Ok(UnitZ)
    else Err(UnknownTrackAxis(axis))
  }

  /** The axis name of a basis vector. */
  function AxisName(v: Vec3): string {
    if v == UnitX then "POS_X" else if v == UnitY then "POS_Y" else "POS_Z"
  }

  /** Names and basis vectors correspond one to one. */
  lemma TrackAxisRoundTrip(axis: string, v: Vec3)
    ensures TrackAxisToVector(axis).Ok? ==> AxisName(TrackAxisToVector(axis).value) == axis
    ensures v == UnitX || v == UnitY || v == UnitZ ==> TrackAxisToVector(AxisName(v)) == Ok(v)
  {
  }

  /** `joint_dict_to_dataclass` */
  function JointFromRecord(d: JointRecord): (j: Joint)
    ensures j.co == Vec3(d.x, d.y, d.z)
    ensures j.index == Trunc(d.index)
  {
    Joint(Trunc(d.index), Vec3(d.x, d.y, d.z))
  }

  /** `[joint_dict_to_dataclass(d) for d in fabric['joints']]` */
  function JointsFromRecords(records: seq<JointRecord>): (joints: seq<Joint>)
    ensures |joints| == |records|
    ensures forall i :: 0 <= i < |records| ==>
      joints[i].index == Trunc(records[i].index) &&
      joints[i].co == Vec3(records[i].x, records[i].y, records[i].z)
  {
    MapSeq(records, JointFromRecord)
  }

  function JointIndex(j: Joint): int {
    j.index
  }

  /** `{joint.index: joint for joint in joints}` */
  function JointsDict(joints: seq<Joint>): (m: map<int, Joint>)
    ensures m.Keys == set i | 0 <= i < |joints| :: joints[i].index
    ensures forall k :: k in m ==> m[k].index == k && m[k] in joints
  {
    IndexBy(joints, JointIndex)
  }

  /** On a repeated index the last joint in list order wins. */
  lemma JointsDictLastWins(joints: seq<Joint>, i: nat)
    requires i < |joints|
    requires forall j :: i < j < |joints| ==> joints[j].index != joints[i].index
    ensures JointsDict(joints)[joints[i].index] == joints[i]
  {
    IndexByLastWins(joints, JointIndex, i);
  }

  /** Whether a number from an interval's `joints` list finds a joint: a
      number equal to an integer key finds that key. */
  predicate IsJointKey(dict: map<int, Joint>, key: real) {
    IsIntegral(key) && key.Floor in dict
  }

  /** `joints_dict[key]` for a number `key`. */
  function LookupJoint(dict: map<int, Joint>, key: real): (r: Result<Joint>)
    ensures r.Ok? <==> IsJointKey(dict, key)
    ensures r.Ok? ==> r.value == dict[key.Floor]
    ensures r.Err? ==> r.error == UnknownJoint(key)
  {
    if IsJointKey(dict, key) then Ok(dict[key.Floor]) else Err(UnknownJoint(key))
  }

  /** `interval_dict_to_dataclass(position, d, joints_dict)`: the endpoints
      are looked up by `joints[0]` then `joints[1]`; the other fields are
      copied. */
  function IntervalFromRecord(position: nat, d: IntervalRecord, dict: map<int, Joint>): (r: Result<Interval>)
    ensures r.Ok? <==> |d.joints| >= 2 && IsJointKey(dict, d.joints[0]) && IsJointKey(dict, d.joints[1])
    ensures r.Ok? ==>
      && r.value.index == position
      && r.value.alpha == dict[d.joints[0].Floor] && r.value.omega == dict[d.joints[1].Floor]
      && r.value.intervalType == d.intervalType && r.value.strain == d.strain
      && r.value.stiffness == d.stiffness && r.value.linearDensity == d.linearDensity
      && r.value.role == d.role && r.value.length == d.length
    ensures |d.joints| == 0 ==> r == Err(IndexOutOfRange(0))
    ensures |d.joints| > 0 && !IsJointKey(dict, d.joints[0]) ==> r == Err(UnknownJoint(d.joints[0]))
    ensures |d.joints| == 1 && IsJointKey(dict, d.joints[0]) ==> r == Err(IndexOutOfRange(1))
  {
    if |d.joints| == 0 then Err(IndexOutOfRange(0))
    else
      var alpha :- LookupJoint(dict, d.joints[0]);
      if |d.joints| == 1 then Err(IndexOutOfRange(1))
      else
        var omega :- LookupJoint(dict, d.joints[1]);
        Ok(Interval(position, alpha, omega, d.intervalType, d.strain, d.stiffness,
                    d.linearDensity, d.role, d.length))
  }

  /** `load_pretenst_from_json` after the document is decoded: the joints
      in array order, then the intervals in array order, each numbered by
      its position; the first failure aborts the load. Returns
      `(intervals, joints)`. */
  function LoadFromJson(fabric: Fabric): (r: Result<(seq<Interval>, seq<Joint>)>)
    ensures r.Ok? <==> forall i :: 0 <= i < |fabric.intervals| ==>
      IntervalFromRecord(i, fabric.intervals[i], JointsDict(JointsFromRecords(fabric.joints))).Ok?
    ensures r.Ok? ==> r.value.1 == JointsFromRecords(fabric.joints)
    ensures r.Ok? ==> |r.value.0| == |fabric.intervals|
    ensures r.Ok? ==> forall i :: 0 <= i < |fabric.intervals| ==>
      IntervalFromRecord(i, fabric.intervals[i], JointsDict(r.value.1)) == Ok(r.value.0[i])
    ensures r.Ok? ==> forall i :: 0 <= i < |r.value.0| ==>
      && r.value.0[i].index == i
      && r.value.0[i].alpha in r.value.1 && r.value.0[i].omega in r.value.1
      && r.value.0[i].alpha.index as real == fabric.intervals[i].joints[0]
      && r.value.0[i].omega.index as real == fabric.intervals[i].joints[1]
  {
    var joints := JointsFromRecords(fabric.joints);
    var dict := JointsDict(joints);
    var intervals :- TryMap(fabric.intervals, (i, d) => IntervalFromRecord(i, d, dict));
    Ok((intervals, joints))
  }

  /** An interval naming a joint index that no joint carries makes the
      whole load fail: no structure with a dangling endpoint. */
  lemma DanglingEndpointFails(fabric: Fabric, i: nat, k: nat)
    requires i < |fabric.intervals| && k < 2 && k < |fabric.intervals[i].joints|
    requires forall j :: 0 <= j < |fabric.joints| ==>
      Trunc(fabric.joints[j].index) as real != fabric.intervals[i].joints[k]
    ensures LoadFromJson(fabric).Err?
  {
    var joints := JointsFromRecords(fabric.joints);
    var key := fabric.intervals[i].joints[k];
    assert !IsJointKey(JointsDict(joints), key);
  }

  /** A copy of a prototype object in the host scene: the fields the
      importer sets or reads. */
  class Node {
    var name: string
    var location: Vec3
    var rotationMode: RotationMode
    var rotation: Quaternion
    var scale: Vec3
    var trackAxis: string
  }

  /** `create_joint_node` after the copy: name `J{index}`, placed at the
      joint. */
  method CreateJointNode(jt: Joint, node: Node)
    modifies node
    ensures node.name == JointName(jt.index) && node.location == jt.co
    ensures node.rotationMode == old(node.rotationMode) && node.rotation == old(node.rotation)
    ensures node.scale == old(node.scale) && node.trackAxis == old(node.trackAxis)
  {
    node.name := JointName(jt.index);
    node.location := jt.co;
  }

  /** The per-axis scale multiplier: the diameter on the two axes across
      the track axis, the span length along it. */
  function ScaleFactor(track: Vec3, diameter: real, length: real): (f: Vec3)
    ensures track == UnitX ==> f == Vec3(length, diameter, diameter)
    ensures track == UnitY ==> f == Vec3(diameter, length, diameter)
    ensures track == UnitZ ==> f == Vec3(diameter, diameter, length)
  {
    Add(Times(diameter, Sub(Ones, track)), Times(length, track))
  }

  /** For an accepted track axis the multiplier is the span length on that
      axis and the diameter on the other two. */
  lemma ScaleFactorAlongTrack(axis: string, diameter: real, length: real, k: nat)
    requires TrackAxisToVector(axis).Ok? && k < 3
    ensures var track := TrackAxisToVector(axis).value;
      Component(ScaleFactor(track, diameter, length), k) ==
        if Component(track, k) == 1.0 then length else diameter
  {
  }

  /** `node.scale.x *= f.x` and likewise for `y` and `z`. */
  method MultiplyScale(node: Node, f: Vec3)
    modifies node
    ensures node.scale == Hadamard(old(node.scale), f)
    ensures node.name == old(node.name) && node.trackAxis == old(node.trackAxis)
    ensures node.location == old(node.location)
    ensures node.rotationMode == old(node.rotationMode) && node.rotation == old(node.rotation)
  {
    node.scale := node.scale.(x := node.scale.x * f.x);
    node.scale := node.scale.(y := node.scale.y * f.y);
    node.scale := node.scale.(z := node.scale.z * f.z);
  }

  /** The translation, rotation and scale steps of `create_interval_node`
      once the track axis is known. `math.sqrt` of a negative stiffness
      raises after the node is moved and turned, leaving its scale alone. */
  method OrientIntervalNode(intv: Interval, node: Node, track: Vec3, sqrt: real -> real,
                            rotationDifference: (Vec3, Vec3) -> Quaternion)
    returns (outcome: Outcome)
    modifies node
    ensures node.location == Lerp(intv.alpha.co, intv.omega.co, 0.5)
    ensures node.rotationMode == QUATERNION && node.rotation == rotationDifference(track, Sub(intv.omega.co, intv.alpha.co))
    ensures intv.stiffness < 0.0 ==> outcome == Fail(MathDomain(intv.stiffness)) && node.scale == old(node.scale)
    ensures 0.0 <= intv.stiffness ==>
      && outcome == Pass
      && node.scale == Hadamard(old(node.scale), ScaleFactor(track, sqrt(intv.stiffness) * 200.0,
                                                             Length(Sub(intv.omega.co, intv.alpha.co), sqrt)))
    ensures node.name == old(node.name) && node.trackAxis == old(node.trackAxis)
  {
    var arrow := Sub(intv.omega.co, intv.alpha.co);

    node.location := Lerp(intv.alpha.co, intv.omega.co, 0.5);

    node.rotationMode := QUATERNION;
    node.rotation := rotationDifference(track, arrow);

    if intv.stiffness < 0.0 {
      return Fail(MathDomain(intv.stiffness));
    }
    var diameterCoeff := sqrt(intv.stiffness) * 200.0;
    var diameterDelta := Times(diameterCoeff, Sub(Ones, track));
    var lengthDelta := Times(Length(arrow, sqrt), track);
    var scaleDelta := Add(diameterDelta, lengthDelta);
    assert scaleDelta == ScaleFactor(track, diameterCoeff, Length(arrow, sqrt));
    MultiplyScale(node, scaleDelta);
    outcome := Pass;
  }

  /** `create_interval_node` after the copy. The name is set first; an
      unknown track axis then aborts with nothing else changed. Otherwise
      the node is put at the midpoint and turned from the track axis onto
      the span; then a negative stiffness aborts, and any other has each
      scale component multiplied by its factor. */
  method CreateIntervalNode(intv: Interval, node: Node, sqrt: real -> real,
                            rotationDifference: (Vec3, Vec3) -> Quaternion)
    returns (outcome: Outcome)
    modifies node
    ensures node.name == IntervalName(intv.index, intv.role, intv.alpha.index, intv.omega.index)
    ensures node.trackAxis == old(node.trackAxis)
    ensures TrackAxisToVector(node.trackAxis).Err? ==>
      && outcome == Fail(TrackAxisToVector(node.trackAxis).error)
      && node.location == old(node.location) && node.scale == old(node.scale)
      && node.rotationMode == old(node.rotationMode) && node.rotation == old(node.rotation)
    ensures TrackAxisToVector(node.trackAxis).Ok? ==>
      var track := TrackAxisToVector(node.trackAxis).value;
      var arrow := Sub(intv.omega.co, intv.alpha.co);
      && outcome == (if intv.stiffness < 0.0 then Fail(MathDomain(intv.stiffness)) else Pass)
      && node.location == Lerp(intv.alpha.co, intv.omega.co, 0.5)
      && node.rotationMode == QUATERNION && node.rotation == rotationDifference(track, arrow)
      && node.scale == if intv.stiffness < 0.0 then old(node.scale)
                       else Hadamard(old(node.scale), ScaleFactor(track, sqrt(intv.stiffness) * 200.0, Length(arrow, sqrt)))
  {
    node.name := IntervalName(intv.index, intv.role, intv.alpha.index, intv.omega.index);
    var converted := TrackAxisToVector(node.trackAxis);
    if converted.Err? {
      return Fail(converted.error);
    }
    outcome := OrientIntervalNode(intv, node, converted.value, sqrt, rotationDifference);
  }
}
