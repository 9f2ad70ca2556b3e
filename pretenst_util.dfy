/** The stand-alone CSV loader (pretenst_util.py): the same tables as the
    metaball importer, with a joint that keeps its coordinates as three
    separate fields and reads its `index` column first. */
module PretenstUtil {
  import opened Common
  import opened CsvFormat

  datatype Joint = Joint(index: int, x: real, y: real, z: real)

  /** `type` of the source is `intervalType` here. */
  datatype Interval = Interval(
    alpha: Joint, omega: Joint, intervalType: string,
    strain: real, elasticity: real, linearDensity: real, role: string, length: real)

  function JointIndex(j: Joint): int {
    j.index
  }

  /** Whether a row of `joints.csv` describes a joint. */
  predicate JointReadable(row: Row, parseInt: string -> Option<int>, parseFloat: string -> Option<real>) {
    && "index" in row && parseInt(row["index"]).Some?
    && "x" in row && parseFloat(DecimalPoint(row["x"])).Some?
    && "y" in row && parseFloat(DecimalPoint(row["y"])).Some?
    && "z" in row && parseFloat(DecimalPoint(row["z"])).Some?
  }

  /** `joint_csv_to_dataclass`: `int` of `index`, then `x`, `y`, `z`
      through `float_comma`. */
  function JointFromRow(row: Row, parseInt: string -> Option<int>, parseFloat: string -> Option<real>): (r: Result<Joint>)
    ensures r.Ok? <==> JointReadable(row, parseInt, parseFloat)
    ensures r.Ok? ==>
      && parseInt(row["index"]) == Some(r.value.index)
      && parseFloat(DecimalPoint(row["x"])) == Some(r.value.x)
      && parseFloat(DecimalPoint(row["y"])) == Some(r.value.y)
      && parseFloat(DecimalPoint(row["z"])) == Some(r.value.z)
    ensures "index" !in row ==> r == Err(MissingColumn("index"))
  {
    var indexText :- Cell(row, "index");
    var index :- IntOf(parseInt, indexText);
    var xText :- Cell(row, "x");
    var x :- FloatComma(parseFloat, xText);
    var yText :- Cell(row, "y");
    var y :- FloatComma(parseFloat, yText);
    var zText :- Cell(row, "z");
    var z :- FloatComma(parseFloat, zText);
    Ok(Joint(index, x, y, z))
  }

  /** `[joint_csv_to_dataclass(row) for row in joints_csv]` */
  function ParseJoints(rows: seq<Row>, parseInt: string -> Option<int>, parseFloat: string -> Option<real>): (r: Result<seq<Joint>>)
    ensures r.Ok? <==> forall i :: 0 <= i < |rows| ==> JointReadable(rows[i], parseInt, parseFloat)
    ensures r.Ok? ==> |r.value| == |rows|
    ensures r.Ok? ==> forall i :: 0 <= i < |rows| ==> JointFromRow(rows[i], parseInt, parseFloat) == Ok(r.value[i])
  {
    TryMap(rows, (_, row) => JointFromRow(row, parseInt, parseFloat))
  }

  /** `{joint.index: joint for joint in joints}` */
  function JointsDict(joints: seq<Joint>): (m: map<int, Joint>)
    ensures m.Keys == set i | 0 <= i < |joints| :: joints[i].index
    ensures forall k :: k in m ==> m[k].index == k && m[k] in joints
  {
    IndexBy(joints, JointIndex)
  }

  /** On a repeated index the last joint in list order wins. */
  lemma JointsDictLastWins(joints: seq<Joint>, i: nat)
    requires i < |joints|
    requires forall j :: i < j < |joints| ==> joints[j].index != joints[i].index
    ensures JointsDict(joints)[joints[i].index] == joints[i]
  {
    IndexByLastWins(joints, JointIndex, i);
  }

  /** `interval_csv_to_dataclass`: the endpoints by the decoded indices,
      then the other fields. */
  function IntervalFromRow(row: Row, joints: map<int, Joint>, parseInt: string -> Option<int>,
                           parseFloat: string -> Option<real>): (r: Result<Interval>)
    ensures r.Ok? <==>
      && EndpointKeys(row, parseInt).Some?
      && EndpointKeys(row, parseInt).value.0 in joints && EndpointKeys(row, parseInt).value.1 in joints
      && AttributesReadable(row, parseFloat)
    ensures r.Ok? ==>
      && r.value.alpha == joints[EndpointKeys(row, parseInt).value.0]
      && r.value.omega == joints[EndpointKeys(row, parseInt).value.1]
      && r.value.intervalType == row["type"] && r.value.role == row["role"]
      && parseFloat(DecimalPoint(row["strain"])) == Some(r.value.strain)
      && parseFloat(DecimalPoint(row["elasticity"])) == Some(r.value.elasticity)
      && parseFloat(DecimalPoint(row["linear density"])) == Some(r.value.linearDensity)
      && parseFloat(DecimalPoint(row["length"])) == Some(r.value.length)
    ensures EndpointKeys(row, parseInt).Some? && EndpointKeys(row, parseInt).value.0 !in joints ==>
      r == Err(UnknownJoint(EndpointKeys(row, parseInt).value.0 as real))
  {
    var ends :- Endpoints(row, joints, parseInt);
    var at :- ReadAttributes(row, parseFloat);
    Ok(Interval(ends.0, ends.1, at.intervalType, at.strain, at.elasticity, at.linearDensity, at.role, at.length))
  }

  /** `load_intervals_from_csv`, from the rows of the two tables on: all
      joints first, then the intervals in row order; the first failure
      aborts the load. */
  function LoadIntervals(jointRows: seq<Row>, intervalRows: seq<Row>, parseInt: string -> Option<int>,
                         parseFloat: string -> Option<real>): (r: Result<seq<Interval>>)
    ensures r.Ok? <==>
      && ParseJoints(jointRows, parseInt, parseFloat).Ok?
      && forall i :: 0 <= i < |intervalRows| ==>
           IntervalFromRow(intervalRows[i], JointsDict(ParseJoints(jointRows, parseInt, parseFloat).value),
                           parseInt, parseFloat).Ok?
    ensures r.Ok? ==> |r.value| == |intervalRows|
    ensures r.Ok? ==> forall i :: 0 <= i < |intervalRows| ==>
      IntervalFromRow(intervalRows[i], JointsDict(ParseJoints(jointRows, parseInt, parseFloat).value),
                      parseInt, parseFloat) == Ok(r.value[i])
    ensures r.Ok? ==> forall i :: 0 <= i < |r.value| ==>
      && r.value[i].alpha in ParseJoints(jointRows, parseInt, parseFloat).value
      && r.value[i].omega in ParseJoints(jointRows, parseInt, parseFloat).value
      && EndpointKeys(intervalRows[i], parseInt) == Some((r.value[i].alpha.index, r.value[i].omega.index))
  {
    var joints :- ParseJoints(jointRows, parseInt, parseFloat);
    var dict := JointsDict(joints);
    TryMap(intervalRows, (_, row) => IntervalFromRow(row, dict, parseInt, parseFloat))
  }

  /** An interval row naming a joint index that no joint row carries makes
      the whole load fail. */
  lemma DanglingEndpointFails(jointRows: seq<Row>, intervalRows: seq<Row>, parseInt: string -> Option<int>,
                              parseFloat: string -> Option<real>, i: nat, key: int)
    requires i < |intervalRows|
    requires EndpointKeys(intervalRows[i], parseInt).Some?
    requires key == EndpointKeys(intervalRows[i], parseInt).value.0 || key == EndpointKeys(intervalRows[i], parseInt).value.1
    requires ParseJoints(jointRows, parseInt, parseFloat).Ok?
    requires forall j :: 0 <= j < |jointRows| ==> ParseJoints(jointRows, parseInt, parseFloat).value[j].index != key
    ensures LoadIntervals(jointRows, intervalRows, parseInt, parseFloat).Err?
  {
    var joints := ParseJoints(jointRows, parseInt, parseFloat).value;
    assert key !in JointsDict(joints);
  }
}
