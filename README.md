# Pretenst import model

Pretenst describes a tensegrity structure as a set of **joints** (an integer
index and a position) and a set of **intervals** (push or pull members), each
joining two joints: `alpha` and `omega`. Three modules read such a
description; the first two turn it into Blender scene objects:

- `blender_import_json.py` reads a JSON document with a `joints` array and an
  `intervals` array. It then places one copied prototype node per interval
  and per joint.
- `blender_import_pretenst.py` reads two `;`-delimited tables, `joints.csv`
  and `intervals.csv`. Their numbers may use a decimal comma, and the
  `joints` column holds a spreadsheet-quoted pair such as `="3,7"`. It then
  creates one metaball object per interval.
- `pretenst_util.py` is the same CSV loader on its own, with a joint that
  keeps `x`, `y` and `z` as separate fields.

The model is split into modules:

- `Common`: `Option`, `Result` and the errors that stand for the source's
  exceptions. It also holds order-preserving mapping, mapping that stops at
  the first failure, and the last-wins dictionary that
  `{joint.index: joint for joint in joints}` builds.
- `Text`: character replacement and deletion, split and join on a
  separator, and decimal integer text.
- `Geometry`: vectors, quaternions and interpolation.
- `Naming`: the names of the created objects, and their inverses.
- `CsvFormat`: what the two CSV loaders share.
- `PretenstCsv`: the metaball importer.
- `PretenstUtil`: the stand-alone CSV loader.
- `PretenstJson`: the JSON importer.

Python's number parsers, `math.sqrt` and `rotation_difference` are function
parameters:
- `parseFloat` stands for `float()` on text;
- `parseInt` stands for `int()` on text;
- `sqrt` stands for `math.sqrt`;
- `rotationDifference` stands for `rotation_difference`.

Every property is proved for all choices of these parameters.

Each exception the model covers becomes an `Error` value:
- a `KeyError` on a row column is `MissingColumn`;
- a `KeyError` on the joint dictionary is `UnknownJoint`;
- a `ValueError` from a number parser is `NotANumber`;
- a failed two-way unpack is `NotAPair`;
- an `IndexError` is `IndexOutOfRange`;
- an unknown tracking axis is `UnknownTrackAxis`;
- a `ValueError` from `math.sqrt` is `MathDomain`.

The exceptions the model does not cover are listed under "## Left out".

The model evaluates in Python's order, so the error reported is the one the
source raises first:
- `blender_import_pretenst.py` reads `x`, `y`, `z` before `index`;
- `pretenst_util.py` reads `index` first.

The metaball importer's loop creates objects and sets their fields, so
`PretenstCsv.SceneObject` is a class. Its name is a constant, because the
importer never renames an object. The loop's methods return the new objects
in order. The names are computed by `IntervalNames` ahead of the loop, and
the loop body creates, names and places one object per interval. The loop
stops at the first negative elasticity, where `math.sqrt` raises. The
objects created so far stay behind, and the last one is only half placed.
The loop's last step, `obj.pretenst_role = interval.role`, is not modelled
(see "## Left out"). That assignment also raises, on a role outside the
nine of `INTERVAL_ROLES`, so the account of how the loop ends holds for
rows whose role is one of those nine.

The JSON importer's `create_interval_node` and `create_joint_node` change a
node in place, so `PretenstJson.Node` is a class and these two are methods.
The name is set before the tracking axis is checked. So a node with an
unknown axis keeps its new name and nothing else changes.

## Model

| member | source | states |
|---|---|---|
| Common.MapSeq | blender_import_json.py:118 | the mapped list has the input's length, and element i is the function of input element i |
| Common.TryMap | blender_import_pretenst.py:87-90 | succeeds iff every element converts; on success, same length and element i is the conversion of row i; on failure, the error is that of the first failing element |
| Common.IndexBy | blender_import_pretenst.py:82-85 | the dictionary's keys are exactly the keys of the list's elements; each entry carries its own key and is an element of the list |
| Common.IndexByLastWins | blender_import_json.py:119-122 | an element with no later element of the same key is the dictionary's entry for that key (last occurrence wins) |
| Text.ReplaceChar | blender_import_pretenst.py:44 | `s.replace(c, d)`: same length, c replaced by d pointwise, all else kept, no c left |
| Text.ReplaceCharIdempotent | blender_import_pretenst.py:44 | replacing twice is replacing once |
| Text.ReplaceCharAbsent | blender_import_pretenst.py:44 | text without c is unchanged |
| Text.DeleteChar | blender_import_pretenst.py:58 | `s.replace(c, '')`: no c left |
| Text.DeleteCharMultiset | blender_import_pretenst.py:58 | deletion removes exactly the c's: the multiset of characters loses its c's and nothing else, and the length drops by their count |
| Text.DeleteCharAppend | blender_import_pretenst.py:58 | deletion distributes over concatenation |
| Text.DeleteCharAbsent | blender_import_pretenst.py:58 | text without c is unchanged |
| Text.Split | blender_import_pretenst.py:59 | `s.split(c)` returns at least one part |
| Text.SplitParts | blender_import_pretenst.py:59 | the number of parts is the number of separators plus one, and no part holds the separator |
| Text.JoinSplit | blender_import_pretenst.py:59 | joining the parts with the separator gives back the text |
| Text.SplitJoin | blender_import_pretenst.py:59 | splitting a join of separator-free parts gives back the parts |
| Text.TakeUntilPrefix | blender_import_pretenst.py:107 | the text before the first separator of `p + [c] + rest` is p when p has no separator |
| Text.NatToString | blender_import_pretenst.py:107 | the decimal text of a natural is all digits without a leading zero |
| Text.IntToString | blender_import_json.py:44 | the decimal text of an integer holds only digits and '-' |
| Text.ReadNatRoundTrip | blender_import_json.py:44 | reading the decimal text of a natural gives it back |
| Text.IntToStringRoundTrip | blender_import_json.py:44 | reading the decimal text of an integer gives it back |
| Geometry.Lerp | blender_import_json.py:61 | interpolating at 0 gives the start, at 1 the end |
| Geometry.LerpHalfIsMidpoint | blender_import_json.py:61 | interpolating at 0.5 gives (a+b)/2, equally far from both ends |
| Geometry.Length | blender_import_pretenst.py:117 | `v.length` is the square root of the sum of the squared components, which is never negative, so taking a length never raises |
| Naming.JointName | blender_import_json.py:44 | the name `J{index}` gives back the joint's index |
| Naming.IntervalName | blender_import_pretenst.py:107 | the name `I{i} {role} (J{a} ~ J{o})`, which blender_import_json.py:55 builds the same way, starts with 'I' and ends with ')' |
| Naming.IntervalNamePosition | blender_import_pretenst.py:107 | the interval name gives back the position i whatever the role |
| Naming.PositionHeadsName | blender_import_pretenst.py:107 | any name made of 'I', the position, a space and anything gives back the position |
| CsvFormat.Cell | blender_import_pretenst.py:48-52 | `row[column]` succeeds iff the column is present and gives its text; otherwise a missing-column error naming it |
| CsvFormat.IntOf | blender_import_pretenst.py:52 | `int(s)` succeeds iff the parser accepts the text and gives its value; otherwise a number error naming the text |
| CsvFormat.Lookup | blender_import_pretenst.py:61-62 | `joints_dict[key]` succeeds iff the key is present and gives its entry; otherwise an unknown-joint error naming the key |
| CsvFormat.DecimalPoint | blender_import_pretenst.py:44 | the parser's input has the same length, no comma, each comma turned to '.', and every other character kept |
| CsvFormat.DecimalPointIdempotent | blender_import_pretenst.py:44 | normalising twice is normalising once |
| CsvFormat.FloatComma | blender_import_pretenst.py:43-44 | succeeds iff the parser accepts the normalised text and gives its value; otherwise a number error naming the comma-free text |
| CsvFormat.FloatCommaNormalises | blender_import_pretenst.py:43-44 | a decimal comma and a decimal point read the same |
| CsvFormat.FloatCommaWithoutComma | blender_import_pretenst.py:43-44 | text without a comma goes to the parser unchanged |
| CsvFormat.StripQuoting | blender_import_pretenst.py:58 | the stripped cell holds no '=' and no '"' |
| CsvFormat.StripQuotingPlain | blender_import_pretenst.py:58 | stripping leaves text without '=' and '"' as it is |
| CsvFormat.StripQuotingQuoted | blender_import_pretenst.py:58 | stripping removes the surrounding quotes |
| CsvFormat.StripQuotingFormula | blender_import_pretenst.py:58 | stripping removes the formula sign and the quotes |
| CsvFormat.DecodeJointPair | blender_import_pretenst.py:58-59 | the unpack succeeds iff exactly one comma is left; the two parts are what stands before and after it; otherwise the error gives the part count |
| CsvFormat.DecodeStrippedPair | blender_import_pretenst.py:58-59 | a cell that strips to `a,b` decodes to (a, b) |
| CsvFormat.DecodeJointPairQuoted | pretenst_util.py:40-41 | `="a,b"`, `"a,b"` and `a,b` all decode to (a, b) |
| CsvFormat.EndpointKeys | blender_import_pretenst.py:58-62 | the two indices exist only when the `joints` column is present and its stripped text is `a,b` with one comma and both parts integer text, and they are what the parser makes of a and b |
| CsvFormat.EndpointKeysOfPair | blender_import_pretenst.py:58-62 | conversely, a present `joints` cell that strips to `a,b`, with both parts integer text, names exactly the two parsed indices |
| CsvFormat.Endpoints | blender_import_pretenst.py:61-62 | succeeds iff both decoded indices are dictionary keys, giving their entries; an unknown alpha is reported before omega |
| CsvFormat.ReadAttributes | blender_import_pretenst.py:63-68 | succeeds iff every field is present and numeric where it must be; type and role verbatim, the four numbers through `float_comma` |
| PretenstCsv.JointFromRow | blender_import_pretenst.py:47-54 | succeeds iff the row is readable; index is `int` of its column, co is `float_comma` of x, y, z; a missing x is reported first |
| PretenstCsv.ParseJoints | blender_import_pretenst.py:81 | succeeds iff every row is readable; same length and order as the rows |
| PretenstCsv.JointsDict | blender_import_pretenst.py:82-85 | keys are the joints' indices; each entry carries its key and is one of the joints |
| PretenstCsv.JointsDictLastWins | blender_import_pretenst.py:82-85 | on a repeated index the last joint wins |
| PretenstCsv.IntervalFromRow | blender_import_pretenst.py:57-69 | succeeds iff both endpoints are known and the fields readable; alpha and omega are the dictionary entries of the decoded indices; the other fields as read |
| PretenstCsv.LoadIntervals | blender_import_pretenst.py:79-91 | succeeds iff all joints parse and every interval row converts; same row count and order; each endpoint is a parsed joint with the index the row names |
| PretenstCsv.DanglingEndpointFails | blender_import_pretenst.py:61-62 | an endpoint index no joint carries makes the load fail |
| PretenstCsv.Thickness | blender_import_pretenst.py:114-116 | the thickness is sqrt(elasticity) * 2, and a quarter of that for type "Pull" |
| PretenstCsv.ThicknessRule | blender_import_pretenst.py:114-116 | thickness is sqrt(elasticity)*2, a quarter of that exactly for "Pull" |
| PretenstCsv.CsvPlacement | blender_import_pretenst.py:111-119 | a fully placed object is as thick in y as in z, both the thickness, in quaternion mode, turned from the x axis onto the span |
| PretenstCsv.CsvPlacementShape | blender_import_pretenst.py:111-117 | the fully placed object is at the midpoint, equally far from both ends, and its x scale times 2.3 is the span length |
| PretenstCsv.CsvPartialPlacement | blender_import_pretenst.py:108-114 | when `math.sqrt` raises, the new object is already at the midpoint but keeps the unit scale, Euler mode and identity rotation it was created with |
| PretenstCsv.SceneObject.constructor | blender_import_pretenst.py:108-109 | a new object carries the given name, sits at the origin with unit scale and no rotation |
| PretenstCsv.Place | blender_import_pretenst.py:111-119 | on a negative elasticity the object is only moved to the midpoint and the step fails with a math domain error; otherwise it ends fully placed |
| PretenstCsv.Placed | blender_import_pretenst.py:111-119 | what one iteration leaves: always at the midpoint; in quaternion mode exactly when the elasticity is non-negative, then as thick in y as in z by the thickness; otherwise still at unit scale |
| PretenstCsv.CreateAndPlace | blender_import_pretenst.py:107-119 | one iteration: a fresh object with the given name, failing exactly on a negative elasticity, left as the full or the partial placement says |
| PretenstCsv.FirstNegative | blender_import_pretenst.py:106-114 | the position of the first negative elasticity, or the count when none: every elasticity before it is non-negative, and the one at it is negative |
| PretenstCsv.IntervalNames | blender_import_pretenst.py:106-107 | one name per interval, the one at position i naming i and its interval's role and endpoints |
| PretenstCsv.PlaceAll | blender_import_pretenst.py:106-119 | the loop stops after the first negative elasticity and fails with it, or runs to the end; it leaves one fresh, distinct object per iteration, in order, with the given name and the expected placement |
| PretenstCsv.PlaceIntervals | blender_import_pretenst.py:106-119 | fresh objects, and `LoopResult`: objects for the intervals up to and including the first negative elasticity, which makes the loop fail; object i is named after position i and left as its interval's full or partial placement says |
| PretenstCsv.ReadPretenstCsv | blender_import_pretenst.py:98-122 | a failed load creates nothing and reports its error; otherwise one object per interval row up to the first negative elasticity, which fails the import, each fresh, named and placed as `LoopResult` says |
| PretenstUtil.JointFromRow | pretenst_util.py:30-36 | succeeds iff the row is readable; index is `int` of its column, x, y, z `float_comma` of theirs; a missing index is reported first |
| PretenstUtil.ParseJoints | pretenst_util.py:63 | succeeds iff every row is readable; same length and order as the rows |
| PretenstUtil.JointsDict | pretenst_util.py:64-67 | keys are the joints' indices; each entry carries its key and is one of the joints |
| PretenstUtil.JointsDictLastWins | pretenst_util.py:64-67 | on a repeated index the last joint wins |
| PretenstUtil.IntervalFromRow | pretenst_util.py:39-51 | succeeds iff both endpoints are known and the fields readable; endpoints by the decoded indices; type and role verbatim, numbers through `float_comma` |
| PretenstUtil.LoadIntervals | pretenst_util.py:60-73 | succeeds iff all joints parse and every interval row converts; same row count and order; each endpoint is a parsed joint with the index the row names |
| PretenstUtil.DanglingEndpointFails | pretenst_util.py:43-44 | an endpoint index no joint carries makes the load fail |
| PretenstJson.Trunc | blender_import_json.py:95 | `int()` of a number lies within one of it, toward zero |
| PretenstJson.TruncIntegral | blender_import_json.py:95 | `int()` of an integral number is that number |
| PretenstJson.TrackAxisToVector | blender_import_json.py:32-39 | succeeds exactly for "POS_X", "POS_Y", "POS_Z", giving a basis vector; any other string is an axis error naming it |
| PretenstJson.TrackAxisRoundTrip | blender_import_json.py:32-39 | axis names and basis vectors correspond one to one |
| PretenstJson.JointFromRecord | blender_import_json.py:90-97 | co is (x, y, z) and index is `int` of the input index |
| PretenstJson.JointsFromRecords | blender_import_json.py:118 | same length and order as the `joints` array, element by element |
| PretenstJson.JointsDict | blender_import_json.py:119-122 | keys are the joints' indices; each entry carries its key and is one of the joints |
| PretenstJson.JointsDictLastWins | blender_import_json.py:119-122 | on a repeated index the last joint wins |
| PretenstJson.LookupJoint | blender_import_json.py:104-105 | a number finds a joint iff it is integral and a key; otherwise an unknown-joint error naming it |
| PretenstJson.IntervalFromRecord | blender_import_json.py:100-112 | succeeds iff `joints` has two entries that are keys; index is the position, alpha/omega are the entries for joints[0]/joints[1], the other fields copied; an empty list, an unknown alpha and a one-entry list fail in that order |
| PretenstJson.LoadFromJson | blender_import_json.py:115-127 | succeeds iff every interval converts; returns the joints as read and one interval per input with index i, whose endpoints are loaded joints with the indices named |
| PretenstJson.DanglingEndpointFails | blender_import_json.py:123-127 | an endpoint number no joint's index equals makes the load fail |
| PretenstJson.CreateJointNode | blender_import_json.py:42-47 | the node is named `J{index}` and put at the joint; nothing else changes |
| PretenstJson.ScaleFactor | blender_import_json.py:69-72 | the per-axis multiplier for the track axes x, y and z: the span length on the track axis and the diameter on the other two |
| PretenstJson.ScaleFactorAlongTrack | blender_import_json.py:69-72 | for an accepted axis the multiplier is the span length on the track axis and the diameter on the other two |
| PretenstJson.MultiplyScale | blender_import_json.py:73-75 | each scale component is multiplied by its factor; nothing else on the node changes |
| PretenstJson.OrientIntervalNode | blender_import_json.py:57-75 | midpoint location and quaternion rotation from the track axis onto the span; then a negative stiffness fails with a math domain error and the scale kept, and any other multiplies the scale componentwise by diameter across and span length along the track axis; name and axis kept |
| PretenstJson.CreateIntervalNode | blender_import_json.py:50-77 | the node is named first; an unknown axis fails with nothing else changed; otherwise midpoint location and quaternion rotation from the track axis onto the span, then a negative stiffness fails with the scale kept, and any other has each scale component multiplied by its factor |

## Left out

- `float_comma` (pretenst_util.py:26-27) and the joint-pair decoding (pretenst_util.py:40-41) repeat blender_import_pretenst.py's code word for word. The same members, CsvFormat.FloatComma and CsvFormat.DecodeJointPair, model both copies, so their rows cite one copy.
- File reading, `json.load`, `csv.DictReader` and path handling are not modelled. The loaders start from the decoded document or from the rows. A short CSV row, which `DictReader` fills with `None`, is modelled as a missing column. So on a short row the model may report a missing `type` or `role`, which the source copies without complaint. The source then fails later, at the first numeric column that `float_comma` reads as `None`, with an `AttributeError`.
- The exact IEEE behaviour of `float()` and `int()` on text is not modelled. They are parameters, and only the text handed to them is modelled.
- `math.sqrt`, `Vector.length` and `rotation_difference` are floating-point library numerics. They are parameters, so no property depends on their values. The `ValueError` that `math.sqrt` raises on a negative argument is modelled: it is the `MathDomain` failure of PretenstCsv.Place and PretenstJson.OrientIntervalNode, with the partially placed object it leaves behind.
- All arithmetic is over exact reals, not IEEE doubles or the single-precision floats of `mathutils`. This covers the lerp, `/ 2.3`, `* 200`, `/ 4` and the scale products. So the exact equalities of PretenstCsv.CsvPlacementShape (the midpoint and `scale.x * 2.3` equal to the span length) and of Geometry.LerpHalfIsMidpoint hold in the model, but only up to rounding in the host.
- Missing keys in the JSON document are not modelled. Every field of `JointRecord`, `IntervalRecord` and `Fabric` is always present, so the `KeyError`s of blender_import_json.py:91-95, 101, 106-111, 118 and 125 never arise in PretenstJson.LoadFromJson. The CSV side does model a missing column.
- JSON values that are not numbers where a number is expected, and JSON's NaN and Infinity, are not modelled. JSON numbers are reals.
- Blender plumbing is not modelled: operator and menu registration, `clean_main_scene`, collection creation and linking, the prototype `.copy()`, and the loop of `do_import_pretenst_json` that links the nodes. The methods start from the copied node.
- Blender's renaming of duplicate object names (`.001` suffixes) is not modelled, and neither is its cutting of object names to 63 bytes. The name assigned is the name kept, whole.
- The metaball element (`elements.new`) and `test()` in `blender_import_pretenst.py` are host-only and not modelled.
- The `pretenst_role` enum property (blender_import_pretenst.py:121, registered at :159 with the nine identifiers of `INTERVAL_ROLES`, :30-40) is not modelled. Assigning a role outside those nine raises `TypeError` after the object is fully placed, and that aborts the import. The three members below assume every role is one of the nine.
- PretenstCsv.PlaceAll: its outcome and object count are stated for intervals whose roles are all in `INTERVAL_ROLES`; on another role the source stops after that interval's fully placed object with a `TypeError`.
- PretenstCsv.PlaceIntervals: the same restriction to roles in `INTERVAL_ROLES` applies to its `LoopResult`.
- PretenstCsv.ReadPretenstCsv: the same restriction to roles in `INTERVAL_ROLES` applies after a successful load.
- The `datetime.now()` collection name and the report messages are not modelled. They are clock and UI output.
- No strut inset and no degenerate-span check exist in the source, so none is modelled.
- PretenstJson.CreateIntervalNode: the prototype is looked up by the interval's `type` (blender_import_json.py:54). A missing prototype raises there, before the name is set, and the model does not cover that failure.
