# find_max_curvature, modelled in Dafny

The ROS node `find_max_curvature_node` subscribes to a planar path
(`nav_msgs/Path` on `sPath`), computes a discrete curvature at the interior
indices 1 .. len-3 (not at len-2, the last interior point), and publishes
`visualization_msgs/MarkerArray`s on `bad_kappa` that mark every examined
point whose curvature is above `kappa_max`: a sphere at the point and, when
enabled, a text label showing the local radius (or the curvature). For every received path, `path_cb` hands the publisher a
DELETEALL marker first and only then the new batch.

This project models that pipeline and proves its behaviour:

- `float64.dfy` (`Float64`): the part of numpy float64 behaviour the node can
  observe — division by zero giving NaN or an infinity, `np.clip`,
  `np.arccos` outside its domain, and `>` being false for NaN.
- `msgs.dfy` (`Msgs`): the message types, reduced to the fields the node
  reads or writes, and the field values of a fresh `Marker()`.
- `curvature.dfy` (`Curvature`): `find_kappa`. The numeric primitives
  `np.dot`, `la.norm` and `np.arccos` are parameters (`FloatOps`), so the
  flagging and composition results hold for any curvature they produce;
  the lemmas that need them to be the Euclidean ones say so
  (`DotVanishes`, `NormDefinite`, `NormEuclidean`, `IsArccos`).
- `config.dfy` (`Config`): the parameters read once at start-up, as one
  immutable `Config` value resolved from optional parameter-server values.
- `composer.dfy` (`Composer`): `make_sphere` and `make_label`.
- `node.dfy` (`Node`): the scan loop of `path_cb`, `publish_marker`, the
  per-message protocol, and the node as a class whose `published` field is
  everything sent on `bad_kappa` and whose `infoLog` field is everything
  logged with `rospy.loginfo`.

The scan loop is kept as written: `range(1, len(p) - 2)` examines indices
1 .. len-3, so index len-2 — the last point that has a successor — is never
examined (`Node.ScanEnd`, `Node.BoundaryNeverFlagged`). A path therefore
needs at least four poses before anything can be flagged.

Consequences of the code as written:

- A path of three poses flags nothing: the loop `range(1, len(p) - 2)`
  stops before index len-2, so for three poses it examines no index at all.
- Coincident consecutive points give curvature NaN (0/0 at line 20), and
  `NaN > kappa_max` is false, so such a point is not flagged
  (`Curvature.DegenerateIsNaN`, `Node.DegenerateNeverFlagged`).
- The label's colour is `color_text` (`make_label` declares `global
  color_sphere` but reads `color_text`).
- With a negative `kappa_max` a zero curvature is flagged and its radius
  label formats `1.0 / 0.0`, which numpy evaluates to infinity
  (`Composer.RadiusOfFlaggedIsFinite`).

Calling `path_cb` twice with the same path hands the publisher the same
arrays twice, up to header stamps: `PathCb` appends `OnPath(ops, cfg, msg)`,
a function of the path and the fixed configuration only.

## Model

| member | source | states |
|---|---|---|
| `Float64.Gt` | nodes/find_max_curvature_node.py:113 | `kappa > kappa_max` is strict: a value equal to the threshold is not above it, and NaN never is |
| `Float64.DivReal` | nodes/find_max_curvature_node.py:20 | float division: the quotient for a non-zero divisor; for a zero divisor NaN exactly when the dividend is 0, +inf or -inf by its sign |
| `Float64.Div` | nodes/find_max_curvature_node.py:22 | NaN divided by anything is NaN; a finite value over a non-zero one is the quotient; a finite result needs both |
| `Float64.Recip` | nodes/find_max_curvature_node.py:64 | `1.0 / kappa` is 1/kappa for non-zero finite kappa, +inf for 0, NaN exactly for NaN |
| `Float64.Clip` | nodes/find_max_curvature_node.py:21 | `np.clip` keeps NaN (and only NaN) as NaN, puts every other result in [lo, hi], and leaves values already there unchanged |
| `Float64.ArcCos` | nodes/find_max_curvature_node.py:21 | `np.arccos` is finite exactly on finite arguments in [-1, 1], where it is the real arccosine |
| `Msgs.DefaultMarker` | nodes/find_max_curvature_node.py:100 | a fresh `Marker()` has empty ns, id 0, type ARROW, action ADD, zero position and scale, empty text |
| `Curvature.FindKappa` | nodes/find_max_curvature_node.py:13-23 | `find_kappa` on the x/y parts of the two segments; its properties are stated by `DegenerateIsNaN`, `NonDegenerateIsAngleOverLength`, `KappaNonNegative`, `StraightIsZero` and `RightAngle` |
| `Curvature.TurnRate` | nodes/find_max_curvature_node.py:20-22 | the float pipeline divide, clip, arccos, divide; its finite case is stated by `TurnRateFinite`, its NaN case by `DegenerateIsNaN` |
| `Curvature.TurnRateFinite` | nodes/find_max_curvature_node.py:20-22 | with both segment lengths positive the curvature is arccos(clip(dot / (n1 n2), -1, 1)) / n1, finite |
| `Curvature.DegenerateIsNaN` | nodes/find_max_curvature_node.py:13-23 | if a point coincides with its predecessor or successor, the curvature is NaN |
| `Curvature.NonDegenerateIsAngleOverLength` | nodes/find_max_curvature_node.py:13-23 | otherwise both segment norms are positive and the curvature is the finite clipped turning angle over the incoming segment length |
| `Curvature.KappaNonNegative` | nodes/find_max_curvature_node.py:13-23 | the curvature is NaN or a non-negative finite number |
| `Curvature.StraightIsZero` | nodes/find_max_curvature_node.py:13-23 | three points moving forward along one line have curvature exactly 0 |
| `Curvature.RightAngle` | nodes/find_max_curvature_node.py:13-23 | a right-angle turn has curvature arccos(0) / \|v1\| |
| `Config.DefaultOffsetText` | nodes/find_max_curvature_node.py:132-135 | the default label offset is (1.0, 0, 0.5) when showing radii and (1.5, 0, 0.5) otherwise |
| `Config.ResolveConfig` | nodes/find_max_curvature_node.py:124-136 | a set parameter is used as given, an unset one takes its default (0.2, true, true, "map", the two colours, 0.6, 0.8), and the offset default follows the resolved `in_radius` |
| `Config.AllDefaults` | nodes/find_max_curvature_node.py:124-136 | with no parameter set the configuration is 0.2, labels on, radii on, "map", the two default colours, 0.6, 0.8 and offset (1.0, 0, 0.5) |
| `Composer.MakeSphere` | nodes/find_max_curvature_node.py:26-46 | ns "sphere", the given id and frame, ADD, SPHERE, the point's pose unchanged, scale size_sphere on all axes, colour color_sphere, no text |
| `Composer.LabelText` | nodes/find_max_curvature_node.py:63-66 | the text formats 1/kappa with 3 digits when `in_radius`, kappa with 4 digits otherwise |
| `Composer.MakeLabel` | nodes/find_max_curvature_node.py:49-78 | ns "label", the given id and frame, ADD, TEXT_VIEW_FACING, position = point + offset_text on x, y and z, orientation unchanged, scale (0, 0, size_text), colour color_text |
| `Composer.RadiusOfFlaggedIsFinite` | nodes/find_max_curvature_node.py:64 | with kappa_max >= 0 the radius of a flagged point is finite; a flagged zero curvature needs kappa_max < 0 and gives an infinite radius |
| `Node.FlaggedBelow` | nodes/find_max_curvature_node.py:111-114 | every index the loop has appended below `hi` lies in 1 .. hi-1 |
| `Node.ScanEnd` | nodes/find_max_curvature_node.py:111 | the bound `len(p) - 2` of `range(1, len(p) - 2)`; `BoundaryNeverFlagged` and `ShortPathNothingFlagged` state that index len-2 is never examined |
| `Node.KappaAt` | nodes/find_max_curvature_node.py:112 | `find_kappa(p[i - 1], p[i], p[i + 1])`; `BadKappasSpec` pairs each entry with it, `DegenerateNeverFlagged` and `StraightNotBad` state its NaN and straight cases |
| `Node.IsBad` | nodes/find_max_curvature_node.py:113 | the test `kappa > kappa_max` at index i; `BadKappasBelowStep`, `BadKappasSpec` and `BatchIffSomethingFlagged` state flagging and batches in terms of it |
| `Node.BadKappasBelow` | nodes/find_max_curvature_node.py:110-114 | `bad_kappas` after the iterations below `hi`; `BadKappasBelowStep` states one iteration, and it is the invariant of `ScanBadKappas` |
| `Node.FlaggedIndices` | nodes/find_max_curvature_node.py:109-114 | the indices the loop flags over 1 .. len-3; characterised by `BadKappasSpec` (iff and order) |
| `Node.BadKappas` | nodes/find_max_curvature_node.py:109-114 | `bad_kappas` after the loop; `ScanBadKappas` computes it, `BadKappasSpec`, `FlaggedAboveThreshold` and `CollinearPathNothingFlagged` state its contents |
| `Node.BadKappasBelowStep` | nodes/find_max_curvature_node.py:111-114 | one loop step appends `(p[i], kappa_i)` exactly when kappa_i > kappa_max |
| `Node.ScanBadKappas` | nodes/find_max_curvature_node.py:109-114 | the loop's `bad_kappas` is the specification `BadKappas` of the path |
| `Node.FlaggedBelowMembers` | nodes/find_max_curvature_node.py:111-114 | an index is appended below `hi` exactly when it is in 1 .. hi-1 and its curvature is above kappa_max |
| `Node.FlaggedBelowIncreasing` | nodes/find_max_curvature_node.py:111-114 | appended indices are strictly increasing |
| `Node.BadKappasSpec` | nodes/find_max_curvature_node.py:111-114 | index i is flagged iff 1 <= i <= len-3 and kappa_i > kappa_max; flagged indices increase; entry j pairs p[f_j] with its own curvature |
| `Node.BoundaryNeverFlagged` | nodes/find_max_curvature_node.py:111 | the first, last and second-to-last poses are never flagged |
| `Node.ShortPathNothingFlagged` | nodes/find_max_curvature_node.py:111 | a path of fewer than four poses flags nothing |
| `Node.FlaggedAboveThreshold` | nodes/find_max_curvature_node.py:113-114 | every flagged curvature is above kappa_max, hence neither NaN nor equal to it |
| `Node.DegenerateNeverFlagged` | nodes/find_max_curvature_node.py:112-113 | a point coinciding with a neighbour is never flagged |
| `Node.StraightNotBad` | nodes/find_max_curvature_node.py:112-113 | a point where the path goes straight on is not above a non-negative threshold |
| `Node.CollinearPathNothingFlagged` | nodes/find_max_curvature_node.py:109-114 | a path moving forward along one line flags nothing when kappa_max >= 0 |
| `Node.BuildBatch` | nodes/find_max_curvature_node.py:85-91 | the loop's marker array is the specification `MarkerBatch` of the flagged points |
| `Node.MarkersFor` | nodes/find_max_curvature_node.py:87-91 | the sphere and, with labels on, the label of one entry of `bad_kappas`; stated by `BatchLayout` and `MarkerOfBatch` |
| `Node.MarkerBatch` | nodes/find_max_curvature_node.py:85-91 | the array `publish_marker` builds; `BuildBatch` computes it, `BatchLayout`, `MarkerOfBatch` and `BatchIdentities` state its layout and ids |
| `Node.BatchLayout` | nodes/find_max_curvature_node.py:85-91 | N markers without labels (marker k is sphere k); 2N with labels (marker 2k sphere k, marker 2k+1 label k, both for entry k of `bad_kappas`) |
| `Node.MarkerOfBatch` | nodes/find_max_curvature_node.py:85-91 | each batch marker has id = the position k (0 .. N-1) of its point in `bad_kappas`, not the pose's index in the path; action ADD, ns "label" exactly at odd positions when labels are on |
| `Node.BatchIdentities` | nodes/find_max_curvature_node.py:85-91 | no two markers of a batch share (ns, id); ids lie in 0 .. N-1, the positions in `bad_kappas`; each id occurs as a sphere, and as a label when labels are on |
| `Node.ClearArray` | nodes/find_max_curvature_node.py:99-104 | the one DELETEALL marker in the configured frame; stated by `ClearComesFirst` |
| `Node.OnPath` | nodes/find_max_curvature_node.py:99-119 | the arrays one `path_cb` publishes; stated by `ClearComesFirst`, `EmptyPathOnlyClear`, `ShortPathOnlyClear` and `BatchIffSomethingFlagged` |
| `Node.OnPathLog` | nodes/find_max_curvature_node.py:106-119 | the lines one `path_cb` logs; stated by `EmptyPathOnlyClear`, `ShortPathOnlyClear` and `BatchIffSomethingFlagged` |
| `Node.ClearComesFirst` | nodes/find_max_curvature_node.py:99-104 | every call first publishes one array holding one DELETEALL marker in the configured frame; nothing later in the call deletes |
| `Node.EmptyPathOnlyClear` | nodes/find_max_curvature_node.py:106-107 | an empty path publishes only the clear and logs nothing |
| `Node.ShortPathOnlyClear` | nodes/find_max_curvature_node.py:106-119 | a path of one to three poses publishes only the clear and logs "all OK" |
| `Node.BatchIffSomethingFlagged` | nodes/find_max_curvature_node.py:116-119 | at most two arrays per call; a batch follows the clear iff some examined index is above kappa_max; the batch has N or 2N markers; "all OK" is logged iff the path is non-empty and nothing is flagged |
| `Node.FindMaxCurvatureNode.constructor` | nodes/find_max_curvature_node.py:124-139 | the configuration is resolved once; nothing is published or logged yet |
| `Node.FindMaxCurvatureNode.Publish` | nodes/find_max_curvature_node.py:92 | publishing appends exactly one array |
| `Node.FindMaxCurvatureNode.PublishMarker` | nodes/find_max_curvature_node.py:81-92 | `publish_marker` appends exactly one array, the batch |
| `Node.FindMaxCurvatureNode.PathCb` | nodes/find_max_curvature_node.py:95-119 | `path_cb` appends exactly `OnPath` to the published arrays and `OnPathLog` to the log |

## Left out

- ROS plumbing (`init_node`, `Subscriber`, `Publisher`, `spin`): the
  publisher is the `published` sequence, the subscription is a call of
  `PathCb`.
- `rospy.Time.now()` header stamps: wall-clock values, not modelled; headers
  carry only `frame_id`.
- The numeric bodies of `np.dot`, `la.norm` and `np.arccos`: they are
  parameters; float rounding and the sign of zero are not modelled (values
  are exact reals), so `1.0 / -0.0` is not distinguished from `1.0 / 0.0`.
- The exact text of `'{0:5.3}'` and `'{0:6.4}'`: the label text records
  only which format is applied to which value.
- `copy.deepcopy`: only its value semantics (the point's own pose is left
  unchanged) is modelled.
- Malformed parameters: a colour or offset list with fewer than four or
  three entries would raise `IndexError`; the model takes colours and the
  offset as records.
- Marker fields the node never sets (lifetime, frame_locked, points, colors,
  mesh fields) are not modelled.
- numpy's `RuntimeWarning`s on stderr for 0/0 at line 20 ("invalid value")
  and for `1.0 / kappa` with kappa 0 at line 64 ("divide by zero") are not
  modelled; only the resulting NaN and infinity are.
- The publisher's `queue_size=1` (line 139): rospy may drop the queued
  DELETEALL array when the batch is published right after it, so older
  markers whose (ns, id) the new batch does not reuse can survive. The model
  records what `path_cb` hands to the publisher, not what subscribers
  receive.
