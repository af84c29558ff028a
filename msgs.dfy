/** The ROS message types the node reads and writes (geometry_msgs, nav_msgs,
    std_msgs and visualization_msgs), reduced to the fields the node touches.
    Time stamps are not modelled. */
module Msgs {
  import opened Float64

  /** geometry_msgs/Point and geometry_msgs/Vector3. */
  datatype Vec3 = Vec3(x: real, y: real, z: real)

  /** geometry_msgs/Quaternion: the orientation payload, carried through untouched. */
  datatype Quaternion = Quaternion(x: real, y: real, z: real, w: real)

  /** geometry_msgs/Pose. */
  datatype Pose = Pose(position: Vec3, orientation: Quaternion)

  /** std_msgs/Header without stamp and sequence number. */
  datatype Header = Header(frameId: string)

  /** geometry_msgs/PoseStamped: one element of a path. */
  datatype PoseStamped = PoseStamped(header: Header, pose: Pose)

  /** nav_msgs/Path. */
  datatype PathMsg = PathMsg(header: Header, poses: seq<PoseStamped>)

  /** std_msgs/ColorRGBA. */
  datatype ColorRgba = ColorRgba(r: real, g: real, b: real, a: real)

  /** The marker types in use: ARROW (0, the message default), SPHERE (2),
      TEXT_VIEW_FACING (9). */
  datatype MarkerType = Arrow | Sphere | TextViewFacing

  /** Marker actions: ADD (0, the message default) and DELETEALL (3). */
  datatype Action = Add | DeleteAll

  /** The label text, kept abstract: `Fmt3(x)` is `'{0:5.3}'.format(x)` and
      `Fmt4(x)` is `'{0:6.4}'.format(x)`; `NoText` is the empty default. */
  datatype Text = NoText | Fmt3(value: Float) | Fmt4(value: Float)

  /** visualization_msgs/Marker. A rendered marker is identified by (ns, id). */
  datatype Marker = Marker(
    header: Header,
    ns: string,
    id: int,
    kind: MarkerType,
    action: Action,
    pose: Pose,
    scale: Vec3,
    color: ColorRgba,
    text: Text)

  /** visualization_msgs/MarkerArray: one atomic publish. */
  type MarkerArray = seq<Marker>

  const Origin := Vec3(0.0, 0.0, 0.0)

  /** The field values of a freshly constructed `Marker()`. */
  function DefaultMarker(): (m: Marker)
    ensures m.ns == "" && m.id == 0 && m.kind == Arrow && m.action == Add
    ensures m.pose.position == Origin && m.scale == Origin && m.text == NoText
  {
    Marker(Header(""), "", 0, Arrow, Add,
           Pose(Origin, Quaternion(0.0, 0.0, 0.0, 0.0)),
           Origin, ColorRgba(0.0, 0.0, 0.0, 0.0), NoText)
  }

  function Translate(p: Vec3, d: Vec3): Vec3
  {
    Vec3(p.x + d.x, p.y + d.y, p.z + d.z)
  }
}
