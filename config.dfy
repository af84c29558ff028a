/** The node's parameters. The source reads them once at start-up into module
    globals; here they are one immutable `Config` value resolved from the
    parameter server's answers, passed explicitly to everything that reads it. */
module Config {
  import opened Msgs

  datatype Option<T> = None | Some(value: T)
  {
    function GetOr(default: T): T
    {
      match this
      case Some(v) => v
      case None => default
    }
  }

  /** What the parameter server holds for each name the node asks for; `None`
      when the parameter is not set. */
  datatype Params = Params(
    kappaMax: Option<real>,       // ~kappa_max
    enableText: Option<bool>,     // ~enable_text
    showRadius: Option<bool>,     // ~show_radius
    frameId: Option<string>,      // frame_id
    colorSphere: Option<ColorRgba>, // color_sphere
    colorText: Option<ColorRgba>,   // color_text
    sizeSphere: Option<real>,     // size_sphere
    sizeText: Option<real>,       // size_text
    offsetText: Option<Vec3>)     // offset_text

  /** The resolved globals: `kappa_max`, `show_labels`, `in_radius`, `frame_id`,
      `color_sphere`, `color_text`, `size_sphere`, `size_text`, `offset_text`. */
  datatype Config = Config(
    kappaMax: real,
    showLabels: bool,
    inRadius: bool,
    frameId: string,
    colorSphere: ColorRgba,
    colorText: ColorRgba,
    sizeSphere: real,
    sizeText: real,
    offsetText: Vec3)

  const NoParams := Params(None, None, None, None, None, None, None, None, None)

  /** The label offset used when `offset_text` is not set: further out when the
      label shows a curvature, which is a longer text than a radius. */
  function DefaultOffsetText(inRadius: bool): (d: Vec3)
    ensures inRadius ==> d == Vec3(1.0, 0.0, 0.5)
    ensures !inRadius ==> d == Vec3(1.5, 0.0, 0.5)
  {
    Vec3(if inRadius then 1.0 else 1.5, 0.0, 0.5)
  }

  /** The `rospy.get_param` calls at start-up: every parameter that is set is
      taken as it is; every one that is not gets the default given in its
      `get_param` call, and the default label offset is chosen by the already
      resolved `in_radius`, whether that came from the server or from its own
      default. */
  function ResolveConfig(p: Params): (c: Config)
    ensures p.kappaMax.Some? ==> c.kappaMax == p.kappaMax.value
    ensures p.kappaMax.None? ==> c.kappaMax == 0.2
    ensures c.showLabels == (p.enableText.None? || p.enableText.value)
    ensures c.inRadius == (p.showRadius.None? || p.showRadius.value)
    ensures c.frameId == if p.frameId.Some? then p.frameId.value else "map"
    ensures c.colorSphere == if p.colorSphere.Some? then p.colorSphere.value else ColorRgba(0.996, 0.426, 0.641, 0.5)
    ensures c.colorText == if p.colorText.Some? then p.colorText.value else ColorRgba(1.0, 1.0, 1.0, 1.0)
    ensures c.sizeSphere == if p.sizeSphere.Some? then p.sizeSphere.value else 0.6
    ensures c.sizeText == if p.sizeText.Some? then p.sizeText.value else 0.8
    ensures p.offsetText.Some? ==> c.offsetText == p.offsetText.value
    ensures p.offsetText.None? ==> c.offsetText == DefaultOffsetText(c.inRadius)
  {
    var inRadius := p.showRadius.GetOr(true);
    Config(
      p.kappaMax.GetOr(0.2),
      p.enableText.GetOr(true),
      inRadius,
      p.frameId.GetOr("map"),
      p.colorSphere.GetOr(ColorRgba(0.996, 0.426, 0.641, 0.5)),
      p.colorText.GetOr(ColorRgba(1.0, 1.0, 1.0, 1.0)),
      p.sizeSphere.GetOr(0.6),
      p.sizeText.GetOr(0.8),
      p.offsetText.GetOr(DefaultOffsetText(inRadius)))
  }

  /** A node started with no parameters on the server runs with every
      `get_param` default, the radius label offset among them. */
  lemma AllDefaults()
    ensures ResolveConfig(NoParams) ==
            Config(0.2, true, true, "map", ColorRgba(0.996, 0.426, 0.641, 0.5), ColorRgba(1.0, 1.0, 1.0, 1.0),
                   0.6, 0.8, Vec3(1.0, 0.0, 0.5))
  {
  }
}
