/** `make_sphere` and `make_label`: one marker each for a flagged path point.
    Both start from a default `Marker()` and set the fields they name; every
    other field keeps its message default. */
module Composer {
  import opened Float64
  import opened Msgs
  import opened Config

  const SphereNs := "sphere"
  const LabelNs := "label"

  /** `make_sphere(p, marker_id)`: a sphere at the point's own pose. */
  function MakeSphere(cfg: Config, p: PoseStamped, markerId: int): (m: Marker)
    ensures m.ns == SphereNs && m.id == markerId && m.header.frameId == cfg.frameId
    ensures m.action == Add && m.kind == Sphere
    ensures m.pose == p.pose
    ensures m.scale == Vec3(cfg.sizeSphere, cfg.sizeSphere, cfg.sizeSphere)
    ensures m.color == cfg.colorSphere && m.text == NoText
  {
    DefaultMarker().(
      ns := SphereNs,
      id := markerId,
      header := Header(cfg.frameId),
      action := Add,
      kind := Sphere,
      color := cfg.colorSphere,
      pose := p.pose,
      scale := Vec3(cfg.sizeSphere, cfg.sizeSphere, cfg.sizeSphere))
  }

  /** The label text: the radius 1/kappa with three significant digits when
      `in_radius`, the curvature itself with four otherwise. */
  function LabelText(cfg: Config, kappa: Float): (t: Text)
    ensures cfg.inRadius ==> t == Fmt3(Recip(kappa))
    ensures !cfg.inRadius ==> t == Fmt4(kappa)
  {
    if cfg.inRadius then Fmt3(Recip(kappa)) else Fmt4(kappa)
  }

  /** `make_label(p, kappa, marker_id)`: a text facing the viewer, placed at a
      copy of the point's pose moved by `offset_text` (x, y and z); only the
      text height scale.z is set. The colour is `color_text`. */
  function MakeLabel(cfg: Config, p: PoseStamped, kappa: Float, markerId: int): (m: Marker)
    ensures m.ns == LabelNs && m.id == markerId && m.header.frameId == cfg.frameId
    ensures m.action == Add && m.kind == TextViewFacing
    ensures m.pose.orientation == p.pose.orientation
    ensures m.pose.position == Translate(p.pose.position, cfg.offsetText)
    ensures m.scale == Vec3(0.0, 0.0, cfg.sizeText)
    ensures m.color == cfg.colorText
    ensures m.text == LabelText(cfg, kappa)
  {
    var o := cfg.offsetText;
    var textPose := p.pose.(position := Translate(p.pose.position, o));
    DefaultMarker().(
      ns := LabelNs,
      id := markerId,
      header := Header(cfg.frameId),
      action := Add,
      kind := TextViewFacing,
      text := LabelText(cfg, kappa),
      color := cfg.colorText,
      pose := textPose,
      scale := DefaultMarker().scale.(z := cfg.sizeText))
  }

  /** With a non-negative threshold a flagged curvature is positive (or
      infinite), so the radius shown for it is a finite number; only a
      negative `kappa_max` lets a zero curvature through, whose radius is
      infinite. */
  lemma RadiusOfFlaggedIsFinite(kappa: Float, kappaMax: real)
    requires Gt(kappa, kappaMax)
    ensures kappaMax >= 0.0 ==> Recip(kappa).Fin?
    ensures kappa == Fin(0.0) ==> kappaMax < 0.0 && Recip(kappa) == PosInf
  {
    if kappa.Fin? && kappaMax >= 0.0 {
      assert kappa.v > 0.0;
    }
  }
}
