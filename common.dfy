/** Shared vocabulary of the holographic cube: the four hinged panels, an optional value,
    three-component vectors and the absolute value on reals. */
module Common {

  datatype Option<+T> = None | Some(value: T)

  /** The four hinged panels; the front and back faces are static and are not panels. */
  datatype Panel = Left | Right | Top | Bottom

  /** The string by which the application names a panel ('left', 'right', 'top', 'bottom'). */
  function PanelName(p: Panel): (s: string)
    ensures |s| > 0
  {
    match p
    case Left => "left"
    case Right => "right"
    case Top => "top"
    case Bottom => "bottom"
  }

  /** Distinct panels have distinct names, so a name identifies its panel. */
  lemma PanelNameInjective(p: Panel, q: Panel)
    ensures PanelName(p) == PanelName(q) <==> p == q
  {
    if p != q {
      assert PanelName(p)[0] != PanelName(q)[0] || |PanelName(p)| != |PanelName(q)|;
    }
  }

  function Abs(x: real): (r: real)
    ensures r >= 0.0
    ensures r == x || r == -x
  {
    if x < 0.0 then -x else x
  }

  /** A position or look-at point (x, y, z). */
  datatype Vec3 = Vec3(x: real, y: real, z: real)

  /** The origin, where the free camera looks. */
  const Origin: Vec3 := Vec3(0.0, 0.0, 0.0)
}
