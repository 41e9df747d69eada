/** The crosshair renderer: from the settings to the shapes drawn on the
    overlay surface. Scaled dimensions are exact reals. */
module Renderer {
  import opened Wrappers
  import opened SettingsStore

  /** The styles the renderer knows, plus the fallback for any other string. */
  datatype Style = Default | Sniper | Shotgun | Assault | Smg | Lmg | Pistol | Unrecognised

  /** The style strings with a case of their own in the style switch. */
  const KnownStyleNames: set<string> :=
    {"default", "sniper", "shotgun", "assault", "smg", "lmg", "pistol"}

  /** The string the style selector uses for a known style. */
  function StyleName(st: Style): (name: string)
    requires st != Unrecognised
    ensures name in KnownStyleNames
  {
    match st
    case Default => "default"
    case Sniper => "sniper"
    case Shotgun => "shotgun"
    case Assault => "assault"
    case Smg => "smg"
    case Lmg => "lmg"
    case Pistol => "pistol"
  }

  /** The case of the style switch a style string selects. */
  function ParseStyle(name: string): (st: Style)
    ensures st == Unrecognised <==> name !in KnownStyleNames
    ensures st != Unrecognised ==> StyleName(st) == name
  {
    if name == "default" then Default
    else if name == "sniper" then Sniper
    else if name == "shotgun" then Shotgun
    else if name == "assault" then Assault
    else if name == "smg" then Smg
    else if name == "lmg" then Lmg
    else if name == "pistol" then Pistol
    else Unrecognised
  }

  /** Every known style survives a trip through its name. */
  lemma ParseStyleName(st: Style)
    requires st != Unrecognised
    ensures ParseStyle(StyleName(st)) == st
  {
  }

  /** One drawn element, centred on the overlay. */
  datatype Shape =
    | HLine(width: real, height: real, color: string)
    | VLine(width: real, height: real, color: string)
    | Dot(diameter: real, color: string)
    | Circle(diameter: real, border: real, color: string)

  function Max(a: real, b: real): real { if a >= b then a else b }

  function Min(a: real, b: real): real { if a <= b then a else b }

  /** `shapes` is exactly one cross of the given length and thickness. */
  predicate IsCross(shapes: seq<Shape>, size: real, thickness: real, color: string) {
    shapes == [HLine(size, thickness, color), VLine(thickness, size, color)]
  }

  /** Append a cross, keeping what is already drawn: a horizontal line `size`
      wide and `thickness` high, then a vertical line `thickness` wide and
      `size` high. */
  function DrawCross(canvas: seq<Shape>, size: real, thickness: real, color: string): (r: seq<Shape>)
    ensures |r| == |canvas| + 2 && r[..|canvas|] == canvas
    ensures IsCross(r[|canvas|..], size, thickness, color)
  {
    canvas + [HLine(size, thickness, color), VLine(thickness, size, color)]
  }

  /** Append a round dot of the given diameter, keeping what is already drawn. */
  function DrawDot(canvas: seq<Shape>, diameter: real, color: string): (r: seq<Shape>)
    ensures |r| == |canvas| + 1 && r[..|canvas|] == canvas
    ensures r[|canvas|] == Dot(diameter, color)
  {
    canvas + [Dot(diameter, color)]
  }

  /** Append a ring of the given outer diameter and border width, keeping what
      is already drawn. */
  function DrawCircle(canvas: seq<Shape>, diameter: real, border: real, color: string): (r: seq<Shape>)
    ensures |r| == |canvas| + 1 && r[..|canvas|] == canvas
    ensures r[|canvas|] == Circle(diameter, border, color)
  {
    canvas + [Circle(diameter, border, color)]
  }

  /** The shapes for the current settings, drawn onto a cleared surface. */
  function Render(s: Settings): (r: seq<Shape>)
    ensures 1 <= |r| <= 2
    ensures forall i :: 0 <= i < |r| ==> r[i].color == s.color
  {
    var size := s.size as real;
    var thickness := s.thickness as real;
    var cleared: seq<Shape> := [];
    match ParseStyle(s.style)
    case Sniper => DrawCross(cleared, size, 1.0, s.color)
    case Shotgun =>
      DrawDot(DrawCircle(cleared, size * 1.5, thickness, s.color), Max(2.0, thickness / 2.0), s.color)
    case Assault => DrawCross(cleared, size, thickness, s.color)
    case Smg => DrawCross(cleared, Max(10.0, size * 0.75), Max(1.0, thickness * 0.8), s.color)
    case Lmg => DrawCross(cleared, size, Min(10.0, thickness * 1.5), s.color)
    case Pistol => DrawDot(cleared, Max(3.0, thickness * 1.5), s.color)
    case Default => DrawCross(cleared, size, thickness, s.color)
    case Unrecognised => DrawCross(cleared, size, thickness, s.color)
  }

  /** `default`, `assault` and every unrecognised string draw one cross with
      the configured size and thickness. */
  lemma RenderPlainCross(s: Settings)
    requires s.style == "default" || s.style == "assault" || s.style !in KnownStyleNames
    ensures IsCross(Render(s), s.size as real, s.thickness as real, s.color)
  {
  }

  /** `sniper` draws a cross of the configured size whose thickness is forced
      to 1, so the configured thickness does not matter. */
  lemma RenderSniper(s: Settings, otherThickness: int)
    requires s.style == "sniper"
    ensures IsCross(Render(s), s.size as real, 1.0, s.color)
    ensures Render(s.(thickness := otherThickness)) == Render(s)
  {
  }

  /** `smg` draws a cross at least 10 long and at least 1 thick: each is the
      scaled value (size * 0.75, thickness * 0.8) or its floor, whichever is larger. */
  lemma RenderSmg(s: Settings)
    requires s.style == "smg"
    ensures |Render(s)| == 2 && Render(s)[0].HLine?
    ensures var len, th := Render(s)[0].width, Render(s)[0].height;
      && IsCross(Render(s), len, th, s.color)
      && len >= 10.0 && len >= s.size as real * 0.75
      && (len == 10.0 || len == s.size as real * 0.75)
      && th >= 1.0 && th >= s.thickness as real * 0.8
      && (th == 1.0 || th == s.thickness as real * 0.8)
  {
  }

  /** `lmg` keeps the size and draws thickness * 1.5, capped at 10. */
  lemma RenderLmg(s: Settings)
    requires s.style == "lmg"
    ensures |Render(s)| == 2 && Render(s)[0].HLine?
    ensures var th := Render(s)[0].height;
      && IsCross(Render(s), s.size as real, th, s.color)
      && th <= 10.0 && th <= s.thickness as real * 1.5
      && (th == 10.0 || th == s.thickness as real * 1.5)
  {
  }

  /** `pistol` draws a single dot of diameter thickness * 1.5, at least 3. */
  lemma RenderPistol(s: Settings)
    requires s.style == "pistol"
    ensures |Render(s)| == 1 && Render(s)[0].Dot?
    ensures var d := Render(s)[0].diameter;
      && Render(s) == [Dot(d, s.color)]
      && d >= 3.0 && d >= s.thickness as real * 1.5
      && (d == 3.0 || d == s.thickness as real * 1.5)
  {
  }

  /** `shotgun` draws a circle of diameter size * 1.5 with the thickness as
      border, then a centre dot of diameter thickness / 2, at least 2. */
  lemma RenderShotgun(s: Settings)
    requires s.style == "shotgun"
    ensures |Render(s)| == 2 && Render(s)[1].Dot?
    ensures Render(s)[0] == Circle(s.size as real * 1.5, s.thickness as real, s.color)
    ensures var d := Render(s)[1].diameter;
      && Render(s)[1] == Dot(d, s.color)
      && d >= 2.0 && d >= s.thickness as real / 2.0
      && (d == 2.0 || d == s.thickness as real / 2.0)
  {
  }

  /** Worked values: smg at 20/2, shotgun at 20/2 and pistol at thickness 2. */
  lemma RenderExamples()
    ensures IsCross(Render(Defaults.(style := "smg")), 15.0, 1.6, "#FFFFFF")
    ensures Render(Defaults.(style := "shotgun"))
         == [Circle(30.0, 2.0, "#FFFFFF"), Dot(2.0, "#FFFFFF")]
    ensures Render(Defaults.(style := "pistol")) == [Dot(3.0, "#FFFFFF")]
  {
  }

  /** The render reads only size, thickness, colour and style: opacity,
      language and the lock flag never change what is drawn. */
  lemma RenderReads(a: Settings, b: Settings)
    requires a.size == b.size && a.thickness == b.thickness
    requires a.color == b.color && a.style == b.style
    ensures Render(a) == Render(b)
  {
  }

  /** The overlay element: its opacity and the shapes it currently holds. */
  datatype Surface = Surface(opacity: real, shapes: seq<Shape>)

  /** Redraw the overlay: nothing happens while no surface is attached;
      otherwise the old shapes are cleared, the opacity is applied to the whole
      element and the shapes for `s` are drawn. */
  function ApplyStyle(surface: Option<Surface>, s: Settings): (r: Option<Surface>)
    ensures r.Some? <==> surface.Some?
    ensures r.Some? ==> r.value.opacity == s.opacity && |r.value.shapes| <= 2
  {
    match surface
    case None => None
    case Some(_) => Some(Surface(s.opacity, Render(s)))
  }

  /** What was on the surface before a redraw has no effect on the result. */
  lemma ApplyStyleForgetsPrevious(a: Surface, b: Surface, s: Settings)
    ensures ApplyStyle(Some(a), s) == ApplyStyle(Some(b), s)
    ensures ApplyStyle(Some(a), s).value.shapes == Render(s)
  {
  }
}
