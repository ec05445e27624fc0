/**
 * The gradient constants of the app: the four theme presets, each giving a
 * light and a dark gradient for the countdown, date and analytics screens,
 * and the five fixed gradients the gradient card chooses from.
 */
module Gradients {
  import opened Optional

  /** A point of the unit square (`{ x, y }`). */
  datatype Point = Point(x: int, y: int)

  /** `{ colors, start, end }`. */
  datatype Gradient = Gradient(colors: seq<string>, start: Point, end: Point)

  /** `{ light, dark }`: one gradient per colour scheme. */
  datatype SchemeGradients = SchemeGradients(light: Gradient, dark: Gradient)

  /** A theme: the gradients of the three screens. */
  datatype Theme = Theme(countdown: SchemeGradients, date: SchemeGradients, analytics: SchemeGradients)

  /** A diagonal gradient, as every preset uses. */
  function Diagonal(from: string, to: string): Gradient {
    Gradient([from, to], Point(0, 0), Point(1, 1))
  }

  /** A horizontal gradient, as the card gradients use. */
  function Horizontal(from: string, to: string): Gradient {
    Gradient([from, to], Point(0, 0), Point(1, 0))
  }

  const DefaultPreset: Theme := Theme(
    SchemeGradients(Diagonal("#00C9FF", "#92FE9D"), Diagonal("#0077B6", "#48BFE3")),
    SchemeGradients(Diagonal("#FFF886", "#F072B6"), Diagonal("#E65100", "#EF6C00")),
    SchemeGradients(Diagonal("#3C8CE7", "#00EAFF"), Diagonal("#1B5E20", "#2E7D32")))

  const BlueOcean: Theme := Theme(
    SchemeGradients(Diagonal("#2193b0", "#6dd5ed"), Diagonal("#1A3C40", "#2E5D63")),
    SchemeGradients(Diagonal("#4CA1AF", "#C4E0E5"), Diagonal("#003B46", "#07575B")),
    SchemeGradients(Diagonal("#5C258D", "#4389A2"), Diagonal("#273746", "#37697A")))

  const PurpleHaze: Theme := Theme(
    SchemeGradients(Diagonal("#8E2DE2", "#4A00E0"), Diagonal("#5B1865", "#301B70")),
    SchemeGradients(Diagonal("#DA4453", "#89216B"), Diagonal("#5F0F40", "#310E68")),
    SchemeGradients(Diagonal("#FF5F6D", "#FFC371"), Diagonal("#8B0000", "#A65055")))

  const GreenMeadow: Theme := Theme(
    SchemeGradients(Diagonal("#11998e", "#38ef7d"), Diagonal("#155263", "#207561")),
    SchemeGradients(Diagonal("#56ab2f", "#a8e063"), Diagonal("#2C5530", "#3B7A40")),
    SchemeGradients(Diagonal("#134E5E", "#71B280"), Diagonal("#0A3628", "#2F5233")))

  /** The keys of `GradientPresets`. */
  const PresetNames: set<string> := {"default", "blueOcean", "purpleHaze", "greenMeadow"}

  /** `GradientPresets[name]`: the preset of that name, if there is one. */
  function PresetNamed(name: string): (r: Option<Theme>)
    ensures r.Some? <==> name in PresetNames
    ensures name == "default" ==> r == Some(DefaultPreset)
  {
    if name == "default" then Some(DefaultPreset)
    else if name == "blueOcean" then Some(BlueOcean)
    else if name == "purpleHaze" then Some(PurpleHaze)
    else if name == "greenMeadow" then Some(GreenMeadow)
    else None
  }

  /** `Gradients.primary` and the other card gradients. */
  const Primary: Gradient := Horizontal("#00C9FF", "#92FE9D")
  const Warning: Gradient := Horizontal("#FF5F6D", "#FF9966")
  const Neutral: Gradient := Horizontal("#808080", "#A9A9A9")
  const PrimaryDark: Gradient := Horizontal("#0077B6", "#48BFE3")
  const WarningDark: Gradient := Horizontal("#E63946", "#F4845F")
}
