/**
 * The skill gauge: a track whose height comes from the `size` prop and a bar
 * whose colour comes from the `color` prop, each looked up in a fixed table
 * with a fallback, and whose target width is `${percentage}%`.
 */
module SkillGauge {
  import opened Wrappers
  import NumberText

  const DefaultColorClass := "bg-primary"
  const DefaultSizeClass := "h-2"

  const ColorMap: map<string, string> := map[
    "primary" := "bg-primary",
    "green" := "bg-green-500",
    "amber" := "bg-amber-500",
    "red" := "bg-red-500",
    "blue" := "bg-blue-500",
    "purple" := "bg-purple-500",
    "indigo" := "bg-indigo-500",
    "pink" := "bg-pink-500"
  ]

  const SizeMap: map<string, string> := map[
    "sm" := "h-1.5",
    "md" := "h-2",
    "lg" := "h-3"
  ]

  /** `colorMap[color] || 'bg-primary'`: none of the table's classes is empty, so the fallback applies exactly to unknown keys. */
  function ColorClass(color: string): (c: string)
    ensures c in ColorMap.Values
  {
    if color in ColorMap && ColorMap[color] != "" then ColorMap[color]
    else assert ColorMap["primary"] == DefaultColorClass; DefaultColorClass
  }

  /** `sizeMap[size] || 'h-2'`. */
  function SizeClass(size: string): (c: string)
    ensures c in SizeMap.Values
  {
    if size in SizeMap && SizeMap[size] != "" then SizeMap[size]
    else assert SizeMap["md"] == DefaultSizeClass; DefaultSizeClass
  }

  /** The eight known colour keys and their classes. */
  lemma KnownColors()
    ensures ColorClass("primary") == "bg-primary"
    ensures ColorClass("green") == "bg-green-500"
    ensures ColorClass("amber") == "bg-amber-500"
    ensures ColorClass("red") == "bg-red-500"
    ensures ColorClass("blue") == "bg-blue-500"
    ensures ColorClass("purple") == "bg-purple-500"
    ensures ColorClass("indigo") == "bg-indigo-500"
    ensures ColorClass("pink") == "bg-pink-500"
  {
  }

  /** A known key gets its own class; any other key gets `bg-primary`. */
  lemma ColorLookup(color: string)
    ensures color in ColorMap ==> ColorClass(color) == ColorMap[color]
    ensures color !in ColorMap ==> ColorClass(color) == "bg-primary"
  {
  }

  /** Only the key `primary` and unknown keys give `bg-primary`. */
  lemma ColorFallbackExactly(color: string)
    ensures ColorClass(color) == "bg-primary" <==> color == "primary" || color !in ColorMap
  {
    if color in ColorMap && color != "primary" {
      assert ColorMap[color] != "bg-primary";
    }
  }

  /** sm, md and lg, and the `h-2` fallback for any other size. */
  lemma SizeLookup(size: string)
    ensures SizeClass("sm") == "h-1.5" && SizeClass("md") == "h-2" && SizeClass("lg") == "h-3"
    ensures size !in {"sm", "md", "lg"} ==> SizeClass(size) == "h-2"
  {
  }

  datatype Gauge = Gauge(
    header: Option<(string, string)>,  // the label text and `{percentage}%`, when `showLabel`
    trackClass: string,
    barClass: string,
    targetWidth: string)

  /** The gauge for the given props, with the component's default prop values. */
  function Render(percentage: int, labelText: string, color: string := "primary",
                  size: string := "md", showLabel: bool := true): (g: Gauge)
    ensures g.trackClass == SizeClass(size) && g.barClass == ColorClass(color)
    ensures g.header.Some? <==> showLabel
    ensures g.header.Some? ==> g.header.value.0 == labelText && g.header.value.1 == g.targetWidth
    ensures |g.targetWidth| >= 2 && g.targetWidth[|g.targetWidth| - 1] == '%'
    ensures NumberText.ParseInt(g.targetWidth[..|g.targetWidth| - 1]) == Some(percentage)
  {
    NumberText.PercentTextRoundTrip(percentage);
    var width := NumberText.PercentText(percentage);
    Gauge(if showLabel then Some((labelText, width)) else None, SizeClass(size), ColorClass(color), width)
  }

  /** With `color` and `size` left out, the bar is `bg-primary` and the track `h-2`. */
  lemma DefaultProps(percentage: int, labelText: string)
    ensures Render(percentage, labelText).barClass == "bg-primary"
    ensures Render(percentage, labelText).trackClass == "h-2"
    ensures Render(percentage, labelText).header.Some?
  {
  }

  /** Different percentages give different target widths. */
  lemma WidthDeterminesPercentage(p: int, q: int, labelText: string)
    ensures Render(p, labelText).targetWidth == Render(q, labelText).targetWidth <==> p == q
  {
    NumberText.IntTextInjective(p, q);
    var a, b := NumberText.PercentText(p), NumberText.PercentText(q);
    if a == b {
      assert a[..|a| - 1] == NumberText.IntText(p);
      assert b[..|b| - 1] == NumberText.IntText(q);
    }
  }
}
