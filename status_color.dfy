/** `getStatusColor` (app/utils/statusColorFormatter.ts): a class-name lookup with a fallback. */
module StatusColorFormatter {

  /** The fallback used when the caller passes none. */
  const DefaultFallback := "text-white"

  /**
   * `map[value] || fallback`: a missing key and an empty class name (falsy in
   * JavaScript) both fall back.
   */
  function GetStatusColor(value: string, colors: map<string, string>, fallback: string := DefaultFallback): (color: string)
    ensures value in colors && colors[value] != "" ==> color == colors[value]
    ensures value !in colors ==> color == fallback
    ensures value in colors && colors[value] == "" ==> color == fallback
  {
    if value in colors && colors[value] != "" then colors[value] else fallback
  }

  /** The color is always one of the map's non-empty entries or the fallback, and is non-empty when the fallback is. */
  lemma StatusColorRange(value: string, colors: map<string, string>, fallback: string)
    ensures var color := GetStatusColor(value, colors, fallback);
      && (color == fallback || (color in colors.Values && color != ""))
      && (fallback != "" ==> color != "")
  {
  }

  /** With the default fallback the color is never empty. */
  lemma DefaultStatusColorNonEmpty(value: string, colors: map<string, string>)
    ensures GetStatusColor(value, colors) != ""
    ensures value !in colors ==> GetStatusColor(value, colors) == "text-white"
  {
  }
}
