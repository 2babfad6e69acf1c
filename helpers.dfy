/** The dashboard's display helpers: the date formatter's null guard, the
    per-level CSS class and colour tables with their defaults, and
    first-letter capitalisation. */
module Helpers {
  import opened Wrappers
  import opened JsStrings
  import ApiService

  /** What a caller passes as a date: nothing, a `Date` object (always
      truthy), or a plain millisecond count (falsy when 0). */
  datatype DateArg = NoDate | DateObject(ms: int) | Millis(ms: int)

  predicate Falsy(date: DateArg)
  {
    date.NoDate? || (date.Millis? && date.ms == 0)
  }

  /** `formatDateTime`: 'N/A' for a falsy argument, otherwise the locale
      rendering of the instant, which is a parameter here. */
  function FormatDateTime(date: DateArg, render: int -> string): (s: string)
    ensures Falsy(date) ==> s == "N/A"
    ensures !Falsy(date) ==> s == render(date.ms)
  {
    if Falsy(date) then "N/A" else render(date.ms)
  }

  const AqiClassMap: map<string, string> := map[
    "Good" := "bg-aqi-good",
    "Moderate" := "bg-aqi-moderate",
    "Unhealthy for Sensitive" := "bg-aqi-unhealthySensitive",
    "Unhealthy" := "bg-aqi-unhealthy",
    "Very Unhealthy" := "bg-aqi-veryUnhealthy",
    "Hazardous" := "bg-aqi-hazardous"]

  const AqiColorMap: map<string, string> := map[
    "Good" := "#10b981",
    "Moderate" := "#f59e0b",
    "Unhealthy for Sensitive" := "#f97316",
    "Unhealthy" := "#ef4444",
    "Very Unhealthy" := "#991b1b",
    "Hazardous" := "#7f1d1d"]

  /** `map[level] || fallback`: every entry is a non-empty string, so the
      fallback is taken exactly for levels without an entry. */
  function LookupOr(m: map<string, string>, level: string, fallback: string): (r: string)
    ensures level in m && m[level] != "" ==> r == m[level]
    ensures level !in m ==> r == fallback
  {
    if level in m && m[level] != "" then m[level] else fallback
  }

  /** `getAQIClass`. */
  function GetAQIClass(level: string): (r: string)
    ensures r in AqiClassMap.Values
    ensures level in AqiClassMap ==> r == AqiClassMap[level]
    ensures level !in AqiClassMap ==> r == "bg-aqi-moderate"
  {
    assert AqiClassMap["Moderate"] == "bg-aqi-moderate";
    LookupOr(AqiClassMap, level, "bg-aqi-moderate")
  }

  /** `getAQIColor`. */
  function GetAQIColor(level: string): (r: string)
    ensures r in AqiColorMap.Values
    ensures level in AqiColorMap ==> r == AqiColorMap[level]
    ensures level !in AqiColorMap ==> r == "#f59e0b"
  {
    assert AqiColorMap["Moderate"] == "#f59e0b";
    LookupOr(AqiColorMap, level, "#f59e0b")
  }

  /** Every level `getAQILevel` can produce has its own entry in both
      tables, so the defaults are never reached from it. */
  lemma EveryLevelHasEntries(aqi: real)
    ensures ApiService.GetAQILevel(aqi) in AqiClassMap
    ensures ApiService.GetAQILevel(aqi) in AqiColorMap
  {
  }

  /** An unknown level is shown exactly as Moderate is. */
  lemma UnknownLevelLooksModerate(level: string)
    requires level !in AqiClassMap
    ensures GetAQIClass(level) == GetAQIClass("Moderate")
    ensures GetAQIColor(level) == GetAQIColor("Moderate")
  {
  }

  /** Distinct levels get distinct classes and colours. */
  lemma TablesDistinguishLevels(a: string, b: string)
    requires a in AqiClassMap && b in AqiClassMap && a != b
    ensures GetAQIClass(a) != GetAQIClass(b)
    ensures GetAQIColor(a) != GetAQIColor(b)
  {
  }

  /** `capitalize`: '' for a missing or empty string, otherwise the first
      character upper-cased and the rest unchanged. */
  function Capitalize(str: Option<string>): (r: string)
    ensures str.None? || str.value == [] ==> r == []
    ensures str.Some? && str.value != [] ==>
              |r| == |str.value| && r[0] == UpperChar(str.value[0]) && r[1..] == str.value[1..]
  {
    if str.None? || str.value == [] then [] else [UpperChar(str.value[0])] + str.value[1..]
  }

  /** Capitalising twice is capitalising once. */
  lemma CapitalizeIdempotent(str: Option<string>)
    ensures Capitalize(Some(Capitalize(str))) == Capitalize(str)
  {
  }
}
