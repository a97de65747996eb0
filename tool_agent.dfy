/**
 * The weather tool of src/agents/tool_agent.py: a lookup in a fixed table of
 * five cities, keyed by the lowercased location, formatted as a short report.
 * Python's `str.lower` and `str.title` are the parameters `lower` and `title`.
 */
module ToolAgent {

  /** One row of `weather_database`. */
  datatype WeatherData = WeatherData(temperature: int, condition: string, humidity: int, wind: string)

  /** `weather_database`. */
  const WeatherDatabase: map<string, WeatherData> := map[
    "new york" := WeatherData(72, "Partly Cloudy", 65, "10 mph"),
    "london" := WeatherData(60, "Rainy", 80, "15 mph"),
    "tokyo" := WeatherData(75, "Sunny", 50, "5 mph"),
    "sydney" := WeatherData(80, "Clear", 45, "12 mph"),
    "paris" := WeatherData(68, "Cloudy", 70, "8 mph")
  ]

  /** The decimal digit `d`. */
  function DigitChar(d: nat): char
    requires d < 10
  {
    ('0' as int + d) as char
  }

  predicate IsDigit(c: char) {
    '0' <= c <= '9'
  }

  function DigitValue(c: char): nat
    requires IsDigit(c)
  {
    c as int - '0' as int
  }

  /** `str(n)` for a natural number: its decimal digits, most significant first. */
  function NatToString(n: nat): string
    decreases n
  {
    if n < 10 then [DigitChar(n)] else NatToString(n / 10) + [DigitChar(n % 10)]
  }

  /** `str(i)` for an integer. */
  function IntToString(i: int): string {
    if i < 0 then "-" + NatToString(-i) else NatToString(i)
  }

  /** The value of a non-empty string of decimal digits. */
  function ParseNat(s: string): nat
    requires s != [] && forall k :: 0 <= k < |s| ==> IsDigit(s[k])
    decreases |s|
  {
    if |s| == 1 then DigitValue(s[0]) else 10 * ParseNat(s[..|s| - 1]) + DigitValue(s[|s| - 1])
  }

  /** The decimal rendering is digits only, has no leading zero, and parses back to the number. */
  lemma {:induction false} NatToStringRoundTrip(n: nat)
    ensures NatToString(n) != [] && forall k :: 0 <= k < |NatToString(n)| ==> IsDigit(NatToString(n)[k])
    ensures NatToString(n)[0] != '0' || n == 0
    ensures ParseNat(NatToString(n)) == n
    decreases n
  {
    if n >= 10 {
      NatToStringRoundTrip(n / 10);
      var s := NatToString(n);
      assert s[..|s| - 1] == NatToString(n / 10);
    }
  }

  /** The report for a known city, headed by the formatted location. */
  function Report(heading: string, d: WeatherData): string {
    "Weather for " + heading + ":\n" + ReportBody(d)
  }

  /** The lines of a report after its heading: temperature, condition, humidity and wind, in that order. */
  function ReportBody(d: WeatherData): string {
    "Temperature: " + IntToString(d.temperature) + "\U{B0}F\n"
    + "Condition: " + d.condition + "\n"
    + "Humidity: " + IntToString(d.humidity) + "%\n"
    + "Wind: " + d.wind
  }

  /** `get_weather_data`. */
  function GetWeatherData(location: string, lower: string -> string, title: string -> string): string {
    if location == [] then ""
    else if lower(location) in WeatherDatabase then Report(title(location), WeatherDatabase[lower(location)])
    else "No weather data available for " + location + "."
  }

  /** The three outcomes of a lookup: empty input, known city, unknown city. */
  lemma WeatherCases(location: string, lower: string -> string, title: string -> string)
    ensures location == "" ==> GetWeatherData(location, lower, title) == ""
    ensures location != "" && lower(location) in WeatherDatabase ==>
      GetWeatherData(location, lower, title)
        == "Weather for " + title(location) + ":\n" + ReportBody(WeatherDatabase[lower(location)])
    ensures location != "" && lower(location) !in WeatherDatabase ==>
      GetWeatherData(location, lower, title) == "No weather data available for " + location + "."
  {
  }

  /**
   * Two spellings of a known city that lowercase alike get the same data: the
   * reports agree after their heading lines.
   */
  lemma CaseVariantsShareData(a: string, b: string, lower: string -> string, title: string -> string)
    requires a != "" && b != "" && lower(a) == lower(b) && lower(a) in WeatherDatabase
    ensures var ha := |"Weather for " + title(a) + ":\n"|;
      var hb := |"Weather for " + title(b) + ":\n"|;
      && ha <= |GetWeatherData(a, lower, title)| && hb <= |GetWeatherData(b, lower, title)|
      && GetWeatherData(a, lower, title)[ha..] == GetWeatherData(b, lower, title)[hb..]
      && GetWeatherData(a, lower, title)[ha..] == ReportBody(WeatherDatabase[lower(a)])
  {
    WeatherCases(a, lower, title);
    WeatherCases(b, lower, title);
    var d := WeatherDatabase[lower(a)];
    var ha := "Weather for " + title(a) + ":\n";
    var hb := "Weather for " + title(b) + ":\n";
    assert (ha + ReportBody(d))[|ha|..] == ReportBody(d);
    assert (hb + ReportBody(d))[|hb|..] == ReportBody(d);
  }

  /** For a non-empty location, the report starts "Weather for " exactly when the city is known. */
  lemma KnownIffWeatherHeading(location: string, lower: string -> string, title: string -> string)
    requires location != ""
    ensures var r := GetWeatherData(location, lower, title);
      lower(location) in WeatherDatabase <==> |r| >= 12 && r[..12] == "Weather for "
  {
    var r := GetWeatherData(location, lower, title);
    if lower(location) in WeatherDatabase {
      WeatherCases(location, lower, title);
      assert r[..12] == "Weather for ";
    } else {
      assert r[0] == 'N';
      if |r| >= 12 {
        assert r[..12][0] == 'N';
      }
    }
  }

  /** The table holds exactly the five cities. */
  lemma DatabaseCities()
    ensures WeatherDatabase.Keys == {"new york", "london", "tokyo", "sydney", "paris"}
    ensures |WeatherDatabase| == 5
  {
    // Five entries need five distinct keys: the assertions point the verifier
    // at a differing character for the pairs it does not separate unaided.
    assert "new york" != "london" && "tokyo"[0] != "sydney"[0] && "paris"[0] != "london"[0];
  }
}
