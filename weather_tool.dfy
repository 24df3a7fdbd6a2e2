/** The agent's one registered tool, `get_weather(city)`: a fixed sentence
    around the city name, with no lookup and no failure mode. */
module WeatherTool {
  import opened Text

  const Lead := "The weather in "
  const Tail := " is sunny and 25\U{B0}C."

  /** The sentence is the city name between the fixed lead and the fixed
      tail; its length is the city's plus 34 characters (the degree sign
      counts as one).  It is defined for every city, the empty one too. */
  function GetWeather(city: string): (r: string)
    ensures |r| == |city| + 34
    ensures r[..|Lead|] == Lead
    ensures r[|r| - |Tail|..] == Tail
    ensures r[|Lead|..|r| - |Tail|] == city
  {
    Lead + city + Tail
  }

  /** Reads the city name back out of a tool sentence. */
  function CityOf(sentence: string): string
    requires |sentence| >= |Lead| + |Tail|
  {
    sentence[|Lead|..|sentence| - |Tail|]
  }

  /** Recovering the city from the sentence gives back the city. */
  lemma {:induction false} CityRoundTrip(city: string)
    ensures CityOf(GetWeather(city)) == city
  {
  }

  /** Distinct cities give distinct sentences. */
  lemma {:induction false} GetWeatherInjective(a: string, b: string)
    requires a != b
    ensures GetWeather(a) != GetWeather(b)
  {
    CityRoundTrip(a);
    CityRoundTrip(b);
  }

  /** The sentence starts with 'T' and ends with '.', so stripping it leaves
      it unchanged: a tool message carrying it is displayed verbatim. */
  lemma {:induction false} StripGetWeather(city: string)
    ensures Strip(GetWeather(city)) == GetWeather(city)
  {
    var r := GetWeather(city);
    assert r[0] == Lead[0];
    assert r[|r| - 1] == Tail[|Tail| - 1];
    StripTrimmed(r);
  }
}
