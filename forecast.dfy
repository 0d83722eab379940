/**
 * The weather-card icon: the lookup from a weather-service icon code to the
 * icon-font classes of the forecast card.
 */
module Forecast {
  import opened Wrappers
  import opened JsText

  /** The classes used when the code has no entry. */
  const DefaultIconClass: string := "fas fa-cloud-sun-rain"

  /** The code the forecast renderer substitutes for a missing or empty code. */
  const MissingIconCode: string := "04d"

  /** The lookup table of `getWeatherIconClass`, twelve entries. */
  const IconClasses: map<string, string> := map[
    "01d" := "fas fa-sun",
    "01n" := "fas fa-moon",
    "02d" := "fas fa-cloud-sun",
    "02n" := "fas fa-cloud-moon",
    "03d" := "fas fa-cloud",
    "04d" := "fas fa-cloud-meatball",
    "09d" := "fas fa-cloud-showers-heavy",
    "10d" := "fas fa-cloud-sun-rain",
    "11d" := "fas fa-bolt",
    "13d" := "fas fa-snowflake",
    "50d" := "fas fa-smog",
    "error" := "fas fa-exclamation-triangle"
  ]

  /**
   * `map[iconCode] || default`: the entry when there is one and it is not
   * empty, the default otherwise.  The default comes out exactly for codes
   * outside the table and for the one code whose entry is the default.
   */
  function WeatherIconClass(iconCode: string): (cls: string)
    ensures iconCode in IconClasses ==> cls == IconClasses[iconCode]
    ensures iconCode !in IconClasses ==> cls == DefaultIconClass
    ensures cls == DefaultIconClass <==> iconCode !in IconClasses || iconCode == "10d"
  {
    if iconCode in IconClasses && IconClasses[iconCode] != "" then IconClasses[iconCode]
    else DefaultIconClass
  }

  /** A class list of the icon font: the `fas` style class, a space, and one icon class. */
  predicate StyledIcon(cls: string)
  {
    |cls| > 4 && cls[..4] == "fas " && forall k | 4 <= k < |cls| :: cls[k] != ' '
  }

  /** The class lists of the clear, cloudy and overcast codes are styled. */
  lemma CloudClassesStyled()
    ensures StyledIcon("fas fa-sun") && StyledIcon("fas fa-moon")
    ensures StyledIcon("fas fa-cloud-sun") && StyledIcon("fas fa-cloud-moon")
    ensures StyledIcon("fas fa-cloud") && StyledIcon("fas fa-cloud-meatball")
  {
  }

  /** The class lists of the rain, storm, snow, mist and error codes are styled. */
  lemma WeatherClassesStyled()
    ensures StyledIcon("fas fa-cloud-showers-heavy") && StyledIcon("fas fa-cloud-sun-rain")
    ensures StyledIcon("fas fa-bolt") && StyledIcon("fas fa-snowflake")
    ensures StyledIcon("fas fa-smog") && StyledIcon("fas fa-exclamation-triangle")
  {
  }

  /** Every class list in the table, and the default, is of that form. */
  lemma TableIsStyled()
    ensures StyledIcon(DefaultIconClass)
    ensures forall c | c in IconClasses :: StyledIcon(IconClasses[c])
  {
    CloudClassesStyled();
    WeatherClassesStyled();
  }

  /** A styled class list splits on spaces into its two classes. */
  lemma StyledIconTokens(cls: string)
    requires StyledIcon(cls)
    ensures Split(cls, ' ') == ["fas", cls[4..]]
  {
    var name := cls[4..];
    assert cls == "fas" + [' '] + name;
    SplitAppend("fas", ' ', name);
    SplitAtom("fas", ' ');
    SplitAtom(name, ' ');
  }

  /**
   * The forecast renderer adds `iconClass.split(' ')` to the icon's class
   * list: whatever the code, that is exactly two classes, `fas` and the
   * icon's own class.
   */
  lemma IconClassTokens(iconCode: string)
    ensures Split(WeatherIconClass(iconCode), ' ') == ["fas", WeatherIconClass(iconCode)[4..]]
  {
    TableIsStyled();
    StyledIconTokens(WeatherIconClass(iconCode));
  }

  /**
   * The forecast renderer's call `getWeatherIconClass(weatherData.iconCode || '04d')`:
   * an absent or empty code shows the `04d` icon, any other code is looked up.
   */
  function ForecastIconClass(iconCode: Option<string>): (cls: string)
    ensures iconCode.None? || iconCode == Some("") ==> cls == "fas fa-cloud-meatball"
    ensures iconCode.Some? && iconCode.value != "" ==> cls == WeatherIconClass(iconCode.value)
  {
    var code := if iconCode.Some? && iconCode.value != "" then iconCode.value else MissingIconCode;
    WeatherIconClass(code)
  }
}
