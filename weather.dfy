/** The weather card (frontend/components/WeatherWidget.tsx): the icon for a
    WMO weather code and the demand hint for tomorrow's forecast. Both are
    if-chains in which the first test that holds decides. */
module Weather {
  import opened Wrappers

  datatype Icon = SunIcon | CloudIcon | RainIcon | SnowIcon | StormIcon

  /** `getWeatherIcon` as written: the rain range 51-82 is tested before
      the snow range 71-77, which it contains. */
  function WeatherIcon(code: int): (icon: Icon)
    ensures icon == SunIcon <==> code == 0 || code == 1
    ensures icon == RainIcon <==> 51 <= code <= 82
    ensures icon == StormIcon <==> code >= 95
    ensures icon == CloudIcon <==> code != 0 && code != 1 && !(51 <= code <= 82) && code < 95
  {
    if code == 0 || code == 1 then SunIcon
    else if 2 <= code <= 3 then CloudIcon
    else if 51 <= code <= 82 then RainIcon
    else if 71 <= code <= 77 then SnowIcon
    else if code >= 95 then StormIcon
    else CloudIcon
  }

  /** The snow icon is never chosen: snowfall codes show rain. */
  lemma SnowIconUnreachable(code: int)
    ensures WeatherIcon(code) != SnowIcon
    ensures 71 <= code <= 77 ==> WeatherIcon(code) == RainIcon
  {
  }

  /** The icon chain with the snow range tested first, as the snow branch
      evidently intends. */
  function WeatherIconIntended(code: int): (icon: Icon)
    ensures icon == SnowIcon <==> 71 <= code <= 77
    ensures icon == RainIcon <==> (51 <= code <= 70 || 78 <= code <= 82)
  {
    if code == 0 || code == 1 then SunIcon
    else if 2 <= code <= 3 then CloudIcon
    else if 71 <= code <= 77 then SnowIcon
    else if 51 <= code <= 82 then RainIcon
    else if code >= 95 then StormIcon
    else CloudIcon
  }

  /** The corrected chain differs from the written one exactly on the
      snowfall codes. */
  lemma IntendedDiffersOnlyOnSnow(code: int)
    ensures WeatherIconIntended(code) != WeatherIcon(code) <==> 71 <= code <= 77
  {
  }

  // ---------------------------------------------------------------------
  // demand hint

  datatype Condition = Rainy | Hot | Cold | Clear | Moderate

  /** The hint; every condition but the last two raises demand. */
  datatype DemandImpact = DemandImpact(condition: Condition, text: string, up: bool)

  /** Tomorrow's maximum temperature as the page receives it: a JSON body
      leaves out an undefined field, and the forecast service may send
      null for a day it has no value for. */
  datatype Temperature = Undefined | Null | Degrees(value: real)

  /** The temperature's value in a relational comparison: undefined becomes
      NaN (no value, so every comparison is false) and null becomes 0. */
  function NumericValue(t: Temperature): (r: Option<real>)
    ensures r.None? <==> t.Undefined?
    ensures t.Null? ==> r == Some(0.0)
    ensures t.Degrees? ==> r == Some(t.value)
  {
    match t
    case Undefined => None
    case Null => Some(0.0)
    case Degrees(v) => Some(v)
  }

  /** A series entry the server did not find arrives as undefined. */
  function TemperatureOf(t: Option<real>): (r: Temperature)
    ensures r.Undefined? <==> t.None?
    ensures t.Some? ==> r == Degrees(t.value)
  {
    if t.Some? then Degrees(t.value) else Undefined
  }

  /** `getDemandImpact` on tomorrow's code and maximum temperature. */
  function GetDemandImpact(code: int, tempMax: Temperature): (d: DemandImpact)
    ensures d.condition == Rainy <==> 61 <= code <= 82
    ensures d.condition == Hot <==> !(61 <= code <= 82) && tempMax.Degrees? && tempMax.value > 35.0
    ensures d.condition == Cold <==>
      !(61 <= code <= 82) && (tempMax.Null? || (tempMax.Degrees? && tempMax.value < 15.0))
    ensures d.condition == Clear <==>
      (code == 0 || code == 1) && (tempMax.Undefined? || (tempMax.Degrees? && 15.0 <= tempMax.value <= 35.0))
    ensures d.up <==> d.condition in {Rainy, Hot, Cold}
  {
    var t := NumericValue(tempMax);
    if 61 <= code <= 82 then DemandImpact(Rainy, "Rainy → +15% comfort food demand", true)
    else if t.Some? && t.value > 35.0 then DemandImpact(Hot, "Hot → +20% cold dishes/drinks", true)
    else if t.Some? && t.value < 15.0 then DemandImpact(Cold, "Cold → +15% hot soups/warm dishes", true)
    else if code == 0 || code == 1 then DemandImpact(Clear, "Clear → Normal demand expected", false)
    else DemandImpact(Moderate, "Moderate weather → Stable demand", false)
  }

  /** Rain decides whatever the temperature. */
  lemma RainOverridesTemperature(code: int, t: Temperature, t': Temperature)
    requires 61 <= code <= 82
    ensures GetDemandImpact(code, t) == GetDemandImpact(code, t')
  {
  }

  /** Exactly 35 and exactly 15 degrees are neither hot nor cold; only the
      code then decides. */
  lemma BoundaryTemperatures(code: int)
    requires !(61 <= code <= 82)
    ensures GetDemandImpact(code, Degrees(35.0)).condition != Hot && GetDemandImpact(code, Degrees(15.0)).condition != Cold
    ensures GetDemandImpact(code, Degrees(35.0)) == GetDemandImpact(code, Degrees(15.0))
    ensures !GetDemandImpact(code, Degrees(35.0)).up
  {
  }

  /** Between the two thresholds the hint is neutral, and a missing
      temperature reads the same as a mild one. */
  lemma MildTemperatureIsNeutral(code: int, t: real)
    requires !(61 <= code <= 82) && 15.0 <= t <= 35.0
    ensures !GetDemandImpact(code, Degrees(t)).up
    ensures GetDemandImpact(code, Degrees(t)).condition == (if code == 0 || code == 1 then Clear else Moderate)
    ensures GetDemandImpact(code, Undefined) == GetDemandImpact(code, Degrees(t))
  {
  }

  /** A null temperature compares as 0 degrees, so it reads as cold; a
      forecast without tomorrow's temperature leaves the code to decide. */
  lemma MissingTemperature(code: int, t: Option<real>)
    requires !(61 <= code <= 82)
    ensures GetDemandImpact(code, Null) == GetDemandImpact(code, Degrees(0.0))
    ensures GetDemandImpact(code, Null).condition == Cold
    ensures t.None? ==> GetDemandImpact(code, TemperatureOf(t)).condition == (if code == 0 || code == 1 then Clear else Moderate)
  {
  }

  /** Drizzle codes 51-60 count as rain for the icon but not for the
      demand hint. */
  lemma DrizzleIsNotRainForDemand(code: int, t: Temperature)
    requires 51 <= code <= 60
    ensures WeatherIcon(code) == RainIcon && GetDemandImpact(code, t).condition != Rainy
  {
  }
}
